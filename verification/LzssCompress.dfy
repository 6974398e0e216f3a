/** The compressor: an index of three-byte sequences, the search for the longest match,
    and the output with its flag bytes patched in afterwards. */
module LzssCompress {
  import opened LzssBits
  import opened LzssFormat

  const WINDOW_SIZE := 0x4000 + 128

  // ---------------------------------------------------------------------- the index

  /** The three bytes at a position, less at the very end. */
  function KeyAt(data: seq<Byte>, p: nat): seq<Byte>
    requires p <= |data|
  {
    data[p..if p + 3 <= |data| then p + 3 else |data|]
  }

  predicate Starts(data: seq<Byte>, starts: seq<nat>, pos: nat) {
    && (forall i :: 0 <= i < |starts| ==> starts[i] < pos <= |data|)
    && forall i, j :: 0 <= i < j < |starts| ==> starts[i] < starts[j]
  }

  lemma StartsGrow(data: seq<Byte>, starts: seq<nat>, p: nat, pos: nat)
    requires Starts(data, starts, p) && p <= pos <= |data|
    ensures Starts(data, starts, pos)
  {
  }

  lemma StartsOneMore(data: seq<Byte>, starts: seq<nat>, pos: nat)
    requires Starts(data, starts, pos) && pos < |data|
    ensures Starts(data, starts + [pos], pos + 1)
  {
  }

  /** Those of the token starts that have the given key, in order. */
  function WithKey(data: seq<Byte>, starts: seq<nat>, n: nat, key: seq<Byte>): (r: seq<nat>)
    requires n <= |starts| && forall i :: 0 <= i < |starts| ==> starts[i] < |data|
  {
    if n == 0 then []
    else
      var r := WithKey(data, starts, n - 1, key);
      if KeyAt(data, starts[n - 1]) == key then r + [starts[n - 1]] else r
  }

  lemma {:induction false} WithKeyStays(data: seq<Byte>, starts: seq<nat>, n: nat, key: seq<Byte>, p: nat)
    requires n <= |starts| && p < |data| && forall i :: 0 <= i < |starts| ==> starts[i] < |data|
    ensures WithKey(data, starts + [p], n, key) == WithKey(data, starts, n, key)
  {
    if n > 0 {
      WithKeyStays(data, starts, n - 1, key, p);
    }
  }

  /** The naive scan: the listed positions are exactly the token starts with the key. */
  lemma {:induction false} WithKeyExactly(data: seq<Byte>, starts: seq<nat>, n: nat, key: seq<Byte>, pos: nat)
    requires n <= |starts| && Starts(data, starts, pos)
    ensures forall p: nat :: p in WithKey(data, starts, n, key) <==> p in starts[..n] && KeyAt(data, p) == key
    ensures Starts(data, WithKey(data, starts, n, key), if n == 0 then pos else starts[n - 1] + 1)
  {
    if n > 0 {
      WithKeyExactly(data, starts, n - 1, key, pos);
      assert starts[..n] == starts[..n - 1] + [starts[n - 1]];
    }
  }

  lemma {:induction false} WithKeyHas(data: seq<Byte>, starts: seq<nat>, n: nat, key: seq<Byte>, pos: nat)
    requires n <= |starts| && Starts(data, starts, pos)
    ensures var ps := WithKey(data, starts, n, key);
      Starts(data, ps, pos) && forall i :: 0 <= i < |ps| ==> ps[i] in starts && KeyAt(data, ps[i]) == key
  {
    WithKeyExactly(data, starts, n, key, pos);
    var ps := WithKey(data, starts, n, key);
    forall i | 0 <= i < |ps| ensures ps[i] in starts && KeyAt(data, ps[i]) == key {
      assert ps[i] in ps;
    }
  }

  /** The table lists, for every key, exactly the token starts with that key in order. */
  ghost predicate Indexed(data: seq<Byte>, starts: seq<nat>, table: map<seq<Byte>, seq<nat>>) {
    && (forall i :: 0 <= i < |starts| ==> starts[i] < |data|)
    && forall key :: (if key in table then table[key] else []) == WithKey(data, starts, |starts|, key)
  }

  // ---------------------------------------------------------------------- matches

  function Min(a: nat, b: nat): nat {
    if a < b then a else b
  }

  function Max(a: nat, b: nat): nat {
    if a < b then b else a
  }

  function LongestAllowed(data: seq<Byte>, pos: nat): nat
    requires pos <= |data|
  {
    Min(MAX_MATCH, |data| - pos)
  }

  /** How far the bytes at `p` and at `pos` go on being equal, up to `max`. */
  function Extend(data: seq<Byte>, p: nat, pos: nat, k: nat, max: nat): (r: nat)
    requires p < pos && pos + max <= |data|
    ensures r >= k
    decreases max - k
  {
    if k < max && data[p + k] == data[pos + k] then Extend(data, p, pos, k + 1, max) else k
  }

  /** All the bytes are equal up to there, and the next ones are not. */
  lemma {:induction false} ExtendIsExact(data: seq<Byte>, p: nat, pos: nat, k: nat, max: nat)
    requires p < pos && pos + max <= |data| && k <= max
    ensures var r := Extend(data, p, pos, k, max);
      && r <= max && (r < max ==> data[p + r] != data[pos + r])
      && forall i :: p + k <= i < p + r ==> data[i] == data[i + (pos - p)]
    decreases max - k
  {
    if k < max && data[p + k] == data[pos + k] {
      ExtendIsExact(data, p, pos, k + 1, max);
    }
  }

  /** The length of the match with an earlier position that starts with the same key. */
  function MatchLength(data: seq<Byte>, p: nat, pos: nat): nat
    requires p < pos && pos + 3 <= |data|
  {
    Extend(data, p, pos, 3, Min(LongestAllowed(data, pos), pos - p))
  }

  /** The distance from the end of the earlier occurrence can be written down. */
  predicate CanStore(data: seq<Byte>, p: nat, pos: nat)
    requires p < pos && pos + 3 <= |data|
  {
    pos - p - MatchLength(data, p, pos) < WINDOW_SIZE
  }

  ghost predicate IsMatch(data: seq<Byte>, ps: seq<nat>, n: nat, pos: nat, offset: nat, length: nat)
    requires pos + 3 <= |data| && n <= |ps|
  {
    && 0 < offset <= pos && (exists i :: 0 <= i < n && ps[i] == pos - offset)
    && CanStore(data, pos - offset, pos) && length == MatchLength(data, pos - offset, pos)
  }

  /** Of the first `n` positions, the first one with the longest match that can be stored. */
  ghost predicate Longest(data: seq<Byte>, ps: seq<nat>, n: nat, pos: nat, offset: nat, length: nat)
    requires pos + 3 <= |data| && n <= |ps| && forall i :: 0 <= i < |ps| ==> ps[i] < pos
  {
    && (length == 0 ==> offset == 0)
    && (length != 0 ==> IsMatch(data, ps, n, pos, offset, length))
    && forall i :: 0 <= i < n && CanStore(data, ps[i], pos) ==>
         && MatchLength(data, ps[i], pos) <= length
         && (MatchLength(data, ps[i], pos) == length ==> pos - offset <= ps[i])
  }

  /** One more position is looked at: it has a longer match that can be stored. */
  lemma LongestTake(data: seq<Byte>, ps: seq<nat>, n: nat, pos: nat, offset: nat, length: nat)
    requires Starts(data, ps, pos) && pos + 3 <= |data| && n < |ps| && Longest(data, ps, n, pos, offset, length)
    requires CanStore(data, ps[n], pos) && MatchLength(data, ps[n], pos) > length
    ensures Longest(data, ps, n + 1, pos, pos - ps[n], MatchLength(data, ps[n], pos))
  {
    var o, m := pos - ps[n], MatchLength(data, ps[n], pos);
    assert ps[n] == pos - o;
    assert IsMatch(data, ps, n + 1, pos, o, m);
    forall i | 0 <= i < n + 1 && CanStore(data, ps[i], pos)
      ensures MatchLength(data, ps[i], pos) <= m && (MatchLength(data, ps[i], pos) == m ==> pos - o <= ps[i])
    {
    }
  }

  /** One more position is looked at: it has none. */
  lemma LongestSkip(data: seq<Byte>, ps: seq<nat>, n: nat, pos: nat, offset: nat, length: nat)
    requires Starts(data, ps, pos) && pos + 3 <= |data| && n < |ps| && Longest(data, ps, n, pos, offset, length)
    requires !(CanStore(data, ps[n], pos) && MatchLength(data, ps[n], pos) > length)
    ensures Longest(data, ps, n + 1, pos, offset, length)
  {
    if length != 0 {
      var w :| 0 <= w < n && ps[w] == pos - offset;
      assert ps[w] < ps[n];
      assert IsMatch(data, ps, n + 1, pos, offset, length);
    }
    forall i | 0 <= i < n + 1 && CanStore(data, ps[i], pos)
      ensures MatchLength(data, ps[i], pos) <= length
        && (MatchLength(data, ps[i], pos) == length ==> pos - offset <= ps[i])
    {
    }
  }

  /** What lies in front of the window could not be stored anyway. */
  lemma WindowIsWideEnough(data: seq<Byte>, p: nat, pos: nat)
    requires pos + 3 <= |data| && p < pos - WINDOW_SIZE - LongestAllowed(data, pos)
    ensures !CanStore(data, p, pos)
  {
    ExtendIsExact(data, p, pos, 3, Min(LongestAllowed(data, pos), pos - p));
  }

  /** The next position agrees with an earlier one in more than one byte more. */
  predicate BetterNext(data: seq<Byte>, p: nat, pos: nat, length: nat) {
    p < pos && pos + 1 + length + 2 <= |data| && data[p..p + length + 2] == data[pos + 1..pos + 1 + length + 2]
  }

  /** How long a match the next position has with an earlier one. */
  function NextLength(data: seq<Byte>, p: nat, pos: nat): nat
    requires p < pos < |data|
  {
    Extend(data, p, pos + 1, 3, Min(Min(LongestAllowed(data, pos), pos - p), |data| - pos - 1))
  }

  /** The earlier position is in the window, and the distance from the end of the match that
      has been found up to now can be written down. */
  predicate NextInReach(data: seq<Byte>, p: nat, pos: nat, best: nat)
    requires pos <= |data|
  {
    p < pos && p >= pos + 1 - WINDOW_SIZE - LongestAllowed(data, pos) && pos - p - best < WINDOW_SIZE
  }

  /** The length that the scan of the first `n` positions settles on for the next position. */
  function NextBest(data: seq<Byte>, ps: seq<nat>, n: nat, pos: nat): nat
    requires n <= |ps| && pos < |data|
  {
    if n == 0 then 0
    else
      var best := NextBest(data, ps, n - 1, pos);
      if NextInReach(data, ps[n - 1], pos, best) then Max(best, NextLength(data, ps[n - 1], pos)) else best
  }

  /** What the scan settles on is there, and nothing within the window is overlooked. */
  lemma {:induction false} NextBestBounds(data: seq<Byte>, ps: seq<nat>, n: nat, pos: nat, length: nat)
    requires n <= |ps| && Starts(data, ps, pos) && 3 <= length && pos + length + 1 < |data|
    requires forall i :: 0 <= i < |ps| ==> KeyAt(data, ps[i]) == KeyAt(data, pos + 1)
    ensures NextBest(data, ps, n, pos) > length + 1 ==>
      exists i :: 0 <= i < n && BetterNext(data, ps[i], pos, length)
    ensures forall i :: 0 <= i < n && pos - ps[i] < WINDOW_SIZE ==>
      NextLength(data, ps[i], pos) <= NextBest(data, ps, n, pos)
  {
    if n > 0 {
      NextBestBounds(data, ps, n - 1, pos, length);
      if NextLength(data, ps[n - 1], pos) > length + 1 {
        NextMatch(data, ps[n - 1], pos, Min(Min(LongestAllowed(data, pos), pos - ps[n - 1]), |data| - pos - 1), length);
      }
    }
  }

  /** There is a match of some length, but the next position has one that is longer by more
      than one. */
  predicate PutOff(data: seq<Byte>, starts: seq<nat>, pos: nat, length: nat)
    requires Starts(data, starts, pos) && pos < |data|
  {
    && 0 < length < LongestAllowed(data, pos) && pos + length + 1 < |data|
    && var next := WithKey(data, starts, |starts|, KeyAt(data, pos + 1));
      NextBest(data, next, |next|, pos) > length + 1
  }

  /** What is to be found at a position: the longest match, if it is not put off. */
  ghost predicate Found(data: seq<Byte>, starts: seq<nat>, pos: nat, offset: nat, length: nat)
    requires Starts(data, starts, pos) && pos < |data|
  {
    if pos + 3 > |data| then offset == length == 0
    else
      var ps := WithKey(data, starts, |starts|, KeyAt(data, pos));
      && (forall i :: 0 <= i < |ps| ==> ps[i] < pos)
      && exists o: nat, l: nat ::
           && Longest(data, ps, |ps|, pos, o, l)
           && if PutOff(data, starts, pos, l) then offset == length == 0 else offset == o && length == l
  }

  /** There is only one longest match, the one that starts first. */
  lemma LongestIsUnique(data: seq<Byte>, ps: seq<nat>, pos: nat, offset: nat, length: nat, offset': nat, length': nat)
    requires pos + 3 <= |data| && forall i :: 0 <= i < |ps| ==> ps[i] < pos
    requires Longest(data, ps, |ps|, pos, offset, length) && Longest(data, ps, |ps|, pos, offset', length')
    ensures offset == offset' && length == length'
  {
    if length != 0 {
      var i :| 0 <= i < |ps| && ps[i] == pos - offset;
    }
    if length' != 0 {
      var i :| 0 <= i < |ps| && ps[i] == pos - offset';
    }
  }

  lemma FoundIsUnique(data: seq<Byte>, starts: seq<nat>, pos: nat, offset: nat, length: nat, offset': nat, length': nat)
    requires Starts(data, starts, pos) && pos < |data|
    requires Found(data, starts, pos, offset, length) && Found(data, starts, pos, offset', length')
    ensures offset == offset' && length == length'
  {
    if pos + 3 <= |data| {
      var ps := WithKey(data, starts, |starts|, KeyAt(data, pos));
      var o: nat, l: nat :| Longest(data, ps, |ps|, pos, o, l)
        && if PutOff(data, starts, pos, l) then offset == length == 0 else offset == o && length == l;
      var o': nat, l': nat :| Longest(data, ps, |ps|, pos, o', l')
        && if PutOff(data, starts, pos, l') then offset' == length' == 0 else offset' == o' && length' == l';
      LongestIsUnique(data, ps, pos, o, l, o', l');
    }
  }

  lemma IndexedStep(data: seq<Byte>, starts: seq<nat>, table: map<seq<Byte>, seq<nat>>, pos: nat)
    requires pos < |data| && Starts(data, starts, pos) && Indexed(data, starts, table)
    ensures var key := KeyAt(data, pos);
      Indexed(data, starts + [pos], table[key := (if key in table then table[key] else []) + [pos]])
  {
    forall key ensures WithKey(data, starts + [pos], |starts|, key) == WithKey(data, starts, |starts|, key) {
      WithKeyStays(data, starts, |starts|, key, pos);
    }
  }

  predicate IsCopy(data: seq<Byte>, pos: nat, offset: nat, length: nat) {
    && length <= offset <= pos && pos + length <= |data|
    && data[pos - offset..pos - offset + length] == data[pos..pos + length]
  }

  /** What a match can be relied on for. */
  predicate GoodMatch(data: seq<Byte>, pos: nat, offset: nat, length: nat) {
    length > 0 ==>
      && length >= 3 && offset <= pos && offset - length < WINDOW_SIZE
      && (offset >= length ==> length <= MAX_MATCH && pos + length <= |data| && IsCopy(data, pos, offset, length))
  }

  lemma MatchIsGood(data: seq<Byte>, p: nat, pos: nat)
    requires p < pos && pos + 3 <= |data| && CanStore(data, p, pos) && KeyAt(data, p) == KeyAt(data, pos)
    ensures GoodMatch(data, pos, pos - p, MatchLength(data, p, pos))
  {
    var max := Min(LongestAllowed(data, pos), pos - p);
    if pos - p >= MatchLength(data, p, pos) {
      ExtendIsExact(data, p, pos, 3, max);
      assert KeyAt(data, p) == data[p..p + 3] && KeyAt(data, pos) == data[pos..pos + 3];
      MatchIsEqual(data, p, pos, max, MatchLength(data, p, pos));
    }
  }

  lemma FoundIsGood(data: seq<Byte>, starts: seq<nat>, pos: nat, offset: nat, length: nat)
    requires Starts(data, starts, pos) && pos < |data| && Found(data, starts, pos, offset, length)
    ensures GoodMatch(data, pos, offset, length)
  {
    if length > 0 {
      WithKeyHas(data, starts, |starts|, KeyAt(data, pos), pos);
      MatchIsGood(data, pos - offset, pos);
    }
  }

  /** What is written for a match: it, if it is long enough, does not run into itself and
      can be stored. */
  function Chosen(data: seq<Byte>, pos: nat, offset: nat, length: nat): (it: Item)
    requires pos < |data|
    ensures Storable(it)
  {
    if length >= 3 && offset >= length && Storable(Match(offset - length, length)) then Match(offset - length, length)
    else Literal(data[pos])
  }

  /** The last fails only for the shortest matches that are far away. */
  lemma ChosenUnlessFar(data: seq<Byte>, pos: nat, offset: nat, length: nat)
    requires pos < |data| && GoodMatch(data, pos, offset, length) && length > 0
    ensures Chosen(data, pos, offset, length).Literal? <==>
      offset < length || (length == 3 && offset - length >= 0x80 + 512)
  {
  }

  // -------------------------------------------------------------------- the items

  function Size(it: Item): nat {
    if it.Literal? then 1 else it.length
  }

  /** The item that starts behind the first `k` token starts is what is written for the
      match to be found there. */
  ghost predicate WrittenAt(data: seq<Byte>, starts: seq<nat>, items: seq<Item>, k: nat)
    requires k < |starts| == |items|
  {
    && Starts(data, starts[..k], starts[k]) && starts[k] < |data|
    && exists o: nat, l: nat ::
         Found(data, starts[..k], starts[k], o, l) && items[k] == Chosen(data, starts[k], o, l)
  }

  /** Where an item starts, or the end of all. */
  function StartOf(starts: seq<nat>, pos: nat, k: nat): nat {
    if k < |starts| then starts[k] else pos
  }

  /** Each item starts where the one before ends, the last ends at `pos`. */
  predicate SideBySide(starts: seq<nat>, items: seq<Item>, pos: nat)
    requires |starts| == |items|
  {
    && StartOf(starts, pos, 0) == 0
    && forall k :: 0 <= k < |items| ==> StartOf(starts, pos, k + 1) == starts[k] + Size(items[k])
  }

  /** The items for the data in front of `pos`. */
  ghost predicate Traced(data: seq<Byte>, starts: seq<nat>, items: seq<Item>, pos: nat) {
    && |starts| == |items| && SideBySide(starts, items, pos)
    && forall k :: 0 <= k < |items| ==> WrittenAt(data, starts, items, k)
  }

  lemma TracedOneMore(data: seq<Byte>, starts: seq<nat>, items: seq<Item>, pos: nat, offset: nat, length: nat)
    requires Traced(data, starts, items, pos) && Starts(data, starts, pos) && pos < |data|
    requires Found(data, starts, pos, offset, length)
    ensures var it := Chosen(data, pos, offset, length);
      Traced(data, starts + [pos], items + [it], pos + Size(it))
  {
    var it := Chosen(data, pos, offset, length);
    var starts', items' := starts + [pos], items + [it];
    assert starts'[..|starts|] == starts;
    forall k | 0 <= k < |items| ensures WrittenAt(data, starts', items', k) {
      WrittenStays(data, starts, items, pos, it, k);
    }
    SideBySideOneMore(starts, items, pos, it);
  }

  lemma WrittenStays(data: seq<Byte>, starts: seq<nat>, items: seq<Item>, pos: nat, it: Item, k: nat)
    requires k < |items| == |starts| && WrittenAt(data, starts, items, k)
    ensures WrittenAt(data, starts + [pos], items + [it], k)
  {
    assert (starts + [pos])[..k] == starts[..k];
  }

  lemma SideBySideOneMore(starts: seq<nat>, items: seq<Item>, pos: nat, it: Item)
    requires |starts| == |items| && SideBySide(starts, items, pos)
    ensures SideBySide(starts + [pos], items + [it], pos + Size(it))
  {
  }

  lemma NextStart(starts: seq<nat>, items: seq<Item>, pos: nat, k: nat)
    requires |starts| == |items| && SideBySide(starts, items, pos) && k <= |items|
    ensures StartOf(starts, pos, k) == if k == 0 then 0 else starts[k - 1] + Size(items[k - 1])
  {
    if k > 0 {
      assert StartOf(starts, pos, k - 1 + 1) == starts[k - 1] + Size(items[k - 1]);
    }
  }

  /** What is written at a token start depends on the token starts before it alone. */
  lemma SameItem(data: seq<Byte>, starts: seq<nat>, items: seq<Item>, starts': seq<nat>, items': seq<Item>, k: nat)
    requires k < |starts| == |items| && k < |starts'| == |items'|
    requires WrittenAt(data, starts, items, k) && WrittenAt(data, starts', items', k)
    requires starts[..k] == starts'[..k] && starts[k] == starts'[k]
    ensures items[k] == items'[k]
  {
    var p, before := starts[k], starts[..k];
    var o: nat, l: nat :| Found(data, before, p, o, l) && items[k] == Chosen(data, p, o, l);
    var o': nat, l': nat :| Found(data, before, p, o', l') && items'[k] == Chosen(data, p, o', l');
    FoundIsUnique(data, before, p, o, l, o', l');
  }

  lemma TakeOneMore<T>(a: seq<T>, b: seq<T>, k: nat)
    requires k < |a| && k < |b| && a[..k] == b[..k] && a[k] == b[k]
    ensures a[..k + 1] == b[..k + 1]
  {
    assert a[..k + 1] == a[..k] + [a[k]] && b[..k + 1] == b[..k] + [b[k]];
  }

  /** There is only one way to divide the data into such items. */
  lemma {:induction false} SameItems(data: seq<Byte>, starts: seq<nat>, items: seq<Item>, pos: nat, starts': seq<nat>,
                                     items': seq<Item>, pos': nat, n: nat)
    requires Traced(data, starts, items, pos) && Traced(data, starts', items', pos')
    requires n <= |items| && n <= |items'|
    ensures items[..n] == items'[..n] && starts[..n] == starts'[..n]
    ensures StartOf(starts, pos, n) == StartOf(starts', pos', n)
  {
    if n > 0 {
      SameItems(data, starts, items, pos, starts', items', pos', n - 1);
      assert WrittenAt(data, starts, items, n - 1) && WrittenAt(data, starts', items', n - 1);
      SameItem(data, starts, items, starts', items', n - 1);
      TakeOneMore(items, items', n - 1);
      TakeOneMore(starts, starts', n - 1);
    }
    NextStart(starts, items, pos, n);
    NextStart(starts', items', pos', n);
  }

  /** The end of the data is only behind the last item. */
  lemma TraceEnds(data: seq<Byte>, starts: seq<nat>, items: seq<Item>, starts': seq<nat>, items': seq<Item>)
    requires Traced(data, starts, items, |data|) && Traced(data, starts', items', |data|) && |items| <= |items'|
    ensures items == items' && starts == starts'
  {
    var n := |items|;
    SameItems(data, starts, items, |data|, starts', items', |data|, n);
    assert n < |items'| ==> WrittenAt(data, starts', items', n);
    assert items[..n] == items && starts[..n] == starts;
    assert items'[..n] == items' && starts'[..n] == starts';
  }

  /** So the data says what the compressor writes. */
  lemma CompressionIsUnique(data: seq<Byte>, compressed: seq<Byte>, compressed': seq<Byte>)
    requires IsCompression(data, compressed) && IsCompression(data, compressed')
    ensures compressed == compressed'
  {
    var groups, starts :| IsTraceOf(data, groups, starts) && compressed == Encoding(groups);
    var groups', starts' :| IsTraceOf(data, groups', starts') && compressed' == Encoding(groups');
    if |Flatten(groups)| <= |Flatten(groups')| {
      TraceEnds(data, starts, Flatten(groups), starts', Flatten(groups'));
    } else {
      TraceEnds(data, starts', Flatten(groups'), starts, Flatten(groups));
    }
    OneGrouping(groups, groups');
  }

  lemma NoneEmpty(groups: seq<seq<Item>>)
    requires WellGrouped(groups)
    ensures groups == [] <==> Flatten(groups) == []
  {
    if groups != [] {
      assert |Flatten(groups)| >= |groups[0]|;
    }
  }

  lemma FirstGroup(groups: seq<seq<Item>>)
    requires WellGrouped(groups) && groups != []
    ensures |groups[0]| == Min(8, |Flatten(groups)|)
  {
    NoneEmpty(groups[1..]);
  }

  /** Groups of eight can be put together in one way only. */
  lemma {:induction false} OneGrouping(groups: seq<seq<Item>>, groups': seq<seq<Item>>)
    requires WellGrouped(groups) && WellGrouped(groups') && Flatten(groups) == Flatten(groups')
    ensures groups == groups'
  {
    NoneEmpty(groups);
    NoneEmpty(groups');
    if groups != [] {
      var n, n' := |groups[0]|, |groups'[0]|;
      FirstGroup(groups);
      FirstGroup(groups');
      assert Flatten(groups)[..n] == groups[0] && Flatten(groups')[..n'] == groups'[0];
      assert Flatten(groups)[n..] == Flatten(groups[1..]) && Flatten(groups')[n'..] == Flatten(groups'[1..]);
      OneGrouping(groups[1..], groups'[1..]);
      assert groups == [groups[0]] + groups[1..] && groups' == [groups'[0]] + groups'[1..];
    }
  }

  /** The groups, one behind the other. */
  function Flatten(groups: seq<seq<Item>>): seq<Item> {
    if groups == [] then [] else groups[0] + Flatten(groups[1..])
  }

  lemma {:induction false} FlattenOneMore(groups: seq<seq<Item>>, group: seq<Item>)
    ensures Flatten(groups + [group]) == Flatten(groups) + group
  {
    if groups == [] {
      assert [group][1..] == [];
    } else {
      assert (groups + [group])[1..] == groups[1..] + [group];
      FlattenOneMore(groups[1..], group);
    }
  }

  lemma OneItemMore(groups: seq<seq<Item>>, group: seq<Item>, it: Item, groups': seq<seq<Item>>, group': seq<Item>)
    requires (groups' == groups && group' == group + [it]) || (groups' == groups + [group + [it]] && group' == [])
    ensures Flatten(groups') + group' == Flatten(groups) + group + [it]
  {
    FlattenOneMore(groups, group + [it]);
    assert Flatten(groups) + (group + [it]) == Flatten(groups) + group + [it];
  }

  ghost predicate IsTraceOf(data: seq<Byte>, groups: seq<seq<Item>>, starts: seq<nat>) {
    WellGrouped(groups) && Traced(data, starts, Flatten(groups), |data|)
  }

  /** The encoding of the items that the data is divided into. */
  ghost predicate IsCompression(data: seq<Byte>, compressed: seq<Byte>) {
    exists groups, starts :: IsTraceOf(data, groups, starts) && compressed == Encoding(groups)
  }

  lemma ChosenExpands(data: seq<Byte>, pos: nat, offset: nat, length: nat)
    requires pos < |data| && GoodMatch(data, pos, offset, length)
    ensures var it := Chosen(data, pos, offset, length);
      && CanStep(data[..pos], it) && pos + Size(it) <= |data| && Step(data[..pos], it) == data[..pos + Size(it)]
  {
    var it := Chosen(data, pos, offset, length);
    if it.Match? {
      assert data[..pos][pos - offset..pos - offset + length] == data[pos..pos + length];
    }
  }

  lemma NextMatch(data: seq<Byte>, p: nat, pos: nat, max: nat, length: nat)
    requires p < pos && pos + 4 <= |data| && pos + 1 + max <= |data| && KeyAt(data, p) == KeyAt(data, pos + 1)
    requires 3 <= max && 1 <= length && length + 2 <= Extend(data, p, pos + 1, 3, max)
    ensures BetterNext(data, p, pos, length)
  {
    assert KeyAt(data, p) == data[p..p + 3] && KeyAt(data, pos + 1) == data[pos + 1..pos + 4];
    ExtendIsExact(data, p, pos + 1, 3, max);
    MatchIsEqual(data, p, pos + 1, max, length + 2);
  }

  class Compressor {
    const data: seq<Byte>
    var hashTable: map<seq<Byte>, seq<nat>>
    var output: seq<Byte>
    var pos: nat
    var flagsPos: nat
    var flags: nat

    // The token starts, the complete groups of items, and the group being put together.
    ghost var starts: seq<nat>
    ghost var groups: seq<seq<Item>>
    ghost var group: seq<Item>

    constructor (data: seq<Byte>)
      ensures Valid() && this.data == data && pos == 0
    {
      this.data := data;
      hashTable, output, pos, flagsPos, flags := map[], [0], 0, 0, 0xFF0000;
      starts, groups, group := [], [], [];
      new;
      SmallPowers();
    }

    ghost predicate Valid()
      reads this
    {
      && pos <= |data| && Starts(data, starts, pos) && Indexed(data, starts, hashTable)
      && LaidOut(output, flagsPos, flags, groups, group)
      && Expands(groups, group, data[..pos])
      && Traced(data, starts, Flatten(groups) + group, pos)
    }

    // --------------------------------------------------------------- finding matches

    /** The scan of the positions that start with the same three bytes. */
    method FindMatch(pos: nat, ps: seq<nat>) returns (offset: nat, length: nat)
      requires pos + 3 <= |data| && Starts(data, ps, pos)
      ensures Longest(data, ps, |ps|, pos, offset, length)
    {
      var maxMatch := LongestAllowed(data, pos);
      var windowStart := if pos - WINDOW_SIZE - maxMatch > 0 then pos - WINDOW_SIZE - maxMatch else 0;
      var bestLen: nat, bestOffset: nat := 0, 0;
      for i := 0 to |ps|
        invariant Longest(data, ps, i, pos, bestOffset, bestLen)
      {
        var prevPos := ps[i];
        if prevPos < windowStart || prevPos >= pos {
          WindowIsWideEnough(data, prevPos, pos);
          LongestSkip(data, ps, i, pos, bestOffset, bestLen);
          continue;
        }
        var matchLen := ExtendMatch(prevPos, pos, Min(maxMatch, pos - prevPos));
        if matchLen > bestLen && pos - prevPos - matchLen < WINDOW_SIZE {
          LongestTake(data, ps, i, pos, bestOffset, bestLen);
          bestLen, bestOffset := matchLen, pos - prevPos;
        } else {
          LongestSkip(data, ps, i, pos, bestOffset, bestLen);
        }
      }
      return bestOffset, bestLen;
    }

    method ExtendMatch(prevPos: nat, pos: nat, maxLen: nat) returns (matchLen: nat)
      requires prevPos < pos && pos + maxLen <= |data|
      ensures matchLen == Extend(data, prevPos, pos, 3, maxLen)
    {
      matchLen := 3;
      while matchLen < maxLen && data[prevPos + matchLen] == data[pos + matchLen]
        invariant Extend(data, prevPos, pos, 3, maxLen) == Extend(data, prevPos, pos, matchLen, maxLen)
      {
        matchLen := matchLen + 1;
      }
    }

    /** Whether the next position has a match that is longer by more than one. */
    method NextIsBetter(pos: nat, ps: seq<nat>, bestLen: nat) returns (better: bool)
      requires pos + bestLen + 1 < |data| && Starts(data, ps, pos)
      ensures better == (NextBest(data, ps, |ps|, pos) > bestLen + 1)
    {
      var maxMatch := LongestAllowed(data, pos);
      var windowStart := if pos + 1 - WINDOW_SIZE - maxMatch > 0 then pos + 1 - WINDOW_SIZE - maxMatch else 0;
      var nextBestLen := 0;
      for i := 0 to |ps|
        invariant nextBestLen == NextBest(data, ps, i, pos)
      {
        var prevPos := ps[i];
        if prevPos < windowStart {
          continue;
        }
        var maxLen := Min(Min(maxMatch, pos - prevPos), |data| - pos - 1);
        var matchLen := ExtendMatch(prevPos, pos + 1, maxLen);
        if matchLen > nextBestLen {
          if pos - prevPos - nextBestLen < WINDOW_SIZE {
            nextBestLen := matchLen;
          }
        }
      }
      better := nextBestLen > bestLen + 1;
    }

    /** The longest match that a scan of all earlier token starts would find; none if the
        next position has a better one. */
    method FindLongestMatch(pos: nat) returns (offset: nat, length: nat)
      requires Starts(data, starts, pos) && Indexed(data, starts, hashTable) && pos < |data|
      ensures Found(data, starts, pos, offset, length)
    {
      if pos + 3 > |data| {
        return 0, 0;
      }
      var key := KeyAt(data, pos);
      WithKeyHas(data, starts, |starts|, key, pos);
      if key !in hashTable {
        assert Longest(data, [], 0, pos, 0, 0);
        return 0, 0;
      }
      offset, length := FindMatch(pos, hashTable[key]);
      ghost var longest := length;
      assert Longest(data, hashTable[key], |hashTable[key]|, pos, offset, longest);
      var nextKey := KeyAt(data, pos + 1);
      if 0 < length < LongestAllowed(data, pos) && nextKey in hashTable && pos + length + 1 < |data| {
        WithKeyHas(data, starts, |starts|, nextKey, pos);
        var better := NextIsBetter(pos, hashTable[nextKey], length);
        if better {
          offset, length := 0, 0;
        }
      }
      assert PutOff(data, starts, pos, longest) ==> offset == length == 0;
    }

    // --------------------------------------------------------------------- the output

    method AddToIndex()
      requires pos < |data| && Starts(data, starts, pos) && Indexed(data, starts, hashTable)
      modifies this`hashTable, this`starts
      ensures starts == old(starts) + [pos] && Starts(data, starts, pos + 1) && Indexed(data, starts, hashTable)
    {
      var key := KeyAt(data, pos);
      IndexedStep(data, starts, hashTable, pos);
      StartsOneMore(data, starts, pos);
      hashTable := hashTable[key := (if key in hashTable then hashTable[key] else []) + [pos]];
      starts := starts + [pos];
    }

    /** Appends the bytes of a match if it is worth it, and of a single byte otherwise. */
    method EmitItem(offset0: nat, length0: nat) returns (length: nat, flag: nat, ghost it: Item)
      requires pos < |data| && GoodMatch(data, pos, offset0, length0)
      modifies this`output
      ensures it == Chosen(data, pos, offset0, length0) && Storable(it)
      ensures output == old(output) + ItemBytes(it) && flag == FlagOf(it)
      ensures length == Size(it)
    {
      it := Chosen(data, pos, offset0, length0);
      var offset := offset0 - length0;
      length, flag := length0, 0;
      if length < 3 || offset < 0 {
        flag := 1;
      } else if offset <= 0x7F {
        output := output + [offset];
        output := output + [length - 3];
      } else {
        offset := offset - 0x80;
        var lengthBits := length - 3;
        if lengthBits < 32 && offset < 512 {
          EmitMedium(offset, lengthBits);
        } else if length > 3 && offset < 0x4000 {
          EmitLong(offset, lengthBits);
        } else {
          flag := 1;
        }
      }
      if flag == 1 {
        length := 1;
        output := output + [data[pos]];
      }
    }

    method EmitMedium(offset: nat, lengthBits: nat)
      requires offset < 512 && lengthBits < 32
      modifies this`output
      ensures output == old(output) + [offset % 128 + 128, offset / 128 * 32 + lengthBits]
    {
      OffsetLow(offset);
      output := output + [Or(And(offset, 0x7F), 0x80)];
      OffsetMedium(offset, lengthBits);
      output := output + [Or(ShiftRight(And(offset, 0x180), 2), lengthBits)];
    }

    method EmitLong(offset: nat, lengthBits: nat)
      requires offset < 0x4000 && lengthBits < 256
      modifies this`output
      ensures output == old(output) + [offset % 128 + 128, offset / 128 + 128, lengthBits]
    {
      OffsetLow(offset);
      output := output + [Or(And(offset, 0x7F), 0x80)];
      OffsetHigh(offset);
      output := output + [Or(And(ShiftRight(offset, 7), 0x7F), 0x80)];
      output := output + [lengthBits];
    }

    /** Shifts in the flag of an item; with the eighth one the flag byte is patched. */
    method PushFlag(flag: nat, ghost it: Item)
      requires Storable(it) && flag == FlagOf(it) && FlagsPending(flagsPos, flags, groups, group)
      requires output == Written(groups, group) + ItemBytes(it)
      modifies this`output, this`flagsPos, this`flags, this`groups, this`group
      ensures LaidOut(output, flagsPos, flags, groups, group)
      ensures if |old(group)| < 7 then groups == old(groups) && group == old(group) + [it]
              else groups == old(groups) + [old(group) + [it]] && group == []
    {
      FlagsShift(group, it, flags);
      FlagsComplete(group + [it]);
      GroupBytesOneMore(group, it);
      assert output == Written(groups, group + [it]);
      flags := FlagsWith(flag, flags, group);
      group := group + [it];
      if flags < 0x10000 {
        Flush();
      }
    }

    /** Patches the flag byte of a complete group, and starts the next group. */
    method Flush()
      requires WellGrouped(groups) && (forall i :: 0 <= i < |groups| ==> |groups[i]| == 8)
      requires AllStorable(group) && |group| == 8 && output == Written(groups, group)
      requires flagsPos == |Encoding(groups)| && flags % 256 == FlagByte(group)
      modifies this`output, this`flagsPos, this`flags, this`groups, this`group
      ensures LaidOut(output, flagsPos, flags, groups, group)
      ensures groups == old(groups) + [old(group)] && group == []
    {
      Flushed(output, groups, group);
      SmallPowers();
      Masked8(flags);
      output := output[flagsPos := And(flags, 0xFF)];
      flagsPos := |output|;
      output := output + [0];
      flags := 0xFF0000;
      groups := groups + [group];
      group := [];
    }

    /** Writes a match or a byte, and its flag, and goes on behind it. */
    method WriteItem(offset: nat, length0: nat)
      requires pos < |data| && GoodMatch(data, pos, offset, length0)
      requires LaidOut(output, flagsPos, flags, groups, group) && Expands(groups, group, data[..pos])
      modifies this`pos, this`output, this`flagsPos, this`flags, this`groups, this`group
      ensures var it := Chosen(data, old(pos), offset, length0);
        pos == old(pos) + Size(it) && Flatten(groups) + group == old(Flatten(groups) + group) + [it]
      ensures old(pos) < pos <= |data|
      ensures LaidOut(output, flagsPos, flags, groups, group) && Expands(groups, group, data[..pos])
    {
      ghost var groups0, group0 := groups, group;
      var length;
      ghost var it;
      length, it := EmitWithFlag(offset, length0);
      ChosenIsNext(data, pos, offset, length0, groups0, group0, groups, group, length);
      OneItemMore(groups0, group0, it, groups, group);
      pos := pos + length;
    }

    method EmitWithFlag(offset: nat, length0: nat) returns (length: nat, ghost it: Item)
      requires pos < |data| && GoodMatch(data, pos, offset, length0) && LaidOut(output, flagsPos, flags, groups, group)
      modifies this`output, this`flagsPos, this`flags, this`groups, this`group
      ensures it == Chosen(data, pos, offset, length0) && LaidOut(output, flagsPos, flags, groups, group)
      ensures length == Size(it)
      ensures if |old(group)| < 7 then groups == old(groups) && group == old(group) + [it]
              else groups == old(groups) + [old(group) + [it]] && group == []
    {
      var flag;
      length, flag, it := EmitItem(offset, length0);
      PushFlag(flag, it);
    }

    /** One round of the loop: a match or a byte is found, indexed and written. */
    method CompressItem()
      requires Valid() && pos < |data|
      modifies this
      ensures Valid() && pos > old(pos)
    {
      var offset, length := FindMatchHere();
      ghost var items, it := Flatten(groups) + group, Chosen(data, pos, offset, length);
      AddToIndex();
      WriteAndGo(offset, length, items + [it]);
    }

    method WriteAndGo(offset: nat, length: nat, ghost items: seq<Item>)
      requires pos < |data| && GoodMatch(data, pos, offset, length)
      requires LaidOut(output, flagsPos, flags, groups, group) && Expands(groups, group, data[..pos])
      requires Starts(data, starts, pos + 1) && Indexed(data, starts, hashTable)
      requires items == Flatten(groups) + group + [Chosen(data, pos, offset, length)]
      requires Traced(data, starts, items, pos + Size(Chosen(data, pos, offset, length)))
      modifies this`pos, this`output, this`flagsPos, this`flags, this`groups, this`group
      ensures Valid() && pos > old(pos)
    {
      ghost var p := pos;
      WriteItem(offset, length);
      StartsGrow(data, starts, p + 1, pos);
    }

    method FindMatchHere() returns (offset: nat, length: nat)
      requires Valid() && pos < |data|
      ensures GoodMatch(data, pos, offset, length)
      ensures var it := Chosen(data, pos, offset, length);
        Traced(data, starts + [pos], Flatten(groups) + group + [it], pos + Size(it))
    {
      offset, length := FindLongestMatch(pos);
      FoundIsGood(data, starts, pos, offset, length);
      TracedOneMore(data, starts, Flatten(groups) + group, pos, offset, length);
    }

    /** The last flag byte: it is dropped if no item needs it, and else patched, with the
        flags shifted down to where the decompressor starts. */
    method Finish()
      requires LaidOut(output, flagsPos, flags, groups, group)
      modifies this`output, this`flags, this`groups, this`group
      ensures WellGrouped(groups) && output == Encoding(groups)
      ensures groups == AllGroups(old(groups), old(group))
    {
      if flagsPos == |output| - 1 {
        NothingPending(groups, group);
        output := output[..|output| - 1];
      } else {
        Flushed(output, groups, group);
        flags := PaddedFlags(flags, group);
        Masked8(flags);
        output := output[flagsPos := And(flags, 0xFF)];
        groups := groups + [group];
      }
      group := [];
    }
  }

  /** The flags of a last, incomplete group, as if empty items had been added to it. */
  method FlagsWith(flag: nat, flags0: nat, ghost group: seq<Item>) returns (flags: nat)
    requires flag < 2 && |group| < 8 && flags0 == PendingFlags(group)
    ensures flags == flag * 128 + flags0 / 2
  {
    NoneThereYet(group);
    FlagMovesIn(flag, flags0);
    flags := Or(ShiftLeft(flag, 7), ShiftRight(flags0, 1));
  }

  method PaddedFlags(flags0: nat, ghost group: seq<Item>) returns (flags: nat)
    requires 0 < |group| < 8 && flags0 == PendingFlags(group)
    ensures flags % 256 == FlagByte(group)
  {
    flags := flags0;
    ghost var shift: nat := 8 - |group|;
    while flags >= 0x10000
      invariant flags == (0xFF00 + FlagBits(group)) * Power2(shift)
    {
      FlagByteFits(group);
      ShiftedDown(0xFF00 + FlagBits(group), shift);
      Right1(flags);
      flags := ShiftRight(flags, 1);
      shift := shift - 1;
    }
    FullyShifted(group, shift);
  }

  /** What starts with the same three bytes and then goes on being equal is equal. */
  lemma MatchIsEqual(data: seq<Byte>, p: nat, pos: nat, max: nat, n: nat)
    requires p < pos && pos + n <= |data| && pos + max <= |data| && 3 <= max && 3 <= n <= Extend(data, p, pos, 3, max)
    requires data[p..p + 3] == data[pos..pos + 3]
    ensures data[p..p + n] == data[pos..pos + n]
  {
    ExtendIsExact(data, p, pos, 3, max);
    var x, y := data[p..p + 3], data[pos..pos + 3];
    assert x[0] == y[0] && x[1] == y[1] && x[2] == y[2];
    var a, b := data[p..p + n], data[pos..pos + n];
    forall j | 0 <= j < n ensures a[j] == b[j] {
      assert a[j] == data[p + j];
    }
  }

  /** The flags of the group so far, with a row of ones above them that has come down by
      one place for each item. */
  function PendingFlags(group: seq<Item>): nat
    requires |group| <= 8
  {
    (0xFF00 + FlagBits(group)) * Power2(8 - |group|)
  }

  lemma FlagsShift(group: seq<Item>, it: Item, flags: nat)
    requires |group| < 8 && flags == PendingFlags(group)
    ensures FlagOf(it) * 128 + flags / 2 == PendingFlags(group + [it])
  {
    var k := |group|;
    var a, p, f := 0xFF00 + FlagBits(group), Power2(7 - k), FlagOf(it);
    PowersOfEight(k);
    Halved(a, p);
    FlagBitsOneMore(group, it);
    AddedAbove(a, f, Power2(k), p);
  }

  lemma AddedAbove(a: nat, f: nat, q: nat, p: nat)
    requires q * p == 128
    ensures f * 128 + a * p == (a + f * q) * p
  {
    Distributed(a, f, q, p);
  }

  /** The place that the next flag moves to is free. */
  lemma NoneThereYet(group: seq<Item>)
    requires |group| < 8
    ensures PendingFlags(group) / 2 % 256 < 128
  {
    var k := |group|;
    var bits, p := FlagBits(group), Power2(7 - k);
    PowersOfEight(k);
    Halved(0xFF00 + bits, p);
    Distributed(0xFF00, bits, 1, p);
    ProductBelow(bits, Power2(k), p);
    assert PendingFlags(group) / 2 == 256 * (0xFF * p) + bits * p;
    Remainder(0xFF * p, bits * p);
  }

  lemma ProductBelow(a: nat, b: nat, p: nat)
    requires a < b && p > 0
    ensures a * p < b * p
  {
  }

  lemma Remainder(a: nat, b: nat)
    requires b < 256
    ensures (256 * a + b) % 256 == b
  {
  }

  lemma FlagsComplete(group: seq<Item>)
    requires 0 < |group| <= 8
    ensures PendingFlags(group) < 0x10000 <==> |group| == 8
    ensures |group| == 8 ==> PendingFlags(group) % 256 == FlagByte(group)
  {
    SmallPowers();
    if |group| < 8 {
      PowersOfEight(|group| - 1);
      PowersOfEight(|group|);
      AtLeast(0xFF00 + FlagBits(group), Power2(8 - |group|));
    }
  }

  lemma PowersOfEight(k: nat)
    requires k < 8
    ensures Power2(8 - k) == 2 * Power2(7 - k) && Power2(k) * Power2(7 - k) == 128
    ensures Power2(7 - k) == 1 <==> k == 7
  {
    SmallPowers();
  }

  lemma Halved(a: nat, p: nat)
    ensures a * (2 * p) / 2 == a * p
  {
    assert a * (2 * p) == 2 * (a * p);
  }

  lemma Distributed(a: nat, f: nat, q: nat, p: nat)
    ensures (a + f * q) * p == a * p + f * (q * p)
  {
  }

  lemma AtLeast(a: nat, p: nat)
    requires a >= 0xFF00 && p >= 2
    ensures a * p >= 0x10000
  {
    assert a * p >= a * 2;
  }

  ghost predicate FlagsPending(flagsPos: nat, flags: nat, groups: seq<seq<Item>>, group: seq<Item>) {
    && WellGrouped(groups) && (forall i :: 0 <= i < |groups| ==> |groups[i]| == 8)
    && AllStorable(group) && |group| < 8
    && flagsPos == |Encoding(groups)| && flags == PendingFlags(group)
  }

  /** The output while the flag byte of the current group is still zero. */
  function Written(groups: seq<seq<Item>>, group: seq<Item>): seq<Byte>
    requires WellGrouped(groups) && AllStorable(group)
  {
    Encoding(groups) + [0] + GroupBytes(group)
  }

  ghost predicate LaidOut(output: seq<Byte>, flagsPos: nat, flags: nat, groups: seq<seq<Item>>, group: seq<Item>) {
    FlagsPending(flagsPos, flags, groups, group) && output == Written(groups, group)
  }

  /** Patching the flag byte completes the encoding of the group. */
  lemma Flushed(output: seq<Byte>, groups: seq<seq<Item>>, group: seq<Item>)
    requires WellGrouped(groups) && (forall i :: 0 <= i < |groups| ==> |groups[i]| == 8)
    requires AllStorable(group) && 0 < |group| <= 8 && output == Written(groups, group)
    ensures WellGrouped(groups + [group]) && |Encoding(groups)| < |output|
    ensures Encoding(groups + [group]) + [0] == Written(groups + [group], [])
    ensures output[|Encoding(groups)| := FlagByte(group)] == Encoding(groups + [group])
  {
    EncodingOneMore(groups, group);
    Patched(Encoding(groups), GroupBytes(group), 0, FlagByte(group));
  }

  function AllGroups(groups: seq<seq<Item>>, group: seq<Item>): seq<seq<Item>> {
    if group == [] then groups else groups + [group]
  }

  /** The fresh flag byte is the last byte only if no item has been written since. */
  lemma NothingPending(groups: seq<seq<Item>>, group: seq<Item>)
    requires WellGrouped(groups) && AllStorable(group)
    ensures |Written(groups, group)| == |Encoding(groups)| + 1 ==> group == []
    ensures group == [] ==> Written(groups, group)[..|Encoding(groups)|] == Encoding(groups)
  {
  }

  lemma ShiftedDown(a: nat, shift: nat)
    requires a < 0x10000 && a * Power2(shift) >= 0x10000
    ensures shift > 0 && a * Power2(shift) / 2 == a * Power2(shift - 1)
  {
    if shift > 0 {
      Halved(a, Power2(shift - 1));
    }
  }

  lemma FlagByteFits(group: seq<Item>)
    requires |group| <= 8
    ensures FlagBits(group) < 256
  {
    SmallPowers();
    PowerGrows(|group|, 8);
  }

  lemma FullyShifted(group: seq<Item>, shift: nat)
    requires |group| <= 8 && (0xFF00 + FlagBits(group)) * Power2(shift) < 0x10000
    ensures (0xFF00 + FlagBits(group)) * Power2(shift) % 256 == FlagByte(group)
  {
    FlagByteFits(group);
    if shift > 0 {
      TwiceTooMuch(0xFF00 + FlagBits(group), shift);
    } else {
      assert (0xFF00 + FlagBits(group)) * Power2(0) == 0xFF00 + FlagBits(group);
    }
  }

  lemma TwiceTooMuch(a: nat, shift: nat)
    requires a >= 0xFF00 && shift > 0
    ensures a * Power2(shift) >= 0x10000
  {
    PowerGrows(1, shift);
    AtLeast(a, Power2(shift));
  }

  lemma ExpandsOneMore(data: seq<Byte>, pos: nat, groups: seq<seq<Item>>, group: seq<Item>, it: Item,
                       groups': seq<seq<Item>>, group': seq<Item>, length: nat)
    requires pos <= |data| && Expands(groups, group, data[..pos]) && CanStep(data[..pos], it)
    requires pos + length <= |data| && Step(data[..pos], it) == data[..pos + length]
    requires (groups' == groups && group' == group + [it]) || (groups' == groups + [group + [it]] && group' == [])
    ensures Expands(groups', group', data[..pos + length])
  {
    ExpandOneMore(ExpandAll([], groups), group, it);
    if groups' != groups {
      ExpandAllOneMore([], groups, group + [it]);
    }
  }

  lemma ChosenIsNext(data: seq<Byte>, pos: nat, offset: nat, length0: nat, groups: seq<seq<Item>>, group: seq<Item>,
                     groups': seq<seq<Item>>, group': seq<Item>, length: nat)
    requires pos < |data| && GoodMatch(data, pos, offset, length0) && Expands(groups, group, data[..pos])
    requires var it := Chosen(data, pos, offset, length0);
      && length == Size(it)
      && ((groups' == groups && group' == group + [it]) || (groups' == groups + [group + [it]] && group' == []))
    ensures length > 0 && pos + length <= |data| && Expands(groups', group', data[..pos + length])
  {
    ChosenExpands(data, pos, offset, length0);
    ExpandsOneMore(data, pos, groups, group, Chosen(data, pos, offset, length0), groups', group', length);
  }

  lemma Patched(before: seq<Byte>, behind: seq<Byte>, x: Byte, y: Byte)
    ensures (before + [x] + behind)[|before| := y] == before + ([y] + behind)
  {
  }

  ghost predicate Expands(groups: seq<seq<Item>>, group: seq<Item>, text: seq<Byte>) {
    AllFit([], groups) && Fits(ExpandAll([], groups), group) && Expand(ExpandAll([], groups), group) == text
  }

  /** Compresses a byte string.  At each place the longest match that can be stored, if there
      is one that is not put off, is written, and a byte otherwise.  The decompressor, given
      the length, gets the string back and uses up all of the bytes; and at worst a bit is
      added to every byte. */
  method LzssCompress(data: seq<Byte>) returns (compressed: seq<Byte>)
    ensures data == [] ==> compressed == []
    ensures IsCompression(data, compressed)
    ensures data != [] ==> Decompress(compressed, |data|) == Decoded(data, |compressed|)
    ensures |compressed| <= |data| + CeilDiv8(|data|)
  {
    if data == [] {
      assert IsTraceOf(data, [], []);
      return [];
    }
    var c := new Compressor(data);
    while c.pos < |data|
      invariant c.Valid() && c.data == data && fresh(c)
      decreases |data| - c.pos
    {
      c.CompressItem();
    }
    assert data[..|data|] == data;
    ghost var groups, group, starts := c.groups, c.group, c.starts;
    c.Finish();
    compressed := c.output;
    Completed(data, groups, group, starts);
  }

  lemma Completed(data: seq<Byte>, groups: seq<seq<Item>>, group: seq<Item>, starts: seq<nat>)
    requires Expands(groups, group, data) && data != [] && WellGrouped(AllGroups(groups, group))
    requires Traced(data, starts, Flatten(groups) + group, |data|)
    ensures var compressed := Encoding(AllGroups(groups, group));
      && IsCompression(data, compressed) && Decompress(compressed, |data|) == Decoded(data, |compressed|)
      && |compressed| <= |data| + CeilDiv8(|data|)
  {
    var all := AllGroups(groups, group);
    FlattenOneMore(groups, group);
    assert Flatten(all) == Flatten(groups) + group;
    CompleteGroups(groups, group, data);
    assert IsTraceOf(data, all, starts);
    EncodingDecodes(all);
    EncodingBound(all);
  }

  lemma CompleteGroups(groups: seq<seq<Item>>, group: seq<Item>, data: seq<Byte>)
    requires Expands(groups, group, data) && data != []
    ensures var all := AllGroups(groups, group);
      all != [] && AllFit([], all) && ExpandAll([], all) == data
  {
    if group != [] {
      ExpandAllOneMore([], groups, group);
    }
  }
}

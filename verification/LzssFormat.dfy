/** The compressed format: items, their bytes, the groups of eight that share a byte of
    flags, and the decoder. */
module LzssFormat {
  import opened LzssBits
  import opened Wrappers

  type Byte = b: nat | b < 256

  const MIN_MATCH := 3
  const MAX_MATCH := 258
  const MAX_OFFSET := 0x4000

  /** A byte, or a copy of `length` earlier bytes that end `offset` bytes back. */
  datatype Item = Literal(value: Byte) | Match(offset: nat, length: nat)

  predicate Short(it: Item) {
    it.Match? && it.offset < 0x80
  }

  predicate Medium(it: Item) {
    it.Match? && it.length - MIN_MATCH < 32 && 0x80 <= it.offset < 0x80 + 512
  }

  predicate Long(it: Item) {
    it.Match? && it.length > MIN_MATCH && 0x80 <= it.offset < 0x80 + MAX_OFFSET
  }

  predicate Storable(it: Item) {
    it.Match? ==> MIN_MATCH <= it.length <= MAX_MATCH && (Short(it) || Medium(it) || Long(it))
  }

  function ItemBytes(it: Item): (bytes: seq<Byte>)
    requires Storable(it)
    ensures 0 < |bytes| <= 3
  {
    if it.Literal? then [it.value]
    else if Short(it) then [it.offset, it.length - MIN_MATCH]
    else
      var far := it.offset - 0x80;
      if Medium(it) then [far % 128 + 128, far / 128 * 32 + (it.length - MIN_MATCH)]
      else [far % 128 + 128, far / 128 + 128, it.length - MIN_MATCH]
  }

  // ------------------------------------------------------------------ what items mean

  predicate CanStep(out: seq<Byte>, it: Item) {
    it.Match? ==> 0 < it.length && it.offset + it.length <= |out|
  }

  function Step(out: seq<Byte>, it: Item): (r: seq<Byte>)
    requires CanStep(out, it)
    ensures |r| > |out|
  {
    if it.Literal? then out + [it.value]
    else out + out[|out| - it.offset - it.length..|out| - it.offset]
  }

  predicate Fits(out: seq<Byte>, items: seq<Item>)
    decreases |items|
  {
    items == [] || (CanStep(out, items[0]) && Fits(Step(out, items[0]), items[1..]))
  }

  function Expand(out: seq<Byte>, items: seq<Item>): (r: seq<Byte>)
    requires Fits(out, items)
    ensures |r| >= |out| && (items != [] ==> |r| > |out|)
    decreases |items|
  {
    if items == [] then out else Expand(Step(out, items[0]), items[1..])
  }

  lemma {:induction false} ExpandOneMore(out: seq<Byte>, items: seq<Item>, it: Item)
    requires Fits(out, items) && CanStep(Expand(out, items), it)
    ensures Fits(out, items + [it]) && Expand(out, items + [it]) == Step(Expand(out, items), it)
    decreases |items|
  {
    if items == [] {
      assert Fits(Step(out, it), []);
    } else {
      ExpandOneMore(Step(out, items[0]), items[1..], it);
      assert (items + [it])[1..] == items[1..] + [it];
    }
  }

  // ------------------------------------------------------------------------- encoding

  predicate AllStorable(items: seq<Item>) {
    forall i :: 0 <= i < |items| ==> Storable(items[i])
  }

  function GroupBytes(items: seq<Item>): seq<Byte>
    requires AllStorable(items)
  {
    if items == [] then [] else ItemBytes(items[0]) + GroupBytes(items[1..])
  }

  function FlagOf(it: Item): nat {
    if it.Literal? then 1 else 0
  }

  /** The flags of up to eight items, the first in the lowest bit. */
  function FlagBits(items: seq<Item>): (bits: nat)
    ensures bits < Power2(|items|)
  {
    if items == [] then 0 else FlagOf(items[0]) + 2 * FlagBits(items[1..])
  }

  function FlagByte(group: seq<Item>): Byte
    requires |group| <= 8
  {
    SmallPowers();
    PowerGrows(|group|, 8);
    FlagBits(group)
  }

  /** Groups of eight items; the last one may have less. */
  predicate WellGrouped(groups: seq<seq<Item>>) {
    forall i :: 0 <= i < |groups| ==>
      AllStorable(groups[i]) && 0 < |groups[i]| <= 8 && (i + 1 < |groups| ==> |groups[i]| == 8)
  }

  function Encoding(groups: seq<seq<Item>>): seq<Byte>
    requires WellGrouped(groups)
  {
    if groups == [] then [] else [FlagByte(groups[0])] + GroupBytes(groups[0]) + Encoding(groups[1..])
  }

  predicate AllFit(out: seq<Byte>, groups: seq<seq<Item>>)
    decreases |groups|
  {
    groups == [] || (Fits(out, groups[0]) && AllFit(Expand(out, groups[0]), groups[1..]))
  }

  /** What the groups stand for, behind what is already out. */
  function ExpandAll(out: seq<Byte>, groups: seq<seq<Item>>): (r: seq<Byte>)
    requires AllFit(out, groups)
    ensures |r| >= |out| && (groups != [] && groups[0] != [] ==> |r| > |out|)
    decreases |groups|
  {
    if groups == [] then out else ExpandAll(Expand(out, groups[0]), groups[1..])
  }

  // -------------------------------------------------------------------------- decoding

  datatype Decoded = Failed | Unfinished(out: seq<Byte>, pos: nat) | Decoded(out: seq<Byte>, consumed: nat)

  datatype Reference = Reference(endOffset: nat, length: nat, next: nat)

  /** A back reference in two or three bytes. */
  function ReadReference(src: seq<Byte>, pos: nat): Option<Reference> {
    if pos + 1 >= |src| then None
    else
      var lo, hi := src[pos], src[pos + 1];
      if lo < 128 then Some(Reference(lo, hi + MIN_MATCH, pos + 2))
      else if hi < 128 then Some(Reference(0x80 + hi / 32 % 4 * 128 + lo % 128, hi % 32 + MIN_MATCH, pos + 2))
      else if pos + 2 >= |src| then None
      else Some(Reference(0x80 + hi % 128 * 128 + lo % 128, src[pos + 2] + MIN_MATCH, pos + 3))
  }

  datatype Progress = Progress(pos: nat, out: seq<Byte>)

  /** One item: a byte, or a back reference. */
  function ReadItem(src: seq<Byte>, pos: nat, out: seq<Byte>, literal: bool): (r: Option<Progress>)
    ensures r.Some? ==> pos < r.value.pos <= |src|
  {
    if literal then
      if pos >= |src| then None else Some(Progress(pos + 1, out + [src[pos]]))
    else
      var ref := ReadReference(src, pos);
      if ref.None? || ref.value.endOffset + ref.value.length > |out| then None
      else
        var from := |out| - ref.value.endOffset - ref.value.length;
        Some(Progress(ref.value.next, out + out[from..from + ref.value.length]))
  }

  /** The lowest `n` bits, the lowest first. */
  function BitsOf(value: nat, n: nat): (bits: seq<bool>)
    ensures |bits| == n
  {
    if n == 0 then [] else [value % 2 == 1] + BitsOf(value / 2, n - 1)
  }

  /** Decodes the items whose flags are `bits`, or until `n` bytes are out.  What would
      read or write out of bounds fails. */
  function DecodeItems(src: seq<Byte>, pos: nat, bits: seq<bool>, out: seq<Byte>, n: nat): (r: Decoded)
    requires pos <= |src|
    ensures r.Unfinished? ==> pos <= r.pos <= |src|
    decreases |bits|
  {
    if bits == [] then Unfinished(out, pos)
    else
      var item := ReadItem(src, pos, out, bits[0]);
      if item.None? || |item.value.out| > n then Failed
      else if |item.value.out| == n then Decoded(item.value.out, item.value.pos)
      else DecodeItems(src, item.value.pos, bits[1..], item.value.out, n)
  }

  /** Decodes from `pos` on until `n` bytes are out. */
  function Decode(src: seq<Byte>, pos: nat, out: seq<Byte>, n: nat): (r: Decoded)
    requires pos <= |src|
    ensures !r.Unfinished?
    decreases |src| - pos
  {
    if pos == |src| then Failed
    else
      var r := DecodeItems(src, pos + 1, BitsOf(src[pos], 8), out, n);
      if r.Unfinished? then Decode(src, r.pos, r.out, n) else r
  }

  function Decompress(src: seq<Byte>, n: nat): Decoded {
    Decode(src, 0, [], n)
  }

  // ------------------------------------------------------------------------ round trip

  lemma ReadBack(src: seq<Byte>, pos: nat, it: Item)
    requires Storable(it) && it.Match? && pos + |ItemBytes(it)| <= |src|
    requires forall k :: 0 <= k < |ItemBytes(it)| ==> src[pos + k] == ItemBytes(it)[k]
    ensures ReadReference(src, pos) == Some(Reference(it.offset, it.length, pos + |ItemBytes(it)|))
  {
    var bytes := ItemBytes(it);
    assert src[pos] == bytes[0] && src[pos + 1] == bytes[1];
    if !Short(it) && !Medium(it) {
      assert src[pos + 2] == bytes[2];
    }
  }

  lemma ItemReadBack(src: seq<Byte>, pos: nat, it: Item, out: seq<Byte>)
    requires Storable(it) && CanStep(out, it) && pos + |ItemBytes(it)| <= |src|
    requires forall k :: 0 <= k < |ItemBytes(it)| ==> src[pos + k] == ItemBytes(it)[k]
    ensures ReadItem(src, pos, out, it.Literal?) == Some(Progress(pos + |ItemBytes(it)|, Step(out, it)))
  {
    if it.Match? {
      ReadBack(src, pos, it);
    } else {
      assert src[pos + 0] == ItemBytes(it)[0];
    }
  }

  function FlagsOf(group: seq<Item>): seq<bool> {
    if group == [] then [] else [group[0].Literal?] + FlagsOf(group[1..])
  }

  /** The bits of the flag byte are the flags of the group, and some more if it is short. */
  lemma {:induction false} FlagsReadBack(group: seq<Item>, n: nat)
    requires |group| <= n
    ensures FlagsOf(group) <= BitsOf(FlagBits(group), n)
    ensures |FlagsOf(group)| == |group|
  {
    if group != [] {
      FlagsReadBack(group[1..], n - 1);
    }
  }

  /** What is still to be decoded: the rest of a group, and further groups. */
  predicate Ahead(src: seq<Byte>, pos: nat, group: seq<Item>, groups: seq<seq<Item>>)
    requires AllStorable(group) && WellGrouped(groups)
  {
    pos <= |src| && src[pos..] == GroupBytes(group) + Encoding(groups)
  }

  /** The flags of the next group are read. */
  lemma NextGroup(src: seq<Byte>, pos: nat, groups: seq<seq<Item>>)
    requires WellGrouped(groups) && groups != [] && Ahead(src, pos, [], groups)
    ensures pos < |src| && src[pos] == FlagByte(groups[0])
    ensures WellGrouped(groups[1..]) && Ahead(src, pos + 1, groups[0], groups[1..])
  {
    assert src[pos] == src[pos..][0] == FlagByte(groups[0]);
    assert src[pos + 1..] == src[pos..][1..] == GroupBytes(groups[0]) + Encoding(groups[1..]);
  }

  /** The bytes of the next item. */
  lemma ItemAhead(src: seq<Byte>, pos: nat, group: seq<Item>, groups: seq<seq<Item>>)
    requires group != [] && AllStorable(group) && WellGrouped(groups) && Ahead(src, pos, group, groups)
    ensures AllStorable(group[1..]) && Ahead(src, pos + |ItemBytes(group[0])|, group[1..], groups)
    ensures forall k :: 0 <= k < |ItemBytes(group[0])| ==> src[pos + k] == ItemBytes(group[0])[k]
  {
    var bytes, rest := ItemBytes(group[0]), GroupBytes(group[1..]) + Encoding(groups);
    assert src[pos..] == bytes + rest;
    assert forall k :: 0 <= k < |bytes| ==> src[pos + k] == src[pos..][k] == bytes[k];
    assert src[pos + |bytes|..] == src[pos..][|bytes|..] == rest;
  }

  lemma NextItem(src: seq<Byte>, pos: nat, group: seq<Item>, groups: seq<seq<Item>>, out: seq<Byte>) returns (next: nat)
    requires group != [] && AllStorable(group) && WellGrouped(groups) && Ahead(src, pos, group, groups)
    requires CanStep(out, group[0])
    ensures AllStorable(group[1..]) && Ahead(src, next, group[1..], groups)
    ensures ReadItem(src, pos, out, group[0].Literal?) == Some(Progress(next, Step(out, group[0])))
  {
    next := pos + |ItemBytes(group[0])|;
    ItemAhead(src, pos, group, groups);
    ItemReadBack(src, pos, group[0], out);
  }

  lemma FlagsTail(group: seq<Item>, bits: seq<bool>)
    requires group != [] && FlagsOf(group) <= bits
    ensures bits != [] && bits[0] == group[0].Literal? && FlagsOf(group[1..]) <= bits[1..]
  {
  }

  /** The rest of a group, with which the output is complete or which is full. */
  ghost predicate Pending(src: seq<Byte>, pos: nat, group: seq<Item>, groups: seq<seq<Item>>, bits: seq<bool>,
                          out: seq<Byte>, n: nat) {
    && AllStorable(group) && WellGrouped(groups) && Ahead(src, pos, group, groups)
    && FlagsOf(group) <= bits && Fits(out, group)
    && if groups == [] then |Expand(out, group)| == n else |Expand(out, group)| < n && |bits| == |group|
  }

  lemma ExpandFirst(out: seq<Byte>, group: seq<Item>)
    requires Fits(out, group) && group != []
    ensures CanStep(out, group[0])
    ensures var out' := Step(out, group[0]);
      && Fits(out', group[1..]) && Expand(out', group[1..]) == Expand(out, group)
      && |out'| <= |Expand(out, group)| && (|out'| == |Expand(out, group)| <==> group[1..] == [])
  {
  }

  lemma FirstItem(src: seq<Byte>, pos: nat, group: seq<Item>, groups: seq<seq<Item>>, bits: seq<bool>, out: seq<Byte>,
                  n: nat)
    returns (next: nat, out': seq<Byte>)
    requires Pending(src, pos, group, groups, bits, out, n) && group != []
    ensures bits != [] && Pending(src, next, group[1..], groups, bits[1..], out', n)
    ensures Expand(out', group[1..]) == Expand(out, group)
    ensures ReadItem(src, pos, out, bits[0]) == Some(Progress(next, out')) && |out'| <= n
    ensures |out'| == n <==> group[1..] == [] && groups == []
  {
    FlagsTail(group, bits);
    ExpandFirst(out, group);
    out' := Step(out, group[0]);
    next := NextItem(src, pos, group, groups, out);
  }

  lemma {:induction false} DecodeGroup(src: seq<Byte>, pos: nat, group: seq<Item>, groups: seq<seq<Item>>,
                                       bits: seq<bool>, out: seq<Byte>, n: nat) returns (next: nat)
    requires Pending(src, pos, group, groups, bits, out, n) && (groups == [] ==> group != [])
    ensures Ahead(src, next, [], groups)
    ensures DecodeItems(src, pos, bits, out, n) ==
      if groups == [] then Decoded(Expand(out, group), next) else Unfinished(Expand(out, group), next)
    decreases |group|
  {
    next := pos;
    if group != [] {
      var out';
      next, out' := FirstItem(src, pos, group, groups, bits, out, n);
      if group[1..] != [] || groups != [] {
        next := DecodeGroup(src, next, group[1..], groups, bits[1..], out', n);
      }
    }
  }

  lemma {:induction false} DecodeGroups(src: seq<Byte>, pos: nat, groups: seq<seq<Item>>, out: seq<Byte>, n: nat)
    requires groups != [] && WellGrouped(groups) && Ahead(src, pos, [], groups)
    requires AllFit(out, groups) && n == |ExpandAll(out, groups)|
    ensures Decode(src, pos, out, n) == Decoded(ExpandAll(out, groups), |src|)
    decreases |groups|
  {
    var group, rest := groups[0], groups[1..];
    NextGroup(src, pos, groups);
    FlagsReadBack(group, 8);
    assert ExpandAll(out, groups) == ExpandAll(Expand(out, group), rest);
    var next := DecodeGroup(src, pos + 1, group, rest, BitsOf(src[pos], 8), out, n);
    if rest != [] {
      DecodeGroups(src, next, rest, Expand(out, group), n);
    } else {
      assert src[next..] == [];
    }
  }

  /** Whatever was encoded is decoded, and all its bytes are used. */
  lemma EncodingDecodes(groups: seq<seq<Item>>)
    requires groups != [] && WellGrouped(groups) && AllFit([], groups)
    ensures Decompress(Encoding(groups), |ExpandAll([], groups)|) == Decoded(ExpandAll([], groups), |Encoding(groups)|)
  {
    assert Encoding(groups)[0..] == GroupBytes([]) + Encoding(groups);
    DecodeGroups(Encoding(groups), 0, groups, [], |ExpandAll([], groups)|);
  }

  // ----------------------------------------------------------------------------- size

  function CeilDiv8(n: nat): nat {
    (n + 7) / 8
  }

  lemma {:induction false} GroupBytesBound(out: seq<Byte>, items: seq<Item>)
    requires AllStorable(items) && Fits(out, items)
    ensures |GroupBytes(items)| <= |Expand(out, items)| - |out| && |items| <= |Expand(out, items)| - |out|
    decreases |items|
  {
    if items != [] {
      GroupBytesBound(Step(out, items[0]), items[1..]);
      assert |ItemBytes(items[0])| <= |Step(out, items[0])| - |out|;
    }
  }

  function ItemCount(groups: seq<seq<Item>>): nat {
    if groups == [] then 0 else |groups[0]| + ItemCount(groups[1..])
  }

  lemma {:induction false} GroupCount(groups: seq<seq<Item>>)
    requires WellGrouped(groups)
    ensures |groups| == CeilDiv8(ItemCount(groups))
  {
    if groups != [] {
      GroupCount(groups[1..]);
    }
  }

  lemma {:induction false} EncodingSize(out: seq<Byte>, groups: seq<seq<Item>>)
    requires WellGrouped(groups) && AllFit(out, groups)
    ensures |Encoding(groups)| <= |ExpandAll(out, groups)| - |out| + |groups|
    ensures ItemCount(groups) <= |ExpandAll(out, groups)| - |out|
    decreases |groups|
  {
    if groups != [] {
      GroupBytesBound(out, groups[0]);
      EncodingSize(Expand(out, groups[0]), groups[1..]);
    }
  }

  /** At worst a bit is added to every byte. */
  lemma EncodingBound(groups: seq<seq<Item>>)
    requires WellGrouped(groups) && AllFit([], groups)
    ensures var n := |ExpandAll([], groups)|; |Encoding(groups)| <= n + CeilDiv8(n)
  {
    EncodingSize([], groups);
    GroupCount(groups);
  }

  // ------------------------------------------------------------------ building it up

  lemma {:induction false} EncodingOneMore(groups: seq<seq<Item>>, group: seq<Item>)
    requires WellGrouped(groups + [group]) && WellGrouped(groups) && AllStorable(group) && |group| <= 8
    ensures Encoding(groups + [group]) == Encoding(groups) + ([FlagByte(group)] + GroupBytes(group))
  {
    if groups == [] {
      assert [group][1..] == [];
    } else {
      assert (groups + [group])[1..] == groups[1..] + [group];
      EncodingOneMore(groups[1..], group);
    }
  }

  lemma {:induction false} ExpandAllOneMore(out: seq<Byte>, groups: seq<seq<Item>>, group: seq<Item>)
    requires AllFit(out, groups) && Fits(ExpandAll(out, groups), group)
    ensures AllFit(out, groups + [group]) && ExpandAll(out, groups + [group]) == Expand(ExpandAll(out, groups), group)
    decreases |groups|
  {
    if groups == [] {
      assert [group][1..] == [];
    } else {
      assert (groups + [group])[1..] == groups[1..] + [group];
      ExpandAllOneMore(Expand(out, groups[0]), groups[1..], group);
    }
  }

  lemma {:induction false} GroupBytesOneMore(group: seq<Item>, it: Item)
    requires AllStorable(group) && Storable(it)
    ensures AllStorable(group + [it]) && GroupBytes(group + [it]) == GroupBytes(group) + ItemBytes(it)
  {
    if group == [] {
      assert [it][1..] == [];
    } else {
      assert (group + [it])[1..] == group[1..] + [it];
      GroupBytesOneMore(group[1..], it);
    }
  }

  lemma {:induction false} FlagBitsOneMore(group: seq<Item>, it: Item)
    ensures FlagBits(group + [it]) == FlagBits(group) + FlagOf(it) * Power2(|group|)
  {
    if group == [] {
      assert [it][1..] == [];
    } else {
      assert (group + [it])[1..] == group[1..] + [it];
      FlagBitsOneMore(group[1..], it);
    }
  }
}

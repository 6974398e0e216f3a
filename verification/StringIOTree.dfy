/** A text buffer with insertion points: a tree of streams on the heap that behaves like
    one flat document with many cursors. */
module StringIOTree {
  import opened FlatDocument

  /** An output stream; it is only ever written to at its end. */
  class StringIO {
    var contents: string

    constructor ()
      ensures contents == ""
    {
      contents := "";
    }

    function Tell(): nat
      reads this
    {
      |contents|
    }

    method Write(s: string)
      modifies this
      ensures contents == old(contents) + s
    {
      contents := contents + s;
    }
  }

  /** What a tree of buffers on the heap looks like.  A saved buffer holds text that was
      committed; nobody else has a reference to it. */
  datatype Tree = Tree(obj: StringIOTree, stream: StringIO, kids: seq<Tree>, text: string, saved: bool)

  ghost function NodesTo(kids: seq<Tree>, n: nat): set<StringIOTree>
    requires n <= |kids|
    decreases kids, n
  {
    if n == 0 then {} else NodesTo(kids, n - 1) + Nodes(kids[n - 1])
  }

  ghost function Nodes(v: Tree): set<StringIOTree>
    decreases v
  {
    NodesTo(v.kids, |v.kids|) + {v.obj}
  }

  ghost function StreamsTo(kids: seq<Tree>, n: nat): set<StringIO>
    requires n <= |kids|
    decreases kids, n
  {
    if n == 0 then {} else StreamsTo(kids, n - 1) + Streams(kids[n - 1])
  }

  ghost function Streams(v: Tree): set<StringIO>
    decreases v
  {
    StreamsTo(v.kids, |v.kids|) + {v.stream}
  }

  ghost predicate Apart(v: Tree, w: Tree) {
    Nodes(v) !! Nodes(w) && Streams(v) !! Streams(w)
  }

  /** No buffer and no stream is in two places of the tree. */
  ghost predicate DistinctTo(kids: seq<Tree>, n: nat)
    requires n <= |kids|
    decreases kids, n
  {
    n > 0 ==>
      && DistinctTo(kids, n - 1) && Distinct(kids[n - 1])
      && NodesTo(kids, n - 1) !! Nodes(kids[n - 1]) && StreamsTo(kids, n - 1) !! Streams(kids[n - 1])
  }

  ghost predicate Distinct(v: Tree)
    decreases v
  {
    && DistinctTo(v.kids, |v.kids|)
    && v.obj !in NodesTo(v.kids, |v.kids|) && v.stream !in StreamsTo(v.kids, |v.kids|)
    && (v.saved ==> v.kids == [])
  }

  ghost function PartsTo(kids: seq<Tree>, n: nat): set<Tree>
    requires n <= |kids|
    decreases kids, n
  {
    if n == 0 then {} else PartsTo(kids, n - 1) + Parts(kids[n - 1])
  }

  /** The tree and all the trees inside it. */
  ghost function Parts(v: Tree): set<Tree>
    decreases v
  {
    PartsTo(v.kids, |v.kids|) + {v}
  }

  /** One buffer on the heap is as the tree says. */
  ghost predicate Matches(v: Tree)
    reads v.obj, v.stream
  {
    && v.obj.stream == v.stream && v.stream.contents == v.text
    && |v.obj.prependedChildren| == |v.kids|
    && forall i :: 0 <= i < |v.kids| ==> v.obj.prependedChildren[i] == v.kids[i].obj
  }

  /** The heap holds the tree. */
  ghost predicate Rep(v: Tree)
    reads set u | u in Parts(v) :: u.obj
    reads set u | u in Parts(v) :: u.stream
  {
    forall u <- Parts(v) :: Matches(u)
  }

  // ------------------------------------------------------------------ the document

  ghost function DocTo(kids: seq<Tree>, n: nat): seq<Item<StringIOTree>>
    requires n <= |kids|
    decreases kids, n
  {
    if n == 0 then [] else DocTo(kids, n - 1) + Doc(kids[n - 1])
  }

  ghost function Doc(v: Tree): seq<Item<StringIOTree>>
    decreases v, 1
  {
    Body(v) + if v.saved then [] else [Cursor(v.obj)]
  }

  /** What stands in front of the buffer's own cursor. */
  ghost function Body(v: Tree): seq<Item<StringIOTree>>
    decreases v, 0
  {
    DocTo(v.kids, |v.kids|) + Chars(v.text)
  }

  // ---------------------------------------------------------------- parts of a tree

  ghost predicate IsPath(v: Tree, p: seq<nat>)
    decreases |p|
  {
    p == [] || (p[0] < |v.kids| && IsPath(v.kids[p[0]], p[1..]))
  }

  ghost function Sub(v: Tree, p: seq<nat>): Tree
    requires IsPath(v, p)
    decreases |p|
  {
    if p == [] then v else Sub(v.kids[p[0]], p[1..])
  }

  ghost function Replace(v: Tree, p: seq<nat>, w: Tree): Tree
    requires IsPath(v, p)
    decreases |p|
  {
    if p == [] then w else v.(kids := v.kids[p[0] := Replace(v.kids[p[0]], p[1..], w)])
  }

  lemma {:induction false} KidIn(kids: seq<Tree>, n: nat, i: nat)
    requires i < n <= |kids|
    ensures Nodes(kids[i]) <= NodesTo(kids, n) && Streams(kids[i]) <= StreamsTo(kids, n)
    ensures NodesTo(kids, i) <= NodesTo(kids, n) && StreamsTo(kids, i) <= StreamsTo(kids, n)
    ensures Parts(kids[i]) <= PartsTo(kids, n)
    ensures DistinctTo(kids, n) ==> Distinct(kids[i])
    ensures DistinctTo(kids, n) ==> NodesTo(kids, i) !! Nodes(kids[i]) && StreamsTo(kids, i) !! Streams(kids[i])
  {
    if i < n - 1 {
      KidIn(kids, n - 1, i);
    }
  }

  lemma {:induction false} SameKids(a: seq<Tree>, b: seq<Tree>, n: nat)
    requires n <= |a| && n <= |b| && forall i :: 0 <= i < n ==> a[i] == b[i]
    ensures NodesTo(a, n) == NodesTo(b, n) && StreamsTo(a, n) == StreamsTo(b, n)
    ensures DistinctTo(a, n) == DistinctTo(b, n) && DocTo(a, n) == DocTo(b, n)
    ensures PartsTo(a, n) == PartsTo(b, n)
  {
    if n > 0 {
      SameKids(a, b, n - 1);
    }
  }

  lemma {:induction false} SubFacts(v: Tree, p: seq<nat>)
    requires IsPath(v, p) && Distinct(v)
    ensures Distinct(Sub(v, p)) && Nodes(Sub(v, p)) <= Nodes(v) && Streams(Sub(v, p)) <= Streams(v)
    decreases |p|
  {
    if p != [] {
      KidIn(v.kids, |v.kids|, p[0]);
      SubFacts(v.kids[p[0]], p[1..]);
    }
  }

  lemma {:induction false} PartsOfSub(v: Tree, p: seq<nat>)
    requires IsPath(v, p)
    ensures Parts(Sub(v, p)) <= Parts(v)
    decreases |p|
  {
    if p != [] {
      KidIn(v.kids, |v.kids|, p[0]);
      PartsOfSub(v.kids[p[0]], p[1..]);
    }
  }

  lemma {:induction false} PartsAreNodes(v: Tree)
    ensures forall u <- Parts(v) :: u.obj in Nodes(v) && u.stream in Streams(v)
    decreases v
  {
    PartsAreNodesTo(v.kids, |v.kids|);
  }

  lemma {:induction false} PartsAreNodesTo(kids: seq<Tree>, n: nat)
    requires n <= |kids|
    ensures forall u <- PartsTo(kids, n) :: u.obj in NodesTo(kids, n) && u.stream in StreamsTo(kids, n)
    decreases kids, n
  {
    if n > 0 {
      PartsAreNodesTo(kids, n - 1);
      PartsAreNodes(kids[n - 1]);
    }
  }

  // ------------------------------------------------------- replacing a part of a tree

  /** What is new in `x` compared to `u` is not in `all`. */
  ghost predicate OnlyNew(x: Tree, u: Tree, nodes: set<StringIOTree>, streams: set<StringIO>) {
    (Nodes(x) - Nodes(u)) !! nodes && (Streams(x) - Streams(u)) !! streams
  }

  lemma {:induction false} KidReplaced(kids: seq<Tree>, i: nat, x: Tree, n: nat)
    requires n <= |kids| && i < |kids| && DistinctTo(kids, |kids|) && Distinct(x)
    requires OnlyNew(x, kids[i], NodesTo(kids, |kids|), StreamsTo(kids, |kids|))
    ensures var kids' := kids[i := x];
      && DistinctTo(kids', n)
      && NodesTo(kids', n) <= NodesTo(kids, n) + (if i < n then Nodes(x) else {})
      && StreamsTo(kids', n) <= StreamsTo(kids, n) + (if i < n then Streams(x) else {})
  {
    if n > 0 {
      KidReplaced(kids, i, x, n - 1);
      KidIn(kids, |kids|, n - 1);
      if i < n - 1 {
        KidIn(kids, n - 1, i);
      }
    }
  }

  lemma {:induction false} ReplaceFacts(v: Tree, p: seq<nat>, w: Tree)
    requires IsPath(v, p) && Distinct(v) && Distinct(w) && w.obj == Sub(v, p).obj
    requires OnlyNew(w, Sub(v, p), Nodes(v), Streams(v))
    ensures var v' := Replace(v, p, w);
      Distinct(v') && v'.obj == v.obj && Nodes(v') <= Nodes(v) + Nodes(w) && Streams(v') <= Streams(v) + Streams(w)
    decreases |p|
  {
    if p != [] {
      var i := p[0];
      KidIn(v.kids, |v.kids|, i);
      ReplaceFacts(v.kids[i], p[1..], w);
      SubFacts(v.kids[i], p[1..]);
      KidReplaced(v.kids, i, Replace(v.kids[i], p[1..], w), |v.kids|);
    }
  }

  lemma {:induction false} KidDocs(kids: seq<Tree>, i: nat, x: Tree, n: nat) returns (behind: seq<Item<StringIOTree>>)
    requires i < n <= |kids|
    ensures DocTo(kids, n) == DocTo(kids, i) + Doc(kids[i]) + behind
    ensures DocTo(kids[i := x], n) == DocTo(kids, i) + Doc(x) + behind
  {
    behind := [];
    if i < n - 1 {
      var b := KidDocs(kids, i, x, n - 1);
      behind := b + Doc(kids[n - 1]);
    } else {
      SameKids(kids, kids[i := x], i);
    }
  }

  lemma {:induction false} CursorsAreNodes(v: Tree, t: StringIOTree)
    ensures Cursor(t) in Doc(v) ==> t in Nodes(v)
    decreases v
  {
    CursorsAreNodesTo(v.kids, |v.kids|, t);
    assert Doc(v) == Body(v) + if v.saved then [] else [Cursor(v.obj)];
  }

  lemma {:induction false} CursorsAreNodesTo(kids: seq<Tree>, n: nat, t: StringIOTree)
    requires n <= |kids|
    ensures Cursor(t) in DocTo(kids, n) ==> t in NodesTo(kids, n)
    decreases kids, n
  {
    if n > 0 {
      CursorsAreNodesTo(kids, n - 1, t);
      CursorsAreNodes(kids[n - 1], t);
    }
  }

  /** The document around a part stays the same; the part's own cursor is not in front of it. */
  lemma {:induction false} ReplaceDoc(v: Tree, p: seq<nat>, w: Tree)
    returns (before: seq<Item<StringIOTree>>, behind: seq<Item<StringIOTree>>)
    requires IsPath(v, p) && Distinct(v)
    ensures Doc(v) == before + Doc(Sub(v, p)) + behind && Doc(Replace(v, p, w)) == before + Doc(w) + behind
    ensures Cursor(Sub(v, p).obj) !in before
    decreases |p|
  {
    before, behind := [], [];
    if p != [] {
      var i := p[0];
      var x := Replace(v.kids[i], p[1..], w);
      KidIn(v.kids, |v.kids|, i);
      SubFacts(v.kids[i], p[1..]);
      var b, r := ReplaceDoc(v.kids[i], p[1..], w);
      var rest := KidDocs(v.kids, i, x, |v.kids|);
      var cursor := if v.saved then [] else [Cursor(v.obj)];
      before, behind := DocTo(v.kids, i) + b, r + rest + Chars(v.text) + cursor;
      CursorsAreNodesTo(v.kids, i, Sub(v, p).obj);
      Regrouped(DocTo(v.kids, i), b, Doc(Sub(v, p)), r, rest, Chars(v.text), cursor);
      Regrouped(DocTo(v.kids, i), b, Doc(w), r, rest, Chars(v.text), cursor);
    }
  }

  lemma Regrouped(kids: seq<Item<StringIOTree>>, b: seq<Item<StringIOTree>>, x: seq<Item<StringIOTree>>,
                  r: seq<Item<StringIOTree>>, rest: seq<Item<StringIOTree>>, text: seq<Item<StringIOTree>>,
                  cursor: seq<Item<StringIOTree>>)
    ensures kids + (b + x + r) + rest + text + cursor == kids + b + x + (r + rest + text + cursor)
  {
  }

  /** Adding to a buffer at its end is inserting at its cursor. */
  lemma ReplaceSplices(v: Tree, p: seq<nat>, w: Tree, what: seq<Item<StringIOTree>>)
    requires IsPath(v, p) && Distinct(v) && !Sub(v, p).saved && !w.saved && w.obj == Sub(v, p).obj
    requires Body(w) == Body(Sub(v, p)) + what
    ensures Doc(Replace(v, p, w)) == Splice(Doc(v), Sub(v, p).obj, what)
  {
    var u := Sub(v, p);
    SubFacts(v, p);
    var before, behind := ReplaceDoc(v, p, w);
    OwnCursorLast(u);
    SpliceAround(before, Body(u), u.obj, behind, what);
  }

  lemma SpliceAround(before: seq<Item<StringIOTree>>, body: seq<Item<StringIOTree>>, t: StringIOTree,
                     behind: seq<Item<StringIOTree>>, what: seq<Item<StringIOTree>>)
    requires Cursor(t) !in before && Cursor(t) !in body
    ensures Splice(before + (body + [Cursor(t)]) + behind, t, what) == before + (body + what + [Cursor(t)]) + behind
  {
    SpliceThere(before + body, t, behind, what);
    assert before + (body + [Cursor(t)]) + behind == before + body + [Cursor(t)] + behind;
    assert before + (body + what + [Cursor(t)]) + behind == before + body + what + [Cursor(t)] + behind;
  }

  lemma OwnCursorLast(v: Tree)
    requires Distinct(v)
    ensures Cursor(v.obj) !in Body(v)
  {
    CursorsAreNodesTo(v.kids, |v.kids|, v.obj);
  }

  // ------------------------------------------------- the documents of the parts

  lemma {:induction false} PartNodes(v: Tree, u: Tree)
    requires u in Parts(v)
    ensures Nodes(u) <= Nodes(v) && Parts(u) <= Parts(v)
    decreases v
  {
    if u != v {
      PartNodesTo(v.kids, |v.kids|, u);
    }
  }

  lemma {:induction false} PartNodesTo(kids: seq<Tree>, n: nat, u: Tree)
    requires n <= |kids| && u in PartsTo(kids, n)
    ensures Nodes(u) <= NodesTo(kids, n) && Parts(u) <= PartsTo(kids, n)
    decreases kids, n
  {
    if u in PartsTo(kids, n - 1) {
      PartNodesTo(kids, n - 1, u);
    } else {
      PartNodes(kids[n - 1], u);
    }
  }

  lemma {:induction false} KidWith(kids: seq<Tree>, n: nat, u: Tree) returns (j: nat)
    requires n <= |kids| && u in PartsTo(kids, n)
    ensures j < n && u in Parts(kids[j])
  {
    if u in Parts(kids[n - 1]) {
      j := n - 1;
    } else {
      j := KidWith(kids, n - 1, u);
    }
  }

  /** A part that is not saved has its cursor in the document. */
  lemma {:induction false} PartInDoc(v: Tree, u: Tree)
    requires u in Parts(v) && !u.saved
    ensures Cursor(u.obj) in Doc(v)
    decreases v
  {
    if u != v {
      PartInDocTo(v.kids, |v.kids|, u);
    }
  }

  lemma {:induction false} PartInDocTo(kids: seq<Tree>, n: nat, u: Tree)
    requires n <= |kids| && u in PartsTo(kids, n) && !u.saved
    ensures Cursor(u.obj) in DocTo(kids, n)
    decreases kids, n
  {
    if u in PartsTo(kids, n - 1) {
      PartInDocTo(kids, n - 1, u);
    } else {
      PartInDoc(kids[n - 1], u);
    }
  }

  /** Where the cursor is not in it, a part's document stays the same. */
  lemma SpliceElsewhere(u: Tree, t: StringIOTree, what: seq<Item<StringIOTree>>)
    requires t !in Nodes(u)
    ensures Splice(Doc(u), t, what) == Doc(u)
  {
    CursorsAreNodes(u, t);
    SpliceKeeps(Doc(u), t, what, t);
  }

  /** A buffer of the tree has got `what` inserted at the cursor of `t`, if that is in it. */
  ghost predicate Became(u: Tree, u': Tree, t: StringIOTree, what: seq<Item<StringIOTree>>) {
    u'.obj == u.obj && !u'.saved && Doc(u') == Splice(Doc(u), t, what)
  }

  /** All buffers of the tree have. */
  ghost predicate PartsBecame(v: Tree, v': Tree, t: StringIOTree, what: seq<Item<StringIOTree>>) {
    forall u <- Parts(v) :: !u.saved ==> PartBecame(u, v', t, what)
  }

  ghost predicate PartBecame(u: Tree, v': Tree, t: StringIOTree, what: seq<Item<StringIOTree>>) {
    exists u' <- Parts(v') :: Became(u, u', t, what)
  }

  lemma OtherKid(kids: seq<Tree>, i: nat, j: nat)
    requires i < |kids| && j < |kids| && i != j && DistinctTo(kids, |kids|)
    ensures Nodes(kids[i]) !! Nodes(kids[j])
  {
    if i < j {
      KidIn(kids, j, i);
      KidIn(kids, |kids|, j);
    } else {
      KidIn(kids, i, j);
      KidIn(kids, |kids|, i);
    }
  }

  /** Adding to the buffer at `p` at its end: what becomes of any buffer `u`. */
  lemma {:induction false} PartReplaced(v: Tree, p: seq<nat>, w: Tree, what: seq<Item<StringIOTree>>, u: Tree)
    returns (u': Tree)
    requires IsPath(v, p) && Distinct(v) && !Sub(v, p).saved && !w.saved && w.obj == Sub(v, p).obj
    requires Body(w) == Body(Sub(v, p)) + what && PartsTo(Sub(v, p).kids, |Sub(v, p).kids|) <= Parts(w)
    requires u in Parts(v) && !u.saved
    ensures u' in Parts(Replace(v, p, w)) && Became(u, u', Sub(v, p).obj, what)
    decreases |p|
  {
    if u == v {
      ReplaceSplices(v, p, w, what);
      SameObj(v, p, w);
      u' := Replace(v, p, w);
    } else if p == [] {
      PartNodesTo(v.kids, |v.kids|, u);
      SpliceElsewhere(u, v.obj, what);
      u' := u;
    } else {
      var j := KidWith(v.kids, |v.kids|, u);
      KidIn(v.kids, |v.kids|, j);
      var kids' := Replace(v, p, w).kids;
      if j == p[0] {
        u' := PartReplaced(v.kids[j], p[1..], w, what, u);
      } else {
        KidIn(v.kids, |v.kids|, p[0]);
        SubFacts(v.kids[p[0]], p[1..]);
        OtherKid(v.kids, j, p[0]);
        PartNodes(v.kids[j], u);
        SpliceElsewhere(u, Sub(v, p).obj, what);
        u' := u;
      }
      KidIn(kids', |kids'|, j);
    }
  }

  lemma PartsReplaced(v: Tree, p: seq<nat>, w: Tree, what: seq<Item<StringIOTree>>)
    requires IsPath(v, p) && Distinct(v) && !Sub(v, p).saved && !w.saved && w.obj == Sub(v, p).obj
    requires Body(w) == Body(Sub(v, p)) + what && PartsTo(Sub(v, p).kids, |Sub(v, p).kids|) <= Parts(w)
    ensures PartsBecame(v, Replace(v, p, w), Sub(v, p).obj, what)
  {
    forall u | u in Parts(v) && !u.saved ensures PartBecame(u, Replace(v, p, w), Sub(v, p).obj, what) {
      var u' := PartReplaced(v, p, w, what, u);
    }
  }

  lemma {:induction false} PartsOfReplacement(v: Tree, p: seq<nat>, w: Tree)
    requires IsPath(v, p)
    ensures Parts(w) <= Parts(Replace(v, p, w))
    decreases |p|
  {
    if p != [] {
      PartsOfReplacement(v.kids[p[0]], p[1..], w);
      var kids' := Replace(v, p, w).kids;
      KidIn(kids', |kids'|, p[0]);
    }
  }

  /** First nothing was inserted, then `what`. */
  lemma PartsBecameThen(v: Tree, v': Tree, v'': Tree, t: StringIOTree, what: seq<Item<StringIOTree>>)
    requires PartsBecame(v, v', t, []) && PartsBecame(v', v'', t, what)
    ensures PartsBecame(v, v'', t, what)
  {
    forall u | u in Parts(v) && !u.saved ensures PartBecame(u, v'', t, what) {
      assert PartBecame(u, v', t, []);
      var u' :| u' in Parts(v') && Became(u, u', t, []);
      SpliceNothing(Doc(u), t);
      assert PartBecame(u', v'', t, what);
      var u'' :| u'' in Parts(v'') && Became(u', u'', t, what);
      assert Became(u, u'', t, what);
    }
  }

  lemma PartsBecameThemselves(v: Tree, t: StringIOTree)
    ensures PartsBecame(v, v, t, [])
  {
    forall u | u in Parts(v) && !u.saved ensures PartBecame(u, v, t, []) {
      SpliceNothing(Doc(u), t);
      assert Became(u, u, t, []);
    }
  }

  /** A cursor in the document leads to its buffer. */
  lemma {:induction false} PathOf(v: Tree, t: StringIOTree) returns (p: seq<nat>)
    requires Cursor(t) in Doc(v)
    ensures IsPath(v, p) && Sub(v, p).obj == t && !Sub(v, p).saved
    decreases v
  {
    if v.obj == t && !v.saved {
      p := [];
    } else {
      var i := KidOf(v.kids, |v.kids|, t);
      var q := PathOf(v.kids[i], t);
      p := [i] + q;
    }
  }

  lemma {:induction false} KidOf(kids: seq<Tree>, n: nat, t: StringIOTree) returns (i: nat)
    requires n <= |kids| && Cursor(t) in DocTo(kids, n)
    ensures i < n && Cursor(t) in Doc(kids[i])
  {
    if Cursor(t) in Doc(kids[n - 1]) {
      i := n - 1;
    } else {
      i := KidOf(kids, n - 1, t);
    }
  }

  // ------------------------------------------------------------- the heap and the tree

  /** The two say the same of the buffer. */
  ghost predicate Alike(u: Tree, u': Tree) {
    && u.obj == u'.obj && u.stream == u'.stream && u.text == u'.text
    && |u.kids| == |u'.kids| && forall i :: 0 <= i < |u.kids| ==> u.kids[i].obj == u'.kids[i].obj
  }

  /** A part outside of `x` that `u'` is like. */
  ghost predicate Outside(parts: set<Tree>, x: Tree, u': Tree) {
    exists u <- parts :: Alike(u, u') && u.obj !in Nodes(x) && u.stream !in Streams(x)
  }

  lemma {:induction false} KidParts(kids: seq<Tree>, i: nat, x: Tree, n: nat, u': Tree)
    requires i < |kids| && n <= |kids| && DistinctTo(kids, |kids|) && u' in PartsTo(kids[i := x], n)
    ensures u' in Parts(x) || Outside(PartsTo(kids, n), kids[i], u')
  {
    if u' in PartsTo(kids[i := x], n - 1) {
      KidParts(kids, i, x, n - 1, u');
    } else if n - 1 != i {
      PartsAreNodes(kids[n - 1]);
      KidIn(kids, |kids|, n - 1);
      KidIn(kids, |kids|, i);
      if n - 1 < i {
        KidIn(kids, i, n - 1);
      } else {
        KidIn(kids, n - 1, i);
      }
      assert Alike(u', u');
    }
  }

  lemma OutsideMore(parts: set<Tree>, more: set<Tree>, x: Tree, y: Tree, u': Tree)
    requires Outside(parts, x, u') && parts <= more && Nodes(y) <= Nodes(x) && Streams(y) <= Streams(x)
    ensures Outside(more, y, u')
  {
  }

  /** Replacing a part changes what the tree says of the buffers in that part only. */
  lemma {:induction false} ReplaceParts(v: Tree, p: seq<nat>, w: Tree, u': Tree)
    requires IsPath(v, p) && Distinct(v) && w.obj == Sub(v, p).obj && u' in Parts(Replace(v, p, w))
    ensures u' in Parts(w) || Outside(Parts(v), Sub(v, p), u')
    decreases |p|
  {
    if p != [] {
      var i := p[0];
      var kid := v.kids[i];
      var x := Replace(kid, p[1..], w);
      KidIn(v.kids, |v.kids|, i);
      SubFacts(kid, p[1..]);
      SameObj(kid, p[1..], w);
      if u' == Replace(v, p, w) {
        assert Alike(v, u');
      } else {
        KidParts(v.kids, i, x, |v.kids|, u');
        if u' in Parts(x) {
          ReplaceParts(kid, p[1..], w, u');
          if u' !in Parts(w) {
            OutsideMore(Parts(kid), Parts(v), Sub(v, p), Sub(v, p), u');
          }
        } else {
          OutsideMore(PartsTo(v.kids, |v.kids|), Parts(v), kid, Sub(v, p), u');
        }
      }
    }
  }

  lemma SameObj(v: Tree, p: seq<nat>, w: Tree)
    requires IsPath(v, p) && w.obj == Sub(v, p).obj
    ensures Replace(v, p, w).obj == v.obj
  {
  }

  /** Where a buffer and its part `u` of the tree have changed, and all the rest has not. */
  lemma RepReplaced(v: Tree, p: seq<nat>, u: Tree, w: Tree)
    requires IsPath(v, p) && Distinct(v) && u == Sub(v, p) && w.obj == u.obj && Rep(w)
    requires forall x <- Parts(v) :: x.obj != u.obj && x.stream != u.stream ==> Matches(x)
    ensures Rep(Replace(v, p, w))
  {
    SubFacts(v, p);
    forall u' | u' in Parts(Replace(v, p, w)) ensures Matches(u') {
      ReplaceParts(v, p, w, u');
    }
  }

  /** The part of the tree at a live buffer. */
  lemma PartOf(root: Tree, t: StringIOTree) returns (p: seq<nat>, u: Tree)
    requires Rep(root) && Distinct(root) && Cursor(t) in Doc(root)
    ensures IsPath(root, p) && u == Sub(root, p) && u.obj == t && !u.saved && Distinct(u)
    ensures Matches(u) && Nodes(u) <= Nodes(root) && Streams(u) <= Streams(root)
    ensures forall x <- PartsTo(u.kids, |u.kids|) :: x in Parts(root) && x.obj != t && x.stream != u.stream
  {
    p := PathOf(root, t);
    u := Sub(root, p);
    PartsOfSub(root, p);
    SubFacts(root, p);
    PartsAreNodesTo(u.kids, |u.kids|);
  }

  /** A buffer's own text may change without the rest of the tree noticing. */
  lemma Retexted(root: Tree, p: seq<nat>, w: Tree, what: seq<Item<StringIOTree>>)
    requires IsPath(root, p) && Distinct(root) && !Sub(root, p).saved
    requires var u := Sub(root, p); w.obj == u.obj && w.stream == u.stream && w.kids == u.kids && !w.saved
    requires Chars(w.text) == Chars(Sub(root, p).text) + what
    ensures var root' := Replace(root, p, w);
      && Distinct(root') && Doc(root') == Splice(Doc(root), Sub(root, p).obj, what)
      && root'.obj == root.obj && Nodes(root') <= Nodes(root) && Streams(root') <= Streams(root)
      && PartsBecame(root, root', Sub(root, p).obj, what)
  {
    SubFacts(root, p);
    ReplaceFacts(root, p, w);
    ReplaceSplices(root, p, w, what);
    PartsReplaced(root, p, w, what);
  }

  ghost function TextTo(kids: seq<Tree>, n: nat): string
    requires n <= |kids|
    decreases kids, n
  {
    if n == 0 then "" else TextTo(kids, n - 1) + Text(kids[n - 1])
  }

  /** The text of the streams, children first. */
  ghost function Text(v: Tree): string
    decreases v
  {
    TextTo(v.kids, |v.kids|) + v.text
  }

  /** It is the document without its cursors. */
  lemma {:induction false} TextIsTextOfDoc(v: Tree)
    ensures Text(v) == TextOf(Doc(v))
    decreases v
  {
    TextToIsTextOfDoc(v.kids, |v.kids|);
    var cursor: seq<Item<StringIOTree>> := if v.saved then [] else [Cursor(v.obj)];
    assert TextOf(cursor) == [];
    TextOfJoin(Body(v), cursor);
    TextOfJoin(DocTo(v.kids, |v.kids|), Chars(v.text));
    TextOfChars<StringIOTree>(v.text);
  }

  lemma {:induction false} TextToIsTextOfDoc(kids: seq<Tree>, n: nat)
    requires n <= |kids|
    ensures TextTo(kids, n) == TextOf(DocTo(kids, n))
    decreases kids, n
  {
    if n > 0 {
      TextToIsTextOfDoc(kids, n - 1);
      TextIsTextOfDoc(kids[n - 1]);
      TextOfDocTo(kids, n);
    }
  }

  lemma TextOfDocTo(kids: seq<Tree>, n: nat)
    requires 0 < n <= |kids|
    ensures TextOf(DocTo(kids, n)) == TextOf(DocTo(kids, n - 1)) + TextOf(Doc(kids[n - 1]))
  {
    TextOfJoin(DocTo(kids, n - 1), Doc(kids[n - 1]));
  }

  lemma TextStep(start: string, kids: seq<Tree>, n: nat)
    requires n < |kids|
    ensures start + TextTo(kids, n) + Text(kids[n]) == start + TextTo(kids, n + 1)
  {
    assert TextTo(kids, n + 1) == TextTo(kids, n) + Text(kids[n]);
  }

  lemma TextEnd(start: string, v: Tree)
    ensures start + TextTo(v.kids, |v.kids|) + v.text == start + Text(v)
  {
  }

  lemma KidRep(v: Tree, i: nat)
    requires Rep(v) && i < |v.kids|
    ensures Rep(v.kids[i]) && |v.obj.prependedChildren| == |v.kids| && v.obj.prependedChildren[i] == v.kids[i].obj
    ensures Streams(v.kids[i]) <= Streams(v)
  {
    assert Matches(v);
    KidIn(v.kids, |v.kids|, i);
  }

  function Joined(items: seq<string>): string {
    if items == [] then "" else Joined(items[..|items| - 1]) + items[|items| - 1]
  }

  class ContentList {
    var items: seq<string>

    constructor ()
      ensures items == []
    {
      items := [];
    }

    method Append(s: string)
      modifies this
      ensures items == old(items) + [s] && Joined(items) == old(Joined(items)) + s
    {
      items := items + [s];
    }
  }

  /** A buffer that has got one more child behind the others, and has no text of its own. */
  function WithKid(u: Tree, kid: Tree, stream: StringIO): Tree {
    Tree(u.obj, stream, u.kids + [kid], "", false)
  }

  lemma WithKidFacts(u: Tree, kid: Tree, stream: StringIO)
    requires Distinct(u) && Distinct(kid) && Nodes(u) !! Nodes(kid) && StreamsTo(u.kids, |u.kids|) !! Streams(kid)
    requires stream !in StreamsTo(u.kids, |u.kids|) && stream !in Streams(kid)
    ensures var w := WithKid(u, kid, stream);
      && Distinct(w) && Nodes(w) == Nodes(u) + Nodes(kid)
      && Streams(w) == StreamsTo(u.kids, |u.kids|) + Streams(kid) + {stream}
      && Body(w) == DocTo(u.kids, |u.kids|) + Doc(kid)
      && Parts(w) == PartsTo(u.kids, |u.kids|) + Parts(kid) + {w}
  {
    var kids := u.kids + [kid];
    SameKids(u.kids, kids, |u.kids|);
    assert kids[|u.kids|] == kid;
    assert DocTo(kids, |kids|) == DocTo(kids, |u.kids|) + Doc(kid);
  }

  /** Giving a buffer `u` of the tree one more child: the document. */
  lemma AdoptedDoc(root: Tree, p: seq<nat>, u: Tree, kid: Tree, stream: StringIO, what: seq<Item<StringIOTree>>)
    requires IsPath(root, p) && Distinct(root) && u == Sub(root, p) && !u.saved && Distinct(kid)
    requires Nodes(root) !! Nodes(kid) && (Streams(root) - {u.stream}) !! Streams(kid) && stream !in Streams(kid)
    requires stream == u.stream || stream !in Streams(root)
    requires DocTo(u.kids, |u.kids|) + Doc(kid) == Body(u) + what
    ensures var root' := Replace(root, p, WithKid(u, kid, stream));
      && Distinct(root') && Doc(root') == Splice(Doc(root), u.obj, what) && root'.obj == root.obj
      && Nodes(root') <= Nodes(root) + Nodes(kid) && Streams(root') <= Streams(root) + Streams(kid) + {stream}
      && PartsBecame(root, root', u.obj, what) && Parts(kid) <= Parts(root')
  {
    SubFacts(root, p);
    WithKidFacts(u, kid, stream);
    ReplaceFacts(root, p, WithKid(u, kid, stream));
    ReplaceSplices(root, p, WithKid(u, kid, stream), what);
    PartsReplaced(root, p, WithKid(u, kid, stream), what);
    PartsOfReplacement(root, p, WithKid(u, kid, stream));
  }

  /** Giving a buffer `u` of the tree one more child: the heap. */
  lemma AdoptedRep(root: Tree, p: seq<nat>, u: Tree, kid: Tree, stream: StringIO)
    requires IsPath(root, p) && Distinct(root) && u == Sub(root, p) && Rep(kid) && Matches(WithKid(u, kid, stream))
    requires forall x <- Parts(root) :: x.obj != u.obj && x.stream != u.stream ==> Matches(x)
    ensures Rep(Replace(root, p, WithKid(u, kid, stream)))
  {
    var w := WithKid(u, kid, stream);
    SameKids(u.kids, w.kids, |u.kids|);
    assert Parts(w) == PartsTo(u.kids, |u.kids|) + Parts(kid) + {w};
    PartsOfSub(root, p);
    SubFacts(root, p);
    PartsAreNodesTo(u.kids, |u.kids|);
    RepReplaced(root, p, u, w);
  }

  /** Giving a buffer `u` of the tree one more child. */
  lemma Adopted(root: Tree, p: seq<nat>, u: Tree, kid: Tree, stream: StringIO, what: seq<Item<StringIOTree>>)
    returns (root': Tree)
    requires IsPath(root, p) && Distinct(root) && u == Sub(root, p) && !u.saved && Distinct(kid)
    requires Nodes(root) !! Nodes(kid) && (Streams(root) - {u.stream}) !! Streams(kid) && stream !in Streams(kid)
    requires stream == u.stream || stream !in Streams(root)
    requires DocTo(u.kids, |u.kids|) + Doc(kid) == Body(u) + what
    requires Rep(kid) && Matches(WithKid(u, kid, stream))
    requires forall x <- Parts(root) :: x.obj != u.obj && x.stream != u.stream ==> Matches(x)
    ensures Rep(root') && Distinct(root') && Doc(root') == Splice(Doc(root), u.obj, what) && root'.obj == root.obj
    ensures Nodes(root') <= Nodes(root) + Nodes(kid) && Streams(root') <= Streams(root) + Streams(kid) + {stream}
    ensures PartsBecame(root, root', u.obj, what) && Parts(kid) <= Parts(root')
  {
    AdoptedDoc(root, p, u, kid, stream, what);
    AdoptedRep(root, p, u, kid, stream);
    root' := Replace(root, p, WithKid(u, kid, stream));
  }

  lemma ChildlessFacts(v: Tree)
    requires v.kids == []
    ensures Nodes(v) == {v.obj} && Streams(v) == {v.stream} && Parts(v) == {v} && Distinct(v)
    ensures Doc(v) == Chars(v.text) + if v.saved then [] else [Cursor(v.obj)]
  {
    assert Body(v) == Chars(v.text);
  }

  /** A part of the tree is replaced by an empty buffer. */
  lemma Emptied(root: Tree, p: seq<nat>, u: Tree, stream: StringIO) returns (root': Tree)
    requires IsPath(root, p) && Distinct(root) && u == Sub(root, p) && stream !in Streams(root)
    requires Matches(Tree(u.obj, stream, [], "", false))
    requires forall x <- Parts(root) :: x.obj != u.obj && x.stream != u.stream ==> Matches(x)
    ensures Rep(root') && Distinct(root') && root'.obj == root.obj
    ensures Nodes(root') <= Nodes(root) && Streams(root') <= Streams(root) + {stream}
    ensures exists before, behind ::
      Doc(root) == before + Doc(u) + behind && Doc(root') == before + [Cursor(u.obj)] + behind
  {
    var w := Tree(u.obj, stream, [], "", false);
    ChildlessFacts(w);
    SubFacts(root, p);
    ReplaceFacts(root, p, w);
    RepReplaced(root, p, u, w);
    root' := Replace(root, p, w);
    var before, behind := ReplaceDoc(root, p, w);
    assert Doc(w) == [Cursor(w.obj)];
  }

  lemma BodyBefore(u: Tree, kid: Tree)
    ensures u.text == "" ==> DocTo(u.kids, |u.kids|) + Doc(kid) == Body(u) + Doc(kid)
    ensures Doc(kid) == Chars(u.text) ==> DocTo(u.kids, |u.kids|) + Doc(kid) == Body(u) + []
  {
    if u.text == "" {
      assert Body(u) == DocTo(u.kids, |u.kids|);
    }
  }

  function SavedTree(u: Tree, child: StringIOTree): Tree {
    Tree(child, u.stream, [], u.text, true)
  }

  /** The text of a buffer has moved to a child with its stream. */
  lemma Saved(root: Tree, p: seq<nat>, u: Tree, child: StringIOTree, stream: StringIO) returns (root': Tree)
    requires IsPath(root, p) && Distinct(root) && u == Sub(root, p) && !u.saved
    requires child !in Nodes(root) && stream !in Streams(root)
    requires Matches(SavedTree(u, child)) && Matches(WithKid(u, SavedTree(u, child), stream))
    requires forall x <- Parts(root) :: x.obj != u.obj && x.stream != u.stream ==> Matches(x)
    ensures Rep(root') && Distinct(root') && Doc(root') == Doc(root) && root'.obj == root.obj
    ensures Nodes(root') <= Nodes(root) + {child} && Streams(root') <= Streams(root) + {stream}
    ensures PartsBecame(root, root', u.obj, [])
  {
    var kid := SavedTree(u, child);
    SubFacts(root, p);
    ChildlessFacts(kid);
    BodyBefore(u, kid);
    SpliceNothing(Doc(root), u.obj);
    root' := Adopted(root, p, u, kid, stream, []);
  }

  class StringIOTree {
    var prependedChildren: seq<StringIOTree>
    var stream: StringIO

    constructor (stream: StringIO)
      ensures prependedChildren == [] && this.stream == stream
    {
      prependedChildren, this.stream := [], stream;
    }

    /** Writes to the stream of the buffer. */
    method Write(s: string, ghost root: Tree) returns (ghost root': Tree)
      requires Rep(root) && Distinct(root) && Cursor(this) in Doc(root)
      modifies stream
      ensures Rep(root') && Distinct(root') && Doc(root') == Splice(Doc(root), this, Chars(s))
      ensures PartsBecame(root, root', this, Chars(s))
      ensures root'.obj == root.obj && Nodes(root') <= Nodes(root) && Streams(root') <= Streams(root)
    {
      ghost var p, u := PartOf(root, this);
      assert allocated(Parts(root));
      stream.Write(s);
      ghost var w := u.(text := u.text + s);
      CharsJoin<StringIOTree>(u.text, s);
      Retexted(root, p, w, Chars(s));
      RepReplaced(root, p, u, w);
      root' := Replace(root, p, w);
    }

    /** Puts what has been written so far away in a child, so that a child can be added
        behind it. */
    method Commit(ghost root: Tree) returns (ghost root': Tree)
      requires Rep(root) && Distinct(root) && Cursor(this) in Doc(root)
      modifies this
      ensures Rep(root') && Distinct(root') && Doc(root') == Doc(root) && stream.contents == ""
      ensures PartsBecame(root, root', this, [])
      ensures root'.obj == root.obj && fresh(Nodes(root') - Nodes(root)) && fresh(Streams(root') - Streams(root))
    {
      root' := root;
      PartsBecameThemselves(root, this);
      if stream.Tell() != 0 {
        root' := Save(root);
      }
    }

    /** Puts the text of the buffer away in a child. */
    method Save(ghost root: Tree) returns (ghost root': Tree)
      requires Rep(root) && Distinct(root) && Cursor(this) in Doc(root)
      modifies this
      ensures Rep(root') && Distinct(root') && Doc(root') == Doc(root) && stream.contents == ""
      ensures PartsBecame(root, root', this, [])
      ensures root'.obj == root.obj && fresh(Nodes(root') - Nodes(root)) && fresh(Streams(root') - Streams(root))
    {
      ghost var p, u := PartOf(root, this);
      assert allocated(Parts(root)) && allocated(Nodes(root)) && allocated(Streams(root));
      var child := new StringIOTree(stream);
      prependedChildren := prependedChildren + [child];
      stream := new StringIO();
      root' := Saved(root, p, u, child, stream);
    }

    /** Adds a child behind the others, to a buffer that has no text of its own. */
    method AddChild(child: StringIOTree, ghost root: Tree, ghost kid: Tree) returns (ghost root': Tree)
      requires Rep(root) && Distinct(root) && Cursor(this) in Doc(root) && stream.contents == ""
      requires Rep(kid) && Distinct(kid) && kid.obj == child && Apart(root, kid)
      modifies this
      ensures Rep(root') && Distinct(root') && Doc(root') == Splice(Doc(root), this, Doc(kid))
      ensures PartsBecame(root, root', this, Doc(kid)) && Parts(kid) <= Parts(root')
      ensures root'.obj == root.obj && Nodes(root') <= Nodes(root) + Nodes(kid)
        && Streams(root') <= Streams(root) + Streams(kid)
    {
      ghost var p, u := PartOf(root, this);
      assert allocated(Parts(root)) && allocated(Parts(kid));
      PartsAreNodes(kid);
      prependedChildren := prependedChildren + [child];
      BodyBefore(u, kid);
      root' := Adopted(root, p, u, kid, stream, Doc(kid));
    }

    /** Inserts a tree at this location; further writing goes behind it. */
    method Insert(iotree: StringIOTree, ghost root: Tree, ghost other: Tree) returns (ghost root': Tree)
      requires Rep(root) && Distinct(root) && Cursor(this) in Doc(root)
      requires Rep(other) && Distinct(other) && other.obj == iotree && Apart(root, other)
      modifies this
      ensures Rep(root') && Distinct(root') && Doc(root') == Splice(Doc(root), this, Doc(other))
        && root'.obj == root.obj
      ensures PartsBecame(root, root', this, Doc(other)) && Parts(other) <= Parts(root')
      ensures fresh(Nodes(root') - Nodes(root) - Nodes(other)) && fresh(Streams(root') - Streams(root) - Streams(other))
    {
      assert allocated(Parts(other)) && allocated(Nodes(other)) && allocated(Streams(other));
      PartsAreNodes(other);
      CursorsAreNodes(root, this);
      ghost var committed := Commit(root);
      root' := AddChild(iotree, committed, other);
      PartsBecameThen(root, committed, root', this, Doc(other));
    }

    /** A new buffer, left behind at this location. */
    method InsertionPoint(ghost root: Tree) returns (other: StringIOTree, ghost root': Tree)
      requires Rep(root) && Distinct(root) && Cursor(this) in Doc(root)
      modifies this
      ensures Rep(root') && Distinct(root') && Doc(root') == Splice(Doc(root), this, [Cursor(other)])
        && root'.obj == root.obj
      ensures PartsBecame(root, root', this, [Cursor(other)])
      ensures exists u <- Parts(root') :: u.obj == other && !u.saved && Doc(u) == [Cursor(other)]
      ensures fresh(other) && other != this
      ensures fresh(Nodes(root') - Nodes(root)) && fresh(Streams(root') - Streams(root))
    {
      ghost var committed := Commit(root);
      assert allocated(Parts(committed)) && allocated(Nodes(committed)) && allocated(Streams(committed));
      var stream := new StringIO();
      other := new StringIOTree(stream);
      ghost var leaf := Tree(other, stream, [], "", false);
      ChildlessFacts(leaf);
      assert Doc(leaf) == [Cursor(other)];
      root' := AddChild(other, committed, leaf);
      PartsBecameThen(root, committed, root', this, Doc(leaf));
      assert leaf in Parts(root');
    }

    /** Forgets everything that stands in front of the cursor in this buffer. */
    method Reset(ghost root: Tree) returns (ghost root': Tree, ghost u: Tree)
      requires Rep(root) && Distinct(root) && Cursor(this) in Doc(root)
      modifies this
      ensures u in Parts(root) && u.obj == this && Rep(root') && Distinct(root') && root'.obj == root.obj
      ensures exists before, behind ::
        Doc(root) == before + Doc(u) + behind && Doc(root') == before + [Cursor(this)] + behind
      ensures Nodes(root') <= Nodes(root) && fresh(Streams(root') - Streams(root))
    {
      ghost var p;
      p, u := PartOf(root, this);
      PartsOfSub(root, p);
      assert allocated(Parts(root)) && allocated(Streams(root));
      prependedChildren := [];
      stream := new StringIO();
      root' := Emptied(root, p, u, stream);
    }

    // -------------------------------------------------------------------- readers

    /** Whether nothing has been written to the buffer or to anything inserted in it. */
    method Empty(ghost v: Tree) returns (empty: bool)
      requires Rep(v) && v.obj == this
      ensures empty <==> Text(v) == ""
      decreases v
    {
      assert allocated(Parts(v)) && Matches(v);
      if stream.Tell() != 0 {
        return false;
      }
      empty := true;
      for i := 0 to |prependedChildren|
        invariant empty <==> TextTo(v.kids, i) == ""
      {
        KidRep(v, i);
        var childEmpty := prependedChildren[i].Empty(v.kids[i]);
        empty := empty && childEmpty;
      }
    }

    method GetValue(ghost v: Tree) returns (value: string)
      requires Rep(v) && v.obj == this
      ensures value == Text(v) == TextOf(Doc(v))
    {
      assert allocated(Parts(v));
      TextIsTextOfDoc(v);
      var content := new ContentList();
      CollectIn(content, v);
      value := Joined(content.items);
    }

    method CollectIn(target: ContentList, ghost v: Tree)
      requires Rep(v) && v.obj == this
      modifies target
      ensures Joined(target.items) == old(Joined(target.items)) + Text(v)
      decreases v
    {
      ghost var start := Joined(target.items);
      assert allocated(Parts(v)) && Matches(v);
      for i := 0 to |prependedChildren|
        invariant Rep(v) && Joined(target.items) == start + TextTo(v.kids, i)
      {
        KidRep(v, i);
        prependedChildren[i].CollectIn(target, v.kids[i]);
        TextStep(start, v.kids, i);
      }
      TextEnd(start, v);
      if stream.contents != "" {
        target.Append(stream.contents);
      }
    }

    /** The same text, written to a stream that is not one of the tree's own. */
    method CopyTo(target: StringIO, ghost v: Tree)
      requires Rep(v) && v.obj == this && target !in Streams(v)
      modifies target
      ensures target.contents == old(target.contents) + Text(v)
      decreases v
    {
      ghost var start := target.contents;
      PartsAreNodes(v);
      assert allocated(Parts(v)) && Matches(v);
      for i := 0 to |prependedChildren|
        invariant Rep(v) && target.contents == start + TextTo(v.kids, i)
      {
        KidRep(v, i);
        prependedChildren[i].CopyTo(target, v.kids[i]);
        TextStep(start, v.kids, i);
      }
      TextEnd(start, v);
      if stream.contents != "" {
        target.Write(stream.contents);
      }
    }
  }
}

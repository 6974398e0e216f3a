/** Whole runs of operations on any number of buffers, against flat documents. */
module StringIOScripts {
  import opened FlatDocument
  import opened StringIOTree

  /** The buffers of a run are numbered in the order of their creation. */
  datatype Op =
    | New
    | Write(at: nat, s: string)
    | Commit(at: nat)
    | InsertionPoint(at: nat)
    | Insert(at: nat, root: nat)

  /** The flat document of each buffer, and which buffers are not inserted in another one.
      What is written to a buffer shows in the documents of all that it is inserted in. */
  datatype Documents = Documents(docs: seq<seq<Item<nat>>>, roots: set<nat>)

  /** A tree is inserted once, and not into itself. */
  predicate Legal(d: Documents, op: Op) {
    match op
    case New => true
    case Insert(at, root) =>
      at < |d.docs| && root in d.roots && root < |d.docs| && Cursor(at) !in d.docs[root]
    case _ => op.at < |d.docs|
  }

  /** The document of a new buffer. */
  function Mark(n: nat): seq<Item<nat>> {
    [Cursor(n)]
  }

  function SpliceAll(docs: seq<seq<Item<nat>>>, at: nat, what: seq<Item<nat>>): (r: seq<seq<Item<nat>>>)
    ensures |r| == |docs| && forall i :: 0 <= i < |r| ==> r[i] == Splice(docs[i], at, what)
  {
    seq(|docs|, i requires 0 <= i < |docs| => Splice(docs[i], at, what))
  }

  /** What an operation means for the documents: everything happens at a cursor. */
  function After(d: Documents, op: Op): Documents
    requires Legal(d, op)
  {
    var n := |d.docs|;
    match op
    case New => Documents(d.docs + [Mark(n)], d.roots + {n})
    case Write(at, s) => Documents(SpliceAll(d.docs, at, Chars(s)), d.roots)
    case Commit(at) => d
    case InsertionPoint(at) => Documents(SpliceAll(d.docs, at, Mark(n)) + [Mark(n)], d.roots)
    case Insert(at, root) => Documents(SpliceAll(d.docs, at, d.docs[root]), d.roots - {root})
  }

  predicate LegalScript(script: seq<Op>, n: nat)
    requires n <= |script|
    decreases n, 0
  {
    n > 0 ==> LegalScript(script, n - 1) && Legal(Final(script, n - 1), script[n - 1])
  }

  /** The documents after the first `n` operations of a run. */
  function Final(script: seq<Op>, n: nat): Documents
    requires n <= |script| && LegalScript(script, n)
    decreases n, 1
  {
    if n == 0 then Documents([], {}) else After(Final(script, n - 1), script[n - 1])
  }

  // ------------------------------------------------ documents with buffers as cursors

  predicate InRange(doc: seq<Item<nat>>, n: nat) {
    forall i :: 0 <= i < |doc| && doc[i].Cursor? ==> doc[i].at < n
  }

  ghost function RenamedItem(item: Item<nat>, nodes: seq<StringIOTree>): Item<StringIOTree>
    requires item.Cursor? ==> item.at < |nodes|
  {
    if item.Char? then Char(item.c) else Cursor(nodes[item.at])
  }

  ghost function Renamed(doc: seq<Item<nat>>, nodes: seq<StringIOTree>): (r: seq<Item<StringIOTree>>)
    requires InRange(doc, |nodes|)
    ensures |r| == |doc| && forall i :: 0 <= i < |doc| ==> r[i] == RenamedItem(doc[i], nodes)
  {
    if doc == [] then [] else [RenamedItem(doc[0], nodes)] + Renamed(doc[1..], nodes)
  }

  ghost predicate Injective(nodes: seq<StringIOTree>) {
    forall i, j :: 0 <= i < j < |nodes| ==> nodes[i] != nodes[j]
  }

  lemma {:induction false} SpliceInRange(doc: seq<Item<nat>>, at: nat, what: seq<Item<nat>>, n: nat)
    requires InRange(doc, n) && InRange(what, n)
    ensures InRange(Splice(doc, at, what), n)
  {
    if doc != [] {
      SpliceInRange(doc[1..], at, what, n);
    }
  }

  lemma {:induction false} RenamedJoin(a: seq<Item<nat>>, b: seq<Item<nat>>, nodes: seq<StringIOTree>)
    requires InRange(a, |nodes|) && InRange(b, |nodes|)
    ensures Renamed(a + b, nodes) == Renamed(a, nodes) + Renamed(b, nodes)
  {
  }

  lemma {:induction false} RenamedSplice(doc: seq<Item<nat>>, at: nat, what: seq<Item<nat>>, nodes: seq<StringIOTree>)
    requires InRange(doc, |nodes|) && InRange(what, |nodes|) && at < |nodes| && Injective(nodes)
    ensures InRange(Splice(doc, at, what), |nodes|)
    ensures Renamed(Splice(doc, at, what), nodes) == Splice(Renamed(doc, nodes), nodes[at], Renamed(what, nodes))
  {
    SpliceInRange(doc, at, what, |nodes|);
    if doc != [] {
      if doc[0] == Cursor(at) {
        RenamedJoin(what, doc, nodes);
      } else {
        var more := Splice(doc[1..], at, what);
        RenamedSplice(doc[1..], at, what, nodes);
        RenamedJoin([doc[0]], more, nodes);
        RenamedJoin([doc[0]], doc[1..], nodes);
        assert [doc[0]] + doc[1..] == doc;
        SpliceBehind(RenamedItem(doc[0], nodes), Renamed(doc[1..], nodes), nodes[at], Renamed(what, nodes));
      }
    }
  }

  lemma SpliceBehind<T>(item: Item<T>, doc: seq<Item<T>>, t: T, what: seq<Item<T>>)
    requires item != Cursor(t)
    ensures Splice([item] + doc, t, what) == [item] + Splice(doc, t, what)
  {
    assert ([item] + doc)[1..] == doc;
  }

  lemma {:induction false} TextOfRenamed(doc: seq<Item<nat>>, nodes: seq<StringIOTree>)
    requires InRange(doc, |nodes|)
    ensures TextOf(Renamed(doc, nodes)) == TextOf(doc)
  {
    if doc != [] {
      var n := |doc| - 1;
      TextOfRenamed(doc[..n], nodes);
      assert Renamed(doc, nodes)[..n] == Renamed(doc[..n], nodes);
    }
  }

  lemma RenamedMore(doc: seq<Item<nat>>, nodes: seq<StringIOTree>, node: StringIOTree)
    requires InRange(doc, |nodes|)
    ensures Renamed(doc, nodes + [node]) == Renamed(doc, nodes)
  {
  }

  // ----------------------------------------------------------------- trees on the heap

  /** Part `u` of a tree is buffer `i`, with its document. */
  ghost predicate IsBuffer(nodes: seq<StringIOTree>, u: Tree, i: nat, doc: seq<Item<nat>>) {
    && i < |nodes| && u.obj == nodes[i] && !u.saved
    && InRange(doc, |nodes|) && Doc(u) == Renamed(doc, nodes)
  }

  ghost predicate HomedAt(nodes: seq<StringIOTree>, trees: map<nat, Tree>, k: nat, u: Tree, i: nat,
                          doc: seq<Item<nat>>) {
    k in trees && u in Parts(trees[k]) && IsBuffer(nodes, u, i, doc)
  }

  /** A buffer is somewhere in the trees. */
  ghost predicate Homed(nodes: seq<StringIOTree>, trees: map<nat, Tree>, i: nat, doc: seq<Item<nat>>) {
    exists k <- trees, u <- Parts(trees[k]) :: HomedAt(nodes, trees, k, u, i, doc)
  }

  ghost predicate AllHomed(nodes: seq<StringIOTree>, trees: map<nat, Tree>, docs: seq<seq<Item<nat>>>) {
    forall i: nat {:trigger Homed(nodes, trees, i, docs[i])} :: i < |docs| ==> Homed(nodes, trees, i, docs[i])
  }

  ghost predicate IsTree(nodes: seq<StringIOTree>, k: nat, root: Tree, docs: seq<seq<Item<nat>>>) {
    k < |docs| && Distinct(root) && IsBuffer(nodes, root, k, docs[k])
  }

  ghost predicate AllTrees(nodes: seq<StringIOTree>, trees: map<nat, Tree>, docs: seq<seq<Item<nat>>>) {
    forall k {:trigger IsTree(nodes, k, trees[k], docs)} | k in trees :: IsTree(nodes, k, trees[k], docs)
  }

  ghost predicate Separate(trees: map<nat, Tree>) {
    forall j, k {:trigger Apart(trees[j], trees[k])} | j in trees && k in trees :: j != k ==> Apart(trees[j], trees[k])
  }

  ghost predicate Holds(nodes: seq<StringIOTree>, trees: map<nat, Tree>, d: Documents) {
    && |nodes| == |d.docs| && Injective(nodes) && trees.Keys == d.roots
    && AllTrees(nodes, trees, d.docs) && Separate(trees) && AllHomed(nodes, trees, d.docs)
  }

  /** The heap holds all the trees. */
  ghost predicate OnHeap(trees: map<nat, Tree>)
    reads set k, u | k in trees && u in Parts(trees[k]) :: u.obj
    reads set k, u | k in trees && u in Parts(trees[k]) :: u.stream
  {
    forall k <- trees :: Rep(trees[k])
  }

  ghost function AllNodes(trees: map<nat, Tree>): set<StringIOTree> {
    set k, o | k in trees && o in Nodes(trees[k]) :: o
  }

  ghost function AllStreams(trees: map<nat, Tree>): set<StringIO> {
    set k, o | k in trees && o in Streams(trees[k]) :: o
  }

  /** All parts of all trees but one. */
  ghost function Others(trees: map<nat, Tree>, k: nat): set<Tree> {
    set j, u | j in trees && j != k && u in Parts(trees[j]) :: u
  }

  ghost predicate Untouched(parts: set<Tree>, node: StringIOTree, stream: StringIO) {
    forall u <- parts :: u.obj != node && u.stream != stream
  }

  /** The buffer is in tree `k` and in no other. */
  ghost predicate OnlyIn(trees: map<nat, Tree>, k: nat, node: StringIOTree) {
    k in trees && node in Nodes(trees[k]) && forall j <- trees :: j != k ==> node !in Nodes(trees[j])
  }

  /** The one tree that a buffer is in. */
  lemma Locate(nodes: seq<StringIOTree>, trees: map<nat, Tree>, d: Documents, at: nat) returns (k: nat)
    requires Holds(nodes, trees, d) && at < |d.docs|
    ensures OnlyIn(trees, k, nodes[at]) && Cursor(nodes[at]) in Doc(trees[k]) && Distinct(trees[k]) && !trees[k].saved
  {
    var u;
    assert Homed(nodes, trees, at, d.docs[at]);
    k, u :| k in trees && u in Parts(trees[k]) && HomedAt(nodes, trees, k, u, at, d.docs[at]);
    assert IsTree(nodes, k, trees[k], d.docs);
    PartInDoc(trees[k], u);
    PartsAreNodes(trees[k]);
    InNoOther(trees, k, nodes[at]);
  }

  lemma InNoOther(trees: map<nat, Tree>, k: nat, node: StringIOTree)
    requires Separate(trees) && k in trees && node in Nodes(trees[k])
    ensures OnlyIn(trees, k, node)
  {
    forall j | j in trees && j != k ensures node !in Nodes(trees[j]) {
      assert Apart(trees[k], trees[j]);
    }
  }

  lemma OthersUntouched(trees: map<nat, Tree>, k: nat, node: StringIOTree)
    requires Separate(trees) && k in trees && Rep(trees[k]) && Distinct(trees[k]) && Cursor(node) in Doc(trees[k])
    ensures Untouched(Others(trees, k), node, node.stream)
  {
    CursorsAreNodes(trees[k], node);
    var p, w := PartOf(trees[k], node);
    assert node.stream == w.stream && w.stream in Streams(w);
    forall j | j in trees && j != k ensures Untouched(Parts(trees[j]), node, node.stream) {
      assert Apart(trees[k], trees[j]);
      PartsAreNodes(trees[j]);
    }
  }

  lemma OthersMatch(trees: map<nat, Tree>, k: nat)
    requires OnHeap(trees)
    ensures forall u <- Others(trees, k) :: Matches(u)
  {
  }

  /** One tree has changed, and the heap holds all the others. */
  lemma AllRep(trees: map<nat, Tree>, k: nat, root': Tree)
    requires Rep(root') && forall u <- Others(trees, k) :: Matches(u)
    ensures OnHeap(trees[k := root'])
  {
    forall j | j in trees && j != k ensures Rep(trees[j]) {
      assert forall u <- Parts(trees[j]) :: u in Others(trees, k);
    }
  }

  // -------------------------------------------------------------- one tree has changed

  /** The tree has nothing new but what is in no other tree. */
  ghost predicate GrownFrom(trees: map<nat, Tree>, k: nat, root': Tree, nodes: set<StringIOTree>,
                            streams: set<StringIO>)
    requires k in trees
  {
    && Nodes(root') <= Nodes(trees[k]) + nodes && Streams(root') <= Streams(trees[k]) + streams
    && forall j <- trees :: j != k ==> nodes !! Nodes(trees[j]) && streams !! Streams(trees[j])
  }

  lemma StaysSeparate(trees: map<nat, Tree>, k: nat, root': Tree, nodes: set<StringIOTree>, streams: set<StringIO>)
    requires Separate(trees) && k in trees && GrownFrom(trees, k, root', nodes, streams)
    ensures Separate(trees[k := root'])
  {
    var trees' := trees[k := root'];
    forall i, j | i in trees' && j in trees' && i != j ensures Apart(trees'[i], trees'[j]) {
      assert i != k && j != k ==> Apart(trees[i], trees[j]);
      assert i == k ==> Apart(trees[k], trees[j]);
      assert j == k ==> Apart(trees[i], trees[k]);
    }
  }

  /** Tree `k` has become `root'`: `what` went in at the cursor of buffer `at`. */
  ghost predicate Changed(nodes: seq<StringIOTree>, trees: map<nat, Tree>, at: nat, k: nat, root': Tree,
                          what: seq<Item<nat>>) {
    && Injective(nodes) && at < |nodes| && InRange(what, |nodes|) && OnlyIn(trees, k, nodes[at])
    && Distinct(root') && root'.obj == trees[k].obj && !root'.saved
    && Doc(root') == Splice(Doc(trees[k]), nodes[at], Renamed(what, nodes))
    && PartsBecame(trees[k], root', nodes[at], Renamed(what, nodes))
  }

  /** A buffer outside of the changed tree. */
  lemma BufferElsewhere(nodes: seq<StringIOTree>, u: Tree, i: nat, doc: seq<Item<nat>>, at: nat, what: seq<Item<nat>>)
    requires Injective(nodes) && at < |nodes| && InRange(what, |nodes|)
    requires IsBuffer(nodes, u, i, doc) && nodes[at] !in Nodes(u)
    ensures IsBuffer(nodes, u, i, Splice(doc, at, what))
  {
    RenamedSplice(doc, at, what, nodes);
    SpliceElsewhere(u, nodes[at], Renamed(what, nodes));
  }

  /** A buffer that has changed. */
  lemma BufferBecame(nodes: seq<StringIOTree>, u: Tree, u': Tree, i: nat, doc: seq<Item<nat>>, at: nat,
                     what: seq<Item<nat>>)
    requires Injective(nodes) && at < |nodes| && InRange(what, |nodes|)
    requires IsBuffer(nodes, u, i, doc) && Became(u, u', nodes[at], Renamed(what, nodes))
    ensures IsBuffer(nodes, u', i, Splice(doc, at, what))
  {
    RenamedSplice(doc, at, what, nodes);
  }

  lemma TreeSpliced(nodes: seq<StringIOTree>, trees: map<nat, Tree>, docs: seq<seq<Item<nat>>>,
                    at: nat, k: nat, root': Tree, what: seq<Item<nat>>, j: nat)
    requires Changed(nodes, trees, at, k, root', what) && j in trees && IsTree(nodes, j, trees[j], docs)
    ensures IsTree(nodes, j, trees[k := root'][j], SpliceAll(docs, at, what))
  {
    if j == k {
      BufferBecame(nodes, trees[k], root', k, docs[k], at, what);
    } else {
      BufferElsewhere(nodes, trees[j], j, docs[j], at, what);
    }
  }

  lemma Rehomed(nodes: seq<StringIOTree>, trees: map<nat, Tree>, at: nat, k: nat, root': Tree, what: seq<Item<nat>>,
                i: nat, doc: seq<Item<nat>>)
    requires Changed(nodes, trees, at, k, root', what) && Homed(nodes, trees, i, doc)
    ensures Homed(nodes, trees[k := root'], i, Splice(doc, at, what))
  {
    var j, u :| j in trees && u in Parts(trees[j]) && HomedAt(nodes, trees, j, u, i, doc);
    if j == k {
      assert PartBecame(u, root', nodes[at], Renamed(what, nodes));
      var u' :| u' in Parts(root') && Became(u, u', nodes[at], Renamed(what, nodes));
      BufferBecame(nodes, u, u', i, doc, at, what);
      assert HomedAt(nodes, trees[k := root'], k, u', i, Splice(doc, at, what));
    } else {
      PartNodes(trees[j], u);
      BufferElsewhere(nodes, u, i, doc, at, what);
      assert HomedAt(nodes, trees[k := root'], j, u, i, Splice(doc, at, what));
    }
  }

  lemma AllRehomed(nodes: seq<StringIOTree>, trees: map<nat, Tree>, at: nat, k: nat, root': Tree, what: seq<Item<nat>>,
                   docs: seq<seq<Item<nat>>>)
    requires Changed(nodes, trees, at, k, root', what) && AllHomed(nodes, trees, docs)
    ensures AllHomed(nodes, trees[k := root'], SpliceAll(docs, at, what))
  {
    forall i: nat | i < |docs| ensures Homed(nodes, trees[k := root'], i, SpliceAll(docs, at, what)[i]) {
      Rehomed(nodes, trees, at, k, root', what, i, docs[i]);
    }
  }

  lemma AllTreesSpliced(nodes: seq<StringIOTree>, trees: map<nat, Tree>, docs: seq<seq<Item<nat>>>,
                        at: nat, k: nat, root': Tree, what: seq<Item<nat>>)
    requires Changed(nodes, trees, at, k, root', what) && AllTrees(nodes, trees, docs)
    ensures AllTrees(nodes, trees[k := root'], SpliceAll(docs, at, what))
  {
    var trees', docs' := trees[k := root'], SpliceAll(docs, at, what);
    forall j | j in trees' ensures IsTree(nodes, j, trees'[j], docs') {
      TreeSpliced(nodes, trees, docs, at, k, root', what, j);
    }
  }

  /** Something was inserted that mentions only buffers of its own tree. */
  lemma Spliced(nodes: seq<StringIOTree>, trees: map<nat, Tree>, d: Documents, at: nat, k: nat, root': Tree,
                what: seq<Item<nat>>)
    requires Holds(nodes, trees, d) && Changed(nodes, trees, at, k, root', what) && Separate(trees[k := root'])
    ensures Holds(nodes, trees[k := root'], Documents(SpliceAll(d.docs, at, what), d.roots))
  {
    AllTreesSpliced(nodes, trees, d.docs, at, k, root', what);
    AllRehomed(nodes, trees, at, k, root', what, d.docs);
    SameRoots(trees, k, root');
  }

  lemma SameRoots(trees: map<nat, Tree>, k: nat, root': Tree)
    requires k in trees
    ensures trees[k := root'].Keys == trees.Keys
  {
  }

  lemma RenamedChars(s: string, nodes: seq<StringIOTree>)
    ensures InRange(Chars(s), |nodes|) && Renamed(Chars(s), nodes) == Chars(s)
  {
  }

  // ---------------------------------------------------------------- running a script

  method WriteBeside(node: StringIOTree, s: string, ghost root: Tree, ghost others: set<Tree>)
    returns (ghost root': Tree)
    requires Rep(root) && Distinct(root) && Cursor(node) in Doc(root)
    requires Untouched(others, node, node.stream) && forall u <- others :: Matches(u)
    modifies node.stream
    ensures Rep(root') && Distinct(root') && Doc(root') == Splice(Doc(root), node, Chars(s)) && root'.obj == root.obj
    ensures PartsBecame(root, root', node, Chars(s))
    ensures Nodes(root') <= Nodes(root) && Streams(root') <= Streams(root) && forall u <- others :: Matches(u)
  {
    assert allocated(others);
    root' := node.Write(s, root);
  }

  /** A root is a buffer of its own tree. */
  lemma RootBecame(root: Tree, root': Tree, t: StringIOTree, what: seq<Item<StringIOTree>>)
    requires PartsBecame(root, root', t, what) && Distinct(root') && root'.obj == root.obj && !root.saved
    ensures !root'.saved
  {
    assert PartBecame(root, root', t, what);
    var u' :| u' in Parts(root') && Became(root, u', t, what);
    if u' != root' {
      PartsAreNodesTo(root'.kids, |root'.kids|);
    }
  }

  lemma ChangedBy(nodes: seq<StringIOTree>, trees: map<nat, Tree>, at: nat, k: nat, root': Tree,
                  what: seq<Item<nat>>, items: seq<Item<StringIOTree>>)
    requires Injective(nodes) && at < |nodes| && OnlyIn(trees, k, nodes[at]) && !trees[k].saved
    requires InRange(what, |nodes|) && Renamed(what, nodes) == items
    requires Distinct(root') && root'.obj == trees[k].obj && Doc(root') == Splice(Doc(trees[k]), nodes[at], items)
    requires PartsBecame(trees[k], root', nodes[at], items)
    ensures Changed(nodes, trees, at, k, root', what)
  {
    RootBecame(trees[k], root', nodes[at], items);
  }

  lemma NothingNew(trees: map<nat, Tree>, k: nat, root': Tree)
    requires k in trees && Nodes(root') <= Nodes(trees[k]) && Streams(root') <= Streams(trees[k])
    ensures GrownFrom(trees, k, root', {}, {})
    ensures AllNodes(trees[k := root']) <= AllNodes(trees) && AllStreams(trees[k := root']) <= AllStreams(trees)
  {
  }

  lemma WriteDone(nodes: seq<StringIOTree>, trees: map<nat, Tree>, d: Documents, at: nat, s: string, k: nat,
                  root': Tree)
    requires Holds(nodes, trees, d) && at < |d.docs| && OnlyIn(trees, k, nodes[at]) && !trees[k].saved
    requires Distinct(root') && root'.obj == trees[k].obj && Doc(root') == Splice(Doc(trees[k]), nodes[at], Chars(s))
    requires PartsBecame(trees[k], root', nodes[at], Chars(s)) && Separate(trees[k := root'])
    ensures Holds(nodes, trees[k := root'], After(d, Write(at, s)))
  {
    RenamedChars(s, nodes);
    ChangedBy(nodes, trees, at, k, root', Chars(s), Chars(s));
    Spliced(nodes, trees, d, at, k, root', Chars(s));
  }

  method RunWrite(nodes: seq<StringIOTree>, at: nat, s: string, ghost trees: map<nat, Tree>, ghost d: Documents)
    returns (ghost trees': map<nat, Tree>)
    requires Holds(nodes, trees, d) && at < |d.docs| && OnHeap(trees)
    modifies AllNodes(trees), AllStreams(trees)
    ensures Holds(nodes, trees', After(d, Write(at, s))) && OnHeap(trees')
    ensures AllNodes(trees') <= AllNodes(trees) && AllStreams(trees') <= AllStreams(trees)
  {
    ghost var k := Locate(nodes, trees, d, at);
    OthersMatch(trees, k);
    OthersUntouched(trees, k, nodes[at]);
    InAll(trees, k, nodes[at]);
    ghost var root' := WriteBeside(nodes[at], s, trees[k], Others(trees, k));
    trees' := trees[k := root'];
    AllRep(trees, k, root');
    NothingNew(trees, k, root');
    StaysSeparate(trees, k, root', {}, {});
    WriteDone(nodes, trees, d, at, s, k, root');
  }

  /** The buffer and its stream may be changed. */
  lemma InAll(trees: map<nat, Tree>, k: nat, node: StringIOTree)
    requires k in trees && Rep(trees[k]) && Distinct(trees[k]) && Cursor(node) in Doc(trees[k])
    ensures node in AllNodes(trees) && node.stream in AllStreams(trees)
  {
    CursorsAreNodes(trees[k], node);
    var p, u := PartOf(trees[k], node);
    assert node.stream == u.stream && u.stream in Streams(u);
  }

  // Commit: new buffers and streams, but the same documents.

  lemma GrownByNews(trees: map<nat, Tree>, k: nat, root': Tree, nodes: set<StringIOTree>, streams: set<StringIO>)
    requires k in trees && Nodes(root') <= Nodes(trees[k]) + nodes && Streams(root') <= Streams(trees[k]) + streams
    requires nodes !! AllNodes(trees) && streams !! AllStreams(trees)
    ensures GrownFrom(trees, k, root', nodes, streams)
    ensures AllNodes(trees[k := root']) <= AllNodes(trees) + nodes
    ensures AllStreams(trees[k := root']) <= AllStreams(trees) + streams
  {
    forall j | j in trees && j != k ensures nodes !! Nodes(trees[j]) && streams !! Streams(trees[j]) {
      assert Nodes(trees[j]) <= AllNodes(trees) && Streams(trees[j]) <= AllStreams(trees);
    }
  }

  lemma SpliceAllNothing(docs: seq<seq<Item<nat>>>, at: nat)
    ensures SpliceAll(docs, at, []) == docs
  {
    forall j: nat | j < |docs| ensures Splice(docs[j], at, []) == docs[j] {
      SpliceNothing(docs[j], at);
    }
  }

  lemma CommitDone(nodes: seq<StringIOTree>, trees: map<nat, Tree>, d: Documents, at: nat, k: nat, root': Tree)
    requires Holds(nodes, trees, d) && at < |d.docs| && OnlyIn(trees, k, nodes[at]) && !trees[k].saved
    requires Distinct(root') && root'.obj == trees[k].obj && Doc(root') == Doc(trees[k])
    requires PartsBecame(trees[k], root', nodes[at], []) && Separate(trees[k := root'])
    ensures Holds(nodes, trees[k := root'], After(d, Commit(at)))
  {
    CommitChanged(nodes, trees, at, k, root');
    CommitDocs(d, at);
    Spliced(nodes, trees, d, at, k, root', []);
  }

  lemma CommitDocs(d: Documents, at: nat)
    requires at < |d.docs|
    ensures Documents(SpliceAll(d.docs, at, []), d.roots) == After(d, Commit(at))
  {
    SpliceAllNothing(d.docs, at);
  }

  lemma CommitChanged(nodes: seq<StringIOTree>, trees: map<nat, Tree>, at: nat, k: nat, root': Tree)
    requires Injective(nodes) && at < |nodes| && OnlyIn(trees, k, nodes[at]) && !trees[k].saved
    requires Distinct(root') && root'.obj == trees[k].obj && Doc(root') == Doc(trees[k])
    requires PartsBecame(trees[k], root', nodes[at], [])
    ensures Changed(nodes, trees, at, k, root', [])
  {
    SpliceNothing(Doc(trees[k]), nodes[at]);
    ChangedBy(nodes, trees, at, k, root', [], []);
  }

  method CommitBeside(node: StringIOTree, ghost root: Tree, ghost others: set<Tree>) returns (ghost root': Tree)
    requires Rep(root) && Distinct(root) && Cursor(node) in Doc(root)
    requires Untouched(others, node, node.stream) && forall u <- others :: Matches(u)
    modifies node
    ensures Rep(root') && Distinct(root') && Doc(root') == Doc(root) && root'.obj == root.obj
    ensures PartsBecame(root, root', node, [])
    ensures fresh(Nodes(root') - Nodes(root)) && fresh(Streams(root') - Streams(root))
    ensures forall u <- others :: Matches(u)
  {
    assert allocated(others);
    root' := node.Commit(root);
  }

  method RunCommit(nodes: seq<StringIOTree>, at: nat, ghost trees: map<nat, Tree>, ghost d: Documents)
    returns (ghost trees': map<nat, Tree>)
    requires Holds(nodes, trees, d) && at < |d.docs| && OnHeap(trees)
    modifies AllNodes(trees), AllStreams(trees)
    ensures Holds(nodes, trees', After(d, Commit(at))) && OnHeap(trees')
    ensures fresh(AllNodes(trees') - AllNodes(trees)) && fresh(AllStreams(trees') - AllStreams(trees))
  {
    ghost var k := Locate(nodes, trees, d, at);
    OthersMatch(trees, k);
    OthersUntouched(trees, k, nodes[at]);
    InAll(trees, k, nodes[at]);
    assert allocated(AllNodes(trees)) && allocated(AllStreams(trees));
    ghost var root' := CommitBeside(nodes[at], trees[k], Others(trees, k));
    trees' := trees[k := root'];
    AllRep(trees, k, root');
    GrownByNews(trees, k, root', Nodes(root') - Nodes(trees[k]), Streams(root') - Streams(trees[k]));
    StaysSeparate(trees, k, root', Nodes(root') - Nodes(trees[k]), Streams(root') - Streams(trees[k]));
    CommitDone(nodes, trees, d, at, k, root');
  }

  // A new buffer, inserted at a cursor.

  lemma OneMoreNode(nodes: seq<StringIOTree>, other: StringIOTree)
    requires Injective(nodes) && other !in nodes
    ensures Injective(nodes + [other]) && (nodes + [other])[|nodes|] == other
    ensures forall at: nat :: at < |nodes| ==> (nodes + [other])[at] == nodes[at]
  {
  }

  lemma BufferStays(nodes: seq<StringIOTree>, node: StringIOTree, u: Tree, i: nat, doc: seq<Item<nat>>)
    requires IsBuffer(nodes, u, i, doc)
    ensures IsBuffer(nodes + [node], u, i, doc)
  {
    RenamedMore(doc, nodes, node);
  }

  lemma TreesStay(nodes: seq<StringIOTree>, trees: map<nat, Tree>, docs: seq<seq<Item<nat>>>, node: StringIOTree)
    requires AllTrees(nodes, trees, docs)
    ensures AllTrees(nodes + [node], trees, docs)
  {
    var nodes' := nodes + [node];
    forall k | k in trees ensures IsTree(nodes', k, trees[k], docs) {
      assert IsTree(nodes, k, trees[k], docs);
      BufferStays(nodes, node, trees[k], k, docs[k]);
    }
  }

  lemma HomeStays(nodes: seq<StringIOTree>, trees: map<nat, Tree>, node: StringIOTree, i: nat, doc: seq<Item<nat>>)
    requires Homed(nodes, trees, i, doc)
    ensures Homed(nodes + [node], trees, i, doc)
  {
    var k, u :| k in trees && u in Parts(trees[k]) && HomedAt(nodes, trees, k, u, i, doc);
    BufferStays(nodes, node, u, i, doc);
    assert HomedAt(nodes + [node], trees, k, u, i, doc);
  }

  lemma HomesStay(nodes: seq<StringIOTree>, trees: map<nat, Tree>, docs: seq<seq<Item<nat>>>, node: StringIOTree)
    requires AllHomed(nodes, trees, docs)
    ensures AllHomed(nodes + [node], trees, docs)
  {
    forall i: nat | i < |docs| ensures Homed(nodes + [node], trees, i, docs[i]) {
      HomeStays(nodes, trees, node, i, docs[i]);
    }
  }

  lemma TreesWithMore(nodes: seq<StringIOTree>, trees: map<nat, Tree>, docs: seq<seq<Item<nat>>>, doc: seq<Item<nat>>)
    requires AllTrees(nodes, trees, docs)
    ensures AllTrees(nodes, trees, docs + [doc])
  {
    var docs' := docs + [doc];
    forall k | k in trees ensures IsTree(nodes, k, trees[k], docs') {
      assert IsTree(nodes, k, trees[k], docs);
    }
  }

  lemma HomesWithMore(nodes: seq<StringIOTree>, trees: map<nat, Tree>, docs: seq<seq<Item<nat>>>, doc: seq<Item<nat>>)
    requires AllHomed(nodes, trees, docs) && Homed(nodes, trees, |docs|, doc)
    ensures AllHomed(nodes, trees, docs + [doc])
  {
    var docs' := docs + [doc];
    forall i: nat | i < |docs'| ensures Homed(nodes, trees, i, docs'[i]) {
      if i < |docs| {
        assert Homed(nodes, trees, i, docs[i]);
      }
    }
  }

  lemma CursorAlone(nodes: seq<StringIOTree>, other: StringIOTree)
    ensures InRange(Mark(|nodes|), |nodes| + 1) && Renamed(Mark(|nodes|), nodes + [other]) == [Cursor(other)]
  {
  }

  lemma LeafIsHomed(nodes: seq<StringIOTree>, trees: map<nat, Tree>, k: nat, leaf: Tree)
    requires k in trees && leaf in Parts(trees[k]) && nodes != [] && leaf.obj == nodes[|nodes| - 1]
    requires !leaf.saved && Doc(leaf) == [Cursor(leaf.obj)]
    ensures Homed(nodes, trees, |nodes| - 1, Mark(|nodes| - 1))
  {
    var before := nodes[..|nodes| - 1];
    CursorAlone(before, leaf.obj);
    assert before + [leaf.obj] == nodes;
    assert HomedAt(nodes, trees, k, leaf, |nodes| - 1, Mark(|nodes| - 1));
  }

  lemma PointChanged(nodes: seq<StringIOTree>, trees: map<nat, Tree>, at: nat, k: nat, root': Tree, other: StringIOTree)
    requires Injective(nodes) && at < |nodes| && other !in nodes && OnlyIn(trees, k, nodes[at]) && !trees[k].saved
    requires Distinct(root') && root'.obj == trees[k].obj
    requires Doc(root') == Splice(Doc(trees[k]), nodes[at], [Cursor(other)])
    requires PartsBecame(trees[k], root', nodes[at], [Cursor(other)])
    ensures Changed(nodes + [other], trees, at, k, root', Mark(|nodes|))
  {
    OneMoreNode(nodes, other);
    CursorAlone(nodes, other);
    ChangedBy(nodes + [other], trees, at, k, root', Mark(|nodes|), [Cursor(other)]);
  }

  lemma PointTrees(nodes: seq<StringIOTree>, trees: map<nat, Tree>, docs: seq<seq<Item<nat>>>,
                   at: nat, k: nat, root': Tree, other: StringIOTree, what: seq<Item<nat>>)
    requires AllTrees(nodes, trees, docs) && Changed(nodes + [other], trees, at, k, root', what)
    ensures AllTrees(nodes + [other], trees[k := root'], SpliceAll(docs, at, what) + [what])
  {
    TreesStay(nodes, trees, docs, other);
    AllTreesSpliced(nodes + [other], trees, docs, at, k, root', what);
    TreesWithMore(nodes + [other], trees[k := root'], SpliceAll(docs, at, what), what);
  }

  lemma PointHomes(nodes: seq<StringIOTree>, trees: map<nat, Tree>, docs: seq<seq<Item<nat>>>,
                   at: nat, k: nat, root': Tree, other: StringIOTree, what: seq<Item<nat>>)
    requires AllHomed(nodes, trees, docs) && Changed(nodes + [other], trees, at, k, root', what)
    requires Homed(nodes + [other], trees[k := root'], |docs|, what)
    ensures AllHomed(nodes + [other], trees[k := root'], SpliceAll(docs, at, what) + [what])
  {
    HomesStay(nodes, trees, docs, other);
    AllRehomed(nodes + [other], trees, at, k, root', what, docs);
    HomesWithMore(nodes + [other], trees[k := root'], SpliceAll(docs, at, what), what);
  }

  lemma PointAllHomed(nodes: seq<StringIOTree>, trees: map<nat, Tree>, docs: seq<seq<Item<nat>>>,
                      at: nat, k: nat, root': Tree, other: StringIOTree, leaf: Tree)
    requires AllHomed(nodes, trees, docs) && |docs| == |nodes|
    requires Changed(nodes + [other], trees, at, k, root', Mark(|nodes|))
    requires leaf in Parts(root') && leaf.obj == other && !leaf.saved && Doc(leaf) == [Cursor(other)]
    ensures AllHomed(nodes + [other], trees[k := root'], SpliceAll(docs, at, Mark(|nodes|)) + [Mark(|nodes|)])
  {
    LeafIsHomed(nodes + [other], trees[k := root'], k, leaf);
    PointHomes(nodes, trees, docs, at, k, root', other, Mark(|nodes|));
  }

  lemma PointDone(nodes: seq<StringIOTree>, trees: map<nat, Tree>, d: Documents, at: nat, k: nat, root': Tree,
                  other: StringIOTree, leaf: Tree)
    requires Holds(nodes, trees, d) && at < |d.docs| && other !in nodes && k in trees
    requires Changed(nodes + [other], trees, at, k, root', Mark(|nodes|)) && Separate(trees[k := root'])
    requires leaf in Parts(root') && leaf.obj == other && !leaf.saved && Doc(leaf) == [Cursor(other)]
    ensures Holds(nodes + [other], trees[k := root'], After(d, InsertionPoint(at)))
  {
    var docs' := PointDocs(nodes, other, d, at);
    PointAllHomed(nodes, trees, d.docs, at, k, root', other, leaf);
    PointTrees(nodes, trees, d.docs, at, k, root', other, Mark(|nodes|));
    OneMoreNode(nodes, other);
    SameRoots(trees, k, root');
    HoldsFrom(nodes + [other], trees[k := root'], docs', d.roots);
  }

  lemma PointDocs(nodes: seq<StringIOTree>, other: StringIOTree, d: Documents, at: nat)
    returns (docs': seq<seq<Item<nat>>>)
    requires |nodes| == |d.docs| && at < |nodes|
    ensures docs' == SpliceAll(d.docs, at, Mark(|nodes|)) + [Mark(|nodes|)] && |docs'| == |nodes + [other]|
    ensures After(d, InsertionPoint(at)) == Documents(docs', d.roots)
  {
    docs' := SpliceAll(d.docs, at, Mark(|nodes|)) + [Mark(|nodes|)];
  }

  lemma HoldsFrom(nodes: seq<StringIOTree>, trees: map<nat, Tree>, docs: seq<seq<Item<nat>>>, roots: set<nat>)
    requires |nodes| == |docs| && Injective(nodes) && trees.Keys == roots
    requires AllTrees(nodes, trees, docs) && Separate(trees) && AllHomed(nodes, trees, docs)
    ensures Holds(nodes, trees, Documents(docs, roots))
  {
  }

  method PointBeside(node: StringIOTree, ghost root: Tree, ghost others: set<Tree>)
    returns (other: StringIOTree, ghost root': Tree, ghost leaf: Tree)
    requires Rep(root) && Distinct(root) && Cursor(node) in Doc(root)
    requires Untouched(others, node, node.stream) && forall u <- others :: Matches(u)
    modifies node
    ensures Rep(root') && Distinct(root') && Doc(root') == Splice(Doc(root), node, [Cursor(other)])
      && root'.obj == root.obj
    ensures PartsBecame(root, root', node, [Cursor(other)])
    ensures leaf in Parts(root') && leaf.obj == other && !leaf.saved && Doc(leaf) == [Cursor(other)]
    ensures fresh(other) && fresh(Nodes(root') - Nodes(root)) && fresh(Streams(root') - Streams(root))
    ensures forall u <- others :: Matches(u)
  {
    assert allocated(others);
    other, root' := node.InsertionPoint(root);
    leaf :| leaf in Parts(root') && leaf.obj == other && !leaf.saved && Doc(leaf) == [Cursor(other)];
  }

  method RunPoint(nodes: seq<StringIOTree>, at: nat, ghost trees: map<nat, Tree>, ghost d: Documents)
    returns (nodes': seq<StringIOTree>, ghost trees': map<nat, Tree>)
    requires Holds(nodes, trees, d) && at < |d.docs| && OnHeap(trees)
    modifies AllNodes(trees), AllStreams(trees)
    ensures Holds(nodes', trees', After(d, InsertionPoint(at))) && OnHeap(trees')
    ensures fresh(AllNodes(trees') - AllNodes(trees)) && fresh(AllStreams(trees') - AllStreams(trees))
  {
    ghost var k := Locate(nodes, trees, d, at);
    OthersMatch(trees, k);
    OthersUntouched(trees, k, nodes[at]);
    InAll(trees, k, nodes[at]);
    assert allocated(AllNodes(trees)) && allocated(AllStreams(trees));
    ghost var root', leaf;
    var other;
    other, root', leaf := PointBeside(nodes[at], trees[k], Others(trees, k));
    nodes', trees' := nodes + [other], trees[k := root'];
    AllRep(trees, k, root');
    GrownByNews(trees, k, root', Nodes(root') - Nodes(trees[k]), Streams(root') - Streams(trees[k]));
    StaysSeparate(trees, k, root', Nodes(root') - Nodes(trees[k]), Streams(root') - Streams(trees[k]));
    PointChanged(nodes, trees, at, k, root', other);
    PointDone(nodes, trees, d, at, k, root', other, leaf);
  }

  // A tree that is inserted at a cursor of another one.

  lemma InsertedIsTree(nodes: seq<StringIOTree>, trees: map<nat, Tree>, d: Documents, at: nat, r: nat, k: nat)
    requires Holds(nodes, trees, d) && Legal(d, Insert(at, r)) && OnlyIn(trees, k, nodes[at])
    requires Cursor(nodes[at]) in Doc(trees[k])
    ensures r in trees && k != r && r < |nodes| && Distinct(trees[r]) && trees[r].obj == nodes[r]
      && Apart(trees[k], trees[r])
    ensures IsBuffer(nodes, trees[r], r, d.docs[r])
  {
    assert IsTree(nodes, r, trees[r], d.docs);
    CursorRenamed(d.docs[r], at, nodes);
    assert k != r;
  }

  lemma {:induction false} CursorRenamed(doc: seq<Item<nat>>, at: nat, nodes: seq<StringIOTree>)
    requires InRange(doc, |nodes|) && at < |nodes| && Injective(nodes)
    ensures Cursor(at) in doc <==> Cursor(nodes[at]) in Renamed(doc, nodes)
  {
    if Cursor(at) in doc {
      var i :| 0 <= i < |doc| && doc[i] == Cursor(at);
      assert Renamed(doc, nodes)[i] == Cursor(nodes[at]);
    }
    if Cursor(nodes[at]) in Renamed(doc, nodes) {
      var i :| 0 <= i < |doc| && Renamed(doc, nodes)[i] == Cursor(nodes[at]);
      assert doc[i] == Cursor(at);
    }
  }

  lemma InsertChanged(nodes: seq<StringIOTree>, trees: map<nat, Tree>, at: nat, r: nat, k: nat, root': Tree,
                      doc: seq<Item<nat>>)
    requires Injective(nodes) && at < |nodes| && OnlyIn(trees, k, nodes[at]) && !trees[k].saved
    requires r in trees && k != r && IsBuffer(nodes, trees[r], r, doc)
    requires Distinct(root') && root'.obj == trees[k].obj
      && Doc(root') == Splice(Doc(trees[k]), nodes[at], Doc(trees[r]))
    requires PartsBecame(trees[k], root', nodes[at], Doc(trees[r]))
    ensures Changed(nodes, trees - {r}, at, k, root', doc)
  {
    ChangedBy(nodes, trees - {r}, at, k, root', doc, Doc(trees[r]));
  }

  /** A buffer of the inserted tree is now in the other one, with the same document. */
  lemma RehomedInside(nodes: seq<StringIOTree>, trees: map<nat, Tree>, at: nat, r: nat, k: nat, root': Tree,
                      what: seq<Item<nat>>, i: nat, doc: seq<Item<nat>>, u: Tree)
    requires Changed(nodes, trees - {r}, at, k, root', what) && r in trees && nodes[at] !in Nodes(trees[r])
    requires Parts(trees[r]) <= Parts(root') && HomedAt(nodes, trees, r, u, i, doc)
    ensures Homed(nodes, (trees - {r})[k := root'], i, Splice(doc, at, what))
  {
    PartNodes(trees[r], u);
    BufferElsewhere(nodes, u, i, doc, at, what);
    assert HomedAt(nodes, (trees - {r})[k := root'], k, u, i, Splice(doc, at, what));
  }

  lemma InsertHome(nodes: seq<StringIOTree>, trees: map<nat, Tree>, at: nat, r: nat, k: nat, root': Tree,
                   what: seq<Item<nat>>, i: nat, doc: seq<Item<nat>>)
    requires Changed(nodes, trees - {r}, at, k, root', what) && r in trees && nodes[at] !in Nodes(trees[r])
    requires Parts(trees[r]) <= Parts(root') && Homed(nodes, trees, i, doc)
    ensures Homed(nodes, (trees - {r})[k := root'], i, Splice(doc, at, what))
  {
    var j, u :| j in trees && u in Parts(trees[j]) && HomedAt(nodes, trees, j, u, i, doc);
    if j == r {
      RehomedInside(nodes, trees, at, r, k, root', what, i, doc, u);
    } else {
      assert HomedAt(nodes, trees - {r}, j, u, i, doc);
      Rehomed(nodes, trees - {r}, at, k, root', what, i, doc);
    }
  }

  lemma InsertHomes(nodes: seq<StringIOTree>, trees: map<nat, Tree>, at: nat, r: nat, k: nat, root': Tree,
                    what: seq<Item<nat>>, docs: seq<seq<Item<nat>>>)
    requires Changed(nodes, trees - {r}, at, k, root', what) && r in trees && nodes[at] !in Nodes(trees[r])
    requires Parts(trees[r]) <= Parts(root') && AllHomed(nodes, trees, docs)
    ensures AllHomed(nodes, (trees - {r})[k := root'], SpliceAll(docs, at, what))
  {
    forall i: nat | i < |docs| ensures Homed(nodes, (trees - {r})[k := root'], i, SpliceAll(docs, at, what)[i]) {
      assert Homed(nodes, trees, i, docs[i]);
      InsertHome(nodes, trees, at, r, k, root', what, i, docs[i]);
    }
  }

  lemma InsertTrees(nodes: seq<StringIOTree>, trees: map<nat, Tree>, docs: seq<seq<Item<nat>>>,
                    at: nat, r: nat, k: nat, root': Tree, what: seq<Item<nat>>)
    requires AllTrees(nodes, trees, docs) && r in trees && Changed(nodes, trees - {r}, at, k, root', what)
    ensures AllTrees(nodes, (trees - {r})[k := root'], SpliceAll(docs, at, what))
  {
    forall j | j in trees - {r} ensures IsTree(nodes, j, (trees - {r})[j], docs) {
      assert IsTree(nodes, j, trees[j], docs);
    }
    AllTreesSpliced(nodes, trees - {r}, docs, at, k, root', what);
  }

  lemma RootsLeft(trees: map<nat, Tree>, r: nat, k: nat, root': Tree)
    requires r in trees && k in trees && k != r
    ensures (trees - {r})[k := root'].Keys == trees.Keys - {r}
  {
  }

  lemma InsertDone(nodes: seq<StringIOTree>, trees: map<nat, Tree>, d: Documents, at: nat, r: nat, k: nat, root': Tree)
    requires Holds(nodes, trees, d) && Legal(d, Insert(at, r)) && r in trees && k != r && nodes[at] !in Nodes(trees[r])
    requires Changed(nodes, trees - {r}, at, k, root', d.docs[r]) && Parts(trees[r]) <= Parts(root')
    requires Separate((trees - {r})[k := root'])
    ensures Holds(nodes, (trees - {r})[k := root'], Documents(SpliceAll(d.docs, at, d.docs[r]), d.roots - {r}))
  {
    InsertTrees(nodes, trees, d.docs, at, r, k, root', d.docs[r]);
    InsertHomes(nodes, trees, at, r, k, root', d.docs[r], d.docs);
    RootsLeft(trees, r, k, root');
    HoldsFrom(nodes, (trees - {r})[k := root'], SpliceAll(d.docs, at, d.docs[r]), d.roots - {r});
  }

  /** The inserted tree is not one of the trees any more, and its buffers are in another. */
  lemma GrownByTree(trees: map<nat, Tree>, k: nat, r: nat, root': Tree, nodes: set<StringIOTree>,
                    streams: set<StringIO>)
    requires Separate(trees) && k in trees && r in trees && k != r
    requires Nodes(root') <= Nodes(trees[k]) + Nodes(trees[r]) + nodes
    requires Streams(root') <= Streams(trees[k]) + Streams(trees[r]) + streams
    requires nodes !! AllNodes(trees) && streams !! AllStreams(trees)
    ensures Separate((trees - {r})[k := root'])
    ensures AllNodes((trees - {r})[k := root']) <= AllNodes(trees) + nodes
    ensures AllStreams((trees - {r})[k := root']) <= AllStreams(trees) + streams
  {
    var rest := trees - {r};
    forall j | j in rest && j != k
      ensures Nodes(trees[r]) + nodes !! Nodes(rest[j]) && Streams(trees[r]) + streams !! Streams(rest[j])
    {
      assert Apart(trees[r], trees[j]);
      assert Nodes(trees[j]) <= AllNodes(trees) && Streams(trees[j]) <= AllStreams(trees);
    }
    assert Separate(rest);
    StaysSeparate(rest, k, root', Nodes(trees[r]) + nodes, Streams(trees[r]) + streams);
  }

  lemma OthersOfRest(trees: map<nat, Tree>, k: nat, r: nat)
    requires k in trees && r in trees && k != r
    ensures Others(trees - {r}, k) <= Others(trees, k)
  {
  }

  method InsertBeside(node: StringIOTree, iotree: StringIOTree, ghost root: Tree, ghost kid: Tree,
                      ghost others: set<Tree>)
    returns (ghost root': Tree)
    requires Rep(root) && Distinct(root) && Cursor(node) in Doc(root)
    requires Rep(kid) && Distinct(kid) && kid.obj == iotree && Apart(root, kid)
    requires Untouched(others, node, node.stream) && forall u <- others :: Matches(u)
    modifies node
    ensures Rep(root') && Distinct(root') && Doc(root') == Splice(Doc(root), node, Doc(kid)) && root'.obj == root.obj
    ensures PartsBecame(root, root', node, Doc(kid)) && Parts(kid) <= Parts(root')
    ensures fresh(Nodes(root') - Nodes(root) - Nodes(kid)) && fresh(Streams(root') - Streams(root) - Streams(kid))
    ensures forall u <- others :: Matches(u)
  {
    assert allocated(others);
    root' := node.Insert(iotree, root, kid);
  }

  method RunInsert(nodes: seq<StringIOTree>, at: nat, r: nat, ghost trees: map<nat, Tree>, ghost d: Documents)
    returns (ghost trees': map<nat, Tree>)
    requires Holds(nodes, trees, d) && Legal(d, Insert(at, r)) && OnHeap(trees)
    modifies AllNodes(trees), AllStreams(trees)
    ensures Holds(nodes, trees', After(d, Insert(at, r))) && OnHeap(trees')
    ensures fresh(AllNodes(trees') - AllNodes(trees)) && fresh(AllStreams(trees') - AllStreams(trees))
  {
    ghost var k := Locate(nodes, trees, d, at);
    InsertedIsTree(nodes, trees, d, at, r, k);
    OthersMatch(trees, k);
    OthersUntouched(trees, k, nodes[at]);
    OthersOfRest(trees, k, r);
    InAll(trees, k, nodes[at]);
    assert allocated(AllNodes(trees)) && allocated(AllStreams(trees));
    ghost var root' := InsertBeside(nodes[at], nodes[r], trees[k], trees[r], Others(trees - {r}, k));
    trees' := (trees - {r})[k := root'];
    AllRep(trees - {r}, k, root');
    GrownByTree(trees, k, r, root', Nodes(root') - Nodes(trees[k]) - Nodes(trees[r]),
      Streams(root') - Streams(trees[k]) - Streams(trees[r]));
    InsertOutcome(nodes, trees, d, at, r, k, root');
  }

  lemma InsertOutcome(nodes: seq<StringIOTree>, trees: map<nat, Tree>, d: Documents, at: nat, r: nat, k: nat,
                      root': Tree)
    requires Holds(nodes, trees, d) && Legal(d, Insert(at, r)) && OnlyIn(trees, k, nodes[at]) && !trees[k].saved
    requires r in trees && k != r && IsBuffer(nodes, trees[r], r, d.docs[r])
    requires Distinct(root') && root'.obj == trees[k].obj
      && Doc(root') == Splice(Doc(trees[k]), nodes[at], Doc(trees[r]))
    requires PartsBecame(trees[k], root', nodes[at], Doc(trees[r])) && Parts(trees[r]) <= Parts(root')
    requires Separate((trees - {r})[k := root'])
    ensures Holds(nodes, (trees - {r})[k := root'], Documents(SpliceAll(d.docs, at, d.docs[r]), d.roots - {r}))
  {
    InsertChanged(nodes, trees, at, r, k, root', d.docs[r]);
    InsertDone(nodes, trees, d, at, r, k, root');
  }

  // A new buffer for itself.

  lemma NewSeparate(trees: map<nat, Tree>, n: nat, leaf: Tree)
    requires Separate(trees) && Nodes(leaf) == {leaf.obj} && Streams(leaf) == {leaf.stream}
    requires leaf.obj !in AllNodes(trees) && leaf.stream !in AllStreams(trees)
    ensures Separate(trees[n := leaf])
  {
  }

  lemma HomesWithTree(nodes: seq<StringIOTree>, trees: map<nat, Tree>, docs: seq<seq<Item<nat>>>, n: nat, leaf: Tree)
    requires AllHomed(nodes, trees, docs) && n !in trees
    ensures AllHomed(nodes, trees[n := leaf], docs)
  {
    forall i: nat | i < |docs| ensures Homed(nodes, trees[n := leaf], i, docs[i]) {
      assert Homed(nodes, trees, i, docs[i]);
      var k, u :| k in trees && u in Parts(trees[k]) && HomedAt(nodes, trees, k, u, i, docs[i]);
      assert HomedAt(nodes, trees[n := leaf], k, u, i, docs[i]);
    }
  }

  lemma NewHomes(nodes: seq<StringIOTree>, trees: map<nat, Tree>, docs: seq<seq<Item<nat>>>, leaf: Tree)
    requires AllHomed(nodes, trees, docs) && |docs| == |nodes| && |nodes| !in trees
    requires !leaf.saved && Doc(leaf) == [Cursor(leaf.obj)] && leaf in Parts(leaf)
    ensures AllHomed(nodes + [leaf.obj], trees[|nodes| := leaf], docs + [Mark(|nodes|)])
  {
    HomesStay(nodes, trees, docs, leaf.obj);
    HomesWithTree(nodes + [leaf.obj], trees, docs, |nodes|, leaf);
    LeafIsHomed(nodes + [leaf.obj], trees[|nodes| := leaf], |nodes|, leaf);
    HomesWithMore(nodes + [leaf.obj], trees[|nodes| := leaf], docs, Mark(|nodes|));
  }

  lemma NewTrees(nodes: seq<StringIOTree>, trees: map<nat, Tree>, docs: seq<seq<Item<nat>>>, leaf: Tree)
    requires AllTrees(nodes, trees, docs) && |docs| == |nodes|
    requires Distinct(leaf) && !leaf.saved && Doc(leaf) == [Cursor(leaf.obj)]
    ensures AllTrees(nodes + [leaf.obj], trees[|nodes| := leaf], docs + [Mark(|nodes|)])
  {
    TreesStay(nodes, trees, docs, leaf.obj);
    CursorAlone(nodes, leaf.obj);
    var nodes', trees', docs' := nodes + [leaf.obj], trees[|nodes| := leaf], docs + [Mark(|nodes|)];
    forall k | k in trees' ensures IsTree(nodes', k, trees'[k], docs') {
      if k != |nodes| {
        assert IsTree(nodes', k, trees[k], docs);
      }
    }
  }

  lemma NoSuchTree(nodes: seq<StringIOTree>, trees: map<nat, Tree>, d: Documents)
    requires Holds(nodes, trees, d)
    ensures |nodes| !in trees
  {
    forall k | k in trees ensures k < |nodes| {
      assert IsTree(nodes, k, trees[k], d.docs);
    }
  }

  lemma NewDone(nodes: seq<StringIOTree>, trees: map<nat, Tree>, d: Documents, leaf: Tree)
    requires Holds(nodes, trees, d) && leaf.kids == [] && leaf.text == "" && !leaf.saved
    requires leaf.obj !in AllNodes(trees) && leaf.stream !in AllStreams(trees) && leaf.obj !in nodes
    ensures Holds(nodes + [leaf.obj], trees[|nodes| := leaf], After(d, New))
  {
    ChildlessFacts(leaf);
    var docs' := NewDocs(nodes, leaf.obj, d);
    NoSuchTree(nodes, trees, d);
    NewTrees(nodes, trees, d.docs, leaf);
    NewHomes(nodes, trees, d.docs, leaf);
    OneMoreNode(nodes, leaf.obj);
    NewSeparate(trees, |nodes|, leaf);
    HoldsFrom(nodes + [leaf.obj], trees[|nodes| := leaf], docs', d.roots + {|nodes|});
  }

  lemma NewDocs(nodes: seq<StringIOTree>, other: StringIOTree, d: Documents) returns (docs': seq<seq<Item<nat>>>)
    requires |nodes| == |d.docs|
    ensures docs' == d.docs + [Mark(|nodes|)] && |docs'| == |nodes + [other]|
    ensures After(d, New) == Documents(docs', d.roots + {|nodes|})
  {
    docs' := d.docs + [Mark(|nodes|)];
  }

  lemma NewGrown(trees: map<nat, Tree>, n: nat, leaf: Tree)
    requires leaf.kids == []
    ensures AllNodes(trees[n := leaf]) <= AllNodes(trees) + {leaf.obj}
    ensures AllStreams(trees[n := leaf]) <= AllStreams(trees) + {leaf.stream}
  {
    ChildlessFacts(leaf);
  }

  method NewBeside(ghost others: set<Tree>) returns (node: StringIOTree, ghost leaf: Tree)
    requires forall u <- others :: Matches(u)
    ensures Rep(leaf) && leaf.obj == node && leaf.kids == [] && leaf.text == "" && !leaf.saved
    ensures fresh(node) && fresh(leaf.stream) && forall u <- others :: Matches(u)
  {
    assert allocated(others);
    var stream := new StringIO();
    node := new StringIOTree(stream);
    leaf := Tree(node, stream, [], "", false);
    ChildlessFacts(leaf);
  }

  method RunNew(nodes: seq<StringIOTree>, ghost trees: map<nat, Tree>, ghost d: Documents)
    returns (nodes': seq<StringIOTree>, ghost trees': map<nat, Tree>)
    requires Holds(nodes, trees, d) && OnHeap(trees)
    ensures Holds(nodes', trees', After(d, New)) && OnHeap(trees')
    ensures fresh(AllNodes(trees') - AllNodes(trees)) && fresh(AllStreams(trees') - AllStreams(trees))
  {
    assert allocated(AllNodes(trees)) && allocated(AllStreams(trees));
    OthersMatch(trees, |nodes|);
    var node;
    ghost var leaf;
    node, leaf := NewBeside(Others(trees, |nodes|));
    nodes', trees' := nodes + [node], trees[|nodes| := leaf];
    AllRep(trees, |nodes|, leaf);
    NewDone(nodes, trees, d, leaf);
    NewGrown(trees, |nodes|, leaf);
  }

  // Whole runs.

  method Step(nodes: seq<StringIOTree>, op: Op, ghost trees: map<nat, Tree>, ghost d: Documents)
    returns (nodes': seq<StringIOTree>, ghost trees': map<nat, Tree>)
    requires Holds(nodes, trees, d) && Legal(d, op) && OnHeap(trees)
    modifies AllNodes(trees), AllStreams(trees)
    ensures Holds(nodes', trees', After(d, op)) && OnHeap(trees')
    ensures fresh(AllNodes(trees') - AllNodes(trees)) && fresh(AllStreams(trees') - AllStreams(trees))
  {
    nodes' := nodes;
    match op {
      case New => nodes', trees' := RunNew(nodes, trees, d);
      case Write(at, s) => trees' := RunWrite(nodes, at, s, trees, d);
      case Commit(at) => trees' := RunCommit(nodes, at, trees, d);
      case InsertionPoint(at) => nodes', trees' := RunPoint(nodes, at, trees, d);
      case Insert(at, r) => trees' := RunInsert(nodes, at, r, trees, d);
    }
  }

  lemma {:induction false} LegalBefore(script: seq<Op>, n: nat, m: nat)
    requires m <= n <= |script| && LegalScript(script, n)
    ensures LegalScript(script, m)
    decreases n
  {
    if m < n {
      LegalBefore(script, n - 1, m);
    }
  }

  lemma OneStep(script: seq<Op>, i: nat)
    requires i < |script| && LegalScript(script, |script|)
    ensures LegalScript(script, i) && LegalScript(script, i + 1) && Legal(Final(script, i), script[i])
    ensures Final(script, i + 1) == After(Final(script, i), script[i])
  {
    LegalBefore(script, |script|, i + 1);
  }

  lemma NoForest()
    ensures Holds([], map[], Documents([], {})) && OnHeap(map[])
    ensures AllNodes(map[]) == {} && AllStreams(map[]) == {}
  {
  }

  /** A step, with what it may have changed so far. */
  method FreshStep(nodes: seq<StringIOTree>, op: Op, ghost trees: map<nat, Tree>, ghost d: Documents,
                   ghost d': Documents, ghost was: set<StringIOTree>, ghost streams: set<StringIO>)
    returns (nodes': seq<StringIOTree>, ghost trees': map<nat, Tree>, ghost was': set<StringIOTree>,
             ghost streams': set<StringIO>)
    requires Holds(nodes, trees, d) && Legal(d, op) && OnHeap(trees)
    requires d' == After(d, op) && AllNodes(trees) <= was && AllStreams(trees) <= streams
    modifies was, streams
    ensures Holds(nodes', trees', d') && OnHeap(trees')
    ensures AllNodes(trees') <= was' && AllStreams(trees') <= streams'
    ensures fresh(was' - was) && fresh(streams' - streams)
  {
    nodes', trees' := Step(nodes, op, trees, d);
    was' := was + (AllNodes(trees') - AllNodes(trees));
    streams' := streams + (AllStreams(trees') - AllStreams(trees));
  }

  method Run(script: seq<Op>) returns (nodes: seq<StringIOTree>, ghost trees: map<nat, Tree>)
    requires LegalScript(script, |script|)
    ensures Holds(nodes, trees, Final(script, |script|)) && OnHeap(trees)
  {
    nodes, trees := [], map[];
    ghost var d, was, streams := Documents([], {}), {}, {};
    NoForest();
    for i := 0 to |script|
      invariant LegalScript(script, i) && d == Final(script, i)
      invariant Holds(nodes, trees, d) && OnHeap(trees)
      invariant AllNodes(trees) <= was && AllStreams(trees) <= streams && fresh(was) && fresh(streams)
    {
      OneStep(script, i);
      ghost var next := Final(script, i + 1);
      nodes, trees, was, streams := FreshStep(nodes, script[i], trees, d, next, was, streams);
      d := next;
    }
  }

  /** What a buffer gives back when it is read. */
  datatype Reading = Reading(value: string, copy: string, empty: bool)

  method Read(node: StringIOTree, ghost root: Tree) returns (r: Reading)
    requires Rep(root) && root.obj == node
    ensures r == Reading(TextOf(Doc(root)), TextOf(Doc(root)), TextOf(Doc(root)) == "")
  {
    TextIsTextOfDoc(root);
    assert allocated(Parts(root)) && allocated(Streams(root));
    var value := node.GetValue(root);
    var empty := node.Empty(root);
    var copy := new StringIO();
    node.CopyTo(copy, root);
    r := Reading(value, copy.contents, empty);
  }

  /** The part of the trees that a buffer is, with its document. */
  lemma PartOfBuffer(nodes: seq<StringIOTree>, trees: map<nat, Tree>, d: Documents, i: nat) returns (u: Tree)
    requires Holds(nodes, trees, d) && OnHeap(trees) && i < |d.docs|
    ensures Rep(u) && u.obj == nodes[i] && TextOf(Doc(u)) == TextOf(d.docs[i])
  {
    assert Homed(nodes, trees, i, d.docs[i]);
    var k;
    k, u :| k in trees && u in Parts(trees[k]) && HomedAt(nodes, trees, k, u, i, d.docs[i]);
    PartNodes(trees[k], u);
    TextOfRenamed(d.docs[i], nodes);
  }

  /** Whatever the run, each buffer, inserted or not, reads as the text of its document. */
  method RunAndRead(script: seq<Op>, i: nat) returns (r: Reading)
    requires LegalScript(script, |script|) && i < |Final(script, |script|).docs|
    ensures var text := TextOf(Final(script, |script|).docs[i]); r == Reading(text, text, text == "")
  {
    var nodes;
    ghost var trees;
    nodes, trees := Run(script);
    ghost var u := PartOfBuffer(nodes, trees, Final(script, |script|), i);
    r := Read(nodes[i], u);
  }
}

/** The control-flow graph as a value: which blocks follow a block and what a block
    does, the states that reach a point along the paths of the graph, and how all of
    this survives when the graph grows. */
module FlowGraph {
  import opened Wrappers
  import opened FlowSyntax

  type Block = nat

  const ENTRY: Block := 0
  const EXIT: Block := 1

  datatype Stat =
    | Assignment(lhs: NodeId, entry: Entry)
    | Deletion(lhs: NodeId, entry: Entry)
    | Reference(node: NodeId, entry: Entry)

  datatype Graph = Graph(children: seq<set<Block>>, stats: seq<seq<Stat>>)

  predicate WellFormed(g: Graph) {
    && |g.children| == |g.stats|
    && forall b: Block, c: Block {:trigger c in g.children[b]} :: b < |g.children| && c in g.children[b] ==>
       c < |g.stats|
  }

  /** The blocks that have an edge to each block. */
  function ParentsOf(children: seq<set<Block>>): seq<set<Block>> {
    seq(|children|, c => set b: Block | b < |children| && c in children[b])
  }

  // ------------------------------------------------------------------- states

  function Apply(s: Stat, st: State): State {
    match s
    case Assignment(lhs, entry) => st[entry := lhs]
    case Deletion(_, entry) => st - {entry}
    case Reference(_, _) => st
  }

  function ApplyAll(ss: seq<Stat>, st: State): State {
    if ss == [] then st else Apply(ss[|ss| - 1], ApplyAll(ss[..|ss| - 1], st))
  }

  ghost predicate IsPath(g: Graph, p: seq<Block>) {
    && p != []
    && (forall i :: 0 <= i < |p| ==> p[i] < |g.stats| && p[i] < |g.children|)
    && forall i :: 0 <= i < |p| - 1 ==> p[i + 1] in g.children[p[i]]
  }

  /** The state in which a path enters its last block. */
  ghost function PathState(g: Graph, p: seq<Block>): State
    requires IsPath(g, p)
  {
    if |p| == 1 then map[]
    else ApplyAll(g.stats[p[|p| - 2]], PathState(g, p[..|p| - 1]))
  }

  /** Some path from the entry block enters `b` with state `st`. */
  ghost predicate ReachIn(g: Graph, b: Block, st: State) {
    exists p :: IsPath(g, p) && p[0] == ENTRY && p[|p| - 1] == b && PathState(g, p) == st
  }

  /** Some path from the entry block has state `st` before the `k`-th statement of `b`. */
  ghost predicate ReachAt(g: Graph, b: Block, k: nat, st: State) {
    && b < |g.stats| && k <= |g.stats[b]|
    && exists s :: ReachIn(g, b, s) && st == ApplyAll(g.stats[b][..k], s)
  }

  ghost predicate HasParent(g: Graph, c: Block) {
    exists b :: 0 <= b < |g.children| && c in g.children[b]
  }

  lemma ReachStep(g: Graph, b: Block, c: Block, st: State)
    requires WellFormed(g) && ReachIn(g, b, st) && b < |g.stats| && c in g.children[b]
    ensures ReachIn(g, c, ApplyAll(g.stats[b], st))
  {
    var p :| IsPath(g, p) && p[0] == ENTRY && p[|p| - 1] == b && PathState(g, p) == st;
    var q := p + [c];
    assert q[..|q| - 1] == p;
    assert IsPath(g, q);
  }

  // ------------------------------------------------------------------- worlds

  datatype Point = Point(block: Block, pos: nat, state: State)

  /** A graph with a set of points that is closed under its moves: past a statement,
      and from the end of a block to the start of its children. */
  datatype World = World(graph: Graph, points: iset<Point>)

  predicate Moves(g: Graph, p: Point, q: Point)
    requires WellFormed(g)
  {
    && p.block < |g.stats| && p.pos <= |g.stats[p.block]|
    && if p.pos < |g.stats[p.block]| then q == Point(p.block, p.pos + 1, Apply(g.stats[p.block][p.pos], p.state))
       else q.block in g.children[p.block] && q.pos == 0 && q.state == p.state
  }

  ghost predicate Closed(w: World) {
    && WellFormed(w.graph)
    && (forall p <- w.points :: p.block < |w.graph.stats| && p.pos <= |w.graph.stats[p.block]|)
    && (forall p, q :: Moves(w.graph, p, q) && p in w.points ==> q in w.points)
  }

  ghost predicate At(w: World, b: Block, k: nat, st: State) {
    Point(b, k, st) in w.points
  }

  ghost predicate Enters(w: World, b: Block, st: State) {
    Point(b, 0, st) in w.points
  }

  lemma AtStat(w: World, b: Block, k: nat, st: State)
    requires Closed(w) && At(w, b, k, st) && b < |w.graph.stats| && k < |w.graph.stats[b]|
    ensures At(w, b, k + 1, Apply(w.graph.stats[b][k], st))
  {
    assert Moves(w.graph, Point(b, k, st), Point(b, k + 1, Apply(w.graph.stats[b][k], st)));
  }

  lemma AtEdge(w: World, b: Block, c: Block, st: State)
    requires Closed(w) && b < |w.graph.stats| && At(w, b, |w.graph.stats[b]|, st) && c in w.graph.children[b]
    ensures Enters(w, c, st)
  {
    assert Moves(w.graph, Point(b, |w.graph.stats[b]|, st), Point(c, 0, st));
  }

  /** The points that paths from the entry block reach. */
  ghost function Reached(g: Graph): World {
    World(g, iset p: Point | ReachAt(g, p.block, p.pos, p.state))
  }

  lemma ReachedIsClosed(g: Graph)
    requires WellFormed(g)
    ensures Closed(Reached(g))
  {
    var w := Reached(g);
    forall p, q | Moves(g, p, q) && p in w.points ensures q in w.points {
      var s :| ReachIn(g, p.block, s) && p.state == ApplyAll(g.stats[p.block][..p.pos], s);
      if p.pos < |g.stats[p.block]| {
        assert g.stats[p.block][..p.pos + 1][..p.pos] == g.stats[p.block][..p.pos];
      } else {
        assert g.stats[p.block][..p.pos] == g.stats[p.block];
        ReachStep(g, p.block, q.block, s);
        assert g.stats[q.block][..0] == [];
      }
    }
  }

  /** The world's graph is `g` grown further. */
  ghost predicate Fits(g: Graph, w: World) {
    Ext(g, w.graph) && Closed(w)
  }

  lemma FitsTransitive(f: Graph, g: Graph, w: World)
    requires Ext(f, g) && Fits(g, w)
    ensures Fits(f, w)
  {
    ExtTransitive(f, g, w.graph);
  }

  // ------------------------------------------------------------------- growth

  /** `h` is `g` grown further: edges and statements may have been added, but a block
      that already had a child got no further statement. */
  ghost predicate Ext(g: Graph, h: Graph) {
    && WellFormed(g) && WellFormed(h)
    && |g.stats| <= |h.stats|
    && forall b :: 0 <= b < |g.stats| ==>
         && g.children[b] <= h.children[b]
         && g.stats[b] <= h.stats[b]
         && (g.children[b] != {} ==> g.stats[b] == h.stats[b])
  }

  /** What visiting a statement may do from block `cur`: statements and outgoing edges
      are added to `cur` and to new blocks only. */
  ghost predicate Grown(g: Graph, h: Graph, cur: Block) {
    && WellFormed(g) && WellFormed(h)
    && |g.stats| <= |h.stats| && cur < |g.stats|
    && g.children[cur] <= h.children[cur] && g.stats[cur] <= h.stats[cur]
    && forall b :: 0 <= b < |g.stats| && b != cur ==>
         g.children[b] == h.children[b] && g.stats[b] == h.stats[b]
  }

  lemma ExtTransitive(f: Graph, g: Graph, h: Graph)
    requires Ext(f, g) && Ext(g, h)
    ensures Ext(f, h)
  {
    forall b | 0 <= b < |f.stats|
      ensures f.children[b] <= h.children[b] && f.stats[b] <= h.stats[b]
      ensures f.children[b] != {} ==> f.stats[b] == h.stats[b]
    {
      assert g.children[b] <= h.children[b];
    }
  }

  /** Visiting led from `cur` to `end`, a block that is still open. */
  ghost predicate Visited(g: Graph, h: Graph, cur: Block, end: Option<Block>) {
    && Grown(g, h, cur) && Ext(g, h)
    && (end.Some? ==> OpenBlock(h, end.value) && (end.value == cur || end.value >= |g.stats|))
  }

  predicate HasChild(g: Graph, b: Block) {
    b < |g.stats| && b < |g.children| && g.children[b] != {}
  }

  /** A block that statements may be added to. */
  predicate OpenBlock(g: Graph, b: Block) {
    && b < |g.stats| && b < |g.children| && g.children[b] == {} && b != ENTRY && b != EXIT
  }

  lemma GrownTransitive(f: Graph, g: Graph, h: Graph, cur: Block, cur': Block)
    requires Grown(f, g, cur) && Grown(g, h, cur')
    requires cur' == cur || cur' >= |f.stats|
    ensures Grown(f, h, cur)
  {
    assert f.children[cur] <= g.children[cur] <= h.children[cur];
    assert f.stats[cur] <= g.stats[cur] <= h.stats[cur];
  }

  lemma GrownExt(g: Graph, h: Graph, cur: Block)
    requires Grown(g, h, cur) && g.children[cur] == {}
    ensures Ext(g, h)
  {
  }

  function AddBlock(g: Graph): Graph {
    Graph(g.children + [{}], g.stats + [[]])
  }

  function AddEdge(g: Graph, b: Block, c: Block): Graph
    requires b < |g.children|
  {
    g.(children := g.children[b := g.children[b] + {c}])
  }

  function AddStat(g: Graph, b: Block, s: Stat): Graph
    requires b < |g.stats|
  {
    g.(stats := g.stats[b := g.stats[b] + [s]])
  }

  /** A new block behind `b`. */
  function AddNext(g: Graph, b: Block): Graph
    requires b < |g.children|
  {
    AddEdge(AddBlock(g), b, |g.stats|)
  }

  lemma GrownByBlock(g: Graph, cur: Block)
    requires WellFormed(g) && cur < |g.stats|
    ensures Grown(g, AddBlock(g), cur) && Ext(g, AddBlock(g)) && FreshIn(AddBlock(g), |g.stats|)
    ensures AddBlock(g).stats[cur] == g.stats[cur]
  {
  }

  predicate FreshIn(g: Graph, b: Block) {
    b < |g.stats| && b < |g.children| && g.children[b] == {} && g.stats[b] == []
  }

  lemma GrownByEdge(g: Graph, b: Block, c: Block)
    requires WellFormed(g) && b < |g.stats| && c < |g.stats|
    ensures Grown(g, AddEdge(g, b, c), b) && AddEdge(g, b, c).stats == g.stats && c in AddEdge(g, b, c).children[b]
  {
  }

  lemma GrownByNext(g: Graph, b: Block)
    requires WellFormed(g) && b < |g.stats|
    ensures Grown(g, AddNext(g, b), b) && Ext(g, AddNext(g, b)) && FreshIn(AddNext(g, b), |g.stats|)
    ensures |g.stats| in AddNext(g, b).children[b] && AddNext(g, b).stats[b] == g.stats[b]
    ensures |AddNext(g, b).stats| == |g.stats| + 1
  {
  }

  /** The assignments that a list of statements leaves in force, each at its position,
      and the entries that it leaves deleted. */
  datatype Generated = Assigned(index: nat) | Uninitialized

  function GenOf(ss: seq<Stat>): map<Entry, Generated> {
    if ss == [] then map[]
    else
      Generate(GenOf(ss[..|ss| - 1]), |ss| - 1, ss[|ss| - 1])
  }

  function Generate(gen: map<Entry, Generated>, index: nat, s: Stat): map<Entry, Generated> {
    match s
    case Assignment(_, entry) => gen[entry := Assigned(index)]
    case Deletion(_, entry) => gen[entry := Uninitialized]
    case Reference(_, _) => gen
  }

  function GensOf(stats: seq<seq<Stat>>): seq<map<Entry, Generated>> {
    seq(|stats|, b requires 0 <= b < |stats| => GenOf(stats[b]))
  }

  function EntriesOf(stats: seq<seq<Stat>>): set<Entry> {
    set b, k | 0 <= b < |stats| && 0 <= k < |stats[b]| :: stats[b][k].entry
  }

  function BlocksUpTo(n: nat): set<Block> {
    if n <= 1 then {} else BlocksUpTo(n - 1) + {n - 1}
  }

  lemma RowsOfEmpty()
    ensures ParentsOf([{}, {}]) == [{}, {}]
  {
    var none: seq<set<Block>> := [{}, {}];
    forall c | 0 <= c < 2 ensures ParentsOf(none)[c] == none[c] {
      assert ParentsOf(none)[c] == set b: Block | b < |none| && c in none[b];
    }
  }

  lemma RowsAddBlock(g: Graph)
    requires WellFormed(g)
    ensures WellFormed(AddBlock(g))
    ensures ParentsOf(AddBlock(g).children) == ParentsOf(g.children) + [{}]
    ensures GensOf(AddBlock(g).stats) == GensOf(g.stats) + [map[]]
    ensures EntriesOf(AddBlock(g).stats) == EntriesOf(g.stats)
  {
    var h := AddBlock(g);
    forall c | 0 <= c < |h.children| ensures ParentsOf(h.children)[c] == (ParentsOf(g.children) + [{}])[c] {
      assert ParentsOf(h.children)[c] == set b: Block | b < |h.children| && c in h.children[b];
    }
    forall e | e in EntriesOf(g.stats) ensures e in EntriesOf(h.stats) {
      var b, k :| 0 <= b < |g.stats| && 0 <= k < |g.stats[b]| && e == g.stats[b][k].entry;
      assert h.stats[b][k].entry == e;
    }
  }

  lemma RowsAddEdge(g: Graph, b: Block, c: Block)
    requires WellFormed(g) && b < |g.stats| && c < |g.stats|
    ensures WellFormed(AddEdge(g, b, c))
    ensures ParentsOf(AddEdge(g, b, c).children) == ParentsOf(g.children)[c := ParentsOf(g.children)[c] + {b}]
  {
    var h := AddEdge(g, b, c);
    forall d | 0 <= d < |h.children|
      ensures ParentsOf(h.children)[d] == ParentsOf(g.children)[c := ParentsOf(g.children)[c] + {b}][d]
    {
      assert ParentsOf(h.children)[d] == set a: Block | a < |h.children| && d in h.children[a];
      assert ParentsOf(g.children)[d] == set a: Block | a < |g.children| && d in g.children[a];
    }
  }

  lemma RowsAddStat(g: Graph, b: Block, s: Stat)
    requires WellFormed(g) && b < |g.stats|
    ensures WellFormed(AddStat(g, b, s))
    ensures GensOf(AddStat(g, b, s).stats) == GensOf(g.stats)[b := Generate(GenOf(g.stats[b]), |g.stats[b]|, s)]
    ensures EntriesOf(AddStat(g, b, s).stats) == EntriesOf(g.stats) + {s.entry}
  {
    var h := AddStat(g, b, s);
    assert h.stats[b][..|g.stats[b]|] == g.stats[b];
    assert h.stats[b][|g.stats[b]|].entry == s.entry;
    forall e | e in EntriesOf(g.stats) ensures e in EntriesOf(h.stats) {
      var a, k :| 0 <= a < |g.stats| && 0 <= k < |g.stats[a]| && e == g.stats[a][k].entry;
      assert h.stats[a][k].entry == e;
    }
  }
}

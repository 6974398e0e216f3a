/** The graph of a whole function: whatever stands at a point that a path of it reaches is
    done there by some run of the function, in that state. */
module FlowPaths {
  import opened Wrappers
  import opened FlowSyntax
  import opened FlowGraph
  import opened FlowSimulation
  import opened FlowShapes
  import opened FlowBuilt
  import opened FlowGrowth
  import opened FlowAssigned
  import opened FlowContraction
  import opened FlowCheck
  import opened FlowExact
  import opened FlowTight
  import opened FlowTightStatements

  function ArgStats(args: seq<(NodeId, Entry)>): seq<Stat> {
    seq(|args|, i requires 0 <= i < |args| => Assignment(args[i].0, args[i].1))
  }

  const FIRST: Block := 2

  /** The entry and exit blocks, and the first block of the body with the arguments bound. */
  function FunctionStart(args: seq<(NodeId, Entry)>): Graph {
    Graph([{FIRST}, {}, {}], [[], [], ArgStats(args)])
  }

  const TOP_LEVEL: Context := Context(None, None, None)

  ghost function BuiltFunction(args: seq<(NodeId, Entry)>, body: Stmt): Graph {
    var r := BuiltStmt(body, FunctionStart(args), FIRST, TOP_LEVEL);
    EdgeFrom(r.graph, r.block, Some(EXIT))
  }

  lemma StartIsBuilt(args: seq<(NodeId, Entry)>)
    ensures var h := AddNext(Graph([{}, {}], [[], []]), ENTRY);
      Graph(h.children, h.stats[FIRST := ArgStats(args)]) == FunctionStart(args)
  {
    var none: set<Block> := {};
    var g := Graph([none, none], [[], []]);
    assert AddBlock(g).children == [none, none, none] && none + {FIRST} == {FIRST};
    assert AddNext(g, ENTRY).children == [{FIRST}, none, none];
    assert AddNext(g, ENTRY).stats == [[], [], []];
  }

  lemma FunctionRows(args: seq<(NodeId, Entry)>, body: Stmt)
    ensures var g, r := BuiltFunction(args, body), BuiltStmt(body, FunctionStart(args), FIRST, TOP_LEVEL);
      && WellFormed(g) && |g.stats| >= 3 && Start(FunctionStart(args), FIRST)
      && g.stats[ENTRY] == [] && g.children[ENTRY] == {FIRST} && FreshIn(g, EXIT)
      && ArgStats(args) <= g.stats[FIRST]
      && Kept(r.graph, g, 3, FIRST, r.block, false)
      && (r.block.Some? ==>
            && r.block.value < |r.graph.stats| <= |g.stats| && g.stats[r.block.value] == r.graph.stats[r.block.value]
            && g.children[r.block.value] == {EXIT})
  {
    var g0 := FunctionStart(args);
    var r := BuiltStmt(body, g0, FIRST, TOP_LEVEL);
    StmtGrows(body, g0, FIRST, TOP_LEVEL);
    assert g0.stats[FIRST] <= r.graph.stats[FIRST];
  }

  // ----------------------------------------------------------- from moves to paths

  ghost predicate AlwaysSafe(F: Frame, p: Point)
    requires WellFormed(F.graph)
  {
    forall n: nat :: Safe(F, n, p)
  }

  lemma MoveStaysSafe(F: Frame, p: Point, q: Point)
    requires WellFormed(F.graph) && AlwaysSafe(F, p) && Moves(F.graph, p, q)
    ensures AlwaysSafe(F, q)
  {
    forall n: nat ensures Safe(F, n, q) {
      assert Safe(F, n + 1, p);
    }
  }

  lemma {:induction false} StatsStaySafe(F: Frame, b: Block, k: nat, st: State)
    requires WellFormed(F.graph) && AlwaysSafe(F, Point(b, 0, st)) && b < |F.graph.stats| && k <= |F.graph.stats[b]|
    ensures AlwaysSafe(F, Point(b, k, ApplyAll(F.graph.stats[b][..k], st)))
  {
    if k == 0 {
      assert F.graph.stats[b][..0] == [];
    } else {
      StatsStaySafe(F, b, k - 1, st);
      assert F.graph.stats[b][..k][..k - 1] == F.graph.stats[b][..k - 1];
      MoveStaysSafe(F, Point(b, k - 1, ApplyAll(F.graph.stats[b][..k - 1], st)),
                    Point(b, k, ApplyAll(F.graph.stats[b][..k], st)));
    }
  }

  lemma {:induction false} PathStaysSafe(F: Frame, p: seq<Block>)
    requires WellFormed(F.graph) && IsPath(F.graph, p) && p[0] == ENTRY && AlwaysSafe(F, Point(ENTRY, 0, map[]))
    ensures AlwaysSafe(F, Point(p[|p| - 1], 0, PathState(F.graph, p)))
  {
    if |p| > 1 {
      var q, a, b := p[..|p| - 1], p[|p| - 2], p[|p| - 1];
      PathStaysSafe(F, q);
      var s := PathState(F.graph, q);
      StatsStaySafe(F, a, |F.graph.stats[a]|, s);
      assert F.graph.stats[a][..|F.graph.stats[a]|] == F.graph.stats[a];
      MoveStaysSafe(F, Point(a, |F.graph.stats[a]|, ApplyAll(F.graph.stats[a], s)),
                    Point(b, 0, ApplyAll(F.graph.stats[a], s)));
    }
  }

  lemma ReachedIsAllowed(F: Frame, b: Block, k: nat, st: State)
    requires WellFormed(F.graph) && AlwaysSafe(F, Point(ENTRY, 0, map[])) && ReachAt(F.graph, b, k, st)
    requires InBlock(F.graph, b, k)
    ensures StatAllowed(F, F.graph.stats[b][k], st)
  {
    var s :| ReachIn(F.graph, b, s) && st == ApplyAll(F.graph.stats[b][..k], s);
    var p :| IsPath(F.graph, p) && p[0] == ENTRY && p[|p| - 1] == b && PathState(F.graph, p) == s;
    PathStaysSafe(F, p);
    StatsStaySafe(F, b, k, s);
    assert Safe(F, 0, Point(b, k, st));
  }

  // ------------------------------------------------------------------ the function

  /** All that fair runs of the function read is told, and all that it assigns allowed. */
  ghost predicate RunsTold(F: Frame, args: seq<(NodeId, Entry)>, body: Stmt, law: Law) {
    && F.graph == BuiltFunction(args, body)
    && (forall a <- args :: a.0 in F.lhs) && StmtIn(body, F.lhs)
    && (law.Any? || Plain(body, law)) && (law.Unassigned? ==> Blunt(F))
    && forall o :: Fair(o, LaxOf(law)) ==> Told(F, RunFunction(args, body, o).events)
  }

  lemma FunctionIsSafe(F: Frame, args: seq<(NodeId, Entry)>, body: Stmt, law: Law)
    requires RunsTold(F, args, body, law)
    ensures WellFormed(F.graph) && AlwaysSafe(F, Point(ENTRY, 0, map[]))
  {
    FunctionRows(args, body);
    forall n: nat ensures Safe(F, n, Point(ENTRY, 0, map[])) {
      BodyIsSafe(F, args, body, law, n);
      ArgsAreSafe(F, args, body, n, 0);
      LeaveEdges(F, n, ENTRY, map[]);
    }
  }

  lemma BodyIsSafe(F: Frame, args: seq<(NodeId, Entry)>, body: Stmt, law: Law, n: nat)
    requires RunsTold(F, args, body, law)
    ensures WellFormed(F.graph) && Safe(F, n, Point(FIRST, |args|, ArgState(args)))
  {
    FunctionRows(args, body);
    var g0 := FunctionStart(args);
    var r := BuiltStmt(body, g0, FIRST, TOP_LEVEL);
    forall o | Fair(o, LaxOf(law)) ensures Ends(F, n, r.graph, r.block, TOP_LEVEL, Exec(body, ArgState(args), o)) {
      var x := Exec(body, ArgState(args), o);
      assert x == RunFunction(args, body, o);
      DeadEnd(F, n, EXIT, x.state);
      if x.outcome == Normal && r.block.Some? {
        LeaveEdges(F, n, r.block.value, x.state);
      }
    }
    TightStmt(body, g0, FIRST, TOP_LEVEL, F, n, ArgState(args), law);
  }

  lemma {:induction false} ArgsAreSafe(F: Frame, args: seq<(NodeId, Entry)>, body: Stmt, n: nat, k: nat)
    requires F.graph == BuiltFunction(args, body) && WellFormed(F.graph) && |F.graph.stats| >= 3 && k <= |args|
    requires ArgStats(args) <= F.graph.stats[FIRST] && forall a <- args :: a.0 in F.lhs
    requires Safe(F, n, Point(FIRST, |args|, ArgState(args)))
    ensures Safe(F, n, Point(FIRST, k, ArgState(args[..k])))
    decreases |args| - k
  {
    if k == |args| {
      assert args[..k] == args;
    } else {
      ArgsAreSafe(F, args, body, n, k + 1);
      assert args[..k + 1][..k] == args[..k];
      assert F.graph.stats[FIRST][k] == ArgStats(args)[k] == Assignment(args[k].0, args[k].1);
      assert args[k] in args;
      StepStat(F, n, FIRST, k, ArgState(args[..k]));
    }
  }

  // ------------------------------------------------------------------- the theorems

  /** What some run reads. */
  ghost predicate SomeRunReads(args: seq<(NodeId, Entry)>, body: Stmt, ev: Event, lax: bool) {
    exists o :: Fair(o, lax) && ev in RunFunction(args, body, o).events
  }

  predicate IsOther(m: NodeId, n: NodeId) {
    m != n
  }

  ghost function OtherNodes(n: NodeId): iset<NodeId> {
    iset m: NodeId | IsOther(m, n)
  }

  predicate IsNode(m: NodeId) {
    true
  }

  ghost function AllNodes(): iset<NodeId> {
    iset m: NodeId | IsNode(m)
  }

  /** A name that a path of the graph reaches in some state is read in that state by a run;
      by a run without liberties if the body has none of the constructs that need them. */
  lemma PathsAreRuns(args: seq<(NodeId, Entry)>, body: Stmt, ev: Event, law: Law)
    requires law.Any? || (law.Real? && Plain(body, law))
    requires CanRead(Reached(BuiltFunction(args, body)), ev.node, ev.entry, ev.state)
    ensures SomeRunReads(args, body, ev, LaxOf(law))
  {
    var g := BuiltFunction(args, body);
    var told := iset x: Event | SomeRunReads(args, body, x, LaxOf(law));
    var F := Frame(g, told, AllNodes());
    AllIn(body, F.lhs);
    assert RunsTold(F, args, body, law);
    FunctionIsSafe(F, args, body, law);
    var b: Block, k: nat :|
      InBlock(g, b, k) && g.stats[b][k] == Reference(ev.node, ev.entry) && At(Reached(g), b, k, ev.state);
    ReachedIsAllowed(F, b, k, ev.state);
  }

  /** The graph has every read of every run, and no other: with liberties taken or, if the
      body has none of the constructs that need them, without. */
  ghost predicate GraphIsRuns(g: Graph, args: seq<(NodeId, Entry)>, body: Stmt, lax: bool) {
    forall ev: Event :: CanRead(Reached(g), ev.node, ev.entry, ev.state) <==> SomeRunReads(args, body, ev, lax)
  }

  /** Every read of a run happens at a point that a path of the graph reaches in the very
      state of the run. */
  ghost predicate GraphFollows(g: Graph, args: seq<(NodeId, Entry)>, body: Stmt) {
    forall o :: CanReadAll(Reached(g), RunFunction(args, body, o).events)
  }

  lemma GraphIsExact(args: seq<(NodeId, Entry)>, body: Stmt)
    requires GraphFollows(BuiltFunction(args, body), args, body)
    ensures GraphIsRuns(BuiltFunction(args, body), args, body, true)
    ensures Plain(body, Real) ==> GraphIsRuns(BuiltFunction(args, body), args, body, false)
  {
    var g := BuiltFunction(args, body);
    forall ev: Event, lax | lax || Plain(body, Real)
      ensures CanRead(Reached(g), ev.node, ev.entry, ev.state) <==> SomeRunReads(args, body, ev, lax)
    {
      if CanRead(Reached(g), ev.node, ev.entry, ev.state) {
        PathsAreRuns(args, body, ev, if lax then Any else Real);
      }
      if SomeRunReads(args, body, ev, lax) {
        var o :| Fair(o, lax) && ev in RunFunction(args, body, o).events;
        assert CanReadAll(Reached(g), RunFunction(args, body, o).events);
      }
    }
  }

  /** The node is read but is no left-hand side. */
  ghost predicate OnlyRead(args: seq<(NodeId, Entry)>, body: Stmt, n: NodeId) {
    (forall a <- args :: a.0 != n) && StmtIn(body, OtherNodes(n))
  }

  /** Some run reads the node while its entry is unassigned. */
  ghost predicate ReadUnassigned(args: seq<(NodeId, Entry)>, body: Stmt, n: NodeId, lax: bool) {
    exists ev: Event :: ev.node == n && ev.entry !in ev.state && SomeRunReads(args, body, ev, lax)
  }

  ghost predicate ReadAssigned(args: seq<(NodeId, Entry)>, body: Stmt, n: NodeId, lax: bool) {
    exists ev: Event :: ev.node == n && ev.entry in ev.state && SomeRunReads(args, body, ev, lax)
  }

  /** What stands at a point about a node that is only read is read there by some run. */
  lemma StatIsRead(args: seq<(NodeId, Entry)>, body: Stmt, n: NodeId, b: Block, k: nat, st: State)
    requires var g := BuiltFunction(args, body); About(g, b, k, n) && ReachAt(g, b, k, st)
    requires OnlyRead(args, body, n)
    ensures SomeRunReads(args, body, Read(n, BuiltFunction(args, body).stats[b][k].entry, st), true)
  {
    var g := BuiltFunction(args, body);
    var told := iset x: Event | SomeRunReads(args, body, x, true);
    var F := Frame(g, told, OtherNodes(n));
    assert RunsTold(F, args, body, Any);
    FunctionIsSafe(F, args, body, Any);
    ReachedIsAllowed(F, b, k, st);
  }

  /** Where a path of the graph leads to a name unassigned, some run reads it unassigned. */
  lemma UnassignedIsRead(args: seq<(NodeId, Entry)>, body: Stmt, n: NodeId)
    requires Plain(body, Unassigned)
    requires OnlyRead(args, body, n) && CanBeUnassigned(BuiltFunction(args, body), n)
    ensures ReadUnassigned(args, body, n, false)
  {
    var g := BuiltFunction(args, body);
    var told := iset x: Event | x.entry in x.state || UnassignedTold(args, body, x);
    var F := Frame(g, told, OtherNodes(n));
    UnassignedFrame(F, args, body, n);
    FunctionIsSafe(F, args, body, Unassigned);
    var b: Block, k: nat, st: State :| About(g, b, k, n) && UnassignedAt(g, b, k, st);
    ReachedIsAllowed(F, b, k, st);
    assert UnassignedTold(args, body, Read(n, g.stats[b][k].entry, st));
  }

  /** A run without liberties reads the node unassigned, in this state or in another. */
  ghost predicate UnassignedTold(args: seq<(NodeId, Entry)>, body: Stmt, ev: Event) {
    exists st: State :: ev.entry !in st && SomeRunReads(args, body, Read(ev.node, ev.entry, st), false)
  }

  lemma UnassignedFrame(F: Frame, args: seq<(NodeId, Entry)>, body: Stmt, n: NodeId)
    requires Plain(body, Unassigned) && OnlyRead(args, body, n) && F.graph == BuiltFunction(args, body)
    requires F.told == (iset x: Event | x.entry in x.state || UnassignedTold(args, body, x))
    requires F.lhs == OtherNodes(n)
    ensures RunsTold(F, args, body, Unassigned)
  {
    forall o | Fair(o, false) ensures Told(F, RunFunction(args, body, o).events) {
      forall ev | ev in RunFunction(args, body, o).events ensures ev in F.told {
        assert SomeRunReads(args, body, Read(ev.node, ev.entry, ev.state), false);
        assert ev.entry !in ev.state ==> UnassignedTold(args, body, ev);
      }
    }
    ToldIsBlunt(F, args, body);
  }

  lemma ToldIsBlunt(F: Frame, args: seq<(NodeId, Entry)>, body: Stmt)
    requires F.told == (iset x: Event | x.entry in x.state || UnassignedTold(args, body, x))
    ensures Blunt(F)
  {
    forall n: NodeId, e: Entry, st: State, st': State | Read(n, e, st) in F.told && e !in st && e !in st'
      ensures Read(n, e, st') in F.told
    {
      assert UnassignedTold(args, body, Read(n, e, st));
    }
  }

  /** A path leads to a name unassigned exactly if some run reads it unassigned. */
  lemma UnassignedExactly(args: seq<(NodeId, Entry)>, body: Stmt, n: NodeId)
    requires OnlyRead(args, body, n) && CanBeUnassigned(BuiltFunction(args, body), n)
    ensures ReadUnassigned(args, body, n, true)
  {
    var g := BuiltFunction(args, body);
    var b: Block, k: nat, st: State :| About(g, b, k, n) && UnassignedAt(g, b, k, st);
    StatIsRead(args, body, n, b, k, st);
    assert Read(n, g.stats[b][k].entry, st).node == n;
  }

  lemma AssignedExactly(args: seq<(NodeId, Entry)>, body: Stmt, n: NodeId)
    requires OnlyRead(args, body, n) && CanBeAssigned(BuiltFunction(args, body), n)
    ensures ReadAssigned(args, body, n, true)
  {
    var g := BuiltFunction(args, body);
    var b: Block, k: nat, st: State :| About(g, b, k, n) && AssignedAt(g, b, k, st);
    StatIsRead(args, body, n, b, k, st);
    assert Read(n, g.stats[b][k].entry, st).node == n;
  }
}

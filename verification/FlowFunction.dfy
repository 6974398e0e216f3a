/** The analysis of a whole function, and what it guarantees about its runs. */
module FlowFunction {
  import opened Wrappers
  import opened FlowSyntax
  import opened FlowGraph
  import opened FlowSimulation
  import opened FlowContraction
  import opened FlowDataflow
  import opened ControlFlow
  import opened FlowNormalize
  import opened FlowReaching
  import opened FlowCheck
  import opened FlowExact
  import opened FlowBuilt
  import opened FlowAssigned
  import opened FlowDefinite
  import opened FlowPaths

  // ---------------------------------------------------------------- construction

  lemma {:induction false} ArgStatsApply(args: seq<(NodeId, Entry)>)
    ensures ApplyAll(ArgStats(args), map[]) == ArgState(args)
  {
    if args != [] {
      assert ArgStats(args)[..|args| - 1] == ArgStats(args[..|args| - 1]);
      ArgStatsApply(args[..|args| - 1]);
    }
  }

  lemma SecondBlock(g: Graph, b: Block)
    requires WellFormed(g) && ENTRY < b < |g.stats| && g.stats[ENTRY] == [] && b in g.children[ENTRY]
    ensures ReachIn(g, b, map[])
  {
    assert IsPath(g, [ENTRY]) && PathState(g, [ENTRY]) == map[];
    ReachStep(g, ENTRY, b, map[]);
  }

  /** The first block of the body is entered from the entry block. */
  lemma BodyStart(g: Graph, b: Block, args: seq<(NodeId, Entry)>)
    requires WellFormed(g) && ENTRY < b < |g.stats| && g.stats[ENTRY] == [] && b in g.children[ENTRY]
    requires ArgStats(args) <= g.stats[b]
    ensures At(Reached(g), b, |args|, ArgState(args))
  {
    SecondBlock(g, b);
    ArgStatsApply(args);
    assert g.stats[b][..|args|] == ArgStats(args);
    assert ReachAt(g, b, |args|, ArgState(args));
  }

  lemma RunFollows(g: Graph, W: World, s: Stmt, b: Block, k: nat, end: Option<Block>, ctx: Context, st: State,
                   o: seq<Choice>, r: Result)
    requires Sim(g, s, b, k, end, ctx) && Fits(g, W) && At(W, b, k, st) && Covered(W, ctx, st) && r == Exec(s, st, o)
    ensures CanReadAll(W, r.events)
  {
    assert Follows(g, W, end, ctx, r);
  }

  lemma BodyRuns(g: Graph, W: World, args: seq<(NodeId, Entry)>, body: Stmt, b: Block, end: Option<Block>, ctx: Context)
    requires Fits(g, W) && Sim(g, body, b, |args|, end, ctx) && ctx.handler.None?
    requires At(W, b, |args|, ArgState(args))
    ensures forall o :: CanReadAll(W, RunFunction(args, body, o).events)
  {
    forall o ensures CanReadAll(W, RunFunction(args, body, o).events) {
      var r := RunFunction(args, body, o);
      RunFollows(g, W, body, b, |args|, end, ctx, ArgState(args), o, r);
    }
  }

  lemma BodyFollows(g1: Graph, g: Graph, args: seq<(NodeId, Entry)>, body: Stmt, b: Block, end: Option<Block>,
                    ctx: Context)
    requires Ext(g1, g) && Sim(g1, body, b, |args|, end, ctx) && ctx.handler.None?
    requires ENTRY < b < |g.stats| && g.stats[ENTRY] == [] && b in g.children[ENTRY] && ArgStats(args) <= g.stats[b]
    ensures GraphFollows(g, args, body)
  {
    ReachedIsClosed(g);
    BodyStart(g, b, args);
    BodyRuns(g1, Reached(g), args, body, b, end, ctx);
  }

  method MarkArguments(flow: ControlFlow, args: seq<(NodeId, Entry)>)
    requires flow.Ready() && flow.stats[flow.block.value] == []
    modifies flow`stats, flow`gen, flow`entries
    ensures flow.Ready() && flow.block == old(flow.block)
    ensures flow.stats == old(flow.stats)[flow.block.value := ArgStats(args)]
  {
    ghost var b, was := flow.block.value, flow.stats;
    assert ArgStats(args[..0]) == [];
    for i := 0 to |args|
      invariant flow.Ready() && flow.block == Some(b)
      invariant flow.stats == was[b := ArgStats(args[..i])]
    {
      flow.MarkAssignment(args[i].0, args[i].1);
      assert ArgStats(args[..i]) + [Assignment(args[i].0, args[i].1)] == ArgStats(args[..i + 1]);
    }
    assert args[..|args|] == args;
  }

  /** Builds the graph of a function: it is just the one that belongs to the function. */
  method Build(flow: ControlFlow, args: seq<(NodeId, Entry)>, body: Stmt)
    requires flow.Valid() && flow.Snap() == Graph([{}, {}], [[], []]) && flow.block == Some(ENTRY)
    requires flow.loops == [] && flow.exceptions == [] && Supported(body, false, false)
    modifies flow
    ensures flow.Valid() && flow.stats[ENTRY] == [] && GraphFollows(flow.Snap(), args, body)
    ensures flow.Snap() == BuiltFunction(args, body) && GraphIsRuns(flow.Snap(), args, body, true)
    ensures Plain(body, Real) ==> GraphIsRuns(flow.Snap(), args, body, false)
  {
    flow.NextBlock(None);
    MarkArguments(flow, args);
    StartIsBuilt(args);
    BuildBody(flow, args, body);
    GraphIsExact(args, body);
  }

  /** From the block with the arguments on. */
  method BuildBody(flow: ControlFlow, ghost args: seq<(NodeId, Entry)>, body: Stmt)
    requires flow.Ready() && flow.loops == [] && flow.exceptions == [] && Supported(body, false, false)
    requires flow.stats[ENTRY] == [] && flow.block.value in flow.children[ENTRY]
      && flow.stats[flow.block.value] == ArgStats(args)
    modifies flow
    ensures flow.Valid() && flow.stats[ENTRY] == [] && GraphFollows(flow.Snap(), args, body)
    ensures var r := BuiltStmt(body, old(flow.Snap()), old(flow.block.value), TOP_LEVEL);
      flow.Snap() == EdgeFrom(r.graph, r.block, Some(EXIT))
  {
    var b := flow.block.value;
    ghost var g0, ctx := flow.Snap(), flow.Ctx();
    flow.VisitStmt(body, ctx);
    ghost var g1, end := flow.Snap(), flow.block;
    flow.LinkTo(Some(EXIT));
    EndShape(g0, g1, b, end);
    BodyFollows(g1, flow.Snap(), args, body, b, end, ctx);
  }

  lemma EndShape(g0: Graph, g1: Graph, b: Block, end: Option<Block>)
    requires Visited(g0, g1, b, end) && |g0.stats| >= 2
    ensures end.Some? ==> Ext(g1, AddEdge(g1, end.value, EXIT))
    ensures Ext(g1, g1)
  {
    if end.Some? {
      AttachedByEdge(g1, end.value, EXIT);
    }
  }

  // ------------------------------------------------------------ the whole analysis

  /** What is recorded for a name covers what the name holds when it is read: the
      assignment that was last executed, or that it is unassigned. */
  predicate Explains(state: set<CfDef>, ev: Event) {
    if ev.entry in ev.state then exists c <- state :: c.CfAssignment? && c.lhs == ev.state[ev.entry]
    else MaybeNull(state)
  }

  /** What is left of the graph has edges between its blocks only. */
  lemma ContractedEdges(flow: ControlFlow, g: Graph, V: set<Block>, R: set<Block>)
    requires flow.Rows() && Contracting(g, flow.Snap(), V, R) && flow.blocks == V - R - {ENTRY}
    ensures EdgesInside(flow)
  {
    var h := flow.Snap();
    forall b | b in flow.blocks ensures ENTRY < b < |flow.stats| {
      ReachableInGraph(g, b);
    }
    forall b: Block, c: Block {:trigger c in h.children[b]} | b < |h.children| && c in h.children[b]
      ensures c in flow.blocks && (b in flow.blocks || b == ENTRY)
    {
      ParentOf(h, b, ENTRY);
      assert Linked(h, b, c);
      ReachableInGraph(g, b);
      var p :| ViaPath(g, R, p) && p[0] == b && p[|p| - 1] == c;
      ViaReachable(g, p);
    }
  }

  lemma {:induction false} ViaReachable(g: Graph, p: seq<Block>)
    requires WellFormed(g) && IsPath(g, p) && Reachable(g, p[0])
    ensures Reachable(g, p[|p| - 1])
  {
    if |p| > 1 {
      ViaReachable(g, p[..|p| - 1]);
      ReachableStep(g, p[|p| - 2], p[|p| - 1]);
    }
  }

  /** A read point of the whole graph lies in a block that is still there, and is entered
      there in the same states. */
  lemma ReadPointIsKept(g: Graph, h: Graph, V: set<Block>, R: set<Block>, ev: Event)
    returns (b: Block, k: nat, s: State)
    requires Contracted(g, h, V, R) && CanRead(Reached(g), ev.node, ev.entry, ev.state) && g.stats[ENTRY] == []
    requires forall b <- R :: EmptyBlock(g, b)
    ensures b in V - R - {ENTRY} && ReachIn(h, b, s)
    ensures InBlock(h, b, k) && h.stats[b][k] == Reference(ev.node, ev.entry)
    ensures ev.state == ApplyAll(h.stats[b][..k], s)
  {
    b, k :| InBlock(g, b, k) && g.stats[b][k] == Reference(ev.node, ev.entry) && At(Reached(g), b, k, ev.state);
    assert ReachAt(g, b, k, ev.state);
    s :| ReachIn(g, b, s) && ev.state == ApplyAll(g.stats[b][..k], s);
    ReachInReachable(g, b, s);
    ContractionKeepsStates(g, h, V, R, b, s);
  }

  /** Among the definitions that come in at a block is one that accounts for the entry. */
  lemma EntryIsAccounted(q: Problem, ins: seq<set<nat>>, outs: seq<set<nat>>, b: Block, s: State, e: Entry)
    returns (d: Def)
    requires WellPosed(q) && Solved(q, ins, outs) && b in q.blocks && ReachIn(q.g, b, s)
    requires q.g.stats[ENTRY] == []
    requires Start(e) in q.owners && forall c <- q.blocks, k: nat :: IsDef(q.g, Stat(c, k)) ==> Stat(c, k) in q.owners
    ensures d in Decode(q.owners, ins[b]) && IsDef(q.g, d) && EntryOf(q.g, d) == e && Accounts(q.g, d, e, s)
  {
    var p :| IsPath(q.g, p) && p[0] == ENTRY && p[|p| - 1] == b && PathState(q.g, p) == s;
    forall a: Block, c: Block {:trigger c in q.g.children[a]} | a < |q.g.children| && c in q.g.children[a]
      ensures c != ENTRY && c in q.blocks && (a in q.blocks || a == ENTRY)
    {
      assert a in q.parents[c];
    }
    d := PathAccounts(q.g, p, e);
    var r :| Carries(q.g, d, r) && r[|r| - 1] == b;
    assert r[1] in q.g.children[r[0]];
    assert d in q.owners;
    var i :| 0 <= i < |q.owners| && q.owners[i] == d;
    assert i in ins[b];
  }

  lemma ReadIsExplained(flow: ControlFlow, owners: seq<Def>, cf: map<NodeId, set<CfDef>>, g: Graph, V: set<Block>,
                        R: set<Block>, ev: Event)
    requires Initialized(flow, owners) && WellPosed(ProblemOf(flow, owners))
    requires Solved(ProblemOf(flow, owners), flow.iInput, flow.iOutput)
    requires Recorded(flow, owners, flow.blocks, cf)
    requires Contracted(g, flow.Snap(), V, R) && flow.blocks == V - R - {ENTRY} && g.stats[ENTRY] == []
    requires CanRead(Reached(g), ev.node, ev.entry, ev.state)
    ensures Explains(CfState(cf, ev.node), ev)
  {
    var h := flow.Snap();
    var b, k, s := ReadPointIsKept(g, h, V, R, ev);
    OwnersAreAll(flow, owners, b, k);
    var d := EntryIsAccounted(ProblemOf(flow, owners), flow.iInput, flow.iOutput, b, s, ev.entry);
    var entering := Decode(owners, flow.iInput[b]);
    assert AllDefs(h, entering);
    var d' := ReplayAccounts(h, b, k, entering, ev.entry, s, d);
    var c := CfOf(h, d');
    assert Describes(h, Replay(h, b, k, entering), ev.entry, c);
    assert Seen(h, b, k, entering, ev.node, c);
    assert SeenIn(flow, owners, flow.blocks, ev.node, c);
  }

  lemma NothingLeadsToEntry(g: Graph)
    requires WellFormed(g) && ENTRY < |g.children| && ParentsOf(g.children)[ENTRY] == {}
    ensures forall b: Block, c: Block {:trigger c in g.children[b]} :: b < |g.children| && c in g.children[b] ==>
      c != ENTRY
  {
    forall b: Block, c: Block {:trigger c in g.children[b]} | b < |g.children| && c in g.children[b]
      ensures c != ENTRY
    {
      ChildrenAreNotEntry(g, b);
    }
  }

  /** The record covers what names hold in the runs of the function, and is that of the paths
      of its graph `g`. */
  ghost predicate Analysed(g: Graph, args: seq<(NodeId, Entry)>, body: Stmt, cf: map<NodeId, set<CfDef>>) {
    && GraphFollows(g, args, body) && ExactRecord(g, cf)
    && (forall n :: MaybeNull(CfState(cf, n)) <==> CanBeUnassigned(g, n))
    && (forall n :: IsNull(CfState(cf, n)) <==> CanBeUnassigned(g, n) && !CanBeAssigned(g, n))
    && (forall o :: ExplainsAll(cf, RunFunction(args, body, o).events))
  }

  /** A name is marked as possibly unassigned exactly if some run reads it unassigned. */
  ghost predicate MarkedExactly(args: seq<(NodeId, Entry)>, body: Stmt, cf: map<NodeId, set<CfDef>>, lax: bool) {
    forall n | OnlyRead(args, body, n) :: MaybeNull(CfState(cf, n)) <==> ReadUnassigned(args, body, n, lax)
  }

  /** And as unassigned exactly if some run reads it unassigned and none reads it assigned. */
  ghost predicate NullExactly(args: seq<(NodeId, Entry)>, body: Stmt, cf: map<NodeId, set<CfDef>>) {
    forall n | OnlyRead(args, body, n) ::
      IsNull(CfState(cf, n)) <==> ReadUnassigned(args, body, n, true) && !ReadAssigned(args, body, n, true)
  }

  /** By its text alone: the node is a name of `e` that stands only where `e` has been
      assigned, on the normal way or on that of an exception. */
  ghost predicate DefinitelyAssigned(args: seq<(NodeId, Entry)>, body: Stmt, n: NodeId, e: Entry) {
    OnlyRead(args, body, n) && !Deletes(body, e) && Defined(body, n, e, e in ArgState(args))
  }

  ghost predicate DefiniteIsUnmarked(args: seq<(NodeId, Entry)>, body: Stmt, cf: map<NodeId, set<CfDef>>) {
    forall n, e | DefinitelyAssigned(args, body, n, e) :: !MaybeNull(CfState(cf, n))
  }

  /** The whole analysis of a function.  What it records for a name covers what the name
      holds at every read in every run, an exception anywhere in the run included; and it is
      no more than the paths of the function's graph carry to the name.  A name is marked as
      possibly unassigned exactly if some run reads it unassigned: a run without liberties,
      unless the body has one of the constructs that `Plain` excludes.  In every body, a name
      that is definitely assigned is not marked. */
  method AnalyseFunction(locals: set<Entry>, args: seq<(NodeId, Entry)>, body: Stmt)
    returns (cf: map<NodeId, set<CfDef>>)
    requires Supported(body, false, false)
    ensures Analysed(BuiltFunction(args, body), args, body, cf)
    ensures MarkedExactly(args, body, cf, true) && NullExactly(args, body, cf)
    ensures Plain(body, Unassigned) ==> MarkedExactly(args, body, cf, false)
    ensures DefiniteIsUnmarked(args, body, cf)
    ensures forall o, ev :: ev in RunFunction(args, body, o).events ==>
      && (!MaybeNull(CfState(cf, ev.node)) ==> ev.entry in ev.state)
      && (IsNull(CfState(cf, ev.node)) ==> ev.entry !in ev.state)
  {
    var flow := new ControlFlow();
    flow.entries := locals;
    Build(flow, args, body);
    cf := AnalyseBuilt(flow, args, body);
  }

  /** The analysis of the function's graph. */
  method AnalyseBuilt(flow: ControlFlow, ghost args: seq<(NodeId, Entry)>, ghost body: Stmt)
    returns (cf: map<NodeId, set<CfDef>>)
    requires flow.Valid() && flow.stats[ENTRY] == [] && flow.Snap() == BuiltFunction(args, body)
    requires GraphFollows(flow.Snap(), args, body)
    modifies flow
    ensures Analysed(BuiltFunction(args, body), args, body, cf)
    ensures MarkedExactly(args, body, cf, true) && NullExactly(args, body, cf)
    ensures Plain(body, Unassigned) ==> MarkedExactly(args, body, cf, false)
    ensures DefiniteIsUnmarked(args, body, cf)
    ensures forall o, ev :: ev in RunFunction(args, body, o).events ==>
      && (!MaybeNull(CfState(cf, ev.node)) ==> ev.entry in ev.state)
      && (IsNull(CfState(cf, ev.node)) ==> ev.entry !in ev.state)
  {
    cf := AnalyseGraph(flow, args, body);
    MarksAreExact(args, body, cf);
  }

  lemma MarksAreExact(args: seq<(NodeId, Entry)>, body: Stmt, cf: map<NodeId, set<CfDef>>)
    requires Analysed(BuiltFunction(args, body), args, body, cf)
    ensures MarkedExactly(args, body, cf, true) && NullExactly(args, body, cf)
    ensures Plain(body, Unassigned) ==> MarkedExactly(args, body, cf, false)
    ensures DefiniteIsUnmarked(args, body, cf)
  {
    var g := BuiltFunction(args, body);
    forall n, lax | OnlyRead(args, body, n) && (lax || Plain(body, Unassigned))
      ensures MaybeNull(CfState(cf, n)) <==> ReadUnassigned(args, body, n, lax)
    {
      if CanBeUnassigned(g, n) {
        if lax {
          UnassignedExactly(args, body, n);
        } else {
          UnassignedIsRead(args, body, n);
        }
      }
      if ReadUnassigned(args, body, n, lax) {
        ReadIsMarked(args, body, cf, n, lax);
      }
    }
    forall n, e | DefinitelyAssigned(args, body, n, e) ensures !MaybeNull(CfState(cf, n)) {
      DefiniteIsAssigned(args, body, n, e);
    }
    forall n | OnlyRead(args, body, n)
      ensures CanBeAssigned(g, n) <==> ReadAssigned(args, body, n, true)
    {
      if CanBeAssigned(g, n) {
        AssignedExactly(args, body, n);
      }
      if ReadAssigned(args, body, n, true) {
        ReadIsReached(args, body, n);
      }
    }
  }

  /** No run reads unassigned what is definitely assigned. */
  lemma DefiniteIsAssigned(args: seq<(NodeId, Entry)>, body: Stmt, n: NodeId, e: Entry)
    requires DefinitelyAssigned(args, body, n, e)
    ensures !ReadUnassigned(args, body, n, true)
  {
    forall ev: Event | ev.node == n && SomeRunReads(args, body, ev, true) ensures ev.entry in ev.state {
      var o :| Fair(o, true) && ev in RunFunction(args, body, o).events;
      ExecDefined(body, n, e, e in ArgState(args), ArgState(args), o);
    }
  }

  lemma ReadIsMarked(args: seq<(NodeId, Entry)>, body: Stmt, cf: map<NodeId, set<CfDef>>, n: NodeId, lax: bool)
    requires Analysed(BuiltFunction(args, body), args, body, cf) && ReadUnassigned(args, body, n, lax)
    ensures MaybeNull(CfState(cf, n))
  {
    var ev: Event :| ev.node == n && ev.entry !in ev.state && SomeRunReads(args, body, ev, lax);
    var o :| Fair(o, lax) && ev in RunFunction(args, body, o).events;
    assert ExplainsAll(cf, RunFunction(args, body, o).events);
    assert Explains(CfState(cf, ev.node), ev);
  }

  /** What a run reads assigned a path of the graph reaches assigned. */
  lemma ReadIsReached(args: seq<(NodeId, Entry)>, body: Stmt, n: NodeId)
    requires GraphFollows(BuiltFunction(args, body), args, body) && ReadAssigned(args, body, n, true)
    ensures CanBeAssigned(BuiltFunction(args, body), n)
  {
    var g := BuiltFunction(args, body);
    var ev: Event :| ev.node == n && ev.entry in ev.state && SomeRunReads(args, body, ev, true);
    var o :| Fair(o, true) && ev in RunFunction(args, body, o).events;
    assert CanReadAll(Reached(g), RunFunction(args, body, o).events);
    var b: Block, k: nat :|
      InBlock(g, b, k) && g.stats[b][k] == Reference(ev.node, ev.entry) && At(Reached(g), b, k, ev.state);
    var s :| ReachIn(g, b, s) && ev.state == ApplyAll(g.stats[b][..k], s);
    ReachInReachable(g, b, s);
    assert About(g, b, k, n) && AssignedAt(g, b, k, ev.state);
  }

  /** The analysis of a graph that has been built. */
  method AnalyseGraph(flow: ControlFlow, ghost args: seq<(NodeId, Entry)>, ghost body: Stmt)
    returns (cf: map<NodeId, set<CfDef>>)
    requires flow.Valid() && flow.stats[ENTRY] == [] && GraphFollows(flow.Snap(), args, body)
    modifies flow
    ensures Analysed(old(flow.Snap()), args, body, cf)
  {
    ghost var g := flow.Snap();
    NothingLeadsToEntry(g);
    ghost var V, R := Normalize(flow);
    ContractedEdges(flow, g, V, R);
    ghost var h := flow.Snap();
    ghost var owners;
    cf, owners := CheckDefinitions(flow);
    assert flow.Snap() == h;
    RecordIsExact(flow, owners, cf, g, V, R);
    ReadsAreExplained(flow, owners, cf, g, V, R, args, body);
    forall n
      ensures MaybeNull(CfState(cf, n)) <==> CanBeUnassigned(g, n)
      ensures IsNull(CfState(cf, n)) <==> CanBeUnassigned(g, n) && !CanBeAssigned(g, n)
    {
      MaybeNullIsExact(g, cf, n);
      IsNullIsExact(g, cf, n);
    }
  }

  lemma ReadsAreExplained(flow: ControlFlow, owners: seq<Def>, cf: map<NodeId, set<CfDef>>, g: Graph, V: set<Block>,
                          R: set<Block>, args: seq<(NodeId, Entry)>, body: Stmt)
    requires Initialized(flow, owners) && WellPosed(ProblemOf(flow, owners))
    requires Solved(ProblemOf(flow, owners), flow.iInput, flow.iOutput)
    requires Recorded(flow, owners, flow.blocks, cf)
    requires Contracted(g, flow.Snap(), V, R) && flow.blocks == V - R - {ENTRY} && g.stats[ENTRY] == []
    requires GraphFollows(g, args, body)
    ensures forall o :: ExplainsAll(cf, RunFunction(args, body, o).events)
  {
    forall o ensures ExplainsAll(cf, RunFunction(args, body, o).events) {
      forall ev | ev in RunFunction(args, body, o).events ensures Explains(CfState(cf, ev.node), ev) {
        assert CanReadAll(Reached(g), RunFunction(args, body, o).events);
        ReadIsExplained(flow, owners, cf, g, V, R, ev);
      }
    }
  }

  ghost predicate ExplainsAll(cf: map<NodeId, set<CfDef>>, events: seq<Event>) {
    forall ev <- events :: Explains(CfState(cf, ev.node), ev)
  }
}

/** The graph has no path too many, statement by statement.

    A point of the complete graph is safe for `n` moves if nothing stands at any point within
    that many moves that a run could not be told to do (`FlowTight.Safe`).  `TightStmt` says:
    if every run of a statement, from a state, does only what it may do and ends where the
    graph is safe in the state that it ends in, then the graph is safe where the statement
    was visited from.  The proof for a compound statement takes its parts from the last to
    the first: the blocks behind it are safe by assumption, so those of its last part are,
    and so on to the first.  For a part in the middle, any decisions may stand behind those
    that the parts before it used up (`FlowRuns`), so that all its runs are parts of runs of
    the whole.  Loops go by induction on the number of moves that are left when their head is
    reached again. */
module FlowTightStatements {
  import opened Wrappers
  import opened FlowSyntax
  import opened FlowGraph
  import opened FlowSimulation
  import opened FlowStatements
  import opened FlowShapes
  import opened FlowBuilt
  import opened FlowGrowth
  import opened FlowRuns
  import opened FlowAssigned
  import opened FlowTight

  // -------------------------------------------------------------------- targets

  /** An evaluation from the end of `b`, all of whose runs end safely. */
  ghost predicate EvalEnds(F: Frame, n: nat, p: Place, ctx: Context, e: Expr, st: State, law: Law)
    requires WellFormed(F.graph)
  {
    forall o :: Fair(o, LaxOf(law)) ==> Ends(F, n, p.graph, Some(p.block), ctx, Eval(e, st, o))
  }

  lemma EvalIsPlaced(e: Expr, ctx: Context, F: Frame, n: nat, p: Place, st: State, law: Law)
    requires WellFormed(F.graph) && EvalEnds(F, n, p, ctx, e, st, law)
    ensures Looked(F, e, st) && SafeEnd(F, n, p.graph, p.block, st)
  {
    forall c: Choice | c.throws && !c.lax ensures Told(F, Eval(e, st, [c]).events) {
      assert Fair([c], LaxOf(law));
      assert Ends(F, n, p.graph, Some(p.block), ctx, Eval(e, st, [c]));
    }
    LookedByRuns(F, e, st);
    var o := [Choice([], false, false, false)];
    assert Fair(o, LaxOf(law));
    assert Ends(F, n, p.graph, Some(p.block), ctx, Eval(e, st, o));
  }

  lemma TightEval(e: Expr, g: Graph, b: Block, ctx: Context, F: Frame, n: nat, st: State, law: Law)
    requires WellFormed(F.graph) && Start(g, b)
    requires var p := BuiltExpr(e, g, b);
      Kept(p.graph, F.graph, |g.stats|, b, Some(p.block), false) && EvalEnds(F, n, p, ctx, e, st, law)
    ensures SafeEnd(F, n, g, b, st)
  {
    var p := BuiltExpr(e, g, b);
    EvalIsPlaced(e, ctx, F, n, p, st, law);
    WholeIsPlaced(e, g, b, F, n, st);
    TightExpr(e, g, b, F, n, st);
  }

  /** An expression whose blocks are all complete, the first one included. */
  lemma WholeIsPlaced(e: Expr, g: Graph, b: Block, F: Frame, n: nat, st: State)
    requires WellFormed(F.graph) && Start(g, b) && Looked(F, e, st)
    requires var p := BuiltExpr(e, g, b);
      Kept(p.graph, F.graph, |g.stats|, b, Some(p.block), false) && SafeEnd(F, n, p.graph, p.block, st)
    ensures ExprPlaced(F, n, e, g, b, st)
  {
    var p := BuiltExpr(e, g, b);
    ExprGrows(e, g, b);
    KeptMore(p.graph, F.graph, |g.stats|, b, Some(p.block));
    if b != p.block {
      KeptFinal(p.graph, F.graph, |g.stats|, b, Some(p.block), false, b);
    }
  }

  lemma {:induction false} TightTargets(ts: Targets, g: Graph, b: Block, ctx: Context, F: Frame, n: nat, st: State,
                                        law: Law)
    requires WellFormed(F.graph) && Start(g, b) && CtxIn(g, ctx) && TargetsIn(ts, F.lhs)
    requires law.Any? || ctx.handler.None?
    requires var p := BuiltTargets(ts, g, b, ctx.handler);
      Kept(p.graph, F.graph, |g.stats|, b, Some(p.block), false) && TargetsEnd(F, n, p, ctx, ts, st, law)
    ensures SafeEnd(F, n, g, b, st)
    decreases ts
  {
    match ts {
      case NoTargets =>
        assert Fair([], LaxOf(law));
        assert Ends(F, n, g, Some(b), ctx, BindAll(ts, st, []));
      case MoreTargets(t, rest) =>
        var p := BuiltTarget(t, g, b, ctx.handler);
        var q := BuiltTargets(rest, p.graph, p.block, ctx.handler);
        TargetGrows(t, g, b, ctx.handler);
        TargetsGrow(rest, p.graph, p.block, ctx.handler);
        SplitKept(g, b, p.graph, p.block, q.graph, Some(q.block), F.graph);
        forall o | Fair(o, LaxOf(law)) ensures Ends(F, n, p.graph, Some(p.block), ctx, Bind(t, st, o)) {
          MoreTargetsEnd(ts, g, b, ctx, F, n, st, law, o);
        }
        TightTarget(t, g, b, ctx, F, n, st, law);
    }
  }

  /** What was visited in two parts, from `b` to `e` and on to `end`. */
  lemma SplitKept(g: Graph, b: Block, p: Graph, e: Block, q: Graph, end: Option<Block>, G: Graph)
    requires Visited(g, p, b, Some(e)) && Visited(p, q, e, end) && Kept(q, G, |g.stats|, b, end, false)
    ensures Kept(p, G, |g.stats|, b, Some(e), false) && Kept(q, G, |p.stats|, e, end, false)
  {
    SameGrown(p, q, e);
    KeptPart(p, q, G, |g.stats|, b, end, false, |g.stats|, b, Some(e), {e});
    KeptPart(q, q, G, |g.stats|, b, end, false, |p.stats|, e, end, {});
  }

  lemma {:induction false} MoreTargetsEnd(ts: Targets, g: Graph, b: Block, ctx: Context, F: Frame, n: nat, st: State,
                                          law: Law, o: seq<Choice>)
    requires WellFormed(F.graph) && Start(g, b) && CtxIn(g, ctx) && TargetsIn(ts, F.lhs) && ts.MoreTargets?
    requires law.Any? || ctx.handler.None?
    requires var p := BuiltTarget(ts.first, g, b, ctx.handler);
      var q := BuiltTargets(ts.rest, p.graph, p.block, ctx.handler);
      && Visited(g, p.graph, b, Some(p.block)) && Kept(q.graph, F.graph, |p.graph.stats|, p.block, Some(q.block), false)
      && TargetsEnd(F, n, q, ctx, ts, st, law)
    requires Fair(o, LaxOf(law))
    ensures var p := BuiltTarget(ts.first, g, b, ctx.handler);
      Ends(F, n, p.graph, Some(p.block), ctx, Bind(ts.first, st, o))
    decreases ts, 0
  {
    var p := BuiltTarget(ts.first, g, b, ctx.handler);
    var q := BuiltTargets(ts.rest, p.graph, p.block, ctx.handler);
    var r := Bind(ts.first, st, o);
    assert Ends(F, n, q.graph, Some(q.block), ctx, BindAll(ts, st, o));
    if r.outcome == Normal {
      EndsAfter(F, n, q.graph, Some(q.block), ctx, r.events, BindAll(ts.rest, r.state, r.rest));
      forall x | Fair(x, LaxOf(law)) ensures Ends(F, n, q.graph, Some(q.block), ctx, BindAll(ts.rest, r.state, x)) {
        BindSplices(ts.first, st, o, x);
        FairSwap(o, r.rest, x, LaxOf(law));
        assert Ends(F, n, q.graph, Some(q.block), ctx, BindAll(ts, st, Other(o, r, x)));
        EndsAfter(F, n, q.graph, Some(q.block), ctx, r.events, BindAll(ts.rest, r.state, x));
      }
      TightTargets(ts.rest, p.graph, p.block, ctx, F, n, r.state, law);
    }
  }

  lemma {:induction false} TightTarget(t: Target, g: Graph, b: Block, ctx: Context, F: Frame, n: nat, st: State,
                                       law: Law)
    requires WellFormed(F.graph) && Start(g, b) && CtxIn(g, ctx) && TargetIn(t, F.lhs)
    requires law.Any? || ctx.handler.None?
    requires var p := BuiltTarget(t, g, b, ctx.handler);
      Kept(p.graph, F.graph, |g.stats|, b, Some(p.block), false) && TargetEnds(F, n, p, ctx, t, st, law)
    ensures SafeEnd(F, n, g, b, st)
    decreases t, 2
  {
    if ctx.handler.None? {
      forall o | Fair(o, LaxOf(law))
        ensures Ends(F, n, BuiltTarget(t, g, b, ctx.handler).graph, Some(BuiltTarget(t, g, b, ctx.handler).block), ctx,
                     BindCore(t, st, o))
      {
        UnlinkedRun(t, g, b, ctx, F, n, st, law, o);
      }
      TightCore(t, g, b, ctx, F, n, st, law);
    } else {
      TightLinked(t, g, b, ctx, F, n, st, law);
    }
  }

  lemma UnlinkedRun(t: Target, g: Graph, b: Block, ctx: Context, F: Frame, n: nat, st: State, law: Law, o: seq<Choice>)
    requires WellFormed(F.graph) && ctx.handler.None? && Fair(o, LaxOf(law))
    requires TargetEnds(F, n, BuiltTarget(t, g, b, ctx.handler), ctx, t, st, law)
    ensures var p := BuiltTarget(t, g, b, ctx.handler); Ends(F, n, p.graph, Some(p.block), ctx, BindCore(t, st, o))
  {
    var p := BuiltTarget(t, g, b, ctx.handler);
    var c := Choice([], false, false, false);
    FirstOf(c, o);
    FairCons(c, o, LaxOf(law));
    assert Ends(F, n, p.graph, Some(p.block), ctx, Bind(t, st, [c] + o));
  }

  lemma FirstOf(c: Choice, x: seq<Choice>)
    ensures ([c] + x)[0] == c && ([c] + x)[1..] == x && [c] + x != []
  {
  }

  lemma FairCons(c: Choice, x: seq<Choice>, lax: bool)
    requires Fair(x, lax) && (lax || !c.lax)
    ensures Fair([c] + x, lax)
  {
  }

  lemma {:induction false} TightCore(t: Target, g: Graph, b: Block, ctx: Context, F: Frame, n: nat, st: State, law: Law)
    requires WellFormed(F.graph) && Start(g, b) && CtxIn(g, ctx) && TargetIn(t, F.lhs)
    requires law.Any? || ctx.handler.None?
    requires var p := BuiltCore(t, g, b, ctx.handler);
      Kept(p.graph, F.graph, |g.stats|, b, Some(p.block), false) && CoreEnds(F, n, p, ctx, t, st, law)
    ensures SafeEnd(F, n, g, b, st)
    decreases t, 0
  {
    var p := BuiltCore(t, g, b, ctx.handler);
    match t {
      case NameTarget(lhs, entry) =>
        var k := |g.stats[b]|;
        assert Fair([], LaxOf(law));
        assert Ends(F, n, p.graph, Some(b), ctx, BindCore(t, st, []));
        assert KeptBlock(p.graph, F.graph, b, Some(b), false, b);
        assert F.graph.stats[b][k] == Assignment(lhs, entry);
        StepStat(F, n, b, k, st);
      case SequenceTarget(args) =>
        assert forall o :: BindCore(t, st, o) == BindAll(args, st, o);
        TightTargets(args, g, b, ctx, F, n, st, law);
      case OtherTarget(e) =>
        assert forall o :: BindCore(t, st, o) == Eval(e, st, o);
        TightEval(e, g, b, ctx, F, n, st, law);
    }
  }

  /** Inside a `try`: the target stands between two links to the handler. */
  lemma {:induction false} TightLinked(t: Target, g: Graph, b: Block, ctx: Context, F: Frame, n: nat, st: State,
                                       law: Law)
    requires WellFormed(F.graph) && Start(g, b) && CtxIn(g, ctx) && TargetIn(t, F.lhs)
    requires law.Any? && ctx.handler.Some?
    requires var p := BuiltTarget(t, g, b, ctx.handler);
      Kept(p.graph, F.graph, |g.stats|, b, Some(p.block), false) && TargetEnds(F, n, p, ctx, t, st, law)
    ensures SafeEnd(F, n, g, b, st)
    decreases t, 1
  {
    var p := BuiltLink(g, b, ctx.handler);
    var q := BuiltCore(t, p.graph, p.block, ctx.handler);
    var r := BuiltLink(q.graph, q.block, ctx.handler);
    LinkedKept(t, g, b, ctx, F.graph);
    forall o | Fair(o, LaxOf(law)) ensures Ends(F, n, q.graph, Some(q.block), ctx, BindCore(t, st, o)) {
      LinkedRun(t, q, r, ctx, F, n, st, law, o);
    }
    TightCore(t, p.graph, p.block, ctx, F, n, st, law);
    var o := [Choice([], true, false, false)];
    assert Ends(F, n, r.graph, Some(r.block), ctx, Bind(t, st, o));
    LinkIsSafe(g, b, ctx.handler.value, F, n, st);
  }

  lemma LinkedKept(t: Target, g: Graph, b: Block, ctx: Context, G: Graph)
    requires Start(g, b) && CtxIn(g, ctx)
    requires var p := BuiltTarget(t, g, b, ctx.handler); Kept(p.graph, G, |g.stats|, b, Some(p.block), false)
    ensures var p := BuiltLink(g, b, ctx.handler);
      var q := BuiltCore(t, p.graph, p.block, ctx.handler);
      var r := BuiltLink(q.graph, q.block, ctx.handler);
      && Start(p.graph, p.block) && CtxIn(p.graph, ctx) && Start(q.graph, q.block) && CtxIn(q.graph, ctx)
      && (ctx.handler.Some? ==> p.graph.stats[p.block] == [])
      && Kept(p.graph, G, |g.stats|, b, Some(p.block), false)
      && Kept(q.graph, G, |p.graph.stats|, p.block, Some(q.block), false)
      && Kept(r.graph, G, |q.graph.stats|, q.block, Some(r.block), false)
  {
    var p := BuiltLink(g, b, ctx.handler);
    var q := BuiltCore(t, p.graph, p.block, ctx.handler);
    var r := BuiltLink(q.graph, q.block, ctx.handler);
    LinkGrows(g, b, ctx.handler);
    LinkAttached(g, b, ctx.handler);
    CoreGrows(t, p.graph, p.block, ctx.handler);
    LinkGrows(q.graph, q.block, ctx.handler);
    VisitedTransitive(p.graph, q.graph, r.graph, p.block, q.block, Some(r.block));
    SplitKept(g, b, p.graph, p.block, r.graph, Some(r.block), G);
    SplitKept(p.graph, p.block, q.graph, q.block, r.graph, Some(r.block), G);
  }

  /** A link leads from `b` to the handler and to the new block. */
  lemma LinkIsSafe(g: Graph, b: Block, handler: Block, F: Frame, n: nat, st: State)
    requires WellFormed(F.graph) && Start(g, b) && handler < |g.stats|
    requires var p := BuiltLink(g, b, Some(handler));
      Kept(p.graph, F.graph, |g.stats|, b, Some(p.block), false) && SafeAt(F, n, p.block, st)
    requires SafeAt(F, n, handler, st)
    ensures SafeEnd(F, n, g, b, st)
  {
    var p := BuiltLink(g, b, Some(handler));
    LinkAttached(g, b, Some(handler));
    KeptFinal(p.graph, F.graph, |g.stats|, b, Some(p.block), false, b);
    assert p.graph.children[b] == {handler, p.block};
    LeaveEdges(F, n, b, st);
  }

  lemma LinkedRun(t: Target, q: Place, r: Place, ctx: Context, F: Frame, n: nat, st: State, law: Law, o: seq<Choice>)
    requires WellFormed(F.graph) && law.Any? && ctx.handler.Some? && CtxIn(q.graph, ctx) && Start(q.graph, q.block)
    requires r == BuiltLink(q.graph, q.block, ctx.handler) && TargetEnds(F, n, r, ctx, t, st, law)
    requires Kept(r.graph, F.graph, |q.graph.stats|, q.block, Some(r.block), false)
    ensures Ends(F, n, q.graph, Some(q.block), ctx, BindCore(t, st, o))
  {
    var c, l := Choice([], false, false, false), Choice([], false, false, true);
    FirstOf(c, o);
    FirstOf(l, o);
    assert Ends(F, n, r.graph, Some(r.block), ctx, Bind(t, st, [c] + o));
    assert Ends(F, n, r.graph, Some(r.block), ctx, Bind(t, st, [l] + o));
    var core := BindCore(t, st, o);
    BindStep(t, st, [c] + o);
    BindStep(t, st, [l] + o);
    if core.outcome == Normal {
      LinkAttached(q.graph, q.block, ctx.handler);
      assert SafeAt(F, n, r.block, core.state) && SafeAt(F, n, ctx.handler.value, core.state);
      LinkIsSafe(q.graph, q.block, ctx.handler.value, F, n, core.state);
    }
  }

  // ----------------------------------------------------------------- statements

  /** What is told of an unassigned name in one state is told of it in all states in which
      it is unassigned, and reads of assigned names are all told. */
  ghost predicate Blunt(F: Frame) {
    && (forall n: NodeId, e: Entry, st: State :: e in st ==> Read(n, e, st) in F.told)
    && forall n: NodeId, e: Entry, st: State, st': State ::
       Read(n, e, st) in F.told && e !in st && e !in st' ==> Read(n, e, st') in F.told
  }

  ghost predicate LawfulIn(F: Frame, ctx: Context, law: Law) {
    (law.Any? || ctx.handler.None?) && (law.Unassigned? ==> Blunt(F))
  }

  ghost predicate Lawful(F: Frame, s: Stmt, ctx: Context, law: Law) {
    StmtIn(s, F.lhs) && LawfulIn(F, ctx, law) && (law.Any? || Plain(s, law))
  }

  /** A statement that is visited from block `b`, which is open, on. */
  ghost predicate StmtPlaced(F: Frame, s: Stmt, g: Graph, b: Block, ctx: Context, law: Law) {
    && Start(g, b) && CtxIn(g, ctx) && Lawful(F, s, ctx, law)
    && Kept(BuiltStmt(s, g, b, ctx).graph, F.graph, |g.stats|, b, BuiltStmt(s, g, b, ctx).block, false)
  }

  lemma {:induction false} TightStmt(s: Stmt, g: Graph, b: Block, ctx: Context, F: Frame, n: nat, st: State, law: Law)
    requires WellFormed(F.graph) && StmtPlaced(F, s, g, b, ctx, law)
    requires StmtEnds(F, n, BuiltStmt(s, g, b, ctx), ctx, s, st, law)
    ensures SafeEnd(F, n, g, b, st)
    decreases s, 3
  {
    match s {
      case Pass =>
        assert Fair([], LaxOf(law));
        assert Ends(F, n, g, Some(b), ctx, Exec(s, st, []));
      case Then(_, _) => TightThen(s, g, b, ctx, F, n, st, law);
      case ExprStat(e) =>
        assert forall o :: Exec(s, st, o) == Eval(e, st, o);
        TightEval(e, g, b, ctx, F, n, st, law);
      case Assign(_, _) => TightAssign(s, g, b, ctx, F, n, st, law);
      case Del(_, _) => TightDel(s, g, b, ctx, F, n, st, law);
      case Assert(_, _) => TightAssert(s, g, b, ctx, F, n, st, law);
      case If(_) => TightIf(s, g, b, ctx, F, n, st, law);
      case While(_, _, _) => TightWhile(s, g, b, ctx, F, n, st, law);
      case ForIn(_, _, _, _) => TightFor(s, g, b, ctx, F, n, st, law);
      case Break => TightJump(s, g, b, ctx, F, n, st, law);
      case Continue => TightJump(s, g, b, ctx, F, n, st, law);
      case Return(_) => TightReturn(s, g, b, ctx, F, n, st, law);
      case Raise(_) => TightRaise(s, g, b, ctx, F, n, st, law);
      case TryExcept(_, _, _) => TightTry(s, g, b, ctx, F, n, st, law);
    }
  }

  lemma {:induction false} TightThen(s: Stmt, g: Graph, b: Block, ctx: Context, F: Frame, n: nat, st: State, law: Law)
    requires s.Then? && WellFormed(F.graph) && StmtPlaced(F, s, g, b, ctx, law)
    requires StmtEnds(F, n, BuiltStmt(s, g, b, ctx), ctx, s, st, law)
    ensures SafeEnd(F, n, g, b, st)
    decreases s, 2
  {
    var r := BuiltStmt(s.first, g, b, ctx);
    StmtGrows(s.first, g, b, ctx);
    if r.block.Some? {
      var q := BuiltStmt(s.second, r.graph, r.block.value, ctx);
      StmtGrows(s.second, r.graph, r.block.value, ctx);
      SplitKept(g, b, r.graph, r.block.value, q.graph, q.block, F.graph);
    }
    forall o | Fair(o, LaxOf(law)) ensures Ends(F, n, r.graph, r.block, ctx, Exec(s.first, st, o)) {
      FirstEnds(s, g, b, ctx, F, n, st, law, o);
    }
    TightStmt(s.first, g, b, ctx, F, n, st, law);
  }

  lemma {:induction false} FirstEnds(s: Stmt, g: Graph, b: Block, ctx: Context, F: Frame, n: nat, st: State, law: Law,
                                     o: seq<Choice>)
    requires s.Then? && WellFormed(F.graph) && Fair(o, LaxOf(law))
    requires StmtEnds(F, n, BuiltStmt(s, g, b, ctx), ctx, s, st, law)
    requires var r := BuiltStmt(s.first, g, b, ctx);
      r.block.Some? ==> StmtPlaced(F, s.second, r.graph, r.block.value, ctx, law)
    ensures var r := BuiltStmt(s.first, g, b, ctx); Ends(F, n, r.graph, r.block, ctx, Exec(s.first, st, o))
    decreases s, 1
  {
    var r := BuiltStmt(s.first, g, b, ctx);
    var q := BuiltStmt(s, g, b, ctx);
    var x := Exec(s.first, st, o);
    assert Ends(F, n, q.graph, q.block, ctx, Exec(s, st, o));
    if x.outcome == Normal {
      EndsAfter(F, n, q.graph, q.block, ctx, x.events, Exec(s.second, x.state, x.rest));
      if r.block.Some? {
        forall y | Fair(y, LaxOf(law)) ensures Ends(F, n, q.graph, q.block, ctx, Exec(s.second, x.state, y)) {
          ExecSplices(s.first, st, o, y);
          FairSwap(o, x.rest, y, LaxOf(law));
          assert Ends(F, n, q.graph, q.block, ctx, Exec(s, st, Other(o, x, y)));
          EndsAfter(F, n, q.graph, q.block, ctx, x.events, Exec(s.second, x.state, y));
        }
        TightStmt(s.second, r.graph, r.block.value, ctx, F, n, x.state, law);
      }
    }
  }

  /** What a run of a statement reads first, and that it may stop right there. */
  lemma LookedFirst(s: Stmt, e: Expr, ctx: Context, F: Frame, n: nat, r: End, st: State, law: Law)
    requires WellFormed(F.graph) && StmtEnds(F, n, r, ctx, s, st, law)
    requires forall c: Choice :: c.throws ==> Exec(s, st, [c]) == Eval(e, st, [c])
    ensures Looked(F, e, st)
  {
    forall c: Choice | c.throws && !c.lax ensures Told(F, Eval(e, st, [c]).events) {
      assert Fair([c], LaxOf(law));
      assert Ends(F, n, r.graph, r.block, ctx, Exec(s, st, [c]));
    }
    LookedByRuns(F, e, st);
  }

  lemma AssignRuns(s: Stmt, q: Place, ctx: Context, F: Frame, n: nat, st: State, law: Law)
    requires s.Assign? && WellFormed(F.graph) && StmtEnds(F, n, End(q.graph, Some(q.block)), ctx, s, st, law)
    ensures Looked(F, s.rhs, st) && TargetsEnd(F, n, q, ctx, s.targets, st, law)
  {
    LookedFirst(s, s.rhs, ctx, F, n, End(q.graph, Some(q.block)), st, law);
    forall o | Fair(o, LaxOf(law)) ensures Ends(F, n, q.graph, Some(q.block), ctx, BindAll(s.targets, st, o)) {
      var c := Choice([], false, false, false);
      FirstOf(c, o);
      FairCons(c, o, LaxOf(law));
      assert Ends(F, n, q.graph, Some(q.block), ctx, Exec(s, st, [c] + o));
      EndsAfter(F, n, q.graph, Some(q.block), ctx, Eval(s.rhs, st, [c] + o).events, BindAll(s.targets, st, o));
    }
  }

  lemma TightAssign(s: Stmt, g: Graph, b: Block, ctx: Context, F: Frame, n: nat, st: State, law: Law)
    requires s.Assign? && WellFormed(F.graph) && StmtPlaced(F, s, g, b, ctx, law)
    requires StmtEnds(F, n, BuiltStmt(s, g, b, ctx), ctx, s, st, law)
    ensures SafeEnd(F, n, g, b, st)
  {
    var p := BuiltExpr(s.rhs, g, b);
    var q := BuiltTargets(s.targets, p.graph, p.block, ctx.handler);
    ExprGrows(s.rhs, g, b);
    TargetsGrow(s.targets, p.graph, p.block, ctx.handler);
    SplitKept(g, b, p.graph, p.block, q.graph, Some(q.block), F.graph);
    AssignRuns(s, q, ctx, F, n, st, law);
    TightTargets(s.targets, p.graph, p.block, ctx, F, n, st, law);
    WholeIsPlaced(s.rhs, g, b, F, n, st);
    TightExpr(s.rhs, g, b, F, n, st);
  }

  lemma TightDel(s: Stmt, g: Graph, b: Block, ctx: Context, F: Frame, n: nat, st: State, law: Law)
    requires s.Del? && WellFormed(F.graph) && StmtPlaced(F, s, g, b, ctx, law)
    requires StmtEnds(F, n, BuiltStmt(s, g, b, ctx), ctx, s, st, law)
    ensures SafeEnd(F, n, g, b, st)
  {
    var k, r := |g.stats[b]|, BuiltStmt(s, g, b, ctx);
    assert KeptBlock(r.graph, F.graph, b, Some(b), false, b);
    assert F.graph.stats[b][k] == Reference(s.node, s.entry);
    assert F.graph.stats[b][k + 1] == Deletion(s.node, s.entry);
    var e := Name(s.node, s.entry);
    var o := EvalCanRead(e, st, 0, false, false);
    assert Ends(F, n, r.graph, r.block, ctx, Exec(s, st, o));
    StepStat(F, n, b, k + 1, st);
    StepStat(F, n, b, k, st);
  }

  // ----------------------------------------------------------------------- jumps

  /** All the edges out of `b` are known. */
  lemma EdgesSafe(h: Graph, lo: nat, b: Block, F: Frame, n: nat, outs: set<Block>, st: State)
    requires WellFormed(F.graph) && Kept(h, F.graph, lo, b, None, false) && h.children[b] == outs
    requires forall c <- outs :: SafeAt(F, n, c, st)
    ensures SafeEnd(F, n, h, b, st)
  {
    KeptFinal(h, F.graph, lo, b, None, false, b);
    LeaveEdges(F, n, b, st);
  }

  lemma TightJump(s: Stmt, g: Graph, b: Block, ctx: Context, F: Frame, n: nat, st: State, law: Law)
    requires (s.Break? || s.Continue?) && WellFormed(F.graph) && StmtPlaced(F, s, g, b, ctx, law)
    requires StmtEnds(F, n, BuiltStmt(s, g, b, ctx), ctx, s, st, law)
    ensures SafeEnd(F, n, g, b, st)
  {
    var r := BuiltStmt(s, g, b, ctx);
    var to := if s.Break? then ctx.next else ctx.head;
    assert Fair([], LaxOf(law));
    assert Ends(F, n, r.graph, r.block, ctx, Exec(s, st, []));
    EdgesSafe(r.graph, |g.stats|, b, F, n, if to.Some? then {to.value} else {}, st);
  }

  /** An expression with an edge, if any, out of its last block. */
  lemma TightLeave(e: Expr, g: Graph, b: Block, to: Option<Block>, F: Frame, n: nat, st: State)
    requires WellFormed(F.graph) && Start(g, b) && (to.Some? ==> to.value < |g.stats|)
    requires var p := BuiltExpr(e, g, b); Kept(EdgeFrom(p.graph, Some(p.block), to), F.graph, |g.stats|, b, None, false)
    requires Looked(F, e, st) && (to.Some? ==> SafeAt(F, n, to.value, st))
    ensures SafeEnd(F, n, g, b, st)
  {
    var p := BuiltExpr(e, g, b);
    var h := EdgeFrom(p.graph, Some(p.block), to);
    ExprGrows(e, g, b);
    if to.Some? {
      AttachedByEdge(p.graph, p.block, to.value);
    }
    assert Same(p.graph, h, {p.block});
    KeptFinal(h, F.graph, |g.stats|, b, None, false, p.block);
    LeaveEdges(F, n, p.block, st);
    KeptPart(p.graph, h, F.graph, |g.stats|, b, None, false, |g.stats|, b, Some(p.block), {p.block});
    WholeIsPlaced(e, g, b, F, n, st);
    TightExpr(e, g, b, F, n, st);
  }

  lemma TightReturn(s: Stmt, g: Graph, b: Block, ctx: Context, F: Frame, n: nat, st: State, law: Law)
    requires s.Return? && WellFormed(F.graph) && StmtPlaced(F, s, g, b, ctx, law)
    requires StmtEnds(F, n, BuiltStmt(s, g, b, ctx), ctx, s, st, law)
    ensures SafeEnd(F, n, g, b, st)
  {
    var r := BuiltStmt(s, g, b, ctx);
    LookedFirst(s, s.expr, ctx, F, n, r, st, law);
    var o := [Choice([], false, false, false)];
    assert Fair(o, LaxOf(law));
    assert Ends(F, n, r.graph, r.block, ctx, Exec(s, st, o));
    TightLeave(s.expr, g, b, Some(EXIT), F, n, st);
  }

  lemma TightRaise(s: Stmt, g: Graph, b: Block, ctx: Context, F: Frame, n: nat, st: State, law: Law)
    requires s.Raise? && WellFormed(F.graph) && StmtPlaced(F, s, g, b, ctx, law)
    requires StmtEnds(F, n, BuiltStmt(s, g, b, ctx), ctx, s, st, law)
    ensures SafeEnd(F, n, g, b, st)
  {
    var r := BuiltStmt(s, g, b, ctx);
    LookedFirst(s, s.expr, ctx, F, n, r, st, law);
    var o := [Choice([], false, false, false)];
    assert Fair(o, LaxOf(law));
    assert Ends(F, n, r.graph, r.block, ctx, Exec(s, st, o));
    TightLeave(s.expr, g, b, ctx.handler, F, n, st);
  }

  // -------------------------------------------------------------------- branches

  /** The runs of a statement end safely on the way to `outs`. */
  ghost predicate PieceEnds(F: Frame, n: nat, outs: set<Block>, ctx: Context, s: Stmt, st: State, law: Law)
    requires WellFormed(F.graph)
  {
    forall o :: Fair(o, LaxOf(law)) ==> EndsIn(F, n, outs, ctx, Exec(s, st, o))
  }

  /** A statement from the new block `c` of `g` on, whose end was then left for `outs`, in
      `h`; all of it is complete. */
  ghost predicate Piece(s: Stmt, g: Graph, c: Block, ctx: Context, h: Graph, outs: set<Block>, G: Graph) {
    var r := BuiltStmt(s, g, c, ctx);
    && Start(g, c) && c + 1 == |g.stats| && g.stats[c] == [] && CtxIn(g, ctx) && Final(h, G, c)
    && h.stats == r.graph.stats
    && match r.block
       case Some(e) => e < |h.children| && Same(r.graph, h, {e}) && h.children[e] == outs
       case None => h == r.graph
  }

  lemma {:induction false} TightPiece(s: Stmt, g: Graph, c: Block, ctx: Context, h: Graph, outs: set<Block>, F: Frame,
                                      n: nat, st: State, law: Law)
    requires WellFormed(F.graph) && Piece(s, g, c, ctx, h, outs, F.graph) && Lawful(F, s, ctx, law)
    requires PieceEnds(F, n, outs, ctx, s, st, law)
    ensures SafeAt(F, n, c, st)
    decreases s, 4
  {
    var r := BuiltStmt(s, g, c, ctx);
    StmtGrows(s, g, c, ctx);
    if r.block.Some? {
      FinalKept(r.graph, h, F.graph, c, c, r.block, {r.block.value});
    } else {
      FinalKept(r.graph, h, F.graph, c, c, None, {});
    }
    forall o | Fair(o, LaxOf(law)) ensures Ends(F, n, r.graph, r.block, ctx, Exec(s, st, o)) {
      var x := Exec(s, st, o);
      assert EndsIn(F, n, outs, ctx, x);
      if x.outcome == Normal && r.block.Some? {
        assert h.stats[r.block.value] == F.graph.stats[r.block.value];
        LeaveEdges(F, n, r.block.value, x.state);
      }
    }
    TightStmt(s, g, c, ctx, F, n, st, law);
  }

  /** A branch behind `parent` is such a piece. */
  lemma BranchPiece(s: Stmt, g: Graph, parent: Block, next: Block, ctx: Context, h: Graph, G: Graph)
    requires Grounded(g, parent) && next < |g.stats| && CtxIn(g, ctx)
    requires h == BuiltBranch(s, g, parent, next, ctx).graph && Final(h, G, |g.stats|)
    ensures Piece(s, Behind(g, parent), |g.stats|, ctx, h, {next}, G)
  {
    BehindStarts(g, parent);
    StmtGrows(s, Behind(g, parent), |g.stats|, ctx);
    var r := BuiltStmt(s, Behind(g, parent), |g.stats|, ctx);
    if r.block.Some? {
      AttachedByEdge(r.graph, r.block.value, next);
      SameGrown(r.graph, h, r.block.value);
    }
  }

  lemma {:induction false} TightElse(orelse: Option<Stmt>, g: Graph, parent: Block, next: Block, ctx: Context,
                                     F: Frame, n: nat, st: State, law: Law)
    requires WellFormed(F.graph) && Grounded(g, parent) && next < |g.stats| && CtxIn(g, ctx)
    requires Final(BuiltElse(orelse, g, parent, next, ctx), F.graph, |g.stats|)
    requires LawfulIn(F, ctx, law) && (orelse.Some? ==> Lawful(F, orelse.value, ctx, law))
    requires forall o :: Fair(o, LaxOf(law)) ==> EndsIn(F, n, {next}, ctx, ExecElse(orelse, st, o))
    ensures SafeAt(F, n, ElseHead(orelse, g, next), st)
    decreases orelse, 5
  {
    if orelse.Some? {
      BranchPiece(orelse.value, g, parent, next, ctx, BuiltElse(orelse, g, parent, next, ctx), F.graph);
      forall o | Fair(o, LaxOf(law)) ensures EndsIn(F, n, {next}, ctx, Exec(orelse.value, st, o)) {
        assert EndsIn(F, n, {next}, ctx, ExecElse(orelse, st, o));
      }
      TightPiece(orelse.value, Behind(g, parent), |g.stats|, ctx, BuiltElse(orelse, g, parent, next, ctx), {next}, F, n,
                 st, law);
    } else {
      assert Fair([], LaxOf(law));
      assert EndsIn(F, n, {next}, ctx, ExecElse(orelse, st, []));
    }
  }

  /** `next`, where a compound statement joins: if nothing leads there it is a dead end. */
  lemma JoinIsSafe(h: Graph, next: Block, lo: nat, b: Block, F: Frame, n: nat, ctx: Context, r: Result)
    requires WellFormed(F.graph) && next < |h.stats| && lo <= next && next != b
    requires Kept(h, F.graph, lo, b, Joined(h, next).block, false) && h.stats[next] == [] && h.children[next] == {}
    requires Ends(F, n, h, Joined(h, next).block, ctx, r)
    ensures EndsIn(F, n, {next}, ctx, r)
  {
    if r.outcome == Normal && !HasParent(h, next) {
      KeptFinal(h, F.graph, lo, b, None, false, next);
      DeadEnd(F, n, next, r.state);
    }
  }

  lemma RunsJoin(s: Stmt, h: Graph, next: Block, lo: nat, b: Block, ctx: Context, F: Frame, n: nat, st: State, law: Law)
    requires WellFormed(F.graph) && next < |h.stats| && lo <= next && next != b
    requires Kept(h, F.graph, lo, b, Joined(h, next).block, false) && h.stats[next] == [] && h.children[next] == {}
    requires StmtEnds(F, n, Joined(h, next), ctx, s, st, law)
    ensures PieceEnds(F, n, {next}, ctx, s, st, law)
  {
    forall o | Fair(o, LaxOf(law)) ensures EndsIn(F, n, {next}, ctx, Exec(s, st, o)) {
      assert Ends(F, n, h, Joined(h, next).block, ctx, Exec(s, st, o));
      JoinIsSafe(h, next, lo, b, F, n, ctx, Exec(s, st, o));
    }
  }

  lemma {:induction false} TightIf(s: Stmt, g: Graph, b: Block, ctx: Context, F: Frame, n: nat, st: State, law: Law)
    requires s.If? && WellFormed(F.graph) && StmtPlaced(F, s, g, b, ctx, law)
    requires StmtEnds(F, n, BuiltStmt(s, g, b, ctx), ctx, s, st, law)
    ensures SafeEnd(F, n, g, b, st)
    decreases s, 2
  {
    var next, g1 := |g.stats|, AddBlock(g);
    var h := BuiltClauses(s.clauses, g1, b, next, ctx);
    var end := Joined(h, next).block;
    GrownByBlock(g, b);
    ClausesGrow(s.clauses, g1, b, next, ctx);
    KeptIsFinal(h, F.graph, |g.stats|, b, end, false, next + 1);
    forall o | Fair(o, LaxOf(law)) ensures EndsIn(F, n, {next}, ctx, ExecClauses(s.clauses, st, o)) {
      assert Ends(F, n, h, end, ctx, Exec(s, st, o));
      JoinIsSafe(h, next, |g.stats|, b, F, n, ctx, Exec(s, st, o));
    }
    TightClauses(s.clauses, g1, b, next, ctx, F, n, st, law);
    KeptFinal(h, F.graph, |g.stats|, b, end, false, b);
    LeaveEdges(F, n, b, st);
  }

  lemma {:induction false} TightClauses(cs: Clauses, g: Graph, parent: Block, next: Block, ctx: Context, F: Frame,
                                        n: nat, st: State, law: Law)
    requires WellFormed(F.graph) && Grounded(g, parent) && next < |g.stats| && CtxIn(g, ctx)
    requires Final(BuiltClauses(cs, g, parent, next, ctx), F.graph, |g.stats|)
    requires ClausesIn(cs, F.lhs) && LawfulIn(F, ctx, law) && (law.Any? || ClausesPlain(cs, law))
    requires forall o :: Fair(o, LaxOf(law)) ==> EndsIn(F, n, {next}, ctx, ExecClauses(cs, st, o))
    ensures SafeAt(F, n, ClausesHead(cs, g, next), st)
    decreases cs, 5
  {
    match cs {
      case LastClause(orelse) =>
        forall o | Fair(o, LaxOf(law)) ensures EndsIn(F, n, {next}, ctx, ExecElse(orelse, st, o)) {
          assert EndsIn(F, n, {next}, ctx, ExecClauses(cs, st, o));
        }
        TightElse(orelse, g, parent, next, ctx, F, n, st, law);
      case Clause(_, _, _) => TightClause(cs, g, parent, next, ctx, F, n, st, law);
    }
  }

  lemma {:induction false} TightClause(cs: Clauses, g: Graph, parent: Block, next: Block, ctx: Context, F: Frame,
                                       n: nat, st: State, law: Law)
    requires cs.Clause? && WellFormed(F.graph) && Grounded(g, parent) && next < |g.stats| && CtxIn(g, ctx)
    requires Final(BuiltClauses(cs, g, parent, next, ctx), F.graph, |g.stats|)
    requires ClausesIn(cs, F.lhs) && LawfulIn(F, ctx, law) && (law.Any? || ClausesPlain(cs, law))
    requires forall o :: Fair(o, LaxOf(law)) ==> EndsIn(F, n, {next}, ctx, ExecClauses(cs, st, o))
    ensures SafeAt(F, n, |g.stats|, st)
    decreases cs, 4
  {
    var c := |g.stats|;
    var p := BuiltExpr(cs.condition, Behind(g, parent), c);
    var r := BuiltBranch(cs.body, p.graph, p.block, next, ctx).graph;
    var h := BuiltClauses(cs.rest, r, p.block, next, ctx);
    ClauseSteps(cs, g, parent, next, ctx);
    FinalPart(r, h, F.graph, c, |p.graph.stats|, {p.block});
    FinalPart(h, h, F.graph, c, |r.stats|, {});
    ClauseRuns(cs, next, ctx, F, n, st, law);
    BranchPiece(cs.body, p.graph, p.block, next, ctx, r, F.graph);
    TightPiece(cs.body, Behind(p.graph, p.block), |p.graph.stats|, ctx, r, {next}, F, n, st, law);
    TightClauses(cs.rest, r, p.block, next, ctx, F, n, st, law);
    TightCondition(cs.condition, Behind(g, parent), c, h, {|p.graph.stats|, ClausesHead(cs.rest, r, next)}, F, n, st);
  }

  /** A condition from the new block `c` on, whose last block leads to `outs` in `h`. */
  lemma TightCondition(e: Expr, g: Graph, c: Block, h: Graph, outs: set<Block>, F: Frame, n: nat, st: State)
    requires WellFormed(F.graph) && Start(g, c) && c + 1 == |g.stats| && g.stats[c] == [] && Looked(F, e, st)
    requires var p := BuiltExpr(e, g, c);
      && p.block < |p.graph.stats| && Same(p.graph, h, {p.block})
      && h.stats[p.block] == p.graph.stats[p.block] && h.children[p.block] == outs
    requires Final(h, F.graph, c) && forall b <- outs :: SafeAt(F, n, b, st)
    ensures SafeAt(F, n, c, st)
  {
    var p := BuiltExpr(e, g, c);
    ExprGrows(e, g, c);
    assert h.stats[p.block] == F.graph.stats[p.block];
    LeaveEdges(F, n, p.block, st);
    FinalKept(p.graph, h, F.graph, c, c, Some(p.block), {p.block});
    WholeIsPlaced(e, g, c, F, n, st);
    TightExpr(e, g, c, F, n, st);
  }

  /** How the graph of a clause comes about: nothing but the last block of its condition
      gets more behind it. */
  lemma ClauseSteps(cs: Clauses, g: Graph, parent: Block, next: Block, ctx: Context)
    requires cs.Clause? && Grounded(g, parent) && next < |g.stats| && CtxIn(g, ctx)
    ensures var c := |g.stats|;
      var p := BuiltExpr(cs.condition, Behind(g, parent), c);
      var r := BuiltBranch(cs.body, p.graph, p.block, next, ctx).graph;
      var h := BuiltClauses(cs.rest, r, p.block, next, ctx);
      && Start(Behind(g, parent), c) && |Behind(g, parent).stats| == c + 1 && Behind(g, parent).stats[c] == []
      && Grounded(p.graph, p.block) && CtxIn(p.graph, ctx) && c <= p.block < |p.graph.stats| < |r.stats|
      && Grounded(r, p.block) && CtxIn(r, ctx)
      && Same(r, h, {p.block}) && Same(p.graph, h, {p.block}) && h.stats[p.block] == p.graph.stats[p.block]
      && h.children[p.block] == {|p.graph.stats|, ClausesHead(cs.rest, r, next)}
  {
    var c := |g.stats|;
    var p := BuiltExpr(cs.condition, Behind(g, parent), c);
    BehindStarts(g, parent);
    ExprGrows(cs.condition, Behind(g, parent), c);
    var r := BuiltBranch(cs.body, p.graph, p.block, next, ctx).graph;
    BranchGrows(cs.body, p.graph, p.block, next, ctx);
    var h := BuiltClauses(cs.rest, r, p.block, next, ctx);
    ClausesGrow(cs.rest, r, p.block, next, ctx);
    SameGrown(p.graph, r, p.block);
    SameGrown(r, h, p.block);
    SameTransitive(p.graph, r, h, {p.block}, {p.block});
    assert {p.block} + {p.block} == {p.block};
  }

  lemma ClauseRun(cs: Clauses, next: Block, ctx: Context, F: Frame, n: nat, st: State, law: Law, taken: bool,
                  o: seq<Choice>)
    requires cs.Clause? && WellFormed(F.graph) && Fair(o, LaxOf(law))
    requires forall o :: Fair(o, LaxOf(law)) ==> EndsIn(F, n, {next}, ctx, ExecClauses(cs, st, o))
    ensures EndsIn(F, n, {next}, ctx, if taken then Exec(cs.body, st, o) else ExecClauses(cs.rest, st, o))
  {
    var c := Choice([], false, taken, false);
    FirstOf(c, o);
    FairCons(c, o, LaxOf(law));
    assert EndsIn(F, n, {next}, ctx, ExecClauses(cs, st, [c] + o));
    EndsInAfter(F, n, {next}, ctx, Eval(cs.condition, st, [c] + o).events,
                if taken then Exec(cs.body, st, o) else ExecClauses(cs.rest, st, o));
  }

  lemma ClauseRuns(cs: Clauses, next: Block, ctx: Context, F: Frame, n: nat, st: State, law: Law)
    requires cs.Clause? && WellFormed(F.graph)
    requires forall o :: Fair(o, LaxOf(law)) ==> EndsIn(F, n, {next}, ctx, ExecClauses(cs, st, o))
    ensures Looked(F, cs.condition, st) && PieceEnds(F, n, {next}, ctx, cs.body, st, law)
    ensures forall o :: Fair(o, LaxOf(law)) ==> EndsIn(F, n, {next}, ctx, ExecClauses(cs.rest, st, o))
  {
    ClauseLooked(cs, next, ctx, F, n, st, law);
    forall o | Fair(o, LaxOf(law)) ensures EndsIn(F, n, {next}, ctx, Exec(cs.body, st, o)) {
      ClauseRun(cs, next, ctx, F, n, st, law, true, o);
    }
    forall o | Fair(o, LaxOf(law)) ensures EndsIn(F, n, {next}, ctx, ExecClauses(cs.rest, st, o)) {
      ClauseRun(cs, next, ctx, F, n, st, law, false, o);
    }
  }

  lemma ClauseLooked(cs: Clauses, next: Block, ctx: Context, F: Frame, n: nat, st: State, law: Law)
    requires cs.Clause? && WellFormed(F.graph)
    requires forall o :: Fair(o, LaxOf(law)) ==> EndsIn(F, n, {next}, ctx, ExecClauses(cs, st, o))
    ensures Looked(F, cs.condition, st)
  {
    forall c: Choice | c.throws && !c.lax ensures Told(F, Eval(cs.condition, st, [c]).events) {
      assert Fair([c], LaxOf(law));
      assert EndsIn(F, n, {next}, ctx, ExecClauses(cs, st, [c]));
    }
    LookedByRuns(F, cs.condition, st);
  }

  // ------------------------------------------------------------------ assertions

  lemma TightAssert(s: Stmt, g: Graph, b: Block, ctx: Context, F: Frame, n: nat, st: State, law: Law)
    requires s.Assert? && WellFormed(F.graph) && StmtPlaced(F, s, g, b, ctx, law)
    requires StmtEnds(F, n, BuiltStmt(s, g, b, ctx), ctx, s, st, law)
    ensures SafeEnd(F, n, g, b, st)
  {
    var p := BuiltExpr(s.condition, Behind(AddBlock(g), b), |g.stats| + 1);
    var r := BuiltRaise(s.failure, Behind(p.graph, p.block), |p.graph.stats|, ctx).graph;
    AssertIsBuilt(s, g, b, ctx);
    TightAssertion(s, g, b, ctx, p, r, F, n, st, law);
  }

  lemma AssertIsBuilt(s: Stmt, g: Graph, b: Block, ctx: Context)
    requires s.Assert?
    ensures var p := BuiltExpr(s.condition, Behind(AddBlock(g), b), |g.stats| + 1);
      var r := BuiltRaise(s.failure, Behind(p.graph, p.block), |p.graph.stats|, ctx).graph;
      BuiltStmt(s, g, b, ctx) == End(Edge(r, |g.stats| + 1, |g.stats|), Some(|g.stats|))
  {
  }

  lemma TightAssertion(s: Stmt, g: Graph, b: Block, ctx: Context, p: Place, r: Graph, F: Frame, n: nat, st: State,
                       law: Law)
    requires s.Assert? && WellFormed(F.graph) && Start(g, b) && CtxIn(g, ctx)
    requires p == BuiltExpr(s.condition, Behind(AddBlock(g), b), |g.stats| + 1)
    requires r == BuiltRaise(s.failure, Behind(p.graph, p.block), |p.graph.stats|, ctx).graph
    requires var h := Edge(r, |g.stats| + 1, |g.stats|);
      Kept(h, F.graph, |g.stats|, b, Some(|g.stats|), false) && StmtEnds(F, n, End(h, Some(|g.stats|)), ctx, s, st, law)
    ensures SafeEnd(F, n, g, b, st)
  {
    AssertEntered(s, g, b, ctx, p, r, F.graph);
    AssertRuns(s, Edge(r, |g.stats| + 1, |g.stats|), |g.stats|, ctx, F, n, st, law);
    AssertInside(s, g, b, ctx, p, r, F, n, st);
    LeaveEdges(F, n, b, st);
  }

  lemma AssertEntered(s: Stmt, g: Graph, b: Block, ctx: Context, p: Place, r: Graph, G: Graph)
    requires s.Assert? && Start(g, b) && CtxIn(g, ctx)
    requires p == BuiltExpr(s.condition, Behind(AddBlock(g), b), |g.stats| + 1)
    requires r == BuiltRaise(s.failure, Behind(p.graph, p.block), |p.graph.stats|, ctx).graph
    requires Kept(Edge(r, |g.stats| + 1, |g.stats|), G, |g.stats|, b, Some(|g.stats|), false)
    ensures b < |G.stats| && G.stats[b] == g.stats[b] && G.children[b] == {|g.stats| + 1}
    ensures var h := Edge(r, |g.stats| + 1, |g.stats|); |g.stats| < |h.stats| && h.stats[|g.stats|] == []
  {
    AssertSteps(s, g, b, ctx, p, r);
    AssertKept(g, b, p, r, Edge(r, |g.stats| + 1, |g.stats|), G);
  }

  /** The failure, and then the condition in front of it. */
  lemma AssertInside(s: Stmt, g: Graph, b: Block, ctx: Context, p: Place, r: Graph, F: Frame, n: nat, st: State)
    requires s.Assert? && WellFormed(F.graph) && Start(g, b) && CtxIn(g, ctx)
    requires p == BuiltExpr(s.condition, Behind(AddBlock(g), b), |g.stats| + 1)
    requires r == BuiltRaise(s.failure, Behind(p.graph, p.block), |p.graph.stats|, ctx).graph
    requires Kept(Edge(r, |g.stats| + 1, |g.stats|), F.graph, |g.stats|, b, Some(|g.stats|), false)
    requires Looked(F, s.condition, st) && Looked(F, s.failure, st) && SafeAt(F, n, |g.stats|, st)
    requires ctx.handler.Some? ==> SafeAt(F, n, ctx.handler.value, st)
    ensures SafeAt(F, n, |g.stats| + 1, st)
  {
    var h := Edge(r, |g.stats| + 1, |g.stats|);
    AssertSteps(s, g, b, ctx, p, r);
    AssertKept(g, b, p, r, h, F.graph);
    TightLeave(s.failure, Behind(p.graph, p.block), |p.graph.stats|, ctx.handler, F, n, st);
    AssertCondition(s, g, b, p, r, h, F, n, st);
  }

  /** How the graph of an assertion comes about: the condition from `c` to `p.block`, behind
      that the failure, in `r`, and at last the way from `c` to `next`. */
  ghost predicate AssertFacts(g: Graph, b: Block, p: Place, r: Graph, h: Graph) {
    var next, c, d := |g.stats|, |g.stats| + 1, |p.graph.stats|;
    && Grounded(g, b) && c <= p.block < d < |r.stats| == |h.stats| && Grounded(p.graph, p.block)
    && Same(r, h, {c}) && Same(p.graph, h, {p.block} + {c})
    && h.stats[c] == p.graph.stats[c] && h.stats[p.block] == p.graph.stats[p.block] && h.stats[next] == []
    && h.stats[b] == g.stats[b] && h.children[b] == {c}
    && h.children[c] == p.graph.children[c] + {next} + (if p.block == c then {d} else {})
    && (p.block != c ==> h.children[p.block] == {d})
  }

  lemma AssertSteps(s: Stmt, g: Graph, b: Block, ctx: Context, p: Place, r: Graph)
    requires s.Assert? && Start(g, b) && CtxIn(g, ctx)
    requires p == BuiltExpr(s.condition, Behind(AddBlock(g), b), |g.stats| + 1)
    requires r == BuiltRaise(s.failure, Behind(p.graph, p.block), |p.graph.stats|, ctx).graph
    ensures AssertFacts(g, b, p, r, Edge(r, |g.stats| + 1, |g.stats|))
    ensures var f := Behind(p.graph, p.block);
      Start(f, |p.graph.stats|) && CtxIn(f, ctx) && f.stats[|p.graph.stats|] == [] && |f.stats| == |p.graph.stats| + 1
  {
    var next, c, g1 := |g.stats|, |g.stats| + 1, AddBlock(g);
    GrownByBlock(g, b);
    BehindStarts(g1, b);
    ExprGrows(s.condition, Behind(g1, b), c);
    BehindStarts(p.graph, p.block);
    RaiseGrows(s.failure, Behind(p.graph, p.block), |p.graph.stats|, ctx);
    BehindAttached(p.graph, p.block, r, None);
    AssertRows(g, b, p, r);
  }

  lemma AssertRows(g: Graph, b: Block, p: Place, r: Graph)
    requires Start(g, b) && Visited(Behind(AddBlock(g), b), p.graph, |g.stats| + 1, Some(p.block))
    requires Attached(p.graph, r, p.block) && r.children[p.block] == p.graph.children[p.block] + {|p.graph.stats|}
    requires |p.graph.stats| < |r.stats|
    ensures AssertFacts(g, b, p, r, Edge(r, |g.stats| + 1, |g.stats|))
  {
    var next, c := |g.stats|, |g.stats| + 1;
    GrownByBlock(g, b);
    BehindStarts(AddBlock(g), b);
    AttachedByEdge(r, c, next);
    SameGrown(r, Edge(r, c, next), c);
    SameGrown(p.graph, r, p.block);
    SameTransitive(p.graph, r, Edge(r, c, next), {p.block}, {c});
  }

  lemma AssertKept(g: Graph, b: Block, p: Place, r: Graph, h: Graph, G: Graph)
    requires AssertFacts(g, b, p, r, h) && Kept(h, G, |g.stats|, b, Some(|g.stats|), false)
    ensures Final(h, G, |g.stats| + 1) && Kept(r, G, |p.graph.stats| + 1, |p.graph.stats|, None, false)
    ensures Kept(p.graph, G, |g.stats| + 2, |g.stats| + 1, Some(p.block), true)
    ensures b < |G.stats| && G.stats[b] == h.stats[b] && G.children[b] == {|g.stats| + 1}
  {
    var next, c := |g.stats|, |g.stats| + 1;
    KeptIsFinal(h, G, |g.stats|, b, Some(next), false, c);
    FinalKept(r, h, G, c, |p.graph.stats|, None, {c});
    FinalKept(h, h, G, c, c, None, {});
    KeptMore(h, G, c + 1, c, None);
    KeptPart(p.graph, h, G, c + 1, c, None, true, c + 1, c, Some(p.block), {p.block} + {c});
    KeptFinal(h, G, |g.stats|, b, Some(next), false, b);
  }

  lemma AssertCondition(s: Stmt, g: Graph, b: Block, p: Place, r: Graph, h: Graph, F: Frame, n: nat, st: State)
    requires s.Assert? && WellFormed(F.graph) && Start(g, b) && AssertFacts(g, b, p, r, h)
    requires p == BuiltExpr(s.condition, Behind(AddBlock(g), b), |g.stats| + 1)
    requires Final(h, F.graph, |g.stats| + 1)
    requires Kept(p.graph, F.graph, |g.stats| + 2, |g.stats| + 1, Some(p.block), true)
    requires Looked(F, s.condition, st) && SafeAt(F, n, |g.stats|, st) && SafeAt(F, n, |p.graph.stats|, st)
    ensures SafeAt(F, n, |g.stats| + 1, st)
  {
    var c := |g.stats| + 1;
    GrownByBlock(g, b);
    BehindStarts(AddBlock(g), b);
    assert h.stats[p.block] == F.graph.stats[p.block] && h.stats[c] == F.graph.stats[c];
    ExprGrows(s.condition, Behind(AddBlock(g), b), c);
    LeaveEdges(F, n, p.block, st);
    TightExpr(s.condition, Behind(AddBlock(g), b), c, F, n, st);
  }

  lemma AssertRuns(s: Stmt, h: Graph, next: Block, ctx: Context, F: Frame, n: nat, st: State, law: Law)
    requires s.Assert? && WellFormed(F.graph) && next < |h.stats| && h.stats[next] == []
    requires StmtEnds(F, n, End(h, Some(next)), ctx, s, st, law)
    ensures Looked(F, s.condition, st) && Looked(F, s.failure, st) && SafeAt(F, n, next, st)
    ensures ctx.handler.Some? ==> SafeAt(F, n, ctx.handler.value, st)
  {
    LookedFirst(s, s.condition, ctx, F, n, End(h, Some(next)), st, law);
    var passed, failed := Choice([], false, true, false), Choice([], false, false, false);
    assert Fair([passed], LaxOf(law));
    assert Ends(F, n, h, Some(next), ctx, Exec(s, st, [passed]));
    forall c: Choice | !c.lax
      ensures Told(F, Eval(s.failure, st, [c]).events)
      ensures ctx.handler.Some? ==> SafeAt(F, n, ctx.handler.value, st)
    {
      FirstOf(failed, [c]);
      FairCons(failed, [c], LaxOf(law));
      assert Ends(F, n, h, Some(next), ctx, Exec(s, st, [failed] + [c]));
      EndsAfter(F, n, h, Some(next), ctx, Eval(s.condition, st, [failed] + [c]).events,
                Exec(Raise(s.failure), st, [c]));
    }
    LookedByRuns(F, s.failure, st);
    assert !failed.lax;
  }

  // ----------------------------------------------------------------------- loops

  /** How the graph `h` of a loop comes about: from the head up to `p`, with the body put
      behind that in `f`, and then the `else`. */
  ghost predicate LoopFacts(g: Graph, b: Block, p: Place, f: Graph, h: Graph) {
    var head, next := |g.stats|, |g.stats| + 1;
    && Start(g, b) && Start(LoopStart(g, b), head)
    && Grounded(p.graph, p.block) && Grounded(f, p.block) && next < |p.graph.stats|
    && (p.block == head || p.block >= head + 2) && |p.graph.stats| < |f.stats| <= |h.stats|
    && Same(p.graph, h, {p.block}) && Same(f, h, {p.block}) && h.stats[p.block] == p.graph.stats[p.block]
    && h.stats[next] == [] && h.children[next] == {} && h.stats[b] == g.stats[b] && h.children[b] == {head}
  }

  lemma LoopRows(g: Graph, b: Block, p: Place, f: Graph, h: Graph)
    requires Start(g, b) && Visited(LoopStart(g, b), p.graph, |g.stats|, Some(p.block))
    requires Attached(p.graph, f, p.block) && Attached(f, h, p.block) && |p.graph.stats| < |f.stats|
    ensures LoopFacts(g, b, p, f, h)
  {
    LoopStartAttached(g, b);
    LoopStartRows(g, b);
    SameGrown(p.graph, f, p.block);
    SameGrown(f, h, p.block);
    SameTransitive(p.graph, f, h, {p.block}, {p.block});
    assert {p.block} + {p.block} == {p.block};
  }

  lemma LoopStartRows(g: Graph, b: Block)
    requires Start(g, b)
    ensures var h := LoopStart(g, b);
      && h.children[b] == {|g.stats|} && h.stats[b] == g.stats[b] && |h.stats| == |g.stats| + 2
      && h.children[|g.stats| + 1] == {} && h.stats[|g.stats| + 1] == [] && h.stats[|g.stats|] == []
  {
  }

  lemma LoopKept(g: Graph, b: Block, p: Place, f: Graph, h: Graph, G: Graph)
    requires LoopFacts(g, b, p, f, h) && Kept(h, G, |g.stats|, b, Joined(h, |g.stats| + 1).block, false)
    ensures Final(f, G, |p.graph.stats|) && Final(h, G, |f.stats|)
    ensures Kept(p.graph, G, |g.stats| + 2, |g.stats|, Some(p.block), false)
    ensures p.block < |G.stats| && G.stats[p.block] == h.stats[p.block] && G.children[p.block] == h.children[p.block]
    ensures b < |G.stats| && G.stats[b] == g.stats[b] && G.children[b] == {|g.stats|}
  {
    var head, end := |g.stats|, Joined(h, |g.stats| + 1).block;
    KeptIsFinal(h, G, head, b, end, false, head + 2);
    FinalPart(f, h, G, head + 2, |p.graph.stats|, {p.block});
    FinalPart(h, h, G, head + 2, |f.stats|, {});
    KeptFinal(h, G, head, b, end, false, p.block);
    KeptFinal(h, G, head, b, end, false, b);
    KeptPart(p.graph, h, G, head, b, end, false, head + 2, head, Some(p.block), {p.block});
  }

  /** What the head of a loop evaluates, when its last block leads on safely. */
  lemma TightHead(e: Expr, g: Graph, b: Block, p: Place, F: Frame, n: nat, st: State)
    requires WellFormed(F.graph) && Start(g, b) && p == BuiltExpr(e, LoopStart(g, b), |g.stats|)
    requires Kept(p.graph, F.graph, |g.stats| + 2, |g.stats|, Some(p.block), false)
    requires p.block < |p.graph.stats| && F.graph.stats[p.block] == p.graph.stats[p.block] && Looked(F, e, st)
    requires n > 0 ==> forall c <- F.graph.children[p.block] :: SafeAt(F, n - 1, c, st)
    ensures SafeAt(F, n, |g.stats|, st)
  {
    LoopStartAttached(g, b);
    LoopStartRows(g, b);
    StepEdges(F, n, p.block, st);
    WholeIsPlaced(e, LoopStart(g, b), |g.stats|, F, n, st);
    TightExpr(e, LoopStart(g, b), |g.stats|, F, n, st);
  }

  /** So it is when both ways on are safe. */
  lemma LoopCondition(e: Expr, g: Graph, b: Block, p: Place, f: Graph, h: Graph, inside: Block, behind: Block, F: Frame,
                      n: nat, st: State)
    requires WellFormed(F.graph) && LoopFacts(g, b, p, f, h) && p == BuiltExpr(e, LoopStart(g, b), |g.stats|)
    requires Kept(h, F.graph, |g.stats|, b, Joined(h, |g.stats| + 1).block, false)
    requires h.children[p.block] == {inside, behind} && Looked(F, e, st)
    requires n > 0 ==> SafeAt(F, n - 1, inside, st) && SafeAt(F, n - 1, behind, st)
    ensures SafeAt(F, n, |g.stats|, st)
  {
    LoopKept(g, b, p, f, h, F.graph);
    TightHead(e, g, b, p, F, n, st);
  }

  lemma LoopEntered(g: Graph, b: Block, p: Place, f: Graph, h: Graph, F: Frame, n: nat, st: State)
    requires WellFormed(F.graph) && LoopFacts(g, b, p, f, h) && b < |g.stats| && SafeAt(F, n, |g.stats|, st)
    requires Kept(h, F.graph, |g.stats|, b, Joined(h, |g.stats| + 1).block, false)
    ensures SafeEnd(F, n, g, b, st)
  {
    LoopKept(g, b, p, f, h, F.graph);
    LeaveEdges(F, n, b, st);
  }

  // -------------------------------------------------------------- `while` loops

  /** The body of a `while` loop, with the way out behind it. */
  ghost function BodyGraph(s: Stmt, p: Place, head: Block, next: Block, ctx: Context): Graph
    requires s.While?
  {
    var r := BuiltBranch(s.body, p.graph, p.block, head, Inner(ctx, next, head));
    EdgeFrom(r.graph, r.block, Some(next))
  }

  /** A `while` loop that is visited from `b` on. */
  ghost predicate WhilePlaced(F: Frame, s: Stmt, g: Graph, b: Block, p: Place, f: Graph, h: Graph, ctx: Context,
                              law: Law)
  {
    var head, next := |g.stats|, |g.stats| + 1;
    && s.While? && Lawful(F, s, ctx, law) && CtxIn(g, ctx) && b < |g.children|
    && p == BuiltExpr(s.condition, LoopStart(g, b), head) && f == BodyGraph(s, p, head, next, ctx)
    && h == BuiltElse(s.orelse, f, p.block, next, ctx) && LoopFacts(g, b, p, f, h)
    && h.children[p.block] == {|p.graph.stats|, ElseHead(s.orelse, f, next)}
    && Kept(h, F.graph, |g.stats|, b, Joined(h, next).block, false)
  }

  lemma {:induction false} TightWhile(s: Stmt, g: Graph, b: Block, ctx: Context, F: Frame, n: nat, st: State, law: Law)
    requires s.While? && WellFormed(F.graph) && StmtPlaced(F, s, g, b, ctx, law)
    requires StmtEnds(F, n, BuiltStmt(s, g, b, ctx), ctx, s, st, law)
    ensures SafeEnd(F, n, g, b, st)
    decreases s, 2
  {
    var next := |g.stats| + 1;
    var p, f, h := WhileIsPlaced(s, g, b, ctx, F, law);
    RunsJoin(s, h, next, |g.stats|, b, ctx, F, n, st, law);
    WhileHead(s, g, b, p, f, h, ctx, F, n, st, law);
    LoopEntered(g, b, p, f, h, F, n, st);
  }

  lemma WhileIsPlaced(s: Stmt, g: Graph, b: Block, ctx: Context, F: Frame, law: Law)
    returns (p: Place, f: Graph, h: Graph)
    requires s.While? && WellFormed(F.graph) && StmtPlaced(F, s, g, b, ctx, law)
    ensures WhilePlaced(F, s, g, b, p, f, h, ctx, law) && BuiltStmt(s, g, b, ctx) == Joined(h, |g.stats| + 1)
  {
    var head, next := |g.stats|, |g.stats| + 1;
    LoopStartAttached(g, b);
    p := BuiltExpr(s.condition, LoopStart(g, b), head);
    ExprGrows(s.condition, LoopStart(g, b), head);
    f := BodyGraph(s, p, head, next, ctx);
    BodyGrows(s, p, head, next, ctx);
    h := BuiltElse(s.orelse, f, p.block, next, ctx);
    ElseGrows(s.orelse, f, p.block, next, ctx);
    LoopRows(g, b, p, f, h);
    WhileIsBuilt(s, g, b, ctx);
  }

  lemma WhileIsBuilt(s: Stmt, g: Graph, b: Block, ctx: Context)
    requires s.While? && Start(g, b)
    ensures var head, next := |g.stats|, |g.stats| + 1;
      var p := BuiltExpr(s.condition, LoopStart(g, b), head);
      BuiltStmt(s, g, b, ctx) ==
        Joined(BuiltElse(s.orelse, BodyGraph(s, p, head, next, ctx), p.block, next, ctx), next)
  {
    var head, next := |g.stats|, |g.stats| + 1;
    var p := BuiltExpr(s.condition, LoopStart(g, b), head);
    assert AddBlock(Behind(g, b)) == LoopStart(g, b);
    assert BuiltWhile(s, g, b, ctx) == Joined(BuiltWhileRest(s, p, head, next, ctx), next);
  }

  lemma BodyGrows(s: Stmt, p: Place, head: Block, next: Block, ctx: Context)
    requires s.While? && Grounded(p.graph, p.block) && head < |p.graph.stats| && next < |p.graph.stats|
    requires CtxIn(p.graph, ctx)
    ensures var f := BodyGraph(s, p, head, next, ctx);
      && Attached(p.graph, f, p.block) && |p.graph.stats| < |f.stats|
      && f.children[p.block] == p.graph.children[p.block] + {|p.graph.stats|}
  {
    var inner := Inner(ctx, next, head);
    var r := BuiltBranch(s.body, p.graph, p.block, head, inner);
    BranchGrows(s.body, p.graph, p.block, head, inner);
    BranchIsNew(s.body, p.graph, p.block, head, inner);
    if r.block.Some? {
      AttachedEdge(p.graph, r.graph, p.block, r.block.value, next);
    }
  }

  /** A branch makes at least one block. */
  lemma BranchIsNew(s: Stmt, g: Graph, parent: Block, next: Block, ctx: Context)
    requires Grounded(g, parent) && next < |g.stats| && CtxIn(g, ctx)
    ensures |BuiltBranch(s, g, parent, next, ctx).graph.stats| > |g.stats|
  {
    BehindStarts(g, parent);
    StmtGrows(s, Behind(g, parent), |g.stats|, ctx);
  }

  /** The head of the loop is safe, by induction on the number of moves. */
  lemma {:induction false} WhileHead(s: Stmt, g: Graph, b: Block, p: Place, f: Graph, h: Graph, ctx: Context, F: Frame,
                                     n: nat, st: State, law: Law)
    requires WellFormed(F.graph) && WhilePlaced(F, s, g, b, p, f, h, ctx, law)
    requires PieceEnds(F, n, {|g.stats| + 1}, ctx, s, st, law)
    ensures SafeAt(F, n, |g.stats|, st)
    decreases s, 1, n, 3
  {
    var next := |g.stats| + 1;
    LoopKept(g, b, p, f, h, F.graph);
    if n > 0 {
      WhileInside(s, g, b, p, f, h, ctx, F, n, st, law);
      WhileBehind(s, g, b, p, f, h, ctx, F, n, st, law);
    }
    WhileLooked(s, next, ctx, F, n, st, law);
    LoopCondition(s.condition, g, b, p, f, h, |p.graph.stats|, ElseHead(s.orelse, f, next), F, n, st);
  }

  lemma {:induction false} WhileInside(s: Stmt, g: Graph, b: Block, p: Place, f: Graph, h: Graph, ctx: Context,
                                       F: Frame, n: nat, st: State, law: Law)
    requires WellFormed(F.graph) && WhilePlaced(F, s, g, b, p, f, h, ctx, law) && n > 0
    requires PieceEnds(F, n, {|g.stats| + 1}, ctx, s, st, law)
    requires Final(f, F.graph, |p.graph.stats|)
    ensures SafeAt(F, n - 1, |p.graph.stats|, st)
    decreases s, 1, n, 2
  {
    WhileBodies(s, g, b, p, f, h, ctx, F, n, st, law);
    WhileStarts(s, p, f, |g.stats|, |g.stats| + 1, ctx, F, n - 1, st, law);
  }

  lemma {:induction false} WhileStarts(s: Stmt, p: Place, f: Graph, head: Block, next: Block, ctx: Context, F: Frame,
                                       n: nat, st: State, law: Law)
    requires s.While? && WellFormed(F.graph) && Lawful(F, s, ctx, law)
    requires Grounded(p.graph, p.block) && head < |p.graph.stats| && next < |p.graph.stats| && CtxIn(p.graph, ctx)
    requires f == BodyGraph(s, p, head, next, ctx) && Final(f, F.graph, |p.graph.stats|)
    requires PieceEnds(F, n, {head, next}, Inner(ctx, next, head), s.body, st, law)
    ensures SafeAt(F, n, |p.graph.stats|, st)
    decreases s, 0
  {
    var inner := Inner(ctx, next, head);
    WhileLawful(F, s, ctx, law);
    BodyPiece(s.body, p.graph, p.block, head, next, inner, F.graph);
    TightPiece(s.body, Behind(p.graph, p.block), |p.graph.stats|, inner, f, {head, next}, F, n, st, law);
  }

  lemma {:induction false} WhileBodies(s: Stmt, g: Graph, b: Block, p: Place, f: Graph, h: Graph, ctx: Context,
                                       F: Frame, n: nat, st: State, law: Law)
    requires WellFormed(F.graph) && WhilePlaced(F, s, g, b, p, f, h, ctx, law) && n > 0
    requires PieceEnds(F, n, {|g.stats| + 1}, ctx, s, st, law)
    ensures var head, next := |g.stats|, |g.stats| + 1;
      PieceEnds(F, n - 1, {head, next}, Inner(ctx, next, head), s.body, st, law)
    decreases s, 1, n, 1
  {
    var head, next := |g.stats|, |g.stats| + 1;
    forall o | Fair(o, LaxOf(law))
      ensures EndsIn(F, n - 1, {head, next}, Inner(ctx, next, head), Exec(s.body, st, o))
    {
      WhileBody(s, g, b, p, f, h, ctx, F, n, st, law, o);
    }
  }

  lemma {:induction false} WhileBehind(s: Stmt, g: Graph, b: Block, p: Place, f: Graph, h: Graph, ctx: Context,
                                       F: Frame, n: nat, st: State, law: Law)
    requires WellFormed(F.graph) && WhilePlaced(F, s, g, b, p, f, h, ctx, law) && n > 0
    requires PieceEnds(F, n, {|g.stats| + 1}, ctx, s, st, law)
    requires Final(h, F.graph, |f.stats|)
    ensures SafeAt(F, n - 1, ElseHead(s.orelse, f, |g.stats| + 1), st)
    decreases s, 1, n, 1
  {
    var next := |g.stats| + 1;
    forall o | Fair(o, LaxOf(law)) ensures EndsIn(F, n - 1, {next}, ctx, ExecElse(s.orelse, st, o)) {
      WhileElse(s, next, ctx, F, n, st, law, o);
    }
    WhileLawful(F, s, ctx, law);
    assert Final(BuiltElse(s.orelse, f, p.block, next, ctx), F.graph, |f.stats|);
    assert CtxIn(f, ctx);
    TightElse(s.orelse, f, p.block, next, ctx, F, n - 1, st, law);
  }

  lemma WhileLawful(F: Frame, s: Stmt, ctx: Context, law: Law)
    requires s.While? && Lawful(F, s, ctx, law)
    ensures LawfulIn(F, ctx, law) && Lawful(F, s.body, ctx, law)
    ensures s.orelse.Some? ==> Lawful(F, s.orelse.value, ctx, law)
  {
    assert ElseIn(s.orelse, F.lhs);
  }

  /** The body of a `while` loop is a piece that leads on to the head and out of the loop. */
  lemma BodyPiece(s: Stmt, g: Graph, parent: Block, head: Block, next: Block, ctx: Context, G: Graph)
    requires Grounded(g, parent) && head < |g.stats| && next < |g.stats| && CtxIn(g, ctx)
    requires var r := BuiltBranch(s, g, parent, head, ctx); Final(EdgeFrom(r.graph, r.block, Some(next)), G, |g.stats|)
    ensures var r := BuiltBranch(s, g, parent, head, ctx);
      Piece(s, Behind(g, parent), |g.stats|, ctx, EdgeFrom(r.graph, r.block, Some(next)), {head, next}, G)
  {
    BehindStarts(g, parent);
    StmtGrows(s, Behind(g, parent), |g.stats|, ctx);
    var q := BuiltStmt(s, Behind(g, parent), |g.stats|, ctx);
    if q.block.Some? {
      TwoEdges(q.graph, q.block.value, head, next);
    }
  }

  lemma TwoEdges(g: Graph, e: Block, head: Block, next: Block)
    requires WellFormed(g) && e < |g.stats| && head < |g.stats| && next < |g.stats| && g.children[e] == {}
    ensures var h := Edge(Edge(g, e, head), e, next);
      Same(g, h, {e}) && h.children[e] == {head, next} && h.stats == g.stats
  {
  }

  lemma WhileLooked(s: Stmt, next: Block, ctx: Context, F: Frame, n: nat, st: State, law: Law)
    requires s.While? && WellFormed(F.graph) && PieceEnds(F, n, {next}, ctx, s, st, law)
    ensures Looked(F, s.condition, st)
  {
    forall c: Choice | c.throws && !c.lax ensures Told(F, Eval(s.condition, st, [c]).events) {
      assert Fair([c], LaxOf(law));
      assert EndsIn(F, n, {next}, ctx, Exec(s, st, [c]));
    }
    LookedByRuns(F, s.condition, st);
  }

  lemma WhileElse(s: Stmt, next: Block, ctx: Context, F: Frame, n: nat, st: State, law: Law, o: seq<Choice>)
    requires s.While? && WellFormed(F.graph) && PieceEnds(F, n, {next}, ctx, s, st, law) && n > 0
    requires Fair(o, LaxOf(law))
    ensures EndsIn(F, n - 1, {next}, ctx, ExecElse(s.orelse, st, o))
  {
    var c := Choice([], false, false, false);
    FirstOf(c, o);
    FairCons(c, o, LaxOf(law));
    assert EndsIn(F, n, {next}, ctx, Exec(s, st, [c] + o));
    EndsInAfter(F, n, {next}, ctx, Eval(s.condition, st, [c] + o).events, ExecElse(s.orelse, st, o));
    EndsInWeaken(F, n - 1, n, {next}, ctx, ExecElse(s.orelse, st, o));
  }

  /** One iteration: its normal end and its `continue` lead to the head, one move less. */
  lemma {:induction false} WhileBody(s: Stmt, g: Graph, b: Block, p: Place, f: Graph, h: Graph, ctx: Context, F: Frame,
                                     n: nat, st: State, law: Law, o: seq<Choice>)
    requires WellFormed(F.graph) && WhilePlaced(F, s, g, b, p, f, h, ctx, law) && n > 0
    requires PieceEnds(F, n, {|g.stats| + 1}, ctx, s, st, law) && Fair(o, LaxOf(law))
    ensures var head, next := |g.stats|, |g.stats| + 1;
      EndsIn(F, n - 1, {head, next}, Inner(ctx, next, head), Exec(s.body, st, o))
    decreases s, 1, n, 0
  {
    var next := |g.stats| + 1;
    var x := Exec(s.body, st, o);
    Iterated(s, next, ctx, F, n, st, law, o);
    if x.outcome == Normal || x.outcome == Continued {
      WhileHead(s, g, b, p, f, h, ctx, F, n - 1, x.state, law);
      if x.outcome == Normal {
        WhileOut(s, next, ctx, F, n, st, law, o);
      }
    }
  }

  /** What one iteration does on its way out of the loop, and that the loop ends safely from
      where it goes on. */
  lemma {:induction false} Iterated(s: Stmt, next: Block, ctx: Context, F: Frame, n: nat, st: State, law: Law,
                                    o: seq<Choice>)
    requires s.While? && WellFormed(F.graph) && n > 0
    requires PieceEnds(F, n, {next}, ctx, s, st, law) && Fair(o, LaxOf(law))
    ensures var x := Exec(s.body, st, o);
      && Told(F, x.events)
      && (x.outcome != Normal && x.outcome != Continued ==> JumpsSafe(F, n - 1, Inner(ctx, next, next), x))
      && (x.outcome == Normal || x.outcome == Continued ==> PieceEnds(F, n - 1, {next}, ctx, s, x.state, law))
  {
    var c := Choice([], false, true, false);
    var x := Exec(s.body, st, o);
    FirstOf(c, o);
    FairCons(c, o, LaxOf(law));
    var y := Exec(s, st, [c] + o);
    assert EndsIn(F, n, {next}, ctx, y);
    EndsInWeaken(F, n - 1, n, {next}, ctx, y);
    if x.outcome == Normal || x.outcome == Continued {
      ToldParts(F, x.events, Exec(s, x.state, x.rest).events);
      forall z | Fair(z, LaxOf(law)) ensures EndsIn(F, n - 1, {next}, ctx, Exec(s, x.state, z)) {
        WhileGoesOn(s, next, ctx, F, n, st, law, o, z);
      }
    } else {
      assert y.events == x.events;
    }
  }

  lemma {:induction false} WhileGoesOn(s: Stmt, next: Block, ctx: Context, F: Frame, n: nat, st: State, law: Law,
                                       o: seq<Choice>, z: seq<Choice>)
    requires s.While? && WellFormed(F.graph) && n > 0 && Fair(o, LaxOf(law)) && Fair(z, LaxOf(law))
    requires PieceEnds(F, n, {next}, ctx, s, st, law)
    requires Exec(s.body, st, o).outcome == Normal || Exec(s.body, st, o).outcome == Continued
    ensures EndsIn(F, n - 1, {next}, ctx, Exec(s, Exec(s.body, st, o).state, z))
  {
    var c := Choice([], false, true, false);
    var x := Exec(s.body, st, o);
    ExecSplices(s.body, st, o, z);
    FairSwap(o, x.rest, z, LaxOf(law));
    var o' := Other(o, x, z);
    FirstOf(c, o');
    FairCons(c, o', LaxOf(law));
    var y := Exec(s, x.state, z);
    assert EndsIn(F, n, {next}, ctx, Exec(s, st, [c] + o'));
    assert Exec(s, st, [c] + o') == After([] + x.events, y);
    EndsInAfter(F, n, {next}, ctx, [] + x.events, y);
    EndsInWeaken(F, n - 1, n, {next}, ctx, y);
  }

  /** The liberty to leave a loop behind its body. */
  lemma LeavesBehind(s: Stmt, st: State, c: Choice, o: seq<Choice>)
    requires s.While? && c.lax && c.taken && !c.throws && Exec(s.body, st, o).outcome == Normal
    ensures var r := Exec(s, st, [c] + o); r.outcome == Normal && r.state == Exec(s.body, st, o).state
  {
    FirstOf(c, o);
    var e := Eval(s.condition, st, [c] + o);
    assert e.outcome == Normal && e.rest == o;
  }

  /** Leaving a loop before its body, which does nothing more if there is no `else`. */
  lemma LeavesBefore(s: Stmt, st: State, c: Choice)
    requires s.While? && s.orelse.None? && !c.taken && !c.throws
    ensures var r := Exec(s, st, [c]); r.outcome == Normal && r.state == st
  {
    var e := Eval(s.condition, st, [c]);
    assert e.outcome == Normal && ExecElse(s.orelse, st, e.rest) == Result([], Normal, st, e.rest);
  }

  /** The edge from the end of the body out of the loop: a liberty, or the same as going over
      the condition once more when there is no `else`. */
  lemma {:induction false} WhileOut(s: Stmt, next: Block, ctx: Context, F: Frame, n: nat, st: State, law: Law,
                                    o: seq<Choice>)
    requires s.While? && WellFormed(F.graph) && n > 0 && (law.Any? || s.orelse.None?)
    requires PieceEnds(F, n, {next}, ctx, s, st, law) && Fair(o, LaxOf(law)) && Exec(s.body, st, o).outcome == Normal
    ensures SafeAt(F, n - 1, next, Exec(s.body, st, o).state)
  {
    var x := Exec(s.body, st, o);
    if law.Any? {
      var c := Choice([], false, true, true);
      FirstOf(c, o);
      LeavesBehind(s, st, c, o);
      assert EndsIn(F, n, {next}, ctx, Exec(s, st, [c] + o));
      assert SafeAt(F, n, next, x.state);
      SafeWeaken(F, n - 1, n, Point(next, 0, x.state));
    } else {
      var c := Choice([], false, false, false);
      assert Fair([c], LaxOf(law));
      WhileGoesOn(s, next, ctx, F, n, st, law, o, [c]);
      LeavesBefore(s, x.state, c);
      assert next in {next};
    }
  }

  // ---------------------------------------------------------------- `for` loops

  /** The target of a `for` loop, behind its iterable. */
  function ForTarget(s: Stmt, p: Place, ctx: Context): Place
    requires s.ForIn?
  {
    BuiltTarget(s.target, Behind(p.graph, p.block), |p.graph.stats|, ctx.handler)
  }

  ghost function ForBody(s: Stmt, p: Place, head: Block, next: Block, ctx: Context): Graph
    requires s.ForIn?
  {
    var t := ForTarget(s, p, ctx);
    BuiltBranch(s.body, t.graph, t.block, head, Inner(ctx, next, head)).graph
  }

  /** A `for` loop that is visited from `b` on. */
  ghost predicate ForPlaced(F: Frame, s: Stmt, g: Graph, b: Block, p: Place, f: Graph, h: Graph, ctx: Context,
                            law: Law)
  {
    var head, next := |g.stats|, |g.stats| + 1;
    && s.ForIn? && Lawful(F, s, ctx, law) && CtxIn(g, ctx) && b < |g.children|
    && p == BuiltExpr(s.iterable, LoopStart(g, b), head) && f == ForBody(s, p, head, next, ctx)
    && h == BuiltElse(s.orelse, f, p.block, next, ctx) && LoopFacts(g, b, p, f, h)
    && h.children[p.block] == {|p.graph.stats|, ElseHead(s.orelse, f, next)}
    && Kept(h, F.graph, |g.stats|, b, Joined(h, next).block, false)
  }

  ghost predicate ForEnds(F: Frame, n: nat, next: Block, ctx: Context, s: Stmt, st: State, law: Law)
    requires WellFormed(F.graph) && s.ForIn?
  {
    forall o :: Fair(o, LaxOf(law)) ==>
      EndsIn(F, n, {next}, ctx, ExecFor(s.iterable, s.target, s.body, s.orelse, st, o))
  }

  lemma {:induction false} TightFor(s: Stmt, g: Graph, b: Block, ctx: Context, F: Frame, n: nat, st: State, law: Law)
    requires s.ForIn? && WellFormed(F.graph) && StmtPlaced(F, s, g, b, ctx, law)
    requires StmtEnds(F, n, BuiltStmt(s, g, b, ctx), ctx, s, st, law)
    ensures SafeEnd(F, n, g, b, st)
    decreases s, 2
  {
    var next := |g.stats| + 1;
    var p, f, h := ForIsPlaced(s, g, b, ctx, F, law);
    RunsJoin(s, h, next, |g.stats|, b, ctx, F, n, st, law);
    ForRuns(s, next, h, ctx, F, n, st, law);
    ForHead(s, g, b, p, f, h, ctx, F, n, st, law);
    LoopEntered(g, b, p, f, h, F, n, st);
  }

  /** The runs behind the iterable. */
  lemma ForRuns(s: Stmt, next: Block, h: Graph, ctx: Context, F: Frame, n: nat, st: State, law: Law)
    requires s.ForIn? && WellFormed(F.graph) && PieceEnds(F, n, {next}, ctx, s, st, law)
    requires StmtEnds(F, n, Joined(h, next), ctx, s, st, law)
    ensures Looked(F, s.iterable, st) && ForEnds(F, n, next, ctx, s, st, law)
  {
    LookedFirst(s, s.iterable, ctx, F, n, Joined(h, next), st, law);
    forall o | Fair(o, LaxOf(law))
      ensures EndsIn(F, n, {next}, ctx, ExecFor(s.iterable, s.target, s.body, s.orelse, st, o))
    {
      var c := Choice([], false, false, false);
      FirstOf(c, o);
      FairCons(c, o, LaxOf(law));
      assert EndsIn(F, n, {next}, ctx, Exec(s, st, [c] + o));
      EndsInAfter(F, n, {next}, ctx, Eval(s.iterable, st, [c] + o).events,
                  ExecFor(s.iterable, s.target, s.body, s.orelse, st, o));
    }
  }

  lemma ForIsPlaced(s: Stmt, g: Graph, b: Block, ctx: Context, F: Frame, law: Law)
    returns (p: Place, f: Graph, h: Graph)
    requires s.ForIn? && WellFormed(F.graph) && StmtPlaced(F, s, g, b, ctx, law)
    ensures ForPlaced(F, s, g, b, p, f, h, ctx, law) && BuiltStmt(s, g, b, ctx) == Joined(h, |g.stats| + 1)
  {
    var head, next := |g.stats|, |g.stats| + 1;
    LoopStartAttached(g, b);
    p := BuiltExpr(s.iterable, LoopStart(g, b), head);
    ExprGrows(s.iterable, LoopStart(g, b), head);
    f := ForBody(s, p, head, next, ctx);
    ForBodyBehind(s, p, head, next, ctx, f);
    h := BuiltElse(s.orelse, f, p.block, next, ctx);
    ElseGrows(s.orelse, f, p.block, next, ctx);
    LoopRows(g, b, p, f, h);
    ForIsBuilt(s, g, b, ctx);
  }

  lemma ForIsBuilt(s: Stmt, g: Graph, b: Block, ctx: Context)
    requires s.ForIn? && Start(g, b)
    ensures var head, next := |g.stats|, |g.stats| + 1;
      var p := BuiltExpr(s.iterable, LoopStart(g, b), head);
      BuiltStmt(s, g, b, ctx) == Joined(BuiltElse(s.orelse, ForBody(s, p, head, next, ctx), p.block, next, ctx), next)
  {
    var head, next := |g.stats|, |g.stats| + 1;
    var p := BuiltExpr(s.iterable, LoopStart(g, b), head);
    assert AddBlock(Behind(g, b)) == LoopStart(g, b);
    assert BuiltFor(s, g, b, ctx) == Joined(BuiltForRest(s, p, head, next, ctx), next);
  }

  /** The target's blocks and then those of the body. */
  lemma ForBodyGrows(s: Stmt, p: Place, head: Block, next: Block, ctx: Context)
    requires s.ForIn? && Grounded(p.graph, p.block) && head < |p.graph.stats| && next < |p.graph.stats|
    requires CtxIn(p.graph, ctx)
    ensures var f, t, c := ForBody(s, p, head, next, ctx), ForTarget(s, p, ctx), |p.graph.stats|;
      && Attached(p.graph, f, p.block) && c < |f.stats|
      && f.children[p.block] == p.graph.children[p.block] + {c}
      && Start(Behind(p.graph, p.block), c) && Behind(p.graph, p.block).stats[c] == []
      && |Behind(p.graph, p.block).stats| == c + 1 && Start(t.graph, t.block)
      && c <= t.block < |t.graph.stats| < |f.stats| && Same(t.graph, f, {t.block})
      && f.stats[t.block] == t.graph.stats[t.block] && f.children[t.block] == {|t.graph.stats|}
  {
    var t := ForTarget(s, p, ctx);
    BehindStarts(p.graph, p.block);
    TargetGrows(s.target, Behind(p.graph, p.block), |p.graph.stats|, ctx.handler);
    BehindAttached(p.graph, p.block, t.graph, Some(t.block));
    var inner := Inner(ctx, next, head);
    BranchGrows(s.body, t.graph, t.block, head, inner);
    BranchIsNew(s.body, t.graph, t.block, head, inner);
    var f := ForBody(s, p, head, next, ctx);
    AttachedTransitive(p.graph, t.graph, f, p.block, t.block);
    SameGrown(t.graph, f, t.block);
  }

  lemma ForBodyBehind(s: Stmt, p: Place, head: Block, next: Block, ctx: Context, f: Graph)
    requires s.ForIn? && Grounded(p.graph, p.block) && head < |p.graph.stats| && next < |p.graph.stats|
    requires CtxIn(p.graph, ctx) && f == ForBody(s, p, head, next, ctx)
    ensures Attached(p.graph, f, p.block) && |p.graph.stats| < |f.stats|
    ensures f.children[p.block] == p.graph.children[p.block] + {|p.graph.stats|}
  {
    ForBodyGrows(s, p, head, next, ctx);
  }

  lemma {:induction false} ForHead(s: Stmt, g: Graph, b: Block, p: Place, f: Graph, h: Graph, ctx: Context, F: Frame,
                                   n: nat, st: State, law: Law)
    requires WellFormed(F.graph) && ForPlaced(F, s, g, b, p, f, h, ctx, law)
    requires ForEnds(F, n, |g.stats| + 1, ctx, s, st, law) && Looked(F, s.iterable, st)
    ensures SafeAt(F, n, |g.stats|, st)
    decreases s, 1, n, 3
  {
    LoopKept(g, b, p, f, h, F.graph);
    if n > 0 {
      ForInside(s, g, b, p, f, h, ctx, F, n, st, law);
      ForBehind(s, g, b, p, f, h, ctx, F, n, st, law);
    }
    LoopCondition(s.iterable, g, b, p, f, h, |p.graph.stats|, ElseHead(s.orelse, f, |g.stats| + 1), F, n, st);
  }

  lemma ForLawful(F: Frame, s: Stmt, ctx: Context, law: Law)
    requires s.ForIn? && Lawful(F, s, ctx, law)
    ensures LawfulIn(F, ctx, law) && Lawful(F, s.body, ctx, law) && TargetIn(s.target, F.lhs)
    ensures s.orelse.Some? ==> Lawful(F, s.orelse.value, ctx, law)
  {
    assert ElseIn(s.orelse, F.lhs);
  }

  lemma {:induction false} ForBehind(s: Stmt, g: Graph, b: Block, p: Place, f: Graph, h: Graph, ctx: Context,
                                     F: Frame, n: nat, st: State, law: Law)
    requires WellFormed(F.graph) && ForPlaced(F, s, g, b, p, f, h, ctx, law) && n > 0
    requires ForEnds(F, n, |g.stats| + 1, ctx, s, st, law)
    requires Final(h, F.graph, |f.stats|)
    ensures SafeAt(F, n - 1, ElseHead(s.orelse, f, |g.stats| + 1), st)
    decreases s, 1, n, 1
  {
    var next := |g.stats| + 1;
    forall o | Fair(o, LaxOf(law)) ensures EndsIn(F, n - 1, {next}, ctx, ExecElse(s.orelse, st, o)) {
      var c := Choice([], false, false, false);
      FirstOf(c, o);
      FairCons(c, o, LaxOf(law));
      assert EndsIn(F, n, {next}, ctx, ExecFor(s.iterable, s.target, s.body, s.orelse, st, [c] + o));
      EndsInAfter(F, n, {next}, ctx, [], ExecElse(s.orelse, st, o));
      EndsInWeaken(F, n - 1, n, {next}, ctx, ExecElse(s.orelse, st, o));
    }
    ForLawful(F, s, ctx, law);
    assert CtxIn(f, ctx);
    TightElse(s.orelse, f, p.block, next, ctx, F, n - 1, st, law);
  }

  /** An iteration: binding the target, and the body with it bound. */
  lemma {:induction false} ForInside(s: Stmt, g: Graph, b: Block, p: Place, f: Graph, h: Graph, ctx: Context,
                                     F: Frame, n: nat, st: State, law: Law)
    requires WellFormed(F.graph) && ForPlaced(F, s, g, b, p, f, h, ctx, law) && n > 0
    requires ForEnds(F, n, |g.stats| + 1, ctx, s, st, law) && Looked(F, s.iterable, st)
    requires Final(f, F.graph, |p.graph.stats|)
    ensures SafeAt(F, n - 1, |p.graph.stats|, st)
    decreases s, 1, n, 2
  {
    var head, next := |g.stats|, |g.stats| + 1;
    ForItems(s, g, b, p, f, h, ctx, F, n, st, law);
    ForStarts(s, p, f, head, next, ctx, F, n, st, law);
  }

  lemma {:induction false} ForStarts(s: Stmt, p: Place, f: Graph, head: Block, next: Block, ctx: Context, F: Frame,
                                     n: nat, st: State, law: Law)
    requires s.ForIn? && WellFormed(F.graph) && n > 0 && Lawful(F, s, ctx, law)
    requires Grounded(p.graph, p.block) && head < |p.graph.stats| && next < |p.graph.stats| && CtxIn(p.graph, ctx)
    requires f == ForBody(s, p, head, next, ctx) && Final(f, F.graph, |p.graph.stats|)
    requires ItemEnds(F, n - 1, {head}, Inner(ctx, next, head), Some(s.target), s.body, st, law)
    ensures SafeAt(F, n - 1, |p.graph.stats|, st)
    decreases s, 0, 2
  {
    ForLawful(F, s, ctx, law);
    ForBounds(s, p, f, head, next, ctx, F, n, st, law);
    ForTargetSafe(s, p, f, head, next, ctx, F, n - 1, st, law);
  }

  lemma ForTargetSafe(s: Stmt, p: Place, f: Graph, head: Block, next: Block, ctx: Context, F: Frame, n: nat, st: State,
                      law: Law)
    requires s.ForIn? && WellFormed(F.graph) && TargetIn(s.target, F.lhs) && (law.Any? || ctx.handler.None?)
    requires Grounded(p.graph, p.block) && head < |p.graph.stats| && next < |p.graph.stats| && CtxIn(p.graph, ctx)
    requires f == ForBody(s, p, head, next, ctx) && Final(f, F.graph, |p.graph.stats|)
    requires TargetEnds(F, n, ForTarget(s, p, ctx), Inner(ctx, next, head), s.target, st, law)
    ensures SafeAt(F, n, |p.graph.stats|, st)
  {
    var t := ForTarget(s, p, ctx);
    ForBodyGrows(s, p, head, next, ctx);
    FinalKept(t.graph, f, F.graph, |p.graph.stats|, |p.graph.stats|, Some(t.block), {t.block});
    TightTarget(s.target, Behind(p.graph, p.block), |p.graph.stats|, Inner(ctx, next, head), F, n, st, law);
  }

  lemma {:induction false} ForItems(s: Stmt, g: Graph, b: Block, p: Place, f: Graph, h: Graph, ctx: Context, F: Frame,
                                    n: nat, st: State, law: Law)
    requires WellFormed(F.graph) && ForPlaced(F, s, g, b, p, f, h, ctx, law) && n > 0
    requires ForEnds(F, n, |g.stats| + 1, ctx, s, st, law) && Looked(F, s.iterable, st)
    ensures var head, next := |g.stats|, |g.stats| + 1;
      ItemEnds(F, n - 1, {head}, Inner(ctx, next, head), Some(s.target), s.body, st, law)
    decreases s, 1, n, 1
  {
    var head, next := |g.stats|, |g.stats| + 1;
    forall o | Fair(o, LaxOf(law))
      ensures EndsIn(F, n - 1, {head}, Inner(ctx, next, head), ExecItem(Some(s.target), s.body, st, o))
    {
      ForItem(s, g, b, p, f, h, ctx, F, n, st, law, o);
    }
  }

  ghost predicate ItemEnds(F: Frame, n: nat, outs: set<Block>, ctx: Context, target: Option<Target>, body: Stmt,
                           st: State, law: Law)
    requires WellFormed(F.graph)
  {
    forall o :: Fair(o, LaxOf(law)) ==> EndsIn(F, n, outs, ctx, ExecItem(target, body, st, o))
  }

  lemma {:induction false} ForBounds(s: Stmt, p: Place, f: Graph, head: Block, next: Block, ctx: Context, F: Frame,
                                     n: nat, st: State, law: Law)
    requires s.ForIn? && WellFormed(F.graph) && n > 0 && Lawful(F, s.body, ctx, law)
    requires Grounded(p.graph, p.block) && head < |p.graph.stats| && next < |p.graph.stats| && CtxIn(p.graph, ctx)
    requires f == ForBody(s, p, head, next, ctx) && Final(f, F.graph, |p.graph.stats|)
    requires ItemEnds(F, n - 1, {head}, Inner(ctx, next, head), Some(s.target), s.body, st, law)
    ensures TargetEnds(F, n - 1, ForTarget(s, p, ctx), Inner(ctx, next, head), s.target, st, law)
    decreases s, 0, 1
  {
    forall o | Fair(o, LaxOf(law))
      ensures Ends(F, n - 1, ForTarget(s, p, ctx).graph, Some(ForTarget(s, p, ctx).block), Inner(ctx, next, head),
                   Bind(s.target, st, o))
    {
      ForBound(s, p, f, head, next, ctx, F, n, st, law, o);
    }
  }

  /** Where the target is bound the body's first block is safe. */
  lemma {:induction false} ForBound(s: Stmt, p: Place, f: Graph, head: Block, next: Block, ctx: Context, F: Frame,
                                    n: nat, st: State, law: Law, o: seq<Choice>)
    requires s.ForIn? && WellFormed(F.graph) && n > 0 && Fair(o, LaxOf(law)) && Lawful(F, s.body, ctx, law)
    requires Grounded(p.graph, p.block) && head < |p.graph.stats| && next < |p.graph.stats| && CtxIn(p.graph, ctx)
    requires f == ForBody(s, p, head, next, ctx) && Final(f, F.graph, |p.graph.stats|)
    requires ItemEnds(F, n - 1, {head}, Inner(ctx, next, head), Some(s.target), s.body, st, law)
    ensures var t := ForTarget(s, p, ctx);
      Ends(F, n - 1, t.graph, Some(t.block), Inner(ctx, next, head), Bind(s.target, st, o))
    decreases s, 0, 0
  {
    var inner, t := Inner(ctx, next, head), ForTarget(s, p, ctx);
    var x := Bind(s.target, st, o);
    ForBodyGrows(s, p, head, next, ctx);
    ItemStarts(s.target, s.body, {head}, inner, F, n - 1, st, law, o);
    if x.outcome == Normal {
      FinalPart(f, f, F.graph, |p.graph.stats|, |t.graph.stats|, {});
      assert f.stats[t.block] == F.graph.stats[t.block];
      BodyBehind(s.body, t, f, head, inner, F, n - 1, x.state, law);
    }
  }

  /** The body of the loop behind its target. */
  lemma {:induction false} BodyBehind(body: Stmt, t: Place, f: Graph, head: Block, inner: Context, F: Frame, n: nat,
                                      st: State, law: Law)
    requires WellFormed(F.graph) && Grounded(t.graph, t.block) && head < |t.graph.stats| && CtxIn(t.graph, inner)
    requires f == BuiltBranch(body, t.graph, t.block, head, inner).graph && Final(f, F.graph, |t.graph.stats|)
    requires t.block < |F.graph.stats| && F.graph.stats[t.block] == t.graph.stats[t.block]
    requires F.graph.children[t.block] == {|t.graph.stats|}
    requires Lawful(F, body, inner, law) && PieceEnds(F, n, {head}, inner, body, st, law)
    ensures SafeEnd(F, n, t.graph, t.block, st)
    decreases body, 5
  {
    BranchPiece(body, t.graph, t.block, head, inner, f, F.graph);
    TightPiece(body, Behind(t.graph, t.block), |t.graph.stats|, inner, f, {head}, F, n, st, law);
    LeaveEdges(F, n, t.block, st);
  }

  /** A run of a target with a body behind it starts with a run of the target; the body may
      then do anything. */
  lemma ItemStarts(target: Target, body: Stmt, outs: set<Block>, ctx: Context, F: Frame, n: nat, st: State, law: Law,
                   o: seq<Choice>)
    requires WellFormed(F.graph) && Fair(o, LaxOf(law))
    requires ItemEnds(F, n, outs, ctx, Some(target), body, st, law)
    ensures var x := Bind(target, st, o);
      && Told(F, x.events) && (x.outcome != Normal ==> JumpsSafe(F, n, ctx, x))
      && (x.outcome == Normal ==> PieceEnds(F, n, outs, ctx, body, x.state, law))
  {
    var x := Bind(target, st, o);
    assert EndsIn(F, n, outs, ctx, ExecItem(Some(target), body, st, o));
    if x.outcome == Normal {
      EndsInAfter(F, n, outs, ctx, x.events, Exec(body, x.state, x.rest));
      forall y | Fair(y, LaxOf(law)) ensures EndsIn(F, n, outs, ctx, Exec(body, x.state, y)) {
        BindSplices(target, st, o, y);
        FairSwap(o, x.rest, y, LaxOf(law));
        assert EndsIn(F, n, outs, ctx, ExecItem(Some(target), body, st, Other(o, x, y)));
        EndsInAfter(F, n, outs, ctx, x.events, Exec(body, x.state, y));
      }
    }
  }

  /** One iteration: its normal end and its `continue` lead to the head, one move less. */
  lemma {:induction false} ForItem(s: Stmt, g: Graph, b: Block, p: Place, f: Graph, h: Graph, ctx: Context, F: Frame,
                                   n: nat, st: State, law: Law, o: seq<Choice>)
    requires WellFormed(F.graph) && ForPlaced(F, s, g, b, p, f, h, ctx, law) && n > 0
    requires ForEnds(F, n, |g.stats| + 1, ctx, s, st, law) && Looked(F, s.iterable, st) && Fair(o, LaxOf(law))
    ensures var head, next := |g.stats|, |g.stats| + 1;
      EndsIn(F, n - 1, {head}, Inner(ctx, next, head), ExecItem(Some(s.target), s.body, st, o))
    decreases s, 1, n, 0
  {
    var next := |g.stats| + 1;
    var x := ExecItem(Some(s.target), s.body, st, o);
    ForIterated(s, next, ctx, F, n, st, law, o);
    if x.outcome == Normal || x.outcome == Continued {
      AgainLooked(s, next, ctx, F, n, st, law, o);
      ForHead(s, g, b, p, f, h, ctx, F, n - 1, x.state, law);
    }
  }

  lemma {:induction false} ForIterated(s: Stmt, next: Block, ctx: Context, F: Frame, n: nat, st: State, law: Law,
                                       o: seq<Choice>)
    requires s.ForIn? && WellFormed(F.graph) && n > 0
    requires ForEnds(F, n, next, ctx, s, st, law) && Fair(o, LaxOf(law))
    ensures var x := ExecItem(Some(s.target), s.body, st, o);
      && Told(F, x.events)
      && (x.outcome != Normal && x.outcome != Continued ==> JumpsSafe(F, n - 1, Inner(ctx, next, next), x))
      && (x.outcome == Normal || x.outcome == Continued ==> ForEnds(F, n - 1, next, ctx, s, x.state, law))
  {
    var c := Choice([], false, true, false);
    var x := ExecItem(Some(s.target), s.body, st, o);
    FirstOf(c, o);
    FairCons(c, o, LaxOf(law));
    var y := ExecFor(s.iterable, s.target, s.body, s.orelse, st, [c] + o);
    assert EndsIn(F, n, {next}, ctx, y);
    EndsInWeaken(F, n - 1, n, {next}, ctx, y);
    if x.outcome == Normal || x.outcome == Continued {
      var z := ExecFor(s.iterable, s.target, s.body, s.orelse, x.state, x.rest);
      assert y.events == x.events + z.events;
      ToldParts(F, x.events, z.events);
      forall z | Fair(z, LaxOf(law))
        ensures EndsIn(F, n - 1, {next}, ctx, ExecFor(s.iterable, s.target, s.body, s.orelse, x.state, z))
      {
        ForGoesOn(s, next, ctx, F, n, st, law, o, z);
      }
    } else {
      assert y.events == x.events;
    }
  }

  lemma {:induction false} ForGoesOn(s: Stmt, next: Block, ctx: Context, F: Frame, n: nat, st: State, law: Law,
                                     o: seq<Choice>, z: seq<Choice>)
    requires s.ForIn? && WellFormed(F.graph) && n > 0 && Fair(o, LaxOf(law)) && Fair(z, LaxOf(law))
    requires ForEnds(F, n, next, ctx, s, st, law)
    requires var x := ExecItem(Some(s.target), s.body, st, o); x.outcome == Normal || x.outcome == Continued
    ensures EndsIn(F, n - 1, {next}, ctx,
                   ExecFor(s.iterable, s.target, s.body, s.orelse, ExecItem(Some(s.target), s.body, st, o).state, z))
  {
    var c := Choice([], false, true, false);
    var x := ExecItem(Some(s.target), s.body, st, o);
    ItemSplices(Some(s.target), s.body, st, o, z);
    FairSwap(o, x.rest, z, LaxOf(law));
    var o' := Other(o, x, z);
    FirstOf(c, o');
    FairCons(c, o', LaxOf(law));
    var y := ExecFor(s.iterable, s.target, s.body, s.orelse, x.state, z);
    var w := ExecFor(s.iterable, s.target, s.body, s.orelse, st, [c] + o');
    assert EndsIn(F, n, {next}, ctx, w);
    assert w == After([] + x.events, y);
    EndsInAfter(F, n, {next}, ctx, [] + x.events, y);
    EndsInWeaken(F, n - 1, n, {next}, ctx, y);
  }

  /** Behind an iteration the iterable may be read again: a liberty; or it has no names; or
      what is unassigned of it now was so before. */
  lemma AgainLooked(s: Stmt, next: Block, ctx: Context, F: Frame, n: nat, st: State, law: Law, o: seq<Choice>)
    requires s.ForIn? && WellFormed(F.graph) && n > 0 && Lawful(F, s, ctx, law) && Fair(o, LaxOf(law))
    requires ForEnds(F, n, next, ctx, s, st, law) && Looked(F, s.iterable, st)
    requires var x := ExecItem(Some(s.target), s.body, st, o); x.outcome == Normal || x.outcome == Continued
    ensures Looked(F, s.iterable, ExecItem(Some(s.target), s.body, st, o).state)
  {
    var x := ExecItem(Some(s.target), s.body, st, o);
    forall ref | ref in Refs(s.iterable) ensures Read(ref.0, ref.1, x.state) in F.told {
      if law.Any? {
        var i: nat :| i < |Refs(s.iterable)| && Refs(s.iterable)[i] == ref;
        ReadAgain(s, next, ctx, F, n, st, law, o, i);
      } else {
        assert Plain(s, law) && law.Unassigned? && !Deletes(s.body, ref.1);
        if ref.1 in st {
          ItemKeeps(Some(s.target), s.body, ref.1, st, o);
        } else {
          assert Read(ref.0, ref.1, st) in F.told;
        }
      }
    }
  }

  lemma ReadAgain(s: Stmt, next: Block, ctx: Context, F: Frame, n: nat, st: State, law: Law, o: seq<Choice>, i: nat)
    requires s.ForIn? && WellFormed(F.graph) && n > 0 && law.Any? && ForEnds(F, n, next, ctx, s, st, law)
    requires var x := ExecItem(Some(s.target), s.body, st, o); x.outcome == Normal || x.outcome == Continued
    requires i < |Refs(s.iterable)|
    ensures var ref := Refs(s.iterable)[i];
      Read(ref.0, ref.1, ExecItem(Some(s.target), s.body, st, o).state) in F.told
  {
    var x := ExecItem(Some(s.target), s.body, st, o);
    var z := [Choice([i], true, false, true)];
    ForGoesOn(s, next, ctx, F, n, st, law, o, z);
    var y := ExecFor(s.iterable, s.target, s.body, s.orelse, x.state, z);
    assert Reads(Refs(s.iterable), [i], x.state)[0] == Read(Refs(s.iterable)[i].0, Refs(s.iterable)[i].1, x.state);
    assert y.events == Reads(Refs(s.iterable), [i], x.state) + [];
    assert y.events[0] in F.told;
  }

  // ----------------------------------------------------------------- exceptions

  ghost predicate HandlersEnd(F: Frame, n: nat, next: Block, ctx: Context, hs: Handlers, st: State, law: Law)
    requires WellFormed(F.graph)
  {
    forall o :: Fair(o, LaxOf(law)) ==> EndsIn(F, n, {next}, ctx, ExecHandlers(hs, st, o))
  }

  lemma {:induction false} TightHandlers(hs: Handlers, g: Graph, entryPoint: Block, next: Block, ctx: Context, F: Frame,
                                         n: nat, st: State, law: Law)
    requires WellFormed(F.graph) && Start(g, entryPoint) && FreshIn(g, entryPoint) && next < |g.stats| && CtxIn(g, ctx)
    requires law.Any? && HandlersIn(hs, F.lhs) && HandlersEnd(F, n, next, ctx, hs, st, law)
    requires Kept(BuiltHandlers(hs, g, entryPoint, next, ctx), F.graph, |g.stats|, entryPoint, None, false)
    ensures SafeAt(F, n, entryPoint, st)
    decreases hs, 6
  {
    match hs {
      case NoHandlers =>
        assert EndsIn(F, n, {next}, ctx, ExecHandlers(hs, st, []));
        EdgesSafe(BuiltHandlers(hs, g, entryPoint, next, ctx), |g.stats|, entryPoint, F, n,
                  if ctx.handler.Some? then {ctx.handler.value} else {}, st);
      case Handler(_, _, _, _) => TightHandler(hs, g, entryPoint, next, ctx, F, n, st, law);
    }
  }

  /** The graph `h` of a clause and those behind it: from `entryPoint` to `p`, behind that
      `other`, and the target and the body in `f`. */
  ghost predicate HandlerFacts(g: Graph, entryPoint: Block, p: Place, f: Graph, h: Graph) {
    var other := |p.graph.stats|;
    && Start(g, entryPoint) && Grounded(p.graph, p.block) && (p.block == entryPoint || p.block >= |g.stats|)
    && |g.stats| <= other && other + 1 < |f.stats| <= |h.stats|
    && Start(f, other) && FreshIn(f, other)
    && Same(p.graph, h, {p.block} + {other}) && Same(f, h, {other})
    && h.stats[p.block] == p.graph.stats[p.block] && h.children[p.block] == {other, other + 1}
  }

  lemma {:induction false} TightHandler(hs: Handlers, g: Graph, entryPoint: Block, next: Block, ctx: Context, F: Frame,
                                        n: nat, st: State, law: Law)
    requires hs.Handler? && WellFormed(F.graph) && Start(g, entryPoint) && FreshIn(g, entryPoint)
    requires next < |g.stats| && CtxIn(g, ctx)
    requires law.Any? && HandlersIn(hs, F.lhs) && HandlersEnd(F, n, next, ctx, hs, st, law)
    requires Kept(BuiltHandlers(hs, g, entryPoint, next, ctx), F.graph, |g.stats|, entryPoint, None, false)
    ensures SafeAt(F, n, entryPoint, st)
    decreases hs, 5
  {
    var p := BuiltExpr(hs.pattern, g, entryPoint);
    var other := |p.graph.stats|;
    var f := BuiltItem(hs.target, hs.body, Behind(p.graph, p.block), p.block, next, ctx);
    var h := BuiltHandlers(hs.rest, f, other, next, ctx);
    HandlerSteps(hs, g, entryPoint, next, ctx, p, f, h);
    HandlerKept(g, entryPoint, p, f, h, F.graph);
    forall o | Fair(o, LaxOf(law)) ensures EndsIn(F, n, {next}, ctx, ExecHandlers(hs.rest, st, o)) {
      HandlerRun(hs, next, ctx, F, n, st, law, false, o);
    }
    TightHandlers(hs.rest, f, other, next, ctx, F, n, st, law);
    forall o | Fair(o, LaxOf(law)) ensures EndsIn(F, n, {next}, ctx, ExecItem(hs.target, hs.body, st, o)) {
      HandlerRun(hs, next, ctx, F, n, st, law, true, o);
    }
    BehindStarts(p.graph, p.block);
    TightItem(hs.target, hs.body, Behind(p.graph, p.block), p.block, next, ctx, F, n, st, law);
    HandlerLooked(hs, next, ctx, F, n, st, law);
    HandlerPattern(hs.pattern, g, entryPoint, p, f, h, F, n, st);
  }

  lemma HandlerPattern(e: Expr, g: Graph, entryPoint: Block, p: Place, f: Graph, h: Graph, F: Frame, n: nat, st: State)
    requires WellFormed(F.graph) && HandlerFacts(g, entryPoint, p, f, h) && FreshIn(g, entryPoint)
    requires p == BuiltExpr(e, g, entryPoint) && Kept(p.graph, F.graph, |g.stats|, entryPoint, Some(p.block), false)
    requires p.block < |F.graph.stats| && F.graph.stats[p.block] == h.stats[p.block]
    requires F.graph.children[p.block] == h.children[p.block] && Looked(F, e, st)
    requires SafeAt(F, n, |p.graph.stats|, st) && SafeAt(F, n, |p.graph.stats| + 1, st)
    ensures SafeAt(F, n, entryPoint, st)
  {
    LeaveEdges(F, n, p.block, st);
    WholeIsPlaced(e, g, entryPoint, F, n, st);
    TightExpr(e, g, entryPoint, F, n, st);
  }

  lemma HandlerSteps(hs: Handlers, g: Graph, entryPoint: Block, next: Block, ctx: Context, p: Place, f: Graph, h: Graph)
    requires hs.Handler? && Start(g, entryPoint) && FreshIn(g, entryPoint) && next < |g.stats| && CtxIn(g, ctx)
    requires p == BuiltExpr(hs.pattern, g, entryPoint)
    requires f == BuiltItem(hs.target, hs.body, Behind(p.graph, p.block), p.block, next, ctx)
    requires h == BuiltHandlers(hs.rest, f, |p.graph.stats|, next, ctx)
    ensures HandlerFacts(g, entryPoint, p, f, h) && CtxIn(f, ctx) && next < |f.stats|
    ensures CtxIn(Behind(p.graph, p.block), ctx)
  {
    ExprGrows(hs.pattern, g, entryPoint);
    HandlerItem(hs, p, next, ctx, f);
    HandlersBehind(hs.rest, f, |p.graph.stats|, next, ctx, h);
    HandlerRows(g, entryPoint, p, f, h);
  }

  /** The way on from `p`: to the next clause, and to the target and the body in `f`. */
  ghost predicate ItemRows(p: Place, f: Graph) {
    var f0, other := Behind(p.graph, p.block), |p.graph.stats|;
    && Attached(p.graph, f0, p.block) && |f0.stats| == other + 1 && f0.children[p.block] == {other}
    && Attached(f0, f, p.block) && f.children[p.block] == {other, other + 1} && |f.stats| > other + 1
    && Start(f, other) && FreshIn(f, other)
  }

  lemma HandlerItem(hs: Handlers, p: Place, next: Block, ctx: Context, f: Graph)
    requires hs.Handler? && Start(p.graph, p.block) && next < |p.graph.stats| && CtxIn(p.graph, ctx)
    requires f == BuiltItem(hs.target, hs.body, Behind(p.graph, p.block), p.block, next, ctx)
    ensures ItemRows(p, f) && CtxIn(f, ctx) && CtxIn(Behind(p.graph, p.block), ctx)
  {
    var other, f0 := |p.graph.stats|, Behind(p.graph, p.block);
    OpenBehind(p.graph, p.block);
    ItemBehind(hs.target, hs.body, f0, p.block, next, ctx, f);
    StillFresh(f0, f, p.block, other);
    assert f0.children[p.block] + {other + 1} == {other, other + 1};
  }

  lemma OpenBehind(g: Graph, b: Block)
    requires Start(g, b)
    ensures var h, c := Behind(g, b), |g.stats|;
      Attached(g, h, b) && |h.stats| == c + 1 && h.children[b] == {c} && Start(h, c) && FreshIn(h, c)
  {
    BehindStarts(g, b);
  }

  lemma StillFresh(g: Graph, h: Graph, b: Block, c: Block)
    requires Attached(g, h, b) && Start(g, c) && FreshIn(g, c) && b != c
    ensures Start(h, c) && FreshIn(h, c)
  {
    SameGrown(g, h, b);
  }

  lemma HandlersBehind(hs: Handlers, g: Graph, entryPoint: Block, next: Block, ctx: Context, h: Graph)
    requires Start(g, entryPoint) && FreshIn(g, entryPoint) && next < |g.stats| && CtxIn(g, ctx)
    requires h == BuiltHandlers(hs, g, entryPoint, next, ctx)
    ensures Grown(g, h, entryPoint)
  {
    HandlersGrow(hs, g, entryPoint, next, ctx);
  }

  lemma ItemBehind(target: Option<Target>, body: Stmt, g: Graph, parent: Block, next: Block, ctx: Context, f: Graph)
    requires Grounded(g, parent) && next < |g.stats| && CtxIn(g, ctx)
    requires f == BuiltItem(target, body, g, parent, next, ctx)
    ensures Attached(g, f, parent) && f.children[parent] == g.children[parent] + {|g.stats|} && |f.stats| > |g.stats|
  {
    ItemGrows(target, body, g, parent, next, ctx);
    ItemIsNew(target, body, g, parent, next, ctx);
  }

  lemma HandlerRows(g: Graph, entryPoint: Block, p: Place, f: Graph, h: Graph)
    requires Start(g, entryPoint) && Visited(g, p.graph, entryPoint, Some(p.block))
    requires ItemRows(p, f) && Grown(f, h, |p.graph.stats|)
    ensures HandlerFacts(g, entryPoint, p, f, h)
  {
    var other := |p.graph.stats|;
    AttachedTransitive(p.graph, Behind(p.graph, p.block), f, p.block, p.block);
    SameGrown(p.graph, f, p.block);
    SameGrown(f, h, other);
    SameTransitive(p.graph, f, h, {p.block}, {other});
  }

  lemma ItemIsNew(target: Option<Target>, body: Stmt, g: Graph, parent: Block, next: Block, ctx: Context)
    requires Grounded(g, parent) && next < |g.stats| && CtxIn(g, ctx)
    ensures |BuiltItem(target, body, g, parent, next, ctx).stats| > |g.stats|
  {
    BehindStarts(g, parent);
    ItemStartGrows(target, g, parent, ctx);
    var t := BuiltItemStart(target, g, parent, ctx);
    StmtGrows(body, t.graph, t.block, ctx);
  }

  lemma HandlerKept(g: Graph, entryPoint: Block, p: Place, f: Graph, h: Graph, G: Graph)
    requires HandlerFacts(g, entryPoint, p, f, h) && Kept(h, G, |g.stats|, entryPoint, None, false)
    ensures var other := |p.graph.stats|;
      && Kept(h, G, |f.stats|, other, None, false) && Final(f, G, other + 1)
      && Kept(p.graph, G, |g.stats|, entryPoint, Some(p.block), false)
      && p.block < |G.stats| && G.stats[p.block] == h.stats[p.block] && G.children[p.block] == h.children[p.block]
  {
    var other := |p.graph.stats|;
    KeptPart(h, h, G, |g.stats|, entryPoint, None, false, |f.stats|, other, None, {});
    KeptIsFinal(h, G, |g.stats|, entryPoint, None, false, other + 1);
    FinalPart(f, h, G, other + 1, other + 1, {other});
    KeptFinal(h, G, |g.stats|, entryPoint, None, false, p.block);
    KeptPart(p.graph, h, G, |g.stats|, entryPoint, None, false, |g.stats|, entryPoint, Some(p.block),
             {p.block} + {other});
  }

  lemma HandlerRun(hs: Handlers, next: Block, ctx: Context, F: Frame, n: nat, st: State, law: Law, taken: bool,
                   o: seq<Choice>)
    requires hs.Handler? && WellFormed(F.graph) && Fair(o, LaxOf(law)) && HandlersEnd(F, n, next, ctx, hs, st, law)
    ensures EndsIn(F, n, {next}, ctx,
                   if taken then ExecItem(hs.target, hs.body, st, o) else ExecHandlers(hs.rest, st, o))
  {
    var c := Choice([], false, taken, false);
    FirstOf(c, o);
    FairCons(c, o, LaxOf(law));
    assert EndsIn(F, n, {next}, ctx, ExecHandlers(hs, st, [c] + o));
    EndsInAfter(F, n, {next}, ctx, Eval(hs.pattern, st, [c] + o).events,
                if taken then ExecItem(hs.target, hs.body, st, o) else ExecHandlers(hs.rest, st, o));
  }

  lemma HandlerLooked(hs: Handlers, next: Block, ctx: Context, F: Frame, n: nat, st: State, law: Law)
    requires hs.Handler? && WellFormed(F.graph) && HandlersEnd(F, n, next, ctx, hs, st, law)
    ensures Looked(F, hs.pattern, st)
  {
    forall c: Choice | c.throws && !c.lax ensures Told(F, Eval(hs.pattern, st, [c]).events) {
      assert Fair([c], LaxOf(law));
      assert EndsIn(F, n, {next}, ctx, ExecHandlers(hs, st, [c]));
    }
    LookedByRuns(F, hs.pattern, st);
  }

  /** The target, from the new block `c` of `g` on, and the body behind it in `r`, which ends
      with an edge to `next`: all complete. */
  ghost predicate ItemPlaced(body: Stmt, g: Graph, c: Block, t: Place, r: End, next: Block, ctx: Context, G: Graph) {
    && Start(g, c) && |g.stats| == c + 1 && g.stats[c] == [] && CtxIn(g, ctx)
    && Start(t.graph, t.block) && CtxIn(t.graph, ctx) && r == BuiltStmt(body, t.graph, t.block, ctx)
    && Kept(t.graph, G, c + 1, c, Some(t.block), false)
    && Kept(r.graph, G, |t.graph.stats|, t.block, r.block, false)
    && (r.block.Some? ==>
          && r.block.value < |r.graph.stats| && r.block.value < |G.stats|
          && G.stats[r.block.value] == r.graph.stats[r.block.value] && G.children[r.block.value] == {next})
  }

  /** The target, if there is one, and the body of a clause, behind `parent`. */
  lemma {:induction false} TightItem(target: Option<Target>, body: Stmt, g: Graph, parent: Block, next: Block,
                                     ctx: Context, F: Frame, n: nat, st: State, law: Law)
    requires WellFormed(F.graph) && Grounded(g, parent) && next < |g.stats| && CtxIn(g, ctx)
    requires law.Any? && StmtIn(body, F.lhs) && (target.Some? ==> TargetIn(target.value, F.lhs))
    requires Final(BuiltItem(target, body, g, parent, next, ctx), F.graph, |g.stats|)
    requires ItemEnds(F, n, {next}, ctx, target, body, st, law)
    ensures SafeAt(F, n, |g.stats|, st)
    decreases body, 6
  {
    var t, r := ItemIsPlaced(target, body, g, parent, next, ctx, F.graph);
    if target.Some? {
      TightBoundItem(target.value, body, Behind(g, parent), |g.stats|, t, r, next, ctx, F, n, st, law);
    } else {
      forall o | Fair(o, LaxOf(law)) ensures EndsIn(F, n, {next}, ctx, Exec(body, st, o)) {
        assert EndsIn(F, n, {next}, ctx, ExecItem(target, body, st, o));
        assert ExecItem(target, body, st, o) == After([], Exec(body, st, o));
        EndsInAfter(F, n, {next}, ctx, [], Exec(body, st, o));
      }
      ItemRest(body, Behind(g, parent), |g.stats|, t, r, next, ctx, F, n, st, law);
    }
  }

  lemma {:induction false} TightBoundItem(target: Target, body: Stmt, g: Graph, c: Block, t: Place, r: End, next: Block,
                                          ctx: Context, F: Frame, n: nat, st: State, law: Law)
    requires WellFormed(F.graph) && ItemPlaced(body, g, c, t, r, next, ctx, F.graph)
    requires t == BuiltTarget(target, g, c, ctx.handler)
    requires law.Any? && StmtIn(body, F.lhs) && TargetIn(target, F.lhs)
    requires ItemEnds(F, n, {next}, ctx, Some(target), body, st, law)
    ensures SafeAt(F, n, c, st)
    decreases body, 5
  {
    forall o | Fair(o, LaxOf(law)) ensures Ends(F, n, t.graph, Some(t.block), ctx, Bind(target, st, o)) {
      var x := Bind(target, st, o);
      ItemStarts(target, body, {next}, ctx, F, n, st, law, o);
      if x.outcome == Normal {
        ItemRest(body, g, c, t, r, next, ctx, F, n, x.state, law);
      }
    }
    TightTarget(target, g, c, ctx, F, n, st, law);
  }

  lemma ItemIsPlaced(target: Option<Target>, body: Stmt, g: Graph, parent: Block, next: Block, ctx: Context, G: Graph)
    returns (t: Place, r: End)
    requires Grounded(g, parent) && next < |g.stats| && CtxIn(g, ctx)
    requires Final(BuiltItem(target, body, g, parent, next, ctx), G, |g.stats|)
    ensures t == BuiltItemStart(target, g, parent, ctx)
    ensures ItemPlaced(body, Behind(g, parent), |g.stats|, t, r, next, ctx, G)
  {
    t := BuiltItemStart(target, g, parent, ctx);
    r := BuiltStmt(body, t.graph, t.block, ctx);
    ItemVisits(target, body, g, parent, ctx, t, r);
    ItemKept(Behind(g, parent), |g.stats|, t, r, next, G);
  }

  lemma ItemVisits(target: Option<Target>, body: Stmt, g: Graph, parent: Block, ctx: Context, t: Place, r: End)
    requires Grounded(g, parent) && CtxIn(g, ctx)
    requires t == BuiltItemStart(target, g, parent, ctx) && r == BuiltStmt(body, t.graph, t.block, ctx)
    ensures var f, c := Behind(g, parent), |g.stats|;
      && Start(f, c) && |f.stats| == c + 1 && f.stats[c] == [] && CtxIn(f, ctx)
      && Visited(f, t.graph, c, Some(t.block)) && Start(t.graph, t.block) && CtxIn(t.graph, ctx)
    ensures Visited(t.graph, r.graph, t.block, r.block)
  {
    BehindStarts(g, parent);
    ItemStartGrows(target, g, parent, ctx);
    StmtVisits(body, t.graph, t.block, ctx, r);
  }

  lemma StmtVisits(s: Stmt, g: Graph, b: Block, ctx: Context, r: End)
    requires Start(g, b) && CtxIn(g, ctx) && r == BuiltStmt(s, g, b, ctx)
    ensures Visited(g, r.graph, b, r.block)
  {
    StmtGrows(s, g, b, ctx);
  }

  lemma ItemKept(g: Graph, c: Block, t: Place, r: End, next: Block, G: Graph)
    requires Visited(g, t.graph, c, Some(t.block)) && Visited(t.graph, r.graph, t.block, r.block)
    requires c < |g.stats| == c + 1 && next < |g.stats| && Final(EdgeFrom(r.graph, r.block, Some(next)), G, c)
    ensures Kept(t.graph, G, c + 1, c, Some(t.block), false)
    ensures Kept(r.graph, G, |t.graph.stats|, t.block, r.block, false)
    ensures r.block.Some? ==>
      && r.block.value < |r.graph.stats| && r.block.value < |G.stats|
      && G.stats[r.block.value] == r.graph.stats[r.block.value] && G.children[r.block.value] == {next}
  {
    var h := EdgeFrom(r.graph, r.block, Some(next));
    VisitedTransitive(g, t.graph, r.graph, c, t.block, r.block);
    if r.block.Some? {
      var e := r.block.value;
      AttachedByEdge(r.graph, e, next);
      SameGrown(r.graph, h, e);
      FinalKept(r.graph, h, G, c, c, r.block, {e});
      assert h.stats[e] == G.stats[e];
    } else {
      FinalKept(r.graph, h, G, c, c, None, {});
    }
    SplitKept(g, c, t.graph, t.block, r.graph, r.block, G);
  }

  /** The body of a clause, with the target bound. */
  lemma {:induction false} ItemRest(body: Stmt, g: Graph, c: Block, t: Place, r: End, next: Block, ctx: Context,
                                    F: Frame, n: nat, st: State, law: Law)
    requires WellFormed(F.graph) && ItemPlaced(body, g, c, t, r, next, ctx, F.graph)
    requires law.Any? && StmtIn(body, F.lhs) && PieceEnds(F, n, {next}, ctx, body, st, law)
    ensures SafeEnd(F, n, t.graph, t.block, st)
    decreases body, 4
  {
    forall o | Fair(o, LaxOf(law)) ensures Ends(F, n, r.graph, r.block, ctx, Exec(body, st, o)) {
      var x := Exec(body, st, o);
      assert EndsIn(F, n, {next}, ctx, x);
      if x.outcome == Normal && r.block.Some? {
        LeaveEdges(F, n, r.block.value, x.state);
      }
    }
    TightStmt(body, t.graph, t.block, ctx, F, n, st, law);
  }

  // ------------------------------------------------------------------------ `try`

  /** The graph `h` of a `try`: its start, the guarded body with its `else` in `f`, and the
      handlers. */
  ghost predicate TryFacts(g: Graph, b: Block, f: Graph, h: Graph) {
    var next, h0 := |g.stats|, BuiltTryStart(g, b);
    && Start(g, b) && Grounded(h0, next + 3) && |h0.stats| == next + 4 && h0.stats[next + 3] == []
    && next + 4 < |f.stats| <= |h.stats| && Start(f, next + 2) && FreshIn(f, next + 2)
    && Same(f, h, {next + 2})
    && h.stats[b] == g.stats[b] && h.children[b] == {next + 3}
    && h.stats[next + 3] == [] && h.children[next + 3] == {next + 2, next + 4}
    && h.stats[next] == [] && h.children[next] == {}
  }

  lemma {:induction false} TightTry(s: Stmt, g: Graph, b: Block, ctx: Context, F: Frame, n: nat, st: State, law: Law)
    requires s.TryExcept? && WellFormed(F.graph) && StmtPlaced(F, s, g, b, ctx, law)
    requires StmtEnds(F, n, BuiltStmt(s, g, b, ctx), ctx, s, st, law)
    ensures SafeEnd(F, n, g, b, st)
    decreases s, 2
  {
    var f, h := TryIsPlaced(s, g, b, ctx, F, law);
    TryLawful(F, s, ctx, law);
    RunsJoin(s, h, |g.stats|, |g.stats|, b, ctx, F, n, st, law);
    TryInside(s, g, b, f, h, ctx, F, n, st, law);
    LeaveEdges(F, n, b, st);
  }

  /** From the first block of the `try`: to the handlers and to the guarded body. */
  lemma {:induction false} TryInside(s: Stmt, g: Graph, b: Block, f: Graph, h: Graph, ctx: Context, F: Frame, n: nat,
                                     st: State, law: Law)
    requires WellFormed(F.graph) && TryPlaced(F, s, g, b, f, h, ctx) && Lawful(F, s, ctx, law)
    requires law.Any? && HandlersIn(s.handlers, F.lhs)
    requires |g.stats| + 3 < |F.graph.stats| && F.graph.stats[|g.stats| + 3] == []
    requires F.graph.children[|g.stats| + 3] == {|g.stats| + 2, |g.stats| + 4}
    requires PieceEnds(F, n, {|g.stats|}, ctx, s, st, law)
    ensures SafeAt(F, n, |g.stats| + 3, st)
    decreases s, 1, 3
  {
    var next := |g.stats|;
    HandlersAreSafe(s, g, b, f, h, ctx, F, n, law);
    EnteredAtStart(s, next, ctx, F, n, st, law);
    assert SafeAt(F, n, next + 2, st);
    GuardIsSafe(s, BuiltTryStart(g, b), f, h, next, ctx, F, n, st, law);
    LeaveEdges(F, n, next + 3, st);
  }

  lemma {:induction false} GuardIsSafe(s: Stmt, h0: Graph, f: Graph, h: Graph, next: Block, ctx: Context, F: Frame,
                                       n: nat, st: State, law: Law)
    requires s.TryExcept? && WellFormed(F.graph) && Lawful(F, s, ctx, law) && law.Any?
    requires Grounded(h0, next + 3) && |h0.stats| == next + 4 && CtxIn(h0, ctx)
    requires f == BuiltGuarded(s, h0, next + 3, next + 2, next, ctx) && Same(f, h, {next + 2})
    requires Final(h, F.graph, next + 1)
    requires EntrySafe(F, n, next + 2, next, ctx, s.handlers, law) && PieceEnds(F, n, {next}, ctx, s, st, law)
    ensures SafeAt(F, n, next + 4, st)
    decreases s, 1, 2
  {
    var inner := ctx.(handler := Some(next + 2));
    var q := GuardIsPlaced(s, h0, f, h, next, ctx, inner, F.graph);
    TryBody(s, Behind(h0, next + 3), next + 4, q, next, ctx, inner, F, n, st, law);
  }

  ghost predicate TryPlaced(F: Frame, s: Stmt, g: Graph, b: Block, f: Graph, h: Graph, ctx: Context) {
    var next := |g.stats|;
    && s.TryExcept? && CtxIn(g, ctx) && TryFacts(g, b, f, h)
    && f == BuiltGuarded(s, BuiltTryStart(g, b), next + 3, next + 2, next, ctx)
    && h == BuiltHandlers(s.handlers, f, next + 2, next, ctx)
    && Final(h, F.graph, next + 1) && b < |F.graph.stats| && F.graph.stats[b] == h.stats[b]
    && F.graph.children[b] == h.children[b]
  }

  lemma TryIsPlaced(s: Stmt, g: Graph, b: Block, ctx: Context, F: Frame, law: Law) returns (f: Graph, h: Graph)
    requires s.TryExcept? && WellFormed(F.graph) && StmtPlaced(F, s, g, b, ctx, law)
    ensures TryPlaced(F, s, g, b, f, h, ctx) && BuiltStmt(s, g, b, ctx) == Joined(h, |g.stats|)
    ensures F.graph.stats[|g.stats| + 3] == [] && F.graph.children[|g.stats| + 3] == {|g.stats| + 2, |g.stats| + 4}
    ensures Kept(h, F.graph, |g.stats|, b, Joined(h, |g.stats|).block, false)
  {
    var next, h0 := |g.stats|, BuiltTryStart(g, b);
    TryStartRows(g, b);
    f := BuiltGuarded(s, h0, next + 3, next + 2, next, ctx);
    GuardedGrows(s, h0, next + 3, next + 2, next, ctx);
    GuardedIsNew(s, h0, next + 3, next + 2, next, ctx);
    h := BuiltHandlers(s.handlers, f, next + 2, next, ctx);
    HandlersGrow(s.handlers, f, next + 2, next, ctx);
    SameGrown(f, h, next + 2);
    TryIsBuilt(s, g, b, ctx);
    KeptIsFinal(h, F.graph, next, b, Joined(h, next).block, false, next + 1);
    KeptFinal(h, F.graph, next, b, Joined(h, next).block, false, b);
    assert h.stats[next + 3] == F.graph.stats[next + 3];
  }

  lemma TryIsBuilt(s: Stmt, g: Graph, b: Block, ctx: Context)
    requires s.TryExcept?
    ensures var next := |g.stats|;
      var f := BuiltGuarded(s, BuiltTryStart(g, b), next + 3, next + 2, next, ctx);
      BuiltStmt(s, g, b, ctx) == Joined(BuiltHandlers(s.handlers, f, next + 2, next, ctx), next)
  {
    assert BuiltTry(s, g, b, ctx) == Joined(BuiltTryParts(s, BuiltTryStart(g, b), |g.stats|, ctx), |g.stats|);
  }

  lemma TryStartRows(g: Graph, b: Block)
    requires Start(g, b)
    ensures var next, h := |g.stats|, BuiltTryStart(g, b);
      && WellFormed(h) && |h.stats| == next + 4
      && h.stats[b] == g.stats[b] && h.children[b] == {next + 3}
      && h.stats[next + 3] == [] && h.children[next + 3] == {next + 2}
      && FreshIn(h, next + 2) && FreshIn(h, next)
  {
    TryStartBuilt(g, b);
  }

  lemma GuardedIsNew(s: Stmt, h: Graph, a: Block, entryPoint: Block, next: Block, ctx: Context)
    requires s.TryExcept? && Grounded(h, a) && entryPoint < |h.stats| && next < |h.stats| && CtxIn(h, ctx)
    ensures |BuiltGuarded(s, h, a, entryPoint, next, ctx).stats| > |h.stats|
  {
    var inner := ctx.(handler := Some(entryPoint));
    BehindStarts(h, a);
    StmtGrows(s.body, Behind(h, a), |h.stats|, inner);
    var r := BuiltStmt(s.body, Behind(h, a), |h.stats|, inner);
    if r.block.Some? {
      ElseGrows(s.orelse, r.graph, r.block.value, next, ctx);
    }
  }

  lemma TryLawful(F: Frame, s: Stmt, ctx: Context, law: Law)
    requires s.TryExcept? && Lawful(F, s, ctx, law)
    ensures law.Any? && StmtIn(s.body, F.lhs) && HandlersIn(s.handlers, F.lhs) && ElseIn(s.orelse, F.lhs)
  {
  }

  /** Where the handlers' runs end safely their entry point is safe. */
  ghost predicate EntrySafe(F: Frame, n: nat, entryPoint: Block, next: Block, ctx: Context, hs: Handlers, law: Law)
    requires WellFormed(F.graph)
  {
    forall st: State :: HandlersEnd(F, n, next, ctx, hs, st, law) ==> SafeAt(F, n, entryPoint, st)
  }

  lemma {:induction false} HandlersAreSafe(s: Stmt, g: Graph, b: Block, f: Graph, h: Graph, ctx: Context, F: Frame,
                                           n: nat, law: Law)
    requires WellFormed(F.graph) && TryPlaced(F, s, g, b, f, h, ctx) && law.Any? && HandlersIn(s.handlers, F.lhs)
    ensures EntrySafe(F, n, |g.stats| + 2, |g.stats|, ctx, s.handlers, law)
    decreases s, 0
  {
    var next := |g.stats|;
    FinalSpread(h, F.graph, next + 1, next + 2, |f.stats|);
    forall st: State | HandlersEnd(F, n, next, ctx, s.handlers, st, law) ensures SafeAt(F, n, next + 2, st) {
      TightHandlers(s.handlers, f, next + 2, next, ctx, F, n, st, law);
    }
  }

  /** Of complete blocks, one and those from `lo` on. */
  lemma FinalSpread(g: Graph, G: Graph, c: Block, b1: Block, lo: nat)
    requires Final(g, G, c) && c <= b1 < |g.stats| && c <= lo <= |g.stats|
    ensures Kept(g, G, lo, b1, None, false)
  {
    forall x: Block | x < |g.stats| && (x == b1 || lo <= x) ensures KeptBlock(g, G, b1, None, false, x) {
      assert g.stats[x] == G.stats[x];
    }
  }

  /** Entering the handlers at the very start is a liberty. */
  lemma EnteredAtStart(s: Stmt, next: Block, ctx: Context, F: Frame, n: nat, st: State, law: Law)
    requires s.TryExcept? && WellFormed(F.graph) && law.Any? && PieceEnds(F, n, {next}, ctx, s, st, law)
    ensures HandlersEnd(F, n, next, ctx, s.handlers, st, law)
  {
    forall o | Fair(o, LaxOf(law)) ensures EndsIn(F, n, {next}, ctx, ExecHandlers(s.handlers, st, o)) {
      var c := Choice([], false, false, true);
      FirstOf(c, o);
      assert EndsIn(F, n, {next}, ctx, Exec(s, st, [c] + o));
    }
  }

  /** What the guarded body does, and how the `try` goes on from where it ends. */
  lemma {:induction false} TryRun(s: Stmt, next: Block, ctx: Context, F: Frame, n: nat, st: State, law: Law,
                                  o: seq<Choice>)
    requires s.TryExcept? && WellFormed(F.graph) && law.Any? && PieceEnds(F, n, {next}, ctx, s, st, law)
    ensures var x := Exec(s.body, st, o);
      && Told(F, x.events)
      && (x.outcome != Normal && x.outcome != Raised ==> JumpsSafe(F, n, ctx, x))
      && (x.outcome == Raised ==> HandlersEnd(F, n, next, ctx, s.handlers, x.state, law))
      && (x.outcome == Normal ==>
            forall y :: Fair(y, LaxOf(law)) ==> EndsIn(F, n, {next}, ctx, ExecElse(s.orelse, x.state, y)))
  {
    var c := Choice([], false, false, false);
    var x := Exec(s.body, st, o);
    FirstOf(c, o);
    assert EndsIn(F, n, {next}, ctx, Exec(s, st, [c] + o));
    if x.outcome == Raised {
      EndsInAfter(F, n, {next}, ctx, x.events, ExecHandlers(s.handlers, x.state, x.rest));
      forall y | Fair(y, LaxOf(law)) ensures EndsIn(F, n, {next}, ctx, ExecHandlers(s.handlers, x.state, y)) {
        TryGoesOn(s, next, ctx, F, n, st, law, o, y);
      }
    } else if x.outcome == Normal {
      EndsInAfter(F, n, {next}, ctx, x.events, ExecElse(s.orelse, x.state, x.rest));
      forall y | Fair(y, LaxOf(law)) ensures EndsIn(F, n, {next}, ctx, ExecElse(s.orelse, x.state, y)) {
        TryGoesOn(s, next, ctx, F, n, st, law, o, y);
      }
    }
  }

  lemma {:induction false} TryGoesOn(s: Stmt, next: Block, ctx: Context, F: Frame, n: nat, st: State, law: Law,
                                     o: seq<Choice>, y: seq<Choice>)
    requires s.TryExcept? && WellFormed(F.graph) && law.Any? && PieceEnds(F, n, {next}, ctx, s, st, law)
    ensures var x := Exec(s.body, st, o);
      && (x.outcome == Raised ==> EndsIn(F, n, {next}, ctx, ExecHandlers(s.handlers, x.state, y)))
      && (x.outcome == Normal ==> EndsIn(F, n, {next}, ctx, ExecElse(s.orelse, x.state, y)))
  {
    var c := Choice([], false, false, false);
    var x := Exec(s.body, st, o);
    if x.outcome == Raised || x.outcome == Normal {
      ExecSplices(s.body, st, o, y);
      var o' := Other(o, x, y);
      FirstOf(c, o');
      var rest := if x.outcome == Raised then ExecHandlers(s.handlers, x.state, y) else ExecElse(s.orelse, x.state, y);
      assert EndsIn(F, n, {next}, ctx, Exec(s, st, [c] + o'));
      assert Exec(s, st, [c] + o') == After(x.events, rest);
      EndsInAfter(F, n, {next}, ctx, x.events, rest);
    }
  }

  /** What `else` makes of the open block `e` of `g` is complete. */
  ghost predicate ElsePlaced(orelse: Option<Stmt>, g: Graph, e: Block, next: Block, ctx: Context, G: Graph) {
    && Grounded(g, e) && next < |g.stats| && CtxIn(g, ctx)
    && Final(BuiltElse(orelse, g, e, next, ctx), G, |g.stats|)
    && e < |G.stats| && e < |G.children| && G.stats[e] == g.stats[e] && G.children[e] == {ElseHead(orelse, g, next)}
  }

  /** The guarded body, visited from the new block `c` of `g` on, and its `else` are
      complete. */
  ghost predicate GuardPlaced(s: Stmt, g: Graph, c: Block, q: End, next: Block, ctx: Context, inner: Context,
                              G: Graph) {
    && s.TryExcept? && q == BuiltStmt(s.body, g, c, inner)
    && Start(g, c) && |g.stats| == c + 1 && g.stats[c] == [] && CtxIn(g, inner)
    && Kept(q.graph, G, c + 1, c, q.block, false)
    && (q.block.Some? ==> ElsePlaced(s.orelse, q.graph, q.block.value, next, ctx, G))
  }

  /** The first block of the guarded body is safe. */
  lemma {:induction false} TryBody(s: Stmt, g: Graph, c: Block, q: End, next: Block, ctx: Context, inner: Context,
                                   F: Frame, n: nat, st: State, law: Law)
    requires WellFormed(F.graph) && GuardPlaced(s, g, c, q, next, ctx, inner, F.graph) && Lawful(F, s, ctx, law)
    requires law.Any? && inner.handler.Some? && inner == ctx.(handler := inner.handler)
    requires EntrySafe(F, n, inner.handler.value, next, ctx, s.handlers, law)
    requires PieceEnds(F, n, {next}, ctx, s, st, law)
    ensures SafeAt(F, n, c, st)
    decreases s, 1, 1
  {
    TryLawful(F, s, ctx, law);
    forall o | Fair(o, LaxOf(law)) ensures Ends(F, n, q.graph, q.block, inner, Exec(s.body, st, o)) {
      TryBodyRun(s, q, next, ctx, inner, F, n, st, law, o);
    }
    TightStmt(s.body, g, c, inner, F, n, st, law);
  }

  lemma {:induction false} TryBodyRun(s: Stmt, q: End, next: Block, ctx: Context, inner: Context, F: Frame, n: nat,
                                      st: State, law: Law, o: seq<Choice>)
    requires s.TryExcept? && WellFormed(F.graph) && Lawful(F, s, ctx, law)
    requires q.block.Some? ==> ElsePlaced(s.orelse, q.graph, q.block.value, next, ctx, F.graph)
    requires law.Any? && inner.handler.Some? && inner == ctx.(handler := inner.handler)
    requires EntrySafe(F, n, inner.handler.value, next, ctx, s.handlers, law)
    requires PieceEnds(F, n, {next}, ctx, s, st, law)
    ensures Ends(F, n, q.graph, q.block, inner, Exec(s.body, st, o))
    decreases s, 1, 0
  {
    var x := Exec(s.body, st, o);
    TryLawful(F, s, ctx, law);
    TryRun(s, next, ctx, F, n, st, law, o);
    if x.outcome == Normal && q.block.Some? {
      TightElse(s.orelse, q.graph, q.block.value, next, ctx, F, n, x.state, law);
      LeaveEdges(F, n, q.block.value, x.state);
    }
  }

  lemma GuardedParts(s: Stmt, h: Graph, a: Block, entryPoint: Block, next: Block, ctx: Context)
    requires s.TryExcept?
    ensures var r := BuiltStmt(s.body, Behind(h, a), |h.stats|, ctx.(handler := Some(entryPoint)));
      BuiltGuarded(s, h, a, entryPoint, next, ctx) ==
        if r.block.Some? then BuiltElse(s.orelse, r.graph, r.block.value, next, ctx) else r.graph
  {
  }

  /** In the complete graph the guarded body and its `else` are so. */
  lemma GuardIsPlaced(s: Stmt, h0: Graph, f: Graph, h: Graph, next: Block, ctx: Context, inner: Context, G: Graph)
    returns (q: End)
    requires s.TryExcept? && Grounded(h0, next + 3) && |h0.stats| == next + 4 && CtxIn(h0, ctx)
    requires f == BuiltGuarded(s, h0, next + 3, next + 2, next, ctx) && Same(f, h, {next + 2}) && Final(h, G, next + 1)
    requires inner == ctx.(handler := Some(next + 2))
    ensures GuardPlaced(s, Behind(h0, next + 3), next + 4, q, next, ctx, inner, G)
  {
    var g1, c := Behind(h0, next + 3), next + 4;
    q := BuiltStmt(s.body, g1, c, inner);
    BehindStarts(h0, next + 3);
    GuardedParts(s, h0, next + 3, next + 2, next, ctx);
    StmtGrows(s.body, g1, c, inner);
    if q.block.Some? {
      ElseIsPlaced(s.orelse, g1, c, q.graph, q.block.value, f, h, next, ctx, G);
    } else {
      FinalKept(q.graph, h, G, next + 1, c, None, {next + 2});
    }
  }

  lemma ElseIsPlaced(orelse: Option<Stmt>, g: Graph, c: Block, q: Graph, e: Block, f: Graph, h: Graph, next: Block,
                     ctx: Context, G: Graph)
    requires c == next + 4 && c < |g.stats| && Visited(g, q, c, Some(e)) && Start(q, e)
    requires next < |q.stats| && CtxIn(q, ctx)
    requires |g.stats| == c + 1 && f == BuiltElse(orelse, q, e, next, ctx) && Same(f, h, {next + 2})
    requires Final(h, G, next + 1)
    ensures Kept(q, G, c + 1, c, Some(e), false) && ElsePlaced(orelse, q, e, next, ctx, G)
  {
    ElseGrows(orelse, q, e, next, ctx);
    SameGrown(q, f, e);
    SameTransitive(q, f, h, {e}, {next + 2});
    FinalKept(q, h, G, next + 1, c, Some(e), {e} + {next + 2});
    FinalPart(f, h, G, next + 1, |q.stats|, {next + 2});
    assert h.stats[e] == G.stats[e];
  }
}

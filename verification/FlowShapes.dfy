/** From the moves of the visitor to the claims: for each compound statement, what the
    sequence of graphs that its visit goes through amounts to. */
module FlowShapes {
  import opened Wrappers
  import opened FlowSyntax
  import opened FlowGraph
  import opened FlowSimulation
  import opened FlowStatements

  /** The graph that a visit starts from, and the block that it starts in. */
  ghost predicate Start(g: Graph, b: Block) {
    WellFormed(g) && |g.stats| >= 2 && OpenBlock(g, b)
  }

  lemma ParentsKnown(g: Graph, next: Block)
    requires WellFormed(g) && next < |g.stats|
    ensures ParentsOf(g.children)[next] != {} <==> HasParent(g, next)
  {
    var ps := ParentsOf(g.children)[next];
    assert ps == set b: Block | b < |g.children| && next in g.children[b];
    if HasParent(g, next) {
      var b: Block :| b < |g.children| && next in g.children[b];
      assert b in ps;
    }
  }

  /** A statement whose ends join in `next`, the first block that its visit made. */
  lemma JoinShape(g0: Graph, g: Graph, b: Block, next: Block, end: Option<Block>)
    requires Start(g0, b) && next == |g0.stats| && Attached(AddBlock(g0), g, b)
    requires end == None || end == Some(next)
    ensures Visited(g0, g, b, end) && next < |g.stats| && g.stats[next] == [] && g.stats[b] == g0.stats[b]
  {
    GrownByBlock(g0, b);
    AttachedTransitive(g0, AddBlock(g0), g, b, b);
    assert OpenBlock(AddBlock(g0), next);
  }

  lemma BranchShape(g1: Graph, f: Graph, s: Stmt, b: Block, c: Block, end: Option<Block>, next: Block, ctx: Context)
    requires Detour(g1, f, b, c, end) && Sim(f, s, c, 0, end, ctx) && next < |g1.stats|
    ensures var g := MaybeEdge(f, end, Some(next));
      Attached(g1, g, b) && SimBranch(g, Some(s), b, next, ctx) && Sim(g, s, c, 0, end, ctx) && c in g.children[b]
  {
    DetourAttached(g1, f, b, c, end);
    if end.Some? {
      AttachedByEdge(f, end.value, next);
      AttachedTransitive(g1, f, AddEdge(f, end.value, next), b, end.value);
      SimGrow(f, AddEdge(f, end.value, next), s, c, 0, end, ctx);
      SimBranchIntro(AddEdge(f, end.value, next), s, b, c, end, next, ctx);
    } else {
      SimBranchIntro(f, s, b, c, end, next, ctx);
    }
  }

  lemma NoElseShape(g: Graph, b: Block, next: Block, ctx: Context)
    requires WellFormed(g) && b < |g.stats| && next < |g.stats|
    ensures Attached(g, AddEdge(g, b, next), b) && SimBranch(AddEdge(g, b, next), None, b, next, ctx)
  {
    AttachedByEdge(g, b, next);
    SimBranchNone(AddEdge(g, b, next), b, next, ctx);
  }

  lemma ClauseShape(g1: Graph, f: Graph, g2: Graph, g: Graph, cs: Clauses, b: Block, c: Block, e: Block, next: Block,
                    ctx: Context)
    requires cs.Clause? && Detour(g1, f, b, c, Some(e)) && SimExpr(f, cs.condition, c, 0, e)
    requires Attached(f, g2, e) && SimBranch(g2, Some(cs.body), e, next, ctx)
    requires Attached(g2, g, e) && SimClauses(g, cs.rest, e, next, ctx)
    ensures Attached(g1, g, b) && SimClauses(g, cs, b, next, ctx)
  {
    DetourAttached(g1, f, b, c, Some(e));
    AttachedTransitive(f, g2, g, e, e);
    AttachedTransitive(g1, f, g, b, e);
    SimExprGrow(f, g, cs.condition, c, 0, e);
    SimBranchGrow(g2, g, Some(cs.body), e, next, ctx);
    SimClause(g, cs, b, c, e, next, ctx);
  }

  lemma IfShape(g0: Graph, g: Graph, cs: Clauses, b: Block, next: Block, end: Option<Block>, ctx: Context)
    requires Start(g0, b) && next == |g0.stats| && Attached(AddBlock(g0), g, b) && SimClauses(g, cs, b, next, ctx)
    requires end == if HasParent(g, next) then Some(next) else None
    ensures Visited(g0, g, b, end) && Sim(g, If(cs), b, |g0.stats[b]|, end, ctx)
  {
    JoinShape(g0, g, b, next, end);
    SimIf(g, cs, b, next, end, ctx);
  }

  function MaybeEdge(g: Graph, b: Option<Block>, to: Option<Block>): Graph
    requires b.Some? ==> b.value < |g.children|
  {
    if b.Some? && to.Some? then AddEdge(g, b.value, to.value) else g
  }

  /** An edge out of the last block that an expression was visited in. */
  lemma LeaveShape(g0: Graph, g1: Graph, e: Expr, b: Block, k: nat, end: Block, to: Option<Block>)
    requires Visited(g0, g1, b, Some(end)) && SimExpr(g1, e, b, k, end) && (to.Some? ==> to.value < |g1.stats|)
    ensures var g := MaybeEdge(g1, Some(end), to);
      Visited(g0, g, b, None) && SimExpr(g, e, b, k, end) && (to.Some? ==> to.value in g.children[end])
  {
    if to.Some? {
      var g := AddEdge(g1, end, to.value);
      AttachedByEdge(g1, end, to.value);
      GrownTransitive(g0, g1, g, b, end);
      ExtTransitive(g0, g1, g);
      SimExprGrow(g1, g, e, b, k, end);
    }
  }

  // ----------------------------------------------------------------------- loops

  /** A loop starts with the condition block `c` behind `b`, and a block for what is next. */
  function LoopStart(g0: Graph, b: Block): Graph
    requires b < |g0.children|
  {
    AddBlock(AddNext(g0, b))
  }

  lemma LoopStartAttached(g0: Graph, b: Block)
    requires Start(g0, b)
    ensures var h := LoopStart(g0, b);
      Attached(g0, h, b) && Start(h, |g0.stats|) && h.stats[|g0.stats|] == [] && FreshIn(h, |g0.stats| + 1) &&
      |h.stats| == |g0.stats| + 2 && |g0.stats| in h.children[b]
  {
    GrownByNext(g0, b);
    GrownByBlock(AddNext(g0, b), b);
    AttachedTransitive(g0, AddNext(g0, b), LoopStart(g0, b), b, b);
  }

  /** One more edge from the end of a loop body. */
  lemma BodyEdgeShape(f1: Graph, f2: Graph, s: Stmt, b: Block, c: Block, head: Block, end: Option<Block>,
                      next: Option<Block>, ctx: Context)
    requires Attached(f1, f2, b) && SimBranch(f2, Some(s), b, head, ctx)
    requires Sim(f2, s, c, 0, end, ctx) && c in f2.children[b]
    requires end.Some? ==> |f1.stats| <= end.value < |f2.stats|
    requires next.Some? ==> next.value < |f2.stats|
    ensures var g := MaybeEdge(f2, end, next);
      Attached(f1, g, b) && SimBranch(g, Some(s), b, head, ctx) &&
      (next.Some? ==> SimBranch(g, Some(s), b, next.value, ctx))
  {
    if next.Some? {
      BodyLeaves(f1, f2, s, b, c, end, next.value, ctx);
    }
    if end.Some? && next.Some? {
      AttachedByEdge(f2, end.value, next.value);
      AttachedTransitive(f1, f2, MaybeEdge(f2, end, next), b, end.value);
      SimBranchGrow(f2, MaybeEdge(f2, end, next), Some(s), b, head, ctx);
    }
  }

  lemma BodyLeaves(f1: Graph, f2: Graph, s: Stmt, b: Block, c: Block, end: Option<Block>, next: Block, ctx: Context)
    requires Attached(f1, f2, b) && Sim(f2, s, c, 0, end, ctx) && c in f2.children[b]
    requires end.Some? ==> end.value < |f2.stats|
    requires next < |f2.stats|
    ensures SimBranch(MaybeEdge(f2, end, Some(next)), Some(s), b, next, ctx)
  {
    if end.Some? {
      AttachedByEdge(f2, end.value, next);
      SimGrow(f2, AddEdge(f2, end.value, next), s, c, 0, end, ctx);
    }
    SimBranchIntro(MaybeEdge(f2, end, Some(next)), s, b, c, end, next, ctx);
  }

  lemma WhileShape(g0: Graph, f1: Graph, g: Graph, s: Stmt, b: Block, c: Block, next: Block, e: Block,
                   end: Option<Block>, ctx: Context)
    requires s.While? && Start(g0, b) && c == |g0.stats| && next == c + 1
    requires Visited(LoopStart(g0, b), f1, c, Some(e)) && SimExpr(f1, s.condition, c, 0, e)
    requires Attached(f1, g, e) && SimBranch(g, Some(s.body), e, c, Inner(ctx, next, c))
    requires SimBranch(g, Some(s.body), e, next, Inner(ctx, next, c)) && SimBranch(g, s.orelse, e, next, ctx)
    requires end == if HasParent(g, next) then Some(next) else None
    ensures Visited(g0, g, b, end) && Sim(g, s, b, |g0.stats[b]|, end, ctx)
  {
    LoopVisited(g0, f1, g, b, c, e, next, end);
    SimExprGrow(f1, g, s.condition, c, 0, e);
    SimWhile(g, s, b, c, e, next, end, ctx);
  }

  lemma LoopVisited(g0: Graph, f1: Graph, g: Graph, b: Block, c: Block, e: Block, next: Block, end: Option<Block>)
    requires Start(g0, b) && c == |g0.stats| && next == c + 1
    requires Visited(LoopStart(g0, b), f1, c, Some(e)) && Attached(f1, g, e)
    requires end == None || end == Some(next)
    ensures Visited(g0, g, b, end) && c in g.children[b] && g.stats[next] == [] && g.stats[b] == g0.stats[b]
  {
    var h := LoopStart(g0, b);
    LoopStartAttached(g0, b);
    GrownTransitive(h, f1, g, c, e);
    ExtTransitive(h, f1, g);
    GrownTransitive(g0, h, g, b, c);
    ExtTransitive(g0, h, g);
  }

  lemma ForShape(g0: Graph, f1: Graph, g: Graph, s: Stmt, b: Block, c: Block, next: Block, e: Block, end: Option<Block>,
                 ctx: Context)
    requires s.ForIn? && Start(g0, b) && c == |g0.stats| && next == c + 1
    requires Visited(LoopStart(g0, b), f1, c, Some(e)) && SimExpr(f1, s.iterable, c, 0, e)
    requires Attached(f1, g, e) && SimItem(g, Some(s.target), s.body, e, c, Inner(ctx, next, c))
    requires SimBranch(g, s.orelse, e, next, ctx)
    requires end == if HasParent(g, next) then Some(next) else None
    ensures Visited(g0, g, b, end) && Sim(g, s, b, |g0.stats[b]|, end, ctx)
  {
    LoopVisited(g0, f1, g, b, c, e, next, end);
    SimExprGrow(f1, g, s.iterable, c, 0, e);
    SimFor(g, s, b, c, e, next, end, ctx);
  }

  /** A loop target visited behind `b` from `c` to `u`, and the body behind it. */
  lemma LoopItemShape(f1: Graph, f2: Graph, g: Graph, t: Target, s: Stmt, b: Block, c: Block, u: Block, next: Block,
                      ctx: Context)
    requires Detour(f1, f2, b, c, Some(u)) && SimTarget(f2, t, c, 0, u, ctx)
    requires Attached(f2, g, u) && SimBranch(g, Some(s), u, next, ctx)
    ensures Attached(f1, g, b) && SimItem(g, Some(t), s, b, next, ctx)
  {
    DetourAttached(f1, f2, b, c, Some(u));
    AttachedTransitive(f1, f2, g, b, u);
    SimTargetGrow(f2, g, t, c, 0, u, ctx);
    SimLoopItem(g, t, s, b, c, u, next, ctx);
  }

  /** The two halves of an assertion: the condition behind `b` from `c` to `e`, and the
      failure behind it. */
  lemma AssertPartsShape(g1: Graph, f: Graph, g: Graph, s: Stmt, b: Block, c: Block, e: Block, next: Block,
                         ctx: Context)
    requires s.Assert? && Detour(g1, f, b, c, Some(e)) && SimExpr(f, s.condition, c, 0, e)
    requires Attached(f, g, e) && SimBranch(g, Some(Raise(s.failure)), e, next, ctx)
    ensures Attached(g1, g, b) && c in g.children[b] && SimExpr(g, s.condition, c, 0, e)
  {
    DetourAttached(g1, f, b, c, Some(e));
    AttachedTransitive(g1, f, g, b, e);
    SimExprGrow(f, g, s.condition, c, 0, e);
  }

  lemma AssertShape(g0: Graph, g2: Graph, s: Stmt, b: Block, c: Block, e: Block, next: Block, ctx: Context)
    requires s.Assert? && Start(g0, b) && next == |g0.stats| && c == next + 1 && c < |g2.stats| && e < |g2.stats|
    requires Attached(AddBlock(g0), g2, b) && c in g2.children[b] && SimExpr(g2, s.condition, c, 0, e)
    requires SimBranch(g2, Some(Raise(s.failure)), e, next, ctx)
    ensures var g := AddEdge(g2, c, next);
      Visited(g0, g, b, Some(next)) && Sim(g, s, b, |g0.stats[b]|, Some(next), ctx)
  {
    var g := AddEdge(g2, c, next);
    AttachedByEdge(g2, c, next);
    AttachedTransitive(AddBlock(g0), g2, g, b, c);
    JoinShape(g0, g, b, next, Some(next));
    SimExprGrow(g2, g, s.condition, c, 0, e);
    SimBranchGrow(g2, g, Some(Raise(s.failure)), e, next, ctx);
    SimAssert(g, s, b, c, e, next, ctx);
  }

  // ------------------------------------------------------------------ exceptions

  lemma NoHandlersShape(g1: Graph, entryPoint: Block, next: Block, ctx: Context)
    requires WellFormed(g1) && FreshIn(g1, entryPoint) && (ctx.handler.Some? ==> ctx.handler.value < |g1.stats|)
    ensures var g := if ctx.handler.Some? then AddEdge(g1, entryPoint, ctx.handler.value) else g1;
      Grown(g1, g, entryPoint) && Ext(g1, g) && SimHandlers(g, NoHandlers, entryPoint, next, ctx)
  {
    if ctx.handler.Some? {
      AttachedByEdge(g1, entryPoint, ctx.handler.value);
      SimNoHandlers(AddEdge(g1, entryPoint, ctx.handler.value), entryPoint, next, ctx);
    } else {
      SimNoHandlers(g1, entryPoint, next, ctx);
    }
  }

  /** The target and the body of a clause, behind `p`: the target from `c` to `u`, the
      body on to `f`. */
  lemma ClauseBodyShape(f2: Graph, f4: Graph, f5: Graph, t: Option<Target>, s: Stmt, p: Block, c: Block, u: Block,
                        f: Option<Block>, next: Block, ctx: Context)
    requires Detour(f2, f4, p, c, Some(u)) && next < |f2.stats|
    requires if t.Some? then SimTarget(f4, t.value, c, 0, u, ctx) else u == c && f4.stats[u] == []
    requires Visited(f4, f5, u, f) && Sim(f5, s, u, |f4.stats[u]|, f, ctx)
    ensures Attached(f2, MaybeEdge(f5, f, Some(next)), p) && SimItem(MaybeEdge(f5, f, Some(next)), t, s, p, next, ctx)
  {
    var g := MaybeEdge(f5, f, Some(next));
    DetourAttached(f2, f4, p, c, Some(u));
    ExtTransitive(f2, f4, f5);
    GrownTransitive(f2, f4, f5, p, u);
    if f.Some? {
      AttachedByEdge(f5, f.value, next);
      GrownTransitive(f2, f5, g, p, f.value);
      ExtTransitive(f2, f5, g);
    }
    ExtTransitive(f4, f5, g);
    SimGrow(f5, g, s, u, |f4.stats[u]|, f, ctx);
    SimItemIntro(f4, g, t, s, p, c, u, f, next, ctx);
  }

  /** One clause: the pattern from `entryPoint` to `p`, and behind it `other`, for the next
      clause, and the target and the body. */
  lemma ClausePartsShape(g1: Graph, f1: Graph, g: Graph, hs: Handlers, entryPoint: Block,
                         p: Block, other: Block, next: Block, ctx: Context)
    requires hs.Handler? && WellFormed(g1) && FreshIn(g1, entryPoint)
    requires Visited(g1, f1, entryPoint, Some(p)) && SimExpr(f1, hs.pattern, entryPoint, 0, p)
    requires other == |f1.stats| && Attached(AddNext(f1, p), g, p)
    ensures Grown(g1, g, entryPoint) && Ext(g1, g) && SimExpr(g, hs.pattern, entryPoint, 0, p)
    ensures other in g.children[p] && FreshIn(g, other) && other >= |g1.stats|
  {
    GrownByNext(f1, p);
    AttachedTransitive(f1, AddNext(f1, p), g, p, p);
    GrownTransitive(g1, f1, g, entryPoint, p);
    ExtTransitive(g1, f1, g);
    SimExprGrow(f1, g, hs.pattern, entryPoint, 0, p);
  }

  lemma HandlerShape(g1: Graph, f: Graph, g: Graph, hs: Handlers, entryPoint: Block,
                     p: Block, other: Block, next: Block, ctx: Context)
    requires hs.Handler? && Grown(g1, f, entryPoint) && Ext(g1, f) && SimExpr(f, hs.pattern, entryPoint, 0, p)
    requires p < |f.stats| && other in f.children[p] && other >= |g1.stats| && FreshIn(f, other)
    requires SimItem(f, hs.target, hs.body, p, next, ctx)
    requires Grown(f, g, other) && Ext(f, g) && SimHandlers(g, hs.rest, other, next, ctx)
    ensures Grown(g1, g, entryPoint) && Ext(g1, g) && SimHandlers(g, hs, entryPoint, next, ctx)
  {
    GrownTransitive(g1, f, g, entryPoint, other);
    ExtTransitive(g1, f, g);
    assert p != other && entryPoint != other;
    SimExprGrow(f, g, hs.pattern, entryPoint, 0, p);
    SimItemGrow(f, g, hs.target, hs.body, p, next, ctx);
    SimHandler(g, hs, entryPoint, p, other, next, ctx);
  }

  /** The block that links to the last one made. */
  function TryLink(h: Graph, b: Block): Graph
    requires WellFormed(h) && b < |h.stats|
  {
    AddEdge(AddNext(h, b), |h.stats|, |h.stats| - 1)
  }

  /** A `try` makes four blocks: `next` (which is unused yet), an orphan, the empty entry
      point of the handlers, and an empty block behind `b` that links to it. */
  ghost predicate TryStarted(g0: Graph, h: Graph, b: Block) {
    && Start(g0, b) && |h.stats| == |g0.stats| + 4
    && Attached(AddBlock(g0), h, b)
    && FreshIn(h, |g0.stats| + 2) && h.stats[|g0.stats| + 3] == []
    && |g0.stats| + 2 in h.children[|g0.stats| + 3] && |g0.stats| + 3 in h.children[b]
  }

  lemma TryStartIsStarted(g0: Graph, h: Graph, b: Block)
    requires Start(g0, b) && h == TryLink(AddBlock(AddBlock(AddBlock(g0))), b)
    ensures TryStarted(g0, h, b)
  {
    var n := |g0.stats|;
    var h1, h2, h3 := AddBlock(g0), AddBlock(AddBlock(g0)), AddBlock(AddBlock(AddBlock(g0)));
    GrownByBlock(g0, b);
    GrownByBlock(h1, b);
    GrownByBlock(h2, b);
    GrownByNext(h3, b);
    AttachedByEdge(AddNext(h3, b), n + 3, n + 2);
    AttachedTransitive(h1, h2, h3, b, b);
    AttachedTransitive(h1, h3, AddNext(h3, b), b, b);
    AttachedTransitive(h1, AddNext(h3, b), h, b, n + 3);
  }

  lemma GuardedShape(h: Graph, f2: Graph, g: Graph, s: Stmt, a: Block, d: Block, f: Option<Block>,
                     entryPoint: Block, next: Block, ctx: Context)
    requires s.TryExcept? && Detour(h, f2, a, d, f) && Sim(f2, s.body, d, 0, f, ctx.(handler := Some(entryPoint)))
    requires if f.Some? then Attached(f2, g, f.value) && SimBranch(g, s.orelse, f.value, next, ctx) else g == f2
    ensures Attached(h, g, a) && SimGuarded(g, s, a, entryPoint, next, ctx)
  {
    DetourAttached(h, f2, a, d, f);
    if f.Some? {
      AttachedTransitive(h, f2, g, a, f.value);
    }
    SimGrow(f2, g, s.body, d, 0, f, ctx.(handler := Some(entryPoint)));
    SimGuardedIntro(g, s, a, d, f, entryPoint, next, ctx);
  }

  lemma EntryStaysFresh(h: Graph, g: Graph, entryPoint: Block, a: Block)
    requires FreshIn(h, entryPoint) && Attached(h, g, a) && entryPoint != a
    ensures FreshIn(g, entryPoint)
  {
  }

  lemma TryPartsShape(g0: Graph, h: Graph, g2: Graph, g: Graph, s: Stmt, b: Block, next: Block, entryPoint: Block,
                      a: Block, ctx: Context)
    requires s.TryExcept? && TryStarted(g0, h, b) && next == |g0.stats| && entryPoint == next + 2 && a == next + 3
    requires Attached(h, g2, a) && SimGuarded(g2, s, a, entryPoint, next, ctx)
    requires Grown(g2, g, entryPoint) && Ext(g2, g)
    requires SimHandlers(g, s.handlers, entryPoint, next, ctx)
    ensures TryVisited(g0, g, s, b, ctx)
  {
    AttachedTransitive(AddBlock(g0), h, g2, b, a);
    GrownTransitive(AddBlock(g0), g2, g, b, entryPoint);
    ExtTransitive(AddBlock(g0), g2, g);
    SimGuardedGrow(g2, g, s, a, entryPoint, next, ctx);
  }

  /** All of a `try`, from the graph `g0` on. */
  ghost predicate TryVisited(g0: Graph, g: Graph, s: Stmt, b: Block, ctx: Context) {
    var next := |g0.stats|;
    && s.TryExcept? && Attached(AddBlock(g0), g, b) && SimGuarded(g, s, next + 3, next + 2, next, ctx)
    && SimHandlers(g, s.handlers, next + 2, next, ctx)
    && next + 3 < |g.stats| && g.stats[next + 3] == [] && next + 2 in g.children[next + 3] && next + 3 in g.children[b]
  }

  lemma TryShape(g0: Graph, g: Graph, s: Stmt, b: Block, next: Block, end: Option<Block>, ctx: Context)
    requires Start(g0, b) && next == |g0.stats| && TryVisited(g0, g, s, b, ctx)
    requires end == if HasParent(g, next) then Some(next) else None
    ensures Visited(g0, g, b, end) && Sim(g, s, b, |g0.stats[b]|, end, ctx)
  {
    JoinShape(g0, g, b, next, end);
    SimTry(g, s, b, next + 3, next + 2, next, end, ctx);
  }
}

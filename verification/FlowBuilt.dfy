/** The graph that the visitors build, as a function of the statement: every block, every
    edge and every statement in it, and none besides. */
module FlowBuilt {
  import opened Wrappers
  import opened FlowSyntax
  import opened FlowGraph
  import opened FlowSimulation
  import opened FlowStatements
  import opened FlowShapes

  /** A graph and the block that its visitor is in. */
  datatype Place = Place(graph: Graph, block: Block)

  /** A graph and the block that its visitor is in, if it can go on at all. */
  datatype End = End(graph: Graph, block: Option<Block>)

  function Edge(g: Graph, b: Block, c: Block): Graph {
    if b < |g.children| then AddEdge(g, b, c) else g
  }

  function EdgeFrom(g: Graph, b: Option<Block>, c: Option<Block>): Graph {
    if b.Some? && c.Some? then Edge(g, b.value, c.value) else g
  }

  /** A new block behind `b`. */
  function Behind(g: Graph, b: Block): Graph {
    if b < |g.children| then AddNext(g, b) else g
  }

  function Note(g: Graph, b: Block, s: Stat): Graph {
    if b < |g.stats| then AddStat(g, b, s) else g
  }

  /** A join block can be gone on in if anything leads there. */
  ghost function Joined(g: Graph, next: Block): End {
    End(g, if HasParent(g, next) then Some(next) else None)
  }

  // ---------------------------------------------------------------- expressions

  function BuiltExpr(e: Expr, g: Graph, b: Block): Place
    decreases e, 0
  {
    match e
    case Name(node, entry) => Place(Note(g, b, Reference(node, entry)), b)
    case NoOperand => Place(g, b)
    case Operands(x, y) =>
      var p := BuiltExpr(x, g, b);
      BuiltExpr(y, p.graph, p.block)
    case BoolBinop(x, y) =>
      var next := |g.stats|;
      var p := BuiltExpr(x, AddBlock(g), b);
      Place(Edge(BuiltArm(y, p.graph, p.block, next), b, next), next)
    case CondExpr(c, x, y) =>
      var p := BuiltExpr(c, g, b);
      var next := |p.graph.stats|;
      Place(BuiltArm(y, BuiltArm(x, AddBlock(p.graph), p.block, next), p.block, next), next)
  }

  /** An operand in blocks of its own, between `b` and `next`. */
  function BuiltArm(x: Expr, g: Graph, b: Block, next: Block): Graph
    decreases x, 1
  {
    var p := BuiltExpr(x, Behind(g, b), |g.stats|);
    Edge(p.graph, p.block, next)
  }

  // -------------------------------------------------------------------- targets

  function BuiltLink(g: Graph, b: Block, handler: Option<Block>): Place {
    if handler.None? then Place(g, b) else Place(Behind(Edge(g, b, handler.value), b), |g.stats|)
  }

  function BuiltTarget(t: Target, g: Graph, b: Block, handler: Option<Block>): Place
    decreases t, 1
  {
    var p := BuiltLink(g, b, handler);
    var q := BuiltCore(t, p.graph, p.block, handler);
    BuiltLink(q.graph, q.block, handler)
  }

  function BuiltCore(t: Target, g: Graph, b: Block, handler: Option<Block>): Place
    decreases t, 0
  {
    match t
    case NameTarget(lhs, entry) => Place(Note(g, b, Assignment(lhs, entry)), b)
    case SequenceTarget(args) => BuiltTargets(args, g, b, handler)
    case OtherTarget(e) => BuiltExpr(e, g, b)
  }

  function BuiltTargets(ts: Targets, g: Graph, b: Block, handler: Option<Block>): Place
    decreases ts
  {
    match ts
    case NoTargets => Place(g, b)
    case MoreTargets(t, rest) =>
      var p := BuiltTarget(t, g, b, handler);
      BuiltTargets(rest, p.graph, p.block, handler)
  }

  // ----------------------------------------------------------------- statements

  ghost function BuiltStmt(s: Stmt, g: Graph, b: Block, ctx: Context): End
    decreases s, 1
  {
    match s
    case Pass => End(g, Some(b))
    case Then(first, second) =>
      var r := BuiltStmt(first, g, b, ctx);
      if r.block.Some? then BuiltStmt(second, r.graph, r.block.value, ctx) else r
    case ExprStat(e) =>
      var p := BuiltExpr(e, g, b);
      End(p.graph, Some(p.block))
    case Assign(targets, rhs) =>
      var p := BuiltExpr(rhs, g, b);
      var q := BuiltTargets(targets, p.graph, p.block, ctx.handler);
      End(q.graph, Some(q.block))
    case Del(node, entry) => End(Note(Note(g, b, Reference(node, entry)), b, Deletion(node, entry)), Some(b))
    case Assert(_, _) => BuiltAssert(s, g, b, ctx)
    case If(clauses) => Joined(BuiltClauses(clauses, AddBlock(g), b, |g.stats|, ctx), |g.stats|)
    case While(_, _, _) => BuiltWhile(s, g, b, ctx)
    case ForIn(_, _, _, _) => BuiltFor(s, g, b, ctx)
    case Break => End(EdgeFrom(g, Some(b), ctx.next), None)
    case Continue => End(EdgeFrom(g, Some(b), ctx.head), None)
    case Return(e) =>
      var p := BuiltExpr(e, g, b);
      End(Edge(p.graph, p.block, EXIT), None)
    case Raise(e) => BuiltRaise(e, g, b, ctx)
    case TryExcept(_, _, _) => BuiltTry(s, g, b, ctx)
  }

  ghost function BuiltRaise(e: Expr, g: Graph, b: Block, ctx: Context): End {
    var p := BuiltExpr(e, g, b);
    End(EdgeFrom(p.graph, Some(p.block), ctx.handler), None)
  }

  /** An assertion: the condition from `c` on, the failure behind it, and the way on. */
  ghost function BuiltAssert(s: Stmt, g: Graph, b: Block, ctx: Context): End
    requires s.Assert?
  {
    var next, c := |g.stats|, |g.stats| + 1;
    var p := BuiltExpr(s.condition, Behind(AddBlock(g), b), c);
    var r := BuiltRaise(s.failure, Behind(p.graph, p.block), |p.graph.stats|, ctx);
    End(Edge(r.graph, c, next), Some(next))
  }

  lemma AssertBuilt(s: Stmt, g: Graph, b: Block, ctx: Context, r: Graph)
    requires s.Assert?
    requires var p := BuiltExpr(s.condition, Behind(AddBlock(g), b), |g.stats| + 1);
      r == BuiltRaise(s.failure, Behind(p.graph, p.block), |p.graph.stats|, ctx).graph
    ensures BuiltAssert(s, g, b, ctx) == End(Edge(r, |g.stats| + 1, |g.stats|), Some(|g.stats|))
  {
  }

  /** A statement in blocks of its own, behind `parent` and on to `next`. */
  ghost function BuiltBranch(s: Stmt, g: Graph, parent: Block, next: Block, ctx: Context): End
    decreases s, 2
  {
    var r := BuiltStmt(s, Behind(g, parent), |g.stats|, ctx);
    End(EdgeFrom(r.graph, r.block, Some(next)), r.block)
  }

  ghost function BuiltElse(orelse: Option<Stmt>, g: Graph, parent: Block, next: Block, ctx: Context): Graph
    decreases orelse
  {
    if orelse.Some? then BuiltBranch(orelse.value, g, parent, next, ctx).graph else Edge(g, parent, next)
  }

  ghost function BuiltClauses(cs: Clauses, g: Graph, parent: Block, next: Block, ctx: Context): Graph
    decreases cs
  {
    match cs
    case LastClause(orelse) => BuiltElse(orelse, g, parent, next, ctx)
    case Clause(condition, body, rest) =>
      var p := BuiltExpr(condition, Behind(g, parent), |g.stats|);
      var r := BuiltBranch(body, p.graph, p.block, next, ctx);
      BuiltClauses(rest, r.graph, p.block, next, ctx)
  }

  /** A loop from `head`, new behind `b`, to `next`. */
  ghost function BuiltWhile(s: Stmt, g: Graph, b: Block, ctx: Context): End
    requires s.While?
    decreases s, 0
  {
    var head, next := |g.stats|, |g.stats| + 1;
    var p := BuiltExpr(s.condition, AddBlock(Behind(g, b)), head);
    Joined(BuiltWhileRest(s, p, head, next, ctx), next)
  }

  ghost function BuiltWhileRest(s: Stmt, p: Place, head: Block, next: Block, ctx: Context): Graph
    requires s.While?
    decreases s, 0, 0
  {
    var r := BuiltBranch(s.body, p.graph, p.block, head, Inner(ctx, next, head));
    BuiltElse(s.orelse, EdgeFrom(r.graph, r.block, Some(next)), p.block, next, ctx)
  }

  ghost function BuiltFor(s: Stmt, g: Graph, b: Block, ctx: Context): End
    requires s.ForIn?
    decreases s, 0
  {
    var head, next := |g.stats|, |g.stats| + 1;
    var p := BuiltExpr(s.iterable, AddBlock(Behind(g, b)), head);
    Joined(BuiltForRest(s, p, head, next, ctx), next)
  }

  ghost function BuiltForRest(s: Stmt, p: Place, head: Block, next: Block, ctx: Context): Graph
    requires s.ForIn?
    decreases s, 0, 0
  {
    var t := BuiltTarget(s.target, Behind(p.graph, p.block), |p.graph.stats|, ctx.handler);
    var r := BuiltBranch(s.body, t.graph, t.block, head, Inner(ctx, next, head));
    BuiltElse(s.orelse, r.graph, p.block, next, ctx)
  }

  // ----------------------------------------------------------------- exceptions

  /** What a `try` starts with: `next`, an orphan, the entry point of the handlers, and an
      empty block behind `b` that links to it. */
  function BuiltTryStart(g: Graph, b: Block): Graph {
    Edge(Behind(AddBlock(AddBlock(AddBlock(g))), b), |g.stats| + 3, |g.stats| + 2)
  }

  ghost function BuiltTry(s: Stmt, g: Graph, b: Block, ctx: Context): End
    requires s.TryExcept?
    decreases s, 0
  {
    Joined(BuiltTryParts(s, BuiltTryStart(g, b), |g.stats|, ctx), |g.stats|)
  }

  ghost function BuiltTryParts(s: Stmt, h: Graph, next: Block, ctx: Context): Graph
    requires s.TryExcept?
    decreases s, 0, 1
  {
    BuiltHandlers(s.handlers, BuiltGuarded(s, h, next + 3, next + 2, next, ctx), next + 2, next, ctx)
  }

  /** The guarded body behind `a`, and its `else`. */
  ghost function BuiltGuarded(s: Stmt, h: Graph, a: Block, entryPoint: Block, next: Block, ctx: Context): Graph
    requires s.TryExcept?
    decreases s, 0, 0
  {
    var r := BuiltStmt(s.body, Behind(h, a), |h.stats|, ctx.(handler := Some(entryPoint)));
    if r.block.Some? then BuiltElse(s.orelse, r.graph, r.block.value, next, ctx) else r.graph
  }

  ghost function BuiltHandlers(hs: Handlers, g: Graph, entryPoint: Block, next: Block, ctx: Context): Graph
    decreases hs
  {
    match hs
    case NoHandlers => EdgeFrom(g, Some(entryPoint), ctx.handler)
    case Handler(pattern, target, body, rest) =>
      var p := BuiltExpr(pattern, g, entryPoint);
      var other := |p.graph.stats|;
      BuiltHandlers(rest, BuiltItem(target, body, Behind(p.graph, p.block), p.block, next, ctx), other, next, ctx)
  }

  /** The target and the body of a clause, in blocks of their own behind `parent`. */
  ghost function BuiltItem(target: Option<Target>, body: Stmt, g: Graph, parent: Block, next: Block, ctx: Context)
    : Graph
    decreases body, 2
  {
    var t := BuiltItemStart(target, g, parent, ctx);
    var r := BuiltStmt(body, t.graph, t.block, ctx);
    EdgeFrom(r.graph, r.block, Some(next))
  }

  function BuiltItemStart(target: Option<Target>, g: Graph, parent: Block, ctx: Context): Place {
    var c, h := |g.stats|, Behind(g, parent);
    if target.Some? then BuiltTarget(target.value, h, c, ctx.handler) else Place(h, c)
  }

  // -------------------------------------------------- loops and what joins behind them

  lemma TryStartBuilt(g: Graph, b: Block)
    requires Start(g, b)
    ensures TryStarted(g, BuiltTryStart(g, b), b)
  {
    TryStartIsStarted(g, BuiltTryStart(g, b), b);
  }

  lemma WhileDone(s: Stmt, g0: Graph, b: Block, c: Block, next: Block, ctx: Context, f1: Graph, e: Block, g: Graph)
    requires s.While? && Start(g0, b) && c == |g0.stats| && next == c + 1
    requires Visited(LoopStart(g0, b), f1, c, Some(e)) && SimExpr(f1, s.condition, c, 0, e)
    requires Attached(f1, g, e) && SimBranch(g, Some(s.body), e, c, Inner(ctx, next, c))
    requires SimBranch(g, Some(s.body), e, next, Inner(ctx, next, c)) && SimBranch(g, s.orelse, e, next, ctx)
    requires Place(f1, e) == BuiltExpr(s.condition, LoopStart(g0, b), c)
    requires g == BuiltWhileRest(s, Place(f1, e), c, next, ctx)
    ensures Joined(g, next) == BuiltWhile(s, g0, b, ctx) && next < |g.stats|
    ensures Visited(g0, g, b, Joined(g, next).block) && Sim(g, s, b, |g0.stats[b]|, Joined(g, next).block, ctx)
  {
    WhileShape(g0, f1, g, s, b, c, next, e, Joined(g, next).block, ctx);
  }

  lemma ForDone(s: Stmt, g0: Graph, b: Block, c: Block, next: Block, ctx: Context, f1: Graph, e: Block, g: Graph)
    requires s.ForIn? && Start(g0, b) && c == |g0.stats| && next == c + 1
    requires Visited(LoopStart(g0, b), f1, c, Some(e)) && SimExpr(f1, s.iterable, c, 0, e)
    requires Attached(f1, g, e) && SimItem(g, Some(s.target), s.body, e, c, Inner(ctx, next, c))
    requires SimBranch(g, s.orelse, e, next, ctx)
    requires Place(f1, e) == BuiltExpr(s.iterable, LoopStart(g0, b), c)
    requires g == BuiltForRest(s, Place(f1, e), c, next, ctx)
    ensures Joined(g, next) == BuiltFor(s, g0, b, ctx) && next < |g.stats|
    ensures Visited(g0, g, b, Joined(g, next).block) && Sim(g, s, b, |g0.stats[b]|, Joined(g, next).block, ctx)
  {
    ForShape(g0, f1, g, s, b, c, next, e, Joined(g, next).block, ctx);
  }
}

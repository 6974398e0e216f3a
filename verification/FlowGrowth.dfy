/** How the graph grows while a statement is visited: only its own blocks and the one it
    started in get anything new. */
module FlowGrowth {
  import opened Wrappers
  import opened FlowSyntax
  import opened FlowGraph
  import opened FlowSimulation
  import opened FlowStatements
  import opened FlowShapes
  import opened FlowBuilt

  /** A graph that is being built, and a block of it that something can be put behind. */
  ghost predicate Grounded(g: Graph, b: Block) {
    WellFormed(g) && |g.stats| >= 2 && b < |g.stats|
  }

  /** The jumps out of a statement lead to blocks that there are. */
  ghost predicate CtxIn(g: Graph, ctx: Context) {
    && (ctx.next.Some? ==> ctx.next.value < |g.stats|)
    && (ctx.head.Some? ==> ctx.head.value < |g.stats|)
    && (ctx.handler.Some? ==> ctx.handler.value < |g.stats|)
  }

  lemma AttachedEdge(g1: Graph, g: Graph, b: Block, c: Block, next: Block)
    requires Attached(g1, g, b) && |g1.stats| <= c < |g.stats| && next < |g.stats|
    ensures Attached(g1, Edge(g, c, next), b) && Edge(g, c, next).children[b] == g.children[b]
  {
    AttachedByEdge(g, c, next);
    AttachedTransitive(g1, g, Edge(g, c, next), b, c);
  }

  lemma BehindStarts(g: Graph, b: Block)
    requires Grounded(g, b)
    ensures var h := Behind(g, b); Start(h, |g.stats|) && h.stats[|g.stats|] == [] && Attached(g, h, b)
    ensures Behind(g, b).children[b] == g.children[b] + {|g.stats|} && |Behind(g, b).stats| == |g.stats| + 1
  {
    GrownByNext(g, b);
  }

  /** What was visited behind `b`, from a block of its own, is attached to `b`. */
  lemma BehindAttached(g: Graph, b: Block, f: Graph, end: Option<Block>)
    requires Grounded(g, b) && Visited(Behind(g, b), f, |g.stats|, end)
    ensures Attached(g, f, b) && (end.Some? ==> |g.stats| <= end.value < |f.stats|)
    ensures f.children[b] == g.children[b] + {|g.stats|} && |f.stats| > |g.stats|
  {
    DetourAttached(g, f, b, |g.stats|, end);
    BehindStarts(g, b);
  }

  /** The block that a branch behind `b` starts with. */
  function ElseHead(orelse: Option<Stmt>, g: Graph, next: Block): Block {
    if orelse.Some? then |g.stats| else next
  }

  function ClausesHead(cs: Clauses, g: Graph, next: Block): Block {
    if cs.LastClause? then ElseHead(cs.orelse, g, next) else |g.stats|
  }

  // ----------------------------------------------------- expressions and targets

  lemma {:induction false} ExprGrows(e: Expr, g: Graph, b: Block)
    requires Start(g, b)
    ensures var p := BuiltExpr(e, g, b); Visited(g, p.graph, b, Some(p.block))
    decreases e, 0
  {
    match e {
      case Name(node, entry) =>
        assert Grown(g, Note(g, b, Reference(node, entry)), b);
      case NoOperand =>
      case Operands(x, y) =>
        var p := BuiltExpr(x, g, b);
        ExprGrows(x, g, b);
        ExprGrows(y, p.graph, p.block);
        VisitedTransitive(g, p.graph, BuiltExpr(e, g, b).graph, b, p.block, Some(BuiltExpr(e, g, b).block));
      case BoolBinop(x, y) => BoolBinopGrows(x, y, g, b);
      case CondExpr(c, x, y) => CondExprGrows(c, x, y, g, b);
    }
  }

  lemma {:induction false} BoolBinopGrows(x: Expr, y: Expr, g: Graph, b: Block)
    requires Start(g, b)
    ensures var p := BuiltExpr(BoolBinop(x, y), g, b); Visited(g, p.graph, b, Some(p.block))
    decreases BoolBinop(x, y), 0, 0
  {
    var next, g0 := |g.stats|, AddBlock(g);
    var p := BuiltExpr(x, g0, b);
    var g2 := BuiltArm(y, p.graph, p.block, next);
    GrownByBlock(g, b);
    ExprGrows(x, g0, b);
    ArmGrows(y, p.graph, p.block, next);
    GrownTransitive(g, g0, p.graph, b, b);
    GrownTransitive(g, p.graph, g2, b, p.block);
    AttachedByEdge(g2, b, next);
    GrownTransitive(g, g2, Edge(g2, b, next), b, b);
    GrownExt(g, Edge(g2, b, next), b);
    assert OpenBlock(g0, next) && next != b;
  }

  lemma {:induction false} CondExprGrows(c: Expr, x: Expr, y: Expr, g: Graph, b: Block)
    requires Start(g, b)
    ensures var p := BuiltExpr(CondExpr(c, x, y), g, b); Visited(g, p.graph, b, Some(p.block))
    decreases CondExpr(c, x, y), 0, 0
  {
    var p := BuiltExpr(c, g, b);
    ExprGrows(c, g, b);
    var next, g0 := |p.graph.stats|, AddBlock(p.graph);
    GrownByBlock(p.graph, p.block);
    var g1 := BuiltArm(x, g0, p.block, next);
    ArmGrows(x, g0, p.block, next);
    ArmGrows(y, g1, p.block, next);
    var g2 := BuiltArm(y, g1, p.block, next);
    AttachedTransitive(g0, g1, g2, p.block, p.block);
    AttachedTransitive(p.graph, g0, g2, p.block, p.block);
    GrownTransitive(g, p.graph, g2, b, p.block);
    ExtTransitive(g, p.graph, g2);
    assert OpenBlock(g0, next) && next != p.block;
  }

  lemma {:induction false} ArmGrows(x: Expr, g: Graph, b: Block, next: Block)
    requires Grounded(g, b) && next < |g.stats|
    ensures Attached(g, BuiltArm(x, g, b, next), b)
    ensures BuiltArm(x, g, b, next).children[b] == g.children[b] + {|g.stats|}
    ensures |BuiltArm(x, g, b, next).stats| > |g.stats|
    decreases x, 1
  {
    var p := BuiltExpr(x, Behind(g, b), |g.stats|);
    BehindStarts(g, b);
    ExprGrows(x, Behind(g, b), |g.stats|);
    BehindAttached(g, b, p.graph, Some(p.block));
    AttachedEdge(g, p.graph, b, p.block, next);
  }

  lemma LinkGrows(g: Graph, b: Block, handler: Option<Block>)
    requires Start(g, b) && (handler.Some? ==> handler.value < |g.stats|)
    ensures var p := BuiltLink(g, b, handler); Visited(g, p.graph, b, Some(p.block))
    ensures (BuiltLink(g, b, handler).graph, BuiltLink(g, b, handler).block) == Link(g, b, handler)
  {
    LinkAttached(g, b, handler);
  }

  lemma {:induction false} TargetGrows(t: Target, g: Graph, b: Block, handler: Option<Block>)
    requires Start(g, b) && (handler.Some? ==> handler.value < |g.stats|)
    ensures var p := BuiltTarget(t, g, b, handler); Visited(g, p.graph, b, Some(p.block))
    decreases t, 1
  {
    var p := BuiltLink(g, b, handler);
    LinkGrows(g, b, handler);
    var q := BuiltCore(t, p.graph, p.block, handler);
    CoreGrows(t, p.graph, p.block, handler);
    var r := BuiltLink(q.graph, q.block, handler);
    LinkGrows(q.graph, q.block, handler);
    VisitedTransitive(p.graph, q.graph, r.graph, p.block, q.block, Some(r.block));
    VisitedTransitive(g, p.graph, r.graph, b, p.block, Some(r.block));
  }

  lemma {:induction false} CoreGrows(t: Target, g: Graph, b: Block, handler: Option<Block>)
    requires Start(g, b) && (handler.Some? ==> handler.value < |g.stats|)
    ensures var p := BuiltCore(t, g, b, handler); Visited(g, p.graph, b, Some(p.block))
    decreases t, 0
  {
    match t {
      case NameTarget(lhs, entry) =>
        assert Grown(g, Note(g, b, Assignment(lhs, entry)), b);
      case SequenceTarget(args) => TargetsGrow(args, g, b, handler);
      case OtherTarget(e) => ExprGrows(e, g, b);
    }
  }

  lemma {:induction false} TargetsGrow(ts: Targets, g: Graph, b: Block, handler: Option<Block>)
    requires Start(g, b) && (handler.Some? ==> handler.value < |g.stats|)
    ensures var p := BuiltTargets(ts, g, b, handler); Visited(g, p.graph, b, Some(p.block))
    decreases ts
  {
    if ts.MoreTargets? {
      var p := BuiltTarget(ts.first, g, b, handler);
      TargetGrows(ts.first, g, b, handler);
      TargetsGrow(ts.rest, p.graph, p.block, handler);
      var q := BuiltTargets(ts.rest, p.graph, p.block, handler);
      VisitedTransitive(g, p.graph, q.graph, b, p.block, Some(q.block));
    }
  }

  // ------------------------------------------------------------------- statements

  lemma {:induction false} StmtGrows(s: Stmt, g: Graph, b: Block, ctx: Context)
    requires Start(g, b) && CtxIn(g, ctx)
    ensures var r := BuiltStmt(s, g, b, ctx); Visited(g, r.graph, b, r.block)
    decreases s, 1
  {
    match s {
      case Pass =>
      case Then(_, _) => ThenGrows(s, g, b, ctx);
      case ExprStat(e) => ExprGrows(e, g, b);
      case Assign(targets, rhs) =>
        var p := BuiltExpr(rhs, g, b);
        ExprGrows(rhs, g, b);
        TargetsGrow(targets, p.graph, p.block, ctx.handler);
        var q := BuiltTargets(targets, p.graph, p.block, ctx.handler);
        VisitedTransitive(g, p.graph, q.graph, b, p.block, Some(q.block));
      case Del(node, entry) =>
        var h := Note(g, b, Reference(node, entry));
        assert Grown(g, h, b) && OpenBlock(h, b);
        assert Grown(h, Note(h, b, Deletion(node, entry)), b);
        GrownTransitive(g, h, Note(h, b, Deletion(node, entry)), b, b);
      case Assert(_, _) => AssertGrows(s, g, b, ctx);
      case If(clauses) =>
        GrownByBlock(g, b);
        ClausesGrow(clauses, AddBlock(g), b, |g.stats|, ctx);
        JoinShape(g, BuiltClauses(clauses, AddBlock(g), b, |g.stats|, ctx), b, |g.stats|,
                  BuiltStmt(s, g, b, ctx).block);
      case While(_, _, _) => WhileGrows(s, g, b, ctx);
      case ForIn(_, _, _, _) => ForGrows(s, g, b, ctx);
      case Break => JumpGrows(g, b, ctx.next);
      case Continue => JumpGrows(g, b, ctx.head);
      case Return(e) =>
        ExprGrows(e, g, b);
        var p := BuiltExpr(e, g, b);
        LeaveGrows(g, p.graph, b, p.block, Some(EXIT));
      case Raise(e) => RaiseGrows(e, g, b, ctx);
      case TryExcept(_, _, _) => TryGrows(s, g, b, ctx);
    }
  }

  lemma {:induction false} ThenGrows(s: Stmt, g: Graph, b: Block, ctx: Context)
    requires s.Then? && Start(g, b) && CtxIn(g, ctx)
    ensures var r := BuiltStmt(s, g, b, ctx); Visited(g, r.graph, b, r.block)
    decreases s, 0
  {
    var r := BuiltStmt(s.first, g, b, ctx);
    StmtGrows(s.first, g, b, ctx);
    if r.block.Some? {
      StmtGrows(s.second, r.graph, r.block.value, ctx);
      var q := BuiltStmt(s.second, r.graph, r.block.value, ctx);
      VisitedTransitive(g, r.graph, q.graph, b, r.block.value, q.block);
    }
  }

  lemma JumpGrows(g: Graph, b: Block, to: Option<Block>)
    requires Start(g, b) && (to.Some? ==> to.value < |g.stats|)
    ensures Visited(g, EdgeFrom(g, Some(b), to), b, None)
  {
    if to.Some? {
      AttachedByEdge(g, b, to.value);
    }
  }

  lemma LeaveGrows(g: Graph, p: Graph, b: Block, e: Block, to: Option<Block>)
    requires Visited(g, p, b, Some(e)) && (to.Some? ==> to.value < |g.stats|)
    ensures Visited(g, EdgeFrom(p, Some(e), to), b, None)
  {
    if to.Some? {
      AttachedByEdge(p, e, to.value);
      GrownTransitive(g, p, Edge(p, e, to.value), b, e);
      ExtTransitive(g, p, Edge(p, e, to.value));
    }
  }

  lemma RaiseGrows(e: Expr, g: Graph, b: Block, ctx: Context)
    requires Start(g, b) && CtxIn(g, ctx)
    ensures var r := BuiltRaise(e, g, b, ctx); Visited(g, r.graph, b, r.block)
  {
    ExprGrows(e, g, b);
    var p := BuiltExpr(e, g, b);
    LeaveGrows(g, p.graph, b, p.block, ctx.handler);
  }

  lemma AssertGrows(s: Stmt, g: Graph, b: Block, ctx: Context)
    requires s.Assert? && Start(g, b) && CtxIn(g, ctx)
    ensures var r := BuiltAssert(s, g, b, ctx); Visited(g, r.graph, b, r.block)
  {
    var next, c, g1 := |g.stats|, |g.stats| + 1, AddBlock(g);
    GrownByBlock(g, b);
    var p := BuiltExpr(s.condition, Behind(g1, b), c);
    BehindStarts(g1, b);
    ExprGrows(s.condition, Behind(g1, b), c);
    BehindAttached(g1, b, p.graph, Some(p.block));
    var r := BuiltRaise(s.failure, Behind(p.graph, p.block), |p.graph.stats|, ctx);
    BehindStarts(p.graph, p.block);
    RaiseGrows(s.failure, Behind(p.graph, p.block), |p.graph.stats|, ctx);
    BehindAttached(p.graph, p.block, r.graph, r.block);
    AttachedTransitive(g1, p.graph, r.graph, b, p.block);
    AttachedEdge(g1, r.graph, b, c, next);
    JoinShape(g, Edge(r.graph, c, next), b, next, Some(next));
  }

  lemma {:induction false} BranchGrows(s: Stmt, g: Graph, parent: Block, next: Block, ctx: Context)
    requires Grounded(g, parent) && next < |g.stats| && CtxIn(g, ctx)
    ensures var r := BuiltBranch(s, g, parent, next, ctx);
      Attached(g, r.graph, parent) && (r.block.Some? ==> |g.stats| <= r.block.value < |r.graph.stats|) &&
      r.graph.children[parent] == g.children[parent] + {|g.stats|}
    decreases s, 2
  {
    BehindStarts(g, parent);
    StmtGrows(s, Behind(g, parent), |g.stats|, ctx);
    var r := BuiltStmt(s, Behind(g, parent), |g.stats|, ctx);
    BehindAttached(g, parent, r.graph, r.block);
    if r.block.Some? {
      AttachedEdge(g, r.graph, parent, r.block.value, next);
    }
  }

  lemma {:induction false} ElseGrows(orelse: Option<Stmt>, g: Graph, parent: Block, next: Block, ctx: Context)
    requires Grounded(g, parent) && next < |g.stats| && CtxIn(g, ctx)
    ensures var h := BuiltElse(orelse, g, parent, next, ctx);
      Attached(g, h, parent) && h.children[parent] == g.children[parent] + {ElseHead(orelse, g, next)}
    decreases orelse
  {
    if orelse.Some? {
      BranchGrows(orelse.value, g, parent, next, ctx);
    } else {
      AttachedByEdge(g, parent, next);
    }
  }

  lemma {:induction false} ClausesGrow(cs: Clauses, g: Graph, parent: Block, next: Block, ctx: Context)
    requires Grounded(g, parent) && next < |g.stats| && CtxIn(g, ctx)
    ensures var h := BuiltClauses(cs, g, parent, next, ctx);
      Attached(g, h, parent) && h.children[parent] == g.children[parent] + {ClausesHead(cs, g, next)}
    decreases cs
  {
    match cs {
      case LastClause(orelse) => ElseGrows(orelse, g, parent, next, ctx);
      case Clause(condition, body, rest) =>
        var p := BuiltExpr(condition, Behind(g, parent), |g.stats|);
        BehindStarts(g, parent);
        ExprGrows(condition, Behind(g, parent), |g.stats|);
        BehindAttached(g, parent, p.graph, Some(p.block));
        var r := BuiltBranch(body, p.graph, p.block, next, ctx);
        BranchGrows(body, p.graph, p.block, next, ctx);
        ClausesGrow(rest, r.graph, p.block, next, ctx);
        var h := BuiltClauses(rest, r.graph, p.block, next, ctx);
        AttachedTransitive(p.graph, r.graph, h, p.block, p.block);
        AttachedTransitive(g, p.graph, h, parent, p.block);
    }
  }

  lemma {:induction false} WhileGrows(s: Stmt, g: Graph, b: Block, ctx: Context)
    requires s.While? && Start(g, b) && CtxIn(g, ctx)
    ensures var r := BuiltWhile(s, g, b, ctx); Visited(g, r.graph, b, r.block)
    decreases s, 0
  {
    var head, next := |g.stats|, |g.stats| + 1;
    LoopStartAttached(g, b);
    var p := BuiltExpr(s.condition, LoopStart(g, b), head);
    ExprGrows(s.condition, LoopStart(g, b), head);
    WhileRestGrows(s, p, head, next, ctx);
    LoopVisited(g, p.graph, BuiltWhileRest(s, p, head, next, ctx), b, head, p.block, next,
                BuiltWhile(s, g, b, ctx).block);
  }

  lemma {:induction false} WhileRestGrows(s: Stmt, p: Place, head: Block, next: Block, ctx: Context)
    requires s.While? && Grounded(p.graph, p.block) && head < |p.graph.stats| && next < |p.graph.stats|
    requires CtxIn(p.graph, ctx)
    ensures Attached(p.graph, BuiltWhileRest(s, p, head, next, ctx), p.block)
    decreases s, 0, 0
  {
    var r := BuiltBranch(s.body, p.graph, p.block, head, Inner(ctx, next, head));
    BranchGrows(s.body, p.graph, p.block, head, Inner(ctx, next, head));
    var f := EdgeFrom(r.graph, r.block, Some(next));
    if r.block.Some? {
      AttachedEdge(p.graph, r.graph, p.block, r.block.value, next);
    }
    ElseGrows(s.orelse, f, p.block, next, ctx);
    AttachedTransitive(p.graph, f, BuiltElse(s.orelse, f, p.block, next, ctx), p.block, p.block);
  }

  lemma {:induction false} ForGrows(s: Stmt, g: Graph, b: Block, ctx: Context)
    requires s.ForIn? && Start(g, b) && CtxIn(g, ctx)
    ensures var r := BuiltFor(s, g, b, ctx); Visited(g, r.graph, b, r.block)
    decreases s, 0
  {
    var head, next := |g.stats|, |g.stats| + 1;
    LoopStartAttached(g, b);
    var p := BuiltExpr(s.iterable, LoopStart(g, b), head);
    ExprGrows(s.iterable, LoopStart(g, b), head);
    ForRestGrows(s, p, head, next, ctx);
    LoopVisited(g, p.graph, BuiltForRest(s, p, head, next, ctx), b, head, p.block, next, BuiltFor(s, g, b, ctx).block);
  }

  lemma {:induction false} ForRestGrows(s: Stmt, p: Place, head: Block, next: Block, ctx: Context)
    requires s.ForIn? && Grounded(p.graph, p.block) && head < |p.graph.stats| && next < |p.graph.stats|
    requires CtxIn(p.graph, ctx)
    ensures Attached(p.graph, BuiltForRest(s, p, head, next, ctx), p.block)
    decreases s, 0, 0
  {
    var t := BuiltTarget(s.target, Behind(p.graph, p.block), |p.graph.stats|, ctx.handler);
    BehindStarts(p.graph, p.block);
    TargetGrows(s.target, Behind(p.graph, p.block), |p.graph.stats|, ctx.handler);
    BehindAttached(p.graph, p.block, t.graph, Some(t.block));
    var r := BuiltBranch(s.body, t.graph, t.block, head, Inner(ctx, next, head));
    BranchGrows(s.body, t.graph, t.block, head, Inner(ctx, next, head));
    AttachedTransitive(p.graph, t.graph, r.graph, p.block, t.block);
    ElseGrows(s.orelse, r.graph, p.block, next, ctx);
    AttachedTransitive(p.graph, r.graph, BuiltElse(s.orelse, r.graph, p.block, next, ctx), p.block, p.block);
  }

  // ------------------------------------------------------------------- exceptions

  lemma {:induction false} TryGrows(s: Stmt, g: Graph, b: Block, ctx: Context)
    requires s.TryExcept? && Start(g, b) && CtxIn(g, ctx)
    ensures var r := BuiltTry(s, g, b, ctx); Visited(g, r.graph, b, r.block)
    decreases s, 0
  {
    var next, h := |g.stats|, BuiltTryStart(g, b);
    TryStartBuilt(g, b);
    GuardedGrows(s, h, next + 3, next + 2, next, ctx);
    var f := BuiltGuarded(s, h, next + 3, next + 2, next, ctx);
    HandlersGrow(s.handlers, f, next + 2, next, ctx);
    var k := BuiltHandlers(s.handlers, f, next + 2, next, ctx);
    AttachedTransitive(AddBlock(g), h, f, b, next + 3);
    GrownTransitive(AddBlock(g), f, k, b, next + 2);
    ExtTransitive(AddBlock(g), f, k);
    JoinShape(g, k, b, next, BuiltTry(s, g, b, ctx).block);
  }

  lemma {:induction false} GuardedGrows(s: Stmt, h: Graph, a: Block, entryPoint: Block, next: Block, ctx: Context)
    requires s.TryExcept? && Grounded(h, a) && entryPoint < |h.stats| && next < |h.stats| && CtxIn(h, ctx)
    ensures var f := BuiltGuarded(s, h, a, entryPoint, next, ctx);
      Attached(h, f, a) && f.children[a] == h.children[a] + {|h.stats|}
    decreases s, 0, 0
  {
    var inner := ctx.(handler := Some(entryPoint));
    BehindStarts(h, a);
    StmtGrows(s.body, Behind(h, a), |h.stats|, inner);
    var r := BuiltStmt(s.body, Behind(h, a), |h.stats|, inner);
    BehindAttached(h, a, r.graph, r.block);
    if r.block.Some? {
      ElseGrows(s.orelse, r.graph, r.block.value, next, ctx);
      AttachedTransitive(h, r.graph, BuiltElse(s.orelse, r.graph, r.block.value, next, ctx), a, r.block.value);
    }
  }

  lemma {:induction false} HandlersGrow(hs: Handlers, g: Graph, entryPoint: Block, next: Block, ctx: Context)
    requires Start(g, entryPoint) && FreshIn(g, entryPoint) && next < |g.stats| && CtxIn(g, ctx)
    ensures var h := BuiltHandlers(hs, g, entryPoint, next, ctx); Grown(g, h, entryPoint) && Ext(g, h)
    decreases hs
  {
    match hs {
      case NoHandlers =>
        if ctx.handler.Some? {
          AttachedByEdge(g, entryPoint, ctx.handler.value);
        }
      case Handler(pattern, target, body, rest) =>
        var p := BuiltExpr(pattern, g, entryPoint);
        ExprGrows(pattern, g, entryPoint);
        var other, f := |p.graph.stats|, Behind(p.graph, p.block);
        BehindStarts(p.graph, p.block);
        ItemGrows(target, body, f, p.block, next, ctx);
        var f' := BuiltItem(target, body, f, p.block, next, ctx);
        HandlersGrow(rest, f', other, next, ctx);
        AttachedTransitive(p.graph, f, f', p.block, p.block);
        GrownTransitive(g, p.graph, f', entryPoint, p.block);
        ExtTransitive(g, p.graph, f');
        var h := BuiltHandlers(rest, f', other, next, ctx);
        GrownTransitive(g, f', h, entryPoint, other);
        ExtTransitive(g, f', h);
    }
  }

  lemma {:induction false} ItemGrows(target: Option<Target>, body: Stmt, g: Graph, parent: Block, next: Block,
                                     ctx: Context)
    requires Grounded(g, parent) && next < |g.stats| && CtxIn(g, ctx)
    ensures var h := BuiltItem(target, body, g, parent, next, ctx);
      Attached(g, h, parent) && h.children[parent] == g.children[parent] + {|g.stats|}
    decreases body, 2
  {
    var t := BuiltItemStart(target, g, parent, ctx);
    ItemStartGrows(target, g, parent, ctx);
    StmtGrows(body, t.graph, t.block, ctx);
    var r := BuiltStmt(body, t.graph, t.block, ctx);
    VisitedTransitive(Behind(g, parent), t.graph, r.graph, |g.stats|, t.block, r.block);
    BehindAttached(g, parent, r.graph, r.block);
    if r.block.Some? {
      AttachedEdge(g, r.graph, parent, r.block.value, next);
    }
  }

  lemma ItemStartGrows(target: Option<Target>, g: Graph, parent: Block, ctx: Context)
    requires Grounded(g, parent) && CtxIn(g, ctx)
    ensures var t := BuiltItemStart(target, g, parent, ctx);
      Visited(Behind(g, parent), t.graph, |g.stats|, Some(t.block))
  {
    BehindStarts(g, parent);
    if target.Some? {
      TargetGrows(target.value, Behind(g, parent), |g.stats|, ctx.handler);
    }
  }
}

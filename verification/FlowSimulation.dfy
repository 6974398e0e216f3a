/** What visiting a statement achieves: every run of the statement follows the graph.
    The claims are about all graphs `W` that the visited graph may still grow into, so
    they can be made while the construction is going on. */
module FlowSimulation {
  import opened Wrappers
  import opened FlowSyntax
  import opened FlowGraph

  /** The blocks that a jump out of the statement leads to. */
  datatype Context = Context(next: Option<Block>, head: Option<Block>, handler: Option<Block>)

  predicate InBlock(g: Graph, b: Block, k: nat) {
    b < |g.stats| && k < |g.stats[b]|
  }

  /** A reference to the name stands at a point that a path reaches with state `st`. */
  ghost predicate CanRead(W: World, node: NodeId, entry: Entry, st: State) {
    exists b: Block, k: nat ::
      InBlock(W.graph, b, k) && W.graph.stats[b][k] == Reference(node, entry) && At(W, b, k, st)
  }

  ghost predicate CanReadAll(W: World, events: seq<Event>) {
    forall ev <- events :: CanRead(W, ev.node, ev.entry, ev.state)
  }

  /** The exception handler in force, if any, is entered with state `st`. */
  ghost predicate Covered(W: World, ctx: Context, st: State) {
    ctx.handler.Some? ==> Enters(W, ctx.handler.value, st)
  }

  /** The point where `g` leaves off in block `b`. */
  ghost predicate AtEnd(g: Graph, W: World, b: Block, st: State) {
    b < |g.stats| && At(W, b, |g.stats[b]|, st)
  }

  /** Where a run has got to, unless it ended normally. */
  ghost predicate Jumps(g: Graph, W: World, ctx: Context, r: Result) {
    match r.outcome
    case Normal => true
    case Raised => Covered(W, ctx, r.state)
    case Broke =>
      && ctx.next.Some? && HasParent(g, ctx.next.value)
      && Enters(W, ctx.next.value, r.state) && Covered(W, ctx, r.state)
    case Continued => ctx.head.Some? && Enters(W, ctx.head.value, r.state) && Covered(W, ctx, r.state)
    case Returned => Enters(W, EXIT, r.state)
    case Cut => true
  }

  /** The run follows the graph, and its normal end is where the visitor left off. */
  ghost predicate Follows(g: Graph, W: World, end: Option<Block>, ctx: Context, r: Result) {
    && CanReadAll(W, r.events) && Jumps(g, W, ctx, r)
    && (r.outcome == Normal ==> end.Some? && AtEnd(g, W, end.value, r.state) && Covered(W, ctx, r.state))
  }

  /** The run follows the graph, and its normal end leads to block `next`. */
  ghost predicate Joins(g: Graph, W: World, next: Block, ctx: Context, r: Result) {
    && CanReadAll(W, r.events) && Jumps(g, W, ctx, r)
    && (r.outcome == Normal ==> HasParent(g, next) && Enters(W, next, r.state) && Covered(W, ctx, r.state))
  }

  // ----------------------------------------------------------------- the claims

  /** An expression changes nothing, neither up to where its visit ended nor up to the
      end of the block it started in, and each of its names can be read in its state. */
  ghost predicate SimExpr(g: Graph, e: Expr, b: Block, k: nat, end: Block) {
    forall W, st :: Fits(g, W) && At(W, b, k, st) ==> Stays(g, W, e, b, end, st)
  }

  ghost predicate Stays(g: Graph, W: World, e: Expr, b: Block, end: Block, st: State) {
    AtEnd(g, W, end, st) && AtEnd(g, W, b, st) && Looks(W, e, st)
  }

  ghost predicate Looks(W: World, e: Expr, st: State) {
    forall ref <- Refs(e) :: CanRead(W, ref.0, ref.1, st)
  }

  /** An operand that has blocks of its own between the end of `b` and `next`. */
  ghost predicate SimArm(g: Graph, e: Expr, b: Block, next: Block) {
    && HasChild(g, b) && HasParent(g, next)
    && forall W, st :: Fits(g, W) && AtEnd(g, W, b, st) ==> Enters(W, next, st) && Looks(W, e, st)
  }

  ghost predicate SimTarget(g: Graph, t: Target, b: Block, k: nat, end: Block, ctx: Context) {
    forall W, st, o :: Fits(g, W) && At(W, b, k, st) && Covered(W, ctx, st) ==>
      Follows(g, W, Some(end), ctx, Bind(t, st, o))
  }

  ghost predicate SimTargets(g: Graph, ts: Targets, b: Block, k: nat, end: Block, ctx: Context) {
    forall W, st, o :: Fits(g, W) && At(W, b, k, st) && Covered(W, ctx, st) ==>
      Follows(g, W, Some(end), ctx, BindAll(ts, st, o))
  }

  /** A statement that was visited from the `k`-th position of `b` to the end of `end`. */
  ghost predicate Sim(g: Graph, s: Stmt, b: Block, k: nat, end: Option<Block>, ctx: Context) {
    forall W, st, o :: Fits(g, W) && At(W, b, k, st) && Covered(W, ctx, st) ==>
      Follows(g, W, end, ctx, Exec(s, st, o))
  }

  /** A statement (or a missing `else`) between the end of `b` and `next`. */
  ghost predicate SimBranch(g: Graph, s: Option<Stmt>, b: Block, next: Block, ctx: Context) {
    && HasChild(g, b)
    && forall W, st, o :: Fits(g, W) && AtEnd(g, W, b, st) && Covered(W, ctx, st) ==>
         Joins(g, W, next, ctx, ExecElse(s, st, o))
  }

  ghost predicate SimClauses(g: Graph, cs: Clauses, b: Block, next: Block, ctx: Context) {
    && HasChild(g, b)
    && forall W, st, o :: Fits(g, W) && AtEnd(g, W, b, st) && Covered(W, ctx, st) ==>
         Joins(g, W, next, ctx, ExecClauses(cs, st, o))
  }

  /** A target, if there is one, and a statement with it bound, between the end of `b`
      and `next`. */
  ghost predicate SimItem(g: Graph, t: Option<Target>, s: Stmt, b: Block, next: Block, ctx: Context) {
    && HasChild(g, b)
    && forall W, st, o :: Fits(g, W) && AtEnd(g, W, b, st) && Covered(W, ctx, st) ==>
         Joins(g, W, next, ctx, ExecItem(t, s, st, o))
  }

  /** The guarded body of a `try` and its `else`, between the end of `b` and `next`, when
      whatever enters the handlers is sure to get to the handler outside. */
  ghost predicate SimGuarded(g: Graph, s: Stmt, b: Block, entryPoint: Block, next: Block, ctx: Context) {
    && HasChild(g, b) && s.TryExcept?
    && forall W, st, o ::
       Fits(g, W) && AtEnd(g, W, b, st) && Escapes(W, entryPoint, ctx) && Enters(W, entryPoint, st) ==>
         Guarded(g, W, s, entryPoint, next, ctx, Exec(s.body, st, o))
  }

  ghost predicate Escapes(W: World, entryPoint: Block, ctx: Context) {
    forall st :: Enters(W, entryPoint, st) ==> Covered(W, ctx, st)
  }

  ghost predicate Guarded(g: Graph, W: World, s: Stmt, entryPoint: Block, next: Block, ctx: Context, r: Result)
    requires s.TryExcept?
  {
    && CanReadAll(W, r.events) && Jumps(g, W, ctx.(handler := Some(entryPoint)), r)
    && (r.outcome == Normal ==> Joins(g, W, next, ctx, ExecElse(s.orelse, r.state, r.rest)))
  }

  /** The clauses that an exception entering `entryPoint` is offered to; an exception
      that none of them takes goes on to the handler outside. */
  ghost predicate SimHandlers(g: Graph, hs: Handlers, entryPoint: Block, next: Block, ctx: Context) {
    forall W, st, o :: Fits(g, W) && Enters(W, entryPoint, st) ==>
      Handled(g, W, next, ctx, st, ExecHandlers(hs, st, o))
  }

  ghost predicate Handled(g: Graph, W: World, next: Block, ctx: Context, st: State, r: Result) {
    Covered(W, ctx, st) && Joins(g, W, next, ctx, r)
  }

  // ---------------------------------------------------- claims survive growth

  lemma HasParentGrow(g: Graph, h: Graph, c: Block)
    requires Ext(g, h) && HasParent(g, c)
    ensures HasParent(h, c)
  {
    var b: Block :| b < |g.children| && c in g.children[b];
    assert c in h.children[b];
  }

  lemma JumpsGrow(g: Graph, h: Graph, W: World, ctx: Context, r: Result)
    requires Ext(g, h) && Jumps(g, W, ctx, r)
    ensures Jumps(h, W, ctx, r)
  {
    if r.outcome == Broke {
      HasParentGrow(g, h, ctx.next.value);
    }
  }

  lemma SimExprGrow(g: Graph, h: Graph, e: Expr, b: Block, k: nat, end: Block)
    requires SimExpr(g, e, b, k, end) && Ext(g, h) && end < |g.stats| && b < |g.stats|
    requires |h.stats[end]| == |g.stats[end]| && |h.stats[b]| == |g.stats[b]|
    ensures SimExpr(h, e, b, k, end)
  {
    forall W, st | Fits(h, W) && At(W, b, k, st) ensures Stays(h, W, e, b, end, st) {
      FitsTransitive(g, h, W);
      assert Stays(g, W, e, b, end, st);
    }
  }

  lemma SimArmGrow(g: Graph, h: Graph, e: Expr, b: Block, next: Block)
    requires SimArm(g, e, b, next) && Ext(g, h)
    ensures SimArm(h, e, b, next)
  {
    HasParentGrow(g, h, next);
    forall W, st | Fits(h, W) && AtEnd(h, W, b, st) ensures Enters(W, next, st) && Looks(W, e, st) {
      FitsTransitive(g, h, W);
      assert AtEnd(g, W, b, st);
    }
  }

  lemma SimTargetGrow(g: Graph, h: Graph, t: Target, b: Block, k: nat, end: Block, ctx: Context)
    requires SimTarget(g, t, b, k, end, ctx) && Ext(g, h) && end < |g.stats| && |h.stats[end]| == |g.stats[end]|
    ensures SimTarget(h, t, b, k, end, ctx)
  {
    forall W, st, o | Fits(h, W) && At(W, b, k, st) && Covered(W, ctx, st)
      ensures Follows(h, W, Some(end), ctx, Bind(t, st, o))
    {
      FitsTransitive(g, h, W);
      assert Follows(g, W, Some(end), ctx, Bind(t, st, o));
      JumpsGrow(g, h, W, ctx, Bind(t, st, o));
    }
  }

  lemma SimGrow(g: Graph, h: Graph, s: Stmt, b: Block, k: nat, end: Option<Block>, ctx: Context)
    requires SimStmtDone(g, h, end) && Sim(g, s, b, k, end, ctx)
    ensures Sim(h, s, b, k, end, ctx)
  {
    forall W, st, o | Fits(h, W) && At(W, b, k, st) && Covered(W, ctx, st)
      ensures Follows(h, W, end, ctx, Exec(s, st, o))
    {
      FitsTransitive(g, h, W);
      assert Follows(g, W, end, ctx, Exec(s, st, o));
      JumpsGrow(g, h, W, ctx, Exec(s, st, o));
    }
  }

  /** `h` has grown out of `g` without adding to the block that `g` ended in. */
  ghost predicate SimStmtDone(g: Graph, h: Graph, end: Option<Block>) {
    Ext(g, h) && (end.Some? ==> end.value < |g.stats| && |h.stats[end.value]| == |g.stats[end.value]|)
  }

  lemma SimBranchGrow(g: Graph, h: Graph, s: Option<Stmt>, b: Block, next: Block, ctx: Context)
    requires SimBranch(g, s, b, next, ctx) && Ext(g, h)
    ensures SimBranch(h, s, b, next, ctx)
  {
    forall W, st, o | Fits(h, W) && AtEnd(h, W, b, st) && Covered(W, ctx, st)
      ensures Joins(h, W, next, ctx, ExecElse(s, st, o))
    {
      FitsTransitive(g, h, W);
      assert AtEnd(g, W, b, st);
      JoinsGrow(g, h, W, next, ctx, ExecElse(s, st, o));
    }
  }

  lemma SimItemGrow(g: Graph, h: Graph, t: Option<Target>, s: Stmt, b: Block, next: Block, ctx: Context)
    requires SimItem(g, t, s, b, next, ctx) && Ext(g, h)
    ensures SimItem(h, t, s, b, next, ctx)
  {
    forall W, st, o | Fits(h, W) && AtEnd(h, W, b, st) && Covered(W, ctx, st)
      ensures Joins(h, W, next, ctx, ExecItem(t, s, st, o))
    {
      FitsTransitive(g, h, W);
      assert AtEnd(g, W, b, st);
      JoinsGrow(g, h, W, next, ctx, ExecItem(t, s, st, o));
    }
  }

  lemma SimGuardedGrow(g: Graph, h: Graph, s: Stmt, b: Block, entryPoint: Block, next: Block, ctx: Context)
    requires SimGuarded(g, s, b, entryPoint, next, ctx) && Ext(g, h)
    ensures SimGuarded(h, s, b, entryPoint, next, ctx)
  {
    forall W, st, o | Fits(h, W) && AtEnd(h, W, b, st) && Escapes(W, entryPoint, ctx) && Enters(W, entryPoint, st)
      ensures Guarded(h, W, s, entryPoint, next, ctx, Exec(s.body, st, o))
    {
      FitsTransitive(g, h, W);
      assert AtEnd(g, W, b, st);
      var r := Exec(s.body, st, o);
      assert Guarded(g, W, s, entryPoint, next, ctx, r);
      JumpsGrow(g, h, W, ctx.(handler := Some(entryPoint)), r);
      if r.outcome == Normal {
        JoinsGrow(g, h, W, next, ctx, ExecElse(s.orelse, r.state, r.rest));
      }
    }
  }

  lemma JoinsGrow(g: Graph, h: Graph, W: World, next: Block, ctx: Context, r: Result)
    requires Joins(g, W, next, ctx, r) && Ext(g, h)
    ensures Joins(h, W, next, ctx, r)
  {
    JumpsGrow(g, h, W, ctx, r);
    if r.outcome == Normal {
      HasParentGrow(g, h, next);
    }
  }

  // ---------------------------------------------------------------- small steps

  /** Leaving a block that is complete, over one of its edges. */
  lemma Go(g: Graph, W: World, b: Block, c: Block, st: State)
    requires Fits(g, W) && AtEnd(g, W, b, st) && c in g.children[b]
    ensures Enters(W, c, st) && HasParent(g, c) && At(W, c, 0, st)
  {
    AtEdge(W, b, c, st);
  }

  /** Arriving at a block that nothing was put into yet. */
  lemma Arrive(g: Graph, W: World, c: Block, st: State)
    requires Enters(W, c, st) && c < |g.stats| && g.stats[c] == []
    ensures AtEnd(g, W, c, st) && At(W, c, 0, st)
  {
  }

  /** The evaluation of a visited expression: its reads are fine whatever it does, and
      it stays in the same state. */
  lemma Evaluated(W: World, e: Expr, st: State, o: seq<Choice>)
    requires Looks(W, e, st)
    ensures CanReadAll(W, Eval(e, st, o).events) && Eval(e, st, o).state == st
    ensures Eval(e, st, o).outcome in {Normal, Raised, Cut}
    ensures Eval(e, st, o).outcome != Cut ==> o != [] && Eval(e, st, o).rest == o[1..]
  {
  }

  /** The statement that joined its ends in `next` goes on there, if anything does. */
  lemma JoinEnd(g: Graph, W: World, next: Block, end: Option<Block>, ctx: Context, r: Result)
    requires Joins(g, W, next, ctx, r) && next < |g.stats| && g.stats[next] == []
    requires HasParent(g, next) ==> end == Some(next)
    ensures Follows(g, W, end, ctx, r)
  {
    if r.outcome == Normal {
      Arrive(g, W, next, r.state);
    }
  }

  // ---------------------------------------------------------------- expressions

  lemma SimNoOperand(g: Graph, b: Block)
    requires b < |g.stats|
    ensures SimExpr(g, NoOperand, b, |g.stats[b]|, b)
  {
  }

  lemma SimName(g: Graph, node: NodeId, entry: Entry, b: Block)
    requires b < |g.stats| && |g.stats[b]| > 0 && g.stats[b][|g.stats[b]| - 1] == Reference(node, entry)
    ensures SimExpr(g, Name(node, entry), b, |g.stats[b]| - 1, b)
  {
    var k := |g.stats[b]| - 1;
    forall W, st | Fits(g, W) && At(W, b, k, st) ensures Stays(g, W, Name(node, entry), b, b, st) {
      assert InBlock(W.graph, b, k) && W.graph.stats[b][k] == Reference(node, entry);
      AtStat(W, b, k, st);
    }
  }

  lemma SimOperands(g1: Graph, g: Graph, x: Expr, y: Expr, b: Block, k: nat, e1: Block, e: Block)
    requires Ext(g1, g) && b < |g1.stats| && e1 < |g1.stats| && (b != e1 ==> |g.stats[b]| == |g1.stats[b]|)
    requires SimExpr(g1, x, b, k, e1) && SimExpr(g, y, e1, |g1.stats[e1]|, e)
    ensures SimExpr(g, Operands(x, y), b, k, e)
  {
    forall W, st | Fits(g, W) && At(W, b, k, st) ensures Stays(g, W, Operands(x, y), b, e, st) {
      FitsTransitive(g1, g, W);
      assert Stays(g1, W, x, b, e1, st);
      assert Stays(g, W, y, e1, e, st);
    }
  }

  /** `c` is new behind `b`; the operand was visited from `c` to `e`. */
  lemma SimArmIntro(f: Graph, g: Graph, e: Expr, b: Block, c: Block, end: Block, next: Block)
    requires SimExpr(f, e, c, 0, end) && Ext(f, g) && g.stats == f.stats && end < |f.stats| && c < |f.stats|
    requires b < |g.stats| && c in g.children[b] && next in g.children[end]
    ensures SimArm(g, e, b, next)
  {
    SimExprGrow(f, g, e, c, 0, end);
    forall W, st | Fits(g, W) && AtEnd(g, W, b, st) ensures Enters(W, next, st) && Looks(W, e, st) {
      Go(g, W, b, c, st);
      assert Stays(g, W, e, c, end, st);
      Go(g, W, end, next, st);
    }
  }

  lemma SimBoolBinop(g: Graph, x: Expr, y: Expr, b: Block, k: nat, e1: Block, next: Block)
    requires SimExpr(g, x, b, k, e1) && SimArm(g, y, e1, next)
    requires next < |g.stats| && g.stats[next] == []
    ensures SimExpr(g, BoolBinop(x, y), b, k, next)
  {
    forall W, st | Fits(g, W) && At(W, b, k, st) ensures Stays(g, W, BoolBinop(x, y), b, next, st) {
      assert Stays(g, W, x, b, e1, st) && Looks(W, y, st);
      Arrive(g, W, next, st);
    }
  }

  lemma SimCondExpr(g: Graph, c: Expr, x: Expr, y: Expr, b: Block, k: nat, e1: Block, next: Block)
    requires SimExpr(g, c, b, k, e1) && SimArm(g, x, e1, next) && SimArm(g, y, e1, next)
    requires next < |g.stats| && g.stats[next] == []
    ensures SimExpr(g, CondExpr(c, x, y), b, k, next)
  {
    forall W, st | Fits(g, W) && At(W, b, k, st) ensures Stays(g, W, CondExpr(c, x, y), b, next, st) {
      assert Stays(g, W, c, b, e1, st) && Looks(W, x, st) && Looks(W, y, st);
      Arrive(g, W, next, st);
    }
  }

  // --------------------------------------------- what the visitor's moves add up to

  /** `c` is new behind `b`, and something was visited from there up to `end`. */
  ghost predicate Detour(g1: Graph, f: Graph, b: Block, c: Block, end: Option<Block>) {
    && WellFormed(g1) && b < |g1.stats| && c == |g1.stats| && Visited(AddNext(g1, b), f, c, end)
  }

  /** `g` extends `g1` behind block `b`, whose own statements stay. */
  ghost predicate Attached(g1: Graph, g: Graph, b: Block) {
    Grown(g1, g, b) && Ext(g1, g) && g.stats[b] == g1.stats[b]
  }

  lemma DetourAttached(g1: Graph, f: Graph, b: Block, c: Block, end: Option<Block>)
    requires Detour(g1, f, b, c, end)
    ensures Attached(g1, f, b) && c in f.children[b]
  {
    GrownByNext(g1, b);
    GrownTransitive(g1, AddNext(g1, b), f, b, c);
  }

  lemma AttachedTransitive(f: Graph, g: Graph, h: Graph, b: Block, c: Block)
    requires Attached(f, g, b) && Attached(g, h, c) && (c == b || c >= |f.stats|)
    ensures Attached(f, h, b)
  {
    GrownTransitive(f, g, h, b, c);
    ExtTransitive(f, g, h);
  }

  lemma AttachedByEdge(g: Graph, b: Block, c: Block)
    requires WellFormed(g) && b < |g.stats| && c < |g.stats|
    ensures Attached(g, AddEdge(g, b, c), b) && c in AddEdge(g, b, c).children[b]
    ensures AddEdge(g, b, c).stats == g.stats && HasParent(AddEdge(g, b, c), c)
  {
    GrownByEdge(g, b, c);
  }

  lemma ArmShape(g1: Graph, f: Graph, e: Expr, b: Block, c: Block, end: Block, next: Block)
    requires Detour(g1, f, b, c, Some(end)) && SimExpr(f, e, c, 0, end)
    requires next < |g1.stats|
    ensures Attached(g1, AddEdge(f, end, next), b) && SimArm(AddEdge(f, end, next), e, b, next)
  {
    DetourAttached(g1, f, b, c, Some(end));
    AttachedByEdge(f, end, next);
    AttachedTransitive(g1, f, AddEdge(f, end, next), b, end);
    SimArmIntro(f, AddEdge(f, end, next), e, b, c, end, next);
  }

  /** `next` was made first; `x` was visited from `b` to `e1`, and `y` attached there. */
  lemma BoolBinopShape(g0: Graph, g1: Graph, g2: Graph, x: Expr, y: Expr, b: Block, e1: Block, next: Block)
    requires WellFormed(g0) && OpenBlock(g0, b) && next == |g0.stats| >= 2
    requires Visited(AddBlock(g0), g1, b, Some(e1)) && SimExpr(g1, x, b, |g0.stats[b]|, e1)
    requires Attached(g1, g2, e1) && SimArm(g2, y, e1, next)
    ensures Visited(g0, AddEdge(g2, b, next), b, Some(next))
    ensures SimExpr(AddEdge(g2, b, next), BoolBinop(x, y), b, |g0.stats[b]|, next)
  {
    var g := AddEdge(g2, b, next);
    GrownByBlock(g0, b);
    GrownTransitive(g0, AddBlock(g0), g1, b, b);
    GrownTransitive(g0, g1, g2, b, e1);
    AttachedByEdge(g2, b, next);
    GrownTransitive(g0, g2, g, b, b);
    GrownExt(g0, g, b);
    ExtTransitive(g1, g2, g);
    SimExprGrow(g1, g, x, b, |g0.stats[b]|, e1);
    SimArmGrow(g2, g, y, e1, next);
    SimBoolBinop(g, x, y, b, |g0.stats[b]|, e1, next);
  }

  lemma CondExprShape(g0: Graph, g1: Graph, g: Graph, e: Expr, b: Block, e1: Block, next: Block)
    requires e.CondExpr? && WellFormed(g0) && OpenBlock(g0, b) && |g0.stats| >= 2 && next == |g1.stats|
    requires Visited(g0, g1, b, Some(e1)) && SimExpr(g1, e.condition, b, |g0.stats[b]|, e1)
    requires Attached(AddBlock(g1), g, e1) && SimArm(g, e.trueVal, e1, next) && SimArm(g, e.falseVal, e1, next)
    ensures Visited(g0, g, b, Some(next)) && SimExpr(g, e, b, |g0.stats[b]|, next)
  {
    GrownByBlock(g1, e1);
    AttachedTransitive(g1, AddBlock(g1), g, e1, e1);
    GrownTransitive(g0, g1, g, b, e1);
    GrownExt(g0, g, b);
    SimExprGrow(g1, g, e.condition, b, |g0.stats[b]|, e1);
    SimCondExpr(g, e.condition, e.trueVal, e.falseVal, b, |g0.stats[b]|, e1, next);
  }

  // -------------------------------------------------------------------- targets

  /** Inside a `try` an assignment stands in a block of its own, with an edge to the
      exception handler before and after it. */
  function Link(g: Graph, b: Block, handler: Option<Block>): (Graph, Block)
    requires b < |g.children|
  {
    if handler.None? then (g, b)
    else (AddNext(AddEdge(g, b, handler.value), b), |g.stats|)
  }

  lemma LinkAttached(g: Graph, b: Block, handler: Option<Block>)
    requires WellFormed(g) && OpenBlock(g, b) && |g.stats| >= 2 && (handler.Some? ==> handler.value < |g.stats|)
    ensures var (h, c) := Link(g, b, handler);
      Attached(g, h, b) && Visited(g, h, b, Some(c)) && (handler.Some? ==> h.stats[c] == [])
  {
    if handler.Some? {
      AttachedByEdge(g, b, handler.value);
      GrownByNext(AddEdge(g, b, handler.value), b);
      AttachedTransitive(g, AddEdge(g, b, handler.value), Link(g, b, handler).0, b, b);
    }
  }

  lemma ThroughLink(g: Graph, W: World, b: Block, handler: Option<Block>, st: State)
    requires WellFormed(g) && OpenBlock(g, b) && |g.stats| >= 2 && (handler.Some? ==> handler.value < |g.stats|)
    requires Fits(Link(g, b, handler).0, W) && AtEnd(g, W, b, st)
    ensures var (h, c) := Link(g, b, handler); AtEnd(h, W, c, st)
    ensures handler.Some? ==> Enters(W, handler.value, st)
  {
    if handler.Some? {
      var (h, c) := Link(g, b, handler);
      assert handler.value in h.children[b] && c in h.children[b];
      Go(h, W, b, handler.value, st);
      Go(h, W, b, c, st);
    }
  }

  /** The part of binding a target that stands between the two links. */
  ghost predicate SimCore(g1: Graph, g2: Graph, t: Target, b1: Block, b2: Block, ctx: Context) {
    forall W, st, o :: Fits(g2, W) && AtEnd(g1, W, b1, st) && Covered(W, ctx, st) ==>
      CoreFollows(g2, W, b2, ctx, BindCore(t, st, o))
  }

  ghost predicate CoreFollows(g: Graph, W: World, end: Block, ctx: Context, r: Result) {
    && CanReadAll(W, r.events) && Jumps(g, W, ctx, r)
    && (r.outcome == Normal ==> AtEnd(g, W, end, r.state))
  }

  lemma TargetShape(g0: Graph, g2: Graph, t: Target, b: Block, b2: Block, ctx: Context)
    requires WellFormed(g0) && OpenBlock(g0, b) && |g0.stats| >= 2
      && (ctx.handler.Some? ==> ctx.handler.value < |g0.stats|)
    requires Visited(Link(g0, b, ctx.handler).0, g2, Link(g0, b, ctx.handler).1, Some(b2))
    requires SimCore(Link(g0, b, ctx.handler).0, g2, t, Link(g0, b, ctx.handler).1, b2, ctx)
    ensures var (g, e) := Link(g2, b2, ctx.handler);
      Visited(g0, g, b, Some(e)) && SimTarget(g, t, b, |g0.stats[b]|, e, ctx)
  {
    var (g1, b1) := Link(g0, b, ctx.handler);
    var (g, e) := Link(g2, b2, ctx.handler);
    LinkAttached(g0, b, ctx.handler);
    LinkAttached(g2, b2, ctx.handler);
    VisitedTransitive(g0, g1, g2, b, b1, Some(b2));
    VisitedTransitive(g0, g2, g, b, b2, Some(e));
    ExtTransitive(g1, g2, g);
    forall W, st, o: seq<Choice> | Fits(g, W) && At(W, b, |g0.stats[b]|, st) && Covered(W, ctx, st)
      ensures Follows(g, W, Some(e), ctx, Bind(t, st, o))
    {
      if o != [] && !o[0].throws {
        FitsTransitive(g1, g, W);
        FitsTransitive(g2, g, W);
        ThroughLink(g0, W, b, ctx.handler, st);
        assert CoreFollows(g2, W, b2, ctx, BindCore(t, st, o[1..]));
        LinkedCore(g2, g, W, b2, e, ctx, BindCore(t, st, o[1..]));
      }
    }
  }

  /** Behind a target the state is linked to the handler once more. */
  lemma LinkedCore(g2: Graph, g: Graph, W: World, b2: Block, e: Block, ctx: Context, r: Result)
    requires Fits(g, W) && Fits(g2, W) && Ext(g2, g) && CoreFollows(g2, W, b2, ctx, r)
    requires WellFormed(g2) && OpenBlock(g2, b2) && |g2.stats| >= 2
      && (ctx.handler.Some? ==> ctx.handler.value < |g2.stats|)
    requires (g, e) == Link(g2, b2, ctx.handler)
    ensures Follows(g, W, Some(e), ctx, r)
  {
    JumpsGrow(g2, g, W, ctx, r);
    if r.outcome == Normal {
      ThroughLink(g2, W, b2, ctx.handler, r.state);
    }
  }

  lemma VisitedTransitive(f: Graph, g: Graph, h: Graph, b: Block, c: Block, end: Option<Block>)
    requires Visited(f, g, b, Some(c)) && Visited(g, h, c, end)
    ensures Visited(f, h, b, end)
  {
    GrownTransitive(f, g, h, b, c);
    ExtTransitive(f, g, h);
  }

  lemma SimNameCore(g1: Graph, lhs: NodeId, entry: Entry, b: Block, ctx: Context)
    requires WellFormed(g1) && OpenBlock(g1, b)
    ensures var g2 := AddStat(g1, b, Assignment(lhs, entry));
      Visited(g1, g2, b, Some(b)) && SimCore(g1, g2, NameTarget(lhs, entry), b, b, ctx)
  {
    var k, g2 := |g1.stats[b]|, AddStat(g1, b, Assignment(lhs, entry));
    assert Visited(g1, g2, b, Some(b));
    forall W, st, o | Fits(g2, W) && AtEnd(g1, W, b, st) && Covered(W, ctx, st)
      ensures CoreFollows(g2, W, b, ctx, BindCore(NameTarget(lhs, entry), st, o))
    {
      assert W.graph.stats[b][k] == g2.stats[b][k];
      AtStat(W, b, k, st);
    }
  }

  lemma SimSequenceCore(g1: Graph, g2: Graph, ts: Targets, b: Block, e: Block, ctx: Context)
    requires b < |g1.stats| && SimTargets(g2, ts, b, |g1.stats[b]|, e, ctx)
    ensures SimCore(g1, g2, SequenceTarget(ts), b, e, ctx)
  {
    forall W, st, o | Fits(g2, W) && AtEnd(g1, W, b, st) && Covered(W, ctx, st)
      ensures CoreFollows(g2, W, e, ctx, BindCore(SequenceTarget(ts), st, o))
    {
      assert Follows(g2, W, Some(e), ctx, BindAll(ts, st, o));
    }
  }

  lemma SimOtherCore(g1: Graph, g2: Graph, x: Expr, b: Block, e: Block, ctx: Context)
    requires b < |g1.stats| && SimExpr(g2, x, b, |g1.stats[b]|, e)
    ensures SimCore(g1, g2, OtherTarget(x), b, e, ctx)
  {
    forall W, st, o | Fits(g2, W) && AtEnd(g1, W, b, st) && Covered(W, ctx, st)
      ensures CoreFollows(g2, W, e, ctx, BindCore(OtherTarget(x), st, o))
    {
      assert Stays(g2, W, x, b, e, st);
      Evaluated(W, x, st, o);
    }
  }

  lemma SimNoTargets(g: Graph, b: Block, ctx: Context)
    requires b < |g.stats|
    ensures SimTargets(g, NoTargets, b, |g.stats[b]|, b, ctx)
  {
  }

  lemma SimMoreTargets(g1: Graph, g: Graph, t: Target, ts: Targets, b: Block, k: nat, e1: Block, e: Block, ctx: Context)
    requires Ext(g1, g) && e1 < |g1.stats|
    requires SimTarget(g1, t, b, k, e1, ctx) && SimTargets(g, ts, e1, |g1.stats[e1]|, e, ctx)
    ensures SimTargets(g, MoreTargets(t, ts), b, k, e, ctx)
  {
    forall W, st, o | Fits(g, W) && At(W, b, k, st) && Covered(W, ctx, st)
      ensures Follows(g, W, Some(e), ctx, BindAll(MoreTargets(t, ts), st, o))
    {
      FitsTransitive(g1, g, W);
      var r := Bind(t, st, o);
      assert Follows(g1, W, Some(e1), ctx, r);
      JumpsGrow(g1, g, W, ctx, r);
      if r.outcome == Normal {
        assert Follows(g, W, Some(e), ctx, BindAll(ts, r.state, r.rest));
      }
    }
  }
}

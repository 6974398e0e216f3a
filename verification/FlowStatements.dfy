/** How the claims about the parts of a statement make the claim about the whole, one
    lemma for each kind of statement.  All facts are about the graph `g` as it is when
    the whole statement has been visited. */
module FlowStatements {
  import opened Wrappers
  import opened FlowSyntax
  import opened FlowGraph
  import opened FlowSimulation

  // ------------------------------------------------------------------- sequences

  lemma SimThen(g1: Graph, g: Graph, s1: Stmt, s2: Stmt, b: Block, k: nat,
                e1: Option<Block>, end: Option<Block>, ctx: Context)
    requires Ext(g1, g) && Sim(g1, s1, b, k, e1, ctx)
    requires e1.Some? ==> e1.value < |g1.stats| && Sim(g, s2, e1.value, |g1.stats[e1.value]|, end, ctx)
    ensures Sim(g, Then(s1, s2), b, k, end, ctx)
  {
    forall W, st, o | Fits(g, W) && At(W, b, k, st) && Covered(W, ctx, st)
      ensures Follows(g, W, end, ctx, Exec(Then(s1, s2), st, o))
    {
      FitsTransitive(g1, g, W);
      var r := Exec(s1, st, o);
      assert Follows(g1, W, e1, ctx, r);
      JumpsGrow(g1, g, W, ctx, r);
      if r.outcome == Normal {
        assert Follows(g, W, end, ctx, Exec(s2, r.state, r.rest));
      }
    }
  }

  lemma SimPass(g: Graph, b: Block, ctx: Context)
    requires b < |g.stats|
    ensures Sim(g, Pass, b, |g.stats[b]|, Some(b), ctx)
  {
  }

  lemma SimExprStat(g: Graph, e: Expr, b: Block, k: nat, end: Block, ctx: Context)
    requires SimExpr(g, e, b, k, end)
    ensures Sim(g, ExprStat(e), b, k, Some(end), ctx)
  {
    forall W, st, o | Fits(g, W) && At(W, b, k, st) && Covered(W, ctx, st)
      ensures Follows(g, W, Some(end), ctx, Exec(ExprStat(e), st, o))
    {
      assert Stays(g, W, e, b, end, st);
      Evaluated(W, e, st, o);
    }
  }

  lemma SimAssign(g1: Graph, g: Graph, targets: Targets, rhs: Expr, b: Block, k: nat, e1: Block, end: Block,
                  ctx: Context)
    requires Ext(g1, g) && e1 < |g1.stats| && SimExpr(g1, rhs, b, k, e1)
    requires SimTargets(g, targets, e1, |g1.stats[e1]|, end, ctx)
    ensures Sim(g, Assign(targets, rhs), b, k, Some(end), ctx)
  {
    forall W, st, o | Fits(g, W) && At(W, b, k, st) && Covered(W, ctx, st)
      ensures Follows(g, W, Some(end), ctx, Exec(Assign(targets, rhs), st, o))
    {
      FitsTransitive(g1, g, W);
      assert Stays(g1, W, rhs, b, e1, st);
      Evaluated(W, rhs, st, o);
      var r := Eval(rhs, st, o);
      if r.outcome == Normal {
        assert Follows(g, W, Some(end), ctx, BindAll(targets, st, r.rest));
      }
    }
  }

  /** Outside of any `try`: a reference and the deletion behind it in the same block. */
  lemma SimDel(g: Graph, node: NodeId, entry: Entry, b: Block, k: nat, ctx: Context)
    requires ctx.handler.None? && b < |g.stats| && |g.stats[b]| == k + 2
    requires g.stats[b][k] == Reference(node, entry) && g.stats[b][k + 1] == Deletion(node, entry)
    ensures Sim(g, Del(node, entry), b, k, Some(b), ctx)
  {
    forall W, st, o | Fits(g, W) && At(W, b, k, st) && Covered(W, ctx, st)
      ensures Follows(g, W, Some(b), ctx, Exec(Del(node, entry), st, o))
    {
      assert InBlock(W.graph, b, k) && W.graph.stats[b][k] == Reference(node, entry);
      assert W.graph.stats[b][k + 1] == Deletion(node, entry);
      AtStat(W, b, k, st);
      AtStat(W, b, k + 1, st);
      Evaluated(W, Name(node, entry), st, o);
    }
  }

  /** The graph `g` with the points before, between and behind the two statements of a
      `del`, and with the handler entered in the state before it. */
  ghost function DelWorld(g: Graph, entry: Entry, b: Block, k: nat, h: Block, st: State): World {
    World(g, iset{Point(b, k, st), Point(b, k + 1, st), Point(b, k + 2, st - {entry}), Point(h, 0, st)})
  }

  lemma DelWorldFits(g: Graph, node: NodeId, entry: Entry, b: Block, k: nat, h: Block, st: State)
    requires WellFormed(g) && OpenBlock(g, b) && |g.stats[b]| == k + 2 && FreshIn(g, h) && h != b
    requires g.stats[b][k] == Reference(node, entry) && g.stats[b][k + 1] == Deletion(node, entry)
    ensures Fits(g, DelWorld(g, entry, b, k, h, st))
  {
    var W := DelWorld(g, entry, b, k, h, st);
    forall p, q | Moves(g, p, q) && p in W.points ensures q in W.points {
    }
  }

  /** A `del` follows the graph exactly where no handler is in force: inside the body of a
      `try` the handler is not entered in the state behind it. */
  lemma DelExactly(g: Graph, node: NodeId, entry: Entry, b: Block, k: nat, ctx: Context)
    requires WellFormed(g) && OpenBlock(g, b) && |g.stats[b]| == k + 2
    requires g.stats[b][k] == Reference(node, entry) && g.stats[b][k + 1] == Deletion(node, entry)
    requires ctx.handler.Some? ==> FreshIn(g, ctx.handler.value) && ctx.handler.value != b
    ensures Sim(g, Del(node, entry), b, k, Some(b), ctx) <==> ctx.handler.None?
  {
    if ctx.handler.None? {
      SimDel(g, node, entry, b, k, ctx);
    } else {
      var h, st: State := ctx.handler.value, map[entry := node];
      var W, o := DelWorld(g, entry, b, k, h, st), [Choice([], false, false, false)];
      DelWorldFits(g, node, entry, b, k, h, st);
      var r := Exec(Del(node, entry), st, o);
      assert r.outcome == Normal && r.state == st - {entry} && entry !in r.state;
      assert !Enters(W, h, r.state);
      assert At(W, b, k, st) && Covered(W, ctx, st);
      assert !Follows(g, W, Some(b), ctx, r);
    }
  }

  // ----------------------------------------------------------------------- jumps

  lemma SimBreak(g: Graph, b: Block, ctx: Context)
    requires b < |g.stats| && b < |g.children| && ctx.next.Some? && ctx.next.value in g.children[b]
    ensures Sim(g, Break, b, |g.stats[b]|, None, ctx)
  {
    forall W, st, o | Fits(g, W) && At(W, b, |g.stats[b]|, st) && Covered(W, ctx, st)
      ensures Follows(g, W, None, ctx, Exec(Break, st, o))
    {
      Go(g, W, b, ctx.next.value, st);
    }
  }

  lemma SimContinue(g: Graph, b: Block, ctx: Context)
    requires b < |g.stats| && b < |g.children| && ctx.head.Some? && ctx.head.value in g.children[b]
    ensures Sim(g, Continue, b, |g.stats[b]|, None, ctx)
  {
    forall W, st, o | Fits(g, W) && At(W, b, |g.stats[b]|, st) && Covered(W, ctx, st)
      ensures Follows(g, W, None, ctx, Exec(Continue, st, o))
    {
      Go(g, W, b, ctx.head.value, st);
    }
  }

  lemma SimReturn(g: Graph, e: Expr, b: Block, k: nat, end: Block, ctx: Context)
    requires end < |g.stats| && end < |g.children| && SimExpr(g, e, b, k, end) && EXIT in g.children[end]
    ensures Sim(g, Return(e), b, k, None, ctx)
  {
    forall W, st, o | Fits(g, W) && At(W, b, k, st) && Covered(W, ctx, st)
      ensures Follows(g, W, None, ctx, Exec(Return(e), st, o))
    {
      assert Stays(g, W, e, b, end, st);
      Go(g, W, end, EXIT, st);
      ReturnRuns(g, W, e, ctx, st, o);
    }
  }

  lemma ReturnRuns(g: Graph, W: World, e: Expr, ctx: Context, st: State, o: seq<Choice>)
    requires Looks(W, e, st) && Enters(W, EXIT, st) && Covered(W, ctx, st)
    ensures Follows(g, W, None, ctx, Exec(Return(e), st, o))
  {
    Evaluated(W, e, st, o);
  }

  lemma SimRaise(g: Graph, e: Expr, b: Block, k: nat, end: Block, ctx: Context)
    requires SimExpr(g, e, b, k, end)
    ensures Sim(g, Raise(e), b, k, None, ctx)
  {
    forall W, st, o | Fits(g, W) && At(W, b, k, st) && Covered(W, ctx, st)
      ensures Follows(g, W, None, ctx, Exec(Raise(e), st, o))
    {
      assert Stays(g, W, e, b, end, st);
      Evaluated(W, e, st, o);
    }
  }

  // -------------------------------------------------------------------- branches

  /** `c` is new behind `b`; the statement was visited from `c` to `end`. */
  lemma SimBranchIntro(g: Graph, s: Stmt, b: Block, c: Block, end: Option<Block>, next: Block, ctx: Context)
    requires Sim(g, s, c, 0, end, ctx) && b < |g.stats| && b < |g.children| && c in g.children[b]
    requires end.Some? ==> end.value < |g.stats| && end.value < |g.children| && next in g.children[end.value]
    ensures SimBranch(g, Some(s), b, next, ctx)
  {
    forall W, st, o | Fits(g, W) && AtEnd(g, W, b, st) && Covered(W, ctx, st)
      ensures Joins(g, W, next, ctx, ExecElse(Some(s), st, o))
    {
      Go(g, W, b, c, st);
      var r := Exec(s, st, o);
      assert Follows(g, W, end, ctx, r);
      if r.outcome == Normal {
        Go(g, W, end.value, next, r.state);
      }
    }
  }

  lemma SimBranchNone(g: Graph, b: Block, next: Block, ctx: Context)
    requires b < |g.stats| && b < |g.children| && next in g.children[b]
    ensures SimBranch(g, None, b, next, ctx)
  {
    forall W, st, o | Fits(g, W) && AtEnd(g, W, b, st) && Covered(W, ctx, st)
      ensures Joins(g, W, next, ctx, ExecElse(None, st, o))
    {
      Go(g, W, b, next, st);
    }
  }

  lemma SimLastClause(g: Graph, orelse: Option<Stmt>, b: Block, next: Block, ctx: Context)
    requires SimBranch(g, orelse, b, next, ctx)
    ensures SimClauses(g, LastClause(orelse), b, next, ctx)
  {
    forall W, st, o | Fits(g, W) && AtEnd(g, W, b, st) && Covered(W, ctx, st)
      ensures Joins(g, W, next, ctx, ExecClauses(LastClause(orelse), st, o))
    {
      assert Joins(g, W, next, ctx, ExecElse(orelse, st, o));
    }
  }

  lemma SimClause(g: Graph, cs: Clauses, b: Block, c: Block, e: Block, next: Block, ctx: Context)
    requires cs.Clause? && b < |g.stats| && b < |g.children| && c in g.children[b]
    requires SimExpr(g, cs.condition, c, 0, e)
    requires SimBranch(g, Some(cs.body), e, next, ctx) && SimClauses(g, cs.rest, e, next, ctx)
    ensures SimClauses(g, cs, b, next, ctx)
  {
    forall W, st, o: seq<Choice> | Fits(g, W) && AtEnd(g, W, b, st) && Covered(W, ctx, st)
      ensures Joins(g, W, next, ctx, ExecClauses(cs, st, o))
    {
      Go(g, W, b, c, st);
      assert Stays(g, W, cs.condition, c, e, st);
      Evaluated(W, cs.condition, st, o);
      if o != [] {
        assert Joins(g, W, next, ctx, ExecElse(Some(cs.body), st, o[1..]));
        assert Joins(g, W, next, ctx, ExecClauses(cs.rest, st, o[1..]));
      }
    }
  }

  lemma SimIf(g: Graph, cs: Clauses, b: Block, next: Block, end: Option<Block>, ctx: Context)
    requires SimClauses(g, cs, b, next, ctx) && next < |g.stats| && g.stats[next] == []
    requires HasParent(g, next) ==> end == Some(next)
    ensures Sim(g, If(cs), b, |g.stats[b]|, end, ctx)
  {
    forall W, st, o | Fits(g, W) && At(W, b, |g.stats[b]|, st) && Covered(W, ctx, st)
      ensures Follows(g, W, end, ctx, Exec(If(cs), st, o))
    {
      assert Joins(g, W, next, ctx, ExecClauses(cs, st, o));
      JoinEnd(g, W, next, end, ctx, ExecClauses(cs, st, o));
    }
  }

  lemma RaiseNeverEnds(e: Expr, st: State, o: seq<Choice>)
    ensures Exec(Raise(e), st, o).outcome in {Raised, Cut}
  {
  }

  /** The edge behind a passed assertion leaves from `c`, where the condition starts;
      the condition may have gone on to other blocks, but it changed nothing. */
  lemma SimAssert(g: Graph, s: Stmt, b: Block, c: Block, e: Block, next: Block, ctx: Context)
    requires s.Assert? && b < |g.stats| && b < |g.children| && c in g.children[b]
    requires SimExpr(g, s.condition, c, 0, e)
    requires SimBranch(g, Some(Raise(s.failure)), e, next, ctx)
    requires c < |g.stats| && c < |g.children| && next in g.children[c]
    requires next < |g.stats| && g.stats[next] == []
    ensures Sim(g, s, b, |g.stats[b]|, Some(next), ctx)
  {
    forall W, st, o: seq<Choice> | Fits(g, W) && At(W, b, |g.stats[b]|, st) && Covered(W, ctx, st)
      ensures Follows(g, W, Some(next), ctx, Exec(s, st, o))
    {
      Go(g, W, b, c, st);
      AssertFollows(g, s, c, e, next, ctx, W, st, o);
    }
  }

  lemma AssertFollows(g: Graph, s: Stmt, c: Block, e: Block, next: Block, ctx: Context, W: World, st: State,
                      o: seq<Choice>)
    requires s.Assert? && SimExpr(g, s.condition, c, 0, e)
    requires SimBranch(g, Some(Raise(s.failure)), e, next, ctx)
    requires c < |g.stats| && c < |g.children| && next in g.children[c]
    requires next < |g.stats| && g.stats[next] == []
    requires Fits(g, W) && At(W, c, 0, st) && Covered(W, ctx, st)
    ensures Follows(g, W, Some(next), ctx, Exec(s, st, o))
  {
    assert Stays(g, W, s.condition, c, e, st);
    Evaluated(W, s.condition, st, o);
    if o != [] && !o[0].throws {
      if o[0].taken {
        Go(g, W, c, next, st);
        Arrive(g, W, next, st);
      } else {
        assert Joins(g, W, next, ctx, ExecElse(Some(Raise(s.failure)), st, o[1..]));
        RaiseNeverEnds(s.failure, st, o[1..]);
      }
    }
  }

  // ----------------------------------------------------------------------- loops

  function Inner(ctx: Context, next: Block, head: Block): Context {
    Context(Some(next), Some(head), ctx.handler)
  }

  /** What the visitor leaves behind for a `while` loop: the condition from `c` to `e`,
      the body between `e` and `c`, and the ways out: over the `else`, and from the end of
      the body. */
  ghost predicate WhileParts(g: Graph, s: Stmt, c: Block, e: Block, next: Block, ctx: Context) {
    && s.While? && SimExpr(g, s.condition, c, 0, e)
    && SimBranch(g, Some(s.body), e, c, Inner(ctx, next, c))
    && SimBranch(g, Some(s.body), e, next, Inner(ctx, next, c))
    && SimBranch(g, s.orelse, e, next, ctx)
  }

  lemma {:induction false} WhileRuns(g: Graph, W: World, s: Stmt, c: Block, e: Block, next: Block, ctx: Context,
                                     st: State, o: seq<Choice>)
    requires WhileParts(g, s, c, e, next, ctx) && Fits(g, W) && Enters(W, c, st) && Covered(W, ctx, st)
    ensures Joins(g, W, next, ctx, Exec(s, st, o))
    decreases |o|
  {
    assert Stays(g, W, s.condition, c, e, st);
    Evaluated(W, s.condition, st, o);
    if o != [] && !o[0].throws {
      if !o[0].taken {
        assert Joins(g, W, next, ctx, ExecElse(s.orelse, st, o[1..]));
      } else {
        var r := ExecElse(Some(s.body), st, o[1..]);
        assert Joins(g, W, c, Inner(ctx, next, c), r) && Joins(g, W, next, Inner(ctx, next, c), r);
        if r.outcome == Normal || r.outcome == Continued {
          WhileRuns(g, W, s, c, e, next, ctx, r.state, r.rest);
        }
      }
    }
  }

  lemma SimWhile(g: Graph, s: Stmt, b: Block, c: Block, e: Block, next: Block, end: Option<Block>, ctx: Context)
    requires WhileParts(g, s, c, e, next, ctx)
    requires b < |g.stats| && b < |g.children| && c in g.children[b] && next < |g.stats| && g.stats[next] == []
    requires HasParent(g, next) ==> end == Some(next)
    ensures Sim(g, s, b, |g.stats[b]|, end, ctx)
  {
    forall W, st, o | Fits(g, W) && At(W, b, |g.stats[b]|, st) && Covered(W, ctx, st)
      ensures Follows(g, W, end, ctx, Exec(s, st, o))
    {
      Go(g, W, b, c, st);
      WhileRuns(g, W, s, c, e, next, ctx, st, o);
      JoinEnd(g, W, next, end, ctx, Exec(s, st, o));
    }
  }

  /** The same for a `for` loop: the iterable from `c` to `e`, the target and the body
      between `e` and `c`. */
  ghost predicate ForParts(g: Graph, s: Stmt, c: Block, e: Block, next: Block, ctx: Context) {
    && s.ForIn? && SimExpr(g, s.iterable, c, 0, e)
    && SimItem(g, Some(s.target), s.body, e, c, Inner(ctx, next, c))
    && SimBranch(g, s.orelse, e, next, ctx)
  }

  lemma {:induction false} ForRuns(g: Graph, W: World, s: Stmt, c: Block, e: Block, next: Block, ctx: Context,
                                   st: State, o: seq<Choice>)
    requires ForParts(g, s, c, e, next, ctx) && Fits(g, W) && Enters(W, c, st) && Covered(W, ctx, st)
    ensures Joins(g, W, next, ctx, ExecFor(s.iterable, s.target, s.body, s.orelse, st, o)) && Looks(W, s.iterable, st)
    decreases |o|
  {
    assert Stays(g, W, s.iterable, c, e, st);
    if o != [] && !o[0].throws {
      if !o[0].taken {
        assert Joins(g, W, next, ctx, ExecElse(s.orelse, st, o[1..]));
      } else {
        var r := ExecItem(Some(s.target), s.body, st, o[1..]);
        assert Joins(g, W, c, Inner(ctx, next, c), r);
        if r.outcome == Normal || r.outcome == Continued {
          ForRuns(g, W, s, c, e, next, ctx, r.state, r.rest);
        }
      }
    }
  }

  lemma SimFor(g: Graph, s: Stmt, b: Block, c: Block, e: Block, next: Block, end: Option<Block>, ctx: Context)
    requires ForParts(g, s, c, e, next, ctx)
    requires b < |g.stats| && b < |g.children| && c in g.children[b] && next < |g.stats| && g.stats[next] == []
    requires HasParent(g, next) ==> end == Some(next)
    ensures Sim(g, s, b, |g.stats[b]|, end, ctx)
  {
    forall W, st, o: seq<Choice> | Fits(g, W) && At(W, b, |g.stats[b]|, st) && Covered(W, ctx, st)
      ensures Follows(g, W, end, ctx, Exec(s, st, o))
    {
      Go(g, W, b, c, st);
      ForRuns(g, W, s, c, e, next, ctx, st, if o == [] then [] else o[1..]);
      Evaluated(W, s.iterable, st, o);
      JoinEnd(g, W, next, end, ctx, Exec(s, st, o));
    }
  }

  /** In the graph `t` the target had been visited from `c`, new behind `b`, to `u`; the
      body was then visited in `d` (which is `u`, or new behind it) up to `f`. */
  lemma SimItemIntro(t: Graph, g: Graph, target: Option<Target>, s: Stmt, b: Block, c: Block, u: Block,
                     f: Option<Block>, next: Block, ctx: Context)
    requires Ext(t, g) && u < |t.stats| && b < |g.stats| && b < |g.children| && c in g.children[b]
    requires if target.Some? then SimTarget(t, target.value, c, 0, u, ctx) else u == c && t.stats[u] == []
    requires Sim(g, s, u, |t.stats[u]|, f, ctx)
    requires f.Some? ==> f.value < |g.stats| && f.value < |g.children| && next in g.children[f.value]
    ensures SimItem(g, target, s, b, next, ctx)
  {
    forall W, st, o | Fits(g, W) && AtEnd(g, W, b, st) && Covered(W, ctx, st)
      ensures Joins(g, W, next, ctx, ExecItem(target, s, st, o))
    {
      FitsTransitive(t, g, W);
      Go(g, W, b, c, st);
      var r := if target.Some? then Bind(target.value, st, o) else Result([], Normal, st, o);
      if target.Some? {
        assert Follows(t, W, Some(u), ctx, r);
        JumpsGrow(t, g, W, ctx, r);
      }
      if r.outcome == Normal {
        ItemBody(g, W, s, u, |t.stats[u]|, f, next, ctx, r.state, r.rest);
      }
    }
  }

  lemma ItemBody(g: Graph, W: World, s: Stmt, u: Block, k: nat, f: Option<Block>, next: Block, ctx: Context, st: State,
                 o: seq<Choice>)
    requires Fits(g, W) && At(W, u, k, st) && Covered(W, ctx, st) && Sim(g, s, u, k, f, ctx)
    requires f.Some? ==> f.value < |g.stats| && next in g.children[f.value]
    ensures Joins(g, W, next, ctx, Exec(s, st, o))
  {
    var r := Exec(s, st, o);
    assert Follows(g, W, f, ctx, r);
    if r.outcome == Normal {
      Go(g, W, f.value, next, r.state);
    }
  }

  /** In a loop the body has a block of its own, and is a branch behind the target. */
  lemma SimLoopItem(g: Graph, target: Target, s: Stmt, b: Block, c: Block, u: Block, next: Block, ctx: Context)
    requires b < |g.stats| && b < |g.children| && c in g.children[b]
    requires SimTarget(g, target, c, 0, u, ctx) && SimBranch(g, Some(s), u, next, ctx)
    ensures SimItem(g, Some(target), s, b, next, ctx)
  {
    forall W, st, o | Fits(g, W) && AtEnd(g, W, b, st) && Covered(W, ctx, st)
      ensures Joins(g, W, next, ctx, ExecItem(Some(target), s, st, o))
    {
      Go(g, W, b, c, st);
      var r := Bind(target, st, o);
      assert Follows(g, W, Some(u), ctx, r);
      if r.outcome == Normal {
        assert Joins(g, W, next, ctx, ExecElse(Some(s), r.state, r.rest));
      }
    }
  }

  // ------------------------------------------------------------------ exceptions

  lemma SimNoHandlers(g: Graph, entryPoint: Block, next: Block, ctx: Context)
    requires entryPoint < |g.stats| && entryPoint < |g.children| && g.stats[entryPoint] == []
    requires ctx.handler.Some? ==> ctx.handler.value in g.children[entryPoint]
    ensures SimHandlers(g, NoHandlers, entryPoint, next, ctx)
  {
    forall W, st, o | Fits(g, W) && Enters(W, entryPoint, st)
      ensures Handled(g, W, next, ctx, st, ExecHandlers(NoHandlers, st, o))
    {
      if ctx.handler.Some? {
        Go(g, W, entryPoint, ctx.handler.value, st);
      }
    }
  }

  /** The pattern from `entryPoint` to `p`; behind it the target and the body, and
      `other`, where the next clause is tried. */
  lemma SimHandler(g: Graph, hs: Handlers, entryPoint: Block, p: Block, other: Block, next: Block, ctx: Context)
    requires hs.Handler? && SimExpr(g, hs.pattern, entryPoint, 0, p)
    requires p < |g.stats| && p < |g.children| && other in g.children[p] && SimHandlers(g, hs.rest, other, next, ctx)
    requires SimItem(g, hs.target, hs.body, p, next, ctx)
    ensures SimHandlers(g, hs, entryPoint, next, ctx)
  {
    forall W, st, o: seq<Choice> | Fits(g, W) && Enters(W, entryPoint, st)
      ensures Handled(g, W, next, ctx, st, ExecHandlers(hs, st, o))
    {
      assert Stays(g, W, hs.pattern, entryPoint, p, st);
      Evaluated(W, hs.pattern, st, o);
      Go(g, W, p, other, st);
      var rest := if o == [] then [] else o[1..];
      assert Handled(g, W, next, ctx, st, ExecHandlers(hs.rest, st, rest));
      assert Joins(g, W, next, ctx, ExecItem(hs.target, hs.body, st, rest));
    }
  }

  /** The body was visited from `d`, new behind `b`, to `f`, and the `else` behind it. */
  lemma SimGuardedIntro(g: Graph, s: Stmt, b: Block, d: Block, f: Option<Block>, entryPoint: Block, next: Block,
                        ctx: Context)
    requires s.TryExcept? && b < |g.stats| && b < |g.children| && d in g.children[b]
    requires Sim(g, s.body, d, 0, f, ctx.(handler := Some(entryPoint)))
    requires f.Some? ==> SimBranch(g, s.orelse, f.value, next, ctx)
    ensures SimGuarded(g, s, b, entryPoint, next, ctx)
  {
    forall W, st, o | Fits(g, W) && AtEnd(g, W, b, st) && Escapes(W, entryPoint, ctx) && Enters(W, entryPoint, st)
      ensures Guarded(g, W, s, entryPoint, next, ctx, Exec(s.body, st, o))
    {
      Go(g, W, b, d, st);
      var r := Exec(s.body, st, o);
      assert Follows(g, W, f, ctx.(handler := Some(entryPoint)), r);
      if r.outcome == Normal {
        assert Joins(g, W, next, ctx, ExecElse(s.orelse, r.state, r.rest));
      }
    }
  }

  /** The empty block `a` in front of the body leads to the handlers, so that they are
      covered from the start. */
  lemma SimTry(g: Graph, s: Stmt, b: Block, a: Block, entryPoint: Block, next: Block, end: Option<Block>, ctx: Context)
    requires SimGuarded(g, s, a, entryPoint, next, ctx) && SimHandlers(g, s.handlers, entryPoint, next, ctx)
    requires a < |g.stats| && a < |g.children| && g.stats[a] == [] && entryPoint in g.children[a]
    requires b < |g.stats| && b < |g.children| && a in g.children[b] && next < |g.stats| && g.stats[next] == []
    requires HasParent(g, next) ==> end == Some(next)
    ensures Sim(g, s, b, |g.stats[b]|, end, ctx)
  {
    forall W, st, o | Fits(g, W) && At(W, b, |g.stats[b]|, st) && Covered(W, ctx, st)
      ensures Follows(g, W, end, ctx, Exec(s, st, o))
    {
      Go(g, W, b, a, st);
      Arrive(g, W, a, st);
      Go(g, W, a, entryPoint, st);
      TryRuns(g, W, s, a, entryPoint, next, ctx, st, o);
      JoinEnd(g, W, next, end, ctx, Exec(s, st, o));
    }
  }

  lemma TryRuns(g: Graph, W: World, s: Stmt, a: Block, entryPoint: Block, next: Block, ctx: Context, st: State,
                o: seq<Choice>)
    requires SimGuarded(g, s, a, entryPoint, next, ctx) && SimHandlers(g, s.handlers, entryPoint, next, ctx)
    requires Fits(g, W) && AtEnd(g, W, a, st) && Enters(W, entryPoint, st)
    ensures Joins(g, W, next, ctx, Exec(s, st, o))
  {
    forall st' | Enters(W, entryPoint, st') ensures Covered(W, ctx, st') {
      assert Handled(g, W, next, ctx, st', ExecHandlers(s.handlers, st', []));
    }
    var r := Exec(s.body, st, o);
    assert Guarded(g, W, s, entryPoint, next, ctx, r);
    if r.outcome == Raised {
      assert Handled(g, W, next, ctx, r.state, ExecHandlers(s.handlers, r.state, r.rest));
    }
  }
}

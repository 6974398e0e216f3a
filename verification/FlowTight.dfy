/** The graph has no path too many: a block that the visitors made is entered only as some
    run goes there.  A point of the graph is safe when nothing that the paths from it lead
    to is beyond the runs; the claim for a statement is that the point in front of it is
    safe if all the points at which its runs end are. */
module FlowTight {
  import opened Wrappers
  import opened FlowSyntax
  import opened FlowGraph
  import opened FlowSimulation
  import opened FlowStatements
  import opened FlowShapes
  import opened FlowBuilt
  import opened FlowGrowth
  import opened FlowRuns
  import opened FlowAssigned

  /** A complete graph, the reads that are known to happen in some run, and the nodes that
      may be assigned. */
  datatype Frame = Frame(graph: Graph, told: iset<Event>, lhs: iset<NodeId>)

  ghost predicate StatAllowed(F: Frame, s: Stat, st: State) {
    match s
    case Assignment(lhs, _) => lhs in F.lhs
    case Deletion(node, entry) => Read(node, entry, st) in F.told
    case Reference(node, entry) => Read(node, entry, st) in F.told
  }

  ghost predicate Allowed(F: Frame, p: Point) {
    && p.block < |F.graph.stats| && p.pos <= |F.graph.stats[p.block]|
    && (p.pos < |F.graph.stats[p.block]| ==> StatAllowed(F, F.graph.stats[p.block][p.pos], p.state))
  }

  /** All points within `n` moves are allowed. */
  ghost predicate Safe(F: Frame, n: nat, p: Point)
    requires WellFormed(F.graph)
    decreases n
  {
    Allowed(F, p) && (n > 0 ==> forall q :: Moves(F.graph, p, q) ==> Safe(F, n - 1, q))
  }

  ghost predicate SafeAt(F: Frame, n: nat, b: Block, st: State)
    requires WellFormed(F.graph)
  {
    Safe(F, n, Point(b, 0, st))
  }

  /** The point behind what `g` has in block `b`. */
  ghost predicate SafeEnd(F: Frame, n: nat, g: Graph, b: Block, st: State)
    requires WellFormed(F.graph)
  {
    b < |g.stats| && Safe(F, n, Point(b, |g.stats[b]|, st))
  }

  lemma {:induction false} SafeWeaken(F: Frame, m: nat, n: nat, p: Point)
    requires WellFormed(F.graph) && Safe(F, n, p) && m <= n
    ensures Safe(F, m, p)
    decreases m
  {
    if m > 0 {
      forall q | Moves(F.graph, p, q) ensures Safe(F, m - 1, q) {
        SafeWeaken(F, m - 1, n - 1, q);
      }
    }
  }

  lemma StepStat(F: Frame, n: nat, b: Block, k: nat, st: State)
    requires WellFormed(F.graph) && InBlock(F.graph, b, k) && StatAllowed(F, F.graph.stats[b][k], st)
    requires Safe(F, n, Point(b, k + 1, Apply(F.graph.stats[b][k], st)))
    ensures Safe(F, n, Point(b, k, st))
  {
    if n > 0 {
      SafeWeaken(F, n - 1, n, Point(b, k + 1, Apply(F.graph.stats[b][k], st)));
    }
  }

  lemma StepEdges(F: Frame, n: nat, b: Block, st: State)
    requires WellFormed(F.graph) && b < |F.graph.stats|
    requires n > 0 ==> forall c <- F.graph.children[b] :: SafeAt(F, n - 1, c, st)
    ensures Safe(F, n, Point(b, |F.graph.stats[b]|, st))
  {
    if n > 0 {
      forall q | Moves(F.graph, Point(b, |F.graph.stats[b]|, st), q) ensures Safe(F, n - 1, q) {
        assert SafeAt(F, n - 1, q.block, st);
      }
    }
  }

  /** The same when the children are safe for as many moves. */
  lemma LeaveEdges(F: Frame, n: nat, b: Block, st: State)
    requires WellFormed(F.graph) && b < |F.graph.stats|
    requires forall c <- F.graph.children[b] :: SafeAt(F, n, c, st)
    ensures Safe(F, n, Point(b, |F.graph.stats[b]|, st))
  {
    if n > 0 {
      forall c | c in F.graph.children[b] ensures SafeAt(F, n - 1, c, st) {
        SafeWeaken(F, n - 1, n, Point(c, 0, st));
      }
    }
    StepEdges(F, n, b, st);
  }

  // ------------------------------------------------- blocks that are complete already

  /** In the complete graph `G` the blocks from `lo` on and `b` are as in `g`, but `end`,
      which may have got more behind what it has; with `more`, block `b` may have further
      children. */
  ghost predicate Kept(g: Graph, G: Graph, lo: nat, b: Block, end: Option<Block>, more: bool) {
    && WellFormed(g) && WellFormed(G) && |g.stats| <= |G.stats| && lo <= |g.stats| && b < |g.stats|
    && forall x: Block :: x < |g.stats| && (x == b || lo <= x) ==> KeptBlock(g, G, b, end, more, x)
  }

  predicate KeptBlock(g: Graph, G: Graph, b: Block, end: Option<Block>, more: bool, x: Block)
    requires x < |g.stats| == |g.children| && |g.stats| <= |G.stats| == |G.children|
  {
    && g.stats[x] <= G.stats[x]
    && (end != Some(x) ==>
      && g.stats[x] == G.stats[x]
      && g.children[x] <= G.children[x]
      && ((more && x == b) || g.children[x] == G.children[x]))
  }

  /** From `g` to `h` nothing but the blocks `ys` and new ones changed. */
  ghost predicate Same(g: Graph, h: Graph, ys: set<Block>) {
    && WellFormed(g) && WellFormed(h) && |g.stats| <= |h.stats|
    && forall x: Block :: x < |g.stats| ==>
       && g.stats[x] <= h.stats[x] && g.children[x] <= h.children[x]
       && (x !in ys ==> g.stats[x] == h.stats[x] && g.children[x] == h.children[x])
  }

  lemma SameGrown(g: Graph, h: Graph, cur: Block)
    requires Grown(g, h, cur)
    ensures Same(g, h, {cur})
  {
  }

  lemma SameTransitive(f: Graph, g: Graph, h: Graph, ys: set<Block>, zs: set<Block>)
    requires Same(f, g, ys) && Same(g, h, zs)
    ensures Same(f, h, ys + zs)
  {
    forall x: Block | x < |f.stats|
      ensures f.stats[x] <= h.stats[x] && f.children[x] <= h.children[x]
      ensures x !in ys + zs ==> f.stats[x] == h.stats[x] && f.children[x] == h.children[x]
    {
      assert g.children[x] <= h.children[x];
    }
  }

  predicate Outside(x: Block, lo: nat, b: Block, n: nat) {
    x != b && (x < lo || x >= n)
  }

  /** A part of the blocks, at an earlier time, when the part ended in `e1`. */
  lemma KeptPart(g1: Graph, g2: Graph, G: Graph, lo: nat, b: Block, e2: Option<Block>, more: bool,
                 lo1: nat, b1: Block, e1: Option<Block>, ys: set<Block>)
    requires Kept(g2, G, lo, b, e2, more) && Same(g1, g2, ys)
    requires (b1 == b || lo <= b1) && lo <= lo1 <= |g1.stats| && b1 < |g1.stats|
    requires forall y <- ys ::
      e1 == Some(y) || Outside(y, lo1, b1, |g1.stats|) || (more && y == b == b1 && g1.stats[y] == g2.stats[y])
    requires e2.Some? ==> e2 == e1 || Outside(e2.value, lo1, b1, |g1.stats|)
    requires more ==> b == b1 || e1 == Some(b) || Outside(b, lo1, b1, |g1.stats|)
    ensures Kept(g1, G, lo1, b1, e1, more && b == b1)
  {
    var more1 := more && b == b1;
    forall x: Block | x < |g1.stats| && (x == b1 || lo1 <= x) ensures KeptBlock(g1, G, b1, e1, more1, x) {
      assert x < |g2.stats| && (x == b || lo <= x);
      assert KeptBlock(g2, G, b, e2, more, x);
    }
  }

  /** Everything that `g` has from block `c` on is complete. */
  ghost predicate Final(g: Graph, G: Graph, c: Block) {
    && WellFormed(g) && WellFormed(G) && |g.stats| <= |G.stats|
    && forall x: Block {:trigger g.stats[x]} :: c <= x < |g.stats| ==>
       G.stats[x] == g.stats[x] && G.children[x] == g.children[x]
  }

  lemma FinalPart(g1: Graph, g2: Graph, G: Graph, c: Block, c1: Block, ys: set<Block>)
    requires Final(g2, G, c) && Same(g1, g2, ys) && c <= c1
    requires forall y <- ys :: y < c1 || y >= |g1.stats|
    ensures Final(g1, G, c1)
  {
    forall x: Block {:trigger g1.stats[x]} | c1 <= x < |g1.stats|
      ensures G.stats[x] == g1.stats[x] && G.children[x] == g1.children[x]
    {
      assert g2.stats[x] == g1.stats[x];
    }
  }

  /** Of complete blocks, those from `b1` on, at an earlier time, when they ended in `e1`. */
  lemma FinalKept(g1: Graph, g2: Graph, G: Graph, c: Block, b1: Block, e1: Option<Block>, ys: set<Block>)
    requires Final(g2, G, c) && Same(g1, g2, ys) && c <= b1 < |g1.stats|
    requires forall y <- ys :: e1 == Some(y) || y < b1 || y >= |g1.stats|
    ensures Kept(g1, G, b1 + 1, b1, e1, false)
  {
    forall x: Block | x < |g1.stats| && (x == b1 || b1 + 1 <= x) ensures KeptBlock(g1, G, b1, e1, false, x) {
      assert g2.stats[x] == G.stats[x];
    }
  }

  lemma KeptIsFinal(g: Graph, G: Graph, lo: nat, b: Block, end: Option<Block>, more: bool, c: Block)
    requires Kept(g, G, lo, b, end, more) && lo <= c && (end.Some? ==> end.value < c) && b < c
    ensures Final(g, G, c)
  {
    forall x: Block {:trigger g.stats[x]} | c <= x < |g.stats|
      ensures G.stats[x] == g.stats[x] && G.children[x] == g.children[x]
    {
      assert KeptBlock(g, G, b, end, more, x);
    }
  }

  lemma KeptFinal(g: Graph, G: Graph, lo: nat, b: Block, end: Option<Block>, more: bool, x: Block)
    requires Kept(g, G, lo, b, end, more) && x < |g.stats| && (x == b || lo <= x) && end != Some(x)
    ensures G.stats[x] == g.stats[x] && g.children[x] <= G.children[x]
    ensures x != b || !more ==> G.children[x] == g.children[x]
  {
    assert KeptBlock(g, G, b, end, more, x);
  }

  // ---------------------------------------------------------------- expressions

  /** Every name of the expression is read in state `st` by some run. */
  ghost predicate Looked(F: Frame, e: Expr, st: State) {
    forall ref <- Refs(e) :: Read(ref.0, ref.1, st) in F.told
  }

  /** What further children block `b` has got is safe. */
  ghost predicate MoreSafe(F: Frame, n: nat, g: Graph, b: Block, st: State)
    requires WellFormed(F.graph)
  {
    b < |g.children| && b < |F.graph.children| &&
    forall c <- F.graph.children[b] :: c in g.children[b] || SafeAt(F, n, c, st)
  }

  /** An expression that was visited from the end of `b`. */
  ghost predicate ExprPlaced(F: Frame, n: nat, e: Expr, g: Graph, b: Block, st: State)
    requires WellFormed(F.graph)
  {
    var p := BuiltExpr(e, g, b);
    && Start(g, b) && Kept(p.graph, F.graph, |g.stats|, b, Some(p.block), true)
    && Looked(F, e, st) && SafeEnd(F, n, p.graph, p.block, st)
    && (b != p.block ==> MoreSafe(F, n, p.graph, b, st))
  }

  lemma {:induction false} TightExpr(e: Expr, g: Graph, b: Block, F: Frame, n: nat, st: State)
    requires WellFormed(F.graph) && ExprPlaced(F, n, e, g, b, st)
    ensures SafeEnd(F, n, g, b, st)
    decreases e, 0
  {
    match e {
      case Name(node, entry) =>
        var k := |g.stats[b]|;
        assert KeptBlock(Note(g, b, Reference(node, entry)), F.graph, b, Some(b), true, b);
        assert F.graph.stats[b][k] == Reference(node, entry);
        assert (node, entry) in Refs(e);
        StepStat(F, n, b, k, st);
      case NoOperand =>
      case Operands(x, y) => TightOperands(x, y, g, b, F, n, st);
      case BoolBinop(x, y) => TightBoolBinop(x, y, g, b, F, n, st);
      case CondExpr(c, x, y) => TightCondExpr(c, x, y, g, b, F, n, st);
    }
  }

  lemma {:induction false} TightOperands(x: Expr, y: Expr, g: Graph, b: Block, F: Frame, n: nat, st: State)
    requires WellFormed(F.graph) && ExprPlaced(F, n, Operands(x, y), g, b, st)
    ensures SafeEnd(F, n, g, b, st)
    decreases Operands(x, y), 0, 0
  {
    var p := BuiltExpr(x, g, b);
    var q := BuiltExpr(y, p.graph, p.block);
    ExprGrows(x, g, b);
    ExprGrows(y, p.graph, p.block);
    SameGrown(p.graph, q.graph, p.block);
    LookedParts(F, x, y, Operands(x, y), st);
    SecondOperand(x, y, g, b, F, n, st);
    TightExpr(y, p.graph, p.block, F, n, st);
    KeptPart(p.graph, q.graph, F.graph, |g.stats|, b, Some(q.block), true, |g.stats|, b, Some(p.block), {p.block});
    TightExpr(x, g, b, F, n, st);
  }

  lemma LookedParts(F: Frame, x: Expr, y: Expr, e: Expr, st: State)
    requires Refs(e) == Refs(x) + Refs(y) && Looked(F, e, st)
    ensures Looked(F, x, st) && Looked(F, y, st)
  {
    forall ref | ref in Refs(x) || ref in Refs(y) ensures Read(ref.0, ref.1, st) in F.told {
      assert ref in Refs(e);
    }
  }

  lemma SecondOperand(x: Expr, y: Expr, g: Graph, b: Block, F: Frame, n: nat, st: State)
    requires WellFormed(F.graph) && ExprPlaced(F, n, Operands(x, y), g, b, st) && Looked(F, y, st)
    requires var p := BuiltExpr(x, g, b); Visited(g, p.graph, b, Some(p.block))
    requires var p := BuiltExpr(x, g, b); var q := BuiltExpr(y, p.graph, p.block);
      Visited(p.graph, q.graph, p.block, Some(q.block))
    ensures var p := BuiltExpr(x, g, b); ExprPlaced(F, n, y, p.graph, p.block, st)
  {
    var p := BuiltExpr(x, g, b);
    var q := BuiltExpr(y, p.graph, p.block);
    KeptPart(q.graph, q.graph, F.graph, |g.stats|, b, Some(q.block), true, |p.graph.stats|, p.block, Some(q.block), {});
    KeptMore(q.graph, F.graph, |p.graph.stats|, p.block, Some(q.block));
    if p.block != q.block && p.block != b {
      KeptFinal(q.graph, F.graph, |g.stats|, b, Some(q.block), true, p.block);
    }
  }

  /** Blocks that are as they were may also be said to have no fewer children. */
  lemma KeptMore(g: Graph, G: Graph, lo: nat, b: Block, end: Option<Block>)
    requires Kept(g, G, lo, b, end, false) || Kept(g, G, lo, b, end, true)
    ensures Kept(g, G, lo, b, end, true)
  {
    forall x: Block | x < |g.stats| && (x == b || lo <= x) ensures KeptBlock(g, G, b, end, true, x) {
      assert KeptBlock(g, G, b, end, false, x) || KeptBlock(g, G, b, end, true, x);
    }
  }

  /** An expression from the new block `c` of `g` on, up to a block that was then left for
      `next`: all of it is complete, and `c` is safe if `next` is. */
  lemma {:induction false} TightFrom(x: Expr, g: Graph, c: Block, next: Block, F: Frame, n: nat, st: State)
    requires Start(g, c) && c + 1 == |g.stats| && g.stats[c] == [] && next < c && WellFormed(F.graph)
    requires var p := BuiltExpr(x, g, c); Final(Edge(p.graph, p.block, next), F.graph, c)
    requires Looked(F, x, st) && SafeAt(F, n, next, st)
    ensures SafeAt(F, n, c, st)
    decreases x, 1
  {
    var p := BuiltExpr(x, g, c);
    var f := Edge(p.graph, p.block, next);
    ExprGrows(x, g, c);
    AttachedByEdge(p.graph, p.block, next);
    SameGrown(p.graph, f, p.block);
    assert f.stats[p.block] == F.graph.stats[p.block];
    LeaveEdges(F, n, p.block, st);
    FinalKept(p.graph, f, F.graph, c, c, Some(p.block), {p.block});
    KeptMore(p.graph, F.graph, c + 1, c, Some(p.block));
    assert f.stats[c] == F.graph.stats[c];
    TightExpr(x, g, c, F, n, st);
  }

  /** An operand in blocks of its own behind `b`: its first block is safe if `next` is. */
  lemma {:induction false} TightArm(x: Expr, g: Graph, b: Block, next: Block, F: Frame, n: nat, st: State)
    requires Grounded(g, b) && next < |g.stats| && WellFormed(F.graph)
    requires Final(BuiltArm(x, g, b, next), F.graph, |g.stats|)
    requires Looked(F, x, st) && SafeAt(F, n, next, st)
    ensures SafeAt(F, n, |g.stats|, st)
    decreases x, 2
  {
    BehindStarts(g, b);
    TightFrom(x, Behind(g, b), |g.stats|, next, F, n, st);
  }

  lemma {:induction false} TightBoolBinop(x: Expr, y: Expr, g: Graph, b: Block, F: Frame, n: nat, st: State)
    requires WellFormed(F.graph) && ExprPlaced(F, n, BoolBinop(x, y), g, b, st)
    ensures SafeEnd(F, n, g, b, st)
    decreases BoolBinop(x, y), 0, 0
  {
    var next, g0 := |g.stats|, AddBlock(g);
    var p := BuiltExpr(x, g0, b);
    var g2 := BuiltArm(y, p.graph, p.block, next);
    GrownByBlock(g, b);
    ExprGrows(x, g0, b);
    ArmGrows(y, p.graph, p.block, next);
    WayAroundSteps(g, b, p.graph, p.block, g2, next);
    LookedParts(F, x, y, BoolBinop(x, y), st);
    KeptIsFinal(Edge(g2, b, next), F.graph, next, b, Some(next), true, |p.graph.stats|);
    FinalPart(g2, Edge(g2, b, next), F.graph, |p.graph.stats|, |p.graph.stats|, {b});
    TightArm(y, p.graph, p.block, next, F, n, st);
    AroundPlaced(x, g, b, p.graph, p.block, g2, next, F, n, st);
    TightExpr(x, g0, b, F, n, st);
  }

  lemma AroundPlaced(x: Expr, g: Graph, b: Block, p: Graph, e: Block, g2: Graph, next: Block, F: Frame, n: nat,
                     st: State)
    requires WayAround(g, b, p, e, g2, next) && Place(p, e) == BuiltExpr(x, AddBlock(g), b) && WellFormed(F.graph)
    requires var h := Edge(g2, b, next); Kept(h, F.graph, |g.stats|, b, Some(next), true) && MoreSafe(F, n, h, b, st)
    requires next == |g.stats| && Visited(AddBlock(g), p, b, Some(e))
    requires SafeAt(F, n, next, st) && SafeAt(F, n, |p.stats|, st) && Looked(F, x, st)
    ensures ExprPlaced(F, n, x, AddBlock(g), b, st)
  {
    var h := Edge(g2, b, next);
    KeptFinal(h, F.graph, next, b, Some(next), true, e);
    LeaveEdges(F, n, e, st);
    KeptPart(p, h, F.graph, next, b, Some(next), true, next + 1, b, Some(e), {e} + {b});
  }

  /** `next` was made first; then `p` was visited from `b` to `e`, and a block attached to
      that, in `g2`; in the end there is the way around, from `b` to `next`. */
  ghost predicate WayAround(g: Graph, b: Block, p: Graph, e: Block, g2: Graph, next: Block) {
    var h := Edge(g2, b, next);
    && Start(AddBlock(g), b) && next < |AddBlock(g).stats| == next + 1
    && Grounded(p, e) && Same(g2, h, {b}) && Same(p, h, {e} + {b})
    && b < next < |p.stats| < |h.stats| && h.stats[next] == [] && e != next
    && h.stats[b] == p.stats[b] && h.stats[e] == p.stats[e]
    && h.children[b] == p.children[b] + {next} + (if e == b then {|p.stats|} else {})
    && (e != b ==> h.children[e] == {|p.stats|})
  }

  lemma WayAroundSteps(g: Graph, b: Block, p: Graph, e: Block, g2: Graph, next: Block)
    requires Start(g, b) && next == |g.stats| && Visited(AddBlock(g), p, b, Some(e)) && Attached(p, g2, e)
    requires |p.stats| < |g2.stats| && g2.children[e] == p.children[e] + {|p.stats|}
    ensures WayAround(g, b, p, e, g2, next)
  {
    GrownByBlock(g, b);
    AttachedByEdge(g2, b, next);
    SameGrown(g2, Edge(g2, b, next), b);
    SameGrown(p, g2, e);
    SameTransitive(p, g2, Edge(g2, b, next), {e}, {b});
  }

  lemma {:induction false} TightCondExpr(c: Expr, x: Expr, y: Expr, g: Graph, b: Block, F: Frame, n: nat, st: State)
    requires WellFormed(F.graph) && ExprPlaced(F, n, CondExpr(c, x, y), g, b, st)
    ensures SafeEnd(F, n, g, b, st)
    decreases CondExpr(c, x, y), 0, 0
  {
    var p := BuiltExpr(c, g, b);
    var next, g0 := |p.graph.stats|, AddBlock(p.graph);
    var g1 := BuiltArm(x, g0, p.block, next);
    var h := BuiltArm(y, g1, p.block, next);
    ExprGrows(c, g, b);
    GrownByBlock(p.graph, p.block);
    ArmGrows(x, g0, p.block, next);
    ArmGrows(y, g1, p.block, next);
    ForkSteps(p.graph, p.block, g1, h, next);
    CondLooked(F, c, x, y, st);
    ForkFinal(p.graph, p.block, g1, h, next, F.graph, |g.stats|, b);
    TightArm(x, g0, p.block, next, F, n, st);
    TightArm(y, g1, p.block, next, F, n, st);
    ForkPlaced(c, g, b, p.graph, p.block, g1, h, next, F, n, st);
    TightExpr(c, g, b, F, n, st);
  }

  /** Two blocks attached to `e`, and `next`, which was made before them. */
  ghost predicate Fork(p: Graph, e: Block, g1: Graph, h: Graph, next: Block) {
    && Grounded(AddBlock(p), e) && Grounded(g1, e) && e < next == |p.stats| && next + 1 < |g1.stats| < |h.stats|
    && Same(p, h, {e}) && Same(g1, h, {e})
    && h.stats[next] == [] && h.stats[e] == p.stats[e] && h.children[e] == p.children[e] + {next + 1, |g1.stats|}
  }

  lemma ForkSteps(p: Graph, e: Block, g1: Graph, h: Graph, next: Block)
    requires Start(p, e) && next == |p.stats| && Attached(AddBlock(p), g1, e) && Attached(g1, h, e)
    requires g1.children[e] == AddBlock(p).children[e] + {|AddBlock(p).stats|} && next + 1 < |g1.stats| < |h.stats|
    requires h.children[e] == g1.children[e] + {|g1.stats|}
    ensures Fork(p, e, g1, h, next)
  {
    GrownByBlock(p, e);
    SameGrown(p, AddBlock(p), e);
    SameGrown(AddBlock(p), g1, e);
    SameGrown(g1, h, e);
    SameTransitive(p, AddBlock(p), g1, {e}, {e});
    SameTransitive(p, g1, h, {e}, {e});
    assert {e} + {e} == {e};
  }

  lemma ForkFinal(p: Graph, e: Block, g1: Graph, h: Graph, next: Block, G: Graph, lo: nat, b: Block)
    requires Fork(p, e, g1, h, next) && Kept(h, G, lo, b, Some(next), true) && lo <= |p.stats| && b < |p.stats|
    ensures Final(g1, G, next + 1) && Final(h, G, |g1.stats|)
  {
    KeptIsFinal(h, G, lo, b, Some(next), true, next + 1);
    FinalPart(g1, h, G, next + 1, next + 1, {e});
  }

  lemma ForkPlaced(c: Expr, g: Graph, b: Block, p: Graph, e: Block, g1: Graph, h: Graph, next: Block, F: Frame, n: nat,
                   st: State)
    requires Fork(p, e, g1, h, next) && Place(p, e) == BuiltExpr(c, g, b) && WellFormed(F.graph) && Start(g, b)
    requires Kept(h, F.graph, |g.stats|, b, Some(next), true) && MoreSafe(F, n, h, b, st)
    requires Visited(g, p, b, Some(e)) && Looked(F, c, st)
    requires SafeAt(F, n, next + 1, st) && SafeAt(F, n, |g1.stats|, st)
    ensures ExprPlaced(F, n, c, g, b, st)
  {
    KeptFinal(h, F.graph, |g.stats|, b, Some(next), true, e);
    LeaveEdges(F, n, e, st);
    KeptPart(p, h, F.graph, |g.stats|, b, Some(next), true, |g.stats|, b, Some(e), {e});
  }

  lemma CondLooked(F: Frame, c: Expr, x: Expr, y: Expr, st: State)
    requires Looked(F, CondExpr(c, x, y), st)
    ensures Looked(F, c, st) && Looked(F, x, st) && Looked(F, y, st)
  {
    forall ref | ref in Refs(c) || ref in Refs(x) || ref in Refs(y) ensures Read(ref.0, ref.1, st) in F.told {
      assert ref in Refs(CondExpr(c, x, y));
    }
  }

  // --------------------------------------------------------------- ends of runs

  /** All that was read is known to be read. */
  ghost predicate Told(F: Frame, events: seq<Event>) {
    forall ev <- events :: ev in F.told
  }

  /** The block that a run jumps to, if it does, is safe. */
  ghost predicate JumpsSafe(F: Frame, n: nat, ctx: Context, r: Result)
    requires WellFormed(F.graph)
  {
    match r.outcome
    case Normal => true
    case Raised => ctx.handler.Some? ==> SafeAt(F, n, ctx.handler.value, r.state)
    case Broke => ctx.next.Some? ==> SafeAt(F, n, ctx.next.value, r.state)
    case Continued => ctx.head.Some? ==> SafeAt(F, n, ctx.head.value, r.state)
    case Returned => SafeAt(F, n, EXIT, r.state)
    case Cut => true
  }

  /** The run ends at a safe point; `end` is where it ends normally, in `g`. */
  ghost predicate Ends(F: Frame, n: nat, g: Graph, end: Option<Block>, ctx: Context, r: Result)
    requires WellFormed(F.graph)
  {
    && Told(F, r.events) && JumpsSafe(F, n, ctx, r)
    && (r.outcome == Normal && end.Some? ==> SafeEnd(F, n, g, end.value, r.state))
  }

  /** The same when the normal end leads on to the blocks `outs`. */
  ghost predicate EndsIn(F: Frame, n: nat, outs: set<Block>, ctx: Context, r: Result)
    requires WellFormed(F.graph)
  {
    && Told(F, r.events) && JumpsSafe(F, n, ctx, r)
    && (r.outcome == Normal ==> forall c <- outs :: SafeAt(F, n, c, r.state))
  }

  lemma EndsInWeaken(F: Frame, m: nat, n: nat, outs: set<Block>, ctx: Context, r: Result)
    requires WellFormed(F.graph) && EndsIn(F, n, outs, ctx, r) && m <= n
    ensures EndsIn(F, m, outs, ctx, r)
  {
    JumpsWeaken(F, m, n, ctx, r);
    if r.outcome == Normal {
      forall c | c in outs ensures SafeAt(F, m, c, r.state) {
        SafeWeaken(F, m, n, Point(c, 0, r.state));
      }
    }
  }

  lemma JumpsWeaken(F: Frame, m: nat, n: nat, ctx: Context, r: Result)
    requires WellFormed(F.graph) && JumpsSafe(F, n, ctx, r) && m <= n
    ensures JumpsSafe(F, m, ctx, r)
  {
    var to := match r.outcome
      case Raised => ctx.handler
      case Broke => ctx.next
      case Continued => ctx.head
      case Returned => Some(EXIT)
      case _ => None;
    if to.Some? {
      SafeWeaken(F, m, n, Point(to.value, 0, r.state));
    }
  }

  lemma EndsAfter(F: Frame, n: nat, g: Graph, end: Option<Block>, ctx: Context, events: seq<Event>, r: Result)
    requires WellFormed(F.graph) && Ends(F, n, g, end, ctx, After(events, r))
    ensures Told(F, events) && Ends(F, n, g, end, ctx, r)
  {
    ToldParts(F, events, r.events);
  }

  lemma EndsInAfter(F: Frame, n: nat, outs: set<Block>, ctx: Context, events: seq<Event>, r: Result)
    requires WellFormed(F.graph) && EndsIn(F, n, outs, ctx, After(events, r))
    ensures Told(F, events) && EndsIn(F, n, outs, ctx, r)
  {
    ToldParts(F, events, r.events);
  }

  /** A block with nothing in it and nothing behind it. */
  lemma DeadEnd(F: Frame, n: nat, b: Block, st: State)
    requires WellFormed(F.graph) && FreshIn(F.graph, b)
    ensures SafeAt(F, n, b, st)
  {
    StepEdges(F, n, b, st);
  }

  lemma ToldParts(F: Frame, xs: seq<Event>, ys: seq<Event>)
    requires Told(F, xs + ys)
    ensures Told(F, xs) && Told(F, ys)
  {
    forall ev | ev in xs || ev in ys ensures ev in F.told {
      assert ev in xs + ys;
    }
  }

  // ------------------------------------------------------------------- the claims

  ghost predicate TargetEnds(F: Frame, n: nat, p: Place, ctx: Context, t: Target, st: State, law: Law)
    requires WellFormed(F.graph)
  {
    forall o :: Fair(o, LaxOf(law)) ==> Ends(F, n, p.graph, Some(p.block), ctx, Bind(t, st, o))
  }

  ghost predicate CoreEnds(F: Frame, n: nat, p: Place, ctx: Context, t: Target, st: State, law: Law)
    requires WellFormed(F.graph)
  {
    forall o :: Fair(o, LaxOf(law)) ==> Ends(F, n, p.graph, Some(p.block), ctx, BindCore(t, st, o))
  }

  ghost predicate TargetsEnd(F: Frame, n: nat, p: Place, ctx: Context, ts: Targets, st: State, law: Law)
    requires WellFormed(F.graph)
  {
    forall o :: Fair(o, LaxOf(law)) ==> Ends(F, n, p.graph, Some(p.block), ctx, BindAll(ts, st, o))
  }

  ghost predicate StmtEnds(F: Frame, n: nat, r: End, ctx: Context, s: Stmt, st: State, law: Law)
    requires WellFormed(F.graph)
  {
    forall o :: Fair(o, LaxOf(law)) ==> Ends(F, n, r.graph, r.block, ctx, Exec(s, st, o))
  }

  // ----------------------------------------------------------------- evaluations

  /** An evaluation can read any of the names, and then throw or not. */
  lemma EvalCanRead(e: Expr, st: State, i: nat, throws: bool, taken: bool) returns (o: seq<Choice>)
    requires i < |Refs(e)|
    ensures Fair(o, false) && |o| == 1 && o[0] == Choice([i], throws, taken, false)
    ensures Read(Refs(e)[i].0, Refs(e)[i].1, st) in Eval(e, st, o).events
    ensures Eval(e, st, o).outcome == if throws then Raised else Normal
  {
    o := [Choice([i], throws, taken, false)];
    assert Reads(Refs(e), [i], st)[0] == Read(Refs(e)[i].0, Refs(e)[i].1, st);
  }

  /** If all that evaluations read is known to be read, all names are. */
  lemma LookedByRuns(F: Frame, e: Expr, st: State)
    requires forall c: Choice :: c.throws && !c.lax ==> Told(F, Eval(e, st, [c]).events)
    ensures Looked(F, e, st)
  {
    forall ref | ref in Refs(e) ensures Read(ref.0, ref.1, st) in F.told {
      var i: nat :| i < |Refs(e)| && Refs(e)[i] == ref;
      var o := EvalCanRead(e, st, i, true, false);
      assert o == [o[0]];
      assert Told(F, Eval(e, st, [o[0]]).events);
    }
  }
}

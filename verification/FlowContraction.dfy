/** Removing blocks from a graph while keeping its paths: what reachability and the
    contraction of empty blocks mean for the states that reach the remaining blocks. */
module FlowContraction {
  import opened FlowSyntax
  import opened FlowGraph

  ghost predicate Reachable(g: Graph, b: Block) {
    exists p :: IsPath(g, p) && p[0] == ENTRY && p[|p| - 1] == b
  }

  lemma ReachableStep(g: Graph, b: Block, c: Block)
    requires WellFormed(g) && Reachable(g, b) && b < |g.stats| && c in g.children[b]
    ensures Reachable(g, c)
  {
    var p :| IsPath(g, p) && p[0] == ENTRY && p[|p| - 1] == b;
    assert IsPath(g, p + [c]);
  }

  lemma {:induction false} ReachableInClosed(g: Graph, V: set<Block>, p: seq<Block>)
    requires IsPath(g, p) && p[0] in V
    requires forall b: Block, c: Block {:trigger c in g.children[b]} ::
      b in V && b < |g.children| && c in g.children[b] ==> c in V
    ensures p[|p| - 1] in V
  {
    if |p| > 1 {
      ReachableInClosed(g, V, p[..|p| - 1]);
    }
  }

  // ------------------------------------------------- paths through removed blocks

  ghost predicate ViaPath(g: Graph, R: set<Block>, p: seq<Block>) {
    && IsPath(g, p) && |p| >= 2
    && forall i :: 0 < i < |p| - 1 ==> p[i] in R
  }

  /** A path leads from `x` to `y` through blocks of `R` only. */
  ghost predicate Via(g: Graph, R: set<Block>, x: Block, y: Block) {
    exists p :: ViaPath(g, R, p) && p[0] == x && p[|p| - 1] == y
  }

  lemma ViaEdge(g: Graph, R: set<Block>, x: Block, y: Block)
    requires WellFormed(g) && x < |g.stats| && y in g.children[x]
    ensures Via(g, R, x, y)
  {
    assert ViaPath(g, R, [x, y]);
  }

  lemma ViaCons(g: Graph, R: set<Block>, x: Block, z: Block, y: Block)
    requires WellFormed(g) && x < |g.stats| && z in g.children[x] && z in R && Via(g, R, z, y)
    ensures Via(g, R, x, y)
  {
    var p :| ViaPath(g, R, p) && p[0] == z && p[|p| - 1] == y;
    assert ViaPath(g, R, [x] + p);
  }

  lemma ViaSnoc(g: Graph, R: set<Block>, x: Block, z: Block, y: Block)
    requires WellFormed(g) && Via(g, R, x, z) && z in R && z < |g.stats| && y in g.children[z]
    ensures Via(g, R, x, y)
  {
    var p :| ViaPath(g, R, p) && p[0] == x && p[|p| - 1] == z;
    assert ViaPath(g, R, p + [y]);
  }

  lemma ViaJoin(g: Graph, R: set<Block>, x: Block, e: Block, y: Block)
    requires Via(g, R, x, e) && Via(g, R, e, y)
    ensures Via(g, R + {e}, x, y)
  {
    var p :| ViaPath(g, R, p) && p[0] == x && p[|p| - 1] == e;
    var q :| ViaPath(g, R, q) && q[0] == e && q[|q| - 1] == y;
    assert ViaPath(g, R + {e}, p + q[1..]);
  }

  lemma {:induction false} ViaSplit(g: Graph, R: set<Block>, e: Block, p: seq<Block>)
    requires WellFormed(g) && ViaPath(g, R + {e}, p)
    ensures var x, y := p[0], p[|p| - 1];
      Via(g, R, x, y) || (Via(g, R, x, e) && Via(g, R, e, y))
  {
    var x, z, y := p[0], p[1], p[|p| - 1];
    ViaEdge(g, R, x, z);
    if |p| > 2 {
      ViaSplit(g, R, e, p[1..]);
      if z in R {
        if Via(g, R, z, y) {
          ViaCons(g, R, x, z, y);
        } else {
          ViaCons(g, R, x, z, e);
        }
      }
    }
  }

  /** One more block to lead through. */
  lemma ViaOneMore(g: Graph, R: set<Block>, e: Block, x: Block, y: Block)
    requires WellFormed(g)
    ensures Via(g, R + {e}, x, y) <==> Via(g, R, x, y) || (Via(g, R, x, e) && Via(g, R, e, y))
  {
    if Via(g, R + {e}, x, y) {
      var p :| ViaPath(g, R + {e}, p) && p[0] == x && p[|p| - 1] == y;
      ViaSplit(g, R, e, p);
    }
    if Via(g, R, x, y) {
      var p :| ViaPath(g, R, p) && p[0] == x && p[|p| - 1] == y;
      assert ViaPath(g, R + {e}, p);
    }
    if Via(g, R, x, e) && Via(g, R, e, y) {
      ViaJoin(g, R, x, e, y);
    }
  }

  lemma ViaStep(g: Graph, R: set<Block>, p: seq<Block>)
    requires ViaPath(g, R, p)
    ensures |p| == 2 || p[1] in R
  {
  }

  lemma ViaNothing(g: Graph, x: Block, y: Block)
    requires WellFormed(g) && x < |g.stats|
    ensures Via(g, {}, x, y) <==> y in g.children[x]
  {
    if Via(g, {}, x, y) {
      var R: set<Block> := {};
      var p :| ViaPath(g, R, p) && p[0] == x && p[|p| - 1] == y;
      ViaStep(g, R, p);
    }
    if y in g.children[x] {
      ViaEdge(g, {}, x, y);
    }
  }

  // ---------------------------------------------------------------- contraction

  predicate EmptyBlock(g: Graph, b: Block)
    requires b < |g.stats|
  {
    b != EXIT && g.stats[b] == []
  }

  /** `h` is `g` with the unreachable blocks taken out and the blocks of `R`, which are
      empty, contracted: `V` are the blocks of `g` that the entry block reaches. */
  ghost predicate Contracted(g: Graph, h: Graph, V: set<Block>, R: set<Block>) {
    && WellFormed(g) && WellFormed(h) && h.stats == g.stats && ENTRY < |g.stats|
    && (forall b: Block :: b in V <==> Reachable(g, b))
    && ENTRY !in R && R <= V
    && (forall b <- R :: EmptyBlock(g, b))
    && (forall x, y :: x in V - R ==> (Linked(h, x, y) <==> y !in R && Via(g, R, x, y)))
  }

  predicate Linked(h: Graph, x: Block, y: Block) {
    x < |h.children| && y in h.children[x]
  }

  lemma ReachableInGraph(g: Graph, b: Block)
    requires Reachable(g, b)
    ensures b < |g.stats| && b < |g.children|
  {
  }

  /** Going on from `x` through removed blocks changes the state by `x` only. */
  lemma {:induction false} AlongVia(g: Graph, R: set<Block>, p: seq<Block>, st: State)
    requires WellFormed(g) && ViaPath(g, R, p) && ReachIn(g, p[0], st)
    requires forall b <- R :: b < |g.stats| && g.stats[b] == []
    ensures ReachIn(g, p[|p| - 1], ApplyAll(g.stats[p[0]], st))
  {
    var q := p[..|p| - 1];
    if |p| > 2 {
      assert ViaPath(g, R, q);
      AlongVia(g, R, q, st);
      ReachStep(g, p[|p| - 2], p[|p| - 1], ApplyAll(g.stats[p[0]], st));
    } else {
      ReachStep(g, p[0], p[1], st);
    }
  }

  lemma {:induction false} ContractedPathExpands(g: Graph, h: Graph, V: set<Block>, R: set<Block>, p: seq<Block>)
    requires Contracted(g, h, V, R) && IsPath(h, p) && p[0] == ENTRY
    ensures p[|p| - 1] in V - R && ReachIn(g, p[|p| - 1], PathState(h, p))
  {
    if |p| == 1 {
      assert IsPath(g, [ENTRY]) && PathState(g, [ENTRY]) == map[];
      assert Reachable(g, ENTRY);
    } else {
      var q := p[..|p| - 1];
      var x, y := p[|p| - 2], p[|p| - 1];
      ContractedPathExpands(g, h, V, R, q);
      assert Linked(h, x, y);
      var r :| ViaPath(g, R, r) && r[0] == x && r[|r| - 1] == y;
      AlongVia(g, R, r, PathState(h, q));
      ReachInReachable(g, y, PathState(h, p));
    }
  }

  lemma ReachInReachable(g: Graph, b: Block, st: State)
    requires ReachIn(g, b, st)
    ensures Reachable(g, b)
  {
  }

  /** The last remaining block on a path, its state there, and that the path goes on
      from it through removed blocks. */
  ghost predicate Shadowed(g: Graph, h: Graph, V: set<Block>, R: set<Block>, b: Block, st: State, a: Block, s: State)
  {
    && a in V - R && ReachIn(h, a, s) && a < |g.stats|
    && ((b == a && st == s) || (b in R && Via(g, R, a, b) && st == ApplyAll(g.stats[a], s)))
  }

  lemma {:induction false} PathIsShadowed(g: Graph, h: Graph, V: set<Block>, R: set<Block>, p: seq<Block>)
    returns (a: Block, s: State)
    requires Contracted(g, h, V, R) && IsPath(g, p) && p[0] == ENTRY
    ensures Shadowed(g, h, V, R, p[|p| - 1], PathState(g, p), a, s)
  {
    if |p| == 1 {
      a, s := ENTRY, map[];
      assert IsPath(h, [ENTRY]) && PathState(h, [ENTRY]) == map[];
      assert Reachable(g, ENTRY);
    } else {
      var q := p[..|p| - 1];
      var x, y := p[|p| - 2], p[|p| - 1];
      a, s := PathIsShadowed(g, h, V, R, q);
      assert Reachable(g, y);
      if x == a {
        ViaEdge(g, R, a, y);
      } else {
        ViaSnoc(g, R, a, x, y);
      }
      if y !in R {
        assert Linked(h, a, y);
        ReachStep(h, a, y, s);
        a, s := y, ApplyAll(g.stats[a], s);
      }
    }
  }

  /** Contraction keeps the states that reach the remaining blocks, all of them and no
      others. */
  lemma ContractionKeepsStates(g: Graph, h: Graph, V: set<Block>, R: set<Block>, b: Block, st: State)
    requires Contracted(g, h, V, R) && b !in R
    ensures ReachIn(g, b, st) <==> ReachIn(h, b, st)
  {
    if ReachIn(g, b, st) {
      var p :| IsPath(g, p) && p[0] == ENTRY && p[|p| - 1] == b && PathState(g, p) == st;
      var a, s := PathIsShadowed(g, h, V, R, p);
    }
    if ReachIn(h, b, st) {
      var p :| IsPath(h, p) && p[0] == ENTRY && p[|p| - 1] == b && PathState(h, p) == st;
      ContractedPathExpands(g, h, V, R, p);
    }
  }
}

/** Contraction does not change which definitions reach the remaining blocks. */
module FlowContractedDefs {
  import opened FlowGraph
  import opened FlowContraction
  import opened FlowDataflow

  /** A path that carries the definition starts in one of the blocks `V`. */
  ghost predicate ReachesFrom(g: Graph, V: set<Block>, d: Def, b: Block) {
    exists p :: Carries(g, d, p) && p[0] in V && p[|p| - 1] == b
  }

  ghost predicate LeavesFrom(g: Graph, V: set<Block>, d: Def, b: Block) {
    && IsDef(g, d) && b < |g.stats| && b in V
    && (Generates(g, b, d) || (ReachesFrom(g, V, d, b) && !Kills(g, b, d)))
  }

  lemma LeavesReachesFrom(g: Graph, V: set<Block>, d: Def, b: Block, c: Block)
    requires WellFormed(g) && LeavesFrom(g, V, d, b) && c in g.children[b]
    ensures ReachesFrom(g, V, d, c)
  {
    if Generates(g, b, d) {
      assert Carries(g, d, [b, c]);
    } else {
      var p :| Carries(g, d, p) && p[0] in V && p[|p| - 1] == b;
      assert Carries(g, d, p + [c]);
    }
  }

  /** Removed blocks let every definition pass. */
  lemma RemovedPass(g: Graph, h: Graph, V: set<Block>, R: set<Block>, b: Block, d: Def)
    requires Contracted(g, h, V, R) && b in R && b < |g.stats| && IsDef(g, d)
    ensures !Kills(g, b, d) && !Generates(g, b, d)
  {
    assert EmptyBlock(g, b);
    assert GenOf([]) == map[];
  }

  /** A path of the contracted graph expands to one that carries the same. */
  lemma {:induction false} CarriedExpands(g: Graph, h: Graph, V: set<Block>, R: set<Block>, d: Def, p: seq<Block>)
    requires Contracted(g, h, V, R) && Carries(h, d, p) && p[0] in V - R
    ensures p[|p| - 1] in V - R && ReachesFrom(g, V, d, p[|p| - 1])
  {
    var q, x, y := p[..|p| - 1], p[|p| - 2], p[|p| - 1];
    if |q| > 1 {
      assert Carries(h, d, q);
      CarriedExpands(g, h, V, R, d, q);
    }
    assert y in h.children[x];
    EdgeExpands(g, h, V, R, d, x, y);
  }

  lemma EdgeExpands(g: Graph, h: Graph, V: set<Block>, R: set<Block>, d: Def, x: Block, y: Block)
    requires Contracted(g, h, V, R) && x in V - R && LeavesFrom(g, V, d, x) && Linked(h, x, y)
    ensures y in V - R && ReachesFrom(g, V, d, y)
  {
    var r :| ViaPath(g, R, r) && r[0] == x && r[|r| - 1] == y;
    ThroughRemoved(g, h, V, R, d, r);
  }

  /** What leaves a block reaches the end of a path through removed blocks. */
  lemma {:induction false} ThroughRemoved(g: Graph, h: Graph, V: set<Block>, R: set<Block>, d: Def, r: seq<Block>)
    requires Contracted(g, h, V, R) && ViaPath(g, R, r) && LeavesFrom(g, V, d, r[0])
    ensures ReachesFrom(g, V, d, r[|r| - 1]) && r[|r| - 1] in V
  {
    var q, x, y := r[..|r| - 1], r[|r| - 2], r[|r| - 1];
    if |q| > 1 {
      assert ViaPath(g, R, q);
      ThroughRemoved(g, h, V, R, d, q);
      assert x in R;
      RemovedPass(g, h, V, R, x, d);
      assert LeavesFrom(g, V, d, x);
    }
    LeavesReachesFrom(g, V, d, x, y);
    ReachableStep(g, x, y);
  }

  /** The last remaining block `a` on a path: the definition leaves it, and the path goes on
      through removed blocks. */
  ghost predicate CarriedTo(g: Graph, h: Graph, V: set<Block>, R: set<Block>, d: Def, b: Block, a: Block) {
    && a in V - R && Leaves(h, d, a) && b in V && Via(g, R, a, b)
  }

  lemma {:induction false} CarriedContracts(g: Graph, h: Graph, V: set<Block>, R: set<Block>, d: Def, p: seq<Block>)
    returns (a: Block)
    requires Contracted(g, h, V, R) && Carries(g, d, p) && p[0] in V - R
    ensures CarriedTo(g, h, V, R, d, p[|p| - 1], a)
  {
    var q, x, y := p[..|p| - 1], p[|p| - 2], p[|p| - 1];
    if |q| == 1 {
      a := x;
      ReachableStep(g, x, y);
      ViaEdge(g, R, x, y);
    } else {
      assert Carries(g, d, q);
      a := CarriedContracts(g, h, V, R, d, q);
      ReachableStep(g, x, y);
      if x in R {
        ViaSnoc(g, R, a, x, y);
      } else {
        assert Linked(h, a, x);
        LeavesReaches(h, d, a, x);
        assert Leaves(h, d, x);
        a := x;
        ViaEdge(g, R, x, y);
      }
    }
  }

  /** At the remaining blocks nothing has changed: a definition reaches them in the
      contracted graph exactly if, before, a path carried it there from a block that the
      entry block reaches. */
  lemma ContractionKeepsDefinitions(g: Graph, h: Graph, V: set<Block>, R: set<Block>, d: Def, b: Block)
    requires Contracted(g, h, V, R) && b in V - R && IsDef(g, d)
    requires forall x: Block :: x < |h.children| && x !in V - R ==> h.children[x] == {}
    ensures ReachesFrom(g, V, d, b) <==> ReachesDef(h, d, b)
  {
    if ReachesDef(h, d, b) {
      var p :| Carries(h, d, p) && p[|p| - 1] == b;
      assert p[1] in h.children[p[0]];
      CarriedExpands(g, h, V, R, d, p);
    }
    if ReachesFrom(g, V, d, b) {
      var p :| Carries(g, d, p) && p[0] in V && p[|p| - 1] == b;
      if p[0] in R {
        RemovedPass(g, h, V, R, p[0], d);
      }
      var a := CarriedContracts(g, h, V, R, d, p);
      assert Linked(h, a, b);
      LeavesReaches(h, d, a, b);
    }
  }
}

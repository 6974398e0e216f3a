/** Cleaning up the finished graph: unreachable blocks are detached, and empty blocks are
    contracted, each by linking its parents to its children. */
module FlowNormalize {
  import opened FlowGraph
  import opened FlowContraction
  import opened ControlFlow

  // ------------------------------------------------------------- single removals

  function Removed(g: Graph, b: Block): Graph
    requires WellFormed(g)
  {
    g.(children := seq(|g.children|, x requires 0 <= x < |g.children| => if x == b then {} else g.children[x] - {b}))
  }

  /** The parents of `b` have been linked to its children. */
  function Bypassed(g: Graph, b: Block): Graph
    requires WellFormed(g) && b < |g.stats|
  {
    g.(children := seq(|g.children|, x requires 0 <= x < |g.children| =>
      if b in g.children[x] then g.children[x] + g.children[b] else g.children[x]))
  }

  lemma RemovedRows(g: Graph, b: Block)
    requires WellFormed(g) && b < |g.stats|
    ensures WellFormed(Removed(g, b))
    ensures ParentsOf(Removed(g, b).children) ==
      seq(|g.children|, x requires 0 <= x < |g.children| => if x == b then {} else ParentsOf(g.children)[x] - {b})
  {
    var h := Removed(g, b);
    forall x | 0 <= x < |g.children|
      ensures ParentsOf(h.children)[x] == if x == b then {} else ParentsOf(g.children)[x] - {b}
    {
      assert ParentsOf(h.children)[x] == set a: Block | a < |h.children| && x in h.children[a];
      assert ParentsOf(g.children)[x] == set a: Block | a < |g.children| && x in g.children[a];
    }
  }

  lemma ParentOf(g: Graph, x: Block, y: Block)
    requires WellFormed(g) && y < |g.children|
    ensures x in ParentsOf(g.children)[y] <==> x < |g.children| && y in g.children[x]
  {
    assert ParentsOf(g.children)[y] == set a: Block | a < |g.children| && y in g.children[a];
  }

  /** Removes `block` from its children's parents and its parents' children. */
  method Detach(flow: ControlFlow, block: Block)
    requires flow.Rows() && block < |flow.stats|
    modifies flow`children, flow`parents
    ensures flow.Rows() && flow.Snap() == Removed(old(flow.Snap()), block)
  {
    ghost var g := flow.Snap();
    RemovedRows(g, block);
    var todo := flow.children[block];
    while todo != {}
      invariant todo <= g.children[block] && flow.children == g.children && |flow.parents| == |g.children|
      invariant forall x :: 0 <= x < |g.children| ==>
        flow.parents[x] == if x in g.children[block] - todo then ParentsOf(g.children)[x] - {block}
          else ParentsOf(g.children)[x]
    {
      var child :| child in todo;
      flow.parents := flow.parents[child := flow.parents[child] - {block}];
      todo := todo - {child};
    }
    ghost var qs := flow.parents;
    todo := flow.parents[block];
    ghost var ps := todo;
    ParentsBelow(g, block);
    while todo != {}
      invariant todo <= ps && |flow.children| == |g.children| && flow.parents == qs
      invariant forall x :: 0 <= x < |g.children| ==>
        flow.children[x] == if x in ps - todo then g.children[x] - {block} else g.children[x]
    {
      var parent :| parent in todo;
      flow.children := flow.children[parent := flow.children[parent] - {block}];
      todo := todo - {parent};
    }
    flow.parents := flow.parents[block := {}];
    flow.children := flow.children[block := {}];
    forall x | 0 <= x < |g.children|
      ensures flow.children[x] == Removed(g, block).children[x]
    {
      ParentOf(g, x, block);
    }
    forall x | 0 <= x < |g.children|
      ensures flow.parents[x] == ParentsOf(flow.children)[x]
    {
      ParentOf(g, block, x);
    }
  }

  lemma ParentsBelow(g: Graph, b: Block)
    requires WellFormed(g) && b < |g.children|
    ensures forall x <- ParentsOf(g.children)[b] :: x < |g.children|
  {
    assert ParentsOf(g.children)[b] == set a: Block | a < |g.children| && b in g.children[a];
  }

  /** Links the parents of `block` to its children.  Neither of the two sets that are
      walked over changes on the way, even when the block is its own parent. */
  method Bypass(flow: ControlFlow, block: Block)
    requires flow.Rows() && block < |flow.stats|
    modifies flow`children, flow`parents
    ensures flow.Rows() && flow.Snap() == Bypassed(old(flow.Snap()), block)
  {
    ghost var g := flow.Snap();
    var ps, cs := flow.parents[block], flow.children[block];
    ParentsBelow(g, block);
    ChildrenAreNotEntry(g, block);
    var todo := ps;
    while todo != {}
      invariant todo <= ps && flow.Rows() && flow.stats == g.stats && |flow.children| == |g.children|
      invariant flow.children[block] == cs && flow.parents[block] == ps
      invariant forall x :: 0 <= x < |g.children| ==>
        flow.children[x] == if x in ps - todo then g.children[x] + cs else g.children[x]
    {
      var parent :| parent in todo;
      LinkAll(flow, block, parent, cs);
      todo := todo - {parent};
    }
    forall x | 0 <= x < |g.children|
      ensures flow.children[x] == Bypassed(g, block).children[x]
    {
      ParentOf(g, x, block);
    }
  }

  lemma ChildrenAreNotEntry(g: Graph, b: Block)
    requires WellFormed(g) && b < |g.children| && ParentsOf(g.children)[ENTRY] == {}
    ensures ENTRY !in g.children[b]
  {
    ParentOf(g, b, ENTRY);
  }

  method LinkAll(flow: ControlFlow, block: Block, parent: Block, cs: set<Block>)
    requires flow.Rows() && block < |flow.stats| && parent < |flow.stats|
    requires cs == flow.children[block] && parent in flow.parents[block]
    modifies flow`children, flow`parents
    ensures flow.Rows() && flow.stats == old(flow.stats)
    ensures flow.children == old(flow.children)[parent := old(flow.children)[parent] + cs]
    ensures flow.children[block] == cs && flow.parents[block] == old(flow.parents)[block]
  {
    ghost var g := flow.Snap();
    ChildrenAreNotEntry(g, block);
    ParentOf(g, parent, block);
    var todo := cs;
    assert g.children[parent] + (cs - todo) == g.children[parent];
    while todo != {}
      invariant todo <= cs && flow.Rows() && flow.stats == g.stats
      invariant flow.children == g.children[parent := g.children[parent] + (cs - todo)]
      invariant flow.children[block] == cs && flow.parents[block] == ParentsOf(g.children)[block]
    {
      var child :| child in todo;
      RowsAddEdge(flow.Snap(), parent, child);
      flow.children := flow.children[parent := flow.children[parent] + {child}];
      flow.parents := flow.parents[child := flow.parents[child] + {parent}];
      todo := todo - {child};
      assert flow.children[parent] == g.children[parent] + (cs - todo);
    }
    assert cs - {} == cs;
  }

  // ------------------------------------------------------------------- the queue

  lemma {:induction false} BlocksBelow(n: nat)
    ensures forall b: Block :: b in BlocksUpTo(n) <==> ENTRY < b < n
  {
    if n > 1 {
      BlocksBelow(n - 1);
    }
  }

  /** The blocks that the entry block reaches. */
  method FindReachable(flow: ControlFlow) returns (visited: set<Block>)
    requires flow.Rows()
    ensures forall b: Block :: b in visited <==> Reachable(flow.Snap(), b)
  {
    ghost var g := flow.Snap();
    var queue := {ENTRY};
    visited := {};
    assert IsPath(g, [ENTRY]);
    ghost var all := BlocksUpTo(|g.stats|) + {ENTRY};
    BlocksBelow(|g.stats|);
    while queue != {}
      invariant visited <= all && queue <= all
      invariant visited * queue == {} && ENTRY in visited + queue
      invariant forall b <- visited + queue :: Reachable(g, b)
      invariant forall b <- visited :: b < |g.children| && g.children[b] <= visited + queue
      decreases all - visited
    {
      var root :| root in queue;
      queue := queue - {root};
      visited := visited + {root};
      ReachableInGraph(g, root);
      forall c | c in g.children[root] ensures Reachable(g, c) && c in all {
        ReachableStep(g, root, c);
      }
      queue := queue + (flow.children[root] - visited);
    }
    forall b: Block | Reachable(g, b) ensures b in visited {
      var p :| IsPath(g, p) && p[0] == ENTRY && p[|p| - 1] == b;
      ReachableInClosed(g, visited, p);
    }
  }

  // --------------------------------------------------------------- normalization

  /** While the blocks of `R` have been contracted. */
  ghost predicate Contracting(g: Graph, h: Graph, V: set<Block>, R: set<Block>) {
    && Contracted(g, h, V, R)
    && forall x: Block :: x < |h.children| && x !in V - R ==> h.children[x] == {}
  }

  /** Once the unreachable blocks are detached nothing is contracted yet. */
  lemma ContractionStarts(g: Graph, h: Graph, V: set<Block>)
    requires WellFormed(g) && WellFormed(h) && h.stats == g.stats && ENTRY < |g.stats|
    requires forall b: Block :: b in V <==> Reachable(g, b)
    requires forall x: Block :: x < |h.children| ==> h.children[x] == if x in V then g.children[x] else {}
    ensures Contracting(g, h, V, {})
  {
    forall x, y | x in V - {} ensures Linked(h, x, y) <==> y !in {} && Via(g, {}, x, y) {
      ReachableInGraph(g, x);
      ViaNothing(g, x, y);
    }
  }

  lemma ContractionGoesOn(g: Graph, h: Graph, V: set<Block>, R: set<Block>, b: Block)
    requires Contracting(g, h, V, R) && b in V - R && b != ENTRY && b < |g.stats| && EmptyBlock(g, b)
    ensures WellFormed(Bypassed(h, b)) && Contracting(g, Removed(Bypassed(h, b), b), V, R + {b})
  {
    var h' := Removed(Bypassed(h, b), b);
    forall x, y | x in V - (R + {b}) ensures Linked(h', x, y) <==> y !in R + {b} && Via(g, R + {b}, x, y) {
      ReachableInGraph(g, x);
      ViaOneMore(g, R, b, x, y);
      assert Linked(h, x, y) <==> y !in R && Via(g, R, x, y);
      assert Linked(h, x, b) <==> Via(g, R, x, b);
      assert Linked(h, b, y) <==> y !in R && Via(g, R, b, y);
    }
  }

  /** Deletes unreachable and empty blocks.  `V` are the blocks that were reachable. */
  method Normalize(flow: ControlFlow) returns (ghost V: set<Block>, ghost R: set<Block>)
    requires flow.Valid()
    modifies flow`children, flow`parents, flow`blocks
    ensures flow.Rows() && Contracting(old(flow.Snap()), flow.Snap(), V, R)
    ensures R == (set b | b in V && b != ENTRY && EmptyBlock(flow.Snap(), b))
    ensures flow.blocks == V - R - {ENTRY}
  {
    ghost var g := flow.Snap();
    var visited, unreachable := StartContraction(flow);
    V := visited;
    visited := visited - {ENTRY};
    R := {};
    var todo := visited;
    while todo != {}
      invariant flow.Rows() && Contracting(g, flow.Snap(), V, R) && flow.blocks == old(flow.blocks)
      invariant todo <= visited && unreachable == (flow.blocks - V) + R && visited == V - {ENTRY}
      invariant R == set b | b in visited - todo && EmptyBlock(g, b)
    {
      var block :| block in todo;
      todo := todo - {block};
      var empty := ContractIfEmpty(flow, block, g, V, R);
      if empty {
        unreachable := unreachable + {block};
        R := R + {block};
      }
    }
    BlocksLeft(g, V, R, flow.blocks, unreachable);
    flow.blocks := flow.blocks - unreachable;
  }

  /** The blocks that the entry reaches, with the edges of all others taken away. */
  method StartContraction(flow: ControlFlow) returns (visited: set<Block>, unreachable: set<Block>)
    requires flow.Valid()
    modifies flow`children, flow`parents
    ensures flow.Rows() && Contracting(old(flow.Snap()), flow.Snap(), visited, {})
    ensures unreachable == flow.blocks - visited
  {
    ghost var g := flow.Snap();
    visited := FindReachable(flow);
    unreachable := flow.blocks - visited;
    DetachAll(flow, visited, unreachable);
    ContractionStarts(g, flow.Snap(), visited);
  }

  lemma BlocksLeft(g: Graph, V: set<Block>, R: set<Block>, blocks: set<Block>, unreachable: set<Block>)
    requires blocks == BlocksUpTo(|g.stats|) && (forall b: Block :: b in V <==> Reachable(g, b))
    requires unreachable == (blocks - V) + R
    ensures blocks - unreachable == V - R - {ENTRY}
  {
    BlocksBelow(|g.stats|);
    forall b | b in V ensures b < |g.stats| {
      ReachableInGraph(g, b);
    }
  }

  /** Takes an empty block out, with edges around it. */
  method ContractIfEmpty(flow: ControlFlow, block: Block, ghost g: Graph, ghost V: set<Block>, ghost R: set<Block>)
    returns (empty: bool)
    requires flow.Rows() && Contracting(g, flow.Snap(), V, R) && block in V - R && block != ENTRY
    modifies flow`children, flow`parents
    ensures flow.Rows() && block < |g.stats| && (empty <==> EmptyBlock(g, block))
    ensures Contracting(g, flow.Snap(), V, if empty then R + {block} else R)
  {
    ReachableInGraph(g, block);
    empty := block != EXIT && flow.stats[block] == [];
    if empty {
      ContractionGoesOn(g, flow.Snap(), V, R, block);
      Bypass(flow, block);
      Detach(flow, block);
    }
  }

  method DetachAll(flow: ControlFlow, visited: set<Block>, unreachable: set<Block>)
    requires flow.Valid() && (forall b: Block :: b in visited <==> Reachable(flow.Snap(), b))
    requires unreachable == flow.blocks - visited
    modifies flow`children, flow`parents
    ensures flow.Rows() && flow.stats == old(flow.stats)
    ensures forall x: Block :: x < |flow.children| ==>
      flow.children[x] == if x in visited then old(flow.children)[x] else {}
  {
    ghost var g := flow.Snap();
    BlocksBelow(|g.stats|);
    assert IsPath(g, [ENTRY]);
    var todo := unreachable;
    while todo != {}
      invariant todo <= unreachable && flow.Rows() && flow.stats == g.stats
      invariant forall x: Block :: x < |flow.children| ==>
        if x in visited then flow.children[x] == g.children[x] else x !in todo ==> flow.children[x] == {}
    {
      var block :| block in todo;
      forall x: Block | x in visited && x < |g.children| ensures block !in g.children[x] {
        if block in g.children[x] {
          ReachableStep(g, x, block);
        }
      }
      Detach(flow, block);
      todo := todo - {block};
    }
  }
}

/** Reading off, statement by statement, what each name can hold, and the guarantee that
    the whole analysis gives about the runs of a function. */
module FlowCheck {
  import opened FlowSyntax
  import opened FlowGraph
  import opened FlowDataflow
  import opened ControlFlow
  import opened FlowReaching

  /** An element of a name's control-flow state. */
  datatype CfDef = CfUninitialized | CfAssignment(block: Block, index: nat, lhs: NodeId)

  function NodeOf(s: Stat): NodeId {
    if s.Reference? then s.node else s.lhs
  }

  function CfOf(g: Graph, d: Def): CfDef
    requires IsDef(g, d)
  {
    if d.Start? then CfUninitialized else CfAssignment(d.block, d.index, NodeOf(g.stats[d.block][d.index]))
  }

  ghost predicate AllDefs(g: Graph, ds: set<Def>) {
    forall d <- ds :: IsDef(g, d)
  }

  lemma DecodeDefs(g: Graph, owners: seq<Def>, bits: set<nat>)
    requires Numbering(g, owners)
    ensures AllDefs(g, Decode(owners, bits))
  {
  }

  /** Element `c` describes one of the definitions of `entry` in `ds`. */
  ghost predicate Describes(g: Graph, ds: set<Def>, entry: Entry, c: CfDef)
    requires AllDefs(g, ds)
  {
    exists d <- ds :: EntryOf(g, d) == entry && CfOf(g, d) == c
  }

  /** What the bits of a state say about one entry. */
  method MapOne(flow: ControlFlow, iState: set<nat>, entry: Entry, ghost owners: seq<Def>) returns (ret: set<CfDef>)
    requires flow.Rows() && AllNumbered(flow, owners) && entry in flow.entries
    ensures AllDefs(flow.Snap(), Decode(owners, iState))
    ensures forall c :: c in ret <==> Describes(flow.Snap(), Decode(owners, iState), entry, c)
  {
    ghost var g := flow.Snap();
    var a := flow.assmts[entry];
    assert Listed(g, owners, a, entry, flow.bits);
    ret := MapAssignments(flow, iState, a.stats, entry, owners);
    if a.bit in iState {
      assert owners[a.bit] in Decode(owners, iState);
      ret := ret + {CfUninitialized};
    }
    MapIsComplete(g, owners, flow.assmts, flow.bits, iState, entry, ret);
  }

  lemma MapIsComplete(g: Graph, owners: seq<Def>, assmts: map<Entry, AssignmentList>, bits: map<(Block, nat), nat>,
                      iState: set<nat>, entry: Entry, ret: set<CfDef>)
    requires Numbered(g, owners, assmts, bits) && entry in assmts
    requires assmts[entry].bit in iState ==> CfUninitialized in ret
    requires forall s <- assmts[entry].stats :: s in bits && s.0 < |g.stats| && s.1 < |g.stats[s.0]|
    requires forall s <- assmts[entry].stats ::
      bits[s] in iState ==> CfAssignment(s.0, s.1, NodeOf(g.stats[s.0][s.1])) in ret
    ensures AllDefs(g, Decode(owners, iState))
    ensures forall c :: Describes(g, Decode(owners, iState), entry, c) ==> c in ret
  {
    forall c | Describes(g, Decode(owners, iState), entry, c) ensures c in ret {
      var d :| d in Decode(owners, iState) && EntryOf(g, d) == entry && CfOf(g, d) == c;
      DescribedIsListed(g, owners, assmts, bits, iState, entry, d);
    }
  }

  method MapAssignments(flow: ControlFlow, iState: set<nat>, stats: seq<(Block, nat)>, entry: Entry,
                        ghost owners: seq<Def>)
    returns (ret: set<CfDef>)
    requires flow.Rows() && AllNumbered(flow, owners)
    requires forall s <- stats ::
      s in flow.bits && s.0 < |flow.stats| && s.1 < |flow.stats[s.0]| && flow.stats[s.0][s.1].entry == entry
    ensures AllDefs(flow.Snap(), Decode(owners, iState))
    ensures forall c <- ret :: Describes(flow.Snap(), Decode(owners, iState), entry, c)
    ensures forall s <- stats :: flow.bits[s] in iState ==> CfAssignment(s.0, s.1, NodeOf(flow.stats[s.0][s.1])) in ret
  {
    ghost var g := flow.Snap();
    ghost var ds := Decode(owners, iState);
    DecodeDefs(g, owners, iState);
    ret := {};
    for k := 0 to |stats|
      invariant forall c <- ret :: Describes(g, ds, entry, c)
      invariant forall j :: 0 <= j < k && flow.bits[stats[j]] in iState ==>
        CfAssignment(stats[j].0, stats[j].1, NodeOf(flow.stats[stats[j].0][stats[j].1])) in ret
    {
      var s := stats[k];
      assert IsBit(owners, flow.bits[s], Stat(s.0, s.1));
      if flow.bits[s] in iState {
        assert Stat(s.0, s.1) in ds;
        ret := ret + {CfAssignment(s.0, s.1, flow.stats[s.0][s.1].lhs)};
      }
    }
  }

  lemma DescribedIsListed(g: Graph, owners: seq<Def>, assmts: map<Entry, AssignmentList>, bits: map<(Block, nat), nat>,
                          iState: set<nat>, entry: Entry, d: Def)
    requires Numbered(g, owners, assmts, bits) && entry in assmts && d in Decode(owners, iState)
    requires EntryOf(g, d) == entry
    ensures if d.Start? then assmts[entry].bit in iState
            else
              exists j :: 0 <= j < |assmts[entry].stats| && assmts[entry].stats[j] == (d.block, d.index)
                && bits[(d.block, d.index)] in iState
  {
    var i :| i in iState && i < |owners| && owners[i] == d;
    assert Listed(g, owners, assmts[entry], entry, bits);
    if d.Stat? {
      assert (d.block, d.index) in bits;
      var s := (d.block, d.index);
      assert s in bits.Keys && s in assmts[entry].stats;
    }
  }

  /** Passing an assignment or deletion, in bits. */
  lemma DecodeUpdate(g: Graph, owners: seq<Def>, iState: set<nat>, mask: set<nat>, bit: nat, entry: Entry, d: Def)
    requires Numbering(g, owners) && mask == MaskOf(g, owners, entry) && IsBit(owners, bit, d)
    ensures AllDefs(g, Decode(owners, iState))
    ensures Decode(owners, (iState - mask) + {bit}) ==
      (set x | x in Decode(owners, iState) && EntryOf(g, x) != entry) + {d}
  {
    DecodeDefs(g, owners, iState);
    var after := (iState - mask) + {bit};
    var want := (set x | x in Decode(owners, iState) && EntryOf(g, x) != entry) + {d};
    forall x | x in want ensures x in Decode(owners, after) {
      if x == d {
        assert bit in after;
      } else {
        var i :| i in iState && i < |owners| && owners[i] == x;
        assert i in after;
      }
    }
  }

  // ------------------------------------------------------------ what was recorded

  function CfState(cf: map<NodeId, set<CfDef>>, n: NodeId): set<CfDef> {
    if n in cf then cf[n] else {}
  }

  /** The statement at position `k` of `b` is about node `n`, and `c` describes what its
      entry can hold there. */
  ghost predicate Seen(g: Graph, b: Block, k: nat, entering: set<Def>, n: NodeId, c: CfDef)
    requires b < |g.stats| && k < |g.stats[b]| && AllDefs(g, entering)
  {
    NodeOf(g.stats[b][k]) == n && Describes(g, Replay(g, b, k, entering), g.stats[b][k].entry, c)
  }

  ghost predicate SeenBefore(g: Graph, b: Block, k: nat, entering: set<Def>, n: NodeId, c: CfDef)
    requires b < |g.stats| && k <= |g.stats[b]| && AllDefs(g, entering)
  {
    exists j: nat :: j < k && Seen(g, b, j, entering, n, c)
  }

  /** The statements of one block, replayed from the bits that come in. */
  method CheckBlock(flow: ControlFlow, block: Block, cf0: map<NodeId, set<CfDef>>, ghost owners: seq<Def>)
    returns (cf: map<NodeId, set<CfDef>>)
    requires flow.Rows() && AllNumbered(flow, owners) && block in flow.blocks && block < |flow.stats| == |flow.iInput|
    ensures AllDefs(flow.Snap(), Decode(owners, flow.iInput[block]))
    ensures forall n, c ::
      c in CfState(cf, n) <==>
        (c in CfState(cf0, n)
         || SeenBefore(flow.Snap(), block, |flow.stats[block]|, Decode(owners, flow.iInput[block]), n, c))
  {
    ghost var g := flow.Snap();
    ghost var entering := Decode(owners, flow.iInput[block]);
    DecodeDefs(g, owners, flow.iInput[block]);
    var iState := flow.iInput[block];
    cf := cf0;
    for k := 0 to |flow.stats[block]|
      invariant Decode(owners, iState) == Replay(g, block, k, entering)
      invariant forall n, c :: c in CfState(cf, n) <==> c in CfState(cf0, n) || SeenBefore(g, block, k, entering, n, c)
    {
      cf, iState := CheckStat(flow, block, k, cf, iState, cf0, entering, owners);
    }
  }

  /** One statement: its node gets what the bits say about its entry. */
  method CheckStat(flow: ControlFlow, block: Block, k: nat, cf: map<NodeId, set<CfDef>>, iState: set<nat>,
                   ghost cf0: map<NodeId, set<CfDef>>, ghost entering: set<Def>, ghost owners: seq<Def>)
    returns (cf': map<NodeId, set<CfDef>>, after: set<nat>)
    requires flow.Rows() && AllNumbered(flow, owners) && block in flow.blocks
    requires block < |flow.stats| && k < |flow.stats[block]| && AllDefs(flow.Snap(), entering)
    requires Decode(owners, iState) == Replay(flow.Snap(), block, k, entering)
    requires forall n, c :: c in CfState(cf, n) <==>
      c in CfState(cf0, n) || SeenBefore(flow.Snap(), block, k, entering, n, c)
    ensures Decode(owners, after) == Replay(flow.Snap(), block, k + 1, entering)
    ensures forall n, c :: c in CfState(cf', n) <==>
      c in CfState(cf0, n) || SeenBefore(flow.Snap(), block, k + 1, entering, n, c)
  {
    var stat := flow.stats[block][k];
    assert stat.entry in EntriesOf(flow.Snap().stats);
    var state := MapOne(flow, iState, stat.entry, owners);
    cf' := cf[NodeOf(stat) := CfState(cf, NodeOf(stat)) + state];
    SeenOneMore(flow.Snap(), block, k, entering, cf0, cf, cf', NodeOf(stat), state);
    after := PassStat(flow, block, k, iState, owners);
  }

  lemma SeenOneMore(g: Graph, b: Block, k: nat, entering: set<Def>, cf0: map<NodeId, set<CfDef>>,
                    before: map<NodeId, set<CfDef>>, after: map<NodeId, set<CfDef>>, node: NodeId, state: set<CfDef>)
    requires b < |g.stats| && k < |g.stats[b]| && AllDefs(g, entering) && node == NodeOf(g.stats[b][k])
    requires forall n, c :: c in CfState(before, n) <==> c in CfState(cf0, n) || SeenBefore(g, b, k, entering, n, c)
    requires forall c :: c in state <==> Describes(g, Replay(g, b, k, entering), g.stats[b][k].entry, c)
    requires after == before[node := CfState(before, node) + state]
    ensures forall n, c :: c in CfState(after, n) <==> c in CfState(cf0, n) || SeenBefore(g, b, k + 1, entering, n, c)
  {
    forall n, c ensures c in CfState(after, n) <==> c in CfState(cf0, n) || SeenBefore(g, b, k + 1, entering, n, c) {
      assert c in CfState(after, n) <==> c in CfState(before, n) || Seen(g, b, k, entering, n, c);
      SeenBeforeStep(g, b, k, entering, n, c);
    }
  }

  lemma SeenBeforeStep(g: Graph, b: Block, k: nat, entering: set<Def>, n: NodeId, c: CfDef)
    requires b < |g.stats| && k < |g.stats[b]| && AllDefs(g, entering)
    ensures SeenBefore(g, b, k + 1, entering, n, c) <==>
      SeenBefore(g, b, k, entering, n, c) || Seen(g, b, k, entering, n, c)
  {
  }

  /** The bits behind one more statement. */
  method PassStat(flow: ControlFlow, block: Block, k: nat, iState: set<nat>, ghost owners: seq<Def>)
    returns (after: set<nat>)
    requires flow.Rows() && AllNumbered(flow, owners) && block in flow.blocks
    requires block < |flow.stats| && k < |flow.stats[block]|
    ensures AllDefs(flow.Snap(), Decode(owners, iState))
    ensures forall entering: set<Def> ::
      AllDefs(flow.Snap(), entering) && Decode(owners, iState) == Replay(flow.Snap(), block, k, entering) ==>
      Decode(owners, after) == Replay(flow.Snap(), block, k + 1, entering)
  {
    ghost var g := flow.Snap();
    DecodeDefs(g, owners, iState);
    var stat := flow.stats[block][k];
    after := iState;
    if !stat.Reference? {
      assert stat.entry in EntriesOf(g.stats);
      assert IsDef(g, Stat(block, k));
      var a := flow.assmts[stat.entry];
      assert Listed(g, owners, a, stat.entry, flow.bits);
      var bit := if stat.Deletion? then a.bit else flow.bits[(block, k)];
      DecodeUpdate(g, owners, iState, a.mask, bit, stat.entry, owners[bit]);
      after := (iState - a.mask) + {bit};
    }
  }

  /** The replay of a whole block ends in the block's output. */
  lemma ReplayEndsInOutput(q: Problem, ins: seq<set<nat>>, outs: seq<set<nat>>, b: Block)
    requires WellPosed(q) && Solved(q, ins, outs) && b in q.blocks
    ensures AllDefs(q.g, Decode(q.owners, ins[b]))
    ensures forall i: nat :: i < |q.owners| ==>
      (i in outs[b] <==> q.owners[i] in Replay(q.g, b, |q.g.stats[b]|, Decode(q.owners, ins[b])))
  {
    var entering := Decode(q.owners, ins[b]);
    DecodeDefs(q.g, q.owners, ins[b]);
    forall i: nat | i < |q.owners|
      ensures i in outs[b] <==> q.owners[i] in Replay(q.g, b, |q.g.stats[b]|, entering)
    {
      assert q.g.stats[b][..|q.g.stats[b]|] == q.g.stats[b];
      ReplayLeaves(q.g, b, |q.g.stats[b]|, entering, q.owners[i]);
      assert i in ins[b] <==> q.owners[i] in entering;
    }
  }

  // ------------------------------------------------------------------- the check

  /** The recorded states are exactly what the statements of the blocks saw. */
  ghost predicate Recorded(flow: ControlFlow, owners: seq<Def>, blocks: set<Block>, cf: map<NodeId, set<CfDef>>)
    reads flow
    requires Initialized(flow, owners) && (forall b <- blocks :: b < |flow.stats|)
  {
    && (forall b <- blocks :: AllDefs(flow.Snap(), Decode(owners, flow.iInput[b])))
    && forall n, c :: c in CfState(cf, n) <==> SeenIn(flow, owners, blocks, n, c)
  }

  ghost predicate SeenIn(flow: ControlFlow, owners: seq<Def>, blocks: set<Block>, n: NodeId, c: CfDef)
    reads flow
    requires Initialized(flow, owners)
    requires forall b <- blocks :: b < |flow.stats| && AllDefs(flow.Snap(), Decode(owners, flow.iInput[b]))
  {
    exists b <- blocks :: SeenBefore(flow.Snap(), b, |flow.stats[b]|, Decode(owners, flow.iInput[b]), n, c)
  }

  method RecordStates(flow: ControlFlow, ghost owners: seq<Def>) returns (cf: map<NodeId, set<CfDef>>)
    requires Initialized(flow, owners)
    ensures Recorded(flow, owners, flow.blocks, cf)
  {
    cf := map[];
    var todo := flow.blocks;
    while todo != {}
      invariant todo <= flow.blocks && Recorded(flow, owners, flow.blocks - todo, cf)
    {
      var block :| block in todo;
      cf := CheckBlock(flow, block, cf, owners);
      todo := todo - {block};
    }
    assert flow.blocks - todo == flow.blocks;
  }

  method CheckDefinitions(flow: ControlFlow) returns (cf: map<NodeId, set<CfDef>>, ghost owners: seq<Def>)
    requires flow.Rows() && EdgesInside(flow)
    modifies flow`assmts, flow`bits, flow`iGen, flow`iKill, flow`iInput, flow`iOutput
    ensures Initialized(flow, owners) && WellPosed(ProblemOf(flow, owners))
    ensures Solved(ProblemOf(flow, owners), flow.iInput, flow.iOutput)
    ensures Recorded(flow, owners, flow.blocks, cf)
  {
    owners := Initialize(flow);
    ReachingDefinitions(flow, owners);
    cf := RecordStates(flow, owners);
  }

  /** The flags of a name: it may be unassigned, and it cannot be anything else. */
  predicate MaybeNull(state: set<CfDef>) {
    CfUninitialized in state
  }

  predicate IsNull(state: set<CfDef>) {
    state == {CfUninitialized}
  }
}

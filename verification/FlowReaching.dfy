/** The reaching-definitions analysis of the finished graph: numbering the definitions
    as bits, iterating to a fixpoint, and reading off what each name can hold. */
module FlowReaching {
  import opened FlowSyntax
  import opened FlowGraph
  import opened FlowDataflow
  import opened ControlFlow

  // ------------------------------------------------------------------ numbering

  /** Bit `i` stands for the definition `owners[i]`. */
  ghost predicate Numbering(g: Graph, owners: seq<Def>) {
    && (forall i :: 0 <= i < |owners| ==> IsDef(g, owners[i]))
    && (forall i, j :: 0 <= i < j < |owners| ==> owners[i] != owners[j])
  }

  ghost predicate IsBit(owners: seq<Def>, i: nat, d: Def) {
    i < |owners| && owners[i] == d
  }

  ghost function MaskOf(g: Graph, owners: seq<Def>, e: Entry): set<nat>
    requires Numbering(g, owners)
  {
    set i: nat | i < |owners| && EntryOf(g, owners[i]) == e
  }

  /** The definitions that a set of bits stands for. */
  ghost function Decode(owners: seq<Def>, bits: set<nat>): set<Def> {
    set i | i in bits && i < |owners| :: owners[i]
  }

  /** The entry's bit and mask, and its assignments in the blocks of `done`. */
  ghost predicate Listed(g: Graph, owners: seq<Def>, a: AssignmentList, e: Entry, bits: map<(Block, nat), nat>)
    requires Numbering(g, owners)
  {
    && IsBit(owners, a.bit, Start(e))
    && a.mask == MaskOf(g, owners, e)
    && (forall s <- a.stats :: s in bits && s.0 < |g.stats| && s.1 < |g.stats[s.0]| && g.stats[s.0][s.1].entry == e)
    && (forall s <- bits.Keys :: s.0 < |g.stats| && s.1 < |g.stats[s.0]| && g.stats[s.0][s.1].entry == e ==>
        s in a.stats)
  }

  ghost predicate Numbered(g: Graph, owners: seq<Def>, assmts: map<Entry, AssignmentList>,
                           bits: map<(Block, nat), nat>) {
    && Numbering(g, owners)
    && (forall e {:trigger Listed(g, owners, assmts[e], e, bits)} | e in assmts ::
        Listed(g, owners, assmts[e], e, bits))
    && OwnersKnown(g, owners, assmts, bits)
  }

  ghost predicate OwnersKnown(g: Graph, owners: seq<Def>, assmts: map<Entry, AssignmentList>,
                              bits: map<(Block, nat), nat>)
    requires Numbering(g, owners)
  {
    && (forall s <- bits.Keys :: IsBit(owners, bits[s], Stat(s.0, s.1)))
    && (forall i :: 0 <= i < |owners| ==>
          match owners[i]
          case Start(e) => e in assmts
          case Stat(b, k) => (b, k) in bits && g.stats[b][k].entry in assmts)
  }

  /** The masks of the entries split up the bits: every bit is in exactly one of them. */
  lemma MasksPartition(g: Graph, owners: seq<Def>, assmts: map<Entry, AssignmentList>, bits: map<(Block, nat), nat>,
                       i: nat)
    requires Numbered(g, owners, assmts, bits) && i < |owners|
    ensures EntryOf(g, owners[i]) in assmts
    ensures forall e <- assmts :: i in assmts[e].mask <==> e == EntryOf(g, owners[i])
  {
    var d := owners[i];
    assert if d.Start? then d.entry in assmts
      else (d.block, d.index) in bits && g.stats[d.block][d.index].entry in assmts;
    forall e | e in assmts ensures i in assmts[e].mask <==> e == EntryOf(g, d) {
      assert Listed(g, owners, assmts[e], e, bits);
    }
  }

  method NumberEntries(entries: set<Entry>, ghost g: Graph)
    returns (assmts: map<Entry, AssignmentList>, bit: nat, ghost owners: seq<Def>)
    ensures Numbered(g, owners, assmts, map[]) && assmts.Keys == entries && bit == |owners|
  {
    assmts, bit, owners := map[], 0, [];
    var todo := entries;
    while todo != {}
      invariant todo <= entries && assmts.Keys == entries - todo && bit == |owners|
      invariant Numbered(g, owners, assmts, map[])
    {
      var entry :| entry in todo;
      todo := todo - {entry};
      EntryNumbered(g, owners, assmts, entry);
      assmts := assmts[entry := AssignmentList(bit, {bit}, [])];
      bit := bit + 1;
      owners := owners + [Start(entry)];
    }
  }

  /** One more entry, with the next bit for being unassigned. */
  lemma EntryNumbered(g: Graph, owners: seq<Def>, assmts: map<Entry, AssignmentList>, entry: Entry)
    requires Numbered(g, owners, assmts, map[]) && entry !in assmts
    ensures Numbered(g, owners + [Start(entry)], assmts[entry := AssignmentList(|owners|, {|owners|}, [])], map[])
  {
    var owners', assmts' := owners + [Start(entry)], assmts[entry := AssignmentList(|owners|, {|owners|}, [])];
    assert Start(entry) !in owners;
    assert Numbering(g, owners');
    forall e | e in assmts' ensures Listed(g, owners', assmts'[e], e, map[]) {
      if e != entry {
        assert Listed(g, owners, assmts[e], e, map[]);
        assert MaskOf(g, owners', e) == MaskOf(g, owners, e);
      }
    }
  }

  lemma NumberingStep(g: Graph, owners: seq<Def>, bits: map<(Block, nat), nat>, b: Block, k: nat)
    requires Numbering(g, owners) && IsDef(g, Stat(b, k)) && (b, k) !in bits
    requires forall i :: 0 <= i < |owners| ==> owners[i].Stat? ==> (owners[i].block, owners[i].index) in bits
    ensures Numbering(g, owners + [Stat(b, k)])
  {
  }

  lemma ListedStep(g: Graph, owners: seq<Def>, a: AssignmentList, e: Entry, bits: map<(Block, nat), nat>, b: Block,
                   k: nat)
    requires Numbering(g, owners) && Numbering(g, owners + [Stat(b, k)]) && IsDef(g, Stat(b, k))
    requires Listed(g, owners, a, e, bits) && g.stats[b][k].entry == e
    ensures Listed(g, owners + [Stat(b, k)], AssignmentList(a.bit, a.mask + {|owners|}, a.stats + [(b, k)]), e,
                   bits[(b, k) := |owners|])
  {
    var stats := a.stats + [(b, k)];
    assert stats[|a.stats|] == (b, k);
    forall s | s in a.stats ensures s in stats {
      var i :| 0 <= i < |a.stats| && a.stats[i] == s;
      assert stats[i] == s;
    }
  }

  lemma ListedOther(g: Graph, owners: seq<Def>, a: AssignmentList, e: Entry, bits: map<(Block, nat), nat>, b: Block,
                    k: nat)
    requires Numbering(g, owners) && Numbering(g, owners + [Stat(b, k)]) && IsDef(g, Stat(b, k))
    requires Listed(g, owners, a, e, bits) && g.stats[b][k].entry != e
    ensures Listed(g, owners + [Stat(b, k)], a, e, bits[(b, k) := |owners|])
  {
  }

  lemma OwnersKnownStep(g: Graph, owners: seq<Def>, assmts: map<Entry, AssignmentList>,
                        assmts': map<Entry, AssignmentList>, bits: map<(Block, nat), nat>, b: Block, k: nat)
    requires Numbering(g, owners) && Numbering(g, owners + [Stat(b, k)]) && IsDef(g, Stat(b, k))
    requires OwnersKnown(g, owners, assmts, bits) && g.stats[b][k].entry in assmts && assmts.Keys == assmts'.Keys
    ensures OwnersKnown(g, owners + [Stat(b, k)], assmts', bits[(b, k) := |owners|])
  {
  }

  lemma NumberedStep(g: Graph, owners: seq<Def>, assmts: map<Entry, AssignmentList>, bits: map<(Block, nat), nat>,
                     b: Block, k: nat, e: Entry, a: AssignmentList)
    requires Numbered(g, owners, assmts, bits) && IsDef(g, Stat(b, k)) && (b, k) !in bits
    requires g.stats[b][k].entry == e && e in assmts
    requires a == AssignmentList(assmts[e].bit, assmts[e].mask + {|owners|}, assmts[e].stats + [(b, k)])
    ensures Numbered(g, owners + [Stat(b, k)], assmts[e := a], bits[(b, k) := |owners|])
  {
    NumberingStep(g, owners, bits, b, k);
    OwnersKnownStep(g, owners, assmts, assmts[e := a], bits, b, k);
    ListedStep(g, owners, assmts[e], e, bits, b, k);
    forall e' | e' in assmts && e' != e
      ensures Listed(g, owners + [Stat(b, k)], assmts[e'], e', bits[(b, k) := |owners|])
    {
      ListedOther(g, owners, assmts[e'], e', bits, b, k);
    }
  }

  /** Exactly the definitions in the blocks of `done`, and in block `b` those before
      position `k`, have been numbered. */
  ghost predicate NumberedUpTo(g: Graph, bits: map<(Block, nat), nat>, done: set<Block>, b: Block, k: nat) {
    forall c: Block, i: nat :: (c, i) in bits <==> IsDef(g, Stat(c, i)) && (c in done || (c == b && i < k))
  }

  lemma NumberedUpToStep(g: Graph, bits: map<(Block, nat), nat>, done: set<Block>, b: Block, k: nat, bit: nat)
    requires NumberedUpTo(g, bits, done, b, k) && b < |g.stats| && k < |g.stats[b]| && b !in done
    ensures g.stats[b][k].Reference? ==> NumberedUpTo(g, bits, done, b, k + 1)
    ensures !g.stats[b][k].Reference? ==> (b, k) !in bits && NumberedUpTo(g, bits[(b, k) := bit], done, b, k + 1)
  {
  }

  method NumberStats(flow: ControlFlow, assmts0: map<Entry, AssignmentList>, bit0: nat, ghost owners0: seq<Def>)
    returns (assmts: map<Entry, AssignmentList>, bits: map<(Block, nat), nat>, ghost owners: seq<Def>)
    requires flow.Rows() && (forall b <- flow.blocks :: b < |flow.stats|)
    requires Numbered(flow.Snap(), owners0, assmts0, map[]) && assmts0.Keys == flow.entries && bit0 == |owners0|
    ensures Numbered(flow.Snap(), owners, assmts, bits) && assmts.Keys == flow.entries
    ensures NumberedUpTo(flow.Snap(), bits, flow.blocks, ENTRY, 0)
  {
    var bit := bit0;
    assmts, bits, owners := assmts0, map[], owners0;
    var todo := flow.blocks;
    while todo != {}
      invariant todo <= flow.blocks && bit == |owners| && assmts.Keys == flow.entries
      invariant Numbered(flow.Snap(), owners, assmts, bits)
        && NumberedUpTo(flow.Snap(), bits, flow.blocks - todo, ENTRY, 0)
    {
      var block :| block in todo;
      assmts, bits, bit, owners := NumberBlock(flow, block, assmts, bits, bit, owners, flow.blocks - todo);
      assert flow.blocks - todo + {block} == flow.blocks - (todo - {block});
      todo := todo - {block};
    }
    assert flow.blocks - todo == flow.blocks;
  }

  method NumberBlock(flow: ControlFlow, block: Block, assmts0: map<Entry, AssignmentList>,
                     bits0: map<(Block, nat), nat>, bit0: nat, ghost owners0: seq<Def>, ghost done: set<Block>)
    returns (assmts: map<Entry, AssignmentList>, bits: map<(Block, nat), nat>, bit: nat, ghost owners: seq<Def>)
    requires flow.Rows() && block < |flow.stats| && block !in done
    requires Numbered(flow.Snap(), owners0, assmts0, bits0) && assmts0.Keys == flow.entries && bit0 == |owners0|
    requires NumberedUpTo(flow.Snap(), bits0, done, ENTRY, 0)
    ensures Numbered(flow.Snap(), owners, assmts, bits) && assmts.Keys == flow.entries && bit == |owners|
    ensures NumberedUpTo(flow.Snap(), bits, done + {block}, ENTRY, 0)
  {
    ghost var g := flow.Snap();
    assmts, bits, bit, owners := assmts0, bits0, bit0, owners0;
    var stats := flow.stats[block];
    for k := 0 to |stats|
      invariant bit == |owners| && assmts.Keys == flow.entries
      invariant Numbered(g, owners, assmts, bits) && NumberedUpTo(g, bits, done, block, k)
    {
      NumberedUpToStep(g, bits, done, block, k, bit);
      if !stats[k].Reference? {
        assert g.stats[block][k].entry in EntriesOf(g.stats);
        assmts, bits, owners := NumberStat(block, k, stats[k], assmts, bits, bit, g, owners);
        bit := bit + 1;
      }
    }
  }

  /** An assignment or deletion gets the next bit. */
  method NumberStat(block: Block, k: nat, stat: Stat, assmts0: map<Entry, AssignmentList>,
                    bits0: map<(Block, nat), nat>, bit: nat, ghost g: Graph, ghost owners0: seq<Def>)
    returns (assmts: map<Entry, AssignmentList>, bits: map<(Block, nat), nat>, ghost owners: seq<Def>)
    requires Numbered(g, owners0, assmts0, bits0) && bit == |owners0| && IsDef(g, Stat(block, k))
      && (block, k) !in bits0
    requires stat == g.stats[block][k] && stat.entry in assmts0
    ensures Numbered(g, owners, assmts, bits) && owners == owners0 + [Stat(block, k)]
    ensures assmts.Keys == assmts0.Keys && bits == bits0[(block, k) := bit]
  {
    var a := assmts0[stat.entry];
    a := AssignmentList(a.bit, a.mask + {bit}, a.stats + [(block, k)]);
    NumberedStep(g, owners0, assmts0, bits0, block, k, stat.entry, a);
    assmts, bits, owners := assmts0[stat.entry := a], bits0[(block, k) := bit], owners0 + [Stat(block, k)];
  }

  // ------------------------------------------------------------- gen and kill sets

  ghost function GenBits(g: Graph, owners: seq<Def>, b: Block): set<nat>
    requires Numbering(g, owners) && b < |g.stats|
  {
    set i: nat | i < |owners| && Generates(g, b, owners[i])
  }

  ghost function KillBits(g: Graph, owners: seq<Def>, b: Block): set<nat>
    requires Numbering(g, owners) && b < |g.stats|
  {
    set i: nat | i < |owners| && Kills(g, b, owners[i])
  }

  /** The one definition of an entry that a block generates has the bit that the block's
      record leads to. */
  lemma GenBit(g: Graph, owners: seq<Def>, b: Block, e: Entry, bit: nat)
    requires Numbering(g, owners) && ENTRY < b < |g.stats| && e in GenOf(g.stats[b])
    requires IsBit(owners, bit, DefOf(b, e, GenOf(g.stats[b])[e])) && EntryOf(g, owners[bit]) == e
    ensures forall i: nat :: i < |owners| && EntryOf(g, owners[i]) == e ==> (Generates(g, b, owners[i]) <==> i == bit)
  {
  }

  /** The bits of the definitions of all entries but those still to do. */
  ghost predicate BitsSoFar(g: Graph, owners: seq<Def>, b: Block, todo: set<Entry>, iGen: set<nat>, iKill: set<nat>)
    requires Numbering(g, owners) && b < |g.stats|
  {
    && (forall i: nat :: i in iGen <==> i < |owners| && Generates(g, b, owners[i]) && EntryOf(g, owners[i]) !in todo)
    && forall i: nat :: i in iKill <==> i < |owners| && Kills(g, b, owners[i]) && EntryOf(g, owners[i]) !in todo
  }

  lemma BitsOneMore(g: Graph, owners: seq<Def>, b: Block, todo: set<Entry>, iGen: set<nat>, iKill: set<nat>,
                    e: Entry, bit: nat, mask: set<nat>)
    requires Numbering(g, owners) && ENTRY < b < |g.stats| && BitsSoFar(g, owners, b, todo, iGen, iKill)
    requires e in todo && e in GenOf(g.stats[b]) && mask == MaskOf(g, owners, e)
    requires IsBit(owners, bit, DefOf(b, e, GenOf(g.stats[b])[e])) && EntryOf(g, owners[bit]) == e
    ensures BitsSoFar(g, owners, b, todo - {e}, iGen + {bit}, iKill + mask)
  {
    GenBit(g, owners, b, e, bit);
    forall i: nat
      ensures i in iGen + {bit} <==> i < |owners| && Generates(g, b, owners[i]) && EntryOf(g, owners[i]) !in todo - {e}
    {
    }
    forall i: nat
      ensures i in iKill + mask <==> i < |owners| && Kills(g, b, owners[i]) && EntryOf(g, owners[i]) !in todo - {e}
    {
    }
  }

  lemma BitsAllDone(g: Graph, owners: seq<Def>, b: Block, iGen: set<nat>, iKill: set<nat>)
    requires Numbering(g, owners) && b < |g.stats| && BitsSoFar(g, owners, b, {}, iGen, iKill)
    ensures iGen == GenBits(g, owners, b) && iKill == KillBits(g, owners, b)
  {
  }

  lemma BitsAtFirst(g: Graph, owners: seq<Def>, b: Block)
    requires Numbering(g, owners) && ENTRY < b < |g.stats|
    ensures BitsSoFar(g, owners, b, GenOf(g.stats[b]).Keys, {}, {})
  {
  }

  /** The gen and kill sets of one block. */
  method BlockBits(flow: ControlFlow, b: Block, ghost owners: seq<Def>) returns (iGen: set<nat>, iKill: set<nat>)
    requires flow.Rows() && ENTRY < b < |flow.stats| && b in flow.blocks
    requires Numbered(flow.Snap(), owners, flow.assmts, flow.bits) && flow.assmts.Keys == flow.entries
    requires NumberedUpTo(flow.Snap(), flow.bits, flow.blocks, ENTRY, 0)
    ensures iGen == GenBits(flow.Snap(), owners, b) && iKill == KillBits(flow.Snap(), owners, b)
  {
    ghost var g := flow.Snap();
    var made := flow.gen[b];
    iGen, iKill := {}, {};
    var todo := made.Keys;
    BitsAtFirst(g, owners, b);
    while todo != {}
      invariant todo <= made.Keys && BitsSoFar(g, owners, b, todo, iGen, iKill)
    {
      var entry :| entry in todo;
      GenOfEntries(g.stats, b, entry);
      var mask := MaskIn(flow, entry, owners);
      var bit := MadeBit(flow, b, entry, made[entry], owners);
      BitsOneMore(g, owners, b, todo, iGen, iKill, entry, bit, mask);
      todo := todo - {entry};
      iGen, iKill := iGen + {bit}, iKill + mask;
    }
    BitsAllDone(g, owners, b, iGen, iKill);
  }

  method MaskIn(flow: ControlFlow, entry: Entry, ghost owners: seq<Def>) returns (mask: set<nat>)
    requires Numbered(flow.Snap(), owners, flow.assmts, flow.bits) && entry in flow.assmts
    ensures mask == MaskOf(flow.Snap(), owners, entry)
  {
    assert Listed(flow.Snap(), owners, flow.assmts[entry], entry, flow.bits);
    mask := flow.assmts[entry].mask;
  }

  /** The bit that a block's record for an entry leads to. */
  method MadeBit(flow: ControlFlow, b: Block, entry: Entry, made: Generated, ghost owners: seq<Def>) returns (bit: nat)
    requires flow.Rows() && ENTRY < b < |flow.stats| && b in flow.blocks && entry in flow.entries
    requires Numbered(flow.Snap(), owners, flow.assmts, flow.bits) && flow.assmts.Keys == flow.entries
    requires NumberedUpTo(flow.Snap(), flow.bits, flow.blocks, ENTRY, 0)
    requires entry in GenOf(flow.stats[b]) && made == GenOf(flow.stats[b])[entry]
    ensures IsBit(owners, bit, DefOf(b, entry, made)) && EntryOf(flow.Snap(), owners[bit]) == entry
  {
    ghost var g := flow.Snap();
    GenOfRange(g.stats[b], entry);
    match made {
      case Uninitialized =>
        assert Listed(g, owners, flow.assmts[entry], entry, flow.bits);
        bit := flow.assmts[entry].bit;
      case Assigned(k) =>
        assert IsDef(g, Stat(b, k));
        bit := flow.bits[(b, k)];
    }
  }

  lemma {:induction false} GenOfEntry(ss: seq<Stat>, e: Entry) returns (k: nat)
    requires e in GenOf(ss)
    ensures k < |ss| && ss[k].entry == e
  {
    if ss[|ss| - 1].Reference? || ss[|ss| - 1].entry != e {
      k := GenOfEntry(ss[..|ss| - 1], e);
    } else {
      k := |ss| - 1;
    }
  }

  lemma GenOfEntries(stats: seq<seq<Stat>>, b: Block, e: Entry)
    requires b < |stats| && e in GenOf(stats[b])
    ensures e in EntriesOf(stats)
  {
    var k := GenOfEntry(stats[b], e);
    assert stats[b][k].entry == e;
  }

  // -------------------------------------------------------------- initialization

  /** All edges run between the blocks of the graph, or start in the entry block. */
  ghost predicate EdgesInside(flow: ControlFlow)
    reads flow
  {
    && (forall b <- flow.blocks :: ENTRY < b < |flow.stats|)
    && forall b: Block, c: Block {:trigger c in flow.children[b]} ::
         b < |flow.children| && c in flow.children[b] ==> c in flow.blocks && (b in flow.blocks || b == ENTRY)
  }

  /** The gen and kill rows are those of the numbered definitions. */
  ghost predicate Initialized(flow: ControlFlow, owners: seq<Def>)
    reads flow
  {
    && flow.Rows() && EdgesInside(flow) && AllNumbered(flow, owners)
    && |flow.iInput| == |flow.iOutput| == |flow.stats|
    && BitRows(flow.Snap(), owners, flow.blocks, flow.iGen, flow.iKill)
  }

  ghost predicate AllNumbered(flow: ControlFlow, owners: seq<Def>)
    reads flow
  {
    && Numbered(flow.Snap(), owners, flow.assmts, flow.bits) && flow.assmts.Keys == flow.entries
    && NumberedUpTo(flow.Snap(), flow.bits, flow.blocks, ENTRY, 0)
  }

  ghost predicate BitRows(g: Graph, owners: seq<Def>, blocks: set<Block>, iGen: seq<set<nat>>, iKill: seq<set<nat>>)
    requires Numbering(g, owners) && (forall b <- blocks :: b < |g.stats|)
  {
    && |iGen| == |iKill| == |g.stats| > ENTRY
    && forall b <- blocks + {ENTRY} :: iGen[b] == GenBits(g, owners, b) && iKill[b] == KillBits(g, owners, b)
  }

  method Initialize(flow: ControlFlow) returns (ghost owners: seq<Def>)
    requires flow.Rows() && EdgesInside(flow)
    modifies flow`assmts, flow`bits, flow`iGen, flow`iKill, flow`iInput, flow`iOutput
    ensures Initialized(flow, owners) && flow.iOutput == flow.iGen
  {
    owners := Number(flow);
    ghost var g := flow.Snap();
    var iGen, iKill := AllBits(flow, owners);
    flow.iGen, flow.iKill, flow.iOutput := iGen, iKill, iGen;
    flow.iInput := seq(|flow.stats|, _ => {});
    assert flow.Snap() == g;
  }

  /** Gives every entry and every definition its bit. */
  method Number(flow: ControlFlow) returns (ghost owners: seq<Def>)
    requires flow.Rows() && EdgesInside(flow)
    modifies flow`assmts, flow`bits
    ensures flow.Rows() && EdgesInside(flow) && AllNumbered(flow, owners)
  {
    ghost var g := flow.Snap();
    var assmts, bits, bit;
    assmts, bit, owners := NumberEntries(flow.entries, g);
    assmts, bits, owners := NumberStats(flow, assmts, bit, owners);
    flow.assmts, flow.bits := assmts, bits;
    assert flow.Snap() == g;
  }

  /** The gen and kill rows of all blocks and of the entry block. */
  method AllBits(flow: ControlFlow, ghost owners: seq<Def>) returns (iGen: seq<set<nat>>, iKill: seq<set<nat>>)
    requires flow.Rows() && (forall b <- flow.blocks :: ENTRY < b < |flow.stats|)
    requires AllNumbered(flow, owners)
    ensures BitRows(flow.Snap(), owners, flow.blocks, iGen, iKill)
  {
    iGen, iKill := seq(|flow.stats|, _ => {}), seq(|flow.stats|, _ => {});
    var todo := flow.blocks;
    while todo != {}
      invariant todo <= flow.blocks && |iGen| == |iKill| == |flow.stats| && iGen[ENTRY] == iKill[ENTRY] == {}
      invariant forall b <- flow.blocks - todo ::
        iGen[b] == GenBits(flow.Snap(), owners, b) && iKill[b] == KillBits(flow.Snap(), owners, b)
    {
      var block :| block in todo;
      todo := todo - {block};
      var gen, kill := BlockBits(flow, block, owners);
      iGen, iKill := iGen[block := gen], iKill[block := kill];
    }
    var gen := EntryBits(flow, owners);
    iGen := iGen[ENTRY := gen];
  }

  /** The entry block generates the bit of every unassigned entry. */
  method EntryBits(flow: ControlFlow, ghost owners: seq<Def>) returns (iGen: set<nat>)
    requires flow.Rows() && Numbered(flow.Snap(), owners, flow.assmts, flow.bits) && flow.assmts.Keys == flow.entries
    ensures iGen == GenBits(flow.Snap(), owners, ENTRY)
  {
    iGen := {};
    var todo := flow.entries;
    while todo != {}
      invariant todo <= flow.entries
      invariant forall i: nat :: i in iGen <==> i < |owners| && owners[i].Start? && owners[i].entry !in todo
    {
      var entry :| entry in todo;
      todo := todo - {entry};
      assert Listed(flow.Snap(), owners, flow.assmts[entry], entry, flow.bits);
      iGen := iGen + {flow.assmts[entry].bit};
    }
  }

  // -------------------------------------------------------------------- fixpoint

  ghost predicate FromParent(outs: seq<set<nat>>, ps: set<Block>, i: nat) {
    exists p <- ps :: p < |outs| && i in outs[p]
  }

  /** The bits still missing from the outputs: what the iteration uses up. */
  ghost function Missing(blocks: set<Block>, n: nat, outs: seq<set<nat>>): set<(Block, nat)> {
    set b, i | b in blocks && 0 <= i < n && b < |outs| && i !in outs[b] :: (b, i)
  }

  lemma MissingShrinks(blocks: set<Block>, n: nat, outs: seq<set<nat>>, outs': seq<set<nat>>, b: Block)
    requires |outs| == |outs'| && (forall c <- blocks :: c < |outs|) && b in blocks
    requires forall c <- blocks :: outs[c] <= outs'[c]
    requires outs[b] != outs'[b] && (forall i <- outs'[b] :: i < n)
    ensures Missing(blocks, n, outs') < Missing(blocks, n, outs)
  {
    var i :| i in outs'[b] && i !in outs[b];
    assert (b, i) in Missing(blocks, n, outs) && (b, i) !in Missing(blocks, n, outs');
    forall x | x in Missing(blocks, n, outs') ensures x in Missing(blocks, n, outs) {
    }
  }

  /** The dataflow problem: the graph with its numbered definitions and its rows. */
  datatype Problem = Problem(g: Graph, owners: seq<Def>, blocks: set<Block>, parents: seq<set<Block>>,
                             gens: seq<set<nat>>, kills: seq<set<nat>>)

  ghost predicate WellPosed(q: Problem) {
    && WellFormed(q.g) && Numbering(q.g, q.owners)
    && (forall b <- q.blocks :: ENTRY < b < |q.g.stats|)
    && BitRows(q.g, q.owners, q.blocks, q.gens, q.kills)
    && |q.parents| == |q.g.stats|
    && (forall b: Block, p: Block {:trigger p in q.parents[b]} :: b < |q.parents| && p in q.parents[b] ==>
          p < |q.g.stats| && b in q.g.children[p] && b in q.blocks && (p in q.blocks || p == ENTRY))
    && (forall p: Block, b: Block {:trigger b in q.g.children[p]} :: p < |q.g.children| && b in q.g.children[p] ==>
        p in q.parents[b])
  }

  function Output(q: Problem, b: Block, input: set<nat>): set<nat>
    requires b < |q.gens| && b < |q.kills|
  {
    (input - q.kills[b]) + q.gens[b]
  }

  ghost predicate IsInput(q: Problem, outs: seq<set<nat>>, b: Block, input: set<nat>)
    requires b < |q.parents|
  {
    forall i: nat :: i in input <==> FromParent(outs, q.parents[b], i)
  }

  /** Every bit in an output stands for a definition that leaves the block, and no output
      is ahead of its parents. */
  ghost predicate Sound(q: Problem, outs: seq<set<nat>>)
    requires WellPosed(q)
  {
    && |outs| == |q.g.stats| && outs[ENTRY] == q.gens[ENTRY]
    && (forall b, i {:trigger i in outs[b]} :: b in q.blocks + {ENTRY} && i in outs[b] ==>
          i < |q.owners| && Leaves(q.g, q.owners[i], b))
    && (forall b <- q.blocks :: q.gens[b] <= outs[b])
    && (forall b: Block, i: nat :: NotAhead(q, outs, b, i))
  }

  ghost predicate NotAhead(q: Problem, outs: seq<set<nat>>, b: Block, i: nat)
    requires WellPosed(q) && |outs| == |q.g.stats|
  {
    b in q.blocks && i in outs[b] ==> i in q.gens[b] || (i !in q.kills[b] && FromParent(outs, q.parents[b], i))
  }

  lemma SoundStart(q: Problem)
    requires WellPosed(q)
    ensures Sound(q, q.gens)
  {
  }

  lemma FromParentGrows(outs: seq<set<nat>>, outs': seq<set<nat>>, ps: set<Block>, i: nat)
    requires FromParent(outs, ps, i) && |outs| == |outs'|
    requires forall p <- ps :: p < |outs| ==> outs[p] <= outs'[p]
    ensures FromParent(outs', ps, i)
  {
    var p :| p in ps && p < |outs| && i in outs[p];
    assert i in outs'[p];
  }

  /** What comes in at `b` has reached it. */
  lemma InputReaches(q: Problem, outs: seq<set<nat>>, b: Block, input: set<nat>, i: nat)
    requires WellPosed(q) && Sound(q, outs) && b in q.blocks && IsInput(q, outs, b, input) && i in input
    ensures i < |q.owners| && ReachesDef(q.g, q.owners[i], b)
  {
    var p :| p in q.parents[b] && p < |outs| && i in outs[p];
    LeavesReaches(q.g, q.owners[i], p, b);
  }

  lemma SoundStep(q: Problem, outs: seq<set<nat>>, b: Block, input: set<nat>)
    requires WellPosed(q) && Sound(q, outs) && b in q.blocks && IsInput(q, outs, b, input)
    ensures outs[b] <= Output(q, b, input) && Sound(q, outs[b := Output(q, b, input)])
  {
    var out := Output(q, b, input);
    var outs' := outs[b := out];
    forall i | i in outs[b] ensures i in out {
      assert NotAhead(q, outs, b, i);
    }
    forall c, i {:trigger i in outs'[c]} | c in q.blocks + {ENTRY} && i in outs'[c]
      ensures i < |q.owners| && Leaves(q.g, q.owners[i], c)
    {
      if c == b && i in input {
        InputReaches(q, outs, b, input, i);
      }
    }
    forall c: Block, i: nat ensures NotAhead(q, outs', c, i) {
      if c in q.blocks && i in outs'[c] && i !in q.gens[c] {
        assert NotAhead(q, outs, c, i);
        FromParentGrows(outs, outs', q.parents[c], i);
      }
    }
  }

  /** All equations hold at `b`. */
  ghost predicate Settled(q: Problem, ins: seq<set<nat>>, outs: seq<set<nat>>, b: Block)
    requires WellPosed(q) && b in q.blocks && |ins| == |outs| == |q.g.stats|
  {
    IsInput(q, outs, b, ins[b]) && outs[b] == Output(q, b, ins[b])
  }

  /** A solution of the dataflow equations. */
  ghost predicate Solution(q: Problem, ins: seq<set<nat>>, outs: seq<set<nat>>)
    requires WellPosed(q)
  {
    && |ins| == |outs| == |q.g.stats| && outs[ENTRY] == q.gens[ENTRY]
    && forall b <- q.blocks :: Settled(q, ins, outs, b)
  }

  /** Once all equations hold, a definition that a path carries to a block is there. */
  lemma {:induction false} SettledComplete(q: Problem, ins: seq<set<nat>>, outs: seq<set<nat>>, p: seq<Block>, i: nat)
    requires WellPosed(q) && Solution(q, ins, outs) && i < |q.owners|
    requires Carries(q.g, q.owners[i], p)
    ensures p[|p| - 1] in q.blocks && i in ins[p[|p| - 1]]
  {
    var a, b := p[|p| - 2], p[|p| - 1];
    assert b in q.g.children[a];
    assert a in q.parents[b];
    if |p| > 2 {
      assert Carries(q.g, q.owners[i], p[..|p| - 1]);
      SettledComplete(q, ins, outs, p[..|p| - 1], i);
      assert Settled(q, ins, outs, a);
      assert i !in q.kills[a];
    } else {
      assert i in q.gens[a];
    }
    assert i in outs[a];
    assert Settled(q, ins, outs, b);
    assert FromParent(outs, q.parents[b], i);
  }

  /** The fixpoint is the set of definitions that some path carries to the block. */
  ghost predicate Solved(q: Problem, ins: seq<set<nat>>, outs: seq<set<nat>>)
    requires WellPosed(q)
  {
    && |ins| == |outs| == |q.g.stats|
    && forall b <- q.blocks ::
         && outs[b] == Output(q, b, ins[b])
         && forall i: nat :: i in ins[b] <==> i < |q.owners| && ReachesDef(q.g, q.owners[i], b)
  }

  lemma SettledSolves(q: Problem, ins: seq<set<nat>>, outs: seq<set<nat>>)
    requires WellPosed(q) && Sound(q, outs) && Solution(q, ins, outs)
    ensures Solved(q, ins, outs)
  {
    forall b, i: nat | b in q.blocks
      ensures i in ins[b] <==> i < |q.owners| && ReachesDef(q.g, q.owners[i], b)
    {
      assert Settled(q, ins, outs, b);
      if i in ins[b] {
        InputReaches(q, outs, b, ins[b], i);
      }
      if i < |q.owners| && ReachesDef(q.g, q.owners[i], b) {
        var p :| Carries(q.g, q.owners[i], p) && p[|p| - 1] == b;
        SettledComplete(q, ins, outs, p, i);
      }
    }
  }

  predicate Below(blocks: set<Block>, s: seq<set<nat>>, t: seq<set<nat>>) {
    forall b <- blocks :: b < |s| && b < |t| && s[b] <= t[b]
  }

  /** A solution of the equations that is below every solution of them. */
  ghost predicate LeastSolution(q: Problem, ins: seq<set<nat>>, outs: seq<set<nat>>)
    requires WellPosed(q)
  {
    && Solution(q, ins, outs)
    && forall ins', outs' :: Solution(q, ins', outs') ==> Below(q.blocks, ins, ins') && Below(q.blocks, outs, outs')
  }

  /** Of all the solutions the one that the paths make up is the least. */
  lemma SolvedIsLeast(q: Problem, ins: seq<set<nat>>, outs: seq<set<nat>>)
    requires WellPosed(q) && Solution(q, ins, outs) && Solved(q, ins, outs)
    ensures LeastSolution(q, ins, outs)
  {
    forall ins', outs' | Solution(q, ins', outs') ensures Below(q.blocks, ins, ins') && Below(q.blocks, outs, outs') {
      SolvedIsBelow(q, ins, outs, ins', outs');
    }
  }

  lemma SolvedIsBelow(q: Problem, ins: seq<set<nat>>, outs: seq<set<nat>>, ins': seq<set<nat>>, outs': seq<set<nat>>)
    requires WellPosed(q) && Solved(q, ins, outs) && Solution(q, ins', outs')
    ensures Below(q.blocks, ins, ins') && Below(q.blocks, outs, outs')
  {
    forall b | b in q.blocks ensures b < |ins| && b < |ins'| && ins[b] <= ins'[b] && outs[b] <= outs'[b] {
      SolvedIsBelowAt(q, ins, outs, ins', outs', b);
    }
  }

  lemma SolvedIsBelowAt(q: Problem, ins: seq<set<nat>>, outs: seq<set<nat>>, ins': seq<set<nat>>, outs': seq<set<nat>>,
                        b: Block)
    requires WellPosed(q) && Solved(q, ins, outs) && Solution(q, ins', outs') && b in q.blocks
    ensures ins[b] <= ins'[b] && outs[b] <= outs'[b]
  {
    forall i | i in ins[b] ensures i in ins'[b] {
      var p :| Carries(q.g, q.owners[i], p) && p[|p| - 1] == b;
      SettledComplete(q, ins', outs', p, i);
    }
    assert Settled(q, ins', outs', b);
  }

  ghost function ProblemOf(flow: ControlFlow, owners: seq<Def>): Problem
    reads flow
  {
    Problem(flow.Snap(), owners, flow.blocks, flow.parents, flow.iGen, flow.iKill)
  }

  lemma InitializedIsWellPosed(flow: ControlFlow, owners: seq<Def>)
    requires Initialized(flow, owners)
    ensures WellPosed(ProblemOf(flow, owners))
  {
    var g := flow.Snap();
    forall b: Block, p: Block {:trigger p in flow.parents[b]} | b < |flow.parents|
      ensures p in flow.parents[b] <==> p < |flow.children| && b in flow.children[p]
    {
      assert flow.parents[b] == set a: Block | a < |flow.children| && b in flow.children[a];
    }
  }

  method InputOf(flow: ControlFlow, block: Block) returns (iInput: set<nat>)
    requires block < |flow.parents| && (forall p <- flow.parents[block] :: p < |flow.iOutput|)
    ensures forall i: nat :: i in iInput <==> FromParent(flow.iOutput, flow.parents[block], i)
  {
    iInput := {};
    var todo := flow.parents[block];
    while todo != {}
      invariant todo <= flow.parents[block]
      invariant forall i: nat :: i in iInput <==> FromParent(flow.iOutput, flow.parents[block] - todo, i)
    {
      var parent :| parent in todo;
      todo := todo - {parent};
      iInput := iInput + flow.iOutput[parent];
    }
    assert flow.parents[block] - todo == flow.parents[block];
  }

  /** One visit of a block: its input and output are computed anew. */
  method Revise(flow: ControlFlow, block: Block, ghost q: Problem) returns (changed: bool)
    requires WellPosed(q) && block in q.blocks
    requires q.parents == flow.parents && q.gens == flow.iGen && q.kills == flow.iKill
    requires |flow.iInput| == |q.g.stats| && Sound(q, flow.iOutput)
    modifies flow`iInput, flow`iOutput
    ensures Sound(q, flow.iOutput) && |flow.iInput| == |q.g.stats|
    ensures IsInput(q, old(flow.iOutput), block, flow.iInput[block])
    ensures flow.iOutput[block] == Output(q, block, flow.iInput[block])
    ensures flow.iInput == old(flow.iInput)[block := flow.iInput[block]]
    ensures flow.iOutput == old(flow.iOutput)[block := flow.iOutput[block]]
    ensures old(flow.iOutput)[block] <= flow.iOutput[block]
    ensures changed <==> flow.iOutput != old(flow.iOutput)
  {
    var iInput := InputOf(flow, block);
    SoundStep(q, flow.iOutput, block, iInput);
    var iOutput := (iInput - flow.iKill[block]) + flow.iGen[block];
    changed := iOutput != flow.iOutput[block];
    flow.iInput, flow.iOutput := flow.iInput[block := iInput], flow.iOutput[block := iOutput];
  }

  /** One pass over all blocks, in any order. */
  method Pass(flow: ControlFlow, ghost q: Problem) returns (dirty: bool)
    requires WellPosed(q) && q.blocks == flow.blocks
    requires q.parents == flow.parents && q.gens == flow.iGen && q.kills == flow.iKill
    requires |flow.iInput| == |q.g.stats| && Sound(q, flow.iOutput)
    modifies flow`iInput, flow`iOutput
    ensures Sound(q, flow.iOutput) && |flow.iInput| == |q.g.stats|
    ensures if dirty then Missing(q.blocks, |q.owners|, flow.iOutput) < Missing(q.blocks, |q.owners|, old(flow.iOutput))
            else flow.iOutput == old(flow.iOutput) && Solution(q, flow.iInput, flow.iOutput)
  {
    dirty := false;
    var todo := flow.blocks;
    ghost var outs := flow.iOutput;
    while todo != {}
      invariant todo <= q.blocks && Sound(q, flow.iOutput) && |flow.iInput| == |q.g.stats|
      invariant if dirty then Missing(q.blocks, |q.owners|, flow.iOutput) < Missing(q.blocks, |q.owners|, outs)
                else flow.iOutput == outs && forall b <- q.blocks - todo :: Settled(q, flow.iInput, flow.iOutput, b)
    {
      var block :| block in todo;
      todo := todo - {block};
      ghost var before, ins := flow.iOutput, flow.iInput;
      var changed := Revise(flow, block, q);
      if changed {
        MissingShrinks(q.blocks, |q.owners|, before, flow.iOutput, block);
        dirty := true;
      } else if !dirty {
        assert Settled(q, flow.iInput, flow.iOutput, block);
        forall b | b in q.blocks - todo && b != block ensures Settled(q, flow.iInput, flow.iOutput, b) {
          assert Settled(q, ins, before, b);
        }
      }
    }
  }

  method Iterate(flow: ControlFlow, ghost q: Problem)
    requires WellPosed(q) && q.blocks == flow.blocks
    requires q.parents == flow.parents && q.gens == flow.iGen && q.kills == flow.iKill
    requires |flow.iInput| == |q.g.stats| && Sound(q, flow.iOutput)
    modifies flow`iInput, flow`iOutput
    ensures Solved(q, flow.iInput, flow.iOutput) && LeastSolution(q, flow.iInput, flow.iOutput)
  {
    var dirty := true;
    while dirty
      invariant Sound(q, flow.iOutput) && |flow.iInput| == |q.g.stats|
      invariant !dirty ==> Solution(q, flow.iInput, flow.iOutput)
      decreases Missing(q.blocks, |q.owners|, flow.iOutput), dirty
    {
      dirty := Pass(flow, q);
    }
    SettledSolves(q, flow.iInput, flow.iOutput);
    SolvedIsLeast(q, flow.iInput, flow.iOutput);
  }

  method ReachingDefinitions(flow: ControlFlow, ghost owners: seq<Def>)
    requires Initialized(flow, owners) && flow.iOutput == flow.iGen
    modifies flow`iInput, flow`iOutput
    ensures Initialized(flow, owners) && WellPosed(ProblemOf(flow, owners))
    ensures Solved(ProblemOf(flow, owners), flow.iInput, flow.iOutput)
    ensures LeastSolution(ProblemOf(flow, owners), flow.iInput, flow.iOutput)
  {
    InitializedIsWellPosed(flow, owners);
    ghost var q := ProblemOf(flow, owners);
    SoundStart(q);
    Iterate(flow, q);
    assert flow.Snap() == q.g;
    assert ProblemOf(flow, owners) == q;
  }
}

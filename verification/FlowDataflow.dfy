/** Reaching definitions: what it means, over the paths of the graph, that a definition
    reaches a block, and how that decides what a name can hold there. */
module FlowDataflow {
  import opened FlowSyntax
  import opened FlowGraph

  /** What a bit stands for: that an entry is still unassigned, or that it holds what the
      assignment (or deletion) at a position of a block left. */
  datatype Def = Start(entry: Entry) | Stat(block: Block, index: nat)

  predicate IsDef(g: Graph, d: Def) {
    d.Stat? ==> d.block < |g.stats| && d.index < |g.stats[d.block]| && !g.stats[d.block][d.index].Reference?
  }

  function EntryOf(g: Graph, d: Def): Entry
    requires IsDef(g, d)
  {
    if d.Start? then d.entry else g.stats[d.block][d.index].entry
  }

  /** The definition that a block's record for an entry stands for. */
  function DefOf(b: Block, entry: Entry, made: Generated): Def {
    match made
    case Assigned(index) => Stat(b, index)
    case Uninitialized => Start(entry)
  }

  predicate Generates(g: Graph, b: Block, d: Def)
    requires b < |g.stats| && IsDef(g, d)
  {
    if b == ENTRY then d.Start?
    else EntryOf(g, d) in GenOf(g.stats[b]) && d == DefOf(b, EntryOf(g, d), GenOf(g.stats[b])[EntryOf(g, d)])
  }

  predicate Kills(g: Graph, b: Block, d: Def)
    requires b < |g.stats| && IsDef(g, d)
  {
    b != ENTRY && EntryOf(g, d) in GenOf(g.stats[b])
  }

  /** A path from a block that generates `d`, with no block in between that kills it. */
  ghost predicate Carries(g: Graph, d: Def, p: seq<Block>) {
    && IsDef(g, d) && IsPath(g, p) && |p| >= 2
    && Generates(g, p[0], d)
    && forall i :: 0 < i < |p| - 1 ==> !Kills(g, p[i], d)
  }

  ghost predicate ReachesDef(g: Graph, d: Def, b: Block) {
    exists p :: Carries(g, d, p) && p[|p| - 1] == b
  }

  /** The definition leaves block `b`: it is made there, or gets through it. */
  ghost predicate Leaves(g: Graph, d: Def, b: Block) {
    && IsDef(g, d) && b < |g.stats|
    && (Generates(g, b, d) || (ReachesDef(g, d, b) && !Kills(g, b, d)))
  }

  lemma LeavesReaches(g: Graph, d: Def, b: Block, c: Block)
    requires WellFormed(g) && Leaves(g, d, b) && c in g.children[b]
    ensures ReachesDef(g, d, c)
  {
    if Generates(g, b, d) {
      assert Carries(g, d, [b, c]);
    } else {
      var p :| Carries(g, d, p) && p[|p| - 1] == b;
      assert Carries(g, d, p + [c]);
    }
  }

  // ------------------------------------------------ records, bits, and what they say

  lemma {:induction false} GenOfRange(ss: seq<Stat>, e: Entry)
    ensures e in GenOf(ss) && GenOf(ss)[e].Assigned? ==>
      GenOf(ss)[e].index < |ss| && ss[GenOf(ss)[e].index].Assignment? && ss[GenOf(ss)[e].index].entry == e
  {
    if ss != [] {
      GenOfRange(ss[..|ss| - 1], e);
    }
  }

  /** The record of a list of statements says what they do to each entry. */
  lemma {:induction false} GenOfApplies(ss: seq<Stat>, e: Entry, st: State)
    ensures var after := ApplyAll(ss, st);
      if e !in GenOf(ss) then (e in after <==> e in st) && (e in st ==> after[e] == st[e])
      else match GenOf(ss)[e]
        case Assigned(k) => k < |ss| && e in after && ss[k] == Assignment(after[e], e)
        case Uninitialized => e !in after
  {
    if ss != [] {
      GenOfApplies(ss[..|ss| - 1], e, st);
    }
  }

  /** The definition `d` accounts for what entry `e` holds in state `st`. */
  predicate Accounts(g: Graph, d: Def, e: Entry, st: State) {
    if e in st then d.Stat? && IsDef(g, d) && g.stats[d.block][d.index] == Assignment(st[e], e)
    else d == Start(e)
  }

  /** Whatever an entry holds when a path enters a block, a definition that accounts for
      it reaches the block along the path. */
  lemma {:induction false} PathAccounts(g: Graph, p: seq<Block>, e: Entry) returns (d: Def)
    requires WellFormed(g) && IsPath(g, p) && p[0] == ENTRY && |p| >= 2 && g.stats[ENTRY] == []
    requires forall b: Block, c: Block {:trigger c in g.children[b]} :: b < |g.children| && c in g.children[b] ==>
      c != ENTRY
    ensures Accounts(g, d, e, PathState(g, p)) && IsDef(g, d) && EntryOf(g, d) == e
    ensures ReachesDef(g, d, p[|p| - 1])
  {
    var q := p[..|p| - 1];
    var a, b := p[|p| - 2], p[|p| - 1];
    if |q| == 1 {
      d := Start(e);
      assert PathState(g, p) == ApplyAll(g.stats[ENTRY], PathState(g, q)) == map[];
      assert Carries(g, d, [ENTRY, b]);
    } else {
      GenOfRange(g.stats[a], e);
      GenOfApplies(g.stats[a], e, PathState(g, q));
      assert a in g.children[p[|p| - 3]];
      if e in GenOf(g.stats[a]) {
        d := DefOf(a, e, GenOf(g.stats[a])[e]);
        assert Carries(g, d, [a, b]);
      } else {
        d := PathAccounts(g, q, e);
        assert Leaves(g, d, a);
        LeavesReaches(g, d, a, b);
      }
    }
  }

  /** Which definitions can be in force at a position inside a block: those that reach
      the block, with what stands before the position applied. */
  function Replay(g: Graph, b: Block, k: nat, entering: set<Def>): set<Def>
    requires b < |g.stats| && k <= |g.stats[b]|
    requires forall d <- entering :: IsDef(g, d)
    ensures forall d <- Replay(g, b, k, entering) :: IsDef(g, d)
  {
    if k == 0 then entering
    else
      var before := Replay(g, b, k - 1, entering);
      var s := g.stats[b][k - 1];
      match s
      case Reference(_, _) => before
      case Assignment(_, entry) => (set d | d in before && EntryOf(g, d) != entry) + {Stat(b, k - 1)}
      case Deletion(_, entry) => (set d | d in before && EntryOf(g, d) != entry) + {Start(entry)}
  }

  /** The replay of a block ends in what leaves it. */
  lemma {:induction false} ReplayLeaves(g: Graph, b: Block, k: nat, entering: set<Def>, d: Def)
    requires b < |g.stats| && k <= |g.stats[b]| && IsDef(g, d)
    requires forall d <- entering :: IsDef(g, d)
    ensures var gen := GenOf(g.stats[b][..k]);
      d in Replay(g, b, k, entering) <==>
        if EntryOf(g, d) in gen then d == DefOf(b, EntryOf(g, d), gen[EntryOf(g, d)]) else d in entering
  {
    if k > 0 {
      ReplayLeaves(g, b, k - 1, entering, d);
      assert g.stats[b][..k][..k - 1] == g.stats[b][..k - 1];
      GenOfRange(g.stats[b][..k - 1], EntryOf(g, d));
    } else {
      assert g.stats[b][..0] == [];
    }
  }

  /** What an entry holds at a position that a path reaches is accounted for there. */
  lemma {:induction false} ReplayAccounts(g: Graph, b: Block, k: nat, entering: set<Def>, e: Entry, s: State, d: Def)
    returns (d': Def)
    requires b < |g.stats| && k <= |g.stats[b]|
    requires forall d <- entering :: IsDef(g, d)
    requires d in entering && IsDef(g, d) && EntryOf(g, d) == e && Accounts(g, d, e, s)
    ensures d' in Replay(g, b, k, entering) && EntryOf(g, d') == e
    ensures Accounts(g, d', e, ApplyAll(g.stats[b][..k], s))
  {
    if k == 0 {
      assert g.stats[b][..0] == [];
      d' := d;
    } else {
      var before := ReplayAccounts(g, b, k - 1, entering, e, s, d);
      assert g.stats[b][..k][..k - 1] == g.stats[b][..k - 1];
      d' := match g.stats[b][k - 1]
        case Reference(_, _) => before
        case Assignment(_, entry) => if entry == e then Stat(b, k - 1) else before
        case Deletion(_, entry) => if entry == e then Start(e) else before;
    }
  }
}

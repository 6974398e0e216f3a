/** What is recorded for a name is exactly what the paths of the graph, as it was built,
    carry there. */
module FlowExact {
  import opened FlowSyntax
  import opened FlowGraph
  import opened FlowSimulation
  import opened ControlFlow
  import opened FlowContraction
  import opened FlowContractedDefs
  import opened FlowDataflow
  import opened FlowReaching
  import opened FlowCheck

  /** Some path from the entry block carries the definition to the block. */
  ghost predicate OnPath(g: Graph, d: Def, b: Block) {
    exists p :: Carries(g, d, p) && Reachable(g, p[0]) && p[|p| - 1] == b
  }

  /** The definition can be in force in front of the `k`-th statement of a block. */
  ghost predicate InForce(g: Graph, b: Block, k: nat, d: Def)
    requires b < |g.stats| && k <= |g.stats[b]| && IsDef(g, d)
  {
    var e, gen := EntryOf(g, d), GenOf(g.stats[b][..k]);
    if e in gen then d == DefOf(b, e, gen[e]) else OnPath(g, d, b)
  }

  /** A reachable statement about node `n`. */
  ghost predicate About(g: Graph, b: Block, k: nat, n: NodeId) {
    Reachable(g, b) && InBlock(g, b, k) && NodeOf(g.stats[b][k]) == n
  }

  /** At a statement about node `n` a definition of its entry is in force that `c` describes. */
  ghost predicate Carried(g: Graph, n: NodeId, c: CfDef) {
    exists b, k, d :: About(g, b, k, n) && CarriedThere(g, b, k, d, c)
  }

  ghost predicate CarriedThere(g: Graph, b: Block, k: nat, d: Def, c: CfDef)
    requires InBlock(g, b, k)
  {
    IsDef(g, d) && EntryOf(g, d) == g.stats[b][k].entry && CfOf(g, d) == c && InForce(g, b, k, d)
  }

  ghost predicate ExactRecord(g: Graph, cf: map<NodeId, set<CfDef>>) {
    forall n, c :: c in CfState(cf, n) <==> Carried(g, n, c)
  }

  // ----------------------------------------------------------- from bits to the paths

  /** A path to a block starts in a reachable block: for the sets of blocks of a contraction
      that says the same. */
  lemma OnPathFrom(g: Graph, V: set<Block>, d: Def, b: Block)
    requires forall x: Block :: x in V <==> Reachable(g, x)
    ensures OnPath(g, d, b) <==> ReachesFrom(g, V, d, b)
  {
  }

  /** A definition that a path carries is numbered. */
  lemma CarriedIsOwned(flow: ControlFlow, owners: seq<Def>, g: Graph, V: set<Block>, R: set<Block>, d: Def, b: Block,
                       k: nat)
    requires Initialized(flow, owners) && Contracted(g, flow.Snap(), V, R) && flow.blocks == V - R - {ENTRY}
    requires OnPath(g, d, b) && InBlock(g, b, k) && EntryOf(g, d) == g.stats[b][k].entry
    ensures d in owners
  {
    OwnersAreAll(flow, owners, b, k);
    if d.Stat? {
      CarriedFromKept(g, flow.Snap(), V, R, d, b);
    }
  }

  /** The block that an assignment is carried from is still there. */
  lemma CarriedFromKept(g: Graph, h: Graph, V: set<Block>, R: set<Block>, d: Def, b: Block)
    requires Contracted(g, h, V, R) && OnPath(g, d, b) && d.Stat?
    ensures d.block in V - R - {ENTRY}
  {
    var p :| Carries(g, d, p) && Reachable(g, p[0]) && p[|p| - 1] == b;
    GenOfRange(g.stats[p[0]], EntryOf(g, d));
    assert d.block == p[0];
    if p[0] in R {
      RemovedPass(g, h, V, R, p[0], d);
    }
  }

  lemma OwnersAreAll(flow: ControlFlow, owners: seq<Def>, b: Block, k: nat)
    requires Initialized(flow, owners) && InBlock(flow.Snap(), b, k)
    ensures Start(flow.stats[b][k].entry) in owners
    ensures forall c <- flow.blocks, j: nat :: IsDef(flow.Snap(), Stat(c, j)) ==> Stat(c, j) in owners
  {
    var e := flow.stats[b][k].entry;
    assert e in EntriesOf(flow.stats);
    assert Listed(flow.Snap(), owners, flow.assmts[e], e, flow.bits);
    forall c, j: nat | c in flow.blocks && IsDef(flow.Snap(), Stat(c, j)) ensures Stat(c, j) in owners {
      assert (c, j) in flow.bits;
      assert IsBit(owners, flow.bits[(c, j)], Stat(c, j));
    }
  }

  /** The input bits of a block are the definitions that some path carries to it. */
  lemma EnteringIsOnPath(flow: ControlFlow, owners: seq<Def>, g: Graph, V: set<Block>, R: set<Block>, d: Def, b: Block,
                         k: nat)
    requires Initialized(flow, owners) && WellPosed(ProblemOf(flow, owners))
    requires Solved(ProblemOf(flow, owners), flow.iInput, flow.iOutput)
    requires Contracted(g, flow.Snap(), V, R) && flow.blocks == V - R - {ENTRY} && b in flow.blocks
    requires forall x: Block :: x < |flow.children| && x !in V - R ==> flow.children[x] == {}
    requires IsDef(g, d) && InBlock(g, b, k) && EntryOf(g, d) == g.stats[b][k].entry
    ensures d in Decode(owners, flow.iInput[b]) <==> OnPath(g, d, b)
  {
    var h := flow.Snap();
    OnPathFrom(g, V, d, b);
    ContractionKeepsDefinitions(g, h, V, R, d, b);
    if d in Decode(owners, flow.iInput[b]) {
      var i: nat :| i < |owners| && i in flow.iInput[b] && owners[i] == d;
      assert ReachesDef(h, owners[i], b);
    }
    if OnPath(g, d, b) {
      CarriedIsOwned(flow, owners, g, V, R, d, b, k);
      var i: nat :| i < |owners| && owners[i] == d;
      assert ReachesDef(h, owners[i], b);
      assert i in flow.iInput[b];
    }
  }

  /** So the replay of a block is about the definitions in force. */
  lemma ReplayIsInForce(flow: ControlFlow, owners: seq<Def>, g: Graph, V: set<Block>, R: set<Block>, d: Def, b: Block,
                        k: nat)
    requires Initialized(flow, owners) && WellPosed(ProblemOf(flow, owners))
    requires Solved(ProblemOf(flow, owners), flow.iInput, flow.iOutput)
    requires Contracted(g, flow.Snap(), V, R) && flow.blocks == V - R - {ENTRY} && b in flow.blocks
    requires forall x: Block :: x < |flow.children| && x !in V - R ==> flow.children[x] == {}
    requires AllDefs(flow.Snap(), Decode(owners, flow.iInput[b]))
    requires IsDef(g, d) && InBlock(g, b, k) && EntryOf(g, d) == g.stats[b][k].entry
    ensures d in Replay(flow.Snap(), b, k, Decode(owners, flow.iInput[b])) <==> InForce(g, b, k, d)
  {
    ReplayLeaves(flow.Snap(), b, k, Decode(owners, flow.iInput[b]), d);
    EnteringIsOnPath(flow, owners, g, V, R, d, b, k);
  }

  /** A reachable statement is in a block that is still there. */
  lemma StatementIsKept(g: Graph, h: Graph, V: set<Block>, R: set<Block>, b: Block, k: nat)
    requires Contracted(g, h, V, R) && g.stats[ENTRY] == [] && Reachable(g, b) && InBlock(g, b, k)
    ensures b in V - R - {ENTRY}
  {
    assert g.stats[b] != [];
  }

  lemma SeenIsCarried(flow: ControlFlow, owners: seq<Def>, g: Graph, V: set<Block>, R: set<Block>,
                      b: Block, k: nat, n: NodeId, c: CfDef)
    requires Initialized(flow, owners) && WellPosed(ProblemOf(flow, owners))
    requires Solved(ProblemOf(flow, owners), flow.iInput, flow.iOutput)
    requires Contracted(g, flow.Snap(), V, R) && flow.blocks == V - R - {ENTRY} && b in flow.blocks
    requires forall x: Block :: x < |flow.children| && x !in V - R ==> flow.children[x] == {}
    requires AllDefs(flow.Snap(), Decode(owners, flow.iInput[b])) && InBlock(g, b, k)
    ensures Seen(flow.Snap(), b, k, Decode(owners, flow.iInput[b]), n, c) <==>
      NodeOf(g.stats[b][k]) == n && exists d :: CarriedThere(g, b, k, d, c)
  {
    var entering := Decode(owners, flow.iInput[b]);
    forall d | IsDef(g, d) && EntryOf(g, d) == g.stats[b][k].entry
      ensures d in Replay(flow.Snap(), b, k, entering) <==> InForce(g, b, k, d)
    {
      ReplayIsInForce(flow, owners, g, V, R, d, b, k);
    }
    SeenOrCarried(g, flow.Snap(), b, k, entering, n, c);
  }

  lemma SeenOrCarried(g: Graph, h: Graph, b: Block, k: nat, entering: set<Def>, n: NodeId, c: CfDef)
    requires h.stats == g.stats && InBlock(g, b, k) && AllDefs(h, entering)
    requires forall d | IsDef(g, d) && EntryOf(g, d) == g.stats[b][k].entry ::
      d in Replay(h, b, k, entering) <==> InForce(g, b, k, d)
    ensures Seen(h, b, k, entering, n, c) <==> NodeOf(g.stats[b][k]) == n && exists d :: CarriedThere(g, b, k, d, c)
  {
    if Seen(h, b, k, entering, n, c) {
      var d :| d in Replay(h, b, k, entering) && EntryOf(h, d) == h.stats[b][k].entry && CfOf(h, d) == c;
      assert CarriedThere(g, b, k, d, c);
    }
    if NodeOf(g.stats[b][k]) == n && exists d :: CarriedThere(g, b, k, d, c) {
      var d :| CarriedThere(g, b, k, d, c);
      assert Describes(h, Replay(h, b, k, entering), h.stats[b][k].entry, c);
    }
  }

  /** What is recorded is what is carried, no more and no less. */
  lemma RecordIsExact(flow: ControlFlow, owners: seq<Def>, cf: map<NodeId, set<CfDef>>, g: Graph, V: set<Block>,
                      R: set<Block>)
    requires Initialized(flow, owners) && WellPosed(ProblemOf(flow, owners))
    requires Solved(ProblemOf(flow, owners), flow.iInput, flow.iOutput)
    requires Recorded(flow, owners, flow.blocks, cf)
    requires Contracted(g, flow.Snap(), V, R) && flow.blocks == V - R - {ENTRY} && g.stats[ENTRY] == []
    requires forall x: Block :: x < |flow.children| && x !in V - R ==> flow.children[x] == {}
    ensures ExactRecord(g, cf)
  {
    forall n, c ensures c in CfState(cf, n) <==> Carried(g, n, c) {
      if c in CfState(cf, n) {
        RecordedIsCarried(flow, owners, cf, g, V, R, n, c);
      }
      if Carried(g, n, c) {
        var b, k, d :| About(g, b, k, n) && CarriedThere(g, b, k, d, c);
        StatementIsKept(g, flow.Snap(), V, R, b, k);
        SeenIsCarried(flow, owners, g, V, R, b, k, n, c);
        SeenIsRecorded(flow, owners, cf, b, k, n, c);
      }
    }
  }

  lemma SeenIsRecorded(flow: ControlFlow, owners: seq<Def>, cf: map<NodeId, set<CfDef>>, b: Block, k: nat, n: NodeId,
                       c: CfDef)
    requires Initialized(flow, owners) && Recorded(flow, owners, flow.blocks, cf) && b in flow.blocks
    requires InBlock(flow.Snap(), b, k) && Seen(flow.Snap(), b, k, Decode(owners, flow.iInput[b]), n, c)
    ensures c in CfState(cf, n)
  {
    assert SeenBefore(flow.Snap(), b, |flow.stats[b]|, Decode(owners, flow.iInput[b]), n, c);
    assert SeenIn(flow, owners, flow.blocks, n, c);
  }

  lemma RecordedIsCarried(flow: ControlFlow, owners: seq<Def>, cf: map<NodeId, set<CfDef>>, g: Graph, V: set<Block>,
                          R: set<Block>, n: NodeId, c: CfDef)
    requires Initialized(flow, owners) && WellPosed(ProblemOf(flow, owners))
    requires Solved(ProblemOf(flow, owners), flow.iInput, flow.iOutput)
    requires Recorded(flow, owners, flow.blocks, cf) && c in CfState(cf, n)
    requires Contracted(g, flow.Snap(), V, R) && flow.blocks == V - R - {ENTRY}
    requires forall x: Block :: x < |flow.children| && x !in V - R ==> flow.children[x] == {}
    ensures Carried(g, n, c)
  {
    assert SeenIn(flow, owners, flow.blocks, n, c);
    var b :| b in flow.blocks && SeenBefore(flow.Snap(), b, |flow.stats[b]|, Decode(owners, flow.iInput[b]), n, c);
    var k: nat :| k < |flow.stats[b]| && Seen(flow.Snap(), b, k, Decode(owners, flow.iInput[b]), n, c);
    SeenIsCarried(flow, owners, g, V, R, b, k, n, c);
    var d :| CarriedThere(g, b, k, d, c);
    assert About(g, b, k, n);
  }

  // -------------------------------------------------------------------- unassigned names

  /** Some path leads to a statement about node `n` with its entry unassigned. */
  ghost predicate CanBeUnassigned(g: Graph, n: NodeId) {
    exists b: Block, k: nat, st: State :: About(g, b, k, n) && UnassignedAt(g, b, k, st)
  }

  ghost predicate UnassignedAt(g: Graph, b: Block, k: nat, st: State)
    requires InBlock(g, b, k)
  {
    ReachAt(g, b, k, st) && g.stats[b][k].entry !in st
  }

  /** Along a path that carries it from a state without the entry, the entry stays unassigned. */
  lemma {:induction false} StaysUnassigned(g: Graph, e: Entry, p: seq<Block>, s: State) returns (st: State)
    requires WellFormed(g) && ENTRY < |g.stats| && g.stats[ENTRY] == [] && Carries(g, Start(e), p)
      && ReachIn(g, p[0], s)
    requires p[0] == ENTRY ==> e !in s
    ensures ReachIn(g, p[|p| - 1], st) && e !in st
  {
    var q, a, b := p[..|p| - 1], p[|p| - 2], p[|p| - 1];
    if |q| == 1 {
      st := ApplyAll(g.stats[a], s);
      GenOfApplies(g.stats[a], e, s);
      ReachStep(g, a, b, s);
    } else {
      assert Carries(g, Start(e), q);
      var t := StaysUnassigned(g, e, q, s);
      st := ApplyAll(g.stats[a], t);
      GenOfApplies(g.stats[a], e, t);
      ReachStep(g, a, b, t);
    }
  }

  /** A state without the entry comes from a definition that leaves it unassigned. */
  lemma {:induction false} UnassignedIsCarried(g: Graph, e: Entry, p: seq<Block>)
    requires WellFormed(g) && IsPath(g, p) && p[0] == ENTRY && |p| >= 2 && g.stats[ENTRY] == []
    requires forall b: Block, c: Block {:trigger c in g.children[b]} :: b < |g.children| && c in g.children[b] ==>
      c != ENTRY
    requires e !in PathState(g, p)
    ensures OnPath(g, Start(e), p[|p| - 1])
  {
    var q, a, b := p[..|p| - 1], p[|p| - 2], p[|p| - 1];
    assert IsPath(g, q) && q[|q| - 1] == a;
    if |q| == 1 {
      assert Carries(g, Start(e), [ENTRY, b]);
      assert Reachable(g, [ENTRY, b][0]);
    } else {
      assert a in g.children[p[|p| - 3]];
      GenOfApplies(g.stats[a], e, PathState(g, q));
      if e !in GenOf(g.stats[a]) {
        UnassignedIsCarried(g, e, q);
      }
      assert Reachable(g, a);
      StartGoesOn(g, e, a, b);
    }
  }

  /** From a block that leaves the entry unassigned, or lets that pass, it goes on. */
  lemma StartGoesOn(g: Graph, e: Entry, a: Block, b: Block)
    requires WellFormed(g) && a < |g.stats| && a != ENTRY && b in g.children[a] && Reachable(g, a)
    requires if e in GenOf(g.stats[a]) then GenOf(g.stats[a])[e] == Uninitialized else OnPath(g, Start(e), a)
    ensures OnPath(g, Start(e), b)
  {
    if e in GenOf(g.stats[a]) {
      var r := [a, b];
      assert Carries(g, Start(e), r) && r[0] == a;
    } else {
      var r :| Carries(g, Start(e), r) && Reachable(g, r[0]) && r[|r| - 1] == a;
      CarriedFurther(g, Start(e), r, b);
    }
  }

  lemma CarriedFurther(g: Graph, d: Def, r: seq<Block>, b: Block)
    requires WellFormed(g) && Carries(g, d, r) && b in g.children[r[|r| - 1]] && !Kills(g, r[|r| - 1], d)
    ensures Carries(g, d, r + [b]) && (r + [b])[0] == r[0] && (r + [b])[|r|] == b
  {
  }

  /** Before the `k`-th statement the entry is unassigned if its definition in force says so. */
  lemma UnassignedInForce(g: Graph, b: Block, k: nat) returns (st: State)
    requires WellFormed(g) && ENTRY < |g.stats| && g.stats[ENTRY] == []
    requires Reachable(g, b) && InBlock(g, b, k) && InForce(g, b, k, Start(g.stats[b][k].entry))
    ensures UnassignedAt(g, b, k, st)
  {
    var e, before := g.stats[b][k].entry, g.stats[b][..k];
    var s: State;
    if e in GenOf(before) {
      var p :| IsPath(g, p) && p[0] == ENTRY && p[|p| - 1] == b;
      s := PathState(g, p);
    } else {
      var p :| Carries(g, Start(e), p) && Reachable(g, p[0]) && p[|p| - 1] == b;
      var r :| IsPath(g, r) && r[0] == ENTRY && r[|r| - 1] == p[0];
      var start := if p[0] == ENTRY then [ENTRY] else r;
      assert ReachIn(g, p[0], PathState(g, start));
      s := StaysUnassigned(g, e, p, PathState(g, start));
    }
    GenOfApplies(before, e, s);
    st := ApplyAll(before, s);
  }

  lemma UnassignedIsInForce(g: Graph, b: Block, k: nat, st: State)
    requires WellFormed(g) && ENTRY < |g.stats| && g.stats[ENTRY] == []
    requires forall b: Block, c: Block {:trigger c in g.children[b]} :: b < |g.children| && c in g.children[b] ==>
      c != ENTRY
    requires InBlock(g, b, k) && UnassignedAt(g, b, k, st)
    ensures InForce(g, b, k, Start(g.stats[b][k].entry))
  {
    var e, before := g.stats[b][k].entry, g.stats[b][..k];
    var s :| ReachIn(g, b, s) && st == ApplyAll(before, s);
    GenOfApplies(before, e, s);
    if e !in GenOf(before) {
      var p :| IsPath(g, p) && p[0] == ENTRY && p[|p| - 1] == b && PathState(g, p) == s;
      UnassignedIsCarried(g, e, p);
    }
  }

  /** A name is flagged as possibly unassigned exactly if a path leads to it unassigned. */
  lemma MaybeNullIsExact(g: Graph, cf: map<NodeId, set<CfDef>>, n: NodeId)
    requires WellFormed(g) && ENTRY < |g.stats| && g.stats[ENTRY] == [] && ExactRecord(g, cf)
    requires forall b: Block, c: Block {:trigger c in g.children[b]} :: b < |g.children| && c in g.children[b] ==>
      c != ENTRY
    ensures MaybeNull(CfState(cf, n)) <==> CanBeUnassigned(g, n)
  {
    if MaybeNull(CfState(cf, n)) {
      var b, k, d :| About(g, b, k, n) && CarriedThere(g, b, k, d, CfUninitialized);
      var st := UnassignedInForce(g, b, k);
    }
    if CanBeUnassigned(g, n) {
      var b: Block, k: nat, st: State :| About(g, b, k, n) && UnassignedAt(g, b, k, st);
      UnassignedIsInForce(g, b, k, st);
      assert CarriedThere(g, b, k, Start(g.stats[b][k].entry), CfUninitialized);
      assert Carried(g, n, CfUninitialized);
    }
  }

  // ---------------------------------------------------------------------- assigned names

  /** Some path leads to a statement about node `n` with its entry assigned. */
  ghost predicate CanBeAssigned(g: Graph, n: NodeId) {
    exists b: Block, k: nat, st: State :: About(g, b, k, n) && AssignedAt(g, b, k, st)
  }

  ghost predicate AssignedAt(g: Graph, b: Block, k: nat, st: State)
    requires InBlock(g, b, k)
  {
    ReachAt(g, b, k, st) && g.stats[b][k].entry in st
  }

  /** Along a path that carries an assignment the entry stays assigned. */
  lemma {:induction false} StaysAssigned(g: Graph, d: Def, p: seq<Block>, s: State) returns (st: State)
    requires WellFormed(g) && ENTRY < |g.stats| && g.stats[ENTRY] == [] && d.Stat? && Carries(g, d, p)
      && ReachIn(g, p[0], s)
    ensures ReachIn(g, p[|p| - 1], st) && EntryOf(g, d) in st
  {
    var e, q, a, b := EntryOf(g, d), p[..|p| - 1], p[|p| - 2], p[|p| - 1];
    if |q| == 1 {
      st := ApplyAll(g.stats[a], s);
      GenOfApplies(g.stats[a], e, s);
      ReachStep(g, a, b, s);
    } else {
      assert Carries(g, d, q);
      var t := StaysAssigned(g, d, q, s);
      st := ApplyAll(g.stats[a], t);
      GenOfApplies(g.stats[a], e, t);
      ReachStep(g, a, b, t);
    }
  }

  /** A state with the entry comes from an assignment of it. */
  lemma {:induction false} AssignedIsCarried(g: Graph, e: Entry, p: seq<Block>) returns (d: Def)
    requires WellFormed(g) && IsPath(g, p) && p[0] == ENTRY && g.stats[ENTRY] == [] && e in PathState(g, p)
    requires forall b: Block, c: Block {:trigger c in g.children[b]} :: b < |g.children| && c in g.children[b] ==>
      c != ENTRY
    ensures d.Stat? && IsDef(g, d) && EntryOf(g, d) == e && OnPath(g, d, p[|p| - 1])
  {
    var q, a, b := p[..|p| - 1], p[|p| - 2], p[|p| - 1];
    assert IsPath(g, q) && q[|q| - 1] == a;
    if |q| > 1 {
      assert a in g.children[p[|p| - 3]];
    }
    GenOfApplies(g.stats[a], e, PathState(g, q));
    GenOfRange(g.stats[a], e);
    if e in GenOf(g.stats[a]) {
      d := Stat(a, GenOf(g.stats[a])[e].index);
      assert Carries(g, d, [a, b]) && [a, b][0] == a;
      assert Reachable(g, a);
    } else {
      d := AssignedIsCarried(g, e, q);
      var r :| Carries(g, d, r) && Reachable(g, r[0]) && r[|r| - 1] == a;
      CarriedFurther(g, d, r, b);
    }
  }

  /** A definition in force that is an assignment: the entry can be assigned there. */
  lemma AssignedInForce(g: Graph, b: Block, k: nat, d: Def) returns (st: State)
    requires WellFormed(g) && ENTRY < |g.stats| && g.stats[ENTRY] == [] && Reachable(g, b) && InBlock(g, b, k)
    requires d.Stat? && IsDef(g, d) && EntryOf(g, d) == g.stats[b][k].entry && InForce(g, b, k, d)
    ensures AssignedAt(g, b, k, st)
  {
    var e, before := g.stats[b][k].entry, g.stats[b][..k];
    var s: State;
    if e in GenOf(before) {
      var p :| IsPath(g, p) && p[0] == ENTRY && p[|p| - 1] == b;
      s := PathState(g, p);
    } else {
      var p :| Carries(g, d, p) && Reachable(g, p[0]) && p[|p| - 1] == b;
      var r :| IsPath(g, r) && r[0] == ENTRY && r[|r| - 1] == p[0];
      s := StaysAssigned(g, d, p, PathState(g, r));
    }
    GenOfApplies(before, e, s);
    st := ApplyAll(before, s);
  }

  lemma AssignedIsInForce(g: Graph, b: Block, k: nat, st: State) returns (d: Def)
    requires WellFormed(g) && ENTRY < |g.stats| && g.stats[ENTRY] == []
    requires forall b: Block, c: Block {:trigger c in g.children[b]} :: b < |g.children| && c in g.children[b] ==>
      c != ENTRY
    requires InBlock(g, b, k) && AssignedAt(g, b, k, st)
    ensures d.Stat? && IsDef(g, d) && EntryOf(g, d) == g.stats[b][k].entry && InForce(g, b, k, d)
  {
    var e, before := g.stats[b][k].entry, g.stats[b][..k];
    var s :| ReachIn(g, b, s) && st == ApplyAll(before, s);
    GenOfApplies(before, e, s);
    GenOfRange(before, e);
    if e in GenOf(before) {
      d := Stat(b, GenOf(before)[e].index);
    } else {
      var p :| IsPath(g, p) && p[0] == ENTRY && p[|p| - 1] == b && PathState(g, p) == s;
      d := AssignedIsCarried(g, e, p);
    }
  }

  /** A name is flagged as unassigned exactly if a path leads to it unassigned and none leads
      to it assigned. */
  lemma IsNullIsExact(g: Graph, cf: map<NodeId, set<CfDef>>, n: NodeId)
    requires WellFormed(g) && ENTRY < |g.stats| && g.stats[ENTRY] == [] && ExactRecord(g, cf)
    requires forall b: Block, c: Block {:trigger c in g.children[b]} :: b < |g.children| && c in g.children[b] ==>
      c != ENTRY
    ensures IsNull(CfState(cf, n)) <==> CanBeUnassigned(g, n) && !CanBeAssigned(g, n)
  {
    MaybeNullIsExact(g, cf, n);
    if CanBeAssigned(g, n) {
      var b: Block, k: nat, st: State :| About(g, b, k, n) && AssignedAt(g, b, k, st);
      var d := AssignedIsInForce(g, b, k, st);
      assert CarriedThere(g, b, k, d, CfOf(g, d));
      assert Carried(g, n, CfOf(g, d));
    } else {
      forall c | c in CfState(cf, n) ensures c == CfUninitialized {
        var b, k, d :| About(g, b, k, n) && CarriedThere(g, b, k, d, c);
        if d.Stat? {
          var st := AssignedInForce(g, b, k, d);
          assert CanBeAssigned(g, n);
        }
      }
    }
  }
}

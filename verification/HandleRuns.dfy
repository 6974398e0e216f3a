/** Whole runs of a tracker's operations, and runs that branch and come together again. */
module HandleRuns {
  import opened Wrappers
  import opened HandleModel
  import opened HandleTracker
  import opened HandleStateTracker

  datatype Op =
    | MakeStorage(name: string, kind: StorageKind, cTypeCname: Option<string>)
    | MakeValue(name: string, kind: StorageKind, ownership: Ownership, cTypeCname: Option<string>)
    | Use(name: string)
    | Close(name: string)
    | MoveOut(name: string)
    | Copy(name: string, target: string)
    | Apply(operation: Operation, args: seq<string>, resultName: Option<string>)
    | Load(storageName: string, target: string)
    | Store(storageName: string, name: string)
    | Return(name: string)
    | CleanUp(exitKind: ExitKind, preserved: set<string>)
    | ApplyPlan(plan: CleanupPlan)

  /** What can happen to a tracker. */
  datatype Event =
    | NewStorage(name: string, storage: HandleStorage)
    | NewHandle(name: string, value: HandleValue)
    | End(name: string, state: HandleState)

  // ------------------------------------------------------------------------- events

  function Do(s: State, e: Event): State {
    match e
    case NewStorage(n, contract) => s.(storage := s.storage[n := contract])
    case NewHandle(n, v) => Declared(s, n, v)
    case End(n, target) => if n in s.values then Consumed(s, n, target) else s
  }

  predicate CanHappen(s: State, e: Event) {
    match e
    case NewStorage(n, contract) => IsNew(s, n) && contract == StorageContract(contract.kind)
    case NewHandle(n, v) => IsNew(s, n) && ValueAllowed(v) && v.state == Live
    case End(n, target) => IsLiveOwned(s, n) && target != Live
  }

  /** After the first `k` events. */
  function DoAll(s: State, es: seq<Event>, k: nat): State
    requires k <= |es|
  {
    if k == 0 then s else Do(DoAll(s, es, k - 1), es[k - 1])
  }

  predicate HappensAt(s: State, es: seq<Event>, i: nat)
    requires i < |es|
  {
    CanHappen(DoAll(s, es, i), es[i])
  }

  ghost predicate AllHappen(s: State, es: seq<Event>) {
    forall i: nat :: i < |es| ==> HappensAt(s, es, i)
  }

  lemma EventKeeps(s: State, e: Event)
    requires WellFormed(s) && CanHappen(s, e)
    ensures WellFormed(Do(s, e)) && Evolves(s, Do(s, e))
  {
    match e {
      case NewStorage(_, _) =>
      case NewHandle(n, v) => DeclaredEvolves(s, n, v);
      case End(n, target) => ConsumedEvolves(s, n, target);
    }
  }

  lemma {:induction false} EventsKeepForm(s: State, es: seq<Event>, k: nat)
    requires WellFormed(s) && AllHappen(s, es) && k <= |es|
    ensures WellFormed(DoAll(s, es, k))
  {
    if k > 0 {
      EventsKeepForm(s, es, k - 1);
      assert HappensAt(s, es, k - 1);
      EventKeeps(DoAll(s, es, k - 1), es[k - 1]);
    }
  }

  lemma EvolvesByOne(s: State, t: State, e: Event)
    requires Evolves(s, t) && WellFormed(t) && CanHappen(t, e)
    ensures Evolves(s, Do(t, e))
  {
    EventKeeps(t, e);
    EvolvesTransitive(s, t, Do(t, e));
  }

  lemma EvolvesItself(s: State)
    ensures Evolves(s, s)
  {
  }

  lemma {:induction false} EventsEvolve(s: State, es: seq<Event>, i: nat, j: nat)
    requires WellFormed(s) && AllHappen(s, es) && i <= j <= |es|
    ensures Evolves(DoAll(s, es, i), DoAll(s, es, j))
    decreases j
  {
    if i < j {
      EventsEvolve(s, es, i, j - 1);
      EventsKeepForm(s, es, j - 1);
      assert HappensAt(s, es, j - 1);
      EvolvesByOne(DoAll(s, es, i), DoAll(s, es, j - 1), es[j - 1]);
    } else {
      EvolvesItself(DoAll(s, es, i));
    }
  }

  lemma {:induction false} DoAllJoin(s: State, a: seq<Event>, b: seq<Event>, k: nat)
    requires k <= |b|
    ensures DoAll(s, a + b, |a| + k) == DoAll(DoAll(s, a, |a|), b, k)
  {
    if k == 0 {
      DoAllStart(s, a, b, |a|);
    } else {
      DoAllJoin(s, a, b, k - 1);
    }
  }

  lemma {:induction false} DoAllStart(s: State, a: seq<Event>, b: seq<Event>, k: nat)
    requires k <= |a|
    ensures DoAll(s, a + b, k) == DoAll(s, a, k)
  {
    if k > 0 {
      DoAllStart(s, a, b, k - 1);
    }
  }

  lemma AllHappenJoin(s: State, a: seq<Event>, b: seq<Event>)
    requires AllHappen(s, a) && AllHappen(DoAll(s, a, |a|), b)
    ensures AllHappen(s, a + b)
  {
    forall i: nat | i < |a + b| ensures HappensAt(s, a + b, i) {
      if i < |a| {
        assert HappensAt(s, a, i);
        DoAllStart(s, a, b, i);
      } else {
        assert HappensAt(DoAll(s, a, |a|), b, i - |a|);
        DoAllJoin(s, a, b, i - |a|);
      }
    }
  }

  // --------------------------------------------------------------------- operations

  function EndOf(s: State, n: string, target: HandleState): seq<Event> {
    if IsLiveOwned(s, n) then [End(n, target)] else []
  }

  function NewOwned(s: State, n: string): seq<Event> {
    if IsNew(s, n) then [NewHandle(n, HandleValue(StorageContract(Local), Owned, Live))] else []
  }

  function Closings(names: seq<string>): seq<Event> {
    seq(|names|, i requires 0 <= i < |names| => End(names[i], Closed))
  }

  predicate AllLive(s: State, names: set<string>) {
    forall n <- names :: IsLive(s, n)
  }

  predicate ArgumentsLive(s: State, args: seq<string>) {
    forall i :: 0 <= i < |args| ==> IsLive(s, args[i])
  }

  predicate StorageDeclarable(s: State, name: string, kind: StorageKind, cTypeCname: Option<string>) {
    IsNew(s, name) && TypeOr(cTypeCname, StorageContract(kind)) == StorageContract(kind).cTypeCname
  }

  /** What an operation makes happen, whether it succeeds or fails. */
  function EventsOf(s: State, op: Op): seq<Event>
    requires WellFormed(s)
  {
    match op
    case MakeStorage(n, kind, c) => if StorageDeclarable(s, n, kind, c) then [NewStorage(n, StorageContract(kind))]
      else []
    case MakeValue(n, kind, ownership, c) =>
      if IsNew(s, n) && NewValue(kind, ownership, c).Ok? then [NewHandle(n, NewValue(kind, ownership, c).value)] else []
    case Use(_) => []
    case Close(n) => EndOf(s, n, Closed)
    case MoveOut(n) => EndOf(s, n, Moved)
    case Copy(n, target) => if IsLive(s, n) then NewOwned(s, target) else []
    case Apply(operation, args, resultName) =>
      if operation.CloseHandle? then (if |args| == 1 then EndOf(s, args[0], Closed) else [])
      else if ReturnsOwned(operation) && resultName.Some? && ArgumentsLive(s, args) then NewOwned(s, resultName.value)
      else []
    case Load(n, target) => if IsKeeper(s, n) then NewOwned(s, target) else []
    case Store(_, _) => []
    case Return(n) => EndOf(s, n, Moved)
    case CleanUp(_, preserved) => if AllLive(s, preserved) then Closings(ToClose(s, |s.names|, preserved)) else []
    case ApplyPlan(plan) =>
      NoneToClose(s, plan.closeNames);
      Closings(plan.closeNames[..ClosableUpTo(s, plan.closeNames, 0)])
  }

  predicate Succeeds(s: State, op: Op) {
    match op
    case MakeStorage(n, kind, c) => StorageDeclarable(s, n, kind, c)
    case MakeValue(n, kind, ownership, c) => IsNew(s, n) && NewValue(kind, ownership, c).Ok?
    case Use(n) => IsLive(s, n)
    case Close(n) => IsLiveOwned(s, n)
    case MoveOut(n) => IsLiveOwned(s, n)
    case Copy(n, target) => IsLive(s, n) && IsNew(s, target)
    case Apply(operation, args, resultName) => Applies(s, operation, args, resultName)
    case Load(n, target) => IsKeeper(s, n) && IsNew(s, target)
    case Store(storageName, n) => IsKeeper(s, storageName) && IsLive(s, n)
    case Return(n) => IsLive(s, n)
    case CleanUp(_, preserved) => AllLive(s, preserved)
    case ApplyPlan(plan) => Closable(s, plan.closeNames, |plan.closeNames|)
  }

  /** Handles can be stored in declared storage, and loaded back, exactly if it is of a kind
      that keeps handles. */
  lemma StoredCanBeLoaded(s: State, name: string, kind: StorageKind, cTypeCname: Option<string>, n: string,
                          target: string)
    requires WellFormed(s) && Succeeds(s, MakeStorage(name, kind, cTypeCname))
    requires IsLive(s, n) && IsNew(s, target) && target != name
    ensures var t := After(s, MakeStorage(name, kind, cTypeCname));
      && (Succeeds(t, Store(name, n)) <==> KeepsHandles(kind))
      && (Succeeds(t, Load(name, target)) <==> KeepsHandles(kind))
  {
    StorageByKind(kind);
    AfterOne(s, MakeStorage(name, kind, cTypeCname), NewStorage(name, StorageContract(kind)));
  }

  ghost predicate ActsAs(s: State, a: Op, b: Op)
    requires WellFormed(s)
  {
    EventsOf(s, a) == EventsOf(s, b) && (Succeeds(s, a) <==> Succeeds(s, b))
  }

  /** The operations that are also there as methods of the tracker do what these do. */
  lemma OperationsActAlike(s: State, n: string, target: string)
    requires WellFormed(s)
    ensures ActsAs(s, Apply(DuplicateHandle, [n], Some(target)), Copy(n, target))
    ensures ActsAs(s, Apply(CloseHandle, [n], None), Close(n))
    ensures forall op: Operation :: !op.CloseHandle? && !ReturnsOwned(op) ==> ActsAs(s, Apply(op, [n], None), Use(n))
  {
    assert [n][0] == n;
    assert ArgumentsLive(s, [n]) <==> IsLive(s, n);
  }

  /** So do loading from a global or a field. */
  lemma LoadsActAlike(s: State, storageName: string, owner: string, target: string)
    requires WellFormed(s) && IsKeeper(s, storageName) && IsLive(s, owner)
    ensures ActsAs(s, Apply(GlobalLoad, [], Some(target)), Load(storageName, target))
    ensures ActsAs(s, Apply(FieldLoad, [owner], Some(target)), Load(storageName, target))
  {
    assert [owner][0] == owner;
    assert ArgumentsLive(s, []) && ArgumentsLive(s, [owner]);
  }

  /** And storing there. */
  lemma StoresActAlike(s: State, storageName: string, owner: string, n: string)
    requires WellFormed(s) && IsKeeper(s, storageName) && IsLive(s, owner)
    ensures ActsAs(s, Apply(GlobalStore, [n], None), Store(storageName, n))
    ensures ActsAs(s, Apply(FieldStore, [owner, n], None), Store(storageName, n))
  {
    assert [n][0] == n && [owner, n][0] == owner && [owner, n][1] == n;
    assert Takes(s, GlobalStore, [n]) <==> IsLive(s, n);
    assert Takes(s, FieldStore, [owner, n]) <==> IsLive(s, n);
  }

  lemma AtMostOne(s: State, es: seq<Event>)
    requires |es| <= 1 && (es != [] ==> CanHappen(s, es[0]))
    ensures AllHappen(s, es)
  {
  }

  lemma NextClosed(s: State, names: seq<string>, k: nat)
    requires k < |names| && Closable(s, names, |names|)
    ensures CanHappen(ClosedAll(s, names, k), End(names[k], Closed))
    ensures Do(ClosedAll(s, names, k), End(names[k], Closed)) == ClosedAll(s, names, k + 1)
  {
    ClosedStep(s, names, k);
  }

  lemma {:induction false} ClosingsClose(s: State, names: seq<string>, es: seq<Event>, k: nat)
    requires k <= |names| == |es| && Closable(s, names, |names|)
    requires forall i :: 0 <= i < |es| ==> es[i] == End(names[i], Closed)
    ensures DoAll(s, es, k) == ClosedAll(s, names, k)
  {
    if k == 0 {
      ClosedNone(s, names);
    } else {
      ClosingsClose(s, names, es, k - 1);
      NextClosed(s, names, k - 1);
    }
  }

  lemma ClosingsHappen(s: State, names: seq<string>)
    requires Closable(s, names, |names|)
    ensures AllHappen(s, Closings(names)) && DoAll(s, Closings(names), |names|) == ClosedAll(s, names, |names|)
  {
    forall i: nat | i < |names| ensures HappensAt(s, Closings(names), i) {
      ClosingsClose(s, names, Closings(names), i);
      NextClosed(s, names, i);
    }
    ClosingsClose(s, names, Closings(names), |names|);
  }

  lemma ClosedStart(s: State, names: seq<string>, k: nat)
    requires k <= |names| && Closable(s, names, k)
    ensures Closable(s, names[..k], k) && ClosedAll(s, names[..k], k) == ClosedAll(s, names, k)
  {
    assert names[..k][..k] == names[..k];
  }

  lemma EventsHappen(s: State, op: Op)
    requires WellFormed(s)
    ensures AllHappen(s, EventsOf(s, op))
  {
    match op {
      case CleanUp(_, preserved) =>
        if AllLive(s, preserved) {
          PlanIsClosable(s, preserved);
          ClosingsHappen(s, ToClose(s, |s.names|, preserved));
        }
      case ApplyPlan(plan) =>
        NoneToClose(s, plan.closeNames);
        var k := ClosableUpTo(s, plan.closeNames, 0);
        ClosedStart(s, plan.closeNames, k);
        ClosingsHappen(s, plan.closeNames[..k]);
      case MakeValue(n, kind, ownership, c) =>
        DeclarableValues(kind, ownership, c);
        AtMostOne(s, EventsOf(s, op));
      case _ =>
        AtMostOne(s, EventsOf(s, op));
    }
  }

  function After(s: State, op: Op): State
    requires WellFormed(s)
  {
    DoAll(s, EventsOf(s, op), |EventsOf(s, op)|)
  }

  lemma AfterNothing(s: State, op: Op)
    requires WellFormed(s) && EventsOf(s, op) == []
    ensures After(s, op) == s
  {
  }

  lemma AfterOne(s: State, op: Op, e: Event)
    requires WellFormed(s) && EventsOf(s, op) == [e]
    ensures After(s, op) == Do(s, e)
  {
    assert DoAll(s, [e], 0) == s;
  }

  // ------------------------------------------------------------------- runs and logs

  /** The states before and behind each operation, and what each made happen. */
  datatype Run = Run(states: seq<State>, steps: seq<seq<Event>>)

  ghost predicate RunsAt(ops: seq<Op>, run: Run, i: nat)
    requires i < |ops| == |run.steps| && |run.states| == |ops| + 1
  {
    && WellFormed(run.states[i]) && run.steps[i] == EventsOf(run.states[i], ops[i])
    && run.states[i + 1] == DoAll(run.states[i], run.steps[i], |run.steps[i]|)
  }

  /** The run of a list of operations, failing ones included. */
  ghost predicate Runs(ops: seq<Op>, run: Run) {
    && |ops| == |run.steps| && |run.states| == |ops| + 1
    && forall i: nat :: i < |ops| ==> RunsAt(ops, run, i)
  }

  ghost predicate TraceAt(run: Run, i: nat)
    requires i < |run.steps| && |run.states| == |run.steps| + 1
  {
    && WellFormed(run.states[i]) && AllHappen(run.states[i], run.steps[i])
    && run.states[i + 1] == DoAll(run.states[i], run.steps[i], |run.steps[i]|)
  }

  ghost predicate IsTrace(run: Run) {
    && |run.states| == |run.steps| + 1 && forall i: nat :: i < |run.steps| ==> TraceAt(run, i)
  }

  lemma RunIsTrace(ops: seq<Op>, run: Run)
    requires Runs(ops, run)
    ensures IsTrace(run)
  {
    forall i: nat | i < |run.steps| ensures TraceAt(run, i) {
      assert RunsAt(ops, run, i);
      EventsHappen(run.states[i], ops[i]);
    }
  }

  /** All that happened in the first `k` operations. */
  function Joined(steps: seq<seq<Event>>, k: nat): seq<Event>
    requires k <= |steps|
  {
    if k == 0 then [] else Joined(steps, k - 1) + steps[k - 1]
  }

  function Log(run: Run): seq<Event> {
    Joined(run.steps, |run.steps|)
  }

  lemma EventsGoOn(s: State, log: seq<Event>, t: State, es: seq<Event>)
    requires AllHappen(s, log) && DoAll(s, log, |log|) == t && AllHappen(t, es)
    ensures AllHappen(s, log + es) && DoAll(s, log + es, |log + es|) == DoAll(t, es, |es|)
  {
    AllHappenJoin(s, log, es);
    DoAllJoin(s, log, es, |es|);
  }

  lemma {:induction false} LogLeadsThere(run: Run, k: nat)
    requires IsTrace(run) && k <= |run.steps|
    ensures AllHappen(run.states[0], Joined(run.steps, k))
    ensures DoAll(run.states[0], Joined(run.steps, k), |Joined(run.steps, k)|) == run.states[k]
  {
    if k > 0 {
      LogLeadsThere(run, k - 1);
      assert TraceAt(run, k - 1);
      EventsGoOn(run.states[0], Joined(run.steps, k - 1), run.states[k - 1], run.steps[k - 1]);
    }
  }

  lemma {:induction false} RunEvolves(run: Run, i: nat, j: nat)
    requires IsTrace(run) && i <= j <= |run.steps|
    ensures Evolves(run.states[i], run.states[j])
    decreases j
  {
    if i < j {
      RunEvolves(run, i, j - 1);
      assert TraceAt(run, j - 1);
      EventsEvolve(run.states[j - 1], run.steps[j - 1], 0, |run.steps[j - 1]|);
      EvolvesTransitive(run.states[i], run.states[j - 1], run.states[j]);
    } else {
      EvolvesItself(run.states[i]);
    }
  }

  // ------------------------------------------------------- what a log says about states

  lemma EndsOnce(s: State, es: seq<Event>, i: nat, j: nat)
    requires WellFormed(s) && AllHappen(s, es) && i < j < |es| && es[i].End? && es[j].End?
    ensures es[i].name != es[j].name
  {
    EventsKeepForm(s, es, i);
    EventsEvolve(s, es, i + 1, j);
    assert HappensAt(s, es, i) && HappensAt(s, es, j);
    assert DoAll(s, es, i + 1) == Do(DoAll(s, es, i), es[i]);
  }

  /** What became of a name between two states can be told from the events. */
  ghost predicate Told(s: State, t: State, es: seq<Event>, n: string) {
    && (forall c :: NewStorage(n, c) in es <==> n !in s.storage && n in t.storage && t.storage[n] == c)
    && (forall v :: NewHandle(n, v) in es <==> n !in s.values && n in t.values && v == t.values[n].(state := Live))
    && (forall x :: End(n, x) in es <==>
          n in t.values && t.values[n].state == x && x != Live && (n in s.values ==> s.values[n].state == Live))
    && (n in s.storage ==> n in t.storage && t.storage[n] == s.storage[n])
    && (n in s.values ==> n in t.values && SameButEnded(s.values[n], t.values[n]))
  }

  predicate SameButEnded(v: HandleValue, w: HandleValue) {
    w.storage == v.storage && w.ownership == v.ownership && (v.state != Live ==> w.state == v.state)
  }

  lemma ToldByOne(s: State, t: State, es: seq<Event>, e: Event, n: string)
    requires Told(s, t, es, n) && CanHappen(t, e)
    ensures Told(s, Do(t, e), es + [e], n)
  {
    assert forall x :: x in es + [e] <==> x in es || x == e;
  }

  lemma {:induction false} EventsTell(s: State, es: seq<Event>, k: nat, n: string)
    requires AllHappen(s, es) && k <= |es|
    ensures Told(s, DoAll(s, es, k), es[..k], n)
  {
    if k > 0 {
      EventsTell(s, es, k - 1, n);
      assert HappensAt(s, es, k - 1);
      ToldByOne(s, DoAll(s, es, k - 1), es[..k - 1], es[k - 1], n);
      assert es[..k] == es[..k - 1] + [es[k - 1]];
    }
  }

  lemma LogTells(run: Run, n: string)
    requires IsTrace(run)
    ensures Told(run.states[0], run.states[|run.steps|], Log(run), n)
  {
    LogLeadsThere(run, |run.steps|);
    EventsTell(run.states[0], Log(run), |Log(run)|, n);
    assert Log(run)[..|Log(run)|] == Log(run);
  }

  // ------------------------------------------------------------------ what runs do

  /** Whatever the operations are and whether they succeed, a handle ends once at the most. */
  lemma ConsumedOnce(ops: seq<Op>, run: Run, i: nat, j: nat)
    requires Runs(ops, run) && i < j < |Log(run)| && Log(run)[i].End? && Log(run)[j].End?
    ensures Log(run)[i].name != Log(run)[j].name
  {
    RunIsTrace(ops, run);
    LogLeadsThere(run, |run.steps|);
    if ops != [] {
      assert TraceAt(run, 0);
    }
    EndsOnce(run.states[0], Log(run), i, j);
  }

  /** The handles that an operation cannot do without. */
  function Needed(op: Op): set<string> {
    match op
    case MakeStorage(_, _, _) => {}
    case MakeValue(_, _, _, _) => {}
    case Use(n) => {n}
    case Close(n) => {n}
    case MoveOut(n) => {n}
    case Copy(n, _) => {n}
    case Apply(_, args, _) => set n | n in args
    case Load(_, _) => {}
    case Store(_, n) => {n}
    case Return(n) => {n}
    case CleanUp(_, preserved) => preserved
    case ApplyPlan(plan) => set n | n in plan.closeNames
  }

  lemma SuccessNeedsLive(s: State, op: Op, n: string)
    requires Succeeds(s, op) && n in Needed(op)
    ensures IsLive(s, n)
  {
  }

  /** What was closed or moved does not revive: every later operation that needs it fails. */
  lemma NeverAgain(ops: seq<Op>, run: Run, i: nat, j: nat, n: string, x: HandleState)
    requires Runs(ops, run) && i < j < |ops| && End(n, x) in run.steps[i] && n in Needed(ops[j])
    ensures !Succeeds(run.states[j], ops[j])
  {
    RunIsTrace(ops, run);
    assert TraceAt(run, i);
    var es := run.steps[i];
    EventsTell(run.states[i], es, |es|, n);
    assert es[..|es|] == es;
    RunEvolves(run, i + 1, j);
    if Succeeds(run.states[j], ops[j]) {
      SuccessNeedsLive(run.states[j], ops[j], n);
    }
  }

  /** Borrowed and immortal handles stay as they are all through a run. */
  lemma OthersStay(ops: seq<Op>, run: Run, n: string, i: nat)
    requires Runs(ops, run) && i <= |ops|
    requires n in run.states[0].values && run.states[0].values[n].ownership != Owned
    ensures n in run.states[i].values && run.states[i].values[n] == run.states[0].values[n]
  {
    RunIsTrace(ops, run);
    RunEvolves(run, 0, i);
  }

  /** Nothing gets lost: what is live and owned in the end was so in the beginning or was made
      on the way, and was neither closed nor moved. */
  lemma LiveOwnedConserved(ops: seq<Op>, run: Run, n: string)
    requires Runs(ops, run)
    ensures IsLiveOwned(run.states[|ops|], n) <==>
      && (IsLiveOwned(run.states[0], n) || exists v :: NewHandle(n, v) in Log(run) && v.ownership == Owned)
      && forall x :: End(n, x) !in Log(run)
  {
    RunIsTrace(ops, run);
    LogTells(run, n);
    var t := run.states[|ops|];
    if n in t.values && n !in run.states[0].values {
      assert NewHandle(n, t.values[n].(state := Live)) in Log(run);
    }
    if n in t.values && t.values[n].state != Live
      && (n in run.states[0].values ==> run.states[0].values[n].state == Live) {
      assert End(n, t.values[n].state) in Log(run);
    }
  }

  // --------------------------------------------------------------------- branches

  ghost predicate SameEvents(a: seq<Event>, b: seq<Event>) {
    forall e :: e in a <==> e in b
  }

  lemma AgreedTold(s: State, t: State, u: State, a: seq<Event>, b: seq<Event>, e: Event)
    requires Told(s, t, a, e.name) && Told(s, u, b, e.name) && Agree(t, u)
    ensures e in a <==> e in b
  {
  }

  lemma ToldAgreed(s: State, t: State, u: State, a: seq<Event>, b: seq<Event>, n: string)
    requires Told(s, t, a, n) && Told(s, u, b, n) && SameEvents(a, b)
    ensures n in t.storage ==> n in u.storage && u.storage[n] == t.storage[n]
    ensures n in t.values ==> n in u.values && u.values[n] == t.values[n]
  {
    if n in t.storage && n !in s.storage {
      assert NewStorage(n, t.storage[n]) in b;
    }
    if n in t.values && n !in s.values {
      assert NewHandle(n, t.values[n].(state := Live)) in b;
    }
    if n in t.values && n in u.values {
      var x, y := t.values[n].state, u.values[n].state;
      assert (End(n, x) in a <==> End(n, x) in b) && (End(n, y) in a <==> End(n, y) in b);
    }
  }

  /** Two branches agree exactly if the same has happened in both: the same declarations, and
      the same handles closed and the same moved. */
  lemma MergedBranches(s: State, a: Run, b: Run)
    requires IsTrace(a) && IsTrace(b) && a.states[0] == s && b.states[0] == s
    ensures Agree(a.states[|a.steps|], b.states[|b.steps|]) <==> SameEvents(Log(a), Log(b))
  {
    var t, u := a.states[|a.steps|], b.states[|b.steps|];
    if Agree(t, u) {
      forall e ensures e in Log(a) <==> e in Log(b) {
        LogTells(a, e.name);
        LogTells(b, e.name);
        AgreedTold(s, t, u, Log(a), Log(b), e);
      }
    }
    if SameEvents(Log(a), Log(b)) {
      forall n ensures (n in t.storage <==> n in u.storage) && (n in t.storage ==> t.storage[n] == u.storage[n])
        ensures (n in t.values <==> n in u.values) && (n in t.values ==> t.values[n] == u.values[n])
      {
        LogTells(a, n);
        LogTells(b, n);
        ToldAgreed(s, t, u, Log(a), Log(b), n);
        ToldAgreed(s, u, t, Log(b), Log(a), n);
      }
      assert t.storage == u.storage && t.values == u.values;
    }
  }

  // ------------------------------------------------------------------------ running

  method RunOp(tracker: HandleStateTracker, op: Op) returns (ok: bool)
    requires tracker.Valid()
    modifies tracker
    ensures tracker.Valid() && tracker.Snap() == After(old(tracker.Snap()), op)
    ensures ok <==> Succeeds(old(tracker.Snap()), op)
  {
    match op {
      case Use(n) =>
        ok := tracker.Use(n).Ok?;
      case Store(storageName, n) =>
        var stored := tracker.StoreStorage(storageName, n);
        ok := stored.Ok?;
      case Close(n) => ok := RunEnd(tracker, op, n);
      case MoveOut(n) => ok := RunEnd(tracker, op, n);
      case Return(n) => ok := RunEnd(tracker, op, n);
      case Apply(_, _, _) => ok := RunApply(tracker, op);
      case CleanUp(_, _) => ok := RunCleanup(tracker, op);
      case ApplyPlan(_) => ok := RunCleanup(tracker, op);
      case _ => ok := RunNew(tracker, op);
    }
  }

  method RunEnd(tracker: HandleStateTracker, op: Op, n: string) returns (ok: bool)
    requires tracker.Valid() && (op == Close(n) || op == MoveOut(n) || op == Return(n))
    modifies tracker
    ensures tracker.Valid() && tracker.Snap() == After(old(tracker.Snap()), op)
    ensures ok <==> Succeeds(old(tracker.Snap()), op)
  {
    ghost var s := tracker.Snap();
    if op.Close? {
      var closed := tracker.Close(n);
      ok := closed.Ok?;
    } else if op.MoveOut? {
      var moved := tracker.MoveOut(n);
      ok := moved.Ok?;
    } else {
      var returned := tracker.PrepareReturn(n);
      ok := returned.Ok?;
    }
    if IsLiveOwned(s, n) {
      AfterOne(s, op, End(n, if op.Close? then Closed else Moved));
    } else {
      AfterNothing(s, op);
    }
  }

  method RunNew(tracker: HandleStateTracker, op: Op) returns (ok: bool)
    requires tracker.Valid() && (op.MakeStorage? || op.MakeValue? || op.Copy? || op.Load?)
    modifies tracker
    ensures tracker.Valid() && tracker.Snap() == After(old(tracker.Snap()), op)
    ensures ok <==> Succeeds(old(tracker.Snap()), op)
  {
    ghost var s := tracker.Snap();
    match op {
      case MakeStorage(n, kind, c) =>
        var r := tracker.DeclareStorage(n, kind, c);
        ok := r.Ok?;
      case MakeValue(n, kind, ownership, c) =>
        var r := tracker.DeclareValue(n, kind, ownership, c);
        ok := r.Ok?;
      case Copy(n, target) =>
        var r := tracker.Duplicate(n, target);
        ok := r.Ok?;
      case Load(n, target) =>
        var r := tracker.LoadStorage(n, target);
        ok := r.Ok?;
    }
    AfterAtMostOne(s, op);
  }

  method RunApply(tracker: HandleStateTracker, op: Op) returns (ok: bool)
    requires tracker.Valid() && op.Apply?
    modifies tracker
    ensures tracker.Valid() && tracker.Snap() == After(old(tracker.Snap()), op)
    ensures ok <==> Succeeds(old(tracker.Snap()), op)
  {
    AfterAtMostOne(tracker.Snap(), op);
    var r := tracker.ApplyOperation(op.operation, op.args, op.resultName);
    ok := r.Ok?;
  }

  lemma AfterAtMostOne(s: State, op: Op)
    requires WellFormed(s) && |EventsOf(s, op)| <= 1
    ensures After(s, op) == if EventsOf(s, op) == [] then s else Do(s, EventsOf(s, op)[0])
  {
    assert DoAll(s, EventsOf(s, op), 0) == s;
  }

  method RunCleanup(tracker: HandleStateTracker, op: Op) returns (ok: bool)
    requires tracker.Valid() && (op.CleanUp? || op.ApplyPlan?)
    modifies tracker
    ensures tracker.Valid() && tracker.Snap() == After(old(tracker.Snap()), op)
    ensures ok <==> Succeeds(old(tracker.Snap()), op)
  {
    ghost var s := tracker.Snap();
    if op.CleanUp? {
      var planned := tracker.PlanCleanup(op.exitKind, op.preserved);
      if planned.Err? {
        AfterNothing(s, op);
        return false;
      }
      var names := planned.value.closeNames;
      PlanIsClosable(s, op.preserved);
      StopsThere(s, names, |names|);
      ClosingsHappen(s, names);
      var applied := tracker.ApplyCleanupPlan(planned.value);
      ok := true;
    } else {
      NoneToClose(s, op.plan.closeNames);
      ghost var k := ClosableUpTo(s, op.plan.closeNames, 0);
      ClosedStart(s, op.plan.closeNames, k);
      ClosingsHappen(s, op.plan.closeNames[..k]);
      var applied := tracker.ApplyCleanupPlan(op.plan);
      ok := applied.Ok?;
    }
  }

  function Extended(run: Run, es: seq<Event>, t: State): Run {
    Run(run.states + [t], run.steps + [es])
  }

  lemma RunsOneMore(ops: seq<Op>, k: nat, run: Run, s: State)
    requires k < |ops| && Runs(ops[..k], run) && run.states[k] == s && WellFormed(s)
    ensures Runs(ops[..k + 1], Extended(run, EventsOf(s, ops[k]), After(s, ops[k])))
  {
    var ops', run' := ops[..k + 1], Extended(run, EventsOf(s, ops[k]), After(s, ops[k]));
    forall i: nat | i < |ops'| ensures RunsAt(ops', run', i) {
      if i < k {
        assert RunsAt(ops[..k], run, i);
        assert run'.states[i] == run.states[i] && run'.states[i + 1] == run.states[i + 1]
          && run'.steps[i] == run.steps[i];
      }
    }
  }

  /** The first `k` operations have led from `s` to `t`. */
  ghost predicate RunSoFar(s: State, ops: seq<Op>, k: nat, t: State, oks: seq<bool>, run: Run) {
    && k <= |ops| && Runs(ops[..k], run) && run.states[0] == s && run.states[k] == t
    && |oks| == k && forall i :: 0 <= i < k ==> (oks[i] <==> Succeeds(run.states[i], ops[i]))
  }

  lemma OneMoreRun(s: State, ops: seq<Op>, k: nat, t: State, oks: seq<bool>, run: Run, ok: bool)
    requires RunSoFar(s, ops, k, t, oks, run) && k < |ops| && WellFormed(t) && (ok <==> Succeeds(t, ops[k]))
    ensures RunSoFar(s, ops, k + 1, After(t, ops[k]), oks + [ok], Extended(run, EventsOf(t, ops[k]), After(t, ops[k])))
  {
    RunsOneMore(ops, k, run, t);
  }

  /** Runs the operations one after the other, going on where one fails. */
  method RunOps(tracker: HandleStateTracker, ops: seq<Op>) returns (oks: seq<bool>, ghost run: Run)
    requires tracker.Valid()
    modifies tracker
    ensures tracker.Valid() && Runs(ops, run)
    ensures run.states[0] == old(tracker.Snap()) && run.states[|ops|] == tracker.Snap()
    ensures |oks| == |ops| && forall i :: 0 <= i < |ops| ==> (oks[i] <==> Succeeds(run.states[i], ops[i]))
  {
    ghost var s := tracker.Snap();
    oks, run := [], Run([s], []);
    for k := 0 to |ops|
      invariant tracker.Valid() && RunSoFar(s, ops, k, tracker.Snap(), oks, run)
    {
      ghost var t := tracker.Snap();
      var ok := RunOp(tracker, ops[k]);
      OneMoreRun(s, ops, k, t, oks, run, ok);
      oks, run := oks + [ok], Extended(run, EventsOf(t, ops[k]), tracker.Snap());
    }
    assert ops[..|ops|] == ops;
  }

  /** One run for each branch, all from the same state. */
  ghost predicate BranchRuns(s: State, scripts: seq<seq<Op>>, branches: seq<HandleStateTracker>, runs: seq<Run>, k: nat)
    reads branches
  {
    && k <= |scripts| && |branches| == |runs| == k
    && forall i: nat :: i < k ==>
         && branches[i].Valid() && Runs(scripts[i], runs[i])
         && runs[i].states[0] == s && runs[i].states[|scripts[i]|] == branches[i].Snap()
  }

  method RunBranch(tracker: HandleStateTracker, ops: seq<Op>) returns (copy: HandleStateTracker, ghost run: Run)
    requires tracker.Valid()
    ensures fresh(copy) && copy.Valid() && Runs(ops, run)
    ensures run.states[0] == tracker.Snap() && run.states[|ops|] == copy.Snap()
  {
    copy := Fork(tracker);
    var oks;
    oks, run := RunOps(copy, ops);
  }

  /** A copy of the tracker for each branch, which runs operations of its own. */
  method RunBranches(tracker: HandleStateTracker, scripts: seq<seq<Op>>)
    returns (branches: seq<HandleStateTracker>, ghost runs: seq<Run>)
    requires tracker.Valid()
    ensures BranchRuns(tracker.Snap(), scripts, branches, runs, |scripts|)
    ensures fresh(branches)
  {
    branches, runs := [], [];
    for k := 0 to |scripts|
      invariant BranchRuns(tracker.Snap(), scripts, branches, runs, k) && fresh(branches)
    {
      var copy;
      ghost var run;
      copy, run := RunBranch(tracker, scripts[k]);
      branches, runs := branches + [copy], runs + [run];
    }
  }

  /** In all branches closed, in all moved, or left alone by all. */
  ghost predicate SameFate(runs: seq<Run>, n: string) {
    || (forall r <- runs :: End(n, Closed) in Log(r))
    || (forall r <- runs :: End(n, Moved) in Log(r))
    || forall r <- runs, x :: End(n, x) !in Log(r)
  }

  /** The branches come together again exactly if the same has happened in all of them. */
  method BranchAndMerge(tracker: HandleStateTracker, scripts: seq<seq<Op>>)
    returns (branches: seq<HandleStateTracker>, ghost runs: seq<Run>, r: Result<HandleStateTracker>)
    requires tracker.Valid()
    ensures BranchRuns(tracker.Snap(), scripts, branches, runs, |scripts|) && fresh(branches)
    ensures r.Ok? <==> runs != [] && forall run <- runs :: SameEvents(Log(runs[0]), Log(run))
    ensures r.Ok? ==> fresh(r.value) && r.value.Valid() && forall b <- branches :: Agree(r.value.Snap(), b.Snap())
    ensures r.Ok? ==> forall n :: IsLiveOwned(tracker.Snap(), n) ==> SameFate(runs, n)
    ensures r.Ok? ==> forall b <- branches, n :: IsLiveOwned(r.value.Snap(), n) <==> IsLiveOwned(b.Snap(), n)
  {
    branches, runs := RunBranches(tracker, scripts);
    r := Merge(branches);
    if branches != [] {
      BranchesAgree(tracker.Snap(), scripts, branches, runs);
    }
    if r.Ok? {
      forall n | IsLiveOwned(tracker.Snap(), n) ensures SameFate(runs, n) {
        RunIsTrace(scripts[0], runs[0]);
        LogTells(runs[0], n);
        OneFate(runs, n);
      }
    }
  }

  lemma BranchesAgree(s: State, scripts: seq<seq<Op>>, branches: seq<HandleStateTracker>, runs: seq<Run>)
    requires BranchRuns(s, scripts, branches, runs, |scripts|) && branches != []
    ensures (forall b <- branches :: Agree(branches[0].Snap(), b.Snap())) <==>
      forall run <- runs :: SameEvents(Log(runs[0]), Log(run))
  {
    forall i: nat | i < |runs|
      ensures Agree(branches[0].Snap(), branches[i].Snap()) <==> SameEvents(Log(runs[0]), Log(runs[i]))
    {
      RunIsTrace(scripts[0], runs[0]);
      RunIsTrace(scripts[i], runs[i]);
      MergedBranches(s, runs[0], runs[i]);
    }
    forall run | run in runs && (forall b <- branches :: Agree(branches[0].Snap(), b.Snap()))
      ensures SameEvents(Log(runs[0]), Log(run))
    {
      var i: nat :| i < |runs| && runs[i] == run;
      assert branches[i] in branches;
    }
    forall b | b in branches && (forall run <- runs :: SameEvents(Log(runs[0]), Log(run)))
      ensures Agree(branches[0].Snap(), b.Snap())
    {
      var i: nat :| i < |branches| && branches[i] == b;
      assert runs[i] in runs;
    }
  }

  lemma OneFate(runs: seq<Run>, n: string)
    requires runs != [] && forall run <- runs :: SameEvents(Log(runs[0]), Log(run))
    requires forall x :: End(n, x) in Log(runs[0]) ==> x != Live
    ensures SameFate(runs, n)
  {
    if End(n, Closed) in Log(runs[0]) {
    } else if End(n, Moved) in Log(runs[0]) {
    } else {
      forall run, x | run in runs ensures End(n, x) !in Log(run) {
        assert x == Live || x == Closed || x == Moved;
        assert End(n, x) in Log(runs[0]) <==> End(n, x) in Log(run);
      }
    }
  }
}

/** The tracker of one control-flow state, and how the states of branches come together. */
module HandleStateTracker {
  import opened Wrappers
  import opened HandleModel
  import opened HandleTracker

  /** An operation has its arguments live, an only owned one if it closes it, and a new name
      for its result exactly if it has one. */
  predicate Applies(s: State, op: Operation, args: seq<string>, resultName: Option<string>) {
    && Takes(s, op, args)
    && (if ReturnsOwned(op) then resultName.Some? && IsNew(s, resultName.value) else resultName.None?)
  }

  predicate Takes(s: State, op: Operation, args: seq<string>) {
    if op.CloseHandle? then |args| == 1 && IsLiveOwned(s, args[0])
    else forall i :: 0 <= i < |args| ==> IsLive(s, args[i])
  }

  class HandleStateTracker {
    var storage: map<string, HandleStorage>
    var names: seq<string>
    var values: map<string, HandleValue>

    constructor ()
      ensures Valid() && Snap() == State(map[], [], map[])
    {
      storage, names, values := map[], [], map[];
    }

    function Snap(): State
      reads this
    {
      State(storage, names, values)
    }

    predicate Valid()
      reads this
    {
      WellFormed(Snap())
    }

    function Value(name: string): Result<HandleValue>
      reads this
    {
      if name in values then Ok(values[name]) else Err(ModelError)
    }

    function Storage(name: string): Result<HandleStorage>
      reads this
    {
      if name in storage then Ok(storage[name]) else Err(ModelError)
    }

    function Use(name: string): (r: Result<HandleValue>)
      reads this
      ensures r == UseOf(Snap(), name)
    {
      var value := Value(name);
      if value.Err? then value
      else if value.value.state != Live then Err(InvalidTransition)
      else value
    }

    method DeclareStorage(name: string, kind: StorageKind, cTypeCname: Option<string>)
      returns (r: Result<HandleStorage>)
      requires Valid()
      modifies this
      ensures Valid() && Evolves(old(Snap()), Snap()) && LiveOwned(Snap()) == old(LiveOwned(Snap()))
      ensures r.Ok? <==>
        && name !in old(storage) && name !in old(values)
        && TypeOr(cTypeCname, StorageContract(kind)) == StorageContract(kind).cTypeCname
      ensures r.Ok? ==>
        r.value == StorageContract(kind) && Snap() == old(Snap()).(storage := old(storage)[name := r.value])
      ensures r.Err? ==> Snap() == old(Snap())
    {
      if name in storage || name in values {
        return Err(ModelError);
      }
      var contract := StorageContract(kind);
      r := ValidateStorageDeclaration(kind, TypeOr(cTypeCname, contract), false, contract.longLived);
      if r.Ok? {
        storage := storage[name := r.value];
      }
    }

    method DeclareValue(name: string, kind: StorageKind, ownership: Ownership, cTypeCname: Option<string>)
      returns (r: Result<HandleValue>)
      requires Valid()
      modifies this
      ensures Valid() && Evolves(old(Snap()), Snap())
      ensures r == if name in old(storage) || name in old(values) then Err(ModelError)
        else NewValue(kind, ownership, cTypeCname)
      ensures r.Ok? ==> Snap() == Declared(old(Snap()), name, r.value)
      ensures r.Ok? ==> LiveOwned(Snap()) == old(LiveOwned(Snap())) + if ownership == Owned then {name} else {}
      ensures r.Err? ==> Snap() == old(Snap())
    {
      if name in storage || name in values {
        return Err(ModelError);
      }
      DeclarableValues(kind, ownership, cTypeCname);
      r := NewValue(kind, ownership, cTypeCname);
      if r.Ok? {
        DeclaredEvolves(Snap(), name, r.value);
        names := names + [name];
        values := values[name := r.value];
      }
    }

    method ConsumeOwned(name: string, target: HandleState) returns (r: Result<HandleValue>)
      requires Valid() && target != Live
      modifies this
      ensures Valid() && Evolves(old(Snap()), Snap())
      ensures r.Ok? <==> IsLiveOwned(old(Snap()), name)
      ensures r.Ok? ==> Snap() == Consumed(old(Snap()), name, target) && r.value == values[name]
      ensures r.Ok? ==> LiveOwned(Snap()) == old(LiveOwned(Snap())) - {name}
      ensures r.Err? ==> Snap() == old(Snap())
      ensures r == Err(ModelError) <==> name !in old(values)
    {
      r := Use(name);
      if r.Err? {
        return;
      }
      if r.value.ownership != Owned {
        return Err(InvalidTransition);
      }
      ConsumedEvolves(Snap(), name, target);
      var value := r.value.(state := target);
      values := values[name := value];
      r := Ok(value);
    }

    method Close(name: string) returns (r: Result<HandleValue>)
      requires Valid()
      modifies this
      ensures Valid() && Evolves(old(Snap()), Snap())
      ensures r.Ok? <==> IsLiveOwned(old(Snap()), name)
      ensures Snap() == if r.Ok? then Consumed(old(Snap()), name, Closed) else old(Snap())
      ensures r.Ok? ==> LiveOwned(Snap()) == old(LiveOwned(Snap())) - {name} && r.value == values[name]
    {
      r := ConsumeOwned(name, Closed);
    }

    method MoveOut(name: string) returns (r: Result<HandleValue>)
      requires Valid()
      modifies this
      ensures Valid() && Evolves(old(Snap()), Snap())
      ensures r.Ok? <==> IsLiveOwned(old(Snap()), name)
      ensures Snap() == if r.Ok? then Consumed(old(Snap()), name, Moved) else old(Snap())
      ensures r.Ok? ==> LiveOwned(Snap()) == old(LiveOwned(Snap())) - {name} && r.value == values[name]
    {
      r := ConsumeOwned(name, Moved);
    }

    method Duplicate(source: string, target: string) returns (r: Result<HandleValue>)
      requires Valid()
      modifies this
      ensures Valid() && Evolves(old(Snap()), Snap())
      ensures r.Ok? <==> IsLive(old(Snap()), source) && IsNew(old(Snap()), target)
      ensures r.Ok? ==> r.value == HandleValue(StorageContract(Local), Owned, Live)
      ensures Snap() == if r.Ok? then Declared(old(Snap()), target, r.value) else old(Snap())
    {
      r := Use(source);
      if r.Ok? {
        r := DeclareValue(target, Local, Owned, None);
      }
    }

    method UseAll(args: seq<string>) returns (r: Result<()>)
      ensures r.Ok? <==> forall i :: 0 <= i < |args| ==> IsLive(Snap(), args[i])
    {
      for i := 0 to |args|
        invariant forall j :: 0 <= j < i ==> IsLive(Snap(), args[j])
      {
        var used := Use(args[i]);
        if used.Err? {
          return Err(used.error);
        }
      }
      r := Ok(());
    }

    /** Applies an operation to its arguments; its result, if it has one, is a new owned
        handle.  Only closing uses up an argument. */
    method ApplyOperation(op: Operation, args: seq<string>, resultName: Option<string>)
      returns (r: Result<Option<HandleValue>>)
      requires Valid()
      modifies this
      ensures Valid() && Evolves(old(Snap()), Snap())
      ensures r.Ok? <==> Applies(old(Snap()), op, args, resultName)
      ensures r.Ok? ==> r.value == if ReturnsOwned(op) then Some(HandleValue(StorageContract(Local), Owned, Live))
        else None
      ensures Snap() ==
        if op.CloseHandle? && |args| == 1 && IsLiveOwned(old(Snap()), args[0])
          then Consumed(old(Snap()), args[0], Closed)
        else if r.Ok? && ReturnsOwned(op) then
          Declared(old(Snap()), resultName.value, HandleValue(StorageContract(Local), Owned, Live))
        else old(Snap())
    {
      var taken := TakeArguments(op, args);
      if taken.Err? {
        return Err(taken.error);
      }
      if !ReturnsOwned(op) {
        return if resultName.Some? then Err(ModelError) else Ok(None);
      }
      if resultName.None? {
        return Err(ModelError);
      }
      r := DeclareResult(resultName.value);
    }

    /** Closing ends its one argument; every other operation uses its arguments. */
    method TakeArguments(op: Operation, args: seq<string>) returns (r: Result<()>)
      requires Valid()
      modifies this
      ensures Valid() && Evolves(old(Snap()), Snap())
      ensures r.Ok? <==> Takes(old(Snap()), op, args)
      ensures Snap() == if op.CloseHandle? && r.Ok? then Consumed(old(Snap()), args[0], Closed) else old(Snap())
    {
      if !op.CloseHandle? {
        r := UseAll(args);
        return;
      }
      if |args| != 1 {
        return Err(ModelError);
      }
      var closed := Close(args[0]);
      r := if closed.Ok? then Ok(()) else Err(closed.error);
    }

    method DeclareResult(name: string) returns (r: Result<Option<HandleValue>>)
      requires Valid()
      modifies this
      ensures Valid() && Evolves(old(Snap()), Snap())
      ensures r.Ok? <==> IsNew(old(Snap()), name)
      ensures r.Ok? ==> r.value == Some(HandleValue(StorageContract(Local), Owned, Live))
      ensures Snap() == if r.Ok? then Declared(old(Snap()), name, HandleValue(StorageContract(Local), Owned, Live))
        else old(Snap())
    {
      var value := DeclareValue(name, Local, Owned, None);
      r := if value.Ok? then Ok(Some(value.value)) else Err(value.error);
    }

    /** A new owned handle from storage that keeps handles. */
    method LoadStorage(storageName: string, target: string) returns (r: Result<HandleValue>)
      requires Valid()
      modifies this
      ensures Valid() && Evolves(old(Snap()), Snap())
      ensures r.Ok? <==> IsKeeper(old(Snap()), storageName) && IsNew(old(Snap()), target)
      ensures r.Ok? ==> r.value == HandleValue(StorageContract(Local), Owned, Live)
      ensures Snap() == if r.Ok? then Declared(old(Snap()), target, r.value) else old(Snap())
    {
      var contract := Storage(storageName);
      if contract.Err? {
        return Err(contract.error);
      }
      StorageByKind(contract.value.kind);
      if !contract.value.loadReturnsOwnedLocal {
        return Err(InvalidStorage);
      }
      r := DeclareValue(target, Local, Owned, None);
    }

    method StoreStorage(storageName: string, valueName: string) returns (r: Result<HandleValue>)
      ensures r.Ok? <==> IsKeeper(Snap(), storageName) && IsLive(Snap(), valueName)
    {
      var contract := Storage(storageName);
      if contract.Err? {
        return Err(contract.error);
      }
      if contract.value.kind !in {Field, Global} {
        return Err(InvalidStorage);
      }
      r := Use(valueName);
    }

    /** An owned result is handed over; any other has to be duplicated. */
    method PrepareReturn(name: string) returns (r: Result<Transfer>)
      requires Valid()
      modifies this
      ensures Valid() && Evolves(old(Snap()), Snap())
      ensures r.Ok? <==> IsLive(old(Snap()), name)
      ensures r.Ok? ==> (r.value == Move <==> IsLiveOwned(old(Snap()), name))
      ensures Snap() == if r == Ok(Move) then Consumed(old(Snap()), name, Moved) else old(Snap())
      ensures LiveOwned(Snap()) == old(LiveOwned(Snap())) - if r.Ok? then {name} else {}
    {
      var value := Use(name);
      if value.Err? {
        return Err(value.error);
      }
      if value.value.ownership == Owned {
        var moved := MoveOut(name);
        return Ok(Transfer.Move);
      }
      return Ok(Transfer.Duplicate);
    }

    method UseAllOf(preserved: set<string>) returns (r: Result<()>)
      ensures r.Ok? <==> forall n <- preserved :: IsLive(Snap(), n)
    {
      var todo := preserved;
      while todo != {}
        invariant todo <= preserved && forall n <- preserved :: n in todo || IsLive(Snap(), n)
      {
        var name :| name in todo;
        todo := todo - {name};
        var used := Use(name);
        if used.Err? {
          return Err(used.error);
        }
      }
      r := Ok(());
    }

    method NamesToClose(preserved: set<string>) returns (closeNames: seq<string>)
      requires Valid()
      ensures closeNames == ToClose(Snap(), |names|, preserved)
    {
      closeNames := [];
      for k := 0 to |names|
        invariant closeNames == ToClose(Snap(), k, preserved)
      {
        if values[names[k]].ownership == Owned && values[names[k]].state == Live && names[k] !in preserved {
          closeNames := [names[k]] + closeNames;
        }
      }
    }

    /** Which handles an exit has to close: all live owned ones except the preserved. */
    method PlanCleanup(exitKind: ExitKind, preserved: set<string>) returns (r: Result<CleanupPlan>)
      requires Valid()
      ensures r.Ok? <==> forall n <- preserved :: IsLive(Snap(), n)
      ensures r.Ok? ==> r.value == CleanupPlan(exitKind, ToClose(Snap(), |names|, preserved))
    {
      var used := UseAllOf(preserved);
      if used.Err? {
        return Err(used.error);
      }
      var closeNames := NamesToClose(preserved);
      r := Ok(CleanupPlan(exitKind, closeNames));
    }

    /** Closes what a plan says; that cannot fail if all of it is live and owned. */
    method ApplyCleanupPlan(plan: CleanupPlan) returns (r: Result<()>)
      requires Valid()
      modifies this
      ensures Valid() && Evolves(old(Snap()), Snap())
      ensures r.Ok? <==> Closable(old(Snap()), plan.closeNames, |plan.closeNames|)
      ensures Closable(old(Snap()), plan.closeNames, 0)
      ensures Snap() == ClosedAll(old(Snap()), plan.closeNames, ClosableUpTo(old(Snap()), plan.closeNames, 0))
    {
      ghost var k;
      r, k := CloseNames(plan.closeNames);
      NoneToClose(old(Snap()), plan.closeNames);
      StopsThere(old(Snap()), plan.closeNames, k);
    }

    /** Closes the names in order, up to the first one that cannot be closed. */
    method CloseNames(todo: seq<string>) returns (r: Result<()>, ghost k: nat)
      requires Valid()
      modifies this
      ensures Valid() && Evolves(old(Snap()), Snap()) && k <= |todo| && (r.Ok? <==> k == |todo|)
      ensures Closable(old(Snap()), todo, k) && (k < |todo| ==> !Closable(old(Snap()), todo, k + 1))
      ensures Snap() == ClosedAll(old(Snap()), todo, k)
    {
      ghost var s := Snap();
      ClosedNone(s, todo);
      k := 0;
      for i := 0 to |todo|
        invariant k == i && Valid() && Evolves(s, Snap())
        invariant Closable(s, todo, i) && Snap() == ClosedAll(s, todo, i)
      {
        ClosedStep(s, todo, i);
        ghost var before := Snap();
        var closed := Close(todo[i]);
        EvolvesTransitive(s, before, Snap());
        if closed.Err? {
          return Err(closed.error), i;
        }
        k := i + 1;
      }
      r := Ok(());
    }

    /** The names of the live owned handles. */
    method LiveOwnedHandles() returns (live: seq<string>)
      requires Valid()
      ensures forall n :: n in live <==> IsLiveOwned(Snap(), n)
      ensures forall i, j :: 0 <= i < j < |live| ==> Before(names, live[i], live[j])
    {
      live := [];
      for k := 0 to |names|
        invariant forall n :: n in live <==> n in names[..k] && IsLiveOwned(Snap(), n)
        invariant forall i, j :: 0 <= i < j < |live| ==> Before(names[..k], live[i], live[j])
      {
        TakeOneMore(names, k + 1);
        BeforeGrows(names[..k], names[k]);
        if values[names[k]].ownership == Owned && values[names[k]].state == Live {
          live := live + [names[k]];
        }
      }
      assert names[..|names|] == names;
    }

    /** Passes if nothing is left to be closed or moved. */
    method AssertNoLiveOwnedHandles() returns (r: Result<()>)
      requires Valid()
      ensures r.Ok? <==> forall n :: !IsLiveOwned(Snap(), n)
      ensures r.Err? ==> r.error == InvalidTransition
    {
      var live := LiveOwnedHandles();
      if live != [] {
        assert live[0] in live;
        return Err(InvalidTransition);
      }
      r := Ok(());
    }
  }

  // ---------------------------------------------------------------- leaving a function

  /** What leaving with a result, and with some handles preserved, does to the handles. */
  ghost predicate LeftWith(s: State, t: State, result: string, preserved: set<string>) {
    && Evolves(s, t) && LiveOwned(t) == LiveOwned(s) * preserved - {result}
    && forall n <- s.values :: s.values[n].ownership != Owned ==> t.values[n] == s.values[n]
  }

  lemma CleanupLeaves(s: State, t: State, result: string, preserved: set<string>, plan: seq<string>)
    requires WellFormed(t) && Evolves(s, t) && s.names == t.names && LiveOwned(t) == LiveOwned(s) - {result}
    requires plan == ToClose(t, |t.names|, preserved) && Evolves(t, ClosedAll(t, plan, |plan|))
    ensures LeftWith(s, ClosedAll(t, plan, |plan|), result, preserved)
    ensures forall n <- plan :: n in t.values && ClosedAll(t, plan, |plan|).values[n].state == Closed
    ensures Backwards(plan, s.names)
  {
    CleanedUp(t, preserved);
    ToCloseExactly(t, preserved);
    EvolvesTransitive(s, t, ClosedAll(t, plan, |plan|));
    assert plan[..|plan|] == plan;
  }

  /** The result and the handles to keep are live, and what is handed over is not kept. */
  predicate CanReturn(s: State, result: string, preserved: set<string>) {
    && IsLive(s, result) && (forall n <- preserved :: IsLive(s, n))
    && !(result in preserved && IsLiveOwned(s, result))
  }

  datatype Returned = Returned(transfer: Transfer, plan: CleanupPlan)

  /** Handing over a result and cleaning up behind it: this leaves exactly the preserved
      handles, and fails only if those could not be had in the first place. */
  method ReturnWith(tracker: HandleStateTracker, result: string, preserved: set<string>) returns (r: Result<Returned>)
    requires tracker.Valid()
    modifies tracker
    ensures tracker.Valid() && Evolves(old(tracker.Snap()), tracker.Snap())
    ensures r.Ok? <==> CanReturn(old(tracker.Snap()), result, preserved)
    ensures r.Err? && IsLiveOwned(old(tracker.Snap()), result) ==>
      tracker.Snap() == Consumed(old(tracker.Snap()), result, Moved)
    ensures r.Err? && !IsLiveOwned(old(tracker.Snap()), result) ==> tracker.Snap() == old(tracker.Snap())
    ensures r.Ok? ==> LeftWith(old(tracker.Snap()), tracker.Snap(), result, preserved)
    ensures r.Ok? ==> (r.value.transfer == Move <==> IsLiveOwned(old(tracker.Snap()), result))
    ensures r.Ok? ==> Backwards(r.value.plan.closeNames, old(tracker.names))
    ensures r.Ok? ==> forall n <- r.value.plan.closeNames :: n in tracker.values && tracker.values[n].state == Closed
  {
    ghost var s := tracker.Snap();
    var prepared := tracker.PrepareReturn(result);
    if prepared.Err? {
      return Err(prepared.error);
    }
    ghost var t := tracker.Snap();
    StillLive(s, t, result, preserved);
    var planned := tracker.PlanCleanup(ReturnExit, preserved);
    if planned.Err? {
      return Err(planned.error);
    }
    PlanIsClosable(t, preserved);
    var plan := planned.value;
    StopsThere(t, plan.closeNames, |plan.closeNames|);
    var applied := tracker.ApplyCleanupPlan(plan);
    CleanupLeaves(s, t, result, preserved, plan.closeNames);
    r := Ok(Returned(prepared.value, plan));
  }

  lemma StillLive(s: State, t: State, result: string, preserved: set<string>)
    requires IsLive(s, result) && t == if IsLiveOwned(s, result) then Consumed(s, result, Moved) else s
    ensures CanReturn(s, result, preserved) <==> forall n <- preserved :: IsLive(t, n)
  {
    forall n ensures IsLive(t, n) <==> IsLive(s, n) && !(n == result && IsLiveOwned(s, result)) {
    }
  }

  /** A moved result cannot be kept as well: that fails, after the move. */
  method ReturnedAndKept() returns (r: Result<Returned>, tracker: HandleStateTracker)
    ensures r.Err? && tracker.Valid() && "x" in tracker.values && tracker.values["x"].state == Moved
  {
    tracker := new HandleStateTracker();
    DeclarableValues(Local, Owned, None);
    var declared := tracker.DeclareValue("x", Local, Owned, None);
    r := ReturnWith(tracker, "x", {"x"});
  }

  // -------------------------------------------------------------------- control flow

  /** A copy that goes its own way from here on. */
  method Fork(tracker: HandleStateTracker) returns (copy: HandleStateTracker)
    requires tracker.Valid()
    ensures fresh(copy) && copy.Valid() && copy.Snap() == tracker.Snap()
  {
    copy := new HandleStateTracker();
    copy.storage, copy.names, copy.values := tracker.storage, tracker.names, tracker.values;
  }

  /** The two branches agree on storage and on every handle. */
  predicate Agree(s: State, t: State) {
    s.storage == t.storage && s.values == t.values
  }

  /** Branches can be merged exactly if they agree with each other. */
  method Merge(branches: seq<HandleStateTracker>) returns (r: Result<HandleStateTracker>)
    requires forall b <- branches :: b.Valid()
    ensures r.Ok? <==> branches != [] && forall b <- branches :: Agree(branches[0].Snap(), b.Snap())
    ensures r.Ok? ==> fresh(r.value) && r.value.Valid() && r.value.Snap() == branches[0].Snap()
    ensures r.Err? ==> r.error == if branches == [] then ModelError else InvalidTransition
  {
    if branches == [] {
      return Err(ModelError);
    }
    var first := branches[0];
    for i := 1 to |branches|
      invariant forall j :: 0 <= j < i ==> Agree(first.Snap(), branches[j].Snap())
    {
      var agree := BranchAgrees(first, branches[i]);
      if !agree {
        return Err(InvalidTransition);
      }
    }
    var copy := Fork(first);
    r := Ok(copy);
  }

  method BranchAgrees(first: HandleStateTracker, branch: HandleStateTracker) returns (agree: bool)
    requires first.Valid() && branch.Valid()
    ensures agree <==> Agree(first.Snap(), branch.Snap())
  {
    if branch.storage != first.storage || branch.values.Keys != first.values.Keys {
      return false;
    }
    for k := 0 to |first.names|
      invariant forall l :: 0 <= l < k ==>
        ValueAt(first.values, first.names[l]) == ValueAt(branch.values, first.names[l])
    {
      var name := first.names[k];
      if branch.values[name] != first.values[name] {
        return false;
      }
    }
    forall n | n in first.values ensures first.values[n] == branch.values[n] {
      var l :| 0 <= l < |first.names| && first.names[l] == n;
      assert ValueAt(first.values, first.names[l]) == ValueAt(branch.values, first.names[l]);
    }
    assert first.values == branch.values;
    return true;
  }

  function ValueAt(values: map<string, HandleValue>, n: string): Option<HandleValue> {
    if n in values then Some(values[n]) else None
  }
}

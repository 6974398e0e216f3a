/** Reusable C slots, each use of which is a lifetime of its own. */
module HandleManagers {
  import opened Wrappers
  import opened HandleModel
  import opened HandleTracker
  import opened HandleStateTracker
  import opened Decimal

  function Identity(cname: string, generation: nat): string {
    cname + "#" + Digits(generation)
  }

  /** Different lifetimes have different identities, even if there are `#` in slot names. */
  lemma IdentityInjective(c: string, g: nat, c': string, g': nat)
    requires Identity(c, g) == Identity(c', g')
    ensures c == c' && g == g'
  {
    DigitsAreDigits(g);
    DigitsAreDigits(g');
    var d, d', id := Digits(g), Digits(g'), Identity(c, g);
    assert id[|c|] == '#' && id[|c'|] == '#';
    assert forall i :: |c| < i < |id| ==> id[i] == d[i - |c| - 1] && IsDigit(id[i]);
    assert forall i :: |c'| < i < |id| ==> id[i] == d'[i - |c'| - 1] && IsDigit(id[i]);
    assert |c| == |c'|;
    assert c == id[..|c|] == c' && d == id[|c| + 1..] == d';
    DigitsInjective(g, g');
  }

  datatype Binding = Binding(cname: string, identity: string, ownership: Ownership)

  predicate IsIssued(generations: map<string, nat>, n: string, c: string, g: nat) {
    c in generations && 1 <= g <= generations[c] && n == Identity(c, g)
  }

  ghost predicate WasIssued(generations: map<string, nat>, n: string) {
    exists c: string, g: nat :: IsIssued(generations, n, c, g)
  }

  /** Each active slot stands for its newest generation (there may be gaps below it, where a
      declaration failed), and outside the active slots nothing is live and owned. */
  ghost predicate Bound(active: map<string, Binding>, generations: map<string, nat>, s: State) {
    && s.storage == map[]
    && (forall c <- active :: IsBound(active[c], c, generations, s))
    && (forall n <- s.values :: WasIssued(generations, n))
    && forall n :: IsLiveOwned(s, n) ==> exists c <- active :: active[c].identity == n
  }

  predicate IsBound(b: Binding, c: string, generations: map<string, nat>, s: State) {
    && c in generations && generations[c] >= 1 && b.cname == c && b.identity == Identity(c, generations[c])
    && b.identity in s.values && s.values[b.identity].ownership == b.ownership
  }

  /** The identity of the next generation has never been used. */
  lemma NextIsNew(active: map<string, Binding>, generations: map<string, nat>, s: State, c: string)
    requires Bound(active, generations, s)
    ensures Identity(c, (if c in generations then generations[c] else 0) + 1) !in s.values
  {
    var g := (if c in generations then generations[c] else 0) + 1;
    if Identity(c, g) in s.values {
      var c', g' :| IsIssued(generations, Identity(c, g), c', g');
      IdentityInjective(c, g, c', g');
      assert false;
    }
  }

  /** Raising the generation of a slot that is not active. */
  lemma Raised(active: map<string, Binding>, generations: map<string, nat>, s: State, c: string, g: nat)
    requires Bound(active, generations, s) && c !in active && (c in generations ==> generations[c] < g)
    ensures Bound(active, generations[c := g], s)
  {
    forall n | n in s.values ensures WasIssued(generations[c := g], n) {
      assert WasIssued(generations, n);
      var c', g' :| IsIssued(generations, n, c', g');
      assert IsIssued(generations[c := g], n, c', g');
    }
  }

  lemma Allocated(active: map<string, Binding>, generations: map<string, nat>, s: State, c: string, v: HandleValue)
    requires Bound(active, generations, s) && c !in active && c in generations && generations[c] >= 1
    requires Identity(c, generations[c]) !in s.values && v.state == Live
    ensures var id := Identity(c, generations[c]);
      Bound(active[c := Binding(c, id, v.ownership)], generations, Declared(s, id, v))
  {
    var id := Identity(c, generations[c]);
    var active', t := active[c := Binding(c, id, v.ownership)], Declared(s, id, v);
    assert IsIssued(generations, id, c, generations[c]);
    forall n | IsLiveOwned(t, n) ensures exists c' <- active' :: active'[c'].identity == n {
      if n == id {
        assert active'[c].identity == n;
      } else {
        assert IsLiveOwned(s, n);
        var c' :| c' in active && active[c'].identity == n;
        assert active'[c'].identity == n;
      }
    }
  }

  lemma StillBound(active: map<string, Binding>, generations: map<string, nat>, s: State, n: string,
                   target: HandleState)
    requires Bound(active, generations, s) && IsLiveOwned(s, n) && target != Live
    ensures Bound(active, generations, Consumed(s, n, target))
  {
    var t := Consumed(s, n, target);
    forall m | IsLiveOwned(t, m) ensures exists c <- active :: active[c].identity == m {
      assert IsLiveOwned(s, m);
    }
  }

  lemma Released(active: map<string, Binding>, generations: map<string, nat>, s: State, c: string)
    requires Bound(active, generations, s) && c in active && !IsLiveOwned(s, active[c].identity)
    ensures Bound(active - {c}, generations, s)
  {
    forall n | IsLiveOwned(s, n) ensures exists c' <- active - {c} :: (active - {c})[c'].identity == n {
      var c' :| c' in active && active[c'].identity == n;
      assert c' in active - {c};
    }
  }

  function LiveSlots(active: map<string, Binding>, s: State): set<string> {
    set c | c in active && IsLiveOwned(s, active[c].identity)
  }

  /** The slots that hold a live owned handle stand for exactly the live owned handles of the
      tracker: if the one leaks, so does the other. */
  lemma LeakChecksAgree(active: map<string, Binding>, generations: map<string, nat>, s: State)
    requires Bound(active, generations, s)
    ensures forall n :: n in LiveOwned(s) <==> exists c <- LiveSlots(active, s) :: active[c].identity == n
    ensures LiveSlots(active, s) == {} <==> LiveOwned(s) == {}
  {
    forall n | IsLiveOwned(s, n) ensures exists c <- LiveSlots(active, s) :: active[c].identity == n {
      var c :| c in active && active[c].identity == n;
      assert c in LiveSlots(active, s);
    }
    if LiveOwned(s) != {} {
      var n :| n in LiveOwned(s);
    }
    if LiveSlots(active, s) != {} {
      var c :| c in LiveSlots(active, s);
      assert active[c].identity in LiveOwned(s);
    }
  }

  class HandleTemporaryManager {
    const state: HandleStateTracker
    var active: map<string, Binding>
    var generations: map<string, nat>

    constructor ()
      ensures Valid() && active == map[] && fresh(state)
    {
      state := new HandleStateTracker();
      active, generations := map[], map[];
    }

    ghost predicate Valid()
      reads this, state
    {
      state.Valid() && Bound(active, generations, state.Snap())
    }

    function BindingOf(cname: string): Result<Binding>
      reads this
    {
      if cname in active then Ok(active[cname]) else Err(ModelError)
    }

    /** Starts a new lifetime in a slot.  The generation is raised even if the declaration
        then fails, which it does only for an immortal handle. */
    method Allocate(cname: string, ownership: Ownership) returns (r: Result<Binding>)
      requires Valid()
      modifies this, state
      ensures Valid() && Evolves(old(state.Snap()), state.Snap())
      ensures generations == if cname in old(active) then old(generations)
                             else old(generations)[cname := (if cname in old(generations) then old(generations)[cname]
                                                             else 0) + 1]
      ensures r == if cname in old(active) then Err(ModelError)
                   else if ownership == Immortal then Err(InvalidStorage)
                   else Ok(Binding(cname, Identity(cname, generations[cname]), ownership))
      ensures r.Ok? ==> r.value.identity !in old(state.values) && active == old(active)[cname := r.value]
      ensures r.Ok? ==>
        var v := HandleValue(StorageContract(Local), ownership, Live);
        state.Snap() == Declared(old(state.Snap()), r.value.identity, v)
      ensures r.Err? ==> active == old(active) && state.Snap() == old(state.Snap())
    {
      if cname in active {
        return Err(ModelError);
      }
      var identity := NextIdentity(cname);
      ghost var s := state.Snap();
      var value := state.DeclareValue(identity, Local, ownership, None);
      if value.Err? {
        return Err(value.error);
      }
      Allocated(active, generations, s, cname, value.value);
      var binding := Binding(cname, identity, ownership);
      active := active[cname := binding];
      r := Ok(binding);
    }

    method NextIdentity(cname: string) returns (identity: string)
      requires Valid() && cname !in active
      modifies this`generations
      ensures Valid() && identity !in state.values && identity !in state.storage
      ensures generations ==
        old(generations)[cname := (if cname in old(generations) then old(generations)[cname] else 0) + 1]
      ensures identity == Identity(cname, generations[cname])
    {
      var generation := (if cname in generations then generations[cname] else 0) + 1;
      NextIsNew(active, generations, state.Snap(), cname);
      Raised(active, generations, state.Snap(), cname, generation);
      generations := generations[cname := generation];
      identity := Identity(cname, generation);
    }

    method Use(cname: string) returns (r: Result<HandleValue>)
      ensures r == if cname in active then UseOf(state.Snap(), active[cname].identity) else Err(ModelError)
    {
      var binding := BindingOf(cname);
      r := if binding.Ok? then state.Use(binding.value.identity) else Err(binding.error);
    }

    method Close(cname: string) returns (r: Result<HandleValue>)
      requires Valid()
      modifies state
      ensures Valid() && Evolves(old(state.Snap()), state.Snap())
      ensures r.Ok? <==> cname in active && IsLiveOwned(old(state.Snap()), active[cname].identity)
      ensures state.Snap() == if r.Ok? then Consumed(old(state.Snap()), active[cname].identity, Closed)
        else old(state.Snap())
    {
      var binding := BindingOf(cname);
      if binding.Err? {
        return Err(binding.error);
      }
      ghost var s := state.Snap();
      r := state.Close(binding.value.identity);
      if r.Ok? {
        StillBound(active, generations, s, binding.value.identity, Closed);
      }
    }

    method MoveOut(cname: string) returns (r: Result<HandleValue>)
      requires Valid()
      modifies state
      ensures Valid() && Evolves(old(state.Snap()), state.Snap())
      ensures r.Ok? <==> cname in active && IsLiveOwned(old(state.Snap()), active[cname].identity)
      ensures state.Snap() == if r.Ok? then Consumed(old(state.Snap()), active[cname].identity, Moved)
        else old(state.Snap())
    {
      var binding := BindingOf(cname);
      if binding.Err? {
        return Err(binding.error);
      }
      ghost var s := state.Snap();
      r := state.MoveOut(binding.value.identity);
      if r.Ok? {
        StillBound(active, generations, s, binding.value.identity, Moved);
      }
    }

    /** A slot can be given back once its handle is not live and owned any more. */
    method Release(cname: string) returns (r: Result<HandleValue>)
      requires Valid()
      modifies this
      ensures Valid() && generations == old(generations)
      ensures r.Ok? <==> cname in old(active) && !IsLiveOwned(state.Snap(), old(active)[cname].identity)
      ensures r.Ok? ==> r.value == state.values[old(active)[cname].identity]
      ensures active == if r.Ok? then old(active) - {cname} else old(active)
    {
      var binding := BindingOf(cname);
      if binding.Err? {
        return Err(binding.error);
      }
      var value := state.Value(binding.value.identity);
      if value.Err? {
        return value;
      }
      if value.value.ownership == Owned && value.value.state == Live {
        return Err(InvalidTransition);
      }
      Released(active, generations, state.Snap(), cname);
      active := active - {cname};
      r := value;
    }

    method LiveOwnedHandles() returns (live: set<string>)
      requires Valid()
      ensures live == LiveSlots(active, state.Snap())
      ensures live == {} <==> LiveOwned(state.Snap()) == {}
    {
      LeakChecksAgree(active, generations, state.Snap());
      live := set cname | cname in active && (var value := state.Value(active[cname].identity);
        value.Ok? && value.value.ownership == Owned && value.value.state == Live);
    }

    /** The leak check passes exactly when the tracker's own does. */
    method AssertNoLiveOwnedHandles() returns (r: Result<()>)
      requires Valid()
      ensures r.Ok? <==> LiveOwned(state.Snap()) == {}
    {
      var live := LiveOwnedHandles();
      r := if live == {} then Ok(()) else Err(InvalidTransition);
    }
  }

  // ----------------------------------------------------------------------- builders

  datatype BuilderState = LiveBuilder | Built | Cancelled

  datatype BuilderBinding = BuilderBinding(cname: string, identity: string, state: BuilderState)

  class HandleBuilderManager {
    var active: map<string, BuilderBinding>
    var generations: map<string, nat>

    // The identities given out so far.
    ghost var issued: set<string>

    constructor ()
      ensures Valid() && active == map[] && issued == {}
    {
      active, generations, issued := map[], map[], {};
    }

    ghost predicate Valid()
      reads this
    {
      && (forall c <- active :: c in generations && generations[c] >= 1
            && active[c].cname == c && active[c].identity == Identity(c, generations[c])
               && active[c].identity in issued)
      && forall n <- issued :: WasIssued(generations, n)
    }

    method Allocate(cname: string) returns (r: Result<BuilderBinding>)
      requires Valid()
      modifies this
      ensures Valid() && (r.Ok? <==> cname !in old(active))
      ensures r.Ok? ==>
        && r.value.cname == cname && r.value.state == LiveBuilder && r.value.identity !in old(issued)
        && active == old(active)[cname := r.value] && issued == old(issued) + {r.value.identity}
      ensures r.Err? ==> active == old(active) && issued == old(issued)
    {
      if cname in active {
        return Err(ModelError);
      }
      var generation := (if cname in generations then generations[cname] else 0) + 1;
      var identity := Identity(cname, generation);
      NewlyIssued(generations, issued, cname, generation);
      generations := generations[cname := generation];
      var binding := BuilderBinding(cname, identity, LiveBuilder);
      active := active[cname := binding];
      issued := issued + {identity};
      r := Ok(binding);
    }

    function Use(cname: string): Result<BuilderBinding>
      reads this
    {
      if cname !in active then Err(ModelError)
      else if active[cname].state != LiveBuilder then Err(InvalidTransition)
      else Ok(active[cname])
    }

    /** Builds or cancels: a builder can be finished only once. */
    method Finish(cname: string, state: BuilderState) returns (r: Result<BuilderBinding>)
      requires Valid() && state != LiveBuilder
      modifies this
      ensures Valid() && issued == old(issued)
      ensures r.Ok? <==> cname in old(active) && old(active)[cname].state == LiveBuilder
      ensures active == if r.Ok? then old(active)[cname := old(active)[cname].(state := state)] else old(active)
    {
      r := Use(cname);
      if r.Ok? {
        r := Ok(r.value.(state := state));
        active := active[cname := r.value];
      }
    }

    /** Only a finished builder can be given back. */
    method Release(cname: string) returns (r: Result<BuilderBinding>)
      requires Valid()
      modifies this
      ensures Valid() && issued == old(issued)
      ensures r.Ok? <==> cname in old(active) && old(active)[cname].state != LiveBuilder
      ensures active == if r.Ok? then old(active) - {cname} else old(active)
    {
      if cname !in active {
        return Err(ModelError);
      }
      if active[cname].state == LiveBuilder {
        return Err(InvalidTransition);
      }
      r := Ok(active[cname]);
      active := active - {cname};
    }
  }

  lemma NewlyIssued(generations: map<string, nat>, issued: set<string>, c: string, g: nat)
    requires forall n <- issued :: WasIssued(generations, n)
    requires g == (if c in generations then generations[c] else 0) + 1
    ensures Identity(c, g) !in issued
    ensures forall n <- issued + {Identity(c, g)} :: WasIssued(generations[c := g], n)
  {
    forall c', g' | IsIssued(generations, Identity(c, g), c', g') ensures false {
      IdentityInjective(c, g, c', g');
    }
    forall n | n in issued ensures WasIssued(generations[c := g], n) {
      assert WasIssued(generations, n);
      var c', g' :| IsIssued(generations, n, c', g');
      assert IsIssued(generations[c := g], n, c', g');
    }
    assert IsIssued(generations[c := g], Identity(c, g), c, g);
  }
}

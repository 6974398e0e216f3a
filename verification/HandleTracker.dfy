/** The handles of one control-flow state: a machine in which handles are declared, used
    up at most once, and cleaned up. */
module HandleTracker {
  import opened HandleModel

  /** The declared values are remembered in the order of their declaration. */
  datatype State = State(storage: map<string, HandleStorage>, names: seq<string>, values: map<string, HandleValue>)

  predicate WellFormed(s: State) {
    && (forall i, j :: 0 <= i < j < |s.names| ==> s.names[i] != s.names[j])
    && (forall n <- s.names :: n in s.values)
    && (forall n <- s.values :: n in s.names && n !in s.storage)
    && (forall n <- s.storage :: s.storage[n] == StorageContract(s.storage[n].kind))
    && forall n <- s.values ::
       ValueAllowed(s.values[n]) && (s.values[n].state != Live ==> s.values[n].ownership == Owned)
  }

  predicate IsNew(s: State, n: string) {
    n !in s.storage && n !in s.values
  }

  /** The name is declared as storage of a kind that keeps handles. */
  predicate IsKeeper(s: State, n: string) {
    n in s.storage && KeepsHandles(s.storage[n].kind)
  }

  predicate IsLive(s: State, n: string) {
    n in s.values && s.values[n].state == Live
  }

  predicate IsLiveOwned(s: State, n: string) {
    IsLive(s, n) && s.values[n].ownership == Owned
  }

  function LiveOwned(s: State): set<string> {
    set n | n in s.values && IsLiveOwned(s, n)
  }

  /** What any number of operations may do: new handles are declared behind the others, and
      live owned ones are used up.  Nothing else ever changes. */
  predicate Evolves(s: State, t: State) {
    && s.names <= t.names
    && (forall n <- s.storage :: n in t.storage && t.storage[n] == s.storage[n])
    && forall n <- s.values ::
         && n in t.values && t.values[n].storage == s.values[n].storage
            && t.values[n].ownership == s.values[n].ownership
         && (t.values[n].state != s.values[n].state ==> IsLiveOwned(s, n))
  }

  lemma EvolvesTransitive(s: State, t: State, u: State)
    requires Evolves(s, t) && Evolves(t, u)
    ensures Evolves(s, u)
  {
  }

  // ------------------------------------------------------------------------ steps

  function UseOf(s: State, n: string): Result<HandleValue> {
    if n !in s.values then Err(ModelError)
    else if s.values[n].state != Live then Err(InvalidTransition)
    else Ok(s.values[n])
  }

  function Consumed(s: State, n: string, target: HandleState): State
    requires n in s.values
  {
    s.(values := s.values[n := s.values[n].(state := target)])
  }

  function Declared(s: State, n: string, v: HandleValue): State {
    s.(names := s.names + [n], values := s.values[n := v])
  }

  lemma ConsumedEvolves(s: State, n: string, target: HandleState)
    requires WellFormed(s) && IsLiveOwned(s, n)
    ensures WellFormed(Consumed(s, n, target)) && Evolves(s, Consumed(s, n, target))
    ensures target != Live ==> LiveOwned(Consumed(s, n, target)) == LiveOwned(s) - {n}
  {
    var t := Consumed(s, n, target);
    assert t.values.Keys == s.values.Keys && t.names == s.names && t.storage == s.storage;
    forall m | m in t.values && m != n ensures t.values[m] == s.values[m] {
    }
  }

  lemma DeclaredEvolves(s: State, n: string, v: HandleValue)
    requires WellFormed(s) && n !in s.values && n !in s.storage && ValueAllowed(v) && v.state == Live
    ensures WellFormed(Declared(s, n, v)) && Evolves(s, Declared(s, n, v))
    ensures LiveOwned(Declared(s, n, v)) == LiveOwned(s) + if v.ownership == Owned then {n} else {}
  {
    var t := Declared(s, n, v);
    assert t.names[|s.names|] == n;
    forall m | m in t.values ensures m in t.names && m !in t.storage {
      if m != n {
        assert m in s.names;
      }
    }
    DeclaredLiveOwned(s, n, v);
  }

  lemma DeclaredLiveOwned(s: State, n: string, v: HandleValue)
    requires n !in s.values && v.state == Live
    ensures LiveOwned(Declared(s, n, v)) == LiveOwned(s) + if v.ownership == Owned then {n} else {}
  {
    var t := Declared(s, n, v);
    assert forall m :: IsLiveOwned(t, m) <==> IsLiveOwned(s, m) || (m == n && v.ownership == Owned);
  }

  // ------------------------------------------------------------------------ cleanup

  /** The live owned handles among the first `k` declared that are not preserved, the last
      one first. */
  function ToClose(s: State, k: nat, preserved: set<string>): seq<string>
    requires k <= |s.names| && forall n <- s.names :: n in s.values
  {
    if k == 0 then []
    else
      var n := s.names[k - 1];
      (if IsLiveOwned(s, n) && n !in preserved then [n] else []) + ToClose(s, k - 1, preserved)
  }

  /** Exactly those. */
  lemma {:induction false} ToCloseMembers(s: State, k: nat, preserved: set<string>)
    requires k <= |s.names| && forall n <- s.names :: n in s.values
    ensures forall n :: n in ToClose(s, k, preserved) <==> n in s.names[..k] && IsLiveOwned(s, n) && n !in preserved
  {
    if k > 0 {
      ToCloseMembers(s, k - 1, preserved);
      assert s.names[..k] == s.names[..k - 1] + [s.names[k - 1]];
    }
  }

  /** The plan goes backwards through the names. */
  predicate Backwards(plan: seq<string>, names: seq<string>) {
    forall i, j :: 0 <= i < j < |plan| ==> Before(names, plan[j], plan[i])
  }

  /** Each once, in the reverse order of their declaration. */
  lemma {:induction false} ToCloseOrder(s: State, k: nat, preserved: set<string>)
    requires k <= |s.names| && forall n <- s.names :: n in s.values
    ensures Backwards(ToClose(s, k, preserved), s.names[..k])
  {
    if k > 0 {
      var rest, earlier, n := ToClose(s, k - 1, preserved), s.names[..k - 1], s.names[k - 1];
      ToCloseOrder(s, k - 1, preserved);
      ToCloseMembers(s, k - 1, preserved);
      BackwardsCons(rest, n, earlier);
      PlanOf(s, k, preserved);
      TakeOneMore(s.names, k);
    }
  }

  lemma TakeOneMore(names: seq<string>, k: nat)
    requires 0 < k <= |names|
    ensures names[..k] == names[..k - 1] + [names[k - 1]]
  {
  }

  lemma PlanOf(s: State, k: nat, preserved: set<string>)
    requires 0 < k <= |s.names| && forall n <- s.names :: n in s.values
    ensures var plan, rest := ToClose(s, k, preserved), ToClose(s, k - 1, preserved);
      plan == rest || plan == [s.names[k - 1]] + rest
  {
    var rest := ToClose(s, k - 1, preserved);
    assert [] + rest == rest;
  }

  lemma BackwardsCons(rest: seq<string>, n: string, earlier: seq<string>)
    requires Backwards(rest, earlier) && forall m <- rest :: m in earlier
    ensures Backwards(rest, earlier + [n]) && Backwards([n] + rest, earlier + [n])
  {
    BeforeGrows(earlier, n);
    var all := [n] + rest;
    forall i, j | 0 <= i < j < |all| ensures Before(earlier + [n], all[j], all[i]) {
      assert all[j] == rest[j - 1] && rest[j - 1] in rest;
      if i > 0 {
        assert all[i] == rest[i - 1] && Before(earlier, rest[j - 1], rest[i - 1]);
      }
    }
  }

  lemma ToCloseExactly(s: State, preserved: set<string>)
    requires WellFormed(s)
    ensures var plan := ToClose(s, |s.names|, preserved);
      (forall n :: n in plan <==> IsLiveOwned(s, n) && n !in preserved) && Backwards(plan, s.names)
  {
    ToCloseMembers(s, |s.names|, preserved);
    ToCloseOrder(s, |s.names|, preserved);
    assert s.names[..|s.names|] == s.names;
  }

  lemma BeforeGrows(names: seq<string>, n: string)
    ensures forall a, b :: Before(names, a, b) ==> Before(names + [n], a, b)
    ensures forall m <- names :: Before(names + [n], m, n)
  {
    var more := names + [n];
    forall a, b | Before(names, a, b) ensures Before(more, a, b) {
      var i, j :| 0 <= i < j < |names| && names[i] == a && names[j] == b;
      assert more[i] == a && more[j] == b;
    }
    forall m | m in names ensures Before(more, m, n) {
      var i :| 0 <= i < |names| && names[i] == m;
      assert more[i] == m && more[|names|] == n;
    }
  }

  predicate Before(names: seq<string>, a: string, b: string) {
    exists i, j :: 0 <= i < j < |names| && names[i] == a && names[j] == b
  }

  /** The first `k` of the names have been closed. */
  function ClosedAll(s: State, names: seq<string>, k: nat): State
    requires k <= |names|
  {
    s.(values := map n | n in s.values :: if n in names[..k] then s.values[n].(state := Closed) else s.values[n])
  }

  lemma ClosedNone(s: State, names: seq<string>)
    ensures ClosedAll(s, names, 0) == s
  {
    assert ClosedAll(s, names, 0).values == s.values;
  }

  /** The first `k` of the names can be closed: live owned handles, each once. */
  predicate Closable(s: State, names: seq<string>, k: nat)
    requires k <= |names|
  {
    && (forall i :: 0 <= i < k ==> IsLiveOwned(s, names[i]))
    && forall i, j :: 0 <= i < j < k ==> names[i] != names[j]
  }

  lemma ClosedStep(s: State, names: seq<string>, k: nat)
    requires k < |names| && Closable(s, names, k)
    ensures IsLiveOwned(ClosedAll(s, names, k), names[k]) <==> Closable(s, names, k + 1)
    ensures Closable(s, names, k + 1) ==>
      names[k] in s.values && ClosedAll(s, names, k + 1) == Consumed(ClosedAll(s, names, k), names[k], Closed)
  {
    assert names[..k + 1] == names[..k] + [names[k]];
    assert forall i :: 0 <= i < k ==> names[..k][i] == names[i];
    if Closable(s, names, k + 1) {
      assert ClosedAll(s, names, k + 1).values == Consumed(ClosedAll(s, names, k), names[k], Closed).values;
    }
  }

  /** How many of the names can be closed, one after the other, beyond the first `k`. */
  function ClosableUpTo(s: State, names: seq<string>, k: nat): (m: nat)
    requires k <= |names| && Closable(s, names, k)
    ensures k <= m <= |names| && Closable(s, names, m) && (m < |names| ==> !Closable(s, names, m + 1))
    decreases |names| - k
  {
    if k < |names| && Closable(s, names, k + 1) then ClosableUpTo(s, names, k + 1) else k
  }

  lemma NoneToClose(s: State, names: seq<string>)
    ensures Closable(s, names, 0)
  {
  }

  lemma StopsThere(s: State, names: seq<string>, k: nat)
    requires k <= |names| && Closable(s, names, k) && (k < |names| ==> !Closable(s, names, k + 1))
    ensures Closable(s, names, 0) && ClosableUpTo(s, names, 0) == k
  {
    var m := ClosableUpTo(s, names, 0);
    if m > k {
      assert Closable(s, names, k + 1);
    }
  }

  lemma PlanIsClosable(s: State, preserved: set<string>)
    requires WellFormed(s)
    ensures var names := ToClose(s, |s.names|, preserved); Closable(s, names, |names|)
  {
    ToCloseExactly(s, preserved);
    var names := ToClose(s, |s.names|, preserved);
    assert forall i :: 0 <= i < |names| ==> names[i] in names;
    forall i, j | 0 <= i < j < |names| ensures names[i] != names[j] {
      assert Before(s.names, names[j], names[i]);
    }
  }

  /** After the cleanup exactly the preserved owned handles are live, and all others are as
      they were. */
  lemma CleanedUp(s: State, preserved: set<string>)
    requires WellFormed(s)
    ensures var names := ToClose(s, |s.names|, preserved);
      && LiveOwned(ClosedAll(s, names, |names|)) == LiveOwned(s) * preserved
      && forall n <- s.values :: s.values[n].ownership != Owned ==>
         ClosedAll(s, names, |names|).values[n] == s.values[n]
  {
    ToCloseExactly(s, preserved);
    var names := ToClose(s, |s.names|, preserved);
    var t := ClosedAll(s, names, |names|);
    assert names[..|names|] == names;
    forall n ensures n in LiveOwned(t) <==> n in LiveOwned(s) && n in preserved {
      assert n in s.values ==> t.values[n] == if n in names then s.values[n].(state := Closed) else s.values[n];
    }
  }
}

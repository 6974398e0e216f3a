/** Where the graph has more than the runs of the code: for each construct that `Plain`
    excludes, a body in which a name is marked that no run reads unassigned. */
module FlowLiberties {
  import opened Wrappers
  import opened FlowSyntax
  import opened FlowAssigned
  import opened FlowPaths

  function AssignTo(lhs: NodeId, entry: Entry): Stmt {
    Assign(MoreTargets(NameTarget(lhs, entry), NoTargets), NoOperand)
  }

  /** A decision to go on, and one to leave a loop. */
  const ON := Choice([], false, true, false)
  const OFF := Choice([], false, false, false)
  const LOOK := Choice([0], false, true, false)
  const LIBERTY := Choice([], false, true, true)
  const NOTHING: State := map[]

  /** Only runs that take liberties read the node unassigned. */
  ghost predicate OnlyWithLiberties(args: seq<(NodeId, Entry)>, body: Stmt, n: NodeId) {
    && !Plain(body, Unassigned) && OnlyRead(args, body, n)
    && ReadUnassigned(args, body, n, true) && !ReadUnassigned(args, body, n, false)
  }

  lemma LibertyRead(args: seq<(NodeId, Entry)>, body: Stmt, ev: Event, o: seq<Choice>)
    requires !Plain(body, Unassigned) && OnlyRead(args, body, ev.node)
    requires ev in RunFunction(args, body, o).events && ev.entry !in ev.state
    requires forall x: Event, u :: Fair(u, false) && x in RunFunction(args, body, u).events && x.node == ev.node ==>
      x.entry in x.state
    ensures OnlyWithLiberties(args, body, ev.node)
  {
    assert Fair(o, true);
    assert SomeRunReads(args, body, ev, true);
    forall x: Event | x.node == ev.node && SomeRunReads(args, body, x, false) ensures x.entry in x.state {
      var u :| Fair(u, false) && x in RunFunction(args, body, u).events;
    }
  }

  lemma LooksUp(node: NodeId, entry: Entry, st: State)
    ensures Exec(ExprStat(Name(node, entry)), st, [LOOK]) == Result([Read(node, entry, st)], Normal, st, [])
  {
    assert Reads([(node, entry)], [0], st) == [Read(node, entry, st)];
  }

  lemma AssignEnds(lhs: NodeId, entry: Entry, st: State, o: seq<Choice>)
    ensures var r := Exec(AssignTo(lhs, entry), st, o); r.events == [] && (r.outcome == Normal ==> entry in r.state)
  {
    if o != [] && !o[0].throws {
      var target := NameTarget(lhs, entry);
      var b := Bind(target, st, o[1..]);
      if o[1..] != [] && !o[1].throws {
        assert BindCore(target, st, o[1..][1..]) == Result([], Normal, st[entry := lhs], o[1..][1..]);
      }
      assert b.events == [] && (b.outcome == Normal ==> entry in b.state);
      assert BindAll(NoTargets, b.state, b.rest) == Result([], Normal, b.state, b.rest);
    }
  }

  /** The read at the end of a sequence of statements. */
  lemma ReadBehind(first: Stmt, node: NodeId, entry: Entry, st: State, o: seq<Choice>)
    requires Exec(first, st, o) == Result([], Normal, st, [LOOK])
    ensures Read(node, entry, st) in Exec(Then(first, ExprStat(Name(node, entry))), st, o).events
  {
    LooksUp(node, entry, st);
  }

  // ------------------------------------------------------------- `else` of a `while`

  /** A loop whose `else` assigns the name that is read behind it. */
  function WhileElse(): Stmt {
    While(NoOperand, Pass, Some(AssignTo(1, "x")))
  }

  lemma {:induction false} WhileEndsAssigned(st: State, o: seq<Choice>)
    requires Fair(o, false)
    ensures var r := Exec(WhileElse(), st, o); r.events == [] && (r.outcome == Normal ==> "x" in r.state)
    decreases |o|
  {
    if o != [] && !o[0].throws {
      if o[0].taken {
        assert Exec(Pass, st, o[1..]) == Result([], Normal, st, o[1..]);
        WhileEndsAssigned(st, o[1..]);
      } else {
        assert ExecElse(WhileElse().orelse, st, o[1..]) == Exec(AssignTo(1, "x"), st, o[1..]);
        AssignEnds(1, "x", st, o[1..]);
      }
    }
  }

  lemma WhileLeaves()
    ensures Exec(WhileElse(), NOTHING, [LIBERTY, LOOK]) == Result([], Normal, NOTHING, [LOOK])
  {
    assert [LIBERTY, LOOK][1..] == [LOOK];
    assert Eval(NoOperand, NOTHING, [LIBERTY, LOOK]) == Result([], Normal, NOTHING, [LOOK]);
    assert Exec(Pass, NOTHING, [LOOK]) == Result([], Normal, NOTHING, [LOOK]);
  }

  /** The graph has an edge from the end of the body past the `else`. */
  lemma ElseOfWhile()
    ensures OnlyWithLiberties([], Then(WhileElse(), ExprStat(Name(2, "x"))), 2)
  {
    var body := Then(WhileElse(), ExprStat(Name(2, "x")));
    forall u: seq<Choice>, x: Event | Fair(u, false) && x in RunFunction([], body, u).events
      ensures x.entry in x.state
    {
      WhileEndsAssigned(NOTHING, u);
      assert RunFunction([], body, u) == Exec(body, NOTHING, u);
      var r := Exec(WhileElse(), NOTHING, u);
      assert x in Exec(ExprStat(Name(2, "x")), r.state, r.rest).events;
    }
    WhileLeaves();
    ReadBehind(WhileElse(), 2, "x", NOTHING, [LIBERTY, LOOK]);
    LibertyRead([], body, Read(2, "x", NOTHING), [LIBERTY, LOOK]);
  }

  // ---------------------------------------------------------------- start of a `try`

  /** A `try` whose body cannot raise. */
  function TryPass(): Stmt {
    TryExcept(Pass, Handler(NoOperand, None, ExprStat(Name(2, "x")), NoHandlers), None)
  }

  lemma TryReads()
    ensures Read(2, "x", NOTHING) in Exec(TryPass(), NOTHING, [LIBERTY, ON, LOOK]).events
  {
    var o := [LIBERTY, ON, LOOK];
    assert o[1..] == [ON, LOOK] && o[1..][1..] == [LOOK];
    assert Eval(NoOperand, NOTHING, [ON, LOOK]) == Result([], Normal, NOTHING, [LOOK]);
    LooksUp(2, "x", NOTHING);
    assert ExecItem(None, ExprStat(Name(2, "x")), NOTHING, [LOOK]) == Exec(ExprStat(Name(2, "x")), NOTHING, [LOOK]);
    assert ExecHandlers(TryPass().handlers, NOTHING, [ON, LOOK]).events == [Read(2, "x", NOTHING)];
  }

  /** The graph has an edge from the start of a `try` to its handlers. */
  lemma StartOfTry()
    ensures OnlyWithLiberties([], TryPass(), 2)
  {
    forall u: seq<Choice> | Fair(u, false) ensures RunFunction([], TryPass(), u).events == [] {
      if u != [] {
        assert !u[0].lax;
        assert Exec(Pass, NOTHING, u[1..]) == Result([], Normal, NOTHING, u[1..]);
        assert ExecElse(None, NOTHING, u[1..]) == Result([], Normal, NOTHING, u[1..]);
      }
    }
    TryReads();
    LibertyRead([], TryPass(), Read(2, "x", NOTHING), [LIBERTY, ON, LOOK]);
  }

  // ---------------------------------------------------------- iterable of a `for`

  /** A loop that deletes the name of its iterable, read only before the first iteration. */
  function ForDelete(): Stmt {
    ForIn(Name(2, "x"), OtherTarget(NoOperand), Del(3, "x"), None)
  }

  lemma BindsNothing(st: State, o: seq<Choice>)
    ensures Bind(OtherTarget(NoOperand), st, o).events == []
    ensures forall c <- Bind(OtherTarget(NoOperand), st, o).rest :: c in o
  {
    if o != [] && !o[0].throws {
      assert BindCore(OtherTarget(NoOperand), st, o[1..]) == Eval(NoOperand, st, o[1..]);
    }
  }

  lemma DeletionEnds(st: State, o: seq<Choice>)
    ensures forall x <- Exec(Del(3, "x"), st, o).events :: x.node == 3
    ensures forall c <- Exec(Del(3, "x"), st, o).rest :: c in o
  {
  }

  lemma ItemReads(st: State, o: seq<Choice>)
    ensures forall x <- ExecItem(Some(OtherTarget(NoOperand)), Del(3, "x"), st, o).events :: x.node == 3
    ensures forall c <- ExecItem(Some(OtherTarget(NoOperand)), Del(3, "x"), st, o).rest :: c in o
  {
    BindsNothing(st, o);
    var t := Bind(OtherTarget(NoOperand), st, o);
    DeletionEnds(t.state, t.rest);
    assert forall x <- Exec(Del(3, "x"), t.state, t.rest).events :: x.node == 3;
  }

  /** Behind the iterator, nothing but `del` reads. */
  lemma {:induction false} DeletionReads(st: State, o: seq<Choice>)
    requires Fair(o, false)
    ensures forall x <- ExecFor(Name(2, "x"), OtherTarget(NoOperand), Del(3, "x"), None, st, o).events :: x.node == 3
    decreases |o|
  {
    if o != [] && !o[0].throws && o[0].taken {
      var b := ExecItem(Some(OtherTarget(NoOperand)), Del(3, "x"), st, o[1..]);
      ItemReads(st, o[1..]);
      if b.outcome == Normal || b.outcome == Continued {
        DeletionReads(b.state, b.rest);
      }
    }
  }

  lemma DeletesItem(st: State, o: seq<Choice>)
    ensures ExecItem(Some(OtherTarget(NoOperand)), Del(3, "x"), st, [ON, ON, ON] + o) ==
              Result([], Normal, st - {"x"}, o)
  {
    var p := [ON, ON, ON] + o;
    assert p[1..] == [ON, ON] + o && ([ON, ON] + o)[1..] == [ON] + o && ([ON] + o)[1..] == o;
    assert Bind(OtherTarget(NoOperand), st, p) == Result([], Normal, st, [ON] + o);
    assert Exec(Del(3, "x"), st, [ON] + o) == Result([], Normal, st - {"x"}, o);
  }

  /** One iteration of it, and the iterable read again. */
  lemma ForReads(st: State)
    requires "x" in st
    ensures Read(2, "x", st - {"x"}) in
              Exec(ForDelete(), st, [ON, ON, ON, ON, ON, LOOK.(lax := true)]).events
  {
    var again := LOOK.(lax := true);
    var o := [ON, ON, ON, ON, ON, again];
    assert o[1..] == [ON] + ([ON, ON, ON] + [again]) && o[1..][1..] == [ON, ON, ON] + [again];
    DeletesItem(st, [again]);
    LooksAgain(st - {"x"});
  }

  lemma LooksAgain(st: State)
    ensures Read(2, "x", st) in
              ExecFor(Name(2, "x"), OtherTarget(NoOperand), Del(3, "x"), None, st, [LOOK.(lax := true)]).events
  {
    assert Reads([(2, "x")], [0], st) == [Read(2, "x", st)];
  }

  /** The graph goes back through the block that has the names of the iterable. */
  lemma IterableOfFor()
    ensures OnlyWithLiberties([(1, "x")], ForDelete(), 2)
  {
    var st: State := map["x" := 1];
    assert ArgState([(1, "x")]) == st by {
      assert [(1, "x")][..0] == [];
    }
    forall u: seq<Choice>, x: Event
      | Fair(u, false) && x in RunFunction([(1, "x")], ForDelete(), u).events && x.node == 2
      ensures x.entry in x.state
    {
      if u != [] && !u[0].throws {
        DeletionReads(st, u[1..]);
      }
    }
    ForReads(st);
    LibertyRead([(1, "x")], ForDelete(), Read(2, "x", st - {"x"}), [ON, ON, ON, ON, ON, LOOK.(lax := true)]);
  }

  // ------------------------------------------------- iterables in another state

  /** A loop that deletes nothing: its iterable is read before the target is bound. */
  function ForBind(): Stmt {
    ForIn(Name(2, "x"), NameTarget(3, "i"), Pass, None)
  }

  lemma BindsItem(st: State, o: seq<Choice>)
    ensures var r := ExecItem(Some(NameTarget(3, "i")), Pass, st, o);
      && r.events == [] && (r.outcome == Normal || r.outcome == Raised || r.outcome == Cut)
      && (forall c <- r.rest :: c in o) && (o == [] || |r.rest| < |o|)
  {
    var target := NameTarget(3, "i");
    if o != [] && !o[0].throws {
      assert BindCore(target, st, o[1..]) == Result([], Normal, st["i" := 3], o[1..]);
      assert Exec(Pass, st["i" := 3], o[1..]) == Result([], Normal, st["i" := 3], o[1..]);
    }
  }

  /** Behind the iterator, nothing reads. */
  lemma {:induction false} NothingReads(st: State, o: seq<Choice>)
    requires Fair(o, false)
    ensures ExecFor(Name(2, "x"), NameTarget(3, "i"), Pass, None, st, o).events == []
    decreases |o|
  {
    if o != [] && !o[0].throws && o[0].taken {
      BindsItem(st, o[1..]);
      var b := ExecItem(Some(NameTarget(3, "i")), Pass, st, o[1..]);
      if b.outcome == Normal {
        NothingReads(b.state, b.rest);
      }
    }
  }

  lemma ReadsBefore(st: State, o: seq<Choice>)
    requires Fair(o, false)
    ensures forall x <- Exec(ForBind(), st, o).events :: x.state == st
  {
    var i := Eval(Name(2, "x"), st, o);
    assert forall x <- i.events :: x.state == st;
    if i.outcome == Normal {
      NothingReads(st, i.rest);
      assert Exec(ForBind(), st, o).events == i.events + [];
    }
  }

  /** One iteration, and the iterable read again. */
  lemma ReadsBound(st: State)
    ensures Read(2, "x", st["i" := 3]) in Exec(ForBind(), st, [ON, ON, ON, LOOK.(lax := true)]).events
  {
    var again := LOOK.(lax := true);
    assert [ON, ON, ON, again][1..] == [ON, ON, again] && [ON, ON, again][1..] == [ON, again];
    assert [ON] + [again] == [ON, again];
    BoundItem(st, [again]);
    LooksForBind(st["i" := 3]);
  }

  lemma BoundItem(st: State, o: seq<Choice>)
    ensures ExecItem(Some(NameTarget(3, "i")), Pass, st, [ON] + o) == Result([], Normal, st["i" := 3], o)
  {
    assert ([ON] + o)[1..] == o;
    assert Bind(NameTarget(3, "i"), st, [ON] + o) == Result([], Normal, st["i" := 3], o);
    assert Exec(Pass, st["i" := 3], o) == Result([], Normal, st["i" := 3], o);
  }

  lemma LooksForBind(st: State)
    ensures Read(2, "x", st) in
              ExecFor(Name(2, "x"), NameTarget(3, "i"), Pass, None, st, [LOOK.(lax := true)]).events
  {
    assert Reads([(2, "x")], [0], st) == [Read(2, "x", st)];
  }

  /** Which names are read unassigned the graph then still says exactly, but not in which
      states names are read: the iterable is not read while the target is bound. */
  lemma IterableWithTarget()
    ensures Plain(ForBind(), Unassigned) && !Plain(ForBind(), Real)
    ensures exists ev: Event ::
      SomeRunReads([(1, "x")], ForBind(), ev, true) && !SomeRunReads([(1, "x")], ForBind(), ev, false)
  {
    var st: State := map["x" := 1];
    assert ArgState([(1, "x")]) == st by {
      assert [(1, "x")][..0] == [];
    }
    assert Refs(Name(2, "x")) == [(2, "x")];
    var ev := Read(2, "x", st["i" := 3]);
    var o := [ON, ON, ON, LOOK.(lax := true)];
    ReadsBound(st);
    assert Fair(o, true) && ev in RunFunction([(1, "x")], ForBind(), o).events;
    assert SomeRunReads([(1, "x")], ForBind(), ev, true);
    forall u: seq<Choice> | Fair(u, false) ensures ev !in RunFunction([(1, "x")], ForBind(), u).events {
      ReadsBefore(st, u);
      assert "i"[0] != "x"[0] && "i" in ev.state && "i" !in st;
    }
    assert !SomeRunReads([(1, "x")], ForBind(), ev, false);
  }
}

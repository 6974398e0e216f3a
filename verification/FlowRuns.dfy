/** What a run uses of its decisions: a run that came to an end goes the same way whatever
    decisions follow those that it has used. */
module FlowRuns {
  import opened Wrappers
  import opened FlowSyntax

  predicate Suffix(rest: seq<Choice>, o: seq<Choice>) {
    |rest| <= |o| && o[|o| - |rest|..] == rest
  }

  /** The decisions that were used, with other ones behind them. */
  function Swap(o: seq<Choice>, rest: seq<Choice>, x: seq<Choice>): seq<Choice>
    requires Suffix(rest, o)
  {
    o[..|o| - |rest|] + x
  }

  lemma SwapNone(o: seq<Choice>, x: seq<Choice>)
    ensures Suffix(o, o) && Swap(o, o, x) == x
  {
  }

  lemma SwapTwice(o: seq<Choice>, r1: seq<Choice>, r2: seq<Choice>, x: seq<Choice>)
    requires Suffix(r1, o) && Suffix(r2, r1)
    ensures Suffix(r2, o) && Swap(o, r1, Swap(r1, r2, x)) == Swap(o, r2, x)
  {
    var n := |o| - |r1|;
    assert o[..n] + r1 == o;
    assert o[|o| - |r2|..] == r1[|r1| - |r2|..];
    assert o[..|o| - |r2|] == o[..n] + r1[..|r1| - |r2|];
  }

  lemma SwapHead(o: seq<Choice>, rest: seq<Choice>, x: seq<Choice>)
    requires o != [] && Suffix(rest, o[1..])
    ensures Suffix(rest, o) && Swap(o, rest, x) == [o[0]] + Swap(o[1..], rest, x)
    ensures Swap(o, rest, x)[0] == o[0] && Swap(o, rest, x)[1..] == Swap(o[1..], rest, x)
  {
    SwapTwice(o, o[1..], rest, x);
    assert Swap(o, o[1..], Swap(o[1..], rest, x)) == [o[0]] + Swap(o[1..], rest, x);
  }

  lemma FairSwap(o: seq<Choice>, rest: seq<Choice>, x: seq<Choice>, lax: bool)
    requires Suffix(rest, o) && Fair(o, lax) && Fair(x, lax)
    ensures Fair(Swap(o, rest, x), lax) && Fair(rest, lax)
  {
    assert forall c <- rest :: c in o;
  }

  /** With other decisions behind the used ones the run is the same but for what is left. */
  predicate Splices(o: seq<Choice>, r: Result, again: Result, x: seq<Choice>) {
    Suffix(r.rest, o) && (r.outcome != Cut ==> again == r.(rest := x))
  }

  /** The decisions that a run `r` on `o` used, and `x` behind them. */
  function Other(o: seq<Choice>, r: Result, x: seq<Choice>): seq<Choice> {
    if Suffix(r.rest, o) then Swap(o, r.rest, x) else []
  }

  lemma EvalSplices(e: Expr, st: State, o: seq<Choice>, x: seq<Choice>)
    ensures var r := Eval(e, st, o); Splices(o, r, Eval(e, st, Other(o, r, x)), x)
  {
    if o != [] {
      SwapNone(o[1..], x);
      SwapHead(o, o[1..], x);
    }
  }

  lemma {:induction false} BindSplices(t: Target, st: State, o: seq<Choice>, x: seq<Choice>)
    ensures var r := Bind(t, st, o); Splices(o, r, Bind(t, st, Other(o, r, x)), x)
    decreases t, 1
  {
    if o != [] {
      if o[0].throws {
        SwapNone(o[1..], x);
        SwapHead(o, o[1..], x);
      } else {
        var c := BindCore(t, st, o[1..]);
        BindCoreSplices(t, st, o[1..], x);
        SwapHead(o, c.rest, x);
        BindStep(t, st, o);
        BindStep(t, st, Swap(o, c.rest, x));
      }
    }
  }

  function BoundIn(c: Choice, r: Result): Result {
    if r.outcome == Normal && c.lax then r.(outcome := Raised) else r
  }

  lemma BindStep(t: Target, st: State, o: seq<Choice>)
    requires o != [] && !o[0].throws
    ensures Bind(t, st, o) == BoundIn(o[0], BindCore(t, st, o[1..]))
  {
  }

  lemma {:induction false} BindCoreSplices(t: Target, st: State, o: seq<Choice>, x: seq<Choice>)
    ensures var r := BindCore(t, st, o); Splices(o, r, BindCore(t, st, Other(o, r, x)), x)
    decreases t, 0
  {
    match t {
      case NameTarget(_, _) => SwapNone(o, x);
      case SequenceTarget(args) => BindAllSplices(args, st, o, x);
      case OtherTarget(e) => EvalSplices(e, st, o, x);
    }
  }

  lemma {:induction false} BindAllSplices(ts: Targets, st: State, o: seq<Choice>, x: seq<Choice>)
    ensures var r := BindAll(ts, st, o); Splices(o, r, BindAll(ts, st, Other(o, r, x)), x)
    decreases ts
  {
    match ts {
      case NoTargets => SwapNone(o, x);
      case MoreTargets(t, rest) =>
        var r := Bind(t, st, o);
        BindSplices(t, st, o, x);
        if r.outcome == Normal {
          var q := BindAll(rest, r.state, r.rest);
          BindAllSplices(rest, r.state, r.rest, x);
          SwapTwice(o, r.rest, q.rest, x);
          BindSplices(t, st, o, Swap(r.rest, q.rest, x));
        }
    }
  }

  // ----------------------------------------------------------------- statements

  lemma {:induction false} ExecSplices(s: Stmt, st: State, o: seq<Choice>, x: seq<Choice>)
    ensures var r := Exec(s, st, o); Splices(o, r, Exec(s, st, Other(o, r, x)), x)
    decreases |o|, s, 1
  {
    match s {
      case Pass => SwapNone(o, x);
      case Then(_, _) => ThenSplices(s, st, o, x);
      case ExprStat(e) => EvalSplices(e, st, o, x);
      case Assign(_, _) => AssignSplices(s, st, o, x);
      case Del(node, entry) => EvalSplices(Name(node, entry), st, o, x);
      case Assert(_, _) => AssertSplices(s, st, o, x);
      case If(clauses) => ClausesSplices(clauses, st, o, x);
      case While(_, _, _) => WhileSplices(s, st, o, x);
      case ForIn(_, _, _, _) => ForInSplices(s, st, o, x);
      case Break => SwapNone(o, x);
      case Continue => SwapNone(o, x);
      case Return(e) => EvalSplices(e, st, o, x);
      case Raise(e) => EvalSplices(e, st, o, x);
      case TryExcept(_, _, _) => TrySplices(s, st, o, x);
    }
  }

  lemma {:induction false} ThenSplices(s: Stmt, st: State, o: seq<Choice>, x: seq<Choice>)
    requires s.Then?
    ensures var r := Exec(s, st, o); Splices(o, r, Exec(s, st, Other(o, r, x)), x)
    decreases |o|, s, 0
  {
    var r := Exec(s.first, st, o);
    ExecSplices(s.first, st, o, x);
    if r.outcome == Normal {
      var q := Exec(s.second, r.state, r.rest);
      ExecSplices(s.second, r.state, r.rest, x);
      SwapTwice(o, r.rest, q.rest, x);
      ExecSplices(s.first, st, o, Swap(r.rest, q.rest, x));
    }
  }

  lemma {:induction false} AssignSplices(s: Stmt, st: State, o: seq<Choice>, x: seq<Choice>)
    requires s.Assign?
    ensures var r := Exec(s, st, o); Splices(o, r, Exec(s, st, Other(o, r, x)), x)
  {
    EvalSplices(s.rhs, st, o, x);
    var r := Eval(s.rhs, st, o);
    if r.outcome == Normal {
      var q := BindAll(s.targets, st, r.rest);
      BindAllSplices(s.targets, st, r.rest, x);
      SwapHead(o, q.rest, x);
    }
  }

  /** An assertion that holds, or whose condition is not evaluated to the end. */
  lemma AssertStops(s: Stmt, st: State, o: seq<Choice>)
    requires s.Assert? && (o == [] || o[0].throws || o[0].taken)
    ensures Exec(s, st, o) == Eval(s.condition, st, o)
  {
  }

  lemma AssertFails(s: Stmt, st: State, o: seq<Choice>)
    requires s.Assert? && o != [] && !o[0].throws && !o[0].taken
    ensures Exec(s, st, o) == After(Eval(s.condition, st, o).events, Exec(Raise(s.failure), st, o[1..]))
  {
  }

  lemma RaiseSplices(e: Expr, st: State, o: seq<Choice>, x: seq<Choice>)
    ensures var r := Exec(Raise(e), st, o); Splices(o, r, Exec(Raise(e), st, Other(o, r, x)), x)
  {
    EvalSplices(e, st, o, x);
  }

  lemma AssertSplices(s: Stmt, st: State, o: seq<Choice>, x: seq<Choice>)
    requires s.Assert?
    ensures var r := Exec(s, st, o); Splices(o, r, Exec(s, st, Other(o, r, x)), x)
  {
    if o != [] && !o[0].throws && !o[0].taken {
      var q := Exec(Raise(s.failure), st, o[1..]);
      RaiseSplices(s.failure, st, o[1..], x);
      SwapHead(o, q.rest, x);
      AssertFails(s, st, o);
      AssertFails(s, st, Swap(o, q.rest, x));
    } else {
      AssertStops(s, st, o);
      EvalSplices(s.condition, st, o, x);
      if o != [] {
        SwapHead(o, o[1..], x);
        AssertStops(s, st, Swap(o, o[1..], x));
      }
    }
  }

  lemma {:induction false} ElseSplices(orelse: Option<Stmt>, st: State, o: seq<Choice>, x: seq<Choice>)
    ensures var r := ExecElse(orelse, st, o); Splices(o, r, ExecElse(orelse, st, Other(o, r, x)), x)
    decreases |o|, orelse, 2
  {
    if orelse.Some? {
      ExecSplices(orelse.value, st, o, x);
    } else {
      SwapNone(o, x);
    }
  }

  lemma {:induction false} ClausesSplices(cs: Clauses, st: State, o: seq<Choice>, x: seq<Choice>)
    ensures var r := ExecClauses(cs, st, o); Splices(o, r, ExecClauses(cs, st, Other(o, r, x)), x)
    decreases |o|, cs, 2
  {
    match cs {
      case LastClause(orelse) => ElseSplices(orelse, st, o, x);
      case Clause(condition, body, rest) =>
        EvalSplices(condition, st, o, x);
        if o != [] && !o[0].throws {
          if o[0].taken {
            ExecSplices(body, st, o[1..], x);
            SwapHead(o, Exec(body, st, o[1..]).rest, x);
          } else {
            ClausesSplices(rest, st, o[1..], x);
            SwapHead(o, ExecClauses(rest, st, o[1..]).rest, x);
          }
        }
    }
  }

  lemma {:induction false} WhileSplices(s: Stmt, st: State, o: seq<Choice>, x: seq<Choice>)
    requires s.While?
    ensures var r := Exec(s, st, o); Splices(o, r, Exec(s, st, Other(o, r, x)), x)
    decreases |o|, s, 0
  {
    EvalSplices(s.condition, st, o, x);
    if o != [] && !o[0].throws {
      if o[0].taken {
        IterationSplices(s, st, o, x);
      } else {
        ElseSplices(s.orelse, st, o[1..], x);
        SwapHead(o, ExecElse(s.orelse, st, o[1..]).rest, x);
      }
    }
  }

  lemma {:induction false} IterationSplices(s: Stmt, st: State, o: seq<Choice>, x: seq<Choice>)
    requires s.While? && o != [] && !o[0].throws && o[0].taken
    ensures var r := Exec(s, st, o); Splices(o, r, Exec(s, st, Other(o, r, x)), x)
    decreases |o|, s, 0, 0
  {
    var b := Exec(s.body, st, o[1..]);
    ExecSplices(s.body, st, o[1..], x);
    if (b.outcome == Normal && !o[0].lax) || b.outcome == Continued {
      var q := Exec(s, b.state, b.rest);
      WhileSplices(s, b.state, b.rest, x);
      SwapTwice(o[1..], b.rest, q.rest, x);
      ExecSplices(s.body, st, o[1..], Swap(b.rest, q.rest, x));
      SwapHead(o, q.rest, x);
    } else {
      SwapHead(o, b.rest, x);
    }
  }

  lemma {:induction false} ForInSplices(s: Stmt, st: State, o: seq<Choice>, x: seq<Choice>)
    requires s.ForIn?
    ensures var r := Exec(s, st, o); Splices(o, r, Exec(s, st, Other(o, r, x)), x)
    decreases |o|, s, 0
  {
    EvalSplices(s.iterable, st, o, x);
    if o != [] && !o[0].throws {
      ForSplices(s, st, o[1..], x);
      SwapHead(o, ExecFor(s.iterable, s.target, s.body, s.orelse, st, o[1..]).rest, x);
    }
  }

  lemma {:induction false} ForSplices(s: Stmt, st: State, o: seq<Choice>, x: seq<Choice>)
    requires s.ForIn?
    ensures var r := ExecFor(s.iterable, s.target, s.body, s.orelse, st, o);
      Splices(o, r, ExecFor(s.iterable, s.target, s.body, s.orelse, st, Other(o, r, x)), x)
    decreases |o|, s.body, 3
  {
    if o != [] {
      if o[0].throws {
        SwapNone(o[1..], x);
        SwapHead(o, o[1..], x);
      } else if !o[0].taken {
        ElseSplices(s.orelse, st, o[1..], x);
        SwapHead(o, ExecElse(s.orelse, st, o[1..]).rest, x);
      } else {
        ForItemSplices(s, st, o, x);
      }
    }
  }

  lemma {:induction false} ForItemSplices(s: Stmt, st: State, o: seq<Choice>, x: seq<Choice>)
    requires s.ForIn? && o != [] && !o[0].throws && o[0].taken
    ensures var r := ExecFor(s.iterable, s.target, s.body, s.orelse, st, o);
      Splices(o, r, ExecFor(s.iterable, s.target, s.body, s.orelse, st, Other(o, r, x)), x)
    decreases |o|, s.body, 1
  {
    var b := ExecItem(Some(s.target), s.body, st, o[1..]);
    ItemSplices(Some(s.target), s.body, st, o[1..], x);
    if b.outcome == Normal || b.outcome == Continued {
      var q := ExecFor(s.iterable, s.target, s.body, s.orelse, b.state, b.rest);
      ForSplices(s, b.state, b.rest, x);
      SwapTwice(o[1..], b.rest, q.rest, x);
      ItemSplices(Some(s.target), s.body, st, o[1..], Swap(b.rest, q.rest, x));
      SwapHead(o, q.rest, x);
    } else {
      SwapHead(o, b.rest, x);
    }
  }

  lemma {:induction false} ItemSplices(target: Option<Target>, body: Stmt, st: State, o: seq<Choice>, x: seq<Choice>)
    ensures var r := ExecItem(target, body, st, o); Splices(o, r, ExecItem(target, body, st, Other(o, r, x)), x)
    decreases |o|, body, 2
  {
    if target.Some? {
      var t := Bind(target.value, st, o);
      BindSplices(target.value, st, o, x);
      if t.outcome == Normal {
        var q := Exec(body, t.state, t.rest);
        ExecSplices(body, t.state, t.rest, x);
        SwapTwice(o, t.rest, q.rest, x);
        BindSplices(target.value, st, o, Swap(t.rest, q.rest, x));
      }
    } else {
      ExecSplices(body, st, o, x);
    }
  }

  lemma {:induction false} TrySplices(s: Stmt, st: State, o: seq<Choice>, x: seq<Choice>)
    requires s.TryExcept?
    ensures var r := Exec(s, st, o); Splices(o, r, Exec(s, st, Other(o, r, x)), x)
    decreases |o|, s, 0
  {
    if o != [] {
      if o[0].lax {
        HandlersSplices(s.handlers, st, o[1..], x);
        SwapHead(o, ExecHandlers(s.handlers, st, o[1..]).rest, x);
      } else {
        var b := Exec(s.body, st, o[1..]);
        ExecSplices(s.body, st, o[1..], x);
        if b.outcome == Normal {
          var q := ExecElse(s.orelse, b.state, b.rest);
          ElseSplices(s.orelse, b.state, b.rest, x);
          TryBodySplices(s, st, o, b, q, x);
        } else if b.outcome == Raised {
          var q := ExecHandlers(s.handlers, b.state, b.rest);
          HandlersSplices(s.handlers, b.state, b.rest, x);
          TryBodySplices(s, st, o, b, q, x);
        } else {
          SwapHead(o, b.rest, x);
        }
      }
    }
  }

  lemma {:induction false} TryBodySplices(s: Stmt, st: State, o: seq<Choice>, b: Result, q: Result, x: seq<Choice>)
    requires s.TryExcept? && o != [] && b == Exec(s.body, st, o[1..])
    requires Suffix(b.rest, o[1..]) && b.outcome != Cut && Suffix(q.rest, b.rest)
    ensures Suffix(q.rest, o) && Swap(o, q.rest, x)[0] == o[0]
    ensures Exec(s.body, st, Swap(o, q.rest, x)[1..]) == b.(rest := Swap(b.rest, q.rest, x))
    decreases |o|, s, 0, 0
  {
    SwapTwice(o[1..], b.rest, q.rest, x);
    ExecSplices(s.body, st, o[1..], Swap(b.rest, q.rest, x));
    SwapHead(o, q.rest, x);
  }

  lemma {:induction false} HandlersSplices(hs: Handlers, st: State, o: seq<Choice>, x: seq<Choice>)
    ensures var r := ExecHandlers(hs, st, o); Splices(o, r, ExecHandlers(hs, st, Other(o, r, x)), x)
    decreases |o|, hs, 3
  {
    match hs {
      case NoHandlers => SwapNone(o, x);
      case Handler(pattern, target, body, rest) =>
        EvalSplices(pattern, st, o, x);
        if o != [] && !o[0].throws {
          if o[0].taken {
            ItemSplices(target, body, st, o[1..], x);
            SwapHead(o, ExecItem(target, body, st, o[1..]).rest, x);
          } else {
            HandlersSplices(rest, st, o[1..], x);
            SwapHead(o, ExecHandlers(rest, st, o[1..]).rest, x);
          }
        }
    }
  }
}

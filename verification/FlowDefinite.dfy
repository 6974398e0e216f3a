/** Definite assignment, read off the text: where a name stands only in places that no run
    reaches before its entry is assigned. */
module FlowDefinite {
  import opened Wrappers
  import opened FlowSyntax
  import opened FlowAssigned

  /** Node `n` stands in the expression only as a name of `e`, and only if `e` is assigned. */
  predicate ExprDefined(x: Expr, n: NodeId, e: Entry, had: bool) {
    forall ref <- Refs(x) :: ref.0 == n ==> had && ref.1 == e
  }

  predicate TargetDefined(t: Target, n: NodeId, e: Entry, had: bool) {
    match t
    case NameTarget(_, _) => true
    case SequenceTarget(args) => TargetsDefined(args, n, e, had)
    case OtherTarget(x) => ExprDefined(x, n, e, had)
  }

  predicate TargetsDefined(ts: Targets, n: NodeId, e: Entry, had: bool) {
    ts.MoreTargets? ==>
      && TargetDefined(ts.first, n, e, had)
      && TargetsDefined(ts.rest, n, e, had || Assigns(ts.first, e))
  }

  /** Node `n` stands in the statement only where `e` has been assigned: before the
      statement (`had`) or on every way through it that leads there. */
  predicate Defined(s: Stmt, n: NodeId, e: Entry, had: bool)
    decreases s, 0
  {
    match s
    case Pass => true
    case Then(a, b) => Defined(a, n, e, had) && Defined(b, n, e, had || Sure(a, e, Normal))
    case ExprStat(x) => ExprDefined(x, n, e, had)
    case Assign(targets, rhs) => ExprDefined(rhs, n, e, had) && TargetsDefined(targets, n, e, had)
    case Del(node, entry) => ExprDefined(Name(node, entry), n, e, had)
    case Assert(condition, failure) => ExprDefined(condition, n, e, had) && ExprDefined(failure, n, e, had)
    case If(clauses) => ClausesDefined(clauses, n, e, had)
    case While(condition, body, orelse) =>
      ExprDefined(condition, n, e, had) && Defined(body, n, e, had) && ElseDefined(orelse, n, e, had)
    case ForIn(iterable, target, body, orelse) =>
      && ExprDefined(iterable, n, e, had) && TargetDefined(target, n, e, had)
      && Defined(body, n, e, had || Assigns(target, e)) && ElseDefined(orelse, n, e, had)
    case Break => true
    case Continue => true
    case Return(x) => ExprDefined(x, n, e, had)
    case Raise(x) => ExprDefined(x, n, e, had)
    case TryExcept(body, handlers, orelse) =>
      && Defined(body, n, e, had) && HandlersDefined(handlers, n, e, had)
      && ElseDefined(orelse, n, e, had || Sure(body, e, Normal))
  }

  predicate ElseDefined(orelse: Option<Stmt>, n: NodeId, e: Entry, had: bool) {
    orelse.Some? ==> Defined(orelse.value, n, e, had)
  }

  predicate ClausesDefined(cs: Clauses, n: NodeId, e: Entry, had: bool) {
    match cs
    case LastClause(orelse) => ElseDefined(orelse, n, e, had)
    case Clause(condition, body, rest) =>
      ExprDefined(condition, n, e, had) && Defined(body, n, e, had) && ClausesDefined(rest, n, e, had)
  }

  predicate HandlersDefined(hs: Handlers, n: NodeId, e: Entry, had: bool) {
    hs.Handler? ==>
      && ExprDefined(hs.pattern, n, e, had) && ItemDefined(hs.target, hs.body, n, e, had)
      && HandlersDefined(hs.rest, n, e, had)
  }

  predicate ItemDefined(target: Option<Target>, body: Stmt, n: NodeId, e: Entry, had: bool)
    decreases body, 1
  {
    if target.Some? then TargetDefined(target.value, n, e, had) && Defined(body, n, e, had || Assigns(target.value, e))
    else Defined(body, n, e, had)
  }

  // ------------------------------------------------------------ what runs read

  /** Wherever the node is read, it is for `e`, and that is assigned. */
  ghost predicate ReadsAssigned(events: seq<Event>, n: NodeId, e: Entry) {
    forall ev <- events :: ev.node == n ==> ev.entry == e && e in ev.state
  }

  lemma EvalDefined(x: Expr, n: NodeId, e: Entry, had: bool, st: State, o: seq<Choice>)
    requires ExprDefined(x, n, e, had) && (had ==> e in st)
    ensures ReadsAssigned(Eval(x, st, o).events, n, e)
  {
  }

  lemma {:induction false} BindDefined(t: Target, n: NodeId, e: Entry, had: bool, st: State, o: seq<Choice>)
    requires TargetDefined(t, n, e, had) && (had ==> e in st)
    ensures ReadsAssigned(Bind(t, st, o).events, n, e)
    decreases t, 1
  {
    if o != [] && !o[0].throws {
      match t {
        case NameTarget(_, _) =>
        case SequenceTarget(args) => BindAllDefined(args, n, e, had, st, o[1..]);
        case OtherTarget(x) => EvalDefined(x, n, e, had, st, o[1..]);
      }
    }
  }

  lemma {:induction false} BindAllDefined(ts: Targets, n: NodeId, e: Entry, had: bool, st: State, o: seq<Choice>)
    requires TargetsDefined(ts, n, e, had) && (had ==> e in st)
    ensures ReadsAssigned(BindAll(ts, st, o).events, n, e)
    decreases ts
  {
    if ts.MoreTargets? {
      BindDefined(ts.first, n, e, had, st, o);
      var r := Bind(ts.first, st, o);
      if r.outcome == Normal {
        HasAfterBind(ts.first, e, had, st, o);
        BindAllDefined(ts.rest, n, e, had || Assigns(ts.first, e), r.state, r.rest);
      }
    }
  }

  lemma HasAfterBind(t: Target, e: Entry, had: bool, st: State, o: seq<Choice>)
    requires (had ==> e in st) && Bind(t, st, o).outcome == Normal
    ensures had || Assigns(t, e) ==> e in Bind(t, st, o).state
  {
    if had {
      BindKeeps(t, e, st, o);
    } else if Assigns(t, e) {
      BindAssigns(t, e, st, o);
    }
  }

  lemma Kept(s: Stmt, e: Entry, had: bool, st: State, o: seq<Choice>)
    requires !Deletes(s, e) && (had ==> e in st)
    ensures had ==> e in Exec(s, st, o).state
    ensures (had || Sure(s, e, Normal)) && Exec(s, st, o).outcome == Normal ==> e in Exec(s, st, o).state
  {
    if had {
      ExecKeeps(s, e, st, o);
    } else if Sure(s, e, Normal) && Exec(s, st, o).outcome == Normal {
      SureIsAssigned(s, e, Normal, st, o);
    }
  }

  /** In every run the node is read only while its entry is assigned. */
  lemma {:induction false} ExecDefined(s: Stmt, n: NodeId, e: Entry, had: bool, st: State, o: seq<Choice>)
    requires Defined(s, n, e, had) && !Deletes(s, e) && (had ==> e in st)
    ensures ReadsAssigned(Exec(s, st, o).events, n, e)
    decreases |o|, s, 1
  {
    match s {
      case Pass =>
      case Then(a, b) =>
        ExecDefined(a, n, e, had, st, o);
        var r := Exec(a, st, o);
        if r.outcome == Normal {
          Kept(a, e, had, st, o);
          ExecDefined(b, n, e, had || Sure(a, e, Normal), r.state, r.rest);
        }
      case ExprStat(x) => EvalDefined(x, n, e, had, st, o);
      case Assign(targets, rhs) =>
        EvalDefined(rhs, n, e, had, st, o);
        var r := Eval(rhs, st, o);
        if r.outcome == Normal {
          BindAllDefined(targets, n, e, had, r.state, r.rest);
        }
      case Del(node, entry) => EvalDefined(Name(node, entry), n, e, had, st, o);
      case Assert(condition, failure) =>
        EvalDefined(condition, n, e, had, st, o);
        if o != [] && !o[0].throws && !o[0].taken {
          EvalDefined(failure, n, e, had, st, o[1..]);
        }
      case If(clauses) => ExecClausesDefined(clauses, n, e, had, st, o);
      case While(_, _, _) => WhileDefined(s, n, e, had, st, o);
      case ForIn(iterable, _, _, _) =>
        EvalDefined(iterable, n, e, had, st, o);
        if o != [] && !o[0].throws {
          ForDefined(s, n, e, had, st, o[1..]);
        }
      case Break =>
      case Continue =>
      case Return(x) => EvalDefined(x, n, e, had, st, o);
      case Raise(x) => EvalDefined(x, n, e, had, st, o);
      case TryExcept(_, _, _) => TryDefined(s, n, e, had, st, o);
    }
  }

  lemma {:induction false} ExecElseDefined(orelse: Option<Stmt>, n: NodeId, e: Entry, had: bool, st: State,
                                           o: seq<Choice>)
    requires ElseDefined(orelse, n, e, had) && !ElseDeletes(orelse, e) && (had ==> e in st)
    ensures ReadsAssigned(ExecElse(orelse, st, o).events, n, e)
    decreases |o|, orelse, 2
  {
    if orelse.Some? {
      ExecDefined(orelse.value, n, e, had, st, o);
    }
  }

  lemma {:induction false} ExecClausesDefined(cs: Clauses, n: NodeId, e: Entry, had: bool, st: State, o: seq<Choice>)
    requires ClausesDefined(cs, n, e, had) && !ClausesDelete(cs, e) && (had ==> e in st)
    ensures ReadsAssigned(ExecClauses(cs, st, o).events, n, e)
    decreases |o|, cs, 2
  {
    match cs {
      case LastClause(orelse) => ExecElseDefined(orelse, n, e, had, st, o);
      case Clause(condition, body, rest) =>
        EvalDefined(condition, n, e, had, st, o);
        if o != [] && !o[0].throws {
          if o[0].taken {
            ExecDefined(body, n, e, had, st, o[1..]);
          } else {
            ExecClausesDefined(rest, n, e, had, st, o[1..]);
          }
        }
    }
  }

  lemma {:induction false} WhileDefined(s: Stmt, n: NodeId, e: Entry, had: bool, st: State, o: seq<Choice>)
    requires s.While? && Defined(s, n, e, had) && !Deletes(s, e) && (had ==> e in st)
    ensures ReadsAssigned(Exec(s, st, o).events, n, e)
    decreases |o|, s, 0
  {
    EvalDefined(s.condition, n, e, had, st, o);
    if o != [] && !o[0].throws {
      if o[0].taken {
        ExecDefined(s.body, n, e, had, st, o[1..]);
        Kept(s.body, e, had, st, o[1..]);
        var b := Exec(s.body, st, o[1..]);
        if b.outcome == Normal || b.outcome == Continued {
          ExecDefined(s, n, e, had, b.state, b.rest);
        }
      } else {
        ExecElseDefined(s.orelse, n, e, had, st, o[1..]);
      }
    }
  }

  lemma {:induction false} ExecItemDefined(target: Option<Target>, body: Stmt, n: NodeId, e: Entry, had: bool,
                                           st: State, o: seq<Choice>)
    requires ItemDefined(target, body, n, e, had) && !Deletes(body, e) && (had ==> e in st)
    ensures ReadsAssigned(ExecItem(target, body, st, o).events, n, e)
    decreases |o|, body, 2
  {
    if target.Some? {
      BindDefined(target.value, n, e, had, st, o);
      var t := Bind(target.value, st, o);
      if t.outcome == Normal {
        HasAfterBind(target.value, e, had, st, o);
        ExecDefined(body, n, e, had || Assigns(target.value, e), t.state, t.rest);
      }
    } else {
      ExecDefined(body, n, e, had, st, o);
    }
  }

  lemma {:induction false} ForDefined(s: Stmt, n: NodeId, e: Entry, had: bool, st: State, o: seq<Choice>)
    requires s.ForIn? && Defined(s, n, e, had) && !Deletes(s, e) && (had ==> e in st)
    ensures ReadsAssigned(ExecFor(s.iterable, s.target, s.body, s.orelse, st, o).events, n, e)
    decreases |o|, s.body, 3
  {
    if o != [] {
      EvalDefined(s.iterable, n, e, had, st, o);
      if !o[0].throws {
        if !o[0].taken {
          ExecElseDefined(s.orelse, n, e, had, st, o[1..]);
        } else {
          ExecItemDefined(Some(s.target), s.body, n, e, had, st, o[1..]);
          var b := ExecItem(Some(s.target), s.body, st, o[1..]);
          if had {
            ItemKeeps(Some(s.target), s.body, e, st, o[1..]);
          }
          if b.outcome == Normal || b.outcome == Continued {
            ForDefined(s, n, e, had, b.state, b.rest);
          }
        }
      }
    }
  }

  lemma {:induction false} TryDefined(s: Stmt, n: NodeId, e: Entry, had: bool, st: State, o: seq<Choice>)
    requires s.TryExcept? && Defined(s, n, e, had) && !Deletes(s, e) && (had ==> e in st)
    ensures ReadsAssigned(Exec(s, st, o).events, n, e)
    decreases |o|, s, 0
  {
    if o != [] {
      if o[0].lax {
        ExecHandlersDefined(s.handlers, n, e, had, st, o[1..]);
      } else {
        ExecDefined(s.body, n, e, had, st, o[1..]);
        Kept(s.body, e, had, st, o[1..]);
        var b := Exec(s.body, st, o[1..]);
        if b.outcome == Normal {
          ExecElseDefined(s.orelse, n, e, had || Sure(s.body, e, Normal), b.state, b.rest);
        } else if b.outcome == Raised {
          ExecHandlersDefined(s.handlers, n, e, had, b.state, b.rest);
        }
      }
    }
  }

  lemma {:induction false} ExecHandlersDefined(hs: Handlers, n: NodeId, e: Entry, had: bool, st: State,
                                               o: seq<Choice>)
    requires HandlersDefined(hs, n, e, had) && !HandlersDelete(hs, e) && (had ==> e in st)
    ensures ReadsAssigned(ExecHandlers(hs, st, o).events, n, e)
    decreases |o|, hs, 3
  {
    if hs.Handler? {
      EvalDefined(hs.pattern, n, e, had, st, o);
      if o != [] && !o[0].throws {
        if o[0].taken {
          ExecItemDefined(hs.target, hs.body, n, e, had, st, o[1..]);
        } else {
          ExecHandlersDefined(hs.rest, n, e, had, st, o[1..]);
        }
      }
    }
  }
}

/** What the text of a statement says about its runs: which of its constructs the analysis
    is exact for, which entries it never deletes, and which it is sure to assign. */
module FlowAssigned {
  import opened Wrappers
  import opened FlowSyntax

  /** For which runs the graph is to have no path too many: for all; for those without
      liberties; or for those, as far as unassigned names are concerned. */
  datatype Law = Any | Real | Unassigned

  function LaxOf(law: Law): bool {
    law.Any?
  }

  predicate Deletes(s: Stmt, e: Entry) {
    match s
    case Then(a, b) => Deletes(a, e) || Deletes(b, e)
    case Del(_, entry) => entry == e
    case If(clauses) => ClausesDelete(clauses, e)
    case While(_, body, orelse) => Deletes(body, e) || ElseDeletes(orelse, e)
    case ForIn(_, _, body, orelse) => Deletes(body, e) || ElseDeletes(orelse, e)
    case TryExcept(body, handlers, orelse) => Deletes(body, e) || HandlersDelete(handlers, e) || ElseDeletes(orelse, e)
    case _ => false
  }

  predicate ElseDeletes(orelse: Option<Stmt>, e: Entry) {
    orelse.Some? && Deletes(orelse.value, e)
  }

  predicate ClausesDelete(cs: Clauses, e: Entry) {
    match cs
    case LastClause(orelse) => ElseDeletes(orelse, e)
    case Clause(_, body, rest) => Deletes(body, e) || ClausesDelete(rest, e)
  }

  predicate HandlersDelete(hs: Handlers, e: Entry) {
    hs.Handler? && (Deletes(hs.body, e) || HandlersDelete(hs.rest, e))
  }

  /** Where the graph takes no liberty that matters: no `try`, no `else` on a `while`, and
      no `for` whose iterable is read in another state when it is read again.  For unassigned
      names this is so when the loop deletes none of the iterable's names. */
  predicate Plain(s: Stmt, law: Law) {
    match s
    case Then(a, b) => Plain(a, law) && Plain(b, law)
    case If(clauses) => ClausesPlain(clauses, law)
    case While(_, body, orelse) => Plain(body, law) && orelse.None?
    case ForIn(iterable, _, body, orelse) =>
      && Plain(body, law) && (orelse.Some? ==> Plain(orelse.value, law))
      && (Refs(iterable) == [] || (law.Unassigned? && forall ref <- Refs(iterable) :: !Deletes(body, ref.1)))
    case TryExcept(_, _, _) => false
    case _ => true
  }

  predicate ClausesPlain(cs: Clauses, law: Law) {
    match cs
    case LastClause(orelse) => orelse.Some? ==> Plain(orelse.value, law)
    case Clause(_, body, rest) => Plain(body, law) && ClausesPlain(rest, law)
  }

  /** The nodes that a target assigns are among `lhs`. */
  predicate TargetIn(t: Target, lhs: iset<NodeId>) {
    match t
    case NameTarget(l, _) => l in lhs
    case SequenceTarget(args) => TargetsIn(args, lhs)
    case OtherTarget(_) => true
  }

  predicate TargetsIn(ts: Targets, lhs: iset<NodeId>) {
    ts.MoreTargets? ==> TargetIn(ts.first, lhs) && TargetsIn(ts.rest, lhs)
  }

  predicate StmtIn(s: Stmt, lhs: iset<NodeId>) {
    match s
    case Then(a, b) => StmtIn(a, lhs) && StmtIn(b, lhs)
    case Assign(targets, _) => TargetsIn(targets, lhs)
    case If(clauses) => ClausesIn(clauses, lhs)
    case While(_, body, orelse) => StmtIn(body, lhs) && ElseIn(orelse, lhs)
    case ForIn(_, target, body, orelse) => TargetIn(target, lhs) && StmtIn(body, lhs) && ElseIn(orelse, lhs)
    case TryExcept(body, handlers, orelse) => StmtIn(body, lhs) && HandlersIn(handlers, lhs) && ElseIn(orelse, lhs)
    case _ => true
  }

  predicate ElseIn(orelse: Option<Stmt>, lhs: iset<NodeId>) {
    orelse.Some? ==> StmtIn(orelse.value, lhs)
  }

  predicate ClausesIn(cs: Clauses, lhs: iset<NodeId>) {
    match cs
    case LastClause(orelse) => ElseIn(orelse, lhs)
    case Clause(_, body, rest) => StmtIn(body, lhs) && ClausesIn(rest, lhs)
  }

  predicate HandlersIn(hs: Handlers, lhs: iset<NodeId>) {
    hs.Handler? ==>
      && (hs.target.Some? ==> TargetIn(hs.target.value, lhs)) && StmtIn(hs.body, lhs) && HandlersIn(hs.rest, lhs)
  }

  /** All nodes are among all nodes. */
  lemma {:induction false} AllIn(s: Stmt, lhs: iset<NodeId>)
    requires forall n: NodeId :: n in lhs
    ensures StmtIn(s, lhs)
    decreases s
  {
    match s {
      case Then(a, b) =>
        AllIn(a, lhs);
        AllIn(b, lhs);
      case Assign(targets, _) => AllTargetsIn(targets, lhs);
      case If(clauses) => AllClausesIn(clauses, lhs);
      case While(_, body, orelse) =>
        AllIn(body, lhs);
        AllElseIn(orelse, lhs);
      case ForIn(_, target, body, orelse) =>
        AllTargetIn(target, lhs);
        AllIn(body, lhs);
        AllElseIn(orelse, lhs);
      case TryExcept(body, handlers, orelse) =>
        AllIn(body, lhs);
        AllHandlersIn(handlers, lhs);
        AllElseIn(orelse, lhs);
      case _ =>
    }
  }

  lemma {:induction false} AllElseIn(orelse: Option<Stmt>, lhs: iset<NodeId>)
    requires forall n: NodeId :: n in lhs
    ensures ElseIn(orelse, lhs)
    decreases orelse
  {
    if orelse.Some? {
      AllIn(orelse.value, lhs);
    }
  }

  lemma {:induction false} AllClausesIn(cs: Clauses, lhs: iset<NodeId>)
    requires forall n: NodeId :: n in lhs
    ensures ClausesIn(cs, lhs)
    decreases cs
  {
    match cs {
      case LastClause(orelse) => AllElseIn(orelse, lhs);
      case Clause(_, body, rest) =>
        AllIn(body, lhs);
        AllClausesIn(rest, lhs);
    }
  }

  lemma {:induction false} AllHandlersIn(hs: Handlers, lhs: iset<NodeId>)
    requires forall n: NodeId :: n in lhs
    ensures HandlersIn(hs, lhs)
    decreases hs
  {
    if hs.Handler? {
      if hs.target.Some? {
        AllTargetIn(hs.target.value, lhs);
      }
      AllIn(hs.body, lhs);
      AllHandlersIn(hs.rest, lhs);
    }
  }

  lemma {:induction false} AllTargetIn(t: Target, lhs: iset<NodeId>)
    requires forall n: NodeId :: n in lhs
    ensures TargetIn(t, lhs)
    decreases t
  {
    if t.SequenceTarget? {
      AllTargetsIn(t.args, lhs);
    }
  }

  lemma {:induction false} AllTargetsIn(ts: Targets, lhs: iset<NodeId>)
    requires forall n: NodeId :: n in lhs
    ensures TargetsIn(ts, lhs)
    decreases ts
  {
    if ts.MoreTargets? {
      AllTargetIn(ts.first, lhs);
      AllTargetsIn(ts.rest, lhs);
    }
  }

  // ------------------------------------------------------ what is not deleted stays

  /** The entry is assigned at every read and in the end. */
  ghost predicate Keeps(r: Result, e: Entry) {
    e in r.state && forall ev <- r.events :: e in ev.state
  }

  lemma {:induction false} BindKeeps(t: Target, e: Entry, st: State, o: seq<Choice>)
    requires e in st
    ensures Keeps(Bind(t, st, o), e)
    decreases t, 1
  {
    if o != [] && !o[0].throws {
      BindCoreKeeps(t, e, st, o[1..]);
    }
  }

  lemma {:induction false} BindCoreKeeps(t: Target, e: Entry, st: State, o: seq<Choice>)
    requires e in st
    ensures Keeps(BindCore(t, st, o), e)
    decreases t, 0
  {
    if t.SequenceTarget? {
      BindAllKeeps(t.args, e, st, o);
    }
  }

  lemma {:induction false} BindAllKeeps(ts: Targets, e: Entry, st: State, o: seq<Choice>)
    requires e in st
    ensures Keeps(BindAll(ts, st, o), e)
    decreases ts
  {
    if ts.MoreTargets? {
      BindKeeps(ts.first, e, st, o);
      var r := Bind(ts.first, st, o);
      if r.outcome == Normal {
        BindAllKeeps(ts.rest, e, r.state, r.rest);
      }
    }
  }

  lemma {:induction false} ExecKeeps(s: Stmt, e: Entry, st: State, o: seq<Choice>)
    requires e in st && !Deletes(s, e)
    ensures Keeps(Exec(s, st, o), e)
    decreases |o|, s, 1
  {
    match s {
      case Then(a, b) =>
        ExecKeeps(a, e, st, o);
        var r := Exec(a, st, o);
        if r.outcome == Normal {
          ExecKeeps(b, e, r.state, r.rest);
        }
      case Assign(targets, rhs) =>
        var r := Eval(rhs, st, o);
        if r.outcome == Normal {
          BindAllKeeps(targets, e, r.state, r.rest);
        }
      case If(clauses) => ClausesKeep(clauses, e, st, o);
      case While(_, _, _) => WhileKeeps(s, e, st, o);
      case ForIn(_, _, _, _) =>
        if o != [] && !o[0].throws {
          ForKeeps(s, e, st, o[1..]);
        }
      case TryExcept(_, _, _) => TryKeeps(s, e, st, o);
      case _ =>
    }
  }

  lemma {:induction false} ElseKeeps(orelse: Option<Stmt>, e: Entry, st: State, o: seq<Choice>)
    requires e in st && !ElseDeletes(orelse, e)
    ensures Keeps(ExecElse(orelse, st, o), e)
    decreases |o|, orelse, 2
  {
    if orelse.Some? {
      ExecKeeps(orelse.value, e, st, o);
    }
  }

  lemma {:induction false} ClausesKeep(cs: Clauses, e: Entry, st: State, o: seq<Choice>)
    requires e in st && !ClausesDelete(cs, e)
    ensures Keeps(ExecClauses(cs, st, o), e)
    decreases |o|, cs, 2
  {
    match cs {
      case LastClause(orelse) => ElseKeeps(orelse, e, st, o);
      case Clause(condition, body, rest) =>
        if o != [] && !o[0].throws {
          if o[0].taken {
            ExecKeeps(body, e, st, o[1..]);
          } else {
            ClausesKeep(rest, e, st, o[1..]);
          }
        }
    }
  }

  lemma {:induction false} WhileKeeps(s: Stmt, e: Entry, st: State, o: seq<Choice>)
    requires s.While? && e in st && !Deletes(s, e)
    ensures Keeps(Exec(s, st, o), e)
    decreases |o|, s, 0
  {
    if o != [] && !o[0].throws {
      if o[0].taken {
        ExecKeeps(s.body, e, st, o[1..]);
        var b := Exec(s.body, st, o[1..]);
        if b.outcome == Normal || b.outcome == Continued {
          ExecKeeps(s, e, b.state, b.rest);
        }
      } else {
        ElseKeeps(s.orelse, e, st, o[1..]);
      }
    }
  }

  lemma {:induction false} ItemKeeps(target: Option<Target>, body: Stmt, e: Entry, st: State, o: seq<Choice>)
    requires e in st && !Deletes(body, e)
    ensures Keeps(ExecItem(target, body, st, o), e)
    decreases |o|, body, 2
  {
    if target.Some? {
      BindKeeps(target.value, e, st, o);
      var t := Bind(target.value, st, o);
      if t.outcome == Normal {
        ExecKeeps(body, e, t.state, t.rest);
      }
    } else {
      ExecKeeps(body, e, st, o);
    }
  }

  lemma {:induction false} ForKeeps(s: Stmt, e: Entry, st: State, o: seq<Choice>)
    requires s.ForIn? && e in st && !Deletes(s, e)
    ensures Keeps(ExecFor(s.iterable, s.target, s.body, s.orelse, st, o), e)
    decreases |o|, s.body, 3
  {
    if o != [] && !o[0].throws {
      if !o[0].taken {
        ElseKeeps(s.orelse, e, st, o[1..]);
      } else {
        ItemKeeps(Some(s.target), s.body, e, st, o[1..]);
        var b := ExecItem(Some(s.target), s.body, st, o[1..]);
        if b.outcome == Normal || b.outcome == Continued {
          ForKeeps(s, e, b.state, b.rest);
        }
      }
    }
  }

  lemma {:induction false} TryKeeps(s: Stmt, e: Entry, st: State, o: seq<Choice>)
    requires s.TryExcept? && e in st && !Deletes(s, e)
    ensures Keeps(Exec(s, st, o), e)
    decreases |o|, s, 0
  {
    if o != [] {
      if o[0].lax {
        HandlersKeep(s.handlers, e, st, o[1..]);
      } else {
        ExecKeeps(s.body, e, st, o[1..]);
        var b := Exec(s.body, st, o[1..]);
        if b.outcome == Normal {
          ElseKeeps(s.orelse, e, b.state, b.rest);
        } else if b.outcome == Raised {
          HandlersKeep(s.handlers, e, b.state, b.rest);
        }
      }
    }
  }

  lemma {:induction false} HandlersKeep(hs: Handlers, e: Entry, st: State, o: seq<Choice>)
    requires e in st && !HandlersDelete(hs, e)
    ensures Keeps(ExecHandlers(hs, st, o), e)
    decreases |o|, hs, 3
  {
    if hs.Handler? && o != [] && !o[0].throws {
      if o[0].taken {
        ItemKeeps(hs.target, hs.body, e, st, o[1..]);
      } else {
        HandlersKeep(hs.rest, e, st, o[1..]);
      }
    }
  }

  // ------------------------------------------------------------- definite assignment

  /** The entry is among what binding the target assigns. */
  predicate Assigns(t: Target, e: Entry) {
    match t
    case NameTarget(_, entry) => entry == e
    case SequenceTarget(args) => AllAssign(args, e)
    case OtherTarget(_) => false
  }

  predicate AllAssign(ts: Targets, e: Entry) {
    ts.MoreTargets? && (Assigns(ts.first, e) || AllAssign(ts.rest, e))
  }

  /** Whenever the statement ends in the way `how` (normally, by `break` or by `continue`)
      the entry has been assigned, whatever held before; read off the text alone. */
  predicate Sure(s: Stmt, e: Entry, how: Outcome) {
    match s
    case Then(a, b) => (how == Normal || Sure(a, e, how)) && (Sure(a, e, Normal) || Sure(b, e, how))
    case Assign(targets, _) => how != Normal || AllAssign(targets, e)
    case If(clauses) => ClausesSure(clauses, e, how)
    case While(_, body, orelse) =>
      ElseSure(orelse, e, how) && (how == Normal ==> Sure(body, e, Broke) && Sure(body, e, Normal))
    case ForIn(_, target, body, orelse) =>
      ElseSure(orelse, e, how) && (how == Normal ==> Assigns(target, e) || Sure(body, e, Broke))
    case Break => how != Broke
    case Continue => how != Continued
    case Return(_) => true
    case Raise(_) => true
    case TryExcept(body, handlers, orelse) =>
      && (how == Normal || Sure(body, e, how)) && (Sure(body, e, Normal) || ElseSure(orelse, e, how))
      && HandlersSure(handlers, e, how)
    case _ => how != Normal
  }

  predicate ElseSure(orelse: Option<Stmt>, e: Entry, how: Outcome) {
    if orelse.Some? then Sure(orelse.value, e, how) else how != Normal
  }

  predicate ClausesSure(cs: Clauses, e: Entry, how: Outcome) {
    match cs
    case LastClause(orelse) => ElseSure(orelse, e, how)
    case Clause(_, body, rest) => Sure(body, e, how) && ClausesSure(rest, e, how)
  }

  predicate HandlersSure(hs: Handlers, e: Entry, how: Outcome) {
    hs.Handler? ==>
      && ((hs.target.Some? && Assigns(hs.target.value, e)) || Sure(hs.body, e, how))
      && HandlersSure(hs.rest, e, how)
  }

  predicate Ending(how: Outcome) {
    how == Normal || how == Broke || how == Continued
  }

  lemma {:induction false} BindAssigns(t: Target, e: Entry, st: State, o: seq<Choice>)
    requires Assigns(t, e) && Bind(t, st, o).outcome == Normal
    ensures e in Bind(t, st, o).state
    decreases t, 1
  {
    if t.SequenceTarget? {
      AllAreAssigned(t.args, e, st, o[1..]);
    }
  }

  lemma {:induction false} AllAreAssigned(ts: Targets, e: Entry, st: State, o: seq<Choice>)
    requires AllAssign(ts, e) && BindAll(ts, st, o).outcome == Normal
    ensures e in BindAll(ts, st, o).state
    decreases ts
  {
    var r := Bind(ts.first, st, o);
    if Assigns(ts.first, e) {
      BindAssigns(ts.first, e, st, o);
      BindAllKeeps(ts.rest, e, r.state, r.rest);
    } else {
      AllAreAssigned(ts.rest, e, r.state, r.rest);
    }
  }

  /** What the text says is sure is so in every run. */
  lemma {:induction false} SureIsAssigned(s: Stmt, e: Entry, how: Outcome, st: State, o: seq<Choice>)
    requires Sure(s, e, how) && !Deletes(s, e) && Ending(how) && Exec(s, st, o).outcome == how
    ensures e in Exec(s, st, o).state
    decreases |o|, s, 1
  {
    match s {
      case Then(a, b) =>
        var r := Exec(a, st, o);
        if r.outcome != Normal {
          SureIsAssigned(a, e, how, st, o);
        } else if Sure(a, e, Normal) {
          SureIsAssigned(a, e, Normal, st, o);
          ExecKeeps(b, e, r.state, r.rest);
        } else {
          SureIsAssigned(b, e, how, r.state, r.rest);
        }
      case Assign(targets, rhs) =>
        var r := Eval(rhs, st, o);
        BindEndsNormally(targets, r.state, r.rest);
        AllAreAssigned(targets, e, r.state, r.rest);
      case If(clauses) => ClausesAreSure(clauses, e, how, st, o);
      case While(_, _, _) => WhileIsSure(s, e, how, st, o);
      case ForIn(_, _, _, _) => ForIsSure(s, e, how, st, o[1..]);
      case TryExcept(_, _, _) => TryIsSure(s, e, how, st, o);
      case _ =>
    }
  }

  lemma {:induction false} BindEndsNormally(ts: Targets, st: State, o: seq<Choice>)
    ensures BindAll(ts, st, o).outcome in {Normal, Raised, Cut}
    decreases ts
  {
    if ts.MoreTargets? {
      BindOutcome(ts.first, st, o);
      var r := Bind(ts.first, st, o);
      BindEndsNormally(ts.rest, r.state, r.rest);
    }
  }

  lemma {:induction false} BindOutcome(t: Target, st: State, o: seq<Choice>)
    ensures Bind(t, st, o).outcome in {Normal, Raised, Cut}
    decreases t
  {
    if t.SequenceTarget? && o != [] {
      BindEndsNormally(t.args, st, o[1..]);
    }
  }

  lemma {:induction false} ElseIsSure(orelse: Option<Stmt>, e: Entry, how: Outcome, st: State, o: seq<Choice>)
    requires ElseSure(orelse, e, how) && !ElseDeletes(orelse, e) && Ending(how)
    requires ExecElse(orelse, st, o).outcome == how
    ensures e in ExecElse(orelse, st, o).state
    decreases |o|, orelse, 2
  {
    if orelse.Some? {
      SureIsAssigned(orelse.value, e, how, st, o);
    }
  }

  lemma {:induction false} ClausesAreSure(cs: Clauses, e: Entry, how: Outcome, st: State, o: seq<Choice>)
    requires ClausesSure(cs, e, how) && !ClausesDelete(cs, e) && Ending(how) && ExecClauses(cs, st, o).outcome == how
    ensures e in ExecClauses(cs, st, o).state
    decreases |o|, cs, 2
  {
    match cs {
      case LastClause(orelse) => ElseIsSure(orelse, e, how, st, o);
      case Clause(condition, body, rest) =>
        if o[0].taken {
          SureIsAssigned(body, e, how, st, o[1..]);
        } else {
          ClausesAreSure(rest, e, how, st, o[1..]);
        }
    }
  }

  lemma {:induction false} WhileIsSure(s: Stmt, e: Entry, how: Outcome, st: State, o: seq<Choice>)
    requires s.While? && Sure(s, e, how) && !Deletes(s, e) && Ending(how) && Exec(s, st, o).outcome == how
    ensures e in Exec(s, st, o).state
    decreases |o|, s, 0
  {
    if o[0].taken {
      var b := Exec(s.body, st, o[1..]);
      if b.outcome == Broke {
        SureIsAssigned(s.body, e, Broke, st, o[1..]);
      } else if b.outcome == Normal && o[0].lax {
        SureIsAssigned(s.body, e, Normal, st, o[1..]);
      } else {
        WhileIsSure(s, e, how, b.state, b.rest);
      }
    } else {
      ElseIsSure(s.orelse, e, how, st, o[1..]);
    }
  }

  lemma {:induction false} ForIsSure(s: Stmt, e: Entry, how: Outcome, st: State, o: seq<Choice>)
    requires s.ForIn? && Sure(s, e, how) && !Deletes(s, e) && Ending(how)
    requires ExecFor(s.iterable, s.target, s.body, s.orelse, st, o).outcome == how
    ensures e in ExecFor(s.iterable, s.target, s.body, s.orelse, st, o).state
    decreases |o|, s.body, 3
  {
    if o[0].taken {
      var b := ExecItem(Some(s.target), s.body, st, o[1..]);
      if b.outcome == Broke {
        ItemIsSure(Some(s.target), s.body, e, Broke, st, o[1..]);
      } else {
        ForIsSure(s, e, how, b.state, b.rest);
      }
    } else {
      ElseIsSure(s.orelse, e, how, st, o[1..]);
    }
  }

  lemma {:induction false} ItemIsSure(target: Option<Target>, body: Stmt, e: Entry, how: Outcome, st: State,
                                      o: seq<Choice>)
    requires (target.Some? && Assigns(target.value, e)) || Sure(body, e, how)
    requires !Deletes(body, e) && Ending(how) && ExecItem(target, body, st, o).outcome == how
    ensures e in ExecItem(target, body, st, o).state
    decreases |o|, body, 2
  {
    var t := if target.Some? then Bind(target.value, st, o) else Result([], Normal, st, o);
    if target.Some? {
      BindOutcome(target.value, st, o);
    }
    if target.Some? && Assigns(target.value, e) {
      BindAssigns(target.value, e, st, o);
      ExecKeeps(body, e, t.state, t.rest);
    } else {
      SureIsAssigned(body, e, how, t.state, t.rest);
    }
  }

  lemma {:induction false} TryIsSure(s: Stmt, e: Entry, how: Outcome, st: State, o: seq<Choice>)
    requires s.TryExcept? && Sure(s, e, how) && !Deletes(s, e) && Ending(how) && Exec(s, st, o).outcome == how
    ensures e in Exec(s, st, o).state
    decreases |o|, s, 0
  {
    if o[0].lax {
      HandlersAreSure(s.handlers, e, how, st, o[1..]);
    } else {
      var b := Exec(s.body, st, o[1..]);
      if b.outcome == Raised {
        HandlersAreSure(s.handlers, e, how, b.state, b.rest);
      } else if b.outcome != Normal {
        SureIsAssigned(s.body, e, how, st, o[1..]);
      } else if Sure(s.body, e, Normal) {
        SureIsAssigned(s.body, e, Normal, st, o[1..]);
        ElseKeeps(s.orelse, e, b.state, b.rest);
      } else {
        ElseIsSure(s.orelse, e, how, b.state, b.rest);
      }
    }
  }

  lemma {:induction false} HandlersAreSure(hs: Handlers, e: Entry, how: Outcome, st: State, o: seq<Choice>)
    requires HandlersSure(hs, e, how) && !HandlersDelete(hs, e) && Ending(how) && ExecHandlers(hs, st, o).outcome == how
    ensures e in ExecHandlers(hs, st, o).state
    decreases |o|, hs, 3
  {
    if o[0].taken {
      ItemIsSure(hs.target, hs.body, e, how, st, o[1..]);
    } else {
      HandlersAreSure(hs.rest, e, how, st, o[1..]);
    }
  }
}

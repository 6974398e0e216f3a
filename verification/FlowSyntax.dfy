/** The statements that the control-flow analysis walks over, and what it means
    to execute them.

    Execution is an interpreter driven by a list of decisions.  Every place where a
    real program could go one way or another (a condition, an exception, the end of
    an iteration, which names of an expression are read and in what order) consumes
    one decision, and a run that has used up its decisions is simply cut there.  The
    runs of a statement are therefore all the results over all decision lists, the
    prefixes of runs that never terminate included.  A decision can also take a liberty
    that the graph of the analysis allows although no real run has it. */
module FlowSyntax {
  import opened Wrappers

  type Entry = string
  type NodeId = nat

  datatype Expr =
    | Name(node: NodeId, entry: Entry)
    | NoOperand
    | Operands(first: Expr, second: Expr)
    | BoolBinop(operand1: Expr, operand2: Expr)
    | CondExpr(condition: Expr, trueVal: Expr, falseVal: Expr)

  /** The left-hand side of an assignment. */
  datatype Target =
    | NameTarget(lhs: NodeId, entry: Entry)
    | SequenceTarget(args: Targets)
    | OtherTarget(expr: Expr)

  datatype Targets = NoTargets | MoreTargets(first: Target, rest: Targets)

  datatype Stmt =
    | Pass
    | Then(first: Stmt, second: Stmt)
    | ExprStat(expr: Expr)
    | Assign(targets: Targets, rhs: Expr)
    | Del(node: NodeId, entry: Entry)
    | Assert(condition: Expr, failure: Expr)
    | If(clauses: Clauses)
    | While(condition: Expr, body: Stmt, orelse: Option<Stmt>)
    | ForIn(iterable: Expr, target: Target, body: Stmt, orelse: Option<Stmt>)
    | Break
    | Continue
    | Return(expr: Expr)
    | Raise(expr: Expr)
    | TryExcept(body: Stmt, handlers: Handlers, orelse: Option<Stmt>)

  datatype Clauses = LastClause(orelse: Option<Stmt>) | Clause(condition: Expr, body: Stmt, rest: Clauses)

  datatype Handlers =
    | NoHandlers
    | Handler(pattern: Expr, target: Option<Target>, body: Stmt, rest: Handlers)

  /** Where the statements may stand: `break` and `continue` only inside a loop, and
      `del` only outside the body of a `try` (the analysis links deletions to no
      exception handler). */
  predicate Supported(s: Stmt, inLoop: bool, inTry: bool) {
    match s
    case Then(a, b) => Supported(a, inLoop, inTry) && Supported(b, inLoop, inTry)
    case Del(_, _) => !inTry
    case If(clauses) => SupportedClauses(clauses, inLoop, inTry)
    case While(_, body, orelse) =>
      Supported(body, true, inTry) && (orelse.Some? ==> Supported(orelse.value, inLoop, inTry))
    case ForIn(_, _, body, orelse) =>
      Supported(body, true, inTry) && (orelse.Some? ==> Supported(orelse.value, inLoop, inTry))
    case Break => inLoop
    case Continue => inLoop
    case TryExcept(body, handlers, orelse) =>
      && Supported(body, inLoop, true)
      && SupportedHandlers(handlers, inLoop, inTry)
      && (orelse.Some? ==> Supported(orelse.value, inLoop, inTry))
    case _ => true
  }

  predicate SupportedClauses(cs: Clauses, inLoop: bool, inTry: bool) {
    match cs
    case LastClause(orelse) => orelse.Some? ==> Supported(orelse.value, inLoop, inTry)
    case Clause(_, body, rest) => Supported(body, inLoop, inTry) && SupportedClauses(rest, inLoop, inTry)
  }

  predicate SupportedHandlers(hs: Handlers, inLoop: bool, inTry: bool) {
    hs.Handler? ==> Supported(hs.body, inLoop, inTry) && SupportedHandlers(hs.rest, inLoop, inTry)
  }

  // ---------------------------------------------------------------- execution

  /** The assigned locals, each with the left-hand side node that assigned it last. */
  type State = map<Entry, NodeId>

  datatype Event = Read(node: NodeId, entry: Entry, state: State)

  datatype Outcome = Normal | Raised | Broke | Continued | Returned | Cut

  /** A decision.  A `lax` one takes a liberty that no real run has but that the graph of
      the analysis allows: an exception at the very start of a `try` or directly behind a
      binding, leaving a `while` loop behind its body, and reading the iterable of a `for`
      loop again before an iteration. */
  datatype Choice = Choice(picks: seq<nat>, throws: bool, taken: bool, lax: bool)

  /** The decisions of a run that takes no liberties, unless liberties are granted. */
  predicate Fair(o: seq<Choice>, lax: bool) {
    !lax ==> forall c <- o :: !c.lax
  }

  datatype Result = Result(events: seq<Event>, outcome: Outcome, state: State, rest: seq<Choice>)

  function After(events: seq<Event>, r: Result): Result {
    r.(events := events + r.events)
  }

  function Refs(e: Expr): seq<(NodeId, Entry)> {
    match e
    case Name(node, entry) => [(node, entry)]
    case NoOperand => []
    case Operands(a, b) => Refs(a) + Refs(b)
    case BoolBinop(a, b) => Refs(a) + Refs(b)
    case CondExpr(c, a, b) => Refs(c) + (Refs(a) + Refs(b))
  }

  /** The reads that an evaluation makes: any of the expression's names, in any order
      (a pick beyond the last name counts as the first one). */
  function Reads(refs: seq<(NodeId, Entry)>, picks: seq<nat>, st: State): (events: seq<Event>)
    ensures forall ev <- events :: (ev.node, ev.entry) in refs && ev.state == st
  {
    if refs == [] then []
    else
      seq(|picks|, i requires 0 <= i < |picks| =>
        var ref := refs[if picks[i] < |refs| then picks[i] else 0];
        Read(ref.0, ref.1, st))
  }

  function Eval(e: Expr, st: State, o: seq<Choice>): Result {
    if o == [] then Result([], Cut, st, [])
    else Result(Reads(Refs(e), o[0].picks, st), if o[0].throws then Raised else Normal, st, o[1..])
  }

  function Bind(t: Target, st: State, o: seq<Choice>): (r: Result)
    ensures |r.rest| <= |o|
    decreases t, 1
  {
    if o == [] then Result([], Cut, st, [])
    else if o[0].throws then Result([], Raised, st, o[1..])
    else
      var r := BindCore(t, st, o[1..]);
      if r.outcome == Normal && o[0].lax then r.(outcome := Raised) else r
  }

  function BindCore(t: Target, st: State, o: seq<Choice>): (r: Result)
    ensures |r.rest| <= |o|
    decreases t, 0
  {
    match t
    case NameTarget(lhs, entry) => Result([], Normal, st[entry := lhs], o)
    case SequenceTarget(args) => BindAll(args, st, o)
    case OtherTarget(e) => Eval(e, st, o)
  }

  function BindAll(ts: Targets, st: State, o: seq<Choice>): (r: Result)
    ensures |r.rest| <= |o|
    decreases ts
  {
    match ts
    case NoTargets => Result([], Normal, st, o)
    case MoreTargets(t, rest) =>
      var r := Bind(t, st, o);
      if r.outcome == Normal then After(r.events, BindAll(rest, r.state, r.rest)) else r
  }

  function Exec(s: Stmt, st: State, o: seq<Choice>): (r: Result)
    ensures |r.rest| <= |o|
    decreases |o|, s, 1
  {
    match s
    case Pass => Result([], Normal, st, o)
    case Then(a, b) =>
      var r := Exec(a, st, o);
      if r.outcome == Normal then After(r.events, Exec(b, r.state, r.rest)) else r
    case ExprStat(e) => Eval(e, st, o)
    case Assign(targets, rhs) =>
      var r := Eval(rhs, st, o);
      if r.outcome == Normal then After(r.events, BindAll(targets, r.state, r.rest)) else r
    case Del(node, entry) =>
      var r := Eval(Name(node, entry), st, o);
      if r.outcome == Normal then r.(state := st - {entry}) else r
    case Assert(condition, failure) =>
      var r := Eval(condition, st, o);
      if r.outcome != Normal || o[0].taken then r
      else After(r.events, Exec(Raise(failure), st, r.rest))
    case If(clauses) => ExecClauses(clauses, st, o)
    case While(condition, body, orelse) =>
      var c := Eval(condition, st, o);
      if c.outcome != Normal then c
      else if !o[0].taken then After(c.events, ExecElse(orelse, st, c.rest))
      else
        var b := Exec(body, st, c.rest);
        if b.outcome == Normal || b.outcome == Continued then
          After(c.events + b.events,
                if b.outcome == Normal && o[0].lax then Result([], Normal, b.state, b.rest)
                else Exec(s, b.state, b.rest))
        else
          After(c.events, if b.outcome == Broke then b.(outcome := Normal) else b)
    case ForIn(iterable, target, body, orelse) =>
      var i := Eval(iterable, st, o);
      if i.outcome != Normal then i else After(i.events, ExecFor(iterable, target, body, orelse, st, i.rest))
    case Break => Result([], Broke, st, o)
    case Continue => Result([], Continued, st, o)
    case Return(e) =>
      var r := Eval(e, st, o);
      if r.outcome == Normal then r.(outcome := Returned) else r
    case Raise(e) =>
      var r := Eval(e, st, o);
      if r.outcome == Normal then r.(outcome := Raised) else r
    case TryExcept(body, handlers, orelse) =>
      if o == [] then Result([], Cut, st, [])
      else if o[0].lax then ExecHandlers(handlers, st, o[1..])
      else
        var b := Exec(body, st, o[1..]);
        if b.outcome == Normal then After(b.events, ExecElse(orelse, b.state, b.rest))
        else if b.outcome == Raised then After(b.events, ExecHandlers(handlers, b.state, b.rest))
        else b
  }

  function ExecElse(orelse: Option<Stmt>, st: State, o: seq<Choice>): (r: Result)
    ensures |r.rest| <= |o|
    decreases |o|, orelse, 2
  {
    if orelse.Some? then Exec(orelse.value, st, o) else Result([], Normal, st, o)
  }

  function ExecClauses(cs: Clauses, st: State, o: seq<Choice>): (r: Result)
    ensures |r.rest| <= |o|
    decreases |o|, cs, 2
  {
    match cs
    case LastClause(orelse) => ExecElse(orelse, st, o)
    case Clause(condition, body, rest) =>
      var c := Eval(condition, st, o);
      if c.outcome != Normal then c
      else After(c.events, if o[0].taken then Exec(body, st, c.rest) else ExecClauses(rest, st, c.rest))
  }

  /** Binding a target, if there is one, and running a statement with it bound. */
  function ExecItem(target: Option<Target>, body: Stmt, st: State, o: seq<Choice>): (r: Result)
    ensures |r.rest| <= |o|
    decreases |o|, body, 2
  {
    var t := if target.Some? then Bind(target.value, st, o) else Result([], Normal, st, o);
    if t.outcome == Normal then After(t.events, Exec(body, t.state, t.rest)) else t
  }

  /** The iterations of a `for` loop whose iterable has been evaluated: each asks the
      iterator for an item (which may throw, or end the loop) and binds the target. */
  function ExecFor(iterable: Expr, target: Target, body: Stmt, orelse: Option<Stmt>, st: State, o: seq<Choice>)
    : (r: Result)
    ensures |r.rest| <= |o|
    decreases |o|
  {
    if o == [] then Result([], Cut, st, [])
    else
      After(if o[0].lax then Reads(Refs(iterable), o[0].picks, st) else [],
            if o[0].throws then Result([], Raised, st, o[1..])
            else if !o[0].taken then ExecElse(orelse, st, o[1..])
            else
              var b := ExecItem(Some(target), body, st, o[1..]);
              if b.outcome == Normal || b.outcome == Continued then
                After(b.events, ExecFor(iterable, target, body, orelse, b.state, b.rest))
              else if b.outcome == Broke then b.(outcome := Normal)
              else b)
  }

  function ExecHandlers(hs: Handlers, st: State, o: seq<Choice>): (r: Result)
    ensures |r.rest| <= |o|
    decreases |o|, hs, 3
  {
    match hs
    case NoHandlers => Result([], Raised, st, o)
    case Handler(pattern, target, body, rest) =>
      var p := Eval(pattern, st, o);
      if p.outcome != Normal then p
      else After(p.events, if o[0].taken then ExecItem(target, body, st, p.rest) else ExecHandlers(rest, st, p.rest))
  }

  /** The state in which the body of a function starts: its arguments are bound. */
  function ArgState(args: seq<(NodeId, Entry)>): State {
    if args == [] then map[]
    else ArgState(args[..|args| - 1])[args[|args| - 1].1 := args[|args| - 1].0]
  }

  function RunFunction(args: seq<(NodeId, Entry)>, body: Stmt, o: seq<Choice>): Result {
    Exec(body, ArgState(args), o)
  }
}

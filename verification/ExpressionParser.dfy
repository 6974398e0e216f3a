/** Reading expressions: a scanner, and a parser with a level for each production. */
module ExpressionParser {
  import opened Wrappers
  import opened Expressions
  import opened Decimal

  /** Keywords, operators and parentheses are symbols. */
  datatype Token = Ident(name: string) | Number(value: nat) | Sym(sym: string)

  // ----------------------------------------------------------------------- scanner

  function WordEnd(s: string, i: nat): (e: nat)
    requires i <= |s|
    ensures i <= e <= |s|
    decreases |s| - i
  {
    if i < |s| && IsNameChar(s[i]) then WordEnd(s, i + 1) else i
  }

  function NumberEnd(s: string, i: nat): (e: nat)
    requires i <= |s|
    ensures i <= e <= |s| && forall k :: i <= k < e ==> IsDigit(s[k])
    decreases |s| - i
  {
    if i < |s| && IsDigit(s[i]) then NumberEnd(s, i + 1) else i
  }

  function ValueOf(digits: string): nat
    requires forall c <- digits :: IsDigit(c)
  {
    if digits == [] then 0
    else
      var last := digits[|digits| - 1];
      assert last in digits && IsDigit(last);
      10 * ValueOf(digits[..|digits| - 1]) + (last - '0') as nat
  }

  predicate DoubleSymbol(s: string) {
    s in {"**", "//", "<<", ">>", "<=", ">=", "!=", "==", "<>"}
  }

  function Lex(s: string): seq<Token>
    decreases |s|
  {
    if s == [] then []
    else if s[0] == ' ' then Lex(s[1..])
    else if IsLetter(s[0]) then
      var n := WordEnd(s, 1);
      [if IsKeyword(s[..n]) then Sym(s[..n]) else Ident(s[..n])] + Lex(s[n..])
    else if IsDigit(s[0]) then
      var n := NumberEnd(s, 1);
      [Number(ValueOf(s[..n]))] + Lex(s[n..])
    else
      var n := if |s| >= 2 && DoubleSymbol(s[..2]) then 2 else 1;
      [Sym(s[..n])] + Lex(s[n..])
  }

  // ------------------------------------------------------------------------ parser

  datatype Parsed = Parsed(expr: Expr, rest: seq<Token>)

  datatype Chained = Chained(links: Links, rest: seq<Token>)

  datatype Read = NoOperator | Operator(op: string, rest: seq<Token>) | Misplaced

  /** A comparison operator may consist of two words. */
  function ReadOperator(level: nat, ts: seq<Token>): (r: Read)
    ensures r.Operator? ==> |r.rest| < |ts|
  {
    if ts == [] || !ts[0].Sym? then NoOperator
    else if level == COMPARISON && ts[0].sym == "not" then
      if |ts| > 1 && ts[1] == Sym("in") then Operator("not_in", ts[2..]) else Misplaced
    else if level == COMPARISON && ts[0].sym == "is" && |ts| > 1 && ts[1] == Sym("not") then Operator("is_not", ts[2..])
    else if level == COMPARISON && ts[0].sym == "<>" then Operator("!=", ts[1..])
    else if level > 0 && ProductionOf(ts[0].sym) == level then Operator(ts[0].sym, ts[1..])
    else NoOperator
  }

  /** An expression of the given production, or of those for its operands. */
  function ParseAt(level: nat, ts: seq<Token>): (r: Option<Parsed>)
    requires 1 <= level <= ATOM
    ensures r.Some? ==> |r.value.rest| < |ts|
    decreases |ts|, ATOM - level, 1
  {
    if level == ATOM then
      if ts == [] then None
      else
        match ts[0]
        case Ident(name) => Some(Parsed(NameNode(name), ts[1..]))
        case Number(value) => Some(Parsed(IntNode(value), ts[1..]))
        case Sym(sym) =>
          if sym != "(" then None
          else
            var inner := ParseAt(OR_TEST, ts[1..]);
            if inner.Some? && inner.value.rest != [] && inner.value.rest[0] == Sym(")") then
              Some(Parsed(inner.value.expr, inner.value.rest[1..]))
            else None
    else if level == NOT_TEST && ts != [] && ts[0] == Sym("not") then
      var operand := ParseAt(NOT_TEST, ts[1..]);
      if operand.Some? then Some(Parsed(NotNode(operand.value.expr), operand.value.rest)) else None
    else if level == FACTOR && ts != [] && ts[0].Sym? && UnaryOperator(ts[0].sym) then
      var operand := ParseAt(FACTOR, ts[1..]);
      if operand.Some? then Some(Parsed(UnopOf(ts[0].sym, operand.value.expr), operand.value.rest)) else None
    else if level == NOT_TEST || level == FACTOR then ParseAt(level + 1, ts)
    else if level == POWER then
      var atom := ParseAt(ATOM, ts);
      if atom.Some? && atom.value.rest != [] && atom.value.rest[0] == Sym("**") then
        var operand := ParseAt(FACTOR, atom.value.rest[1..]);
        if operand.Some? then Some(Parsed(BinopNode("**", atom.value.expr, operand.value.expr), operand.value.rest))
          else None
      else atom
    else
      var head := ParseAt(level + 1, ts);
      if head.None? then None
      else
        var chain := ParseLinks(level, head.value.rest);
        if chain.Some? then Some(Parsed(Combine(level, head.value.expr, chain.value.links), chain.value.rest)) else None
  }

  /** The operators of a level, each with the operand behind it. */
  function ParseLinks(level: nat, ts: seq<Token>): (r: Option<Chained>)
    requires 1 <= level < POWER
    ensures r.Some? ==> |r.value.rest| <= |ts|
    decreases |ts|, ATOM - level, 0
  {
    match ReadOperator(level, ts)
    case NoOperator => Some(Chained(NoLinks, ts))
    case Misplaced => None
    case Operator(op, rest) =>
      var operand := ParseAt(level + 1, rest);
      if operand.None? then None
      else
        var more := ParseLinks(level, operand.value.rest);
        if more.Some? then Some(Chained(Link(op, operand.value.expr, more.value.links), more.value.rest)) else None
  }

  /** A whole text. */
  function Parse(s: string): Option<Expr> {
    var r := ParseAt(OR_TEST, Lex(s));
    if r.Some? && r.value.rest == [] then Some(r.value.expr) else None
  }
}

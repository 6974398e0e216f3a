/** Writing expressions with as few parentheses as their precedence allows. */
module ExpressionWriter {
  import opened Wrappers
  import opened Expressions
  import opened ExpressionParser
  import opened Decimal

  // ----------------------------------------------------------------------- the text

  /** The precedence that the writer has for a unary operator. */
  function UnopPrecedence(op: string): nat {
    if op in {"not", "!"} then 3 else if op in {"+", "-", "~"} then 11 else 0
  }

  /** The precedence that it has for a binary operator, 0 for an unknown one. */
  function BinopPrecedence(op: string): nat {
    if op == "or" then 1
    else if op == "and" then 2
    else if op in {"in", "not_in", "is", "is_not", "<", "<=", ">", ">=", "!=", "=="} then 4
    else if op == "|" then 5
    else if op == "^" then 6
    else if op == "&" then 7
    else if op in {"<<", ">>"} then 8
    else if op in {"+", "-"} then 9
    else if op in {"*", "@", "/", "//", "%"} then 10
    else if op == "**" then 12
    else 0
  }

  predicate IsOperation(e: Expr) {
    !e.NameNode? && !e.IntNode?
  }

  function Precedence(e: Expr): nat
    requires Printable(e) && IsOperation(e)
  {
    match e
    case NotNode(_) => UnopPrecedence("not")
    case UnopNode(op, _) => UnopPrecedence(op)
    case BinopNode(op, _, _) => BinopPrecedence(op)
    case PrimaryCmpNode(_, links) => BinopPrecedence(links.operator)
  }

  /** The production of the grammar that makes the node. */
  function LevelOf(e: Expr): nat {
    match e
    case NotNode(_) => NOT_TEST
    case UnopNode(_, _) => FACTOR
    case BinopNode(op, _, _) => ProductionOf(op)
    case PrimaryCmpNode(_, _) => COMPARISON
    case _ => ATOM
  }

  /** The writer's table goes with the grammar. */
  lemma PrecedenceIsLevel(e: Expr)
    requires Printable(e) && IsOperation(e)
    ensures Precedence(e) == LevelOf(e) < ATOM
  {
    assert forall op :: BinopPrecedence(op) == ProductionOf(op);
  }

  function Spaced(op: string): string {
    if op == "not_in" then "not in" else if op == "is_not" then "is not" else op
  }

  function Wrapped(parens: bool, s: string): string {
    if parens then "(" + s + ")" else s
  }

  /** The text of a node without parentheses of its own. */
  function Bare(e: Expr): string
    requires Printable(e)
    decreases e, 0
  {
    match e
    case NameNode(name) => name
    case IntNode(value) => Digits(value)
    case NotNode(x) => "not " + Text(x, Precedence(e))
    case UnopNode(op, x) => op + Text(x, Precedence(e))
    case BinopNode(op, x, y) => Text(x, Precedence(e)) + " " + Spaced(op) + " " + Text(y, Precedence(e))
    case PrimaryCmpNode(x, links) =>
      Text(x, Precedence(e)) + " " + Spaced(links.operator) + " " + Text(links.operand, Precedence(e))
  }

  /** Its text inside an operation of precedence `outer`. */
  function Text(e: Expr, outer: nat): string
    requires Printable(e)
    decreases e, 1
  {
    Wrapped(IsOperation(e) && outer > Precedence(e), Bare(e))
  }

  function OperatorTokens(op: string): seq<Token> {
    if op == "not_in" then [Sym("not"), Sym("in")]
    else if op == "is_not" then [Sym("is"), Sym("not")]
    else [Sym(op)]
  }

  function BareTokens(e: Expr): seq<Token>
    requires Printable(e)
    decreases e, 0
  {
    match e
    case NameNode(name) => [Ident(name)]
    case IntNode(value) => [Number(value)]
    case NotNode(x) => [Sym("not")] + Tokens(x, NOT_TEST)
    case UnopNode(op, x) => [Sym(op)] + Tokens(x, FACTOR)
    case BinopNode(op, x, y) => Tokens(x, LevelOf(e)) + OperatorTokens(op) + Tokens(y, LevelOf(e))
    case PrimaryCmpNode(x, links) =>
      Tokens(x, COMPARISON) + OperatorTokens(links.operator) + Tokens(links.operand, COMPARISON)
  }

  function Tokens(e: Expr, outer: nat): seq<Token>
    requires Printable(e)
    decreases e, 1
  {
    if outer > LevelOf(e) then [Sym("(")] + BareTokens(e) + [Sym(")")] else BareTokens(e)
  }

  // ------------------------------------------------------------------- scanning the text

  /** What may stand behind a word or a number. */
  predicate Separates(rest: string) {
    rest == [] || rest[0] == ' ' || rest[0] == ')'
  }

  lemma {:induction false} WordEndThere(s: string, i: nat, e: nat)
    requires i <= e <= |s| && (forall k :: i <= k < e ==> IsNameChar(s[k])) && (e < |s| ==> !IsNameChar(s[e]))
    ensures WordEnd(s, i) == e
    decreases e - i
  {
    if i < e {
      WordEndThere(s, i + 1, e);
    }
  }

  lemma {:induction false} NumberEndThere(s: string, i: nat, e: nat)
    requires i <= e <= |s| && (forall k :: i <= k < e ==> IsDigit(s[k])) && (e < |s| ==> !IsDigit(s[e]))
    ensures NumberEnd(s, i) == e
    decreases e - i
  {
    if i < e {
      NumberEndThere(s, i + 1, e);
    }
  }

  lemma LexWord(w: string, rest: string)
    requires w != [] && IsLetter(w[0]) && (forall c <- w :: IsNameChar(c)) && Separates(rest)
    ensures Lex(w + rest) == [if IsKeyword(w) then Sym(w) else Ident(w)] + Lex(rest)
  {
    var s := w + rest;
    assert forall k :: 0 <= k < |w| ==> s[k] == w[k] && w[k] in w;
    WordEndThere(s, 1, |w|);
    assert s[..|w|] == w && s[|w|..] == rest;
  }

  lemma {:induction false} ValueOfDigits(n: nat)
    ensures (forall c <- Digits(n) :: IsDigit(c)) && ValueOf(Digits(n)) == n
  {
    DigitsAreDigits(n);
    if n >= 10 {
      ValueOfDigits(n / 10);
      assert Digits(n)[..|Digits(n)| - 1] == Digits(n / 10);
    } else {
      assert Digits(n)[..0] == [];
    }
  }

  lemma LexNumber(n: nat, rest: string)
    requires Separates(rest)
    ensures Lex(Digits(n) + rest) == [Number(n)] + Lex(rest)
  {
    var w, s := Digits(n), Digits(n) + rest;
    ValueOfDigits(n);
    DigitsAreDigits(n);
    assert forall k :: 0 <= k < |w| ==> s[k] == w[k] && w[k] in w;
    NumberEndThere(s, 1, |w|);
    assert s[..|w|] == w && s[|w|..] == rest;
  }

  lemma LexSpace(rest: string)
    ensures Lex(" " + rest) == Lex(rest)
  {
    assert (" " + rest)[1..] == rest;
  }

  /** A symbol of one character that does not begin a longer one. */
  lemma LexSingle(c: char, rest: string)
    requires c in {'(', ')', '+', '-', '~'}
    ensures Lex([c] + rest) == [Sym([c])] + Lex(rest)
  {
    var s := [c] + rest;
    assert s[1..] == rest && s[..1] == [c];
    if |s| >= 2 {
      assert s[..2][0] == c;
    }
  }

  /** A symbol with a space behind it. */
  lemma LexSymbol(op: string, rest: string)
    requires op in {"|", "^", "&", "+", "-", "*", "@", "/", "%", "<", ">"} || DoubleSymbol(op)
    ensures Lex(op + " " + rest) == [Sym(op)] + Lex(rest)
  {
    var s := op + " " + rest;
    assert s[|op|..] == " " + rest && s[..|op|] == op;
    LexSpace(rest);
    if |op| == 1 {
      LexOneCharacter(op, s);
    } else {
      LexTwoCharacters(op, s);
    }
  }

  lemma LexOneCharacter(op: string, s: string)
    requires |op| == 1 && !IsLetter(op[0]) && !IsDigit(op[0]) && op[0] != ' '
    requires |s| > 1 && s[..1] == op && s[1] == ' '
    ensures Lex(s) == [Sym(op)] + Lex(s[1..])
  {
    assert s[0] == op[0];
    assert s[..2][1] == ' ';
  }

  lemma LexTwoCharacters(op: string, s: string)
    requires DoubleSymbol(op) && |s| > 1 && s[..2] == op
    ensures Lex(s) == [Sym(op)] + Lex(s[2..])
  {
    assert s[0] == op[0];
  }

  lemma Grouped(a: string, b: string, c: string)
    ensures a + b + c == a + (b + c)
  {
  }

  lemma LexTwoWords(a: string, b: string, rest: string)
    requires a in {"not", "is"} && b in {"in", "not"}
    ensures Lex(a + " " + b + " " + rest) == [Sym(a), Sym(b)] + Lex(rest)
  {
    LexOneWord(b, rest);
    LexOneWord(a, b + " " + rest);
    RegroupedWords(a, b, rest);
    TokenPair(Sym(a), Sym(b), Lex(rest));
  }

  lemma TokenPair(a: Token, b: Token, ts: seq<Token>)
    ensures [a] + ([b] + ts) == [a, b] + ts
  {
  }

  lemma RegroupedWords(a: string, b: string, rest: string)
    ensures a + " " + b + " " + rest == a + " " + (b + " " + rest)
  {
  }

  lemma LexOneWord(a: string, rest: string)
    requires a in {"or", "and", "in", "is", "not"}
    ensures Lex(a + " " + rest) == [Sym(a)] + Lex(rest)
  {
    LexSpace(rest);
    LexWord(a, " " + rest);
    Grouped(a, " ", rest);
  }

  lemma LexOperator(op: string, rest: string)
    requires ProductionOf(op) != 0
    ensures Lex(Spaced(op) + " " + rest) == OperatorTokens(op) + Lex(rest)
  {
    if op == "not_in" {
      LexTwoWords("not", "in", rest);
      assert "not in" == "not" + " " + "in";
    } else if op == "is_not" {
      LexTwoWords("is", "not", rest);
      assert "is not" == "is" + " " + "not";
    } else if op in {"or", "and", "in", "is"} {
      LexOneWord(op, rest);
    } else {
      LexSymbol(op, rest);
    }
  }

  /** What stands behind the first operand. */
  function Tail(op: string, y: string, rest: string): string {
    " " + (Spaced(op) + " " + (y + rest))
  }

  lemma RegroupedTail(x: string, op: string, y: string, rest: string)
    ensures x + " " + Spaced(op) + " " + y + rest == x + Tail(op, y, rest)
  {
  }

  lemma LexInfix(x: string, xs: seq<Token>, op: string, y: string, ys: seq<Token>, rest: string)
    requires ProductionOf(op) != 0
    requires Lex(x + Tail(op, y, rest)) == xs + Lex(Tail(op, y, rest)) && Lex(y + rest) == ys + Lex(rest)
    ensures Lex(x + " " + Spaced(op) + " " + y + rest) == xs + OperatorTokens(op) + ys + Lex(rest)
  {
    RegroupedTail(x, op, y, rest);
    LexSpace(Spaced(op) + " " + (y + rest));
    LexOperator(op, y + rest);
    RegroupedTokens(xs, OperatorTokens(op), ys, Lex(rest));
  }

  lemma LexParens(s: string, ts: seq<Token>, rest: string)
    requires Lex(s + (")" + rest)) == ts + Lex(")" + rest)
    ensures Lex("(" + s + ")" + rest) == [Sym("(")] + ts + [Sym(")")] + Lex(rest)
  {
    assert "(" + s + ")" + rest == ['('] + (s + (")" + rest));
    LexSingle('(', s + (")" + rest));
    assert ")" + rest == [')'] + rest;
    LexSingle(')', rest);
  }

  lemma NotGrouped(s: string, rest: string)
    ensures "not " + s + rest == "not" + " " + (s + rest)
  {
  }

  lemma LexNot(s: string, ts: seq<Token>, rest: string)
    requires Lex(s + rest) == ts + Lex(rest)
    ensures Lex("not " + s + rest) == [Sym("not")] + ts + Lex(rest)
  {
    LexOneWord("not", s + rest);
    NotGrouped(s, rest);
  }

  lemma LexUnary(op: string, s: string, ts: seq<Token>, rest: string)
    requires UnaryOperator(op) && Lex(s + rest) == ts + Lex(rest)
    ensures Lex(op + s + rest) == [Sym(op)] + ts + Lex(rest)
  {
    SignFirst(op, s, rest);
    LexSingle(op[0], s + rest);
  }

  lemma SignFirst(op: string, s: string, rest: string)
    requires |op| == 1
    ensures op + s + rest == [op[0]] + (s + rest) && op == [op[0]]
  {
  }

  /** Scanning what was written gives the tokens that were meant. */
  lemma {:induction false} LexBare(e: Expr, rest: string)
    requires Printable(e) && Separates(rest)
    ensures Lex(Bare(e) + rest) == BareTokens(e) + Lex(rest)
    decreases e, 0
  {
    if IsOperation(e) {
      PrecedenceIsLevel(e);
    }
    var p := LevelOf(e);
    match e {
      case NameNode(name) =>
        LexWord(name, rest);
      case IntNode(value) =>
        LexNumber(value, rest);
      case NotNode(x) =>
        LexText(x, p, rest);
        LexNot(Text(x, p), Tokens(x, p), rest);
      case UnopNode(op, x) =>
        LexText(x, p, rest);
        LexUnary(op, Text(x, p), Tokens(x, p), rest);
      case BinopNode(op, x, y) =>
        LexText(x, p, Tail(op, Text(y, p), rest));
        LexText(y, p, rest);
        LexInfix(Text(x, p), Tokens(x, p), op, Text(y, p), Tokens(y, p), rest);
      case PrimaryCmpNode(x, links) =>
        var op, y := links.operator, links.operand;
        LexText(x, p, Tail(op, Text(y, p), rest));
        LexText(y, p, rest);
        LexInfix(Text(x, p), Tokens(x, p), op, Text(y, p), Tokens(y, p), rest);
    }
  }

  lemma {:induction false} LexText(e: Expr, outer: nat, rest: string)
    requires Printable(e) && Separates(rest) && outer < ATOM
    ensures Lex(Text(e, outer) + rest) == Tokens(e, outer) + Lex(rest)
    decreases e, 1
  {
    if IsOperation(e) {
      PrecedenceIsLevel(e);
    }
    if outer > LevelOf(e) {
      LexBare(e, ")" + rest);
      LexParens(Bare(e), BareTokens(e), rest);
    } else {
      LexBare(e, rest);
    }
  }

  // -------------------------------------------------------------- parsing the tokens

  /** No operator of the level or of a higher one goes on here. */
  predicate Stops(rest: seq<Token>, level: nat) {
    rest == [] || (rest[0].Sym? && SymLevel(rest[0].sym) < level)
  }

  function SymLevel(sym: string): nat {
    if sym == "not" || sym == "<>" then COMPARISON else ProductionOf(sym)
  }

  lemma StopsLinks(rest: seq<Token>, level: nat)
    requires Stops(rest, level) && 1 <= level < POWER
    ensures ParseLinks(level, rest) == Some(Chained(NoLinks, rest))
  {
  }

  predicate StartsUnary(ts: seq<Token>) {
    ts != [] && ts[0].Sym? && UnaryOperator(ts[0].sym)
  }

  predicate StartsNot(ts: seq<Token>) {
    ts != [] && ts[0] == Sym("not")
  }

  /** What is parsed at a level is also parsed at a lower one, if nothing there goes on. */
  lemma {:induction false} Descend(low: nat, level: nat, ts: seq<Token>, p: Parsed)
    requires 1 <= low <= level <= ATOM && ParseAt(level, ts) == Some(p) && Stops(p.rest, low)
    requires low <= NOT_TEST < level ==> !StartsNot(ts)
    requires low <= FACTOR < level ==> !StartsUnary(ts)
    ensures ParseAt(low, ts) == Some(p)
    decreases level - low
  {
    if low < level {
      Descend(low + 1, level, ts, p);
      if low != NOT_TEST && low != FACTOR && low != POWER {
        StopsLinks(p.rest, low);
      }
    }
  }

  lemma {:induction false} FirstToken(e: Expr, outer: nat)
    requires Printable(e)
    ensures Tokens(e, outer) != []
    ensures StartsNot(Tokens(e, outer)) ==> LevelOf(e) <= NOT_TEST && outer <= NOT_TEST
    ensures StartsUnary(Tokens(e, outer)) ==> LevelOf(e) <= FACTOR && outer <= FACTOR
    decreases e
  {
    if outer <= LevelOf(e) {
      match e {
        case BinopNode(_, x, _) => FirstToken(x, LevelOf(e));
        case PrimaryCmpNode(x, _) => FirstToken(x, COMPARISON);
        case _ =>
      }
    }
  }

  /** The beginning of a chain of operations, and the links that follow. */
  predicate ChainParsed(level: nat, ts: seq<Token>, e: Expr, links: Links, rest: seq<Token>)
    requires 1 <= level < POWER
  {
    && ParseAt(level + 1, ts).Some? && ParseAt(level + 1, ts).value.expr == Head(e, level)
    && ParseLinks(level, ParseAt(level + 1, ts).value.rest) == Some(Chained(Append(LinksOf(e, level), links), rest))
  }

  predicate ChainLevel(level: nat) {
    1 <= level <= 10 && level != NOT_TEST
  }

  lemma OperatorRead(op: string, level: nat, ts: seq<Token>)
    requires ProductionOf(op) == level && ChainLevel(level) && (level == COMPARISON ==> !StartsNot(ts))
    ensures ReadOperator(level, OperatorTokens(op) + ts) == Operator(op, ts)
  {
    var all := OperatorTokens(op) + ts;
    if |OperatorTokens(op)| == 2 {
      assert all[2..] == ts;
    } else {
      assert all[1..] == ts;
      assert op == "is" && |all| > 1 ==> all[1] == ts[0];
    }
  }

  lemma OperatorStops(op: string, level: nat, ts: seq<Token>)
    requires ProductionOf(op) == level && level != 0
    ensures Stops(OperatorTokens(op) + ts, level + 1)
  {
  }

  /** Reading on in a chain behind its operator. */
  lemma LinkParsed(op: string, level: nat, ts: seq<Token>, y: Expr, links: Links, rest: seq<Token>)
    requires ProductionOf(op) == level && ChainLevel(level) && (level == COMPARISON ==> !StartsNot(ts))
    requires ChainParsed(level, ts, y, links, rest)
    ensures ParseLinks(level, OperatorTokens(op) + ts) ==
      Some(Chained(Link(op, Head(y, level), Append(LinksOf(y, level), links)), rest))
  {
    OperatorRead(op, level, ts);
  }

  /** The parts of a binary operation. */
  function FirstOf(e: Expr): Expr
    requires e.BinopNode? || e.PrimaryCmpNode?
  {
    e.operand1
  }

  function OperatorOf(e: Expr): string
    requires Printable(e) && (e.BinopNode? || e.PrimaryCmpNode?)
  {
    if e.BinopNode? then e.operator else e.links.operator
  }

  function SecondOf(e: Expr): Expr
    requires Printable(e) && (e.BinopNode? || e.PrimaryCmpNode?)
  {
    if e.BinopNode? then e.operand2 else e.links.operand
  }

  lemma ChainOfReassociated(e: Expr, level: nat)
    requires Printable(e) && IsAt(e, level)
    ensures var x, op, y, r := Reassociated(FirstOf(e)), OperatorOf(e), Reassociated(SecondOf(e)), Reassociated(e);
      && Head(r, level) == Head(x, level)
      && LinksOf(r, level) == Append(LinksOf(x, level), Link(op, Head(y, level), LinksOf(y, level)))
      && Combine(level, Head(r, level), LinksOf(r, level)) == r
  {
    var x, y := Reassociated(FirstOf(e)), Reassociated(SecondOf(e));
    ReassociatedIsWell(FirstOf(e));
    ReassociatedIsWell(SecondOf(e));
    if e.BinopNode? {
      RechainedIsWell(BinopNode(e.operator, x, y), level);
    } else {
      assert ReassociatedLinks(e.links.more) == NoLinks;
      RechainedIsWell(PrimaryCmpNode(x, Link(e.links.operator, y, NoLinks)), level);
      AppendNothing(LinksOf(y, level));
      assert FlatLinks(NoLinks, level) == NoLinks;
    }
  }

  lemma RegroupedTokens(a: seq<Token>, b: seq<Token>, c: seq<Token>, rest: seq<Token>)
    ensures a + b + c + rest == a + (b + (c + rest))
  {
  }

  lemma OperationTokens(e: Expr, rest: seq<Token>)
    requires Printable(e) && (e.BinopNode? || e.PrimaryCmpNode?)
    ensures var level := LevelOf(e);
      Tokens(e, level) + rest ==
        Tokens(FirstOf(e), level) + (OperatorTokens(OperatorOf(e)) + (Tokens(SecondOf(e), level) + rest))
  {
    RegroupedTokens(Tokens(FirstOf(e), LevelOf(e)), OperatorTokens(OperatorOf(e)), Tokens(SecondOf(e), LevelOf(e)),
                    rest);
  }

  /** The chain of an operation goes on from its first operand to its second. */
  lemma ChainThrough(level: nat, ts: seq<Token>, x: Expr, op: string, y: Expr, r: Expr, links: Links, end: seq<Token>)
    requires 1 <= level < POWER
    requires ChainParsed(level, ts, x, Link(op, Head(y, level), Append(LinksOf(y, level), links)), end)
    requires Head(r, level) == Head(x, level)
    requires LinksOf(r, level) == Append(LinksOf(x, level), Link(op, Head(y, level), LinksOf(y, level)))
    ensures ChainParsed(level, ts, r, links, end)
  {
    AppendAssociative(LinksOf(x, level), Link(op, Head(y, level), LinksOf(y, level)), links);
  }

  lemma ChainOfOne(level: nat, ts: seq<Token>, r: Expr, links: Links, rest: seq<Token>, end: seq<Token>)
    requires 1 <= level < POWER && !IsAt(r, level)
    requires ParseAt(level + 1, ts) == Some(Parsed(r, rest)) && ParseLinks(level, rest) == Some(Chained(links, end))
    ensures ChainParsed(level, ts, r, links, end)
  {
  }

  lemma {:induction false} ChainPrinted(e: Expr, level: nat, rest: seq<Token>, links: Links, end: seq<Token>)
    requires Printable(e) && ChainLevel(level) && Stops(rest, level + 1)
    requires ParseLinks(level, rest) == Some(Chained(links, end))
    ensures ChainParsed(level, Tokens(e, level) + rest, Reassociated(e), links, end)
    decreases e, if IsAt(e, level) then 0 else 6
  {
    if IsAt(e, level) {
      OperationPrinted(e, level, rest, links, end);
    } else {
      ReassociatedIsWell(e);
      PrintedParsed(e, level, level + 1, rest);
      ChainOfOne(level, Tokens(e, level) + rest, Reassociated(e), links, rest, end);
    }
  }

  lemma {:induction false} OperationPrinted(e: Expr, level: nat, rest: seq<Token>, links: Links, end: seq<Token>)
    requires Printable(e) && ChainLevel(level) && Stops(rest, level + 1) && IsAt(e, level)
    requires ParseLinks(level, rest) == Some(Chained(links, end))
    ensures ChainParsed(level, Tokens(e, level) + rest, Reassociated(e), links, end)
    decreases e, 0, 0
  {
    var x, op, y := FirstOf(e), OperatorOf(e), SecondOf(e);
    var ry, behind := Reassociated(y), Tokens(y, level) + rest;
    ChainPrinted(y, level, rest, links, end);
    FirstToken(y, level);
    LinkParsed(op, level, behind, ry, links, end);
    OperatorStops(op, level, behind);
    ChainPrinted(x, level, OperatorTokens(op) + behind, Link(op, Head(ry, level), Append(LinksOf(ry, level), links)),
                 end);
    OperationTokens(e, rest);
    ChainOfReassociated(e, level);
    ChainThrough(level, Tokens(e, level) + rest, Reassociated(x), op, ry, Reassociated(e), links, end);
  }

  /** What stands behind the operand of a power: another `**` with its operand, or not. */
  predicate PowerTail(rest: seq<Token>, tail: Links, end: seq<Token>) {
    if rest != [] && rest[0] == Sym("**") then
      var operand := ParseAt(FACTOR, rest[1..]);
      operand.Some? && tail == Link("**", operand.value.expr, NoLinks) && end == operand.value.rest
    else tail == NoLinks && end == rest
  }

  lemma {:induction false} RightNestedSplice(h: Expr, a: Links, op: string, g: Expr, b: Links, tail: Links)
    ensures RightNested(h, Append(a, Link(op, RightNested(g, Append(b, tail)), NoLinks))) ==
      RightNested(h, Append(Append(a, Link(op, g, b)), tail))
    decreases a
  {
    if a.Link? {
      RightNestedSplice(a.operand, a.more, op, g, b, tail);
    }
  }

  /** A power parsed from an atom and what stands behind it. */
  predicate PowerParsed(ts: seq<Token>, r: Expr, tail: Links, end: seq<Token>) {
    ParseAt(POWER, ts) == Some(Parsed(RightNested(Head(r, POWER), Append(LinksOf(r, POWER), tail)), end))
  }

  lemma PowerThrough(ts: seq<Token>, x: Expr, y: Expr, z: Expr, r: Expr, tail: Links, end: seq<Token>)
    requires PowerParsed(ts, x, Link("**", z, NoLinks), end)
    requires z == RightNested(Head(y, POWER), Append(LinksOf(y, POWER), tail))
    requires Head(r, POWER) == Head(x, POWER)
    requires LinksOf(r, POWER) == Append(LinksOf(x, POWER), Link("**", Head(y, POWER), LinksOf(y, POWER)))
    ensures PowerParsed(ts, r, tail, end)
  {
    RightNestedSplice(Head(x, POWER), LinksOf(x, POWER), "**", Head(y, POWER), LinksOf(y, POWER), tail);
  }

  lemma PowerOfOne(ts: seq<Token>, r: Expr, rest: seq<Token>, tail: Links, end: seq<Token>)
    requires ParseAt(ATOM, ts) == Some(Parsed(r, rest)) && PowerTail(rest, tail, end) && !IsAt(r, POWER)
    ensures PowerParsed(ts, r, tail, end)
  {
  }

  /** An operand of a power that does not start with a sign. */
  lemma PowerOperand(ts: seq<Token>, y: Expr, tail: Links, end: seq<Token>)
    requires PowerParsed(ts, y, tail, end) && !StartsUnary(ts)
    ensures PowerTail([Sym("**")] + ts,
                      Link("**", RightNested(Head(y, POWER), Append(LinksOf(y, POWER), tail)), NoLinks), end)
  {
    assert ([Sym("**")] + ts)[1..] == ts;
  }

  lemma {:induction false} PowerPrinted(e: Expr, rest: seq<Token>, tail: Links, end: seq<Token>)
    requires Printable(e) && Stops(rest, ATOM) && PowerTail(rest, tail, end)
    ensures PowerParsed(Tokens(e, POWER) + rest, Reassociated(e), tail, end)
    decreases e, if IsAt(e, POWER) then 0 else 6
  {
    if IsAt(e, POWER) {
      PowerOperation(e, rest, tail, end);
    } else {
      ReassociatedIsWell(e);
      PrintedParsed(e, POWER, ATOM, rest);
      PowerOfOne(Tokens(e, POWER) + rest, Reassociated(e), rest, tail, end);
    }
  }

  lemma PowerTokens(e: Expr, rest: seq<Token>)
    requires Printable(e) && IsAt(e, POWER)
    ensures Tokens(e, POWER) + rest == Tokens(FirstOf(e), POWER) + ([Sym("**")] + (Tokens(SecondOf(e), POWER) + rest))
    ensures OperatorOf(e) == "**"
  {
    OperationTokens(e, rest);
  }

  lemma {:induction false} PowerOperation(e: Expr, rest: seq<Token>, tail: Links, end: seq<Token>)
    requires Printable(e) && Stops(rest, ATOM) && PowerTail(rest, tail, end) && IsAt(e, POWER)
    ensures PowerParsed(Tokens(e, POWER) + rest, Reassociated(e), tail, end)
    decreases e, 0, 0
  {
    var x, y := FirstOf(e), SecondOf(e);
    var rx, ry, behind := Reassociated(x), Reassociated(y), Tokens(y, POWER) + rest;
    var z := RightNested(Head(ry, POWER), Append(LinksOf(ry, POWER), tail));
    PowerPrinted(y, rest, tail, end);
    FirstToken(y, POWER);
    PowerOperand(behind, ry, tail, end);
    PowerPrinted(x, [Sym("**")] + behind, Link("**", z, NoLinks), end);
    PowerTokens(e, rest);
    ChainOfReassociated(e, POWER);
    PowerThrough(Tokens(e, POWER) + rest, rx, ry, z, Reassociated(e), tail, end);
  }

  /** Parsing what was printed gives the tree that it stands for, and stops behind it. */
  lemma {:induction false} PrintedParsed(e: Expr, outer: nat, level: nat, rest: seq<Token>)
    requires Printable(e) && 1 <= level <= ATOM && Stops(rest, level) && (outer > LevelOf(e) || level <= LevelOf(e))
    requires level == ATOM ==> outer > LevelOf(e) || LevelOf(e) == ATOM
    ensures ParseAt(level, Tokens(e, outer) + rest) == Some(Parsed(Reassociated(e), rest))
    decreases e, if outer > LevelOf(e) then 4 else 3
  {
    if outer > LevelOf(e) {
      BareParsed(e, OR_TEST, [Sym(")")] + rest);
      ParensParsed(BareTokens(e), Reassociated(e), rest);
      Descend(level, ATOM, Tokens(e, outer) + rest, Parsed(Reassociated(e), rest));
    } else {
      BareParsed(e, level, rest);
    }
  }

  lemma ParensParsed(ts: seq<Token>, r: Expr, rest: seq<Token>)
    requires ParseAt(OR_TEST, ts + ([Sym(")")] + rest)) == Some(Parsed(r, [Sym(")")] + rest))
    ensures ParseAt(ATOM, [Sym("(")] + ts + [Sym(")")] + rest) == Some(Parsed(r, rest))
  {
    var all, inner := [Sym("(")] + ts + [Sym(")")] + rest, [Sym(")")] + rest;
    assert all[1..] == ts + inner && inner[1..] == rest;
  }

  lemma NotParsed(ts: seq<Token>, p: Parsed)
    requires ParseAt(NOT_TEST, ts) == Some(p)
    ensures ParseAt(NOT_TEST, [Sym("not")] + ts) == Some(Parsed(NotNode(p.expr), p.rest))
  {
    assert ([Sym("not")] + ts)[1..] == ts;
  }

  lemma UnaryParsed(op: string, ts: seq<Token>, p: Parsed)
    requires UnaryOperator(op) && ParseAt(FACTOR, ts) == Some(p)
    ensures ParseAt(FACTOR, [Sym(op)] + ts) == Some(Parsed(UnopOf(op, p.expr), p.rest))
  {
    assert ([Sym(op)] + ts)[1..] == ts;
  }

  lemma {:induction false} BareParsed(e: Expr, level: nat, rest: seq<Token>)
    requires Printable(e) && 1 <= level <= LevelOf(e) && Stops(rest, level)
    ensures ParseAt(level, BareTokens(e) + rest) == Some(Parsed(Reassociated(e), rest))
    decreases e, 2, 1
  {
    NodeParsed(e, rest);
    FirstToken(e, LevelOf(e));
    Descend(level, LevelOf(e), BareTokens(e) + rest, Parsed(Reassociated(e), rest));
  }

  lemma {:induction false} NodeParsed(e: Expr, rest: seq<Token>)
    requires Printable(e) && Stops(rest, LevelOf(e))
    ensures ParseAt(LevelOf(e), BareTokens(e) + rest) == Some(Parsed(Reassociated(e), rest))
    decreases e, 2, 0
  {
    match e {
      case NotNode(x) =>
        PrintedParsed(x, NOT_TEST, NOT_TEST, rest);
        NotParsed(Tokens(x, NOT_TEST) + rest, Parsed(Reassociated(x), rest));
        TokensBehind(Sym("not"), Tokens(x, NOT_TEST), rest);
      case UnopNode(op, x) =>
        PrintedParsed(x, FACTOR, FACTOR, rest);
        UnaryParsed(op, Tokens(x, FACTOR) + rest, Parsed(Reassociated(x), rest));
        TokensBehind(Sym(op), Tokens(x, FACTOR), rest);
      case NameNode(_) =>
        AtomParsed(e, BareTokens(e)[0], rest);
      case IntNode(_) =>
        AtomParsed(e, BareTokens(e)[0], rest);
      case _ =>
        OperationParsed(e, rest);
    }
  }

  lemma TokensBehind(t: Token, ts: seq<Token>, rest: seq<Token>)
    ensures [t] + ts + rest == [t] + (ts + rest)
  {
  }

  lemma AtomParsed(e: Expr, t: Token, rest: seq<Token>)
    requires (e.NameNode? && t == Ident(e.name)) || (e.IntNode? && e.value >= 0 && t == Number(e.value))
    ensures ParseAt(ATOM, [t] + rest) == Some(Parsed(e, rest))
  {
    assert ([t] + rest)[1..] == rest;
  }

  lemma {:induction false} OperationParsed(e: Expr, rest: seq<Token>)
    requires Printable(e) && (e.BinopNode? || e.PrimaryCmpNode?) && Stops(rest, LevelOf(e))
    ensures ParseAt(LevelOf(e), BareTokens(e) + rest) == Some(Parsed(Reassociated(e), rest))
    decreases e, 1
  {
    var level, r := LevelOf(e), Reassociated(e);
    ChainOfReassociated(e, level);
    if level == POWER {
      PowerPrinted(e, rest, NoLinks, rest);
      AppendNothing(LinksOf(r, POWER));
    } else {
      StopsLinks(rest, level);
      ChainPrinted(e, level, rest, NoLinks, rest);
      AppendNothing(LinksOf(r, level));
    }
  }

  // ------------------------------------------------------- no parenthesis too many

  /** Neither `not` nor a sign begins what binds tighter. */
  lemma {:induction false} NothingStarts(level: nat, ts: seq<Token>)
    requires NOT_TEST < level <= ATOM && (StartsNot(ts) || (FACTOR < level && StartsUnary(ts)))
    ensures ParseAt(level, ts).None?
    decreases ATOM - level
  {
    if level < ATOM {
      NothingStarts(level + 1, ts);
    }
  }

  /** An operation is not taken whole where something that binds tighter is expected. */
  lemma {:induction false} NotTakenWhole(e: Expr, outer: nat, level: nat, rest: seq<Token>)
    requires Printable(e) && outer <= LevelOf(e) < level <= ATOM
    ensures var r := ParseAt(level, Tokens(e, outer) + rest); r.Some? ==> |r.value.rest| > |rest|
    decreases e
  {
    if e.NotNode? || e.UnopNode? {
      var t := Sym(if e.NotNode? then "not" else e.operator);
      assert Tokens(e, outer) == BareTokens(e) == [t] + Tokens(e.operand, LevelOf(e));
      assert (Tokens(e, outer) + rest)[0] == t;
      NothingStarts(level, Tokens(e, outer) + rest);
    } else {
      var l, x := LevelOf(e), FirstOf(e);
      var behind := OperatorTokens(OperatorOf(e)) + (Tokens(SecondOf(e), l) + rest);
      OperationTokens(e, rest);
      OperatorStops(OperatorOf(e), l, Tokens(SecondOf(e), l) + rest);
      if l <= LevelOf(x) < level {
        NotTakenWhole(x, l, level, behind);
      } else {
        PrintedParsed(x, l, level, behind);
      }
    }
  }

  /** Parentheses are written only where the operand would not be read as one without. */
  lemma ParenthesesNeeded(e: Expr, outer: nat, rest: seq<Token>)
    requires Printable(e) && outer < ATOM && IsOperation(e) && Text(e, outer) != Bare(e)
    ensures var r := ParseAt(outer, BareTokens(e) + rest); r.Some? ==> |r.value.rest| > |rest|
  {
    PrecedenceIsLevel(e);
    NotTakenWhole(e, LevelOf(e), outer, rest);
  }

  // --------------------------------------------------------------------- the writer

  class ExpressionWriter {
    var result: string
    var precedence: seq<nat>

    constructor ()
      ensures result == "" && precedence == [0]
    {
      result, precedence := "", [0];
    }

    method Put(s: string)
      modifies this`result
      ensures result == old(result) + s
    {
      result := result + s;
    }

    /** Opens a parenthesis if the operation around binds stronger. */
    method OperatorEnter(newPrec: nat)
      requires precedence != []
      modifies this
      ensures precedence == old(precedence) + [newPrec]
      ensures result == old(result) + Opening(old(precedence)[|old(precedence)| - 1] > newPrec)
    {
      var oldPrec := precedence[|precedence| - 1];
      if oldPrec > newPrec {
        Put("(");
      }
      precedence := precedence + [newPrec];
    }

    method OperatorExit()
      requires |precedence| >= 2
      modifies this
      ensures precedence == old(precedence)[..|old(precedence)| - 1]
      ensures result ==
        old(result) + Closing(old(precedence)[|old(precedence)| - 2] > old(precedence)[|old(precedence)| - 1])
    {
      var oldPrec, newPrec := precedence[|precedence| - 2], precedence[|precedence| - 1];
      if oldPrec > newPrec {
        Put(")");
      }
      precedence := precedence[..|precedence| - 1];
    }

    function Outer(): nat
      requires precedence != []
      reads this
    {
      precedence[|precedence| - 1]
    }

    method VisitNotNode(e: Expr)
      requires Printable(e) && e.NotNode? && precedence != []
      modifies this
      ensures precedence == old(precedence) && result == old(result) + Text(e, Outer())
      decreases e, 0
    {
      ghost var was, open := result, Outer() > UnopPrecedence("not");
      OperatorEnter(UnopPrecedence("not"));
      Put("not ");
      Visit(e.operand);
      OperatorExit();
      Enclosed(was, open, "not ", Text(e.operand, UnopPrecedence("not")));
    }

    method VisitUnopNode(e: Expr)
      requires Printable(e) && e.UnopNode? && precedence != []
      modifies this
      ensures precedence == old(precedence) && result == old(result) + Text(e, Outer())
      decreases e, 0
    {
      ghost var was, open := result, Outer() > UnopPrecedence(e.operator);
      OperatorEnter(UnopPrecedence(e.operator));
      Put(e.operator);
      Visit(e.operand);
      OperatorExit();
      Enclosed(was, open, e.operator, Text(e.operand, UnopPrecedence(e.operator)));
      assert Bare(e) == e.operator + Text(e.operand, UnopPrecedence(e.operator));
    }

    /** Arithmetic, boolean and comparison operations alike. */
    method VisitBinopNode(e: Expr)
      requires Printable(e) && (e.BinopNode? || e.PrimaryCmpNode?) && precedence != []
      modifies this
      ensures precedence == old(precedence) && result == old(result) + Text(e, Outer())
      decreases e, 0, 1
    {
      ghost var was, open := result, Outer() > Precedence(e);
      OperatorEnter(BinopPrecedence(OperatorOf(e)));
      VisitOperands(e);
      OperatorExit();
      EnclosedBare(was, open, Bare(e));
    }

    method VisitOperands(e: Expr)
      requires Printable(e) && (e.BinopNode? || e.PrimaryCmpNode?) && precedence != [] && Outer() == Precedence(e)
      modifies this
      ensures precedence == old(precedence) && result == old(result) + Bare(e)
      decreases e, 0, 0
    {
      ghost var was := result;
      Visit(FirstOf(e));
      Put(" " + Spaced(OperatorOf(e)) + " ");
      Visit(SecondOf(e));
      Concluded(was, e);
    }

    method Visit(e: Expr)
      requires Printable(e) && precedence != []
      modifies this
      ensures precedence == old(precedence) && result == old(result) + Text(e, Outer())
      decreases e, 1
    {
      match e {
        case NameNode(name) => Put(name);
        case IntNode(value) => Put(Digits(value));
        case NotNode(_) => VisitNotNode(e);
        case UnopNode(_, _) => VisitUnopNode(e);
        case _ => VisitBinopNode(e);
      }
    }

    method Write(tree: Expr) returns (text: string)
      requires Printable(tree) && precedence != []
      modifies this
      ensures precedence == old(precedence) && text == result == old(result) + Text(tree, Outer())
    {
      Visit(tree);
      text := result;
    }
  }

  function Opening(open: bool): string {
    if open then "(" else ""
  }

  function Closing(open: bool): string {
    if open then ")" else ""
  }

  /** What was put between the parentheses, if there are any. */
  lemma Enclosed(was: string, open: bool, a: string, b: string)
    ensures was + Opening(open) + a + b + Closing(open) == was + Wrapped(open, a + b)
  {
    if open {
      assert was + "(" + a + b + ")" == was + ("(" + (a + b) + ")");
    } else {
      assert was + "" + a + b + "" == was + (a + b);
    }
  }

  lemma EnclosedBare(was: string, open: bool, bare: string)
    ensures was + Opening(open) + bare + Closing(open) == was + Wrapped(open, bare)
  {
  }

  lemma Concluded(was: string, e: Expr)
    requires Printable(e) && (e.BinopNode? || e.PrimaryCmpNode?)
    ensures var p := Precedence(e);
      was + Text(FirstOf(e), p) + (" " + Spaced(OperatorOf(e)) + " ") + Text(SecondOf(e), p) == was + Bare(e)
  {
    Infix(was, Text(FirstOf(e), Precedence(e)), Spaced(OperatorOf(e)), Text(SecondOf(e), Precedence(e)));
  }

  lemma Infix(was: string, x: string, op: string, y: string)
    ensures was + x + (" " + op + " ") + y == was + (x + " " + op + " " + y)
  {
  }

  /** Writing and parsing again: the text of an expression stands for its re-associated
      tree, so exactly the well associated trees come back unchanged. */
  lemma WrittenParses(e: Expr)
    requires Printable(e)
    ensures Parse(Text(e, 0)) == Some(Reassociated(e))
    ensures Parse(Text(e, 0)) == Some(e) <==> WellAssociated(e)
  {
    LexText(e, 0, "");
    assert Text(e, 0) + "" == Text(e, 0) && Lex("") == [] && Tokens(e, 0) + [] == Tokens(e, 0);
    if LevelOf(e) >= 1 {
      PrintedParsed(e, 0, OR_TEST, []);
    }
    StandsForItself(e);
  }

  /** A difference on the right-hand side of a difference is written without parentheses, and
      comes back as the difference of a difference. */
  lemma RightNestedDifference()
    ensures var a, b, c := NameNode("a"), NameNode("b"), NameNode("c");
      var e := BinopNode("-", a, BinopNode("-", b, c));
      Printable(e) && !WellAssociated(e) && Parse(Text(e, 0)) == Some(BinopNode("-", BinopNode("-", a, b), c))
  {
    var a, b, c := NameNode("a"), NameNode("b"), NameNode("c");
    DifferenceRegrouped(a, b, c);
    WrittenParses(BinopNode("-", a, BinopNode("-", b, c)));
  }

  lemma DifferenceRegrouped(a: Expr, b: Expr, c: Expr)
    requires a == NameNode("a") && b == NameNode("b") && c == NameNode("c")
    ensures var e := BinopNode("-", a, BinopNode("-", b, c));
      Printable(e) && Reassociated(e) == BinopNode("-", BinopNode("-", a, b), c)
  {
    var inner := BinopNode("-", b, c);
    var e := BinopNode("-", a, inner);
    assert Reassociated(inner) == inner;
    assert Head(e, ARITH_EXPR) == a && LinksOf(inner, ARITH_EXPR) == Link("-", c, NoLinks);
    assert LinksOf(e, ARITH_EXPR) == Link("-", b, Link("-", c, NoLinks));
    assert Reassociated(e) == Rechained(e, ARITH_EXPR);
  }

  method WriteExpression(e: Expr) returns (text: string)
    requires Printable(e)
    ensures Parse(text) == Some(Reassociated(e)) && (Parse(text) == Some(e) <==> WellAssociated(e))
  {
    var writer := new ExpressionWriter();
    text := writer.Write(e);
    assert "" + Text(e, 0) == Text(e, 0);
    WrittenParses(e);
  }
}

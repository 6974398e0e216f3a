/** Expression trees, the productions of the grammar that make them, and the trees that
    their text stands for. */
module Expressions {

  datatype Expr =
    | NameNode(name: string)
    | IntNode(value: int)
    | NotNode(operand: Expr)
    | UnopNode(operator: string, operand: Expr)
    | BinopNode(operator: string, operand1: Expr, operand2: Expr)
    | PrimaryCmpNode(operand1: Expr, links: Links)

  /** Operators with the operands behind them; a comparison may be a cascade of them. */
  datatype Links = NoLinks | Link(operator: string, operand: Expr, more: Links)

  // The productions of the grammar.  Each has the next one for its operands.
  const OR_TEST := 1
  const AND_TEST := 2
  const NOT_TEST := 3
  const COMPARISON := 4
  const BIT_EXPR := 5
  const XOR_EXPR := 6
  const AND_EXPR := 7
  const SHIFT_EXPR := 8
  const ARITH_EXPR := 9
  const TERM := 10
  const FACTOR := 11
  const POWER := 12
  const ATOM := 13

  /** The production that a binary operator belongs to, 0 for an unknown operator. */
  function ProductionOf(op: string): nat {
    if op == "or" then OR_TEST
    else if op == "and" then AND_TEST
    else if op in {"<", ">", "==", ">=", "<=", "!=", "in", "not_in", "is", "is_not"} then COMPARISON
    else if op == "|" then BIT_EXPR
    else if op == "^" then XOR_EXPR
    else if op == "&" then AND_EXPR
    else if op in {"<<", ">>"} then SHIFT_EXPR
    else if op in {"+", "-"} then ARITH_EXPR
    else if op in {"*", "@", "/", "%", "//"} then TERM
    else if op == "**" then POWER
    else 0
  }

  predicate UnaryOperator(op: string) {
    op in {"+", "-", "~"}
  }

  /** The productions that go on with themselves behind their operator. */
  predicate RightAssociative(level: nat) {
    level == OR_TEST || level == AND_TEST || level == POWER
  }

  /** The node is made by the production of the given level. */
  predicate IsAt(e: Expr, level: nat) {
    if level == COMPARISON then e.PrimaryCmpNode? else e.BinopNode? && ProductionOf(e.operator) == level
  }

  // ------------------------------------------------------------------------ chains

  function Append(a: Links, b: Links): Links {
    match a
    case NoLinks => b
    case Link(op, x, more) => Link(op, x, Append(more, b))
  }

  lemma {:induction false} AppendAssociative(a: Links, b: Links, c: Links)
    ensures Append(Append(a, b), c) == Append(a, Append(b, c))
  {
    if a.Link? {
      AppendAssociative(a.more, b, c);
    }
  }

  lemma {:induction false} AppendNothing(a: Links)
    ensures Append(a, NoLinks) == a
  {
    if a.Link? {
      AppendNothing(a.more);
    }
  }

  /** The first operand of a chain of operations of one level. */
  function Head(e: Expr, level: nat): Expr {
    if IsAt(e, level) then Head(e.operand1, level) else e
  }

  /** The operators and operands behind it, wherever they stand in the tree. */
  function LinksOf(e: Expr, level: nat): Links
    decreases e
  {
    if !IsAt(e, level) then NoLinks
    else if e.BinopNode? then
      Append(LinksOf(e.operand1, level), Link(e.operator, Head(e.operand2, level), LinksOf(e.operand2, level)))
    else Append(LinksOf(e.operand1, level), FlatLinks(e.links, level))
  }

  function FlatLinks(links: Links, level: nat): Links
    decreases links
  {
    match links
    case NoLinks => NoLinks
    case Link(op, x, more) => Link(op, Head(x, level), Append(LinksOf(x, level), FlatLinks(more, level)))
  }

  /** No operand of a chain is an operation of its level. */
  predicate Proper(links: Links, level: nat) {
    links.Link? ==> !IsAt(links.operand, level) && ProductionOf(links.operator) == level && Proper(links.more, level)
  }

  function LeftNested(e: Expr, links: Links): Expr
    decreases links
  {
    match links
    case NoLinks => e
    case Link(op, x, more) => LeftNested(BinopNode(op, e, x), more)
  }

  function RightNested(e: Expr, links: Links): Expr
    decreases links
  {
    match links
    case NoLinks => e
    case Link(op, x, more) => BinopNode(op, e, RightNested(x, more))
  }

  /** The tree that the grammar gives to a chain. */
  function Combine(level: nat, e: Expr, links: Links): Expr {
    if links == NoLinks then e
    else if level == COMPARISON then PrimaryCmpNode(e, links)
    else if RightAssociative(level) then RightNested(e, links)
    else LeftNested(e, links)
  }

  /** A minus in front of a number is made part of the number. */
  function UnopOf(op: string, e: Expr): Expr {
    if op == "-" && e.IntNode? then IntNode(-e.value) else UnopNode(op, e)
  }

  /** The tree that the text of an expression stands for: chains are nested the way the
      grammar does it. */
  function Reassociated(e: Expr): Expr
    decreases e
  {
    match e
    case NotNode(x) => NotNode(Reassociated(x))
    case UnopNode(op, x) => UnopOf(op, Reassociated(x))
    case BinopNode(op, x, y) => Rechained(BinopNode(op, Reassociated(x), Reassociated(y)), ProductionOf(op))
    case PrimaryCmpNode(x, links) => Rechained(PrimaryCmpNode(Reassociated(x), ReassociatedLinks(links)), COMPARISON)
    case _ => e
  }

  function ReassociatedLinks(links: Links): Links
    decreases links
  {
    match links
    case NoLinks => NoLinks
    case Link(op, x, more) => Link(op, Reassociated(x), ReassociatedLinks(more))
  }

  function Rechained(e: Expr, level: nat): Expr {
    Combine(level, Head(e, level), LinksOf(e, level))
  }

  // --------------------------------------------------------------------- the domain

  /** The trees that the writer is for: known operators, no negative numbers, and a single
      operator in a comparison. */
  predicate Printable(e: Expr) {
    match e
    case NameNode(name) => IsName(name)
    case IntNode(value) => value >= 0
    case NotNode(x) => Printable(x)
    case UnopNode(op, x) => UnaryOperator(op) && Printable(x)
    case BinopNode(op, x, y) => ProductionOf(op) != 0 && ProductionOf(op) != COMPARISON && Printable(x) && Printable(y)
    case PrimaryCmpNode(x, links) =>
      links.Link? && links.more == NoLinks && ProductionOf(links.operator) == COMPARISON && Printable(x)
        && Printable(links.operand)
  }

  predicate IsLetter(c: char) {
    'a' <= c <= 'z' || 'A' <= c <= 'Z' || c == '_'
  }

  predicate IsNameChar(c: char) {
    IsLetter(c) || '0' <= c <= '9'
  }

  predicate IsKeyword(s: string) {
    s in {"not", "and", "or", "in", "is"}
  }

  predicate IsName(s: string) {
    s != [] && IsLetter(s[0]) && (forall c <- s :: IsNameChar(c)) && !IsKeyword(s)
  }

  /** Operands of the same level stand on the side to which the grammar associates; there is
      no comparison directly in a comparison and no minus directly on a number. */
  predicate WellAssociated(e: Expr)
    decreases e
  {
    match e
    case NotNode(x) => WellAssociated(x)
    case UnopNode(op, x) => WellAssociated(x) && !(op == "-" && x.IntNode?)
    case BinopNode(op, x, y) =>
      && WellAssociated(x) && WellAssociated(y)
      && !IsAt(if RightAssociative(ProductionOf(op)) then x else y, ProductionOf(op))
    case PrimaryCmpNode(x, links) => WellAssociated(x) && !IsAt(x, COMPARISON) && WellAssociatedLinks(links)
    case _ => true
  }

  predicate WellAssociatedLinks(links: Links)
    decreases links
  {
    links.Link? ==> WellAssociated(links.operand) && !IsAt(links.operand, COMPARISON) && WellAssociatedLinks(links.more)
  }

  // ------------------------------------------------------------- chains and their trees

  lemma {:induction false} ChainIsProper(e: Expr, level: nat)
    ensures !IsAt(Head(e, level), level)
    ensures ProperTree(e) ==> Proper(LinksOf(e, level), level)
    decreases e
  {
    if IsAt(e, level) {
      ChainIsProper(e.operand1, level);
      if e.BinopNode? {
        ChainIsProper(e.operand2, level);
        if ProperTree(e) {
          AppendProper(LinksOf(e.operand1, level),
                       Link(e.operator, Head(e.operand2, level), LinksOf(e.operand2, level)), level);
        }
      } else {
        FlatLinksProper(e.links, level);
        if ProperTree(e) {
          AppendProper(LinksOf(e.operand1, level), FlatLinks(e.links, level), level);
        }
      }
    }
  }

  lemma {:induction false} FlatLinksProper(links: Links, level: nat)
    ensures ProperLinks(links) && level == COMPARISON ==> Proper(FlatLinks(links, level), level)
    decreases links
  {
    if links.Link? {
      ChainIsProper(links.operand, level);
      FlatLinksProper(links.more, level);
      if ProperLinks(links) && level == COMPARISON {
        AppendProper(LinksOf(links.operand, level), FlatLinks(links.more, level), level);
      }
    }
  }

  /** Operators stand where they belong. */
  predicate ProperTree(e: Expr)
    decreases e
  {
    match e
    case NotNode(x) => ProperTree(x)
    case UnopNode(_, x) => ProperTree(x)
    case BinopNode(op, x, y) =>
      ProductionOf(op) != 0 && ProductionOf(op) != COMPARISON && ProperTree(x) && ProperTree(y)
    case PrimaryCmpNode(x, links) => links.Link? && ProperTree(x) && ProperLinks(links)
    case _ => true
  }

  predicate ProperLinks(links: Links)
    decreases links
  {
    links.Link? ==> ProductionOf(links.operator) == COMPARISON && ProperTree(links.operand) && ProperLinks(links.more)
  }

  lemma {:induction false} AppendProper(a: Links, b: Links, level: nat)
    requires Proper(a, level) && Proper(b, level)
    ensures Proper(Append(a, b), level)
  {
    if a.Link? {
      AppendProper(a.more, b, level);
    }
  }

  lemma {:induction false} ChainOfLeft(e: Expr, links: Links, level: nat)
    requires Proper(links, level) && level != COMPARISON
    ensures Head(LeftNested(e, links), level) == Head(e, level)
    ensures LinksOf(LeftNested(e, links), level) == Append(LinksOf(e, level), links)
    decreases links
  {
    match links {
      case NoLinks =>
        AppendNothing(LinksOf(e, level));
      case Link(op, x, more) =>
        ChainOfLeft(BinopNode(op, e, x), more, level);
        AppendAssociative(LinksOf(e, level), Link(op, x, NoLinks), more);
    }
  }

  lemma {:induction false} ChainOfRight(e: Expr, links: Links, level: nat)
    requires Proper(links, level) && level != COMPARISON && !IsAt(e, level)
    ensures Head(RightNested(e, links), level) == e && LinksOf(RightNested(e, links), level) == links
    decreases links
  {
    if links.Link? {
      ChainOfRight(links.operand, links.more, level);
    }
  }

  lemma {:induction false} FlatAlready(links: Links)
    requires Proper(links, COMPARISON)
    ensures FlatLinks(links, COMPARISON) == links
  {
    if links.Link? {
      FlatAlready(links.more);
    }
  }

  /** The tree of a chain has just that chain. */
  lemma ChainOfCombined(e: Expr, links: Links, level: nat)
    requires Proper(links, level) && !IsAt(e, level)
    ensures Head(Combine(level, e, links), level) == e && LinksOf(Combine(level, e, links), level) == links
    ensures links.Link? ==> IsAt(Combine(level, e, links), level)
  {
    if links.Link? && level != COMPARISON {
      ChainOfRight(e, links, level);
      ChainOfLeft(e, links, level);
      LeftNestedIsAt(e, links, level);
    } else if level == COMPARISON {
      FlatAlready(links);
    }
  }

  lemma {:induction false} LeftNestedIsAt(e: Expr, links: Links, level: nat)
    requires Proper(links, level) && level != COMPARISON && (links.Link? || IsAt(e, level))
    ensures IsAt(LeftNested(e, links), level)
    decreases links
  {
    if links.Link? {
      LeftNestedIsAt(BinopNode(links.operator, e, links.operand), links.more, level);
    }
  }

  // ------------------------------------------------------------ what re-association does

  predicate AllOperands(links: Links)
    decreases links
  {
    links.Link? ==> WellAssociated(links.operand) && ProperTree(links.operand) && AllOperands(links.more)
  }

  lemma {:induction false} AllAppend(a: Links, b: Links)
    requires AllOperands(a) && AllOperands(b)
    ensures AllOperands(Append(a, b))
  {
    if a.Link? {
      AllAppend(a.more, b);
    }
  }

  lemma {:induction false} ChainOperands(e: Expr, level: nat)
    requires WellAssociated(e) && ProperTree(e)
    ensures WellAssociated(Head(e, level)) && ProperTree(Head(e, level)) && AllOperands(LinksOf(e, level))
    decreases e
  {
    if IsAt(e, level) {
      ChainOperands(e.operand1, level);
      if e.BinopNode? {
        ChainOperands(e.operand2, level);
        AllAppend(LinksOf(e.operand1, level), Link(e.operator, Head(e.operand2, level), LinksOf(e.operand2, level)));
      } else {
        FlatOperands(e.links, level);
        AllAppend(LinksOf(e.operand1, level), FlatLinks(e.links, level));
      }
    }
  }

  lemma {:induction false} FlatOperands(links: Links, level: nat)
    requires WellAssociatedLinks(links) && ProperLinks(links)
    ensures AllOperands(FlatLinks(links, level))
    decreases links
  {
    if links.Link? {
      ChainOperands(links.operand, level);
      FlatOperands(links.more, level);
      AllAppend(LinksOf(links.operand, level), FlatLinks(links.more, level));
    }
  }

  lemma {:induction false} LeftNestedWell(e: Expr, links: Links, level: nat)
    requires Proper(links, level) && AllOperands(links) && level != COMPARISON && level != 0 && !RightAssociative(level)
    requires WellAssociated(e) && ProperTree(e)
    ensures WellAssociated(LeftNested(e, links)) && ProperTree(LeftNested(e, links))
    decreases links
  {
    if links.Link? {
      LeftNestedWell(BinopNode(links.operator, e, links.operand), links.more, level);
    }
  }

  lemma {:induction false} RightNestedWell(e: Expr, links: Links, level: nat)
    requires Proper(links, level) && AllOperands(links) && level != COMPARISON && RightAssociative(level)
    requires WellAssociated(e) && ProperTree(e) && !IsAt(e, level)
    ensures WellAssociated(RightNested(e, links)) && ProperTree(RightNested(e, links))
    decreases links
  {
    if links.Link? {
      RightNestedWell(links.operand, links.more, level);
    }
  }

  lemma {:induction false} CascadeWell(links: Links)
    requires Proper(links, COMPARISON) && AllOperands(links)
    ensures WellAssociatedLinks(links) && ProperLinks(links)
  {
    if links.Link? {
      CascadeWell(links.more);
    }
  }

  lemma CombinedWell(e: Expr, links: Links, level: nat)
    requires Proper(links, level) && AllOperands(links) && level != 0
    requires WellAssociated(e) && ProperTree(e) && !IsAt(e, level)
    ensures WellAssociated(Combine(level, e, links)) && ProperTree(Combine(level, e, links))
  {
    if level == COMPARISON {
      CascadeWell(links);
    } else if RightAssociative(level) {
      RightNestedWell(e, links, level);
    } else {
      LeftNestedWell(e, links, level);
    }
  }

  /** Re-association keeps the operators where they belong, whatever their nesting. */
  predicate HalfWell(e: Expr)
  {
    match e
    case BinopNode(op, x, y) =>
      && ProductionOf(op) != 0 && ProductionOf(op) != COMPARISON
      && WellAssociated(x) && WellAssociated(y) && ProperTree(x) && ProperTree(y)
    case PrimaryCmpNode(x, links) =>
      && links.Link? && links.more == NoLinks && ProductionOf(links.operator) == COMPARISON
      && WellAssociated(x) && WellAssociated(links.operand) && ProperTree(x) && ProperTree(links.operand)
    case _ => false
  }

  /** Combining the chains of two operands. */
  lemma RechainedChain(e: Expr, level: nat)
    requires HalfWell(e) && IsAt(e, level)
    ensures Proper(LinksOf(e, level), level) && !IsAt(Head(e, level), level) && LinksOf(e, level).Link?
    ensures WellAssociated(Head(e, level)) && ProperTree(Head(e, level)) && AllOperands(LinksOf(e, level))
  {
    var x := e.operand1;
    var y := if e.BinopNode? then e.operand2 else e.links.operand;
    var op := if e.BinopNode? then e.operator else e.links.operator;
    ChainIsProper(x, level);
    ChainIsProper(y, level);
    ChainOperands(x, level);
    ChainOperands(y, level);
    AppendNothing(LinksOf(y, level));
    var links := Link(op, Head(y, level), LinksOf(y, level));
    if e.PrimaryCmpNode? {
      assert FlatLinks(e.links.more, level) == NoLinks;
      assert FlatLinks(e.links, level) == links;
    }
    assert LinksOf(e, level) == Append(LinksOf(x, level), links);
    AppendProper(LinksOf(x, level), links, level);
    AllAppend(LinksOf(x, level), links);
  }

  /** The result is well associated, and an operation of a level stays one of that level. */
  lemma {:induction false} ReassociatedIsWell(e: Expr)
    requires Printable(e)
    ensures WellAssociated(Reassociated(e)) && ProperTree(Reassociated(e))
    ensures forall level: nat :: IsAt(Reassociated(e), level) <==> IsAt(e, level)
    decreases e
  {
    match e {
      case NotNode(x) =>
        ReassociatedIsWell(x);
      case UnopNode(op, x) =>
        ReassociatedIsWell(x);
      case BinopNode(op, x, y) =>
        ReassociatedIsWell(x);
        ReassociatedIsWell(y);
        RechainedIsWell(BinopNode(op, Reassociated(x), Reassociated(y)), ProductionOf(op));
      case PrimaryCmpNode(x, links) =>
        ReassociatedIsWell(x);
        ReassociatedIsWell(links.operand);
        assert ReassociatedLinks(links.more) == NoLinks;
        RechainedIsWell(PrimaryCmpNode(Reassociated(x), ReassociatedLinks(links)), COMPARISON);
      case _ =>
    }
  }

  lemma RechainedIsWell(e: Expr, level: nat)
    requires HalfWell(e) && IsAt(e, level) && level != 0
    ensures WellAssociated(Rechained(e, level)) && ProperTree(Rechained(e, level))
    ensures IsAt(Rechained(e, level), level)
    ensures Head(Rechained(e, level), level) == Head(e, level)
      && LinksOf(Rechained(e, level), level) == LinksOf(e, level)
  {
    RechainedChain(e, level);
    CombinedWell(Head(e, level), LinksOf(e, level), level);
    ChainOfCombined(Head(e, level), LinksOf(e, level), level);
  }

  // ------------------------------------------------------------ what it leaves unchanged

  lemma {:induction false} LeftNestedAppend(e: Expr, a: Links, b: Links)
    ensures LeftNested(e, Append(a, b)) == LeftNested(LeftNested(e, a), b)
    decreases a
  {
    if a.Link? {
      LeftNestedAppend(BinopNode(a.operator, e, a.operand), a.more, b);
    }
  }

  /** A tree whose operands of a level stand on the right side is the tree of its chain. */
  lemma {:induction false} RechainedSame(e: Expr, level: nat)
    requires WellAssociated(e) && Printable(e)
    ensures Rechained(e, level) == e
    decreases e
  {
    if IsAt(e, level) {
      if level == COMPARISON {
        var y := e.links.operand;
        assert LinksOf(y, level) == NoLinks && FlatLinks(e.links.more, level) == NoLinks;
        assert FlatLinks(e.links, level) == e.links && LinksOf(e.operand1, level) == NoLinks;
        assert LinksOf(e, level) == Append(NoLinks, e.links) && Head(e, level) == e.operand1;
      } else if RightAssociative(level) {
        RechainedSame(e.operand2, level);
        var y := e.operand2;
        if IsAt(y, level) {
          ChainIsLinked(y, level);
        }
        assert RightNested(Head(y, level), LinksOf(y, level)) == y;
        assert LinksOf(e, level) == Link(e.operator, Head(y, level), LinksOf(y, level)) && Head(e, level) == e.operand1;
      } else {
        RechainedSame(e.operand1, level);
        var links := Link(e.operator, e.operand2, NoLinks);
        LeftNestedAppend(Head(e.operand1, level), LinksOf(e.operand1, level), links);
        ChainIsLinked(e, level);
        if IsAt(e.operand1, level) {
          ChainIsLinked(e.operand1, level);
        }
      }
    }
  }

  lemma ChainIsLinked(e: Expr, level: nat)
    requires IsAt(e, level) && (e.PrimaryCmpNode? ==> e.links.Link?)
    ensures LinksOf(e, level).Link?
  {
    if e.BinopNode? {
      AppendLinked(LinksOf(e.operand1, level), Link(e.operator, Head(e.operand2, level), LinksOf(e.operand2, level)));
    } else {
      AppendLinked(LinksOf(e.operand1, level), FlatLinks(e.links, level));
    }
  }

  lemma AppendLinked(a: Links, b: Links)
    requires b.Link?
    ensures Append(a, b).Link?
  {
  }

  lemma {:induction false} ReassociatedSame(e: Expr)
    requires WellAssociated(e) && Printable(e)
    ensures Reassociated(e) == e
    decreases e
  {
    match e {
      case NotNode(x) => ReassociatedSame(x);
      case UnopNode(op, x) => ReassociatedSame(x);
      case BinopNode(op, x, y) =>
        ReassociatedSame(x);
        ReassociatedSame(y);
        RechainedSame(e, ProductionOf(op));
      case PrimaryCmpNode(x, links) =>
        ReassociatedSame(x);
        ReassociatedSame(links.operand);
        assert ReassociatedLinks(links.more) == NoLinks;
        RechainedSame(e, COMPARISON);
      case _ =>
    }
  }

  /** Exactly the well associated trees are what their text stands for. */
  lemma StandsForItself(e: Expr)
    requires Printable(e)
    ensures Reassociated(e) == e <==> WellAssociated(e)
  {
    ReassociatedIsWell(e);
    if WellAssociated(e) {
      ReassociatedSame(e);
    }
  }
}

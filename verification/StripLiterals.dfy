/** Moving the string literals and comments of a source text out into labels. */
module StripLiterals {
  import opened Wrappers
  import opened StringTokens
  import opened StringLexer
  import opened Decimal

  /** Where in the source an output piece comes from. */
  datatype Piece = Text(lo: nat, hi: nat) | Label(lo: nat, hi: nat, number: nat)

  function LabelOf(prefix: string, number: nat): string {
    prefix + Digits(number) + "_"
  }

  /** No label is the beginning of another, so in particular no two are the same. */
  lemma LabelsArePrefixFree(prefix: string, m: nat, n: nat)
    requires LabelOf(prefix, m) <= LabelOf(prefix, n)
    ensures m == n
  {
    NoNumberStartsAnother(prefix, m, n, '_');
  }

  /** The first `n` pieces cover the source up to `done` without gap or overlap, and the
      labels among them are numbered from 1 and stand for the first `m` bodies. */
  ghost predicate Tiles(pieces: seq<Piece>, n: nat, bodies: seq<Span>, m: nat, done: nat)
    requires n <= |pieces| && m <= |bodies|
  {
    if n == 0 then m == 0 && done == 0
    else
      var last := pieces[n - 1];
      && last.lo <= last.hi == done
      && if last.Text? then Tiles(pieces, n - 1, bodies, m, last.lo)
         else
           && m > 0 && last.number == m && bodies[m - 1] == Span(last.lo, last.hi)
           && Tiles(pieces, n - 1, bodies, m - 1, last.lo)
  }

  ghost predicate Tiling(pieces: seq<Piece>, bodies: seq<Span>, done: nat) {
    Tiles(pieces, |pieces|, bodies, |bodies|, done)
  }

  lemma {:induction false} TilesStay(pieces: seq<Piece>, pieces': seq<Piece>, n: nat, bodies: seq<Span>,
                                     bodies': seq<Span>, m: nat, done: nat)
    requires pieces <= pieces' && bodies <= bodies' && n <= |pieces| && m <= |bodies|
      && Tiles(pieces, n, bodies, m, done)
    ensures Tiles(pieces', n, bodies', m, done)
  {
    if n > 0 {
      var last := pieces[n - 1];
      TilesStay(pieces, pieces', n - 1, bodies, bodies', if last.Text? then m else m - 1, last.lo);
    }
  }

  lemma TileText(pieces: seq<Piece>, bodies: seq<Span>, lo: nat, hi: nat)
    requires Tiling(pieces, bodies, lo) && lo <= hi
    ensures Tiling(pieces + [Text(lo, hi)], bodies, hi)
  {
    TilesStay(pieces, pieces + [Text(lo, hi)], |pieces|, bodies, bodies, |bodies|, lo);
  }

  lemma TileLabel(pieces: seq<Piece>, bodies: seq<Span>, lo: nat, hi: nat)
    requires Tiling(pieces, bodies, lo) && lo <= hi
    ensures Tiling(pieces + [Label(lo, hi, |bodies| + 1)], bodies + [Span(lo, hi)], hi)
  {
    TilesStay(pieces, pieces + [Label(lo, hi, |bodies| + 1)], |pieces|, bodies, bodies + [Span(lo, hi)], |bodies|, lo);
  }

  predicate Within(code: string, lo: nat, hi: nat) {
    lo <= hi <= |code|
  }

  function Rendered(code: string, prefix: string, piece: Piece): string
    requires Within(code, piece.lo, piece.hi)
  {
    if piece.Text? then code[piece.lo..piece.hi] else LabelOf(prefix, piece.number)
  }

  ghost predicate AllRendered(code: string, prefix: string, pieces: seq<Piece>, newCode: seq<string>) {
    && |newCode| == |pieces|
    && forall i :: 0 <= i < |pieces| ==>
         Within(code, pieces[i].lo, pieces[i].hi) && newCode[i] == Rendered(code, prefix, pieces[i])
  }

  ghost predicate IsLabel(prefix: string, bodies: seq<Span>, l: string, k: nat) {
    k < |bodies| && l == LabelOf(prefix, k + 1)
  }

  /** The table of literals has exactly the labels, each with its body. */
  ghost predicate Tabled(code: string, prefix: string, bodies: seq<Span>, literals: map<string, string>) {
    && (forall l <- literals :: exists k :: IsLabel(prefix, bodies, l, k))
    && forall l: string, k: nat :: IsLabel(prefix, bodies, l, k) ==>
         && Within(code, bodies[k].lo, bodies[k].hi)
         && l in literals && literals[l] == code[bodies[k].lo..bodies[k].hi]
  }

  lemma TabledStep(code: string, prefix: string, bodies: seq<Span>, literals: map<string, string>, lo: nat, hi: nat)
    requires Tabled(code, prefix, bodies, literals) && Within(code, lo, hi)
    ensures Tabled(code, prefix, bodies + [Span(lo, hi)], literals[LabelOf(prefix, |bodies| + 1) := code[lo..hi]])
  {
    var bodies', name := bodies + [Span(lo, hi)], LabelOf(prefix, |bodies| + 1);
    var literals' := literals[name := code[lo..hi]];
    assert IsLabel(prefix, bodies', name, |bodies|);
    forall l | l in literals' ensures exists k :: IsLabel(prefix, bodies', l, k) {
      if l != name {
        var k :| IsLabel(prefix, bodies, l, k);
        assert IsLabel(prefix, bodies', l, k);
      }
    }
    forall l: string, k: nat | IsLabel(prefix, bodies', l, k)
      ensures Within(code, bodies'[k].lo, bodies'[k].hi) && l in literals'
        && literals'[l] == code[bodies'[k].lo..bodies'[k].hi]
    {
      if k < |bodies| {
        assert IsLabel(prefix, bodies, l, k);
        if l == name {
          LabelsArePrefixFree(prefix, k + 1, |bodies| + 1);
        }
      }
    }
  }

  // ---------------------------------------------------------------- token by token

  predicate IsQuoteType(s: string) {
    && (|s| == 1 || |s| == 3) && IsQuote(s[0])
    && forall i :: 0 <= i < |s| ==> s[i] == s[0]
  }

  /** The run of quotes begins with those of the string. */
  predicate Starts(code: string, quote: nat, end: nat, quoteType: string)
    requires quote <= end <= |code|
  {
    quote + |quoteType| <= end && code[quote..quote + |quoteType|] == quoteType
  }

  /** Where the scan of a string goes on behind backslashes and a quote. */
  function AfterEscape(code: string, token: Token, quoteType: string): nat
    requires token.Escape? && token.start < token.end <= |code| && quoteType != []
  {
    if (token.end - 1 - token.start) % 2 == 0 && code[token.end - 1] == quoteType[0] then token.end - 1 else token.end
  }

  function InsideOf(from: nat, quoteType: string, isF: bool, context: Context): (m: Mode)
    requires IsQuoteType(quoteType)
  {
    InString(from, quoteType[0], |quoteType|, isF, context)
  }

  // The lexical steps up to and over one token of a string.

  lemma StringUnclosed(code: string, i: nat, m: Mode)
    requires i <= |code| && m.InString? && IsQuote(m.quote) && FindToken(StringTokensOf(m.isF), code, i).None?
    ensures Lex(code, i, m) == Lexed([Span(m.from, |code|)])
  {
    forall j | i <= j < |code| ensures Unmatched(code, j, m.isF) {
    }
    ToStringToken(code, i, |code|, m);
  }

  lemma StringEscape(code: string, i: nat, token: Token, from: nat, quoteType: string, isF: bool, context: Context)
    requires i <= |code| && IsQuoteType(quoteType)
    requires FindToken(StringTokensOf(isF), code, i) == Some(token) && token.Escape?
    ensures var m := InsideOf(from, quoteType, isF, context);
      Lex(code, i, m) == Lex(code, AfterEscape(code, token, quoteType), m)
    ensures i < AfterEscape(code, token, quoteType)
  {
    var start, e, m := token.start, token.end - 1, InsideOf(from, quoteType, isF, context);
    ToStringToken(code, i, start, m);
    EscapesInString(code, start, e, m);
    if code[e] != m.quote {
      NotRepeated(code, e, m.quote, m.size, e);
    }
  }

  lemma UpToQuote(code: string, i: nat, token: Token, m: Mode)
    requires i <= |code| && m.InString? && IsQuote(m.quote)
    requires FindToken(StringTokensOf(m.isF), code, i) == Some(token) && token.Quote?
    ensures i <= token.quote <= |code| && Lex(code, i, m) == Lex(code, token.quote, m)
  {
    QuoteMatch(StringTokensOf(m.isF), code, token);
    forall j | i <= j < token.quote ensures Unmatched(code, j, m.isF) {
    }
    ToStringToken(code, i, token.quote, m);
  }

  /** The scan behind a run of quotes in a string. */
  function AfterRun(code: string, quote: nat, end: nat, from: nat, quoteType: string, isF: bool, context: Context)
    : Lexed
    requires IsQuoteType(quoteType) && quote <= end <= |code|
  {
    if Starts(code, quote, end, quoteType)
      then Behind(BodyOf(from, quote), Lex(code, quote + |quoteType|, InCode(false, context)))
    else Lex(code, end, InsideOf(from, quoteType, isF, context))
  }

  /** A token that starts with the quotes of the string ends it, any other does not. */
  lemma StringQuote(code: string, i: nat, token: Token, from: nat, quoteType: string, isF: bool, context: Context)
    requires i <= |code| && IsQuoteType(quoteType)
    requires FindToken(StringTokensOf(isF), code, i) == Some(token) && token.Quote?
    ensures i <= token.quote < token.end <= |code|
    ensures Lex(code, i, InsideOf(from, quoteType, isF, context)) ==
      AfterRun(code, token.quote, token.end, from, quoteType, isF, context)
  {
    QuoteMatch(StringTokensOf(isF), code, token);
    UpToQuote(code, i, token, InsideOf(from, quoteType, isF, context));
    QuotesAt(code, token.quote, token.end, from, quoteType, isF, context);
  }

  lemma QuotesAt(code: string, quote: nat, end: nat, from: nat, quoteType: string, isF: bool, context: Context)
    requires IsQuoteType(quoteType) && quote < end <= |code| && IsQuote(code[quote])
      && IsRun(code, quote, end, code[quote])
    ensures Lex(code, quote, InsideOf(from, quoteType, isF, context)) ==
      AfterRun(code, quote, end, from, quoteType, isF, context)
  {
    StartsOrNot(code, quote, end, quoteType);
    var m := InsideOf(from, quoteType, isF, context);
    if Starts(code, quote, end, quoteType) {
      QuotesEnd(code, quote, m);
    } else {
      QuotesInside(code, quote, end, code[quote], m);
    }
  }

  /** Whether a run of braces in an f-string begins a replacement field. */
  predicate OpensField(token: Token) {
    token.Braces? && token.brace == '{' && (token.end - token.start) % 2 == 1
  }

  lemma StringBraces(code: string, i: nat, token: Token, m: Mode)
    requires i <= |code| && m.InString? && m.isF && IsQuote(m.quote)
    requires FindToken(FStringPattern, code, i) == Some(token) && token.Braces?
    ensures OpensField(token) ==>
      Lex(code, i, m) ==
        Behind(BodyOf(m.from, token.end - 1), Lex(code, token.end, InCode(false, Field(m.quote, m.size, m.context))))
    ensures !OpensField(token) ==> Lex(code, i, m) == Lex(code, token.end, m)
  {
    forall j | i <= j < token.start ensures Unmatched(code, j, true) {
    }
    ToStringToken(code, i, token.start, m);
    BracesInString(code, token.start, token.end, token.brace, m);
  }

  lemma QuoteMatch(p: Pattern, code: string, token: Token)
    requires token.Quote? && token.start <= |code| && MatchAt(p, code, token.start) == Some(token)
    ensures token.start <= token.quote < token.end <= |code| && token.quote <= token.start + 1
    ensures token.start < token.quote ==> code[token.start] == 'f'
    ensures IsQuote(code[token.quote]) && IsRun(code, token.quote, token.end, code[token.quote])
  {
  }

  lemma StartsOrNot(code: string, quote: nat, end: nat, quoteType: string)
    requires quote < end <= |code| && IsRun(code, quote, end, code[quote]) && IsQuoteType(quoteType)
    ensures Starts(code, quote, end, quoteType) <==> code[quote] == quoteType[0] && end - quote >= |quoteType|
  {
    if quote + |quoteType| <= end {
      var begin := code[quote..quote + |quoteType|];
      assert begin[0] == code[quote] && forall i :: 0 <= i < |begin| ==> begin[i] == code[quote];
    }
  }

  // The lexical steps up to and over one token of code.

  lemma CodeEnds(code: string, i: nat, context: Context)
    requires i <= |code| && FindToken(CodePattern, code, i).None?
    ensures Lex(code, i, InCode(false, context)) == Lexed([])
  {
    ToCodeToken(code, i, |code|, context);
  }

  function BehindBrace(token: Token, context: Context): Mode
    requires token.Brace?
  {
    if context == TopLevel then InCode(false, context)
    else if token.brace == '{' then InCode(false, Nested(context))
    else Resumed(context, token.end)
  }

  /** A brace is a token, but matters in f-strings only. */
  lemma CodeBrace(code: string, i: nat, token: Token, context: Context)
    requires i <= |code| && FindToken(CodePattern, code, i) == Some(token) && token.Brace?
    ensures Lex(code, i, InCode(false, context)) ==
      Lex(code, token.end, BehindBrace(token, context))
  {
    ToCodeToken(code, i, token.start, context);
    assert !IsQuote(code[token.start]) && code[token.start] != '#';
  }

  lemma CodeComment(code: string, i: nat, token: Token, end: nat, context: Context)
    requires i <= |code| && FindToken(CodePattern, code, i) == Some(token) && token.Comment?
    requires end == match FindNewline(code, token.end) case Some(n) => n case None => |code|
    ensures Lex(code, i, InCode(false, context)) ==
      Behind([Span(token.end, end)], Lex(code, end, InCode(false, context)))
  {
    ToCodeToken(code, i, token.start, context);
    CommentAt(code, token.start, end, context);
  }

  /** A run of quotes, with an `f` before it or without. */
  lemma CodeQuote(code: string, i: nat, token: Token, context: Context)
    requires i <= |code| && FindToken(CodePattern, code, i) == Some(token) && token.Quote?
    ensures i <= token.start <= token.quote < token.end <= |code|
    ensures Lex(code, i, InCode(false, context)) ==
      AfterQuotes(code, token.end, (token.end - token.quote) % 6, code[token.quote], token.start < token.quote, context)
  {
    QuoteMatch(CodePattern, code, token);
    ToCodeToken(code, i, token.start, context);
    SkipCode(code, token.start, token.quote, false, context);
    QuotesInCode(code, token.quote, token.end, code[token.quote], token.start < token.quote, context);
  }

  /** The quotes that a run of `n` quotes `q` leaves open. */
  function TypeOpened(q: char, n: nat): string {
    if n % 6 == 0 || n % 6 == 2 then [] else if n % 6 == 1 then [q] else [q, q, q]
  }

  function BodyStart(end: nat, n: nat): int {
    if n % 6 > 3 then end - (n % 6 - 3) else end
  }

  predicate AllAre(s: string, c: char) {
    forall k :: 0 <= k < |s| ==> s[k] == c
  }

  lemma RunIsAlike(code: string, lo: nat, hi: nat, c: char)
    requires IsRun(code, lo, hi, c)
    ensures AllAre(code[lo..hi], c)
  {
  }

  lemma StartIsAlike(s: string, n: nat, c: char)
    requires AllAre(s, c) && n <= |s|
    ensures AllAre(s[..n], c)
  {
  }

  lemma OpenedByLength(s: string, q: char, n: nat)
    requires AllAre(s, q) && |s| == |TypeOpened(q, n)|
    ensures s == TypeOpened(q, n) && (IsQuote(q) && s != [] ==> IsQuoteType(s))
  {
  }

  // -------------------------------------------------------------------- the scanner

  /** The scan comes to the bodies `total`: it has the bodies `now`, and goes on from `r` in
      the given mode, or is at the end (-1). */
  ghost predicate ComesTo(code: string, total: Lexed, now: seq<Span>, r: int, m: Mode)
    requires r <= |code|
  {
    total == if r < 0 then Lexed(now) else Behind(now, Lex(code, r, m))
  }

  /** Up to there nothing is taken out. */
  lemma PassedOver(code: string, total: Lexed, now: seq<Span>, i: nat, m: Mode, r: nat, m': Mode)
    requires i <= |code| && r <= |code| && ComesTo(code, total, now, i, m) && Lex(code, i, m) == Lex(code, r, m')
    ensures ComesTo(code, total, now, r, m')
  {
  }

  /** Up to there one body is taken out. */
  lemma TakenOut(code: string, total: Lexed, now: seq<Span>, i: nat, m: Mode, body: seq<Span>, r: nat, m': Mode)
    requires i <= |code| && r <= |code| && ComesTo(code, total, now, i, m)
    requires Lex(code, i, m) == Behind(body, Lex(code, r, m'))
    ensures ComesTo(code, total, now + body, r, m')
  {
    assert now + (body + Lex(code, r, m').bodies) == now + body + Lex(code, r, m').bodies;
  }

  // What the tokens come to.

  lemma CodePassed(code: string, total: Lexed, now: seq<Span>, i: nat, context: Context)
    requires i <= |code| && ComesTo(code, total, now, i, InCode(false, context))
    requires FindToken(CodePattern, code, i).None?
    ensures ComesTo(code, total, now, -1, InCode(false, context))
  {
    CodeEnds(code, i, context);
  }

  lemma CommentTaken(code: string, total: Lexed, now: seq<Span>, i: nat, token: Token, newline: Option<nat>,
                     context: Context)
    requires i <= |code| && FindToken(CodePattern, code, i) == Some(token) && token.Comment?
    requires newline == FindNewline(code, token.end) && ComesTo(code, total, now, i, InCode(false, context))
    ensures var stop := if newline.Some? then newline.value else |code|;
      ComesTo(code, total, now + [Span(token.end, stop)], if newline.Some? then stop else -1, InCode(false, context))
  {
    var stop, m := if newline.Some? then newline.value else |code|, InCode(false, context);
    CodeComment(code, i, token, stop, context);
    TakenOut(code, total, now, i, m, [Span(token.end, stop)], stop, m);
  }

  lemma BracePassed(code: string, total: Lexed, now: seq<Span>, i: nat, token: Token, context: Context)
    requires i <= |code| && FindToken(CodePattern, code, i) == Some(token) && token.Brace?
    requires ComesTo(code, total, now, i, InCode(false, context))
    ensures ComesTo(code, total, now, token.end, BehindBrace(token, context))
  {
    CodeBrace(code, i, token, context);
    PassedOver(code, total, now, i, InCode(false, context), token.end, BehindBrace(token, context));
  }

  lemma QuotesPassed(code: string, total: Lexed, now: seq<Span>, i: nat, token: Token, context: Context)
    requires i <= |code| && FindToken(CodePattern, code, i) == Some(token) && token.Quote?
    requires token.quote < token.end <= |code| && TypeOpened(code[token.quote], token.end - token.quote) == []
    requires ComesTo(code, total, now, i, InCode(false, context))
    ensures i < token.end && ComesTo(code, total, now, token.end, InCode(false, context))
  {
    CodeQuote(code, i, token, context);
    PassedOver(code, total, now, i, InCode(false, context), token.end, InCode(false, context));
  }

  /** What a run of quotes opens. */
  lemma QuotesOpen(code: string, total: Lexed, now: seq<Span>, i: nat, token: Token, quoteType: string,
                   bodyStart: nat, context: Context)
    requires i <= |code| && FindToken(CodePattern, code, i) == Some(token) && token.Quote?
    requires token.quote < token.end <= |code|
      && quoteType == TypeOpened(code[token.quote], token.end - token.quote) != []
    requires bodyStart == BodyStart(token.end, token.end - token.quote) <= |code| && IsQuoteType(quoteType)
    requires ComesTo(code, total, now, i, InCode(false, context))
    ensures i <= token.start
    ensures ComesTo(code, total, now, bodyStart,
                    InsideOf(bodyStart, quoteType, token.start < token.quote, context))
  {
    CodeQuote(code, i, token, context);
    PassedOver(code, total, now, i, InCode(false, context), bodyStart,
               InsideOf(bodyStart, quoteType, token.start < token.quote, context));
  }

  lemma UnclosedTaken(code: string, total: Lexed, now: seq<Span>, i: nat, from: nat, quoteType: string,
                      isF: bool, context: Context)
    requires i <= |code| && IsQuoteType(quoteType) && FindToken(StringTokensOf(isF), code, i).None?
    requires ComesTo(code, total, now, i, InsideOf(from, quoteType, isF, context))
    ensures ComesTo(code, total, now + [Span(from, |code|)], -1, InCode(false, context))
  {
    StringUnclosed(code, i, InsideOf(from, quoteType, isF, context));
  }

  lemma EscapePassed(code: string, total: Lexed, now: seq<Span>, i: nat, token: Token, from: nat,
                     quoteType: string, isF: bool, context: Context)
    requires i <= |code| && IsQuoteType(quoteType)
    requires FindToken(StringTokensOf(isF), code, i) == Some(token) && token.Escape?
    requires ComesTo(code, total, now, i, InsideOf(from, quoteType, isF, context))
    ensures i < AfterEscape(code, token, quoteType) <= |code|
    ensures ComesTo(code, total, now, AfterEscape(code, token, quoteType), InsideOf(from, quoteType, isF, context))
  {
    var m := InsideOf(from, quoteType, isF, context);
    StringEscape(code, i, token, from, quoteType, isF, context);
    PassedOver(code, total, now, i, m, AfterEscape(code, token, quoteType), m);
  }

  /** The text in front of a replacement field is taken out, and code goes on behind it. */
  lemma FieldOpened(code: string, total: Lexed, now: seq<Span>, i: nat, token: Token, from: nat, quoteType: string,
                    context: Context)
    returns (after: seq<Span>, field: Context)
    requires i <= |code| && IsQuoteType(quoteType)
    requires FindToken(FStringPattern, code, i) == Some(token) && OpensField(token)
    requires ComesTo(code, total, now, i, InsideOf(from, quoteType, true, context))
    ensures i < token.end <= |code| && code[token.end - 1] == '{'
    ensures after == now + BodyOf(from, token.end - 1) && field != TopLevel
    ensures ComesTo(code, total, after, token.end, InCode(false, field))
    ensures forall j: nat :: BehindCode(true, j, field) == InsideOf(j, quoteType, true, context)
  {
    var m := InsideOf(from, quoteType, true, context);
    after, field := now + BodyOf(from, token.end - 1), Field(quoteType[0], |quoteType|, context);
    StringBraces(code, i, token, m);
    TakenOut(code, total, now, i, m, BodyOf(from, token.end - 1), token.end, InCode(false, field));
  }

  lemma BracesPassed(code: string, total: Lexed, now: seq<Span>, i: nat, token: Token, from: nat, quoteType: string,
                     context: Context)
    requires i <= |code| && IsQuoteType(quoteType)
    requires FindToken(FStringPattern, code, i) == Some(token) && token.Braces? && !OpensField(token)
    requires ComesTo(code, total, now, i, InsideOf(from, quoteType, true, context))
    ensures i < token.end <= |code|
    ensures ComesTo(code, total, now, token.end, InsideOf(from, quoteType, true, context))
  {
    var m := InsideOf(from, quoteType, true, context);
    StringBraces(code, i, token, m);
    PassedOver(code, total, now, i, m, token.end, m);
  }

  /** A run of quotes in a string: its first ones end the string if they are those of it. */
  lemma QuoteTaken(code: string, total: Lexed, now: seq<Span>, i: nat, token: Token, from: nat,
                   quoteType: string, isF: bool, context: Context)
    requires i <= |code| && IsQuoteType(quoteType)
    requires FindToken(StringTokensOf(isF), code, i) == Some(token) && token.Quote?
    requires ComesTo(code, total, now, i, InsideOf(from, quoteType, isF, context))
    ensures i <= token.quote < token.end <= |code|
    ensures Starts(code, token.quote, token.end, quoteType) ==>
      ComesTo(code, total, now + BodyOf(from, token.quote), token.quote + |quoteType|, InCode(false, context))
    ensures !Starts(code, token.quote, token.end, quoteType) ==>
      ComesTo(code, total, now, token.end, InsideOf(from, quoteType, isF, context))
  {
    var m := InsideOf(from, quoteType, isF, context);
    StringQuote(code, i, token, from, quoteType, isF, context);
    if Starts(code, token.quote, token.end, quoteType) {
      TakenOut(code, total, now, i, m, BodyOf(from, token.quote), token.quote + |quoteType|, InCode(false, context));
    } else {
      PassedOver(code, total, now, i, m, token.end, m);
    }
  }

  class Stripper {
    const code: string
    const prefix: string
    var newCode: seq<string>
    var literals: map<string, string>
    var counter: nat

    // The origin of the output, and how far it has got.
    ghost var pieces: seq<Piece>
    ghost var bodies: seq<Span>
    ghost var done: nat

    ghost predicate Valid()
      reads this
    {
      && done <= |code| && Tiling(pieces, bodies, done)
      && AllRendered(code, prefix, pieces, newCode)
      && counter == |bodies| && Tabled(code, prefix, bodies, literals)
    }

    constructor (code: string, prefix: string)
      ensures Valid() && this.code == code && this.prefix == prefix && done == 0 && bodies == []
    {
      this.code, this.prefix := code, prefix;
      newCode, literals, counter := [], map[], 0;
      pieces, bodies, done := [], [], 0;
    }

    method Append(text: string, ghost hi: nat)
      requires Valid() && Within(code, done, hi) && text == code[done..hi]
      modifies this
      ensures Valid() && done == hi && bodies == old(bodies)
    {
      TileText(pieces, bodies, done, hi);
      newCode := newCode + [text];
      pieces := pieces + [Text(done, hi)];
      done := hi;
    }

    method AppendNewLabel(literal: string, ghost hi: nat)
      requires Valid() && Within(code, done, hi) && literal == code[done..hi]
      modifies this
      ensures Valid() && done == hi && bodies == old(bodies) + [Span(old(done), hi)]
    {
      TabledStep(code, prefix, bodies, literals, done, hi);
      TileLabel(pieces, bodies, done, hi);
      counter := counter + 1;
      var name := LabelOf(prefix, counter);
      literals := literals[name := literal];
      newCode := newCode + [name];
      pieces := pieces + [Label(done, hi, counter)];
      bodies := bodies + [Span(done, hi)];
      done := hi;
    }

    /** From the start of a string's body to behind its closing quotes, or to the end (-1). */
    method ParseString(quoteType: string, from: nat, isFstring: bool, ghost context: Context, ghost total: Lexed)
      returns (charpos: int)
      requires Valid() && IsQuoteType(quoteType) && from == done
      requires ComesTo(code, total, bodies, from, InsideOf(from, quoteType, isFstring, context))
      modifies this
      ensures Valid() && if charpos == -1 then done == |code| else from <= charpos == done
      ensures ComesTo(code, total, bodies, charpos, InCode(false, context))
      decreases |code| - from, 3
    {
      if isFstring {
        charpos := ParseFString(quoteType, from, context, total);
      } else {
        charpos := ParsePlainString(quoteType, from, context, total);
      }
    }

    method ParsePlainString(quoteType: string, start: nat, ghost context: Context, ghost total: Lexed)
      returns (charpos: int)
      requires Valid() && IsQuoteType(quoteType) && start == done
      requires ComesTo(code, total, bodies, start, InsideOf(start, quoteType, false, context))
      modifies this
      ensures Valid() && if charpos == -1 then done == |code| else start <= charpos == done
      ensures ComesTo(code, total, bodies, charpos, InCode(false, context))
    {
      var quote := FindStringEnd(quoteType, start, context, total);
      charpos := EndString(quoteType, start, quote);
    }

    /** The body of a string that ends with the quotes at `quote`, or not at all (-1). */
    method EndString(quoteType: string, start: nat, quote: int) returns (charpos: int)
      requires Valid() && IsQuoteType(quoteType) && start == done
      requires quote != -1 ==>
        start <= quote && quote + |quoteType| <= |code| && code[quote..quote + |quoteType|] == quoteType
      modifies this
      ensures Valid() && bodies == old(bodies) + EndBody(code, start, quote)
      ensures charpos == EndOf(quoteType, quote) && done == if quote == -1 then |code| else charpos
    {
      charpos := EndOf(quoteType, quote);
      if quote == -1 {
        AppendRest(start);
      } else {
        CloseString(quoteType, start, quote);
      }
    }

    /** Where the closing quotes of a string are (-1 if there are none): escaped quotes and
        shorter runs of quotes are passed over. */
    method FindStringEnd(quoteType: string, start: nat, ghost context: Context, ghost total: Lexed)
      returns (quote: int)
      requires IsQuoteType(quoteType) && start <= |code|
      requires ComesTo(code, total, bodies, start, InsideOf(start, quoteType, false, context))
      ensures quote == -1 || (start <= quote && quote + |quoteType| <= |code|)
      ensures quote != -1 ==> code[quote..quote + |quoteType|] == quoteType
      ensures ComesTo(code, total, bodies + EndBody(code, start, quote), EndOf(quoteType, quote),
                      InCode(false, context))
    {
      var charpos := start;
      while true
        invariant start <= charpos <= |code|
        invariant ComesTo(code, total, bodies, charpos, InsideOf(start, quoteType, false, context))
        decreases |code| - charpos
      {
        var found := FindToken(StringPattern, code, charpos);
        if found.None? {
          UnclosedTaken(code, total, bodies, charpos, start, quoteType, false, context);
          return -1;
        }
        var closed;
        charpos, closed := PassStringToken(found.value, quoteType, start, charpos, context, total);
        if closed {
          return found.value.quote;
        }
      }
    }

    /** Where the scan goes on behind a token of a string, and whether that ends the string. */
    method PassStringToken(token: Token, quoteType: string, start: nat, i: nat, ghost context: Context,
                           ghost total: Lexed)
      returns (charpos: nat, closed: bool)
      requires IsQuoteType(quoteType) && start <= i <= |code|
      requires FindToken(StringPattern, code, i) == Some(token)
      requires ComesTo(code, total, bodies, i, InsideOf(start, quoteType, false, context))
      ensures i < charpos <= |code|
      ensures !closed ==> ComesTo(code, total, bodies, charpos, InsideOf(start, quoteType, false, context))
      ensures closed ==>
        && token.Quote? && start <= token.quote && token.quote + |quoteType| == charpos
        && code[token.quote..charpos] == quoteType
        && ComesTo(code, total, bodies + BodyOf(start, token.quote), charpos, InCode(false, context))
    {
      if token.Escape? {
        EscapePassed(code, total, bodies, i, token, start, quoteType, false, context);
        return AfterEscape(code, token, quoteType), false;
      }
      QuoteTaken(code, total, bodies, i, token, start, quoteType, false, context);
      closed := Starts(code, token.quote, token.end, quoteType);
      charpos := if closed then token.quote + |quoteType| else token.end;
    }

    /** The body of a string, unless it is empty, and its closing quotes. */
    method CloseString(quoteType: string, start: nat, charpos: nat)
      requires Valid() && start == done <= charpos && IsQuoteType(quoteType)
      requires charpos + |quoteType| <= |code| && code[charpos..charpos + |quoteType|] == quoteType
      modifies this
      ensures Valid() && done == charpos + |quoteType|
      ensures bodies == old(bodies) + BodyOf(start, charpos)
    {
      AppendBody(start, charpos);
      Append(quoteType, charpos + |quoteType|);
    }

    method AppendBody(start: nat, charpos: nat)
      requires Valid() && start == done <= charpos <= |code|
      modifies this
      ensures Valid() && done == charpos && bodies == old(bodies) + BodyOf(start, charpos)
    {
      if charpos > start {
        AppendNewLabel(code[start..charpos], charpos);
      }
    }

    /** The code behind the last token. */
    method AppendCode(start: nat)
      requires Valid() && start == done
      modifies this
      ensures Valid() && done == |code| && bodies == old(bodies)
    {
      SplitAt(code, start, |code|);
      Append(code[start..], |code|);
    }

    /** The body of a string that is not closed. */
    method AppendRest(start: nat)
      requires Valid() && start == done
      modifies this
      ensures Valid() && done == |code| && bodies == old(bodies) + [Span(start, |code|)]
    {
      SplitAt(code, start, |code|);
      AppendNewLabel(code[start..], |code|);
    }

    method ParseFString(quoteType: string, from: nat, ghost context: Context, ghost total: Lexed)
      returns (charpos: int)
      requires Valid() && IsQuoteType(quoteType) && from == done
      requires ComesTo(code, total, bodies, from, InsideOf(from, quoteType, true, context))
      modifies this
      ensures Valid() && if charpos == -1 then done == |code| else from <= charpos == done
      ensures ComesTo(code, total, bodies, charpos, InCode(false, context))
      decreases |code| - from, 2
    {
      var start: int := from;
      charpos := start;
      while charpos != -1
        invariant Valid() && if charpos == -1 then done == |code| else from <= start == done <= charpos <= |code|
        invariant ComesTo(code, total, bodies, charpos, InsideOf(done, quoteType, true, context))
        decreases if charpos == -1 then 0 else |code| - charpos + 1
      {
        var found := FindToken(FStringPattern, code, charpos);
        if found.None? {
          UnclosedTaken(code, total, bodies, charpos, start, quoteType, true, context);
          AppendRest(start);
          return -1;
        }
        var closed;
        start, charpos, closed := ParseFStringToken(found.value, quoteType, start, charpos, context, total);
        if closed {
          return;
        }
      }
    }

    /** One token of an f-string; `closed` if it ends the f-string. */
    method ParseFStringToken(token: Token, quoteType: string, start0: nat, i: nat, ghost context: Context,
                             ghost total: Lexed)
      returns (start: int, charpos: int, closed: bool)
      requires Valid() && IsQuoteType(quoteType) && start0 == done <= i <= |code|
      requires FindToken(FStringPattern, code, i) == Some(token)
      requires ComesTo(code, total, bodies, i, InsideOf(start0, quoteType, true, context))
      modifies this
      ensures Valid() && if charpos == -1 then done == |code| else i < charpos <= |code| && start0 <= done <= charpos
      ensures charpos != -1 && !closed ==> start == done
      ensures closed ==> charpos == done
      ensures ComesTo(code, total, bodies, charpos, BehindToken(closed, done, quoteType, context))
      decreases |code| - start0, 1
    {
      start, closed := start0, false;
      match token {
        case Escape(_, _) =>
          EscapePassed(code, total, bodies, i, token, start0, quoteType, true, context);
          charpos := AfterEscape(code, token, quoteType);
        case Braces(_, _, _) =>
          start, charpos := ParseBraces(token, quoteType, start0, i, context, total);
        case Quote(_, _, _) =>
          charpos, closed := CloseFString(token, quoteType, start0, i, context, total);
      }
    }

    /** Braces in an f-string: the last of an odd number of opening ones begins a field. */
    method ParseBraces(token: Token, quoteType: string, start0: nat, i: nat, ghost context: Context,
                       ghost total: Lexed)
      returns (start: int, charpos: int)
      requires Valid() && IsQuoteType(quoteType) && start0 == done <= i <= |code|
      requires FindToken(FStringPattern, code, i) == Some(token) && token.Braces?
      requires ComesTo(code, total, bodies, i, InsideOf(start0, quoteType, true, context))
      modifies this
      ensures Valid() && if charpos == -1 then done == |code|
        else i < charpos <= |code| && start0 <= done == start <= charpos
      ensures ComesTo(code, total, bodies, charpos, InsideOf(done, quoteType, true, context))
      decreases |code| - start0, 0, 1
    {
      if (token.end - token.start) % 2 == 1 && token.brace == '{' {
        charpos := ParseFormat(token, quoteType, start0, i, context, total);
        start := charpos;
      } else {
        BracesPassed(code, total, bodies, i, token, start0, quoteType, context);
        start, charpos := start0, token.end;
      }
    }

    /** A run of quotes in an f-string, of which the first ones may end it. */
    method CloseFString(token: Token, quoteType: string, start: nat, i: nat, ghost context: Context,
                        ghost total: Lexed)
      returns (charpos: nat, closed: bool)
      requires Valid() && IsQuoteType(quoteType) && start == done <= i <= |code|
      requires FindToken(FStringPattern, code, i) == Some(token) && token.Quote?
      requires ComesTo(code, total, bodies, i, InsideOf(start, quoteType, true, context))
      modifies this
      ensures Valid() && start <= done && i < charpos <= |code|
      ensures if closed then charpos == done else start == done
      ensures ComesTo(code, total, bodies, charpos, BehindToken(closed, done, quoteType, context))
    {
      QuoteTaken(code, total, bodies, i, token, start, quoteType, true, context);
      closed := Starts(code, token.quote, token.end, quoteType);
      charpos := token.end;
      if closed {
        CloseString(quoteType, start, token.quote);
        charpos := token.quote + |quoteType|;
      }
    }

    /** The text of an f-string up to an opening brace, and the code behind it. */
    method ParseFormat(token: Token, quoteType: string, start: nat, i: nat, ghost context: Context, ghost total: Lexed)
      returns (charpos: int)
      requires Valid() && IsQuoteType(quoteType) && start == done <= i <= |code|
      requires FindToken(FStringPattern, code, i) == Some(token) && OpensField(token)
      requires ComesTo(code, total, bodies, i, InsideOf(start, quoteType, true, context))
      modifies this
      ensures Valid() && if charpos == -1 then done == |code| else i < charpos == done
      ensures ComesTo(code, total, bodies, charpos, InsideOf(done, quoteType, true, context))
      decreases |code| - start, 0, 0
    {
      ghost var after, field := FieldOpened(code, total, bodies, i, token, start, quoteType, context);
      OpenField(start, token.end);
      assert bodies == after;
      charpos := ParseCode(token.end, true, field, total);
    }

    method OpenField(start: nat, end: nat)
      requires Valid() && start == done < end <= |code| && code[end - 1] == '{'
      modifies this
      ensures Valid() && done == end && bodies == old(bodies) + BodyOf(start, end - 1)
    {
      AppendBody(start, end - 1);
      Append("{", end);
    }

    /** Code, up to the end (-1) or, inside an f-string, to behind the closing brace. */
    method ParseCode(from: nat, inFstring: bool, ghost context: Context, ghost total: Lexed)
      returns (charpos: int)
      requires Valid() && from == done && (inFstring <==> context != TopLevel)
      requires ComesTo(code, total, bodies, from, InCode(false, context))
      modifies this
      ensures Valid() && if charpos == -1 then done == |code| else from <= charpos == done
      ensures !inFstring ==> charpos == -1
      ensures ComesTo(code, total, bodies, charpos, BehindCode(inFstring, done, context))
      decreases |code| - from, 4
    {
      var start: int := from;
      charpos := start;
      while charpos != -1
        invariant Valid() && if charpos == -1 then done == |code| else from <= start == done <= charpos <= |code|
        invariant ComesTo(code, total, bodies, charpos, InCode(false, context))
        decreases if charpos == -1 then 0 else |code| - charpos + 1
      {
        var found := FindToken(CodePattern, code, charpos);
        if found.None? {
          CodePassed(code, total, bodies, charpos, context);
          AppendCode(start);
          return -1;
        }
        var closed;
        start, charpos, closed := ParseToken(found.value, start, charpos, inFstring, context, total);
        if closed {
          return;
        }
      }
    }

    /** One token of code; `closed` if it ends the code in an f-string. */
    method ParseToken(token: Token, start0: nat, i: nat, inFstring: bool, ghost context: Context,
                      ghost total: Lexed)
      returns (start: int, charpos: int, closed: bool)
      requires Valid() && start0 == done <= i <= |code| && FindToken(CodePattern, code, i) == Some(token)
      requires inFstring <==> context != TopLevel
      requires ComesTo(code, total, bodies, i, InCode(false, context))
      modifies this
      ensures Valid() && if charpos == -1 then done == |code|
        else i < charpos <= |code| && start0 <= start == done <= charpos
      ensures closed ==> charpos == done && inFstring
      ensures ComesTo(code, total, bodies, charpos, BehindCode(closed, done, context))
      decreases |code| - start0, 2
    {
      closed := false;
      match token {
        case Quote(_, _, _) =>
          start, charpos := ParseQuotes(token, start0, i, context, total);
        case Comment(_, _) =>
          charpos := ParseComment(token, start0, i, context, total);
          start := charpos;
        case Brace(_, end, brace) =>
          start, charpos := start0, end;
          BracePassed(code, total, bodies, i, token, context);
          if inFstring {
            Append(code[start..end], end);
            closed := brace == '}';
            if !closed {
              charpos := ParseCode(end, true, Nested(context), total);
            }
            start := charpos;
          }
      }
    }

    /** A run of quotes in code, and the string that it opens, if any. */
    method ParseQuotes(token: Token, start0: nat, i: nat, ghost context: Context, ghost total: Lexed)
      returns (start: int, charpos: int)
      requires Valid() && start0 == done <= i <= |code| && FindToken(CodePattern, code, i) == Some(token)
        && token.Quote?
      requires ComesTo(code, total, bodies, i, InCode(false, context))
      modifies this
      ensures Valid() && if charpos == -1 then done == |code|
        else i < charpos <= |code| && start0 <= start == done <= charpos
      ensures ComesTo(code, total, bodies, charpos, InCode(false, context))
      decreases |code| - start0, 1
    {
      var quote, end := OpeningQuotes(token);
      if quote == [] {
        QuotesPassed(code, total, bodies, i, token, context);
        return start0, token.end;
      }
      QuotesOpen(code, total, bodies, i, token, quote, end, context);
      charpos := ParseQuoted(quote, start0, end, token.start < token.quote, context, total);
      start := charpos;
    }

    method ParseQuoted(quoteType: string, start: nat, end: nat, isFstring: bool, ghost context: Context,
                       ghost total: Lexed)
      returns (charpos: int)
      requires Valid() && start == done < end <= |code| && IsQuoteType(quoteType)
      requires ComesTo(code, total, bodies, end, InsideOf(end, quoteType, isFstring, context))
      modifies this
      ensures Valid() && if charpos == -1 then done == |code| else end <= charpos == done
      ensures ComesTo(code, total, bodies, charpos, InCode(false, context))
      decreases |code| - start, 0
    {
      Append(code[start..end], end);
      charpos := ParseString(quoteType, end, isFstring, context, total);
    }

    /** The quotes that open a string at the end of a run of quotes, and where its body
        starts; none if the run is made up of empty strings. */
    method OpeningQuotes(token: Token) returns (quote: string, end: nat)
      requires token.Quote? && token.start <= |code| && MatchAt(CodePattern, code, token.start) == Some(token)
      ensures token.quote < token.end <= |code| && quote == TypeOpened(code[token.quote], token.end - token.quote)
      ensures quote != [] ==> IsQuoteType(quote) && token.quote < end == BodyStart(token.end, token.end - token.quote)
    {
      QuoteMatch(CodePattern, code, token);
      end := token.end;
      quote := code[token.quote..end];
      ghost var q, n := code[token.quote], end - token.quote;
      RunIsAlike(code, token.quote, end, q);
      if |quote| >= 6 {
        StartIsAlike(quote, n % 6, q);
        quote := quote[..|quote| % 6];
      }
      assert |quote| == n % 6;
      if quote != [] && |quote| != 2 {
        if |quote| > 3 {
          end := end - (|quote| - 3);
          StartIsAlike(quote, 3, q);
          quote := quote[..3];
        }
      } else {
        quote := [];
      }
      OpenedByLength(quote, q, n);
    }

    /** A comment: everything behind the `#` up to the end of the line. */
    method ParseComment(token: Token, start: nat, i: nat, ghost context: Context, ghost total: Lexed)
      returns (charpos: int)
      requires Valid() && start == done <= i <= |code| && FindToken(CodePattern, code, i) == Some(token)
        && token.Comment?
      requires ComesTo(code, total, bodies, i, InCode(false, context))
      modifies this
      ensures Valid() && if charpos == -1 then done == |code| else i < charpos == done
      ensures ComesTo(code, total, bodies, charpos, InCode(false, context))
    {
      var end := token.end;
      Append(code[start..end], end);
      var newline := FindNewline(code, end);
      var stop := if newline.Some? then newline.value else |code|;
      CommentTaken(code, total, bodies, i, token, newline, context);
      AppendNewLabel(code[end..stop], stop);
      charpos := if newline.Some? then stop else -1;
    }
  }

  function EndBody(code: string, start: nat, quote: int): seq<Span>
    requires quote >= -1
  {
    if quote == -1 then [Span(start, |code|)] else BodyOf(start, quote)
  }

  function EndOf(quoteType: string, quote: int): int {
    if quote == -1 then -1 else quote + |quoteType|
  }

  /** Behind a token of an f-string: code if the token has closed it. */
  function BehindToken(closed: bool, from: nat, quoteType: string, context: Context): Mode
    requires IsQuoteType(quoteType)
  {
    if closed then InCode(false, context) else InsideOf(from, quoteType, true, context)
  }

  /** Behind code: what the closing brace goes back to if there was one. */
  function BehindCode(closed: bool, i: nat, context: Context): Mode {
    if closed && context != TopLevel then Resumed(context, i) else InCode(false, context)
  }

  // ------------------------------------------------------------------ putting it back

  ghost predicate Stripped(code: string, prefix: string, pieces: seq<Piece>, bodies: seq<Span>,
                           newCode: seq<string>, literals: map<string, string>)
  {
    && Tiling(pieces, bodies, |code|) && AllRendered(code, prefix, pieces, newCode)
    && Tabled(code, prefix, bodies, literals)
  }

  /** The pieces from the `i`-th on, put together. */
  function Joined(newCode: seq<string>, i: nat): string
    requires i <= |newCode|
    decreases |newCode| - i
  {
    if i == |newCode| then [] else newCode[i] + Joined(newCode, i + 1)
  }

  /** All labels are in the table. */
  ghost predicate Known(pieces: seq<Piece>, newCode: seq<string>, literals: map<string, string>) {
    |pieces| == |newCode| && forall k :: 0 <= k < |pieces| && pieces[k].Label? ==> newCode[k] in literals
  }

  /** The pieces from the `i`-th on, with the literals put back for their labels. */
  ghost function Restored(pieces: seq<Piece>, newCode: seq<string>, literals: map<string, string>, i: nat): string
    requires Known(pieces, newCode, literals) && i <= |newCode|
    decreases |newCode| - i
  {
    if i == |newCode| then []
    else (if pieces[i].Text? then newCode[i] else literals[newCode[i]]) + Restored(pieces, newCode, literals, i + 1)
  }

  /** Where the `i`-th piece starts. */
  function StartOf(code: string, pieces: seq<Piece>, i: nat): nat
    requires i <= |pieces|
  {
    if i < |pieces| then pieces[i].lo else |code|
  }

  /** What the tiling says about a single piece. */
  lemma {:induction false} PieceAt(pieces: seq<Piece>, n: nat, bodies: seq<Span>, m: nat, done: nat, i: nat)
    requires n <= |pieces| && m <= |bodies| && Tiles(pieces, n, bodies, m, done) && i < n
    ensures pieces[i].lo <= pieces[i].hi == if i + 1 < n then pieces[i + 1].lo else done
    ensures pieces[i].Label? ==>
      0 < pieces[i].number <= m && bodies[pieces[i].number - 1] == Span(pieces[i].lo, pieces[i].hi)
    ensures pieces[0].lo == 0
  {
    var last := pieces[n - 1];
    if n > 1 {
      PieceAt(pieces, n - 1, bodies, if last.Text? then m else m - 1, last.lo, if i < n - 1 then i else n - 2);
    }
  }

  /** A piece renders its stretch of the source, by itself or as a label for it. */
  ghost predicate Placed(code: string, prefix: string, pieces: seq<Piece>, newCode: seq<string>,
                         literals: map<string, string>, i: nat)
    requires i < |pieces| == |newCode|
  {
    var piece := pieces[i];
    && piece.lo <= piece.hi == StartOf(code, pieces, i + 1) <= |code|
    && if piece.Text? then newCode[i] == code[piece.lo..piece.hi]
       else
         && newCode[i] == LabelOf(prefix, piece.number) && newCode[i] in literals
         && literals[newCode[i]] == code[piece.lo..piece.hi]
  }

  ghost predicate AllPlaced(code: string, prefix: string, pieces: seq<Piece>, newCode: seq<string>,
                            literals: map<string, string>) {
    |pieces| == |newCode| && forall i: nat :: i < |pieces| ==> Placed(code, prefix, pieces, newCode, literals, i)
  }

  lemma StrippedIsPlaced(code: string, prefix: string, pieces: seq<Piece>, bodies: seq<Span>, newCode: seq<string>,
                         literals: map<string, string>)
    requires Stripped(code, prefix, pieces, bodies, newCode, literals)
    ensures AllPlaced(code, prefix, pieces, newCode, literals) && StartOf(code, pieces, 0) == 0
  {
    forall i: nat | i < |pieces| ensures Placed(code, prefix, pieces, newCode, literals, i) {
      PieceAt(pieces, |pieces|, bodies, |bodies|, |code|, i);
      if pieces[i].Label? {
        assert IsLabel(prefix, bodies, newCode[i], pieces[i].number - 1);
      }
    }
    if pieces != [] {
      PieceAt(pieces, |pieces|, bodies, |bodies|, |code|, 0);
    }
  }

  lemma LabelsKnown(code: string, prefix: string, pieces: seq<Piece>, newCode: seq<string>,
                    literals: map<string, string>)
    requires AllPlaced(code, prefix, pieces, newCode, literals)
    ensures Known(pieces, newCode, literals)
  {
    forall k: nat | k < |pieces| && pieces[k].Label? ensures newCode[k] in literals {
      assert Placed(code, prefix, pieces, newCode, literals, k);
    }
  }

  lemma RestoredStep(code: string, prefix: string, pieces: seq<Piece>, newCode: seq<string>,
                     literals: map<string, string>, i: nat)
    requires Known(pieces, newCode, literals) && i < |pieces| && Placed(code, prefix, pieces, newCode, literals, i)
    ensures Restored(pieces, newCode, literals, i) ==
      code[pieces[i].lo..pieces[i].hi] + Restored(pieces, newCode, literals, i + 1)
  {
  }

  /** With the literals put back the pieces are the source. */
  lemma {:induction false} RestoredIsSource(code: string, prefix: string, pieces: seq<Piece>,
                                            newCode: seq<string>, literals: map<string, string>, i: nat)
    requires AllPlaced(code, prefix, pieces, newCode, literals) && Known(pieces, newCode, literals) && i <= |pieces|
    ensures StartOf(code, pieces, i) <= |code|
    ensures Restored(pieces, newCode, literals, i) == code[StartOf(code, pieces, i)..]
    decreases |pieces| - i
  {
    if i < |pieces| {
      RestoredIsSource(code, prefix, pieces, newCode, literals, i + 1);
      RestoredStep(code, prefix, pieces, newCode, literals, i);
      SplitAt(code, pieces[i].lo, pieces[i].hi);
    }
  }

  lemma SplitAt(code: string, lo: nat, hi: nat)
    requires Within(code, lo, hi)
    ensures code[lo..] == code[lo..hi] + code[hi..]
  {
  }

  // ------------------------------------------- putting it back into the mere text

  function DigitsEnd(text: string, i: nat): (e: nat)
    requires i <= |text|
    ensures i <= e <= |text|
    decreases |text| - i
  {
    if i < |text| && IsDigit(text[i]) then DigitsEnd(text, i + 1) else i
  }

  /** The length of the label that the text begins with, 0 if there is none. */
  function LabelLength(text: string, prefix: string): (n: nat)
    ensures n <= |text|
  {
    if !(prefix <= text) then 0
    else
      var e := DigitsEnd(text, |prefix|);
      if e < |text| && text[e] == '_' then e + 1 else 0
  }

  /** Replaces each label in a text by its literal, from left to right. */
  function Rebuild(text: string, prefix: string, literals: map<string, string>): string {
    if text == [] then []
    else
      var n := LabelLength(text, prefix);
      if n > 0 && text[..n] in literals then literals[text[..n]] + Rebuild(text[n..], prefix, literals)
      else [text[0]] + Rebuild(text[1..], prefix, literals)
  }

  predicate Occurs(prefix: string, code: string, i: nat) {
    i + |prefix| <= |code| && code[i..i + |prefix|] == prefix
  }

  /** The prefix cannot be mistaken: it is not in the source, and does not overlap itself. */
  ghost predicate Unmistakable(prefix: string, code: string) {
    && prefix != [] && (forall i: nat :: !Occurs(prefix, code, i))
    && forall m: nat :: !Overlaps(prefix, m)
  }

  predicate Overlaps(prefix: string, m: nat) {
    0 < m < |prefix| && prefix[..m] == prefix[|prefix| - m..]
  }

  /** Where a prefix begins in front of a label, it is in the source or overlaps that of the
      label. */
  lemma PrefixInside(code: string, lo: nat, hi: nat, rest: string, prefix: string)
    requires lo < hi <= |code| && (rest == [] || prefix <= rest)
    ensures prefix <= code[lo..hi] + rest ==> Occurs(prefix, code, lo) || Overlaps(prefix, |prefix| - (hi - lo))
  {
    var text, inside := code[lo..hi] + rest, hi - lo;
    if prefix <= text {
      assert prefix == text[..|prefix|];
      if |prefix| <= inside {
        assert text[..|prefix|] == code[lo..lo + |prefix|];
      } else {
        var m := |prefix| - inside;
        assert prefix[inside..] == text[inside..|prefix|] == rest[..m];
        assert rest[..m] == prefix[..m];
      }
    }
  }

  /** A label's prefix does not begin in front of the label. */
  lemma NoLabelInside(code: string, lo: nat, hi: nat, rest: string, prefix: string)
    requires lo < hi <= |code| && (rest == [] || prefix <= rest) && Unmistakable(prefix, code)
    ensures LabelLength(code[lo..hi] + rest, prefix) == 0
  {
    PrefixInside(code, lo, hi, rest, prefix);
  }

  lemma RebuildOne(text: string, prefix: string, literals: map<string, string>)
    requires text != [] && LabelLength(text, prefix) == 0
    ensures Rebuild(text, prefix, literals) == [text[0]] + Rebuild(text[1..], prefix, literals)
  {
  }

  lemma OneOff(code: string, lo: nat, hi: nat, rest: string)
    requires lo < hi <= |code|
    ensures (code[lo..hi] + rest)[0] == code[lo] && (code[lo..hi] + rest)[1..] == code[lo + 1..hi] + rest
    ensures code[lo..hi] + rest == [code[lo]] + (code[lo + 1..hi] + rest)
  {
  }

  lemma {:induction false} RebuildText(code: string, lo: nat, hi: nat, rest: string, prefix: string,
                                       literals: map<string, string>)
    requires lo <= hi <= |code| && Unmistakable(prefix, code)
    requires forall p :: lo <= p < hi ==> LabelLength(code[p..hi] + rest, prefix) == 0
    ensures Rebuild(code[lo..hi] + rest, prefix, literals) == code[lo..hi] + Rebuild(rest, prefix, literals)
    decreases hi - lo
  {
    if lo < hi {
      RebuildText(code, lo + 1, hi, rest, prefix, literals);
      RebuildOne(code[lo..hi] + rest, prefix, literals);
      OneOff(code, lo, hi, rest);
      OneOff(code, lo, hi, Rebuild(rest, prefix, literals));
    } else {
      assert code[lo..hi] + rest == rest;
    }
  }

  lemma {:induction false} DigitsEndThere(text: string, i: nat, e: nat)
    requires i <= e < |text| && (forall k :: i <= k < e ==> IsDigit(text[k])) && !IsDigit(text[e])
    ensures DigitsEnd(text, i) == e
    decreases e - i
  {
    if i < e {
      DigitsEndThere(text, i + 1, e);
    }
  }

  lemma RebuildLabel(prefix: string, number: nat, rest: string, literals: map<string, string>)
    requires LabelOf(prefix, number) in literals
    ensures Rebuild(LabelOf(prefix, number) + rest, prefix, literals) ==
      literals[LabelOf(prefix, number)] + Rebuild(rest, prefix, literals)
  {
    var name := LabelOf(prefix, number);
    var text := name + rest;
    DigitsAreDigits(number);
    assert forall k :: |prefix| <= k < |name| - 1 ==> text[k] == Digits(number)[k - |prefix|];
    DigitsEndThere(text, |prefix|, |name| - 1);
    assert prefix <= text && text[..|name|] == name && text[|name|..] == rest;
  }

  /** Up to the next label the text is source. */
  lemma {:induction false} ToNextLabel(code: string, prefix: string, pieces: seq<Piece>,
                                       newCode: seq<string>, literals: map<string, string>, i: nat)
    returns (hi: nat, rest: string)
    requires AllPlaced(code, prefix, pieces, newCode, literals) && i <= |pieces|
    ensures StartOf(code, pieces, i) <= hi <= |code| && (rest == [] || prefix <= rest)
    ensures Joined(newCode, i) == code[StartOf(code, pieces, i)..hi] + rest
    decreases |pieces| - i
  {
    hi, rest := StartOf(code, pieces, i), [];
    if i < |pieces| {
      assert Placed(code, prefix, pieces, newCode, literals, i);
      if pieces[i].Text? {
        hi, rest := ToNextLabel(code, prefix, pieces, newCode, literals, i + 1);
      } else {
        rest := Joined(newCode, i);
      }
    }
  }

  /** If the prefix cannot be mistaken, replacing the labels in the text gives the source. */
  lemma {:induction false} RebuiltIsSource(code: string, prefix: string, pieces: seq<Piece>,
                                           newCode: seq<string>, literals: map<string, string>, i: nat)
    requires AllPlaced(code, prefix, pieces, newCode, literals) && i <= |pieces| && Unmistakable(prefix, code)
    ensures StartOf(code, pieces, i) <= |code|
    ensures Rebuild(Joined(newCode, i), prefix, literals) == code[StartOf(code, pieces, i)..]
    decreases |pieces| - i
  {
    if i < |pieces| {
      var lo, hi := pieces[i].lo, pieces[i].hi;
      assert Placed(code, prefix, pieces, newCode, literals, i);
      RebuiltIsSource(code, prefix, pieces, newCode, literals, i + 1);
      var more := Joined(newCode, i + 1);
      if pieces[i].Text? {
        TextPassed(code, prefix, pieces, newCode, literals, i);
      } else {
        RebuildLabel(prefix, pieces[i].number, more, literals);
      }
      SplitAt(code, lo, hi);
    }
  }

  lemma TextPassed(code: string, prefix: string, pieces: seq<Piece>,
                   newCode: seq<string>, literals: map<string, string>, i: nat)
    requires AllPlaced(code, prefix, pieces, newCode, literals) && i < |pieces| && Unmistakable(prefix, code)
    requires pieces[i].Text?
    ensures Rebuild(Joined(newCode, i), prefix, literals) ==
      newCode[i] + Rebuild(Joined(newCode, i + 1), prefix, literals)
  {
    var lo, hi, more := pieces[i].lo, pieces[i].hi, Joined(newCode, i + 1);
    assert Placed(code, prefix, pieces, newCode, literals, i);
    var end, rest := ToNextLabel(code, prefix, pieces, newCode, literals, i + 1);
    forall p | lo <= p < hi ensures LabelLength(code[p..hi] + more, prefix) == 0 {
      assert code[p..hi] + more == code[p..end] + rest;
      NoLabelInside(code, p, end, rest, prefix);
    }
    RebuildText(code, lo, hi, more, prefix, literals);
  }

  const DEFAULT_PREFIX := "__Pyx_L"

  /** The default prefix cannot be mistaken unless it is in the source. */
  lemma DefaultPrefix(code: string)
    requires forall i: nat :: !Occurs(DEFAULT_PREFIX, code, i)
    ensures Unmistakable(DEFAULT_PREFIX, code)
  {
    var p := DEFAULT_PREFIX;
    forall m: nat ensures !Overlaps(p, m) {
      if 0 < m < |p| {
        assert p[|p| - m..][m - 1] == 'L' && p[..m][m - 1] != 'L';
      }
    }
  }

  /** Moves the literals of a source text out into labels.  The pieces, with the literals
      put back, are the source, whatever it is; and the literals are the bodies of its
      strings and comments, and the text of its f-strings around their fields. */
  method StripStringLiterals(code: string, prefix: string)
    returns (text: string, literals: map<string, string>,
             ghost pieces: seq<Piece>, ghost bodies: seq<Span>, ghost newCode: seq<string>)
    ensures Stripped(code, prefix, pieces, bodies, newCode, literals) && text == Joined(newCode, 0)
    ensures Known(pieces, newCode, literals) && Restored(pieces, newCode, literals, 0) == code
    ensures Unmistakable(prefix, code) ==> Rebuild(text, prefix, literals) == code
    ensures Lexed(bodies) == Lexical(code)
  {
    var stripper := new Stripper(code, prefix);
    var end := stripper.ParseCode(0, false, TopLevel, Lexical(code));
    text, literals := Joined(stripper.newCode, 0), stripper.literals;
    pieces, bodies, newCode := stripper.pieces, stripper.bodies, stripper.newCode;
    StrippedIsPlaced(code, prefix, pieces, bodies, newCode, literals);
    LabelsKnown(code, prefix, pieces, newCode, literals);
    RestoredIsSource(code, prefix, pieces, newCode, literals, 0);
    if Unmistakable(prefix, code) {
      RebuiltIsSource(code, prefix, pieces, newCode, literals, 0);
    }
  }
}

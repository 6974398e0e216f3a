/** The lexical rules for comments, string literals and f-strings, one character at a time,
    and how the tokens of the literal stripper take many of its steps at once. */
module StringLexer {
  import opened StringTokens

  datatype Span = Span(lo: nat, hi: nat)

  /** How many quotes open a string, and close it. */
  type Size = n: nat | n == 1 || n == 3 witness 1

  /** Where code stands: at the top level, in a replacement field of an f-string that itself
      stands in code, or between further braces in such a field. */
  datatype Context = TopLevel | Field(quote: char, size: Size, outer: Context) | Nested(outer: Context)

  /** In code, `f` says that an `f` stands directly before; in a string, `isF` says that it
      has replacement fields.  `from` is where the body that is being read begins. */
  datatype Mode =
    | InCode(f: bool, context: Context)
    | InComment(from: nat, context: Context)
    | InString(from: nat, quote: char, size: Size, isF: bool, context: Context)

  predicate Repeats(code: string, i: nat, c: char, n: nat) {
    i + n <= |code| && forall j :: i <= j < i + n ==> code[j] == c
  }

  /** The bodies of literals, in order. */
  datatype Lexed = Lexed(bodies: seq<Span>)

  function Behind(body: seq<Span>, rest: Lexed): Lexed {
    Lexed(body + rest.bodies)
  }

  /** A body, unless it is empty. */
  function BodyOf(start: nat, end: nat): seq<Span> {
    if start < end then [Span(start, end)] else []
  }

  /** What goes on behind the brace that ends the code. */
  function Resumed(context: Context, i: nat): Mode
    requires context != TopLevel
  {
    match context
    case Field(quote, size, outer) => InString(i, quote, size, true, outer)
    case Nested(outer) => InCode(false, outer)
  }

  /** Behind a backslash, which escapes the next character unless that is a brace. */
  function BehindEscape(code: string, i: nat, isF: bool): (e: nat)
    requires i < |code|
    ensures i < e <= |code|
  {
    if i + 1 == |code| || (isF && IsBrace(code[i + 1])) then i + 1 else i + 2
  }

  /** Behind six quotes: an `f` before them counts for more of the same quotes as well. */
  function BehindSix(code: string, i: nat, f: bool, quote: char, context: Context): Mode {
    InCode(f && i < |code| && code[i] == quote, context)
  }

  /** The bodies of the comments, of the strings that are not empty, and of the stretches of
      f-strings before, between and behind their replacement fields, from `i` on. */
  function Lex(code: string, i: nat, mode: Mode): Lexed
    requires i <= |code|
    decreases |code| - i
  {
    match mode
    case InCode(f, context) =>
      if i == |code| then Lexed([])
      else if code[i] == '#' then Lex(code, i + 1, InComment(i + 1, context))
      else if IsQuote(code[i]) then
        if Repeats(code, i, code[i], 6) then Lex(code, i + 6, BehindSix(code, i + 6, f, code[i], context))
        else if Repeats(code, i, code[i], 3) then Lex(code, i + 3, InString(i + 3, code[i], 3, f, context))
        else Lex(code, i + 1, InString(i + 1, code[i], 1, f, context))
      else if context != TopLevel && code[i] == '{' then Lex(code, i + 1, InCode(false, Nested(context)))
      else if context != TopLevel && code[i] == '}' then Lex(code, i + 1, Resumed(context, i + 1))
      else Lex(code, i + 1, InCode(code[i] == 'f', context))
    case InComment(from, context) =>
      if i == |code| then Lexed([Span(from, i)])
      else if code[i] == '\n' then Behind([Span(from, i)], Lex(code, i + 1, InCode(false, context)))
      else Lex(code, i + 1, mode)
    case InString(from, quote, size, isF, context) =>
      if i == |code| then Lexed([Span(from, i)])
      else if code[i] == '\\' then Lex(code, BehindEscape(code, i, isF), mode)
      else if isF && code[i] == '{' then
        if Repeats(code, i, '{', 2) then Lex(code, i + 2, mode)
        else Behind(BodyOf(from, i), Lex(code, i + 1, InCode(false, Field(quote, size, context))))
      else if Repeats(code, i, quote, size) then
        Behind(BodyOf(from, i), Lex(code, i + size, InCode(false, context)))
      else Lex(code, i + 1, mode)
  }

  /** The literals of a source text. */
  function Lexical(code: string): Lexed {
    Lex(code, 0, InCode(false, TopLevel))
  }

  // ------------------------------------------------------------- many steps at once

  predicate IsOrdinary(c: char) {
    c != '#' && !IsQuote(c) && !IsBrace(c)
  }

  /** The flag of code mode is for quotes only. */
  lemma FlagIsForQuotes(code: string, i: nat, f: bool, context: Context)
    requires i <= |code| && (i < |code| ==> !IsQuote(code[i]))
    ensures Lex(code, i, InCode(f, context)) == Lex(code, i, InCode(false, context))
  {
  }

  lemma {:induction false} SkipCode(code: string, i: nat, t: nat, f: bool, context: Context)
    requires i <= t <= |code| && forall j :: i <= j < t ==> IsOrdinary(code[j])
    ensures Lex(code, i, InCode(f, context)) ==
      Lex(code, t, InCode(if i < t then code[t - 1] == 'f' else f, context))
    decreases t - i
  {
    if i < t {
      SkipCode(code, i + 1, t, code[i] == 'f', context);
    }
  }

  lemma UnmatchedCode(code: string, i: nat)
    requires i < |code| && MatchAt(CodePattern, code, i).None?
    ensures IsOrdinary(code[i]) && (code[i] == 'f' ==> i + 1 == |code| || !IsQuote(code[i + 1]))
  {
  }

  /** Up to the next token of code nothing happens. */
  lemma ToCodeToken(code: string, i: nat, t: nat, context: Context)
    requires i <= t <= |code| && forall j :: i <= j < t ==> MatchAt(CodePattern, code, j).None?
    ensures Lex(code, i, InCode(false, context)) == Lex(code, t, InCode(false, context))
  {
    forall j | i <= j < t ensures IsOrdinary(code[j]) {
      UnmatchedCode(code, j);
    }
    SkipCode(code, i, t, false, context);
    if i < t {
      UnmatchedCode(code, t - 1);
      if code[t - 1] == 'f' {
        FlagIsForQuotes(code, t, true, context);
      }
    }
  }

  lemma {:induction false} SkipComment(code: string, i: nat, t: nat, from: nat, context: Context)
    requires i <= t <= |code| && forall j :: i <= j < t ==> code[j] != '\n'
    ensures Lex(code, i, InComment(from, context)) == Lex(code, t, InComment(from, context))
    decreases t - i
  {
    if i < t {
      SkipComment(code, i + 1, t, from, context);
    }
  }

  /** A comment ends before the next newline. */
  lemma CommentAt(code: string, i: nat, end: nat, context: Context)
    requires i < end <= |code| && code[i] == '#' && (end < |code| ==> code[end] == '\n')
    requires forall j :: i < j < end ==> code[j] != '\n'
    ensures Lex(code, i, InCode(false, context)) ==
      Behind([Span(i + 1, end)], Lex(code, end, InCode(false, context)))
  {
    SkipComment(code, i + 1, end, i + 1, context);
  }

  /** The scan behind a run of quotes of which `n` are left. */
  function AfterQuotes(code: string, e: nat, n: nat, q: char, f: bool, context: Context): Lexed
    requires n < 6 && n <= e <= |code|
  {
    if n == 0 || n == 2 then Lex(code, e, InCode(false, context))
    else if n == 1 then Lex(code, e, InString(e, q, 1, f, context))
    else Lex(code, e - (n - 3), InString(e - (n - 3), q, 3, f, context))
  }

  lemma BehindNothing(rest: Lexed)
    ensures Behind([], rest) == rest
  {
  }

  lemma FewQuotes(code: string, i: nat, e: nat, q: char, f: bool, context: Context)
    requires IsQuote(q) && i < e && IsRun(code, i, e, q) && e - i < 6
    ensures Lex(code, i, InCode(f, context)) == AfterQuotes(code, e, e - i, q, f, context)
  {
    NotRepeated(code, i, q, 6, e);
    if e - i >= 3 {
      assert Repeats(code, i, q, 3);
    } else {
      NotRepeated(code, i, q, 3, e);
      if e - i == 2 {
        assert Repeats(code, i + 1, q, 1) && code[i + 1] == q;
        BehindNothing(Lex(code, e, InCode(false, context)));
      }
    }
  }

  /** What a run of quotes opens: empty strings are passed over, and what is left is one
      quote, or three of which the last ones may belong to the body. */
  lemma {:induction false} QuotesInCode(code: string, i: nat, e: nat, q: char, f: bool, context: Context)
    requires IsQuote(q) && i < e && IsRun(code, i, e, q)
    ensures Lex(code, i, InCode(f, context)) == AfterQuotes(code, e, (e - i) % 6, q, f, context)
    decreases e - i
  {
    if e - i >= 6 {
      assert Repeats(code, i, q, 6) && code[i] == q;
      if i + 6 < e {
        QuotesInCode(code, i + 6, e, q, f, context);
      }
      assert (e - i) % 6 == (e - (i + 6)) % 6;
    } else {
      FewQuotes(code, i, e, q, f, context);
    }
  }

  lemma NotRepeated(code: string, i: nat, c: char, n: nat, k: nat)
    requires i <= k < i + n && (k < |code| ==> code[k] != c)
    ensures !Repeats(code, i, c, n)
  {
  }

  // ------------------------------------------------------------------ inside a string

  function StringTokensOf(isF: bool): Pattern {
    if isF then FStringPattern else StringPattern
  }

  /** A character in a string that has no part in any token there. */
  predicate Inner(code: string, i: nat, quote: char, size: Size, isF: bool) {
    i < |code| && code[i] != '\\' && !(isF && code[i] == '{') && !Repeats(code, i, quote, size)
  }

  lemma {:induction false} SkipInner(code: string, i: nat, t: nat, m: Mode)
    requires i <= t <= |code| && m.InString? && forall j :: i <= j < t ==> Inner(code, j, m.quote, m.size, m.isF)
    ensures Lex(code, i, m) == Lex(code, t, m)
    decreases t - i
  {
    if i < t {
      assert Inner(code, i, m.quote, m.size, m.isF);
      SkipInner(code, i + 1, t, m);
    }
  }

  /** A character in a string that starts no token, except that it may be the `f` of one. */
  predicate Unmatched(code: string, i: nat, isF: bool) {
    i < |code| && (MatchAt(StringTokensOf(isF), code, i).None? || code[i] == 'f')
  }

  /** A quote, backslashes before a quote, or a brace in an f-string. */
  predicate Matters(code: string, i: nat, isF: bool) {
    && i < |code|
    && (IsQuote(code[i]) || (isF && IsBrace(code[i]))
        || (code[i] == '\\' && MatchAt(StringTokensOf(isF), code, i).Some?))
  }

  /** Up to the next token in a string nothing happens: the backslashes on the way escape
      something that is no quote. */
  lemma {:induction false} ToStringToken(code: string, i: nat, t: nat, m: Mode)
    requires i <= t <= |code| && m.InString? && IsQuote(m.quote)
    requires forall j :: i <= j < t ==> Unmatched(code, j, m.isF)
    requires t < |code| ==> Matters(code, t, m.isF)
    ensures Lex(code, i, m) == Lex(code, t, m)
    decreases t - i
  {
    if i < t {
      assert Unmatched(code, i, m.isF);
      if code[i] == '\\' {
        BackslashBefore(code, i, t, m.isF);
        ToStringToken(code, BehindEscape(code, i, m.isF), t, m);
      } else {
        NotRepeated(code, i, m.quote, m.size, i);
        ToStringToken(code, i + 1, t, m);
      }
    }
  }

  /** A backslash outside of all tokens is not the last character before a token, unless
      that is a brace. */
  lemma BackslashBefore(code: string, i: nat, t: nat, isF: bool)
    requires i < t <= |code| && code[i] == '\\' && Unmatched(code, i, isF)
    requires t < |code| ==> Matters(code, t, isF)
    ensures BehindEscape(code, i, isF) <= t
  {
    assert RunEnd(code, i, '\\') == RunEnd(code, i + 1, '\\');
  }

  /** A run of backslashes before a quote: the quote is escaped if their number is odd. */
  lemma {:induction false} EscapesInString(code: string, i: nat, e: nat, m: Mode)
    requires i <= e < |code| && m.InString? && IsQuote(code[e]) && forall j :: i <= j < e ==> code[j] == '\\'
    ensures Lex(code, i, m) == Lex(code, if (e - i) % 2 == 0 then e else e + 1, m)
    decreases e - i
  {
    if e - i >= 2 {
      assert BehindEscape(code, i, m.isF) == i + 2;
      EscapesInString(code, i + 2, e, m);
    } else if e - i == 1 {
      assert BehindEscape(code, i, m.isF) == i + 2;
    }
  }

  /** A run of quotes that does not end the string. */
  lemma QuotesInside(code: string, i: nat, e: nat, c: char, m: Mode)
    requires i <= |code| && IsRun(code, i, e, c) && IsQuote(c) && m.InString?
    requires c != m.quote || e - i < m.size
    ensures Lex(code, i, m) == Lex(code, e, m)
  {
    forall j | i <= j < e ensures Inner(code, j, m.quote, m.size, m.isF) {
      NotRepeated(code, j, m.quote, m.size, if c != m.quote then j else e);
    }
    SkipInner(code, i, e, m);
  }

  /** A run of quotes that ends the string. */
  lemma QuotesEnd(code: string, i: nat, m: Mode)
    requires i < |code| && m.InString? && Repeats(code, i, m.quote, m.size) && IsQuote(m.quote)
    ensures Lex(code, i, m) == Behind(BodyOf(m.from, i), Lex(code, i + m.size, InCode(false, m.context)))
  {
    assert code[i] == m.quote;
  }

  /** What a run of braces comes to in an f-string: the last of an odd number of opening
      ones begins a replacement field, all others are text. */
  lemma {:induction false} BracesInString(code: string, i: nat, e: nat, brace: char, m: Mode)
    requires i <= |code| && IsRun(code, i, e, brace) && IsBrace(brace)
    requires m.InString? && m.isF && IsQuote(m.quote)
    ensures Lex(code, i, m) ==
      if brace == '{' && (e - i) % 2 == 1
        then Behind(BodyOf(m.from, e - 1), Lex(code, e, InCode(false, Field(m.quote, m.size, m.context))))
      else Lex(code, e, m)
    decreases e - i
  {
    if brace == '}' && i < e {
      NotRepeated(code, i, m.quote, m.size, i);
      BracesInString(code, i + 1, e, brace, m);
    } else if e - i >= 2 {
      assert Repeats(code, i, '{', 2);
      BracesInString(code, i + 2, e, brace, m);
    } else if e - i == 1 {
      NotRepeated(code, i, '{', 2, e);
    }
  }
}

/** The three token patterns of the literal stripper, as leftmost searches. */
module StringTokens {
  import opened Wrappers

  datatype Pattern = CodePattern | StringPattern | FStringPattern

  /** What a search found from `start` to `end`. */
  datatype Token =
    | Comment(start: nat, end: nat)
    | Brace(start: nat, end: nat, brace: char)
    | Braces(start: nat, end: nat, brace: char)
    | Escape(start: nat, end: nat)
    | Quote(start: nat, end: nat, quote: nat)

  predicate IsQuote(c: char) {
    c == '\'' || c == '"'
  }

  predicate IsBrace(c: char) {
    c == '{' || c == '}'
  }

  /** The end of the run of `c` that starts at `pos`. */
  function RunEnd(code: string, pos: nat, c: char): (e: nat)
    requires pos <= |code|
    ensures IsRun(code, pos, e, c)
    decreases |code| - pos
  {
    if pos < |code| && code[pos] == c then RunEnd(code, pos + 1, c) else pos
  }

  predicate IsRun(code: string, pos: nat, e: nat, c: char) {
    && pos <= e <= |code|
    && (forall i :: pos <= i < e ==> code[i] == c)
    && (e < |code| ==> code[e] != c)
  }

  function MatchAt(p: Pattern, code: string, pos: nat): (t: Option<Token>)
    requires pos <= |code|
    ensures t.Some? ==> t.value.start == pos < t.value.end <= |code|
  {
    if pos == |code| then None
    else
      var c := code[pos];
      if p == CodePattern && c == '#' then Some(Comment(pos, pos + 1))
      else if p == CodePattern && IsBrace(c) then Some(Brace(pos, pos + 1, c))
      else if p == FStringPattern && IsBrace(c) then Some(Braces(pos, RunEnd(code, pos, c), c))
      else if p != CodePattern && c == '\\' then
        var e := RunEnd(code, pos, c);
        if e < |code| && IsQuote(code[e]) then Some(Escape(pos, e + 1)) else None
      else if c == 'f' && pos + 1 < |code| && IsQuote(code[pos + 1]) then
        Some(Quote(pos, RunEnd(code, pos + 1, code[pos + 1]), pos + 1))
      else if IsQuote(c) then Some(Quote(pos, RunEnd(code, pos, c), pos))
      else None
  }

  /** The leftmost match from `pos` on. */
  function FindToken(p: Pattern, code: string, pos: nat): (t: Option<Token>)
    requires pos <= |code|
    ensures t.Some? ==> pos <= t.value.start < t.value.end <= |code|
    ensures t.Some? ==> t == MatchAt(p, code, t.value.start)
    ensures forall i :: pos <= i < (if t.Some? then t.value.start else |code|) ==> MatchAt(p, code, i).None?
    decreases |code| - pos
  {
    if MatchAt(p, code, pos).Some? then MatchAt(p, code, pos)
    else if pos == |code| then None
    else FindToken(p, code, pos + 1)
  }

  /** The first newline from `pos` on. */
  function FindNewline(code: string, pos: nat): (r: Option<nat>)
    requires pos <= |code|
    ensures r.Some? ==> pos <= r.value < |code| && code[r.value] == '\n'
    ensures forall i :: pos <= i < (if r.Some? then r.value else |code|) ==> code[i] != '\n'
    decreases |code| - pos
  {
    if pos == |code| then None
    else if code[pos] == '\n' then Some(pos)
    else FindNewline(code, pos + 1)
  }
}

/** The token stream the parser reads, as a finite token sequence and a
    position into it, and the token-kind constant sets of the parser. The
    lexer that produces the tokens is not part of this model. */
module TokenStream {
  import opened Results

  /** A lexical token. Kinds are the lexer's names (`name`, `integer`,
      `block_begin`, `for`, `endfor`, ...); `value` is the token's text. */
  datatype Token = Token(kind: string, value: string, line: int)

  /** Kinds that end a statement (`statement_end_tokens`). */
  const StatementEndTokens: set<string> := {"variable_end", "block_end", "in"}

  /** Statement keywords dispatched to their own production. */
  const StatementKeywords: set<string> :=
    {"for", "if", "block", "extends", "print", "macro", "include", "from", "import"}

  /** Single-token comparison operators; `not in` is recognised separately. */
  const CompareOperators: set<string> := {"eq", "ne", "lt", "lteq", "gt", "gteq", "in"}

  /** Kinds that start the single argument of a test written without parentheses. */
  const TestArgumentStarts: set<string> :=
    {"name", "string", "integer", "float", "lparen", "lbracket", "lbrace", "regex"}

  /** Kinds at which a tuple expression stops before parsing an element. */
  const TupleEdgeTokens: set<string> := {"rparen"} + StatementEndTokens

  /** The line the end-of-input token reports: that of the last token, or 1. */
  function EofLine(toks: seq<Token>): int
  {
    if |toks| == 0 then 1 else toks[|toks| - 1].line
  }

  /** `stream.current`: past the end of the sequence this is an `eof` token. */
  function Current(toks: seq<Token>, pos: nat): (t: Token)
    ensures pos < |toks| ==> t == toks[pos]
    ensures pos >= |toks| ==> t.kind == "eof"
  {
    if pos < |toks| then toks[pos] else Token("eof", "", EofLine(toks))
  }

  function Kind(toks: seq<Token>, pos: nat): string
  {
    Current(toks, pos).kind
  }

  function Line(toks: seq<Token>, pos: nat): int
  {
    Current(toks, pos).line
  }

  /** `stream.next()`: advances by one token, except at an `eof` token. */
  function Next(toks: seq<Token>, pos: nat): (p: nat)
    requires pos <= |toks|
    ensures p <= |toks|
    ensures Kind(toks, pos) != "eof" <==> p == pos + 1
    ensures Kind(toks, pos) == "eof" <==> p == pos
  {
    if pos < |toks| && toks[pos].kind != "eof" then pos + 1 else pos
  }

  /** `stream.expect(kind)`: consumes the current token if it has that kind,
      and otherwise fails with an unexpected-token error at its line. */
  function Expect(toks: seq<Token>, pos: nat, kind: string): (r: Result<Parsed<Token>>)
    requires pos <= |toks|
    ensures r.Ok? <==> Kind(toks, pos) == kind
    ensures r.Ok? ==> r.value.val == Current(toks, pos) && r.value.pos == Next(toks, pos)
    ensures r.Ok? && kind != "eof" ==> pos < |toks| && r.value.pos == pos + 1
    ensures r.Err? ==> r.error == Syntax(UnexpectedToken, Line(toks, pos))
  {
    if Kind(toks, pos) == kind then Ok(Parsed(Current(toks, pos), Next(toks, pos)))
    else Err(Syntax(UnexpectedToken, Line(toks, pos)))
  }

  /** `if <required>: stream.expect(kind)`: the separator check of the
      parser's list loops; the result is the position after it. */
  function ExpectWhen(toks: seq<Token>, pos: nat, required: bool, kind: string): (r: Result<nat>)
    requires pos <= |toks|
    ensures !required ==> r == Ok(pos)
    ensures required ==> (r.Ok? <==> Kind(toks, pos) == kind)
    ensures r.Ok? ==> pos <= r.value <= |toks|
    ensures required && r.Ok? && kind != "eof" ==> r.value == pos + 1
    ensures r.Err? ==> r.error == Syntax(UnexpectedToken, Line(toks, pos))
  {
    if !required then Ok(pos)
    else
      var t :- Expect(toks, pos, kind);
      Ok(t.pos)
  }

  /** `stream.current.test('name:<value>')`: a name token with that text. */
  predicate IsNameToken(toks: seq<Token>, pos: nat, value: string)
  {
    Kind(toks, pos) == "name" && Current(toks, pos).value == value
  }

  /** `stream.expect('name:<value>')`: consumes a name token with that text;
      the result is the position after it. */
  function ExpectName(toks: seq<Token>, pos: nat, value: string): (r: Result<nat>)
    requires pos <= |toks|
    ensures r.Ok? <==> IsNameToken(toks, pos, value)
    ensures r.Ok? ==> pos < |toks| && r.value == pos + 1
    ensures r.Err? ==> r.error == Syntax(UnexpectedToken, Line(toks, pos))
  {
    if IsNameToken(toks, pos, value) then Ok(pos + 1)
    else Err(Syntax(UnexpectedToken, Line(toks, pos)))
  }
}

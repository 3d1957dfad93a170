/** The token runs the parser reads (operands of a binary level, `~`
    operands, comparison steps, tuple elements, comma- and keyword-separated
    productions, filter chains and template bodies), as reference
    definitions kept apart from the lemmas about them. */
module RunShapes {
  import opened Results
  import opened TokenStream
  import opened Nodes
  import opened CallOrder
  import opened Expressions
  import opened Statements

  /** From `pos` the tokens hold the operands `es` of level `op`, one after
      another with the level's operator between them; the last operand
      ends at `end`. */
  predicate OperandRun(toks: seq<Token>, pos: nat, op: BinOp, es: seq<Expr>, end: nat)
    decreases |es|
  {
    && |es| >= 1 && pos <= |toks|
    && var o := ParseOperand(toks, pos, op);
       && o.Ok? && o.value.val == es[0]
       && if |es| == 1 then o.value.pos == end
          else Kind(toks, o.value.pos) == OpToken(op) && OperandRun(toks, o.value.pos + 1, op, es[1..], end)
  }

  /** From `pos` the tokens hold the multiplicative operands `es`
      separated by `~`; the last one ends at `end`. */
  predicate ConcatRun(toks: seq<Token>, pos: nat, es: seq<Expr>, end: nat)
    decreases |es|
  {
    && |es| >= 1 && pos <= |toks|
    && var o := ParseBinary(toks, pos, Mul);
       && o.Ok? && o.value.val == es[0]
       && if |es| == 1 then o.value.pos == end
          else Kind(toks, o.value.pos) == "tilde" && ConcatRun(toks, o.value.pos + 1, es[1..], end)
  }

  /** From `pos` the tokens hold the comparison steps `ops` (operator and
      operand each), and no further operator follows at `end`. */
  predicate StepRun(toks: seq<Token>, pos: nat, ops: seq<Operand>, end: nat)
    decreases |ops|
  {
    && pos <= |toks|
    && if |ops| == 0 then end == pos && !CompareAt(toks, pos)
       else
         && CompareAt(toks, pos)
         && var s := CompareStep(toks, pos);
            s.Ok? && s.value.val == ops[0] && StepRun(toks, s.value.pos, ops[1..], end)
  }

  /** From `pos` the tokens hold the tuple elements `es` separated by
      commas, none of them starting at an edge token; the last one ends at
      `end`. */
  predicate ElementRun(toks: seq<Token>, pos: nat, mode: TupleMode, es: seq<Expr>, end: nat)
    decreases |es|
  {
    && |es| >= 1 && pos <= |toks| && Kind(toks, pos) !in TupleEdgeTokens
    && var e := ParseElement(toks, pos, mode);
       && e.Ok? && e.value.val == es[0]
       && if |es| == 1 then e.value.pos == end
          else Kind(toks, e.value.pos) == "comma" && ElementRun(toks, e.value.pos + 1, mode, es[1..], end)
  }

  /** Where a run of elements leaves the stream: one trailing comma is
      consumed. */
  function AfterRun(toks: seq<Token>, end: nat): nat
  {
    if Kind(toks, end) == "comma" then end + 1 else end
  }

  /** The token at `end` closes a display, possibly after one trailing comma. */
  predicate ClosedBy(toks: seq<Token>, end: nat, close: string)
  {
    Kind(toks, end) == close || (Kind(toks, end) == "comma" && Kind(toks, end + 1) == close)
  }

  /** From `pos` the tokens hold `vals[0] if tests[0] else vals[1] if
      tests[1] else ... vals[n]`, each value and test an `or` expression;
      the last value ends at `end`, where no further `if` follows. */
  predicate CondRun(toks: seq<Token>, pos: nat, vals: seq<Expr>, tests: seq<Expr>, end: nat)
    decreases |tests|
  {
    && |vals| == |tests| + 1 && pos <= |toks|
    && var v := ParseBinary(toks, pos, Or);
       && v.Ok? && v.value.val == vals[0]
       && if |tests| == 0 then v.value.pos == end && Kind(toks, end) != "if"
          else
            && Kind(toks, v.value.pos) == "if"
            && var t := ParseBinary(toks, v.value.pos + 1, Or);
               && t.Ok? && t.value.val == tests[0] && Kind(toks, t.value.pos) == "else"
               && CondRun(toks, t.value.pos + 1, vals[1..], tests[1..], end)
  }

  /** From `pos` the tokens hold call arguments of kinds `kinds`, written
      with the leading tokens `keys` (the name of a keyword argument), whose
      expressions are `es`, separated by commas; the last ends at `end`. */
  predicate ArgRun(toks: seq<Token>, pos: nat, kinds: seq<ArgKind>, keys: seq<string>, es: seq<Expr>, end: nat)
    decreases |es|
  {
    && |es| >= 1 && |kinds| == |es| && |keys| == |es| && pos <= |toks|
    && Kind(toks, pos) != "rparen" && ArgKindAt(toks, pos) == kinds[0] && Current(toks, pos).value == keys[0]
    && ArgStart(pos, kinds[0]) <= |toks|
    && var e := ParseExpression(toks, ArgStart(pos, kinds[0]), false);
       && e.Ok? && e.value.val == es[0]
       && if |es| == 1 then e.value.pos == end
          else Kind(toks, e.value.pos) == "comma" && ArgRun(toks, e.value.pos + 1, kinds[1..], keys[1..], es[1..], end)
  }

  /** From `pos` the tokens hold the expressions `es` separated by commas,
      none of them starting at a token of `stop`; the last ends at `end`. */
  predicate ExprRun(toks: seq<Token>, pos: nat, stop: set<string>, es: seq<Expr>, end: nat)
    decreases |es|
  {
    && |es| >= 1 && pos <= |toks| && Kind(toks, pos) !in stop
    && var e := ParseExpression(toks, pos, false);
       && e.Ok? && e.value.val == es[0]
       && if |es| == 1 then e.value.pos == end
          else Kind(toks, e.value.pos) == "comma" && ExprRun(toks, e.value.pos + 1, stop, es[1..], end)
  }

  /** From `pos` the tokens hold the `key: value` pairs `ps` separated by
      commas, none of them starting at `}`; the last ends at `end`. */
  predicate PairRun(toks: seq<Token>, pos: nat, ps: seq<Pair>, end: nat)
    decreases |ps|
  {
    && |ps| >= 1 && pos <= |toks| && Kind(toks, pos) != "rbrace"
    && var k := ParseExpression(toks, pos, false);
       && k.Ok? && k.value.val == ps[0].key && Kind(toks, k.value.pos) == "colon"
       && var v := ParseExpression(toks, k.value.pos + 1, false);
          && v.Ok? && v.value.val == ps[0].value
          && if |ps| == 1 then v.value.pos == end
             else Kind(toks, v.value.pos) == "comma" && PairRun(toks, v.value.pos + 1, ps[1..], end)
  }

  /** The pairs `ps` run from `pos` to `end`, where the dict is closed. */
  predicate DictRun(toks: seq<Token>, pos: nat, ps: seq<Pair>, end: nat)
  {
    PairRun(toks, pos, ps, end) && ClosedBy(toks, end, "rbrace")
  }

  /** From `pos` the tokens hold the arms `bs`, each a test and a body up
      to `elif`, `else` or `endif`, the arms separated by `elif`; the last
      body ends at `end`, where no `elif` follows. */
  predicate ArmRun(toks: seq<Token>, pos: nat, bs: seq<Branch>, end: nat)
    decreases |bs|
  {
    && |bs| >= 1 && pos <= |toks|
    && var t := ParseTuple(toks, pos, Full);
       && t.Ok? && t.value.val == bs[0].test
       && var b := ParseStatements(toks, t.value.pos, {"elif", "else", "endif"}, false);
          && b.Ok? && b.value.val == bs[0].body
          && if |bs| == 1 then b.value.pos == end && Kind(toks, end) != "elif"
             else Kind(toks, b.value.pos) == "elif" && ArmRun(toks, b.value.pos + 1, bs[1..], end)
  }

  /** A filter as written in a chain: its name and its arguments. */
  datatype FilterApp = FilterApp(name: string, args: Args)

  /** From `pos` the tokens hold `| name` or `| name(args)` once for each
      entry of `fs`, in order; the chain ends at `end`, where no `|`
      follows. */
  predicate FilterRun(toks: seq<Token>, pos: nat, fs: seq<FilterApp>, end: nat)
    decreases |fs|
  {
    if |fs| == 0 then pos == end && Kind(toks, end) != "pipe"
    else
      && Kind(toks, pos) == "pipe" && Kind(toks, pos + 1) == "name"
      && Current(toks, pos + 1).value == fs[0].name
      && if Kind(toks, pos + 2) == "lparen" then
           var a := ParseCallArgs(toks, pos + 2);
           a.Ok? && a.value.val.args == fs[0].args && FilterRun(toks, a.value.pos, fs[1..], end)
         else
           fs[0].args == NoArgs && FilterRun(toks, pos + 2, fs[1..], end)
  }

  /** `node` under the filters `fs`, the first of them innermost. */
  function Layers(node: Expr, fs: seq<FilterApp>): Expr
    decreases |fs|
  {
    if |fs| == 0 then node else Layers(Filter(Some(node), fs[0].name, fs[0].args), fs[1..])
  }

  /** One piece of a template body as `subparse` meets it: a data token,
      a `{{ ... }}` whose expression ends at `close` (the `}}`), or a
      `{% ... %}` whose statement ends at `close` (the `%}`). */
  datatype Chunk = Text(value: string) | Echo(expr: Expr, close: nat) | Tag(stmt: Stmt, close: nat)

  /** The tokens at `pos` hold the chunk `c`. */
  predicate ChunkAt(toks: seq<Token>, pos: nat, end: Option<set<string>>, c: Chunk)
  {
    match c
    case Text(v) => Kind(toks, pos) == "data" && Current(toks, pos).value == v
    case Echo(e, q) =>
      && Kind(toks, pos) == "variable_begin" && ParseTuple(toks, pos + 1, Full) == Ok(Parsed(e, q))
      && Kind(toks, q) == "variable_end"
    case Tag(st, q) =>
      && Kind(toks, pos) == "block_begin" && !(end.Some? && Kind(toks, pos + 1) in end.value)
      && ParseStatement(toks, pos + 1) == Ok(Parsed(st, q))
      && Kind(toks, q) == "block_end"
  }

  /** The position after the chunk `c` that starts at `pos`. */
  function ChunkEnd(pos: nat, c: Chunk): nat
  {
    match c
    case Text(_) => pos + 1
    case Echo(_, q) => q + 1
    case Tag(_, q) => q + 1
  }

  /** From `pos` the tokens hold the chunks `cs` in order, and the body
      ends at `stop`. No tag among them starts with an end keyword. */
  predicate ChunkRun(toks: seq<Token>, pos: nat, end: Option<set<string>>, cs: seq<Chunk>, stop: nat)
    decreases |cs|
  {
    if |cs| == 0 then pos == stop
    else ChunkAt(toks, pos, end, cs[0]) && ChunkRun(toks, ChunkEnd(pos, cs[0]), end, cs[1..], stop)
  }

  /** The output statement a non-empty buffer becomes. */
  function OutputOf(buf: seq<Expr>): seq<Stmt>
  {
    if |buf| == 0 then [] else [Output(buf)]
  }

  /** The statements a chunk completes after the buffered nodes `buf`: a
      statement ends the Output before it. */
  function Emitted(c: Chunk, buf: seq<Expr>): seq<Stmt>
  {
    match c
    case Tag(st, _) => OutputOf(buf) + [st]
    case _ => []
  }

  /** The buffer after a chunk: data and `{{ ... }}` expressions join it,
      a statement empties it. */
  function Buffered(c: Chunk, buf: seq<Expr>): seq<Expr>
  {
    match c
    case Text(v) => if v != "" then buf + [Const(LToken(v))] else buf
    case Echo(e, _) => buf + [e]
    case Tag(_, _) => []
  }

  /** The statements the chunks `cs` make after the buffered nodes `buf`. */
  function Layout(cs: seq<Chunk>, buf: seq<Expr>): seq<Stmt>
    decreases |cs|
  {
    if |cs| == 0 then OutputOf(buf)
    else Emitted(cs[0], buf) + Layout(cs[1..], Buffered(cs[0], buf))
  }
}

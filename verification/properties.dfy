/** Properties of the parser stated against independent reference
    definitions: what a run of operands, tuple elements, comparison steps
    or template data parses to, and the shape of an `if`/`elif` chain. */
module Properties {
  import opened Results
  import opened TokenStream
  import opened Nodes
  import opened Expressions
  import opened Statements
  import opened CallOrder
  import opened RunShapes

  /** Moving the head of `b` onto the end of `a`. */
  lemma AppendHead<T>(a: seq<T>, b: seq<T>)
    requires |b| > 0
    ensures a + [b[0]] + b[1..] == a + b
  {
    assert [b[0]] + b[1..] == b;
  }

  lemma AppendAssoc<T>(a: seq<T>, b: seq<T>, c: seq<T>)
    ensures a + b + c == a + (b + c)
  {
  }

  lemma AppendEmpty<T>(a: seq<T>)
    ensures a + [] == a && [] + a == a
  {
  }

  // ---------------------------------------------------------------------
  // Binary levels are left-associative

  /** Combines `acc` with the operands in `rest` from the left. */
  function FoldLeft(op: BinOp, acc: Expr, rest: seq<Expr>): Expr
    decreases |rest|
  {
    if |rest| == 0 then acc else FoldLeft(op, Binary(op, acc, rest[0]), rest[1..])
  }

  /** The last operand of a left fold is the right child of the root. */
  lemma {:induction false} FoldLeftLast(op: BinOp, acc: Expr, rest: seq<Expr>, b: Expr)
    ensures FoldLeft(op, acc, rest + [b]) == Binary(op, FoldLeft(op, acc, rest), b)
    decreases |rest|
  {
    if |rest| > 0 {
      assert (rest + [b])[1..] == rest[1..] + [b];
      FoldLeftLast(op, Binary(op, acc, rest[0]), rest[1..], b);
    }
  }

  lemma {:induction false} BinTailRun(toks: seq<Token>, pos: nat, op: BinOp, left: Expr, rest: seq<Expr>, end: nat)
    requires pos <= |toks| && LoadOnly(left) && Kind(toks, pos) == OpToken(op)
    requires OperandRun(toks, pos + 1, op, rest, end) && Kind(toks, end) != OpToken(op)
    ensures BinTail(toks, pos, op, left) == Ok(Parsed(FoldLeft(op, left, rest), end))
    decreases |rest|
  {
    var o := ParseOperand(toks, pos + 1, op);
    var next := Binary(op, left, rest[0]);
    if |rest| > 1 {
      BinTailRun(toks, o.value.pos, op, next, rest[1..], end);
    }
  }

  /** A level's operands separated by its operator parse to their left
      fold: `a op b op c` is `(a op b) op c`. */
  lemma BinaryLeftAssoc(toks: seq<Token>, pos: nat, op: BinOp, es: seq<Expr>, end: nat)
    requires OperandRun(toks, pos, op, es, end) && Kind(toks, end) != OpToken(op)
    ensures ParseBinary(toks, pos, op) == Ok(Parsed(FoldLeft(op, es[0], es[1..]), end))
  {
    var o := ParseOperand(toks, pos, op);
    if |es| > 1 {
      BinTailRun(toks, o.value.pos, op, es[0], es[1..], end);
    }
  }

  /** One operand and no operator: the operand itself. */
  lemma SingleOperand(toks: seq<Token>, pos: nat, op: BinOp, a: Expr, q: nat)
    requires pos <= |toks| && ParseOperand(toks, pos, op) == Ok(Parsed(a, q)) && Kind(toks, q) != OpToken(op)
    ensures ParseBinary(toks, pos, op) == Ok(Parsed(a, q))
  {
    assert OperandRun(toks, pos, op, [a], q);
    BinaryLeftAssoc(toks, pos, op, [a], q);
  }

  /** Two operands and one operator: one Binary node. */
  lemma TwoOperands(toks: seq<Token>, pos: nat, op: BinOp, a: Expr, q1: nat, b: Expr, q2: nat)
    requires pos <= |toks| && ParseOperand(toks, pos, op) == Ok(Parsed(a, q1)) && Kind(toks, q1) == OpToken(op)
    requires ParseOperand(toks, q1 + 1, op) == Ok(Parsed(b, q2)) && Kind(toks, q2) != OpToken(op)
    ensures ParseBinary(toks, pos, op) == Ok(Parsed(Binary(op, a, b), q2))
  {
    assert [a, b][1..] == [b] && [b][1..] == [];
    assert OperandRun(toks, q1 + 1, op, [b], q2);
    assert OperandRun(toks, pos, op, [a, b], q2);
    BinaryLeftAssoc(toks, pos, op, [a, b], q2);
  }

  /** The level whose operands a binary level is built from, when that is
      itself a binary level: `or` over `and`, `+` over `-`, and `*` over
      `/` over `//` over `%` over `**`. */
  function InnerLevel(o: BinOp): Option<BinOp>
  {
    match o
    case Or => Some(And)
    case Add => Some(Sub)
    case Mul => Some(Div)
    case Div => Some(FloorDiv)
    case FloorDiv => Some(Mod)
    case Mod => Some(Pow)
    case _ => None
  }

  /** An operand of level `o` is a whole expression of its inner level. */
  lemma InnerLevelOperand(toks: seq<Token>, pos: nat, o: BinOp, i: BinOp)
    requires pos <= |toks| && InnerLevel(o) == Some(i)
    ensures ParseOperand(toks, pos, o) == ParseBinary(toks, pos, i)
    ensures OpToken(i) != OpToken(o)
  {
  }

  /** One inner-level operand that no inner operator follows is one
      operand of the outer level. */
  lemma InnerOneOperand(toks: seq<Token>, pos: nat, o: BinOp, i: BinOp, a: Expr, end: nat)
    requires InnerLevel(o) == Some(i)
    requires OperandRun(toks, pos, i, [a], end) && Kind(toks, end) != OpToken(i)
    ensures ParseOperand(toks, pos, o) == Ok(Parsed(a, end))
  {
    InnerLevelOperand(toks, pos, o, i);
    BinaryLeftAssoc(toks, pos, i, [a], end);
    assert [a][1..] == [];
  }

  /** Two inner-level operands joined by the inner operator are one
      operand of the outer level, their Binary node. */
  lemma InnerPairOperand(toks: seq<Token>, pos: nat, o: BinOp, i: BinOp, a: Expr, b: Expr, end: nat)
    requires InnerLevel(o) == Some(i)
    requires OperandRun(toks, pos, i, [a, b], end) && Kind(toks, end) != OpToken(i)
    ensures ParseOperand(toks, pos, o) == Ok(Parsed(Binary(i, a, b), end))
  {
    InnerLevelOperand(toks, pos, o, i);
    BinaryLeftAssoc(toks, pos, i, [a, b], end);
    assert [a, b][1..] == [b] && [b][1..] == [];
  }

  /** `a i b o c`, where `i` is the inner level of `o` (`a - b + c`, say):
      the inner pair becomes the LEFT operand of the outer operator,
      `(a - b) + c`. */
  lemma InnerThenOuter(toks: seq<Token>, pos: nat, o: BinOp, i: BinOp, a: Expr, b: Expr, q: nat, c: Expr, end: nat)
    requires InnerLevel(o) == Some(i)
    requires OperandRun(toks, pos, i, [a, b], q) && Kind(toks, q) == OpToken(o)
    requires OperandRun(toks, q + 1, i, [c], end) && Kind(toks, end) != OpToken(i) && Kind(toks, end) != OpToken(o)
    ensures ParseBinary(toks, pos, o) == Ok(Parsed(Binary(o, Binary(i, a, b), c), end))
  {
    InnerPairOperand(toks, pos, o, i, a, b, q);
    InnerOneOperand(toks, q + 1, o, i, c, end);
    TwoOperands(toks, pos, o, Binary(i, a, b), q, c, end);
  }

  /** `a o b i c` (`a + b - c`, say): the inner pair becomes the RIGHT
      operand of the outer operator, `a + (b - c)`, not `(a + b) - c`. */
  lemma OuterThenInner(toks: seq<Token>, pos: nat, o: BinOp, i: BinOp, a: Expr, q: nat, b: Expr, c: Expr, end: nat)
    requires InnerLevel(o) == Some(i)
    requires OperandRun(toks, pos, i, [a], q) && Kind(toks, q) == OpToken(o)
    requires OperandRun(toks, q + 1, i, [b, c], end) && Kind(toks, end) != OpToken(i) && Kind(toks, end) != OpToken(o)
    ensures ParseBinary(toks, pos, o) == Ok(Parsed(Binary(o, a, Binary(i, b, c)), end))
  {
    var r := q + 1;
    InnerPairOperand(toks, r, o, i, b, c, end);
    InnerOneOperand(toks, pos, o, i, a, q);
    TwoOperands(toks, pos, o, a, q, Binary(i, b, c), end);
  }

  // ---------------------------------------------------------------------
  // Concatenation is one flat node

  lemma {:induction false} ConcatTailRun(toks: seq<Token>, pos: nat, args: seq<Expr>, rest: seq<Expr>, end: nat)
    requires pos <= |toks| && AllLoadOnly(args) && Kind(toks, pos) == "tilde"
    requires ConcatRun(toks, pos + 1, rest, end) && Kind(toks, end) != "tilde"
    ensures ConcatTail(toks, pos, args) == Ok(Parsed(args + rest, end))
    decreases |rest|
  {
    var o := ParseBinary(toks, pos + 1, Mul);
    if |rest| > 1 {
      ConcatTailRun(toks, o.value.pos, args + [rest[0]], rest[1..], end);
      AppendHead(args, rest);
    } else {
      assert rest == [rest[0]];
      assert ConcatTail(toks, end, args + [rest[0]]) == Ok(Parsed(args + [rest[0]], end));
    }
  }

  /** `a ~ b ~ c` is one Concat node of all operands in order; a single
      operand is returned unwrapped. */
  lemma ConcatFlat(toks: seq<Token>, pos: nat, es: seq<Expr>, end: nat)
    requires ConcatRun(toks, pos, es, end) && Kind(toks, end) != "tilde"
    ensures ParseConcat(toks, pos) == Ok(Parsed(if |es| == 1 then es[0] else Concat(es), end))
  {
    var o := ParseBinary(toks, pos, Mul);
    if |es| > 1 {
      ConcatTailRun(toks, o.value.pos, [es[0]], es[1..], end);
      assert [es[0]] + es[1..] == es;
    }
  }

  // ---------------------------------------------------------------------
  // Comparison chains

  lemma {:induction false} CompareTailRun(toks: seq<Token>, pos: nat, acc: seq<Operand>, ops: seq<Operand>, end: nat)
    requires forall i :: 0 <= i < |acc| ==> LoadOnly(acc[i].expr)
    requires StepRun(toks, pos, ops, end)
    ensures CompareTail(toks, pos, acc) == Ok(Parsed(acc + ops, end))
    decreases |ops|
  {
    if |ops| > 0 {
      var s := CompareStep(toks, pos);
      CompareTailRun(toks, s.value.pos, acc + [ops[0]], ops[1..], end);
      AppendHead(acc, ops);
    } else {
      AppendEmpty(acc);
    }
  }

  /** No operator gives the additive operand itself; any number of steps
      give one Compare node holding them in source order. */
  lemma CompareChain(toks: seq<Token>, pos: nat, left: Expr, q: nat, ops: seq<Operand>, end: nat)
    requires pos <= |toks| && ParseBinary(toks, pos, Add) == Ok(Parsed(left, q))
    requires StepRun(toks, q, ops, end)
    ensures ParseCompare(toks, pos) == Ok(Parsed(if |ops| == 0 then left else Compare(left, ops), end))
  {
    CompareTailRun(toks, q, [], ops, end);
    AppendEmpty(ops);
  }

  /** `not in` is one comparison step recorded as `notin`, whose operand
      starts after both tokens. */
  lemma NotInStep(toks: seq<Token>, pos: nat, e: Expr, q: nat)
    requires pos + 2 <= |toks| && Kind(toks, pos) == "not" && Kind(toks, pos + 1) == "in"
    requires ParseBinary(toks, pos + 2, Add) == Ok(Parsed(e, q))
    ensures CompareAt(toks, pos)
    ensures CompareStep(toks, pos) == Ok(Parsed(Operand("notin", e), q))
  {
  }

  // ---------------------------------------------------------------------
  // Call arguments

  /** `f(k=v, x)`: a positional argument after a keyword argument is a
      syntax error reported at the line of the opening parenthesis. */
  lemma PositionalAfterKeyword(toks: seq<Token>, pos: nat, v: Expr, q: nat)
    requires pos + 3 <= |toks| && Kind(toks, pos) == "lparen"
    requires Kind(toks, pos + 1) == "name" && Kind(toks, pos + 2) == "assign"
    requires ParseExpression(toks, pos + 3, false) == Ok(Parsed(v, q))
    requires Kind(toks, q) == "comma" && ArgKindAt(toks, q + 1) == Positional && Kind(toks, q + 1) != "rparen"
    ensures ParseCallArgs(toks, pos) == Err(Syntax(InvalidCall, Line(toks, pos)))
  {
    var acc := ArgList(NoArgs, []);
    var args' := AddArg(NoArgs, KeywordArg, Current(toks, pos + 1).value, v);
    assert CallLoop(toks, pos + 1, Line(toks, pos), acc, false)
        == CallLoop(toks, q, Line(toks, pos), ArgList(args', [KeywordArg]), true);
  }

  /** `f(**k, *a)` is rejected at the line of the opening parenthesis;
      the accepted order `f(*a, **k)` is Runs.StarThenDoubleStar. */
  lemma StarArgsOrder(toks: seq<Token>, pos: nat, a: Expr, q: nat)
    requires pos + 2 <= |toks| && Kind(toks, pos) == "lparen" && Kind(toks, pos + 1) == "pow"
    requires ParseExpression(toks, pos + 2, false) == Ok(Parsed(a, q))
    requires Kind(toks, q) == "comma" && Kind(toks, q + 1) == "mul"
    ensures ParseCallArgs(toks, pos) == Err(Syntax(InvalidCall, Line(toks, pos)))
  {
    var acc := ArgList(NoArgs, []);
    var args' := AddArg(NoArgs, StarStarArgs, Current(toks, pos + 1).value, a);
    assert CallLoop(toks, pos + 1, Line(toks, pos), acc, false)
        == CallLoop(toks, q, Line(toks, pos), ArgList(args', [StarStarArgs]), true);
  }

  // ---------------------------------------------------------------------
  // Tuples

  lemma {:induction false} ElementRunEnd(toks: seq<Token>, pos: nat, mode: TupleMode, es: seq<Expr>, end: nat)
    requires ElementRun(toks, pos, mode, es, end)
    ensures pos < end <= |toks| && AllLoadOnly(es)
    decreases |es|
  {
    if |es| > 1 {
      var e := ParseElement(toks, pos, mode);
      ElementRunEnd(toks, e.value.pos + 1, mode, es[1..], end);
      assert es == [es[0]] + es[1..];
    }
  }

  lemma {:induction false} TupleItemsRun(toks: seq<Token>, pos: nat, mode: TupleMode, items: seq<Expr>, es: seq<Expr>, end: nat)
    requires pos <= |toks| && |items| > 0 && AllLoadOnly(items) && Kind(toks, pos) == "comma"
    requires ElementRun(toks, pos + 1, mode, es, end)
    requires Kind(toks, end) == "comma" ==> Kind(toks, end + 1) in TupleEdgeTokens
    ensures TupleItems(toks, pos, mode, items, true) == Ok(Parsed(TupleParts(items + es, true), AfterRun(toks, end)))
    decreases |es|
  {
    var e := ParseElement(toks, pos + 1, mode);
    ElementRunEnd(toks, pos + 1, mode, es, end);
    if |es| > 1 {
      TupleItemsRun(toks, e.value.pos, mode, items + [es[0]], es[1..], end);
      AppendHead(items, es);
    } else {
      assert es == [es[0]];
      if Kind(toks, end) == "comma" {
        assert TupleItems(toks, end, mode, items + es, true) == Ok(Parsed(TupleParts(items + es, true), end + 1));
      }
    }
  }

  /** `parse_tuple` on a run of elements: one element without a comma is
      the element itself; otherwise (two or more, or a trailing comma) a
      Tuple of all of them in order. */
  lemma TupleOfRun(toks: seq<Token>, pos: nat, mode: TupleMode, es: seq<Expr>, end: nat)
    requires ElementRun(toks, pos, mode, es, end)
    requires Kind(toks, end) == "comma" ==> Kind(toks, end + 1) in TupleEdgeTokens
    ensures ParseTuple(toks, pos, mode) ==
            Ok(Parsed(if |es| == 1 && Kind(toks, end) != "comma" then es[0] else Tuple(es, Load), AfterRun(toks, end)))
  {
    var e := ParseElement(toks, pos, mode);
    ElementRunEnd(toks, pos, mode, es, end);
    assert [] + [es[0]] == [es[0]];
    if |es| > 1 {
      TupleItemsRun(toks, e.value.pos, mode, [es[0]], es[1..], end);
      assert [es[0]] + es[1..] == es;
      assert TupleItems(toks, pos, mode, [], false) == TupleItems(toks, e.value.pos, mode, [es[0]], true);
    } else if Kind(toks, end) == "comma" {
      assert es == [es[0]];
      assert TupleItems(toks, end, mode, es, true) == Ok(Parsed(TupleParts(es, true), end + 1));
    }
  }

  /** An edge token where the first element would start gives the empty
      Tuple, consuming nothing. */
  lemma TupleAtEdge(toks: seq<Token>, pos: nat, mode: TupleMode)
    requires pos <= |toks| && Kind(toks, pos) in TupleEdgeTokens
    ensures ParseTuple(toks, pos, mode) == Ok(Parsed(Tuple([], Load), pos))
  {
  }

  // ---------------------------------------------------------------------
  // If chains

  /** The statement reached from `s` by following the single `else`
      statement `k` times. */
  function ElseDescend(s: Stmt, k: nat): Stmt
    decreases k
  {
    if k == 0 then s
    else if s.If? && |s.else_| > 0 then ElseDescend(s.else_[0], k - 1)
    else s
  }

  /** Arm `k` of an `if`/`elif` chain is the If found `k` levels down the
      `else` branches; only the last arm carries the final `else` body. */
  lemma {:induction false} IfChainArm(bs: seq<Branch>, els: seq<Stmt>, k: nat)
    requires k < |bs|
    ensures var n := ElseDescend(NestIfs(bs, els), k);
            && n.If? && n.test == bs[k].test && n.body == bs[k].body
            && (k == |bs| - 1 ==> n.else_ == els)
            && (k < |bs| - 1 ==> n.else_ == [NestIfs(bs[k + 1..], els)])
    decreases k
  {
    if k > 0 {
      IfChainArm(bs[1..], els, k - 1);
      assert bs[1..][k - 1] == bs[k];
      assert bs[1..][k..] == bs[k + 1..];
    }
  }

  // ---------------------------------------------------------------------
  // Template data

  /** The output nodes template data produces: one constant per non-empty
      data token, in order. */
  function DataNodes(ts: seq<Token>): (r: seq<Expr>)
    ensures AllLoadOnly(r)
    decreases |ts|
  {
    if |ts| == 0 then []
    else (if ts[0].value != "" then [Const(LToken(ts[0].value))] else []) + DataNodes(ts[1..])
  }

  lemma {:induction false} SubparseDataRun(toks: seq<Token>, pos: nat, end: Option<set<string>>, body: seq<Stmt>, buf: seq<Expr>)
    requires pos <= |toks| && AllValid(body) && AllLoadOnly(buf)
    requires forall i :: pos <= i < |toks| ==> toks[i].kind == "data"
    ensures SubparseLoop(toks, pos, end, body, buf) == Ok(Parsed(Flush(body, buf + DataNodes(toks[pos..])), |toks|))
    decreases |toks| - pos
  {
    if pos == |toks| {
      assert toks[pos..] == [];
      AppendEmpty(buf);
    } else {
      var t := toks[pos];
      var rest := DataNodes(toks[pos + 1..]);
      assert toks[pos..][1..] == toks[pos + 1..];
      if t.value != "" {
        var c := Const(LToken(t.value));
        SubparseDataRun(toks, pos + 1, end, body, buf + [c]);
        assert DataNodes(toks[pos..]) == [c] + rest;
        AppendAssoc(buf, [c], rest);
      } else {
        SubparseDataRun(toks, pos + 1, end, body, buf);
        assert DataNodes(toks[pos..]) == [] + rest;
        AppendEmpty(rest);
      }
    }
  }

  /** A template of data alone is one Output of its non-empty pieces in
      order, or nothing when every piece is empty. */
  lemma ParseDataOnly(toks: seq<Token>)
    requires forall i :: 0 <= i < |toks| ==> toks[i].kind == "data"
    ensures Parse(toks) == Ok(Template(if |DataNodes(toks)| == 0 then [] else [Output(DataNodes(toks))]))
  {
    SubparseDataRun(toks, 0, None, [], []);
    assert toks[0..] == toks;
    var ns := DataNodes(toks);
    AppendEmpty(ns);
    assert Flush([], ns) == if |ns| == 0 then [] else [Output(ns)];
  }
}

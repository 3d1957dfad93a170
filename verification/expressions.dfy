/** The expression grammar of the template parser: the precedence chain
    condexpr > or > and > compare > add > sub > concat > mul > div >
    floordiv > mod > pow > unary > primary, followed by postfix operations,
    and the tuple, list, dict, subscript, call, filter and test productions.

    Every production takes the token sequence and a position and returns
    the node with the position after it. Termination is by the number of
    tokens left, then by a rank: a production only calls a production of
    lower rank without consuming a token first. Every production below
    consumes at least one token on success (a tuple may consume none), and
    every node it builds is in load context. */
module Expressions {
  import opened Results
  import opened TokenStream
  import opened Nodes
  import opened CallOrder

  /** The element parser `parse_tuple` is configured with. */
  datatype TupleMode =
    | Full          // `parse_expression`
    | Simplified    // `parse_primary`: loop targets
    | NoCondexpr    // `parse_expression(no_condexpr=True)`: loop iterables

  /** The elements `parse_tuple` collected, and whether a comma was seen. */
  datatype TupleParts = TupleParts(items: seq<Expr>, isTuple: bool)

  /** A successful parse consumed at least one token and built a load-context node. */
  predicate Progress(toks: seq<Token>, pos: nat, r: Result<Parsed<Expr>>)
  {
    r.Ok? ==> pos < r.value.pos <= |toks| && LoadOnly(r.value.val)
  }

  /** A successful parse stayed within the stream and built a load-context node. */
  predicate Within(toks: seq<Token>, pos: nat, r: Result<Parsed<Expr>>)
  {
    r.Ok? ==> pos <= r.value.pos <= |toks| && LoadOnly(r.value.val)
  }

  /** The token kind of each binary operator. */
  function OpToken(op: BinOp): string
  {
    match op
    case Or => "or"
    case And => "and"
    case Add => "add"
    case Sub => "sub"
    case Mul => "mul"
    case Div => "div"
    case FloorDiv => "floordiv"
    case Mod => "mod"
    case Pow => "pow"
  }

  /** Termination rank of the binary levels (see the module comment). */
  function Rank(op: BinOp): nat
  {
    match op
    case Or => 40
    case And => 38
    case Add => 34
    case Sub => 32
    case Mul => 28
    case Div => 26
    case FloorDiv => 24
    case Mod => 22
    case Pow => 20
  }

  /** `parse_expression`. */
  function ParseExpression(toks: seq<Token>, pos: nat, noCondexpr: bool): (r: Result<Parsed<Expr>>)
    requires pos <= |toks|
    ensures Progress(toks, pos, r)
    decreases |toks| - pos, 46
  {
    if noCondexpr then ParseBinary(toks, pos, Or) else ParseCondExpr(toks, pos)
  }

  /** The parser behind each expression and tuple-element mode: a full
      expression is a conditional expression, a no-condexpr one stops at
      `parse_or`, and loop targets are primaries. */
  lemma ExpressionModes(toks: seq<Token>, pos: nat)
    requires pos <= |toks|
    ensures ParseExpression(toks, pos, false) == ParseCondExpr(toks, pos)
    ensures ParseExpression(toks, pos, true) == ParseBinary(toks, pos, Or)
    ensures ParseElement(toks, pos, Full) == ParseCondExpr(toks, pos)
    ensures ParseElement(toks, pos, NoCondexpr) == ParseBinary(toks, pos, Or)
    ensures ParseElement(toks, pos, Simplified) == ParsePrimary(toks, pos)
  {
  }

  /** `parse_condexpr`: `a if c else b`, the else branch itself a condexpr. */
  function ParseCondExpr(toks: seq<Token>, pos: nat): (r: Result<Parsed<Expr>>)
    requires pos <= |toks|
    ensures Progress(toks, pos, r)
    ensures r.Ok? ==> Kind(toks, r.value.pos) != "if"
    decreases |toks| - pos, 44
  {
    var first :- ParseBinary(toks, pos, Or);
    CondTail(toks, first.pos, first.val)
  }

  function CondTail(toks: seq<Token>, pos: nat, expr1: Expr): (r: Result<Parsed<Expr>>)
    requires pos <= |toks| && LoadOnly(expr1)
    ensures Within(toks, pos, r)
    ensures r.Ok? ==> Kind(toks, r.value.pos) != "if"
    ensures Kind(toks, pos) != "if" ==> r == Ok(Parsed(expr1, pos))
    ensures Kind(toks, pos) == "if" && r.Ok? ==> r.value.val.CondExpr?
    decreases |toks| - pos, 0
  {
    if Kind(toks, pos) == "if" then
      var cond :- ParseBinary(toks, pos + 1, Or);
      var els :- Expect(toks, cond.pos, "else");
      var expr2 :- ParseCondExpr(toks, els.pos);
      CondTail(toks, expr2.pos, CondExpr(cond.val, expr1, expr2.val))
    else
      Ok(Parsed(expr1, pos))
  }

  /** `expr1 if test else expr2`: the test is an `or` expression, the else
      branch a whole conditional expression, and a missing `else` is an
      error where it was expected. */
  lemma CondTailIf(toks: seq<Token>, pos: nat, expr1: Expr)
    requires pos < |toks| && Kind(toks, pos) == "if"
    ensures LoadOnly(expr1) ==>
            var test := ParseBinary(toks, pos + 1, Or);
            && (test.Err? ==> CondTail(toks, pos, expr1) == Err(test.error))
            && (test.Ok? && Kind(toks, test.value.pos) != "else" ==>
                  CondTail(toks, pos, expr1) == Err(Syntax(UnexpectedToken, Line(toks, test.value.pos))))
            && (test.Ok? && Kind(toks, test.value.pos) == "else" ==>
                  var expr2 := ParseCondExpr(toks, test.value.pos + 1);
                  && (expr2.Err? ==> CondTail(toks, pos, expr1) == Err(expr2.error))
                  && (expr2.Ok? ==> CondTail(toks, pos, expr1) ==
                                      Ok(Parsed(CondExpr(test.value.val, expr1, expr2.value.val), expr2.value.pos))))
  {
    if LoadOnly(expr1) {
      var test := ParseBinary(toks, pos + 1, Or);
      if test.Ok? && Kind(toks, test.value.pos) == "else" {
        var expr2 := ParseCondExpr(toks, test.value.pos + 1);
        if expr2.Ok? {
          var c := CondExpr(test.value.val, expr1, expr2.value.val);
          assert CondTail(toks, pos, expr1) == CondTail(toks, expr2.value.pos, c);
        }
      }
    }
  }

  /** The operand level of each binary level. */
  function ParseOperand(toks: seq<Token>, pos: nat, op: BinOp): (r: Result<Parsed<Expr>>)
    requires pos <= |toks|
    ensures Progress(toks, pos, r)
    decreases |toks| - pos, Rank(op) - 1
  {
    match op
    case Or => ParseBinary(toks, pos, And)
    case And => ParseCompare(toks, pos)
    case Add => ParseBinary(toks, pos, Sub)
    case Sub => ParseConcat(toks, pos)
    case Mul => ParseBinary(toks, pos, Div)
    case Div => ParseBinary(toks, pos, FloorDiv)
    case FloorDiv => ParseBinary(toks, pos, Mod)
    case Mod => ParseBinary(toks, pos, Pow)
    case Pow => ParseUnary(toks, pos)
  }

  /** `parse_or`, `parse_and`, `parse_add`, `parse_sub`, `parse_mul`,
      `parse_div`, `parse_floordiv`, `parse_mod` and `parse_pow`: operands
      separated by the level's operator, combined from the left. */
  function ParseBinary(toks: seq<Token>, pos: nat, op: BinOp): (r: Result<Parsed<Expr>>)
    requires pos <= |toks|
    ensures Progress(toks, pos, r)
    ensures r.Ok? ==> Kind(toks, r.value.pos) != OpToken(op)
    decreases |toks| - pos, Rank(op)
  {
    var left :- ParseOperand(toks, pos, op);
    BinTail(toks, left.pos, op, left.val)
  }

  function BinTail(toks: seq<Token>, pos: nat, op: BinOp, left: Expr): (r: Result<Parsed<Expr>>)
    requires pos <= |toks| && LoadOnly(left)
    ensures Within(toks, pos, r)
    ensures r.Ok? ==> Kind(toks, r.value.pos) != OpToken(op)
    ensures Kind(toks, pos) != OpToken(op) ==> r == Ok(Parsed(left, pos))
    decreases |toks| - pos, 0
  {
    if Kind(toks, pos) == OpToken(op) then
      var right :- ParseOperand(toks, pos + 1, op);
      BinTail(toks, right.pos, op, Binary(op, left, right.val))
    else
      Ok(Parsed(left, pos))
  }

  /** Whether a comparison operator starts at `pos`: one of the single
      operators, or `not` directly followed by `in`. */
  predicate CompareAt(toks: seq<Token>, pos: nat)
  {
    Kind(toks, pos) in CompareOperators || (Kind(toks, pos) == "not" && Kind(toks, pos + 1) == "in")
  }

  /** The operator a comparison step records: `notin` for `not in`, and
      otherwise the operator token's kind. */
  function CompareOpAt(toks: seq<Token>, pos: nat): string
  {
    if Kind(toks, pos) == "not" then "notin" else Kind(toks, pos)
  }

  /** `parse_compare`: no operator gives the additive operand itself; one or
      more give a single Compare node with the operands in source order. */
  function ParseCompare(toks: seq<Token>, pos: nat): (r: Result<Parsed<Expr>>)
    requires pos <= |toks|
    ensures Progress(toks, pos, r)
    ensures r.Ok? ==>
              var left := ParseBinary(toks, pos, Add);
              && left.Ok?
              && (!CompareAt(toks, left.value.pos) ==> r == left)
              && (CompareAt(toks, left.value.pos) ==>
                    r.value.val.Compare? && r.value.val.expr == left.value.val && |r.value.val.ops| >= 1)
    decreases |toks| - pos, 36
  {
    var left :- ParseBinary(toks, pos, Add);
    var ops :- CompareTail(toks, left.pos, []);
    Ok(Parsed(if |ops.val| == 0 then left.val else Compare(left.val, ops.val), ops.pos))
  }

  function CompareTail(toks: seq<Token>, pos: nat, ops: seq<Operand>): (r: Result<Parsed<seq<Operand>>>)
    requires pos <= |toks|
    requires forall i :: 0 <= i < |ops| ==> LoadOnly(ops[i].expr)
    ensures r.Ok? ==> pos <= r.value.pos <= |toks|
    ensures r.Ok? ==> ops <= r.value.val
    ensures r.Ok? ==> forall i :: 0 <= i < |r.value.val| ==> LoadOnly(r.value.val[i].expr)
    ensures r.Ok? ==> !CompareAt(toks, r.value.pos)
    ensures !CompareAt(toks, pos) ==> r == Ok(Parsed(ops, pos))
    ensures CompareAt(toks, pos) && r.Ok? ==> |r.value.val| > |ops| && r.value.val[|ops|].op == CompareOpAt(toks, pos)
    decreases |toks| - pos, 1
  {
    if CompareAt(toks, pos) then
      var step :- CompareStep(toks, pos);
      var rest := CompareTail(toks, step.pos, ops + [step.val]);
      assert rest.Ok? ==> !CompareAt(toks, rest.value.pos);
      rest
    else
      Ok(Parsed(ops, pos))
  }

  /** One comparison step: the operator (one token, or two for `not in`)
      and the additive operand after it. */
  function CompareStep(toks: seq<Token>, pos: nat): (r: Result<Parsed<Operand>>)
    requires pos <= |toks| && CompareAt(toks, pos)
    ensures r.Ok? ==> pos < r.value.pos <= |toks| && LoadOnly(r.value.val.expr)
    ensures r.Ok? ==> r.value.val.op == CompareOpAt(toks, pos)
    ensures var o := ParseBinary(toks, if Kind(toks, pos) == "not" then pos + 2 else pos + 1, Add);
            && (o.Err? ==> r == Err(o.error))
            && (o.Ok? ==> r == Ok(Parsed(Operand(CompareOpAt(toks, pos), o.value.val), o.value.pos)))
    decreases |toks| - pos, 0
  {
    var k := Kind(toks, pos);
    var operand :- ParseBinary(toks, if k == "not" then pos + 2 else pos + 1, Add);
    Ok(Parsed(Operand(CompareOpAt(toks, pos), operand.val), operand.pos))
  }

  /** `parse_concat`: one operand is returned as is, several make one flat
      Concat node. */
  function ParseConcat(toks: seq<Token>, pos: nat): (r: Result<Parsed<Expr>>)
    requires pos <= |toks|
    ensures Progress(toks, pos, r)
    ensures r.Ok? ==> Kind(toks, r.value.pos) != "tilde"
    decreases |toks| - pos, 30
  {
    var first :- ParseBinary(toks, pos, Mul);
    var all :- ConcatTail(toks, first.pos, [first.val]);
    Ok(Parsed(if |all.val| == 1 then all.val[0] else Concat(all.val), all.pos))
  }

  function ConcatTail(toks: seq<Token>, pos: nat, args: seq<Expr>): (r: Result<Parsed<seq<Expr>>>)
    requires pos <= |toks| && AllLoadOnly(args)
    ensures r.Ok? ==> pos <= r.value.pos <= |toks| && AllLoadOnly(r.value.val)
    ensures r.Ok? ==> |r.value.val| >= |args| && r.value.val[..|args|] == args
    ensures r.Ok? ==> Kind(toks, r.value.pos) != "tilde"
    ensures Kind(toks, pos) != "tilde" ==> r == Ok(Parsed(args, pos))
    ensures Kind(toks, pos) == "tilde" && r.Ok? ==> |r.value.val| > |args|
    decreases |toks| - pos, 0
  {
    if Kind(toks, pos) == "tilde" then
      var operand :- ParseBinary(toks, pos + 1, Mul);
      ConcatTail(toks, operand.pos, args + [operand.val])
    else
      Ok(Parsed(args, pos))
  }

  /** `parse_unary`: stacked prefix `not`, `-` and `+` over a primary. */
  function ParseUnary(toks: seq<Token>, pos: nat): (r: Result<Parsed<Expr>>)
    requires pos <= |toks|
    ensures Progress(toks, pos, r)
    ensures r.Ok? && Kind(toks, pos) == "not" ==> r.value.val.Unary? && r.value.val.uop == Not
    ensures r.Ok? && Kind(toks, pos) == "sub" ==> r.value.val.Unary? && r.value.val.uop == Neg
    ensures r.Ok? && Kind(toks, pos) == "add" ==> r.value.val.Unary? && r.value.val.uop == Pos
    decreases |toks| - pos, 18
  {
    var k := Kind(toks, pos);
    if k == "not" || k == "sub" || k == "add" then
      var operand :- ParseUnary(toks, pos + 1);
      Ok(Parsed(Unary(if k == "not" then Not else if k == "sub" then Neg else Pos, operand.val), operand.pos))
    else
      ParsePrimary(toks, pos)
  }

  /** A prefix operator applies to the unary expression after it, so
      prefixes stack; without one, a unary expression is a primary. */
  lemma UnaryStep(toks: seq<Token>, pos: nat)
    requires pos <= |toks|
    ensures Kind(toks, pos) in {"not", "sub", "add"} ==>
              var operand := ParseUnary(toks, pos + 1);
              && (operand.Err? ==> ParseUnary(toks, pos) == Err(operand.error))
              && (operand.Ok? ==>
                    var r := ParseUnary(toks, pos);
                    r.Ok? && r.value.val.Unary? && r.value.val.node == operand.value.val && r.value.pos == operand.value.pos)
    ensures Kind(toks, pos) !in {"not", "sub", "add"} ==> ParseUnary(toks, pos) == ParsePrimary(toks, pos)
  {
  }

  /** The atom a primary expression starts with, before postfix operations. */
  function ParseAtom(toks: seq<Token>, pos: nat): (r: Result<Parsed<Expr>>)
    requires pos <= |toks|
    ensures Progress(toks, pos, r)
    ensures r.Ok? ==> Kind(toks, pos) in {"name", "integer", "float", "string", "lparen", "lbracket", "lbrace"}
    ensures Kind(toks, pos) == "name" ==>
              r == Ok(Parsed(NameConst(Current(toks, pos).value), pos + 1))
    ensures Kind(toks, pos) !in {"name", "integer", "float", "string", "lparen", "lbracket", "lbrace"} ==>
              r == Err(Syntax(UnexpectedToken, Line(toks, pos)))
    ensures Kind(toks, pos) in {"integer", "float", "string"} ==>
              r == Ok(Parsed(Const(LToken(Current(toks, pos).value)), pos + 1))
    decreases |toks| - pos, 15
  {
    var t := Current(toks, pos);
    if t.kind == "name" then
      Ok(Parsed(NameConst(t.value), pos + 1))
    else if t.kind == "integer" || t.kind == "float" || t.kind == "string" then
      Ok(Parsed(Const(LToken(t.value)), pos + 1))
    else if t.kind == "lparen" then
      var inner :- ParseTuple(toks, pos + 1, Full);
      var close :- Expect(toks, inner.pos, "rparen");
      Ok(Parsed(inner.val, close.pos))
    else if t.kind == "lbracket" then
      ParseList(toks, pos)
    else if t.kind == "lbrace" then
      ParseDict(toks, pos)
    else
      Err(Syntax(UnexpectedToken, t.line))
  }

  /** A parenthesised atom is the tuple inside it, closed by `)`; a list or
      dict display is parsed by its own production. */
  lemma AtomStep(toks: seq<Token>, pos: nat)
    requires pos <= |toks|
    ensures Kind(toks, pos) == "lparen" ==>
              var inner := ParseTuple(toks, pos + 1, Full);
              && (inner.Err? ==> ParseAtom(toks, pos) == Err(inner.error))
              && (inner.Ok? && Kind(toks, inner.value.pos) == "rparen" ==>
                    ParseAtom(toks, pos) == Ok(Parsed(inner.value.val, inner.value.pos + 1)))
              && (inner.Ok? && Kind(toks, inner.value.pos) != "rparen" ==>
                    ParseAtom(toks, pos) == Err(Syntax(UnexpectedToken, Line(toks, inner.value.pos))))
    ensures Kind(toks, pos) == "lbracket" ==> ParseAtom(toks, pos) == ParseList(toks, pos)
    ensures Kind(toks, pos) == "lbrace" ==> ParseAtom(toks, pos) == ParseDict(toks, pos)
  {
  }

  /** A name token: the constants `true`, `false`, `none`, or a load Name. */
  function NameConst(n: string): (e: Expr)
    ensures LoadOnly(e)
    ensures e.Name? <==> AssignableName(n)
    ensures e.Name? ==> e == Name(n, Load)
    ensures n == "true" ==> e == Const(LBool(true))
    ensures n == "false" ==> e == Const(LBool(false))
    ensures n == "none" ==> e == Const(LNone)
  {
    if n == "true" || n == "false" then Const(LBool(n == "true"))
    else if n == "none" then Const(LNone)
    else Name(n, Load)
  }

  /** `parse_primary` (always with postfix operations, as every caller asks). */
  function ParsePrimary(toks: seq<Token>, pos: nat): (r: Result<Parsed<Expr>>)
    requires pos <= |toks|
    ensures Progress(toks, pos, r)
    ensures r.Ok? ==> !PostfixAt(toks, r.value.pos)
    decreases |toks| - pos, 16
  {
    var atom :- ParseAtom(toks, pos);
    ParsePostfix(toks, atom.pos, atom.val)
  }

  /** A primary is its atom under the postfix operations that follow it. */
  lemma PrimaryStep(toks: seq<Token>, pos: nat)
    requires pos <= |toks|
    ensures var atom := ParseAtom(toks, pos);
            && (atom.Err? ==> ParsePrimary(toks, pos) == Err(atom.error))
            && (atom.Ok? ==> ParsePrimary(toks, pos) == ParsePostfix(toks, atom.value.pos, atom.value.val))
  {
  }

  /** `parse_tuple`: elements separated by commas. One element and no comma
      gives the element itself; any comma gives a Tuple; an edge token
      before the first element gives the empty Tuple. */
  function ParseTuple(toks: seq<Token>, pos: nat, mode: TupleMode): (r: Result<Parsed<Expr>>)
    requires pos <= |toks|
    ensures Within(toks, pos, r)
    ensures r.Ok? && r.value.pos == pos ==> r.value.val == Tuple([], Load)
    decreases |toks| - pos, 50
  {
    var parts :- TupleItems(toks, pos, mode, [], false);
    var items := parts.val.items;
    Ok(Parsed(if !parts.val.isTuple && |items| > 0 then items[0] else Tuple(items, Load), parts.pos))
  }

  function TupleItems(toks: seq<Token>, pos: nat, mode: TupleMode, items: seq<Expr>, isTuple: bool)
    : (r: Result<Parsed<TupleParts>>)
    requires pos <= |toks| && AllLoadOnly(items)
    requires |items| > 0 <==> isTuple
    ensures r.Ok? ==> pos <= r.value.pos <= |toks| && AllLoadOnly(r.value.val.items)
    ensures r.Ok? ==> |r.value.val.items| >= |items| && r.value.val.items[..|items|] == items
    ensures r.Ok? && isTuple ==> r.value.val.isTuple
    ensures r.Ok? && r.value.val.isTuple ==> |r.value.val.items| >= 1
    ensures r.Ok? && !r.value.val.isTuple ==> |r.value.val.items| <= 1
    ensures r.Ok? && |items| == 0 && r.value.pos == pos ==> r.value.val.items == []
    decreases |toks| - pos, 49
  {
    var p :- ExpectWhen(toks, pos, |items| > 0, "comma");
    if Kind(toks, p) in TupleEdgeTokens then
      Ok(Parsed(TupleParts(items, isTuple), p))
    else
      var e :- ParseElement(toks, p, mode);
      if Kind(toks, e.pos) == "comma" then
        TupleItems(toks, e.pos, mode, items + [e.val], true)
      else
        Ok(Parsed(TupleParts(items + [e.val], isTuple), e.pos))
  }

  /** The element parser of each tuple mode. */
  function ParseElement(toks: seq<Token>, pos: nat, mode: TupleMode): (r: Result<Parsed<Expr>>)
    requires pos <= |toks|
    ensures Progress(toks, pos, r)
    decreases |toks| - pos, 48
  {
    match mode
    case Full => ParseExpression(toks, pos, false)
    case Simplified => ParsePrimary(toks, pos)
    case NoCondexpr => ParseExpression(toks, pos, true)
  }

  /** `parse_list`: `[a, b, ...]`, a trailing comma allowed. */
  function ParseList(toks: seq<Token>, pos: nat): (r: Result<Parsed<Expr>>)
    requires pos <= |toks|
    ensures Progress(toks, pos, r)
    ensures r.Ok? ==> r.value.val.List? && Kind(toks, pos) == "lbracket"
    decreases |toks| - pos, 14
  {
    var open :- Expect(toks, pos, "lbracket");
    var items :- ListItems(toks, open.pos, []);
    // the loop stops only at `]`, so the closing `expect` always passes
    Ok(Parsed(List(items.val), items.pos + 1))
  }

  function ListItems(toks: seq<Token>, pos: nat, items: seq<Expr>): (r: Result<Parsed<seq<Expr>>>)
    requires pos <= |toks| && AllLoadOnly(items)
    ensures r.Ok? ==> pos <= r.value.pos <= |toks| && AllLoadOnly(r.value.val)
    ensures r.Ok? ==> |r.value.val| >= |items| && r.value.val[..|items|] == items
    ensures r.Ok? ==> Kind(toks, r.value.pos) == "rbracket"
    ensures Kind(toks, pos) == "rbracket" ==> r == Ok(Parsed(items, pos))
    ensures Kind(toks, pos) != "rbracket" && |items| > 0 && Kind(toks, pos) != "comma" ==>
              r == Err(Syntax(UnexpectedToken, Line(toks, pos)))
    decreases |toks| - pos, 52
  {
    if Kind(toks, pos) == "rbracket" then
      Ok(Parsed(items, pos))
    else
      var p :- ExpectWhen(toks, pos, |items| > 0, "comma");
      if Kind(toks, p) == "rbracket" then
        Ok(Parsed(items, p))
      else
        var e :- ParseExpression(toks, p, false);
        ListItems(toks, e.pos, items + [e.val])
  }

  /** `parse_dict`: `{k: v, ...}`, a trailing comma allowed. */
  function ParseDict(toks: seq<Token>, pos: nat): (r: Result<Parsed<Expr>>)
    requires pos <= |toks|
    ensures Progress(toks, pos, r)
    ensures r.Ok? ==> r.value.val.Dict? && Kind(toks, pos) == "lbrace"
    decreases |toks| - pos, 14
  {
    var open :- Expect(toks, pos, "lbrace");
    var pairs :- DictItems(toks, open.pos, []);
    // the loop stops only at `}`, so the closing `expect` always passes
    Ok(Parsed(Dict(pairs.val), pairs.pos + 1))
  }

  function DictItems(toks: seq<Token>, pos: nat, pairs: seq<Pair>): (r: Result<Parsed<seq<Pair>>>)
    requires pos <= |toks|
    requires PairsLoadOnly(pairs)
    ensures r.Ok? ==> pos <= r.value.pos <= |toks| && PairsLoadOnly(r.value.val)
    ensures r.Ok? ==> |r.value.val| >= |pairs| && r.value.val[..|pairs|] == pairs
    ensures r.Ok? ==> Kind(toks, r.value.pos) == "rbrace"
    ensures Kind(toks, pos) == "rbrace" ==> r == Ok(Parsed(pairs, pos))
    ensures Kind(toks, pos) != "rbrace" && |pairs| > 0 && Kind(toks, pos) != "comma" ==>
              r == Err(Syntax(UnexpectedToken, Line(toks, pos)))
    decreases |toks| - pos, 52
  {
    if Kind(toks, pos) == "rbrace" then
      Ok(Parsed(pairs, pos))
    else
      var p :- ExpectWhen(toks, pos, |pairs| > 0, "comma");
      if Kind(toks, p) == "rbrace" then
        Ok(Parsed(pairs, p))
      else
        var key :- ParseExpression(toks, p, false);
        var colon :- Expect(toks, key.pos, "colon");
        var value :- ParseExpression(toks, colon.pos, false);
        DictItems(toks, value.pos, pairs + [Pair(key.val, value.val)])
  }

  /** Whether a postfix operation starts at `pos`. */
  predicate PostfixAt(toks: seq<Token>, pos: nat)
  {
    Kind(toks, pos) in {"dot", "lbracket", "lparen", "pipe", "is"}
  }

  /** `parse_postfix`: attribute and item access, calls, filters and tests,
      applied left to right until no postfix token follows. */
  function ParsePostfix(toks: seq<Token>, pos: nat, node: Expr): (r: Result<Parsed<Expr>>)
    requires pos <= |toks| && LoadOnly(node)
    ensures Within(toks, pos, r)
    ensures r.Ok? ==> !PostfixAt(toks, r.value.pos)
    ensures !PostfixAt(toks, pos) ==> r == Ok(Parsed(node, pos))
    decreases |toks| - pos, 5
  {
    var k := Kind(toks, pos);
    if k == "dot" || k == "lbracket" then
      var s :- ParseSubscript(toks, pos, node);
      ParsePostfix(toks, s.pos, s.val)
    else if k == "lparen" then
      var a :- ParseCallArgs(toks, pos);
      ParsePostfix(toks, a.pos, Call(node, a.val.args))
    else if k == "pipe" then
      var f :- FilterChain(toks, pos, node);
      ParsePostfix(toks, f.pos, f.val)
    else if k == "is" then
      var t :- ParseTest(toks, pos, node);
      ParsePostfix(toks, t.pos, t.val)
    else
      Ok(Parsed(node, pos))
  }

  /** One round of `parse_postfix`: `.` and `[` take a subscript, `(` a
      call of the node, `|` a filter chain over it and `is` a test of it;
      the loop then continues on the result. */
  lemma PostfixStep(toks: seq<Token>, pos: nat, node: Expr)
    requires pos <= |toks| && LoadOnly(node)
    ensures Kind(toks, pos) in {"dot", "lbracket"} ==>
              var s := ParseSubscript(toks, pos, node);
              && (s.Err? ==> ParsePostfix(toks, pos, node) == Err(s.error))
              && (s.Ok? ==> ParsePostfix(toks, pos, node) == ParsePostfix(toks, s.value.pos, s.value.val))
    ensures Kind(toks, pos) == "lparen" ==>
              var a := ParseCallArgs(toks, pos);
              && (a.Err? ==> ParsePostfix(toks, pos, node) == Err(a.error))
              && (a.Ok? ==> ParsePostfix(toks, pos, node) == ParsePostfix(toks, a.value.pos, Call(node, a.value.val.args)))
    ensures Kind(toks, pos) == "pipe" ==>
              var f := FilterChain(toks, pos, node);
              && (f.Err? ==> ParsePostfix(toks, pos, node) == Err(f.error))
              && (f.Ok? ==> ParsePostfix(toks, pos, node) == ParsePostfix(toks, f.value.pos, f.value.val))
    ensures Kind(toks, pos) == "is" ==>
              var t := ParseTest(toks, pos, node);
              && (t.Err? ==> ParsePostfix(toks, pos, node) == Err(t.error))
              && (t.Ok? ==> ParsePostfix(toks, pos, node) == ParsePostfix(toks, t.value.pos, t.value.val))
  {
  }

  /** `parse_subscript`: `.name` or `.integer` gives a constant key;
      `[...]` with exactly one subscript gives that subscript as the key. */
  function ParseSubscript(toks: seq<Token>, pos: nat, node: Expr): (r: Result<Parsed<Expr>>)
    requires pos <= |toks| && LoadOnly(node)
    ensures Progress(toks, pos, r)
    ensures r.Ok? ==> r.value.val.Subscript? && r.value.val.obj == node
    ensures Kind(toks, pos) !in {"dot", "lbracket"} ==> r == Err(Crash(MissingParserLineno))
    ensures Kind(toks, pos) == "dot" ==>
              var attr := Current(toks, pos + 1);
              && (attr.kind in {"name", "integer"} ==> r == Ok(Parsed(Subscript(node, Const(LToken(attr.value)), Load), pos + 2)))
              && (attr.kind !in {"name", "integer"} ==> r == Err(Syntax(ExpectedNameOrNumber, attr.line)))
    ensures Kind(toks, pos) == "lbracket" && Kind(toks, pos + 1) == "rbracket" ==> r == Err(Crash(UndefinedLineno))
    decreases |toks| - pos, 3
  {
    var k := Kind(toks, pos);
    if k == "dot" then
      var attr := Current(toks, pos + 1);
      if attr.kind != "name" && attr.kind != "integer" then
        Err(Syntax(ExpectedNameOrNumber, attr.line))
      else
        assert LoadOnly(Const(LToken(attr.value)));
        Ok(Parsed(Subscript(node, Const(LToken(attr.value)), Load), pos + 2))
    else if k == "lbracket" then
      var items :- SubscriptItems(toks, pos + 1, []);
      // the loop stops only at `]`, so the closing `expect` always passes
      if |items.val| == 1 then
        Ok(Parsed(Subscript(node, items.val[0], Load), items.pos + 1))
      else
        Err(Crash(UndefinedLineno))
    else
      Err(Crash(MissingParserLineno))
  }

  /** `x[s]` with one subscript makes it the key. */
  lemma SubscriptStep(toks: seq<Token>, pos: nat, node: Expr)
    requires pos < |toks| && LoadOnly(node) && Kind(toks, pos) == "lbracket" && Kind(toks, pos + 1) != "rbracket"
    ensures var s := ParseSubscribed(toks, pos + 1);
            && (s.Err? ==> ParseSubscript(toks, pos, node) == Err(s.error))
            && (s.Ok? && Kind(toks, s.value.pos) == "rbracket" ==>
                  ParseSubscript(toks, pos, node) == Ok(Parsed(Subscript(node, s.value.val, Load), s.value.pos + 1)))
  {
    var s := ParseSubscribed(toks, pos + 1);
    if s.Ok? {
      assert [] + [s.value.val] == [s.value.val];
    }
  }

  /** Only a single subscript succeeds: after a second one the source takes
      its defective tuple branch. */
  lemma SubscriptSingle(toks: seq<Token>, pos: nat, node: Expr)
    requires pos < |toks| && LoadOnly(node) && Kind(toks, pos) == "lbracket"
    ensures ParseSubscript(toks, pos, node).Ok? ==>
              var s := ParseSubscribed(toks, pos + 1);
              s.Ok? && Kind(toks, s.value.pos) == "rbracket"
  {
    var s := ParseSubscribed(toks, pos + 1);
    if Kind(toks, pos + 1) != "rbracket" && s.Ok? && Kind(toks, s.value.pos) != "rbracket" {
      assert [] + [s.value.val] == [s.value.val];
      SubscriptItemsStep(toks, pos + 1, []);
      var rest := SubscriptItems(toks, s.value.pos, [s.value.val]);
      assert SubscriptItems(toks, pos + 1, []) == rest;
      assert rest.Ok? ==> |rest.value.val| > 1;
    }
  }

  /** One round of the subscript loop: after a comma when subscripts were
      already read, the next subscript is appended and the loop goes on
      after it. */
  lemma SubscriptItemsStep(toks: seq<Token>, pos: nat, items: seq<Expr>)
    requires pos <= |toks| && AllLoadOnly(items) && Kind(toks, pos) != "rbracket"
    requires |items| > 0 ==> Kind(toks, pos) == "comma"
    ensures var s := ParseSubscribed(toks, if |items| > 0 then pos + 1 else pos);
            && (s.Err? ==> SubscriptItems(toks, pos, items) == Err(s.error))
            && (s.Ok? ==> SubscriptItems(toks, pos, items) == SubscriptItems(toks, s.value.pos, items + [s.value.val]))
  {
  }

  /** `x[s, t]` reaches the source's tuple branch, which names a variable
      that does not exist. */
  lemma SubscriptPairCrash(toks: seq<Token>, pos: nat, node: Expr, s: Expr, q: nat, t: Expr, q2: nat)
    requires pos < |toks| && LoadOnly(node) && Kind(toks, pos) == "lbracket" && Kind(toks, pos + 1) != "rbracket"
    requires ParseSubscribed(toks, pos + 1) == Ok(Parsed(s, q))
    requires Kind(toks, q) == "comma" && Kind(toks, q + 1) != "rbracket"
    requires ParseSubscribed(toks, q + 1) == Ok(Parsed(t, q2)) && Kind(toks, q2) == "rbracket"
    ensures ParseSubscript(toks, pos, node) == Err(Crash(UndefinedLineno))
  {
    assert [] + [s] == [s];
    var items := SubscriptItems(toks, q2, [s, t]);
    assert items == Ok(Parsed([s, t], q2));
    assert [s] + [t] == [s, t];
    assert SubscriptItems(toks, q, [s]) == items;
    assert SubscriptItems(toks, pos + 1, []) == items;
  }

  function SubscriptItems(toks: seq<Token>, pos: nat, items: seq<Expr>): (r: Result<Parsed<seq<Expr>>>)
    requires pos <= |toks| && AllLoadOnly(items)
    ensures r.Ok? ==> pos <= r.value.pos <= |toks| && AllLoadOnly(r.value.val)
    ensures r.Ok? ==> |r.value.val| >= |items| && r.value.val[..|items|] == items
    ensures r.Ok? ==> Kind(toks, r.value.pos) == "rbracket"
    ensures Kind(toks, pos) == "rbracket" ==> r == Ok(Parsed(items, pos))
    ensures Kind(toks, pos) != "rbracket" && r.Ok? ==> |r.value.val| > |items|
    ensures Kind(toks, pos) != "rbracket" && |items| > 0 && Kind(toks, pos) != "comma" ==>
              r == Err(Syntax(UnexpectedToken, Line(toks, pos)))
    decreases |toks| - pos, 54
  {
    if Kind(toks, pos) == "rbracket" then
      Ok(Parsed(items, pos))
    else
      var p :- ExpectWhen(toks, pos, |items| > 0, "comma");
      var s :- ParseSubscribed(toks, p);
      SubscriptItems(toks, s.pos, items + [s.val])
  }

  /** `parse_subscribed`: an expression, or a slice `start:stop:step` with
      every part optional. */
  function ParseSubscribed(toks: seq<Token>, pos: nat): (r: Result<Parsed<Expr>>)
    requires pos <= |toks|
    ensures Progress(toks, pos, r)
    ensures r.Ok? && Kind(toks, pos) == "colon" ==> r.value.val.Slice? && r.value.val.start.None?
    decreases |toks| - pos, 53
  {
    if Kind(toks, pos) == "colon" then
      SliceRest(toks, pos + 1, None)
    else
      var e :- ParseExpression(toks, pos, false);
      if Kind(toks, e.pos) != "colon" then Ok(e)
      else SliceRest(toks, e.pos + 1, Some(e.val))
  }

  /** A subscript is an expression unless a `:` follows it, which makes it
      the start of a slice; a leading `:` makes a slice without a start. */
  lemma SubscribedStep(toks: seq<Token>, pos: nat)
    requires pos <= |toks|
    ensures Kind(toks, pos) == "colon" ==> ParseSubscribed(toks, pos) == SliceRest(toks, pos + 1, None)
    ensures Kind(toks, pos) != "colon" ==>
              var e := ParseExpression(toks, pos, false);
              && (e.Err? ==> ParseSubscribed(toks, pos) == Err(e.error))
              && (e.Ok? && Kind(toks, e.value.pos) != "colon" ==> ParseSubscribed(toks, pos) == e)
              && (e.Ok? && Kind(toks, e.value.pos) == "colon" ==>
                    ParseSubscribed(toks, pos) == SliceRest(toks, e.value.pos + 1, Some(e.value.val)))
  {
  }

  /** An optional slice part: absent before `]`, `,` or (for the stop) `:`. */
  function SlicePart(toks: seq<Token>, pos: nat, stopAtColon: bool): (r: Result<Parsed<Option<Expr>>>)
    requires pos <= |toks|
    ensures r.Ok? ==> pos <= r.value.pos <= |toks| && OptLoadOnly(r.value.val)
    ensures r.Ok? && r.value.val.None? ==> r.value.pos == pos
    ensures r.Ok? ==> (r.value.val.None? <==> (stopAtColon && Kind(toks, pos) == "colon") || Kind(toks, pos) in {"rbracket", "comma"})
    decreases |toks| - pos, 52
  {
    var k := Kind(toks, pos);
    if (stopAtColon && k == "colon") || k == "rbracket" || k == "comma" then
      Ok(Parsed(None, pos))
    else
      var e :- ParseExpression(toks, pos, false);
      Ok(Parsed(Some(e.val), e.pos))
  }

  function SliceRest(toks: seq<Token>, pos: nat, start: Option<Expr>): (r: Result<Parsed<Expr>>)
    requires 0 < pos <= |toks| && OptLoadOnly(start)
    ensures Within(toks, pos, r)
    ensures r.Ok? ==> r.value.val.Slice? && r.value.val.start == start
    decreases |toks| - pos, 53
  {
    var stop :- SlicePart(toks, pos, true);
    if Kind(toks, stop.pos) == "colon" then
      var step :- SlicePart(toks, stop.pos + 1, false);
      Ok(Parsed(Slice(start, stop.val, step.val), step.pos))
    else
      assert OptLoadOnly(None);
      Ok(Parsed(Slice(start, stop.val, None), stop.pos))
  }

  /** After the first `:` of a slice: the stop part, then, after a second
      `:`, the step part; a missing second `:` leaves no step. */
  lemma SliceRestStep(toks: seq<Token>, pos: nat, start: Option<Expr>)
    requires 0 < pos <= |toks| && OptLoadOnly(start)
    ensures var stop := SlicePart(toks, pos, true);
            && (stop.Ok? && Kind(toks, stop.value.pos) != "colon" ==>
                  SliceRest(toks, pos, start) == Ok(Parsed(Slice(start, stop.value.val, None), stop.value.pos)))
            && (stop.Ok? && Kind(toks, stop.value.pos) == "colon" ==>
                  var step := SlicePart(toks, stop.value.pos + 1, false);
                  step.Ok? ==> SliceRest(toks, pos, start) == Ok(Parsed(Slice(start, stop.value.val, step.value.val), step.value.pos)))
  {
  }

  /** How the argument at `pos` is written. */
  function ArgKindAt(toks: seq<Token>, pos: nat): ArgKind
  {
    if Kind(toks, pos) == "mul" then StarArgs
    else if Kind(toks, pos) == "pow" then StarStarArgs
    else if Kind(toks, pos) == "name" && Kind(toks, pos + 1) == "assign" then KeywordArg
    else Positional
  }

  /** Where the expression of an argument of kind `k` written at `pos`
      starts: after `name=`, after `*` or `**`, or at `pos` itself. */
  function ArgStart(pos: nat, k: ArgKind): nat
  {
    match k
    case Positional => pos
    case KeywordArg => pos + 2
    case _ => pos + 1
  }

  /** `parse_call`: the parenthesised argument list, kept with the order in
      which the kinds of argument were written. */
  function ParseCallArgs(toks: seq<Token>, pos: nat): (r: Result<Parsed<ArgList>>)
    requires pos <= |toks|
    ensures r.Ok? ==> pos < r.value.pos <= |toks| && ArgsLoadOnly(r.value.val.args)
    ensures r.Ok? ==> ValidOrder(r.value.val.order) && Tracks(r.value.val.args, r.value.val.order)
    ensures r.Ok? ==> Kind(toks, pos) == "lparen" && Kind(toks, r.value.pos - 1) == "rparen"
    decreases |toks| - pos, 3
  {
    var open :- Expect(toks, pos, "lparen");
    var list :- CallLoop(toks, open.pos, open.val.line, ArgList(NoArgs, []), false);
    var close :- Expect(toks, list.pos, "rparen");
    Ok(Parsed(list.val, close.pos))
  }

  /** The argument loop of `parse_call`; `line` is that of the `(`. */
  function CallLoop(toks: seq<Token>, pos: nat, line: int, acc: ArgList, requireComma: bool)
    : (r: Result<Parsed<ArgList>>)
    requires pos <= |toks| && ArgsLoadOnly(acc.args)
    requires ValidOrder(acc.order) && Tracks(acc.args, acc.order)
    ensures r.Ok? ==> pos <= r.value.pos <= |toks| && ArgsLoadOnly(r.value.val.args)
    ensures r.Ok? ==> ValidOrder(r.value.val.order) && Tracks(r.value.val.args, r.value.val.order)
    ensures !requireComma && Kind(toks, pos) != "rparen" && !Admit(acc.args, ArgKindAt(toks, pos)) ==>
              r == Err(Syntax(InvalidCall, line))
    ensures requireComma && Kind(toks, pos) == "comma" && Kind(toks, pos + 1) != "rparen"
            && !Admit(acc.args, ArgKindAt(toks, pos + 1)) ==>
              r == Err(Syntax(InvalidCall, line))
    decreases |toks| - pos, 52
  {
    if Kind(toks, pos) == "rparen" then
      Ok(Parsed(acc, pos))
    else
      var p :- ExpectWhen(toks, pos, requireComma, "comma");
      if requireComma && Kind(toks, p) == "rparen" then
        Ok(Parsed(acc, p))
      else
        var k := ArgKindAt(toks, p);
        if !Admit(acc.args, k) then
          Err(Syntax(InvalidCall, line))
        else
          var next :- CallArg(toks, p, acc, k);
          CallLoop(toks, next.pos, line, next.val, true)
  }

  /** One admitted argument of kind `k` starting at `pos`: the `name=`,
      `*` or `**` in front of it is skipped and the expression recorded. */
  function CallArg(toks: seq<Token>, pos: nat, acc: ArgList, k: ArgKind): (r: Result<Parsed<ArgList>>)
    requires pos <= |toks| && ArgsLoadOnly(acc.args)
    requires ValidOrder(acc.order) && Tracks(acc.args, acc.order)
    requires k == ArgKindAt(toks, pos) && Admit(acc.args, k)
    ensures r.Ok? ==> pos < r.value.pos <= |toks| && ArgsLoadOnly(r.value.val.args)
    ensures r.Ok? ==> ValidOrder(r.value.val.order) && Tracks(r.value.val.args, r.value.val.order)
    ensures r.Ok? ==> r.value.val.order == acc.order + [k]
    decreases |toks| - pos, 51
  {
    var e :- ParseExpression(toks, ArgStart(pos, k), false);
    AddArgKeepsOrder(acc.args, acc.order, k, Current(toks, pos).value, e.val);
    var args' := AddArg(acc.args, k, Current(toks, pos).value, e.val);
    Ok(Parsed(ArgList(args', acc.order + [k]), e.pos))
  }

  /** One filter application: a name and optional call arguments. */
  function FilterItem(toks: seq<Token>, pos: nat, input: Option<Expr>): (r: Result<Parsed<Expr>>)
    requires pos <= |toks| && OptLoadOnly(input)
    ensures Progress(toks, pos, r)
    ensures r.Ok? ==> r.value.val.Filter? && r.value.val.input == input
                      && r.value.val.fname == Current(toks, pos).value
    ensures Kind(toks, pos) != "name" ==> r.Err?
    ensures Kind(toks, pos) == "name" && Kind(toks, pos + 1) != "lparen" ==>
              r == Ok(Parsed(Filter(input, Current(toks, pos).value, NoArgs), pos + 1))
    ensures Kind(toks, pos) == "name" && Kind(toks, pos + 1) == "lparen" ==>
              var a := ParseCallArgs(toks, pos + 1);
              && (a.Err? ==> r == Err(a.error))
              && (a.Ok? ==> r == Ok(Parsed(Filter(input, Current(toks, pos).value, a.value.val.args), a.value.pos)))
    decreases |toks| - pos, 1
  {
    var name :- Expect(toks, pos, "name");
    if Kind(toks, name.pos) == "lparen" then
      var args :- ParseCallArgs(toks, name.pos);
      Ok(Parsed(Filter(input, name.val.value, args.val.args), args.pos))
    else
      assert ArgsLoadOnly(NoArgs);
      Ok(Parsed(Filter(input, name.val.value, NoArgs), name.pos))
  }

  /** `Wraps(outer, inner)`: `outer` is `inner` under zero or more filters. */
  predicate Wraps(outer: Expr, inner: Expr)
  {
    outer == inner || (outer.Filter? && outer.input.Some? && Wraps(outer.input.value, inner))
  }

  /** The node at the bottom of a filter chain: follow the inputs down
      while there is one. */
  function Innermost(e: Expr): Expr
  {
    if e.Filter? && e.input.Some? then Innermost(e.input.value) else e
  }

  /** A chain built over a filter without input bottoms out at that filter. */
  lemma {:induction false} InnermostOfWraps(outer: Expr, inner: Expr)
    requires Wraps(outer, inner) && inner.Filter? && inner.input.None?
    ensures Innermost(outer) == inner
    decreases outer
  {
    if outer != inner {
      InnermostOfWraps(outer.input.value, inner);
    }
  }

  lemma {:induction false} WrapsTransitive(a: Expr, b: Expr, c: Expr)
    requires Wraps(a, b) && Wraps(b, c)
    ensures Wraps(a, c)
    decreases a
  {
    if a != b {
      WrapsTransitive(a.input.value, b, c);
    }
  }

  /** `parse_filter` without `start_inline`: `| name(args)` repeated, each
      filter taking the previous result as its input. */
  function FilterChain(toks: seq<Token>, pos: nat, node: Expr): (r: Result<Parsed<Expr>>)
    requires pos <= |toks| && LoadOnly(node)
    ensures Within(toks, pos, r)
    ensures r.Ok? ==> Wraps(r.value.val, node) && Kind(toks, r.value.pos) != "pipe"
    ensures Kind(toks, pos) != "pipe" ==> r == Ok(Parsed(node, pos))
    ensures Kind(toks, pos) == "pipe" && r.Ok? ==> pos < r.value.pos && r.value.val.Filter?
    decreases |toks| - pos, 3
  {
    if Kind(toks, pos) == "pipe" then
      var f :- FilterItem(toks, pos + 1, Some(node));
      var rest :- FilterChain(toks, f.pos, f.val);
      WrapsTransitive(rest.val, f.val, node);
      Ok(rest)
    else
      Ok(Parsed(node, pos))
  }

  /** One round of the filter loop: after `|` the next filter takes the
      node as its input, and the loop goes on over that filter. */
  lemma FilterChainStep(toks: seq<Token>, pos: nat, node: Expr)
    requires pos < |toks| && LoadOnly(node) && Kind(toks, pos) == "pipe"
    ensures var f := FilterItem(toks, pos + 1, Some(node));
            && (f.Err? ==> FilterChain(toks, pos, node) == Err(f.error))
            && (f.Ok? ==> FilterChain(toks, pos, node) == FilterChain(toks, f.value.pos, f.value.val))
  {
  }

  /** `parse_filter(None, start_inline=True)`: the filter chain of a filter
      block, whose first filter has no input and no leading pipe. */
  function InlineFilter(toks: seq<Token>, pos: nat): (r: Result<Parsed<Expr>>)
    requires pos <= |toks|
    ensures Progress(toks, pos, r)
    ensures r.Ok? ==> r.value.val.Filter?
    ensures r.Ok? ==>
              var first := FilterItem(toks, pos, None);
              first.Ok? && Wraps(r.value.val, first.value.val) && Innermost(r.value.val) == first.value.val
    ensures r.Ok? ==> Innermost(r.value.val).Filter? && Innermost(r.value.val).input.None?
    decreases |toks| - pos, 2
  {
    var first :- FilterItem(toks, pos, None);
    var chain :- FilterChain(toks, first.pos, first.val);
    InnermostOfWraps(chain.val, first.val);
    Ok(chain)
  }

  /** `t` is a Test of `subject` named `name`. */
  predicate IsTestOf(t: Expr, subject: Expr, name: string)
  {
    t.Test? && t.subject == subject && t.tname == name
  }

  /** A test node, wrapped in Not when the test was negated. */
  function MaybeNot(negated: bool, e: Expr): Expr
  {
    if negated then Unary(Not, e) else e
  }

  /** `parse_test`: `is name`, `is name arg`, `is name(args)`, each
      optionally negated with `not`, which wraps the Test in Not. */
  function ParseTest(toks: seq<Token>, pos: nat, node: Expr): (r: Result<Parsed<Expr>>)
    requires pos <= |toks| && LoadOnly(node)
    ensures Progress(toks, pos, r)
    ensures r.Ok? && Kind(toks, pos + 1) == "not" ==>
              && r.value.val.Unary? && r.value.val.uop == Not
              && IsTestOf(r.value.val.node, node, Current(toks, pos + 2).value)
    ensures r.Ok? && Kind(toks, pos + 1) != "not" ==> IsTestOf(r.value.val, node, Current(toks, pos + 1).value)
    decreases |toks| - pos, 3
  {
    var isTok :- Expect(toks, pos, "is");
    var negated := Kind(toks, isTok.pos) == "not";
    var name :- Expect(toks, if negated then isTok.pos + 1 else isTok.pos, "name");
    var args :-
      if Kind(toks, name.pos) == "lparen" then
        var call :- ParseCallArgs(toks, name.pos);
        Ok(Parsed(call.val.args, call.pos))
      else if Kind(toks, name.pos) in TestArgumentStarts then
        var arg :- ParseExpression(toks, name.pos, false);
        assert ArgsLoadOnly(Args([arg.val], [], None, None));
        Ok(Parsed(Args([arg.val], [], None, None), arg.pos))
      else
        assert ArgsLoadOnly(NoArgs);
        Ok(Parsed(NoArgs, name.pos));
    var test := Test(node, name.val.value, args.val);
    assert LoadOnly(test);
    Ok(Parsed(MaybeNot(negated, test), args.pos))
  }

  /** Where the test name stands: after `is`, or after `is not`. */
  function TestNamePos(toks: seq<Token>, pos: nat): nat
  {
    if Kind(toks, pos + 1) == "not" then pos + 2 else pos + 1
  }

  /** `is name(args)`: the test takes the call arguments. */
  lemma TestWithCall(toks: seq<Token>, pos: nat, node: Expr)
    requires pos < |toks| && LoadOnly(node) && Kind(toks, pos) == "is"
    requires Kind(toks, TestNamePos(toks, pos)) == "name" && Kind(toks, TestNamePos(toks, pos) + 1) == "lparen"
    ensures var q := TestNamePos(toks, pos);
            var a := ParseCallArgs(toks, q + 1);
            var r := ParseTest(toks, pos, node);
            && (a.Err? ==> r == Err(a.error))
            && (a.Ok? ==> r == Ok(Parsed(MaybeNot(Kind(toks, pos + 1) == "not", Test(node, Current(toks, q).value, a.value.val.args)), a.value.pos)))
  {
  }

  /** `is name arg`: a token that can start an expression other than `(`
      gives the test that one expression as its argument. */
  lemma TestWithArgument(toks: seq<Token>, pos: nat, node: Expr)
    requires pos < |toks| && LoadOnly(node) && Kind(toks, pos) == "is"
    requires var q := TestNamePos(toks, pos);
             Kind(toks, q) == "name" && Kind(toks, q + 1) != "lparen" && Kind(toks, q + 1) in TestArgumentStarts
    ensures var q := TestNamePos(toks, pos);
            var e := ParseExpression(toks, q + 1, false);
            var r := ParseTest(toks, pos, node);
            && (e.Err? ==> r == Err(e.error))
            && (e.Ok? ==> r == Ok(Parsed(MaybeNot(Kind(toks, pos + 1) == "not", Test(node, Current(toks, q).value, Args([e.value.val], [], None, None))), e.value.pos)))
  {
  }

  /** `is name` followed by anything else: the test has no arguments. */
  lemma TestWithoutArgs(toks: seq<Token>, pos: nat, node: Expr)
    requires pos < |toks| && LoadOnly(node) && Kind(toks, pos) == "is"
    requires var q := TestNamePos(toks, pos);
             Kind(toks, q) == "name" && Kind(toks, q + 1) !in TestArgumentStarts
    ensures var q := TestNamePos(toks, pos);
            ParseTest(toks, pos, node) == Ok(Parsed(MaybeNot(Kind(toks, pos + 1) == "not", Test(node, Current(toks, q).value, NoArgs)), q + 1))
  {
  }
}

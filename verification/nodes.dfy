/** The abstract syntax tree the parser builds, and the two node operations
    it relies on: the assignability check (`can_assign`) and the context
    reset (`set_ctx`). The node module itself is not part of this model;
    the definitions below are the assumptions it is modelled by:
    a Name is assignable unless it spells `true`, `false` or `none`; a
    Tuple is assignable when all its items are; a Subscript is assignable;
    nothing else is. Resetting the context sets it on the node and on every
    descendant that carries one. */
module Nodes {

  datatype Option<+T> = None | Some(value: T)

  /** The context tag of Name, Tuple and Subscript nodes. */
  datatype Ctx = Load | Store | Param

  /** Literal values. Token values (numbers, strings, template data) are
      kept as the lexer's text. */
  datatype Literal = LBool(b: bool) | LNone | LToken(text: string)

  datatype BinOp = Or | And | Add | Sub | Mul | Div | FloorDiv | Mod | Pow

  datatype UnOp = Not | Neg | Pos

  datatype Expr =
    | Const(lit: Literal)
    | Name(name: string, ctx: Ctx)
    | Tuple(items: seq<Expr>, ctx: Ctx)
    | List(items: seq<Expr>)
    | Dict(pairs: seq<Pair>)
    | CondExpr(test: Expr, expr1: Expr, expr2: Expr)
    | Binary(op: BinOp, left: Expr, right: Expr)
    | Unary(uop: UnOp, node: Expr)
    | Concat(nodes: seq<Expr>)
    | Compare(expr: Expr, ops: seq<Operand>)
    | Subscript(obj: Expr, arg: Expr, ctx: Ctx)
    | Slice(start: Option<Expr>, stop: Option<Expr>, step: Option<Expr>)
    | Call(callee: Expr, args: Args)
    | Filter(input: Option<Expr>, fname: string, args: Args)
    | Test(subject: Expr, tname: string, args: Args)

  datatype Pair = Pair(key: Expr, value: Expr)

  /** One `(operator, operand)` step of a comparison chain. */
  datatype Operand = Operand(op: string, expr: Expr)

  datatype Keyword = Keyword(key: string, value: Expr)

  /** The arguments of a call, filter or test. */
  datatype Args = Args(args: seq<Expr>, kwargs: seq<Keyword>, dynArgs: Option<Expr>, dynKwargs: Option<Expr>)

  const NoArgs: Args := Args([], [], None, None)

  /** A name bound by `from ... import`, with or without an alias. */
  datatype ImportName = Plain(name: string) | Aliased(name: string, alias: string)

  datatype Stmt =
    | Output(nodes: seq<Expr>)
    | Assign(target: Expr, value: Expr)
    | For(target: Expr, iter: Expr, body: seq<Stmt>, else_: seq<Stmt>, guard: Option<Expr>)
    | If(test: Expr, body: seq<Stmt>, else_: seq<Stmt>)
    | Block(name: string, body: seq<Stmt>)
    | Extends(template: Expr)
    | Include(template: Expr)
    | Import(template: Expr, boundName: string)
    | FromImport(template: Expr, names: seq<ImportName>)
    | Macro(name: string, params: seq<Expr>, defaults: seq<Expr>, body: seq<Stmt>)
    | CallBlock(params: seq<Expr>, defaults: seq<Expr>, call: Expr, body: seq<Stmt>)
    | FilterBlock(filter: Expr, body: seq<Stmt>)
    | ExprStmt(expr: Expr)

  datatype Template = Template(body: seq<Stmt>)

  /** A name that may be bound: not one of the constant spellings. */
  predicate AssignableName(n: string)
  {
    n != "true" && n != "false" && n != "none"
  }

  predicate CanAssign(e: Expr)
  {
    match e
    case Name(n, _) => AssignableName(n)
    case Tuple(items, _) => forall i :: 0 <= i < |items| ==> CanAssign(items[i])
    case Subscript(_, _, _) => true
    case _ => false
  }

  /** Every context tag in `e` (including those of descendants) is `c`. */
  predicate CtxAll(e: Expr, c: Ctx)
  {
    match e
    case Const(_) => true
    case Name(_, k) => k == c
    case Tuple(items, k) => k == c && (forall i :: 0 <= i < |items| ==> CtxAll(items[i], c))
    case List(items) => forall i :: 0 <= i < |items| ==> CtxAll(items[i], c)
    case Dict(pairs) =>
      forall i :: 0 <= i < |pairs| ==> CtxAll(pairs[i].key, c) && CtxAll(pairs[i].value, c)
    case CondExpr(t, a, b) => CtxAll(t, c) && CtxAll(a, c) && CtxAll(b, c)
    case Binary(_, l, r) => CtxAll(l, c) && CtxAll(r, c)
    case Unary(_, n) => CtxAll(n, c)
    case Concat(ns) => forall i :: 0 <= i < |ns| ==> CtxAll(ns[i], c)
    case Compare(x, ops) => CtxAll(x, c) && (forall i :: 0 <= i < |ops| ==> CtxAll(ops[i].expr, c))
    case Subscript(o, a, k) => k == c && CtxAll(o, c) && CtxAll(a, c)
    case Slice(a, b, d) => OptCtxAll(a, c) && OptCtxAll(b, c) && OptCtxAll(d, c)
    case Call(f, args) => CtxAll(f, c) && ArgsCtxAll(args, c)
    case Filter(inp, _, args) => OptCtxAll(inp, c) && ArgsCtxAll(args, c)
    case Test(s, _, args) => CtxAll(s, c) && ArgsCtxAll(args, c)
  }

  predicate OptCtxAll(o: Option<Expr>, c: Ctx)
  {
    match o
    case None => true
    case Some(e) => CtxAll(e, c)
  }

  predicate ArgsCtxAll(a: Args, c: Ctx)
  {
    && (forall i :: 0 <= i < |a.args| ==> CtxAll(a.args[i], c))
    && (forall i :: 0 <= i < |a.kwargs| ==> CtxAll(a.kwargs[i].value, c))
    && OptCtxAll(a.dynArgs, c)
    && OptCtxAll(a.dynKwargs, c)
  }

  /** What the parser builds for every expression: load context throughout. */
  predicate LoadOnly(e: Expr)
  {
    CtxAll(e, Load)
  }

  predicate AllLoadOnly(es: seq<Expr>)
  {
    forall i :: 0 <= i < |es| ==> LoadOnly(es[i])
  }

  predicate PairsLoadOnly(ps: seq<Pair>)
  {
    forall i :: 0 <= i < |ps| ==> LoadOnly(ps[i].key) && LoadOnly(ps[i].value)
  }

  predicate ArgsLoadOnly(a: Args)
  {
    ArgsCtxAll(a, Load)
  }

  /** `set_ctx`: gives `c` to the node and to every descendant with a context. */
  function SetCtx(e: Expr, c: Ctx): Expr
  {
    match e
    case Const(_) => e
    case Name(n, _) => Name(n, c)
    case Tuple(items, _) => Tuple(SetCtxSeq(items, c), c)
    case List(items) => List(SetCtxSeq(items, c))
    case Dict(pairs) => Dict(SetCtxPairs(pairs, c))
    case CondExpr(t, a, b) => CondExpr(SetCtx(t, c), SetCtx(a, c), SetCtx(b, c))
    case Binary(op, l, r) => Binary(op, SetCtx(l, c), SetCtx(r, c))
    case Unary(op, n) => Unary(op, SetCtx(n, c))
    case Concat(ns) => Concat(SetCtxSeq(ns, c))
    case Compare(x, ops) => Compare(SetCtx(x, c), SetCtxOperands(ops, c))
    case Subscript(o, a, _) => Subscript(SetCtx(o, c), SetCtx(a, c), c)
    case Slice(a, b, d) => Slice(SetCtxOpt(a, c), SetCtxOpt(b, c), SetCtxOpt(d, c))
    case Call(f, args) => Call(SetCtx(f, c), SetCtxArgs(args, c))
    case Filter(inp, n, args) => Filter(SetCtxOpt(inp, c), n, SetCtxArgs(args, c))
    case Test(s, n, args) => Test(SetCtx(s, c), n, SetCtxArgs(args, c))
  }

  function SetCtxSeq(es: seq<Expr>, c: Ctx): (r: seq<Expr>)
    ensures |r| == |es|
    ensures forall i :: 0 <= i < |es| ==> r[i] == SetCtx(es[i], c)
  {
    if |es| == 0 then [] else [SetCtx(es[0], c)] + SetCtxSeq(es[1..], c)
  }

  function SetCtxOpt(o: Option<Expr>, c: Ctx): Option<Expr>
  {
    match o
    case None => None
    case Some(e) => Some(SetCtx(e, c))
  }

  function SetCtxPairs(ps: seq<Pair>, c: Ctx): (r: seq<Pair>)
    ensures |r| == |ps|
  {
    if |ps| == 0 then []
    else
      match ps[0]
      case Pair(k, v) =>
        assert k < ps[0] && v < ps[0];
        [Pair(SetCtx(k, c), SetCtx(v, c))] + SetCtxPairs(ps[1..], c)
  }

  function SetCtxOperands(ops: seq<Operand>, c: Ctx): (r: seq<Operand>)
    ensures |r| == |ops|
    ensures forall i :: 0 <= i < |ops| ==> r[i] == Operand(ops[i].op, SetCtx(ops[i].expr, c))
  {
    if |ops| == 0 then []
    else [Operand(ops[0].op, SetCtx(ops[0].expr, c))] + SetCtxOperands(ops[1..], c)
  }

  function SetCtxKeywords(ks: seq<Keyword>, c: Ctx): (r: seq<Keyword>)
    ensures |r| == |ks|
    ensures forall i :: 0 <= i < |ks| ==> r[i] == Keyword(ks[i].key, SetCtx(ks[i].value, c))
  {
    if |ks| == 0 then []
    else [Keyword(ks[0].key, SetCtx(ks[0].value, c))] + SetCtxKeywords(ks[1..], c)
  }

  function SetCtxArgs(a: Args, c: Ctx): Args
  {
    Args(SetCtxSeq(a.args, c), SetCtxKeywords(a.kwargs, c), SetCtxOpt(a.dynArgs, c), SetCtxOpt(a.dynKwargs, c))
  }

  /** `set_ctx(c)` leaves every context tag `c` and does not change whether
      the node may be assigned to. */
  lemma SetCtxSets(e: Expr, c: Ctx)
    ensures CtxAll(SetCtx(e, c), c)
    ensures CanAssign(SetCtx(e, c)) <==> CanAssign(e)
  {
    SetCtxReaches(e, c);
    SetCtxKeepsAssignable(e, c);
  }

  /** `set_ctx(c)` reaches every node with a context. */
  lemma {:induction false} SetCtxReaches(e: Expr, c: Ctx)
    ensures CtxAll(SetCtx(e, c), c)
    decreases e, 1
  {
    match e
    case Const(_) =>
    case Name(_, _) =>
    case Tuple(items, _) => SetCtxSeqReaches(items, c);
    case List(items) => SetCtxSeqReaches(items, c);
    case Dict(pairs) => SetCtxPairsReaches(pairs, c);
    case CondExpr(t, a, b) => SetCtxReaches(t, c); SetCtxReaches(a, c); SetCtxReaches(b, c);
    case Binary(_, l, r) => SetCtxReaches(l, c); SetCtxReaches(r, c);
    case Unary(_, n) => SetCtxReaches(n, c);
    case Concat(ns) => SetCtxSeqReaches(ns, c);
    case _ => SetCtxReachesOther(e, c);
  }

  /** The remaining node kinds of `SetCtxReaches`. */
  lemma {:induction false} SetCtxReachesOther(e: Expr, c: Ctx)
    requires e.Compare? || e.Subscript? || e.Slice? || e.Call? || e.Filter? || e.Test?
    ensures CtxAll(SetCtx(e, c), c)
    decreases e, 0
  {
    match e
    case Compare(x, ops) => SetCtxReaches(x, c); SetCtxOperandsReaches(ops, c);
    case Subscript(o, a, _) => SetCtxReaches(o, c); SetCtxReaches(a, c);
    case Slice(a, b, d) => SetCtxOptReaches(a, c); SetCtxOptReaches(b, c); SetCtxOptReaches(d, c);
    case Call(f, args) => SetCtxReaches(f, c); SetCtxArgsReaches(args, c);
    case Filter(inp, _, args) => SetCtxOptReaches(inp, c); SetCtxArgsReaches(args, c);
    case Test(s, _, args) => SetCtxReaches(s, c); SetCtxArgsReaches(args, c);
  }

  /** `set_ctx` changes only context tags, so assignability is kept. */
  lemma {:induction false} SetCtxKeepsAssignable(e: Expr, c: Ctx)
    ensures CanAssign(SetCtx(e, c)) <==> CanAssign(e)
    decreases e
  {
    if e.Tuple? {
      var items' := SetCtxSeq(e.items, c);
      assert SetCtx(e, c) == Tuple(items', c);
      forall i | 0 <= i < |e.items| ensures CanAssign(items'[i]) <==> CanAssign(e.items[i]) {
        SetCtxKeepsAssignable(e.items[i], c);
      }
    }
  }

  lemma {:induction false} SetCtxSeqReaches(es: seq<Expr>, c: Ctx)
    ensures forall i :: 0 <= i < |es| ==> CtxAll(SetCtx(es[i], c), c)
    decreases es
  {
    forall i | 0 <= i < |es| ensures CtxAll(SetCtx(es[i], c), c) {
      SetCtxReaches(es[i], c);
    }
  }

  lemma {:induction false} SetCtxOperandsReaches(ops: seq<Operand>, c: Ctx)
    ensures forall i :: 0 <= i < |ops| ==> CtxAll(SetCtxOperands(ops, c)[i].expr, c)
    decreases ops
  {
    forall i | 0 <= i < |ops| ensures CtxAll(SetCtx(ops[i].expr, c), c) {
      assert ops[i] in ops;
      SetCtxReaches(ops[i].expr, c);
    }
  }

  lemma {:induction false} SetCtxPairsReaches(ps: seq<Pair>, c: Ctx)
    ensures forall i :: 0 <= i < |ps| ==> CtxAll(SetCtxPairs(ps, c)[i].key, c) && CtxAll(SetCtxPairs(ps, c)[i].value, c)
    decreases ps
  {
    var ps' := SetCtxPairs(ps, c);
    forall i | 0 <= i < |ps| ensures CtxAll(ps'[i].key, c) && CtxAll(ps'[i].value, c) {
      assert ps[i] in ps;
      SetCtxPairsAt(ps, c, i);
      SetCtxPairReaches(ps[i], c);
    }
  }

  lemma {:induction false} SetCtxPairReaches(p: Pair, c: Ctx)
    ensures CtxAll(SetCtx(p.key, c), c) && CtxAll(SetCtx(p.value, c), c)
    decreases p
  {
    SetCtxReaches(p.key, c);
    SetCtxReaches(p.value, c);
  }

  /** `SetCtxPairs` applies `set_ctx` to both halves of every pair. */
  lemma {:induction false} SetCtxPairsAt(ps: seq<Pair>, c: Ctx, i: nat)
    requires i < |ps|
    ensures SetCtxPairs(ps, c)[i] == Pair(SetCtx(ps[i].key, c), SetCtx(ps[i].value, c))
    decreases i
  {
    if i > 0 {
      SetCtxPairsAt(ps[1..], c, i - 1);
    }
  }

  lemma {:induction false} SetCtxOptReaches(o: Option<Expr>, c: Ctx)
    ensures OptCtxAll(SetCtxOpt(o, c), c)
    decreases o
  {
    match o
    case None =>
    case Some(e) => SetCtxReaches(e, c);
  }

  lemma {:induction false} SetCtxArgsReaches(a: Args, c: Ctx)
    ensures ArgsCtxAll(SetCtxArgs(a, c), c)
    decreases a
  {
    forall i | 0 <= i < |a.args| ensures CtxAll(SetCtx(a.args[i], c), c) { SetCtxReaches(a.args[i], c); }
    forall i | 0 <= i < |a.kwargs| ensures CtxAll(SetCtx(a.kwargs[i].value, c), c) {
      assert a.kwargs[i] in a.kwargs;
      SetCtxReaches(a.kwargs[i].value, c);
    }
    SetCtxOptReaches(a.dynArgs, c);
    SetCtxOptReaches(a.dynKwargs, c);
  }

  /** `set_ctx` changes nothing but context tags: a node whose tags are all
      `c`, reset to any `c2` and back to `c`, is the node it was. */
  lemma {:induction false} SetCtxRestores(e: Expr, c: Ctx, c2: Ctx)
    requires CtxAll(e, c)
    ensures SetCtx(SetCtx(e, c2), c) == e
    decreases e, 1
  {
    match e
    case Const(_) =>
    case Name(_, _) =>
    case Tuple(items, _) => SetCtxSeqRestores(items, c, c2);
    case List(items) => SetCtxSeqRestores(items, c, c2);
    case Dict(pairs) => SetCtxPairsRestores(pairs, c, c2);
    case CondExpr(t, a, b) => SetCtxRestores(t, c, c2); SetCtxRestores(a, c, c2); SetCtxRestores(b, c, c2);
    case Binary(_, l, r) => SetCtxRestores(l, c, c2); SetCtxRestores(r, c, c2);
    case Unary(_, n) => SetCtxRestores(n, c, c2);
    case Concat(ns) => SetCtxSeqRestores(ns, c, c2);
    case _ => SetCtxRestoresOther(e, c, c2);
  }

  /** The remaining node kinds of `SetCtxRestores`. */
  lemma {:induction false} SetCtxRestoresOther(e: Expr, c: Ctx, c2: Ctx)
    requires CtxAll(e, c)
    requires e.Compare? || e.Subscript? || e.Slice? || e.Call? || e.Filter? || e.Test?
    ensures SetCtx(SetCtx(e, c2), c) == e
    decreases e, 0
  {
    match e
    case Compare(x, ops) => SetCtxRestores(x, c, c2); SetCtxOperandsRestores(ops, c, c2);
    case Subscript(o, a, _) => SetCtxRestores(o, c, c2); SetCtxRestores(a, c, c2);
    case Slice(a, b, d) => SetCtxOptRestores(a, c, c2); SetCtxOptRestores(b, c, c2); SetCtxOptRestores(d, c, c2);
    case Call(f, args) => SetCtxRestores(f, c, c2); SetCtxArgsRestores(args, c, c2);
    case Filter(inp, _, args) => SetCtxOptRestores(inp, c, c2); SetCtxArgsRestores(args, c, c2);
    case Test(s, _, args) => SetCtxRestores(s, c, c2); SetCtxArgsRestores(args, c, c2);
  }

  lemma {:induction false} SetCtxSeqRestores(es: seq<Expr>, c: Ctx, c2: Ctx)
    requires forall i :: 0 <= i < |es| ==> CtxAll(es[i], c)
    ensures SetCtxSeq(SetCtxSeq(es, c2), c) == es
    decreases es
  {
    var r := SetCtxSeq(SetCtxSeq(es, c2), c);
    forall i | 0 <= i < |es| ensures r[i] == es[i] {
      SetCtxRestores(es[i], c, c2);
    }
  }

  lemma {:induction false} SetCtxOperandsRestores(ops: seq<Operand>, c: Ctx, c2: Ctx)
    requires forall i :: 0 <= i < |ops| ==> CtxAll(ops[i].expr, c)
    ensures SetCtxOperands(SetCtxOperands(ops, c2), c) == ops
    decreases ops
  {
    var r := SetCtxOperands(SetCtxOperands(ops, c2), c);
    forall i | 0 <= i < |ops| ensures r[i] == ops[i] {
      assert ops[i] in ops;
      SetCtxRestores(ops[i].expr, c, c2);
    }
  }

  lemma {:induction false} SetCtxPairsRestores(ps: seq<Pair>, c: Ctx, c2: Ctx)
    requires forall i :: 0 <= i < |ps| ==> CtxAll(ps[i].key, c) && CtxAll(ps[i].value, c)
    ensures SetCtxPairs(SetCtxPairs(ps, c2), c) == ps
    decreases ps
  {
    var ps' := SetCtxPairs(ps, c2);
    var r := SetCtxPairs(ps', c);
    forall i | 0 <= i < |ps| ensures r[i] == ps[i] {
      assert ps[i] in ps;
      SetCtxPairsAt(ps, c2, i);
      SetCtxPairsAt(ps', c, i);
      SetCtxPairRestores(ps[i], c, c2);
    }
  }

  lemma {:induction false} SetCtxPairRestores(p: Pair, c: Ctx, c2: Ctx)
    requires CtxAll(p.key, c) && CtxAll(p.value, c)
    ensures SetCtx(SetCtx(p.key, c2), c) == p.key && SetCtx(SetCtx(p.value, c2), c) == p.value
    decreases p
  {
    SetCtxRestores(p.key, c, c2);
    SetCtxRestores(p.value, c, c2);
  }

  lemma {:induction false} SetCtxOptRestores(o: Option<Expr>, c: Ctx, c2: Ctx)
    requires OptCtxAll(o, c)
    ensures SetCtxOpt(SetCtxOpt(o, c2), c) == o
    decreases o
  {
    match o
    case None =>
    case Some(e) => SetCtxRestores(e, c, c2);
  }

  lemma {:induction false} SetCtxArgsRestores(a: Args, c: Ctx, c2: Ctx)
    requires ArgsCtxAll(a, c)
    ensures SetCtxArgs(SetCtxArgs(a, c2), c) == a
    decreases a
  {
    SetCtxSeqRestores(a.args, c, c2);
    var ks := SetCtxKeywords(SetCtxKeywords(a.kwargs, c2), c);
    forall i | 0 <= i < |a.kwargs| ensures ks[i] == a.kwargs[i] {
      assert a.kwargs[i] in a.kwargs;
      SetCtxRestores(a.kwargs[i].value, c, c2);
    }
    SetCtxOptRestores(a.dynArgs, c, c2);
    SetCtxOptRestores(a.dynKwargs, c, c2);
  }

  /** A macro or call-block parameter: an assignable name in `param` context. */
  predicate IsParam(e: Expr)
  {
    e.Name? && e.ctx == Param && AssignableName(e.name)
  }

  /** A target after the parser has validated it and switched it to `store`. */
  predicate IsStoreTarget(e: Expr)
  {
    CanAssign(e) && CtxAll(e, Store)
  }

  predicate StartsWithDunder(n: string)
  {
    |n| >= 2 && n[0] == '_' && n[1] == '_'
  }

  predicate ValidImportName(n: ImportName)
  {
    && AssignableName(n.name)
    && !StartsWithDunder(n.name)
    && (n.Aliased? ==> AssignableName(n.alias))
  }

  predicate OptLoadOnly(o: Option<Expr>)
  {
    OptCtxAll(o, Load)
  }

  /** The parser's output invariant for statements: every target that
      carries `store` or `param` passed the assignability check, and every
      other expression is in load context. */
  predicate ValidStmt(s: Stmt)
  {
    match s
    case Output(ns) => AllLoadOnly(ns)
    case Assign(t, v) => IsStoreTarget(t) && LoadOnly(v)
    case For(t, it, body, els, test) =>
      && IsStoreTarget(t) && LoadOnly(it) && OptLoadOnly(test)
      && (forall i :: 0 <= i < |body| ==> ValidStmt(body[i]))
      && (forall i :: 0 <= i < |els| ==> ValidStmt(els[i]))
    case If(test, body, els) =>
      && LoadOnly(test)
      && (forall i :: 0 <= i < |body| ==> ValidStmt(body[i]))
      && (forall i :: 0 <= i < |els| ==> ValidStmt(els[i]))
    case Block(_, body) => forall i :: 0 <= i < |body| ==> ValidStmt(body[i])
    case Extends(t) => LoadOnly(t)
    case Include(t) => LoadOnly(t)
    case Import(t, name) => LoadOnly(t) && AssignableName(name)
    case FromImport(t, names) =>
      LoadOnly(t) && forall i :: 0 <= i < |names| ==> ValidImportName(names[i])
    case Macro(name, ps, ds, body) =>
      && AssignableName(name)
      && (forall i :: 0 <= i < |ps| ==> IsParam(ps[i]))
      && AllLoadOnly(ds) && |ds| <= |ps|
      && (forall i :: 0 <= i < |body| ==> ValidStmt(body[i]))
    case CallBlock(ps, ds, call, body) =>
      && (forall i :: 0 <= i < |ps| ==> IsParam(ps[i]))
      && AllLoadOnly(ds) && |ds| <= |ps|
      && call.Call? && LoadOnly(call)
      && (forall i :: 0 <= i < |body| ==> ValidStmt(body[i]))
    case FilterBlock(f, body) =>
      && f.Filter? && LoadOnly(f)
      && (forall i :: 0 <= i < |body| ==> ValidStmt(body[i]))
    case ExprStmt(e) => LoadOnly(e)
  }

  predicate AllValid(ss: seq<Stmt>)
  {
    forall i :: 0 <= i < |ss| ==> ValidStmt(ss[i])
  }
}

/** What the comma- and keyword-separated productions parse to, stated
    against reference definitions of the token runs they read: chains of
    conditional expressions, call arguments, list and dict displays, the
    expressions of `print`, the arms of an `if` construct, filter chains,
    and the data, `{{ ... }}` and `{% ... %}` chunks of a template body. */
module Runs {
  import opened Results
  import opened TokenStream
  import opened Nodes
  import opened CallOrder
  import opened Expressions
  import opened Statements
  import opened Properties
  import opened RunShapes

  // ---------------------------------------------------------------------
  // Conditional expressions nest to the right

  /** The right-nested conditional the chain means. */
  function NestCond(vals: seq<Expr>, tests: seq<Expr>): Expr
    requires |vals| == |tests| + 1
    decreases |tests|
  {
    if |tests| == 0 then vals[0] else CondExpr(tests[0], vals[0], NestCond(vals[1..], tests[1..]))
  }

  lemma {:induction false} CondExprRun(toks: seq<Token>, pos: nat, vals: seq<Expr>, tests: seq<Expr>, end: nat)
    ensures CondRun(toks, pos, vals, tests, end) ==>
              ParseCondExpr(toks, pos) == Ok(Parsed(NestCond(vals, tests), end))
    decreases |tests|
  {
    if CondRun(toks, pos, vals, tests, end) && |tests| > 0 {
      var v := ParseBinary(toks, pos, Or);
      var t := ParseBinary(toks, v.value.pos + 1, Or);
      CondTailIf(toks, v.value.pos, vals[0]);
      CondExprRun(toks, t.value.pos + 1, vals[1..], tests[1..], end);
    }
  }

  /** `a if b else c if d else e` is `a if b else (c if d else e)`. */
  lemma CondNestsRight(toks: seq<Token>, pos: nat, a: Expr, b: Expr, c: Expr, d: Expr, e: Expr, end: nat)
    requires CondRun(toks, pos, [a, c, e], [b, d], end)
    ensures ParseCondExpr(toks, pos) == Ok(Parsed(CondExpr(b, a, CondExpr(d, c, e)), end))
  {
    CondExprRun(toks, pos, [a, c, e], [b, d], end);
    assert [a, c, e][1..] == [c, e] && [b, d][1..] == [d];
    assert [c, e][1..] == [e] && [d][1..] == [];
    assert NestCond([e], []) == e;
    assert NestCond([c, e], [d]) == CondExpr(d, c, e);
  }

  // ---------------------------------------------------------------------
  // Call arguments

  /** The arguments collected from a run, one `AddArg` per argument in order. */
  function FoldArgs(a: Args, kinds: seq<ArgKind>, keys: seq<string>, es: seq<Expr>): Args
    requires |kinds| == |es| && |keys| == |es|
    decreases |es|
  {
    if |es| == 0 then a else FoldArgs(AddArg(a, kinds[0], keys[0], es[0]), kinds[1..], keys[1..], es[1..])
  }

  /** A prefix of a valid order is valid. */
  lemma ValidOrderPrefix(ks: seq<ArgKind>, n: nat)
    requires ValidOrder(ks) && n <= |ks|
    ensures ValidOrder(ks[..n])
  {
    assert forall i :: 0 <= i < n ==> ks[..n][i] == ks[i];
  }

  /** One admitted argument: the loop records it and continues after it,
      now requiring a comma. */
  lemma CallLoopStep(toks: seq<Token>, pos: nat, line: int, acc: ArgList, requireComma: bool, k: ArgKind, key: string, e: Expr, q: nat)
    requires pos <= |toks| && ArgsLoadOnly(acc.args) && ValidOrder(acc.order) && Tracks(acc.args, acc.order)
    requires requireComma ==> Kind(toks, pos) == "comma"
    requires var p := if requireComma then pos + 1 else pos;
             && p <= |toks| && Kind(toks, p) != "rparen" && ArgKindAt(toks, p) == k && Current(toks, p).value == key
             && ArgStart(p, k) <= |toks| && ParseExpression(toks, ArgStart(p, k), false) == Ok(Parsed(e, q))
    requires Admit(acc.args, k)
    ensures ValidOrder(acc.order + [k]) && Tracks(AddArg(acc.args, k, key, e), acc.order + [k])
    ensures ArgsLoadOnly(AddArg(acc.args, k, key, e)) && q <= |toks|
    ensures CallLoop(toks, pos, line, acc, requireComma) ==
            CallLoop(toks, q, line, ArgList(AddArg(acc.args, k, key, e), acc.order + [k]), true)
  {
    var p := if requireComma then pos + 1 else pos;
    AddArgKeepsOrder(acc.args, acc.order, k, key, e);
    var next := ArgList(AddArg(acc.args, k, key, e), acc.order + [k]);
    assert CallArg(toks, p, acc, k) == Ok(Parsed(next, q));
  }

  /** At the end of a run the loop stops at `)`, consuming one trailing comma. */
  lemma CallLoopLast(toks: seq<Token>, end: nat, line: int, acc: ArgList)
    requires end <= |toks| && ArgsLoadOnly(acc.args) && ValidOrder(acc.order) && Tracks(acc.args, acc.order)
    requires ClosedBy(toks, end, "rparen")
    ensures CallLoop(toks, end, line, acc, true) == Ok(Parsed(acc, AfterRun(toks, end)))
  {
  }

  /** The argument loop on a run whose kinds keep the order valid takes
      every argument, and stops at `)`, after one trailing comma if there
      is one. */
  lemma {:induction false} CallLoopRun(toks: seq<Token>, pos: nat, line: int, acc: ArgList, requireComma: bool,
                                       p: nat, kinds: seq<ArgKind>, keys: seq<string>, es: seq<Expr>, end: nat)
    requires pos <= |toks| && ArgsLoadOnly(acc.args) && ValidOrder(acc.order) && Tracks(acc.args, acc.order)
    requires requireComma ==> Kind(toks, pos) == "comma"
    requires p == if requireComma then pos + 1 else pos
    requires ArgRun(toks, p, kinds, keys, es, end)
    requires ValidOrder(acc.order + kinds) && ClosedBy(toks, end, "rparen")
    ensures CallLoop(toks, pos, line, acc, requireComma) ==
            Ok(Parsed(ArgList(FoldArgs(acc.args, kinds, keys, es), acc.order + kinds), AfterRun(toks, end)))
    decreases |es|
  {
    var k := kinds[0];
    var q := ParseExpression(toks, ArgStart(p, k), false).value.pos;
    ValidOrderPrefix(acc.order + kinds, |acc.order| + 1);
    assert (acc.order + kinds)[..|acc.order| + 1] == acc.order + [k];
    AdmitIsOrderCheck(acc.args, acc.order, k);
    AddArgKeepsOrder(acc.args, acc.order, k, keys[0], es[0]);
    var next := ArgList(AddArg(acc.args, k, keys[0], es[0]), acc.order + [k]);
    if |es| > 1 {
      AppendHead(acc.order, kinds);
      CallLoopRun(toks, q, line, next, true, q + 1, kinds[1..], keys[1..], es[1..], end);
    } else {
      assert kinds == [k];
      CallLoopLast(toks, end, line, next);
    }
    CallLoopStep(toks, pos, line, acc, requireComma, k, keys[0], es[0], q);
    assert FoldArgs(acc.args, kinds, keys, es) == FoldArgs(next.args, kinds[1..], keys[1..], es[1..]);
  }

  /** `parse_call` on a well-ordered run of arguments: every argument is
      recorded by its kind, in order, and a trailing comma before `)` is
      accepted. */
  lemma CallArgsRun(toks: seq<Token>, pos: nat, kinds: seq<ArgKind>, keys: seq<string>, es: seq<Expr>, end: nat)
    requires pos < |toks| && Kind(toks, pos) == "lparen"
    requires ArgRun(toks, pos + 1, kinds, keys, es, end)
    requires ValidOrder(kinds) && ClosedBy(toks, end, "rparen")
    ensures ParseCallArgs(toks, pos) ==
            Ok(Parsed(ArgList(FoldArgs(NoArgs, kinds, keys, es), kinds), AfterRun(toks, end) + 1))
  {
    assert [] + kinds == kinds;
    CallLoopRun(toks, pos + 1, Line(toks, pos), ArgList(NoArgs, []), false, pos + 1, kinds, keys, es, end);
  }

  /** `f()` has no arguments. */
  lemma EmptyCall(toks: seq<Token>, pos: nat)
    requires pos < |toks| && Kind(toks, pos) == "lparen" && Kind(toks, pos + 1) == "rparen"
    ensures ParseCallArgs(toks, pos) == Ok(Parsed(ArgList(NoArgs, []), pos + 2))
  {
  }

  /** `f(*a, **k)` is accepted: both dynamic arguments are recorded. */
  lemma StarThenDoubleStar(toks: seq<Token>, pos: nat, a: Expr, q: nat, k: Expr, q2: nat)
    requires pos + 2 <= |toks| && Kind(toks, pos) == "lparen" && Kind(toks, pos + 1) == "mul"
    requires ParseExpression(toks, pos + 2, false) == Ok(Parsed(a, q))
    requires Kind(toks, q) == "comma" && Kind(toks, q + 1) == "pow"
    requires ParseExpression(toks, q + 2, false) == Ok(Parsed(k, q2)) && Kind(toks, q2) == "rparen"
    ensures ParseCallArgs(toks, pos) == Ok(Parsed(ArgList(Args([], [], Some(a), Some(k)), [StarArgs, StarStarArgs]), q2 + 1))
  {
    var kinds := [StarArgs, StarStarArgs];
    var keys := [Current(toks, pos + 1).value, Current(toks, q + 1).value];
    assert kinds[1..] == [StarStarArgs] && keys[1..] == [keys[1]] && [a, k][1..] == [k];
    var one := AddArg(NoArgs, StarArgs, keys[0], a);
    assert FoldArgs(NoArgs, kinds, keys, [a, k]) == FoldArgs(one, [StarStarArgs], [keys[1]], [k]);
    assert FoldArgs(one, [StarStarArgs], [keys[1]], [k]) == FoldArgs(AddArg(one, StarStarArgs, keys[1], k), [], [], []);
    CallArgsRun(toks, pos, kinds, keys, [a, k], q2);
  }

  /** `f(a,)` is accepted: the trailing comma is consumed with the `)`. */
  lemma TrailingCommaCall(toks: seq<Token>, pos: nat, a: Expr, q: nat)
    requires pos + 1 < |toks| && Kind(toks, pos) == "lparen"
    requires Kind(toks, pos + 1) != "rparen" && ArgKindAt(toks, pos + 1) == Positional
    requires ParseExpression(toks, pos + 1, false) == Ok(Parsed(a, q))
    requires Kind(toks, q) == "comma" && Kind(toks, q + 1) == "rparen"
    ensures ParseCallArgs(toks, pos) == Ok(Parsed(ArgList(Args([a], [], None, None), [Positional]), q + 2))
  {
    var key := Current(toks, pos + 1).value;
    assert ArgRun(toks, pos + 1, [Positional], [key], [a], q);
    assert ValidOrder([Positional]);
    assert NoArgs.args + [a] == [a];
    CallArgsRun(toks, pos, [Positional], [key], [a], q);
    assert FoldArgs(NoArgs, [Positional], [key], [a]) == FoldArgs(AddArg(NoArgs, Positional, key, a), [], [], []);
  }

  // ---------------------------------------------------------------------
  // List displays and `print`

  /** The list loop from `pos`, after the items collected so far (and the
      comma that follows them), takes the run and stops at `]`. */
  lemma {:induction false} ListItemsRun(toks: seq<Token>, pos: nat, items: seq<Expr>, p: nat, es: seq<Expr>, end: nat)
    requires pos <= |toks| && AllLoadOnly(items)
    requires |items| > 0 ==> Kind(toks, pos) == "comma"
    requires p == if |items| > 0 then pos + 1 else pos
    requires ExprRun(toks, p, {"rbracket"}, es, end) && ClosedBy(toks, end, "rbracket")
    ensures ListItems(toks, pos, items) == Ok(Parsed(items + es, AfterRun(toks, end)))
    decreases |es|
  {
    var q := ParseExpression(toks, p, false).value.pos;
    if |es| > 1 {
      ListItemsRun(toks, q, items + [es[0]], q + 1, es[1..], end);
      AppendHead(items, es);
    } else {
      assert es == [es[0]];
    }
  }

  /** A list display holds its expressions in order; one trailing comma is
      allowed before `]`. */
  lemma ListOfRun(toks: seq<Token>, pos: nat, es: seq<Expr>, end: nat)
    requires pos < |toks| && Kind(toks, pos) == "lbracket"
    requires ExprRun(toks, pos + 1, {"rbracket"}, es, end) && ClosedBy(toks, end, "rbracket")
    ensures ParseList(toks, pos) == Ok(Parsed(List(es), AfterRun(toks, end) + 1))
  {
    ListItemsRun(toks, pos + 1, [], pos + 1, es, end);
    assert [] + es == es;
  }

  /** The loop of `print` from `pos`, after the nodes collected so far (and
      the comma that follows them), takes the run and stops at its end. */
  lemma {:induction false} PrintLoopRun(toks: seq<Token>, pos: nat, nodes: seq<Expr>, p: nat, es: seq<Expr>, end: nat)
    requires pos <= |toks| && AllLoadOnly(nodes)
    requires |nodes| > 0 ==> Kind(toks, pos) == "comma"
    requires p == if |nodes| > 0 then pos + 1 else pos
    requires ExprRun(toks, p, StatementEndTokens, es, end) && Kind(toks, end) in StatementEndTokens
    ensures PrintLoop(toks, pos, nodes) == Ok(Parsed(nodes + es, end))
    decreases |es|
  {
    var q := ParseExpression(toks, p, false).value.pos;
    if |es| > 1 {
      PrintLoopRun(toks, q, nodes + [es[0]], q + 1, es[1..], end);
      AppendHead(nodes, es);
    } else {
      assert es == [es[0]];
    }
  }

  /** `print a, b, ...` outputs its expressions in order; unlike a list it
      takes no trailing comma. */
  lemma PrintOfRun(toks: seq<Token>, pos: nat, es: seq<Expr>, end: nat)
    requires pos < |toks| && Kind(toks, pos) == "print"
    requires ExprRun(toks, pos + 1, StatementEndTokens, es, end) && Kind(toks, end) in StatementEndTokens
    ensures ParsePrint(toks, pos) == Ok(Parsed(Output(es), end))
  {
    PrintLoopRun(toks, pos + 1, [], pos + 1, es, end);
    assert [] + es == es;
  }

  // ---------------------------------------------------------------------
  // Dict displays

  /** The dict loop from `pos`, after the pairs collected so far (and the
      comma that follows them), takes the run and stops at `}`. */
  lemma {:induction false} DictItemsRun(toks: seq<Token>, pos: nat, pairs: seq<Pair>, p: nat, ps: seq<Pair>, end: nat)
    requires pos <= |toks|
    requires PairsLoadOnly(pairs)
    requires |pairs| > 0 ==> Kind(toks, pos) == "comma"
    requires p == if |pairs| > 0 then pos + 1 else pos
    ensures DictRun(toks, p, ps, end) ==>
              DictItems(toks, pos, pairs) == Ok(Parsed(pairs + ps, AfterRun(toks, end)))
    decreases |ps|
  {
    if DictRun(toks, p, ps, end) {
      var k := ParseExpression(toks, p, false);
      var q := ParseExpression(toks, k.value.pos + 1, false).value.pos;
      if |ps| > 1 {
        DictItemsRun(toks, q, pairs + [ps[0]], q + 1, ps[1..], end);
        AppendHead(pairs, ps);
      } else {
        assert ps == [ps[0]];
      }
    }
  }

  /** A dict display holds its pairs in order; one trailing comma is
      allowed before `}`. */
  lemma DictOfRun(toks: seq<Token>, pos: nat, ps: seq<Pair>, end: nat)
    requires pos < |toks| && Kind(toks, pos) == "lbrace"
    requires DictRun(toks, pos + 1, ps, end)
    ensures ParseDict(toks, pos) == Ok(Parsed(Dict(ps), AfterRun(toks, end) + 1))
  {
    assert [] + ps == ps;
    DictItemsRun(toks, pos + 1, [], pos + 1, ps, end);
  }

  // ---------------------------------------------------------------------
  // If constructs

  /** The `parse_if` loop collects the arms in order; the final else-list
      is the body after `else` up to `endif`, or empty. */
  lemma {:induction false} IfBranchesRun(toks: seq<Token>, pos: nat, bs: seq<Branch>, end: nat, els: seq<Stmt>, q: nat)
    requires end <= |toks|
    requires Kind(toks, end) == "else" ==> ParseStatements(toks, end + 1, {"endif"}, true) == Ok(Parsed(els, q))
    requires Kind(toks, end) != "else" ==> els == [] && q == Next(toks, end)
    ensures ArmRun(toks, pos, bs, end) ==> IfBranches(toks, pos) == Ok(Parsed(IfChain(bs, els), q))
    decreases |bs|
  {
    if ArmRun(toks, pos, bs, end) {
      var t := ParseTuple(toks, pos, Full);
      var b := ParseStatements(toks, t.value.pos, {"elif", "else", "endif"}, false);
      if |bs| > 1 {
        IfBranchesRun(toks, Next(toks, b.value.pos), bs[1..], end, els, q);
        assert [bs[0]] + bs[1..] == bs;
      } else {
        assert [bs[0]] == bs;
      }
    }
  }

  /** An `if` construct is its arms nested through their else-lists, the
      final else-list at the bottom. */
  lemma ParseIfRun(toks: seq<Token>, pos: nat, bs: seq<Branch>, end: nat, els: seq<Stmt>, q: nat)
    requires pos < |toks| && Kind(toks, pos) == "if"
    requires end <= |toks| && ArmRun(toks, pos + 1, bs, end)
    requires Kind(toks, end) == "else" ==> ParseStatements(toks, end + 1, {"endif"}, true) == Ok(Parsed(els, q))
    requires Kind(toks, end) != "else" ==> els == [] && q == Next(toks, end)
    ensures ParseIf(toks, pos) == Ok(Parsed(NestIfs(bs, els), q))
  {
    IfBranchesRun(toks, pos + 1, bs, end, els, q);
  }

  // ---------------------------------------------------------------------
  // Filter chains

  /** The filter loop applies the filters of the run in order, each taking
      the previous result as its input. */
  lemma {:induction false} FilterChainRun(toks: seq<Token>, pos: nat, node: Expr, fs: seq<FilterApp>, end: nat)
    requires pos <= |toks| && LoadOnly(node)
    ensures FilterRun(toks, pos, fs, end) ==> FilterChain(toks, pos, node) == Ok(Parsed(Layers(node, fs), end))
    decreases |fs|
  {
    if FilterRun(toks, pos, fs, end) && |fs| > 0 {
      FilterChainStep(toks, pos, node);
      var f := FilterItem(toks, pos + 1, Some(node));
      assert f.Ok? && f.value.val == Filter(Some(node), fs[0].name, fs[0].args);
      FilterChainRun(toks, f.value.pos, f.value.val, fs[1..], end);
    }
  }

  // ---------------------------------------------------------------------
  // Template bodies

  /** Where `subparse` ends a body that stops at `stop`: the end of input
      stays, the end keyword after `{%` is reached. */
  function BodyEnd(toks: seq<Token>, stop: nat): nat
  {
    if Kind(toks, stop) == "eof" then stop else stop + 1
  }

  /** What `subparse` does over one chunk: what the chunk completes is
      appended to the body and the buffer is updated. */
  predicate PassesOver(toks: seq<Token>, pos: nat, end: Option<set<string>>, body: seq<Stmt>, buf: seq<Expr>, c: Chunk)
    requires pos <= |toks| && AllValid(body) && AllLoadOnly(buf)
  {
    && ChunkEnd(pos, c) <= |toks|
    && AllValid(body + Emitted(c, buf)) && AllLoadOnly(Buffered(c, buf))
    && SubparseLoop(toks, pos, end, body, buf)
       == SubparseLoop(toks, ChunkEnd(pos, c), end, body + Emitted(c, buf), Buffered(c, buf))
  }

  lemma TextChunk(toks: seq<Token>, pos: nat, end: Option<set<string>>, body: seq<Stmt>, buf: seq<Expr>, c: Chunk)
    requires pos <= |toks| && AllValid(body) && AllLoadOnly(buf)
    requires c.Text? && ChunkAt(toks, pos, end, c)
    ensures PassesOver(toks, pos, end, body, buf, c)
  {
    SubparseLoopStep(toks, pos, end, body, buf);
    assert body + Emitted(c, buf) == body;
  }

  lemma EchoChunk(toks: seq<Token>, pos: nat, end: Option<set<string>>, body: seq<Stmt>, buf: seq<Expr>, c: Chunk)
    requires pos <= |toks| && AllValid(body) && AllLoadOnly(buf)
    requires c.Echo? && ChunkAt(toks, pos, end, c)
    ensures PassesOver(toks, pos, end, body, buf, c)
  {
    SubparseLoopStep(toks, pos, end, body, buf);
    SubparseOutputStep(toks, pos, end, body, buf);
    assert body + Emitted(c, buf) == body;
  }

  lemma TagChunk(toks: seq<Token>, pos: nat, end: Option<set<string>>, body: seq<Stmt>, buf: seq<Expr>, c: Chunk)
    requires pos <= |toks| && AllValid(body) && AllLoadOnly(buf)
    requires c.Tag? && ChunkAt(toks, pos, end, c)
    ensures PassesOver(toks, pos, end, body, buf, c)
  {
    SubparseLoopStep(toks, pos, end, body, buf);
    SubparseTagStep(toks, pos, end, body, buf);
    FlushThenStatement(body, buf, c);
  }

  /** Flushing the buffer and appending a tag's statement is what the tag
      completes. */
  lemma FlushThenStatement(body: seq<Stmt>, buf: seq<Expr>, c: Chunk)
    requires AllValid(body) && AllLoadOnly(buf) && c.Tag?
    ensures Flush(body, buf) + [c.stmt] == body + Emitted(c, buf)
  {
  }

  /** `subparse` passes over every kind of chunk. */
  lemma ChunkStep(toks: seq<Token>, pos: nat, end: Option<set<string>>, body: seq<Stmt>, buf: seq<Expr>, c: Chunk)
    requires pos <= |toks| && AllValid(body) && AllLoadOnly(buf)
    ensures ChunkAt(toks, pos, end, c) ==> PassesOver(toks, pos, end, body, buf, c)
  {
    if ChunkAt(toks, pos, end, c) {
      if c.Text? {
        TextChunk(toks, pos, end, body, buf, c);
      } else if c.Echo? {
        EchoChunk(toks, pos, end, body, buf, c);
      } else {
        TagChunk(toks, pos, end, body, buf, c);
      }
    }
  }

  /** A run of chunks is its first chunk, then the rest of the run. */
  lemma ChunkRunUnfold(toks: seq<Token>, pos: nat, end: Option<set<string>>, cs: seq<Chunk>, stop: nat)
    requires ChunkRun(toks, pos, end, cs, stop) && |cs| > 0
    ensures ChunkAt(toks, pos, end, cs[0]) && ChunkRun(toks, ChunkEnd(pos, cs[0]), end, cs[1..], stop)
  {
  }

  /** The layout of a run is what its first chunk completes, then the
      layout of the rest. */
  lemma LayoutUnfold(body: seq<Stmt>, cs: seq<Chunk>, buf: seq<Expr>)
    requires |cs| > 0
    ensures body + Emitted(cs[0], buf) + Layout(cs[1..], Buffered(cs[0], buf)) == body + Layout(cs, buf)
  {
  }

  /** The `subparse` loop over a run of chunks appends their layout to the
      statements already read, and stops where the run does. */
  lemma {:induction false} SubparseRun(toks: seq<Token>, pos: nat, end: Option<set<string>>, body: seq<Stmt>, buf: seq<Expr>, cs: seq<Chunk>, stop: nat)
    requires pos <= |toks| && AllValid(body) && AllLoadOnly(buf)
    requires Kind(toks, stop) == "eof" || (Kind(toks, stop) == "block_begin" && end.Some? && Kind(toks, stop + 1) in end.value)
    ensures ChunkRun(toks, pos, end, cs, stop) ==>
              SubparseLoop(toks, pos, end, body, buf) == Ok(Parsed(body + Layout(cs, buf), BodyEnd(toks, stop)))
    decreases |cs|
  {
    if ChunkRun(toks, pos, end, cs, stop) {
      if |cs| == 0 {
        assert Flush(body, buf) == body + OutputOf(buf);
      } else {
        var c, rest := cs[0], cs[1..];
        ChunkRunUnfold(toks, pos, end, cs, stop);
        ChunkStep(toks, pos, end, body, buf, c);
        SubparseRun(toks, ChunkEnd(pos, c), end, body + Emitted(c, buf), Buffered(c, buf), rest, stop);
        LayoutUnfold(body, cs, buf);
      }
    }
  }

  /** A whole template that reads as a run of chunks parses to their layout. */
  lemma ParseRun(toks: seq<Token>, cs: seq<Chunk>, stop: nat)
    requires Kind(toks, stop) == "eof"
    ensures ChunkRun(toks, 0, None, cs, stop) ==> Parse(toks) == Ok(Template(Layout(cs, [])))
  {
    if ChunkRun(toks, 0, None, cs, stop) {
      SubparseRun(toks, 0, None, [], [], cs, stop);
      assert [] + Layout(cs, []) == Layout(cs, []);
    }
  }

  /** Three chunks in a row, each starting where the previous one closes, form a run. */
  lemma RunOfThree(toks: seq<Token>, end: Option<set<string>>, c0: Chunk, c1: Chunk, c2: Chunk, stop: nat)
    requires ChunkAt(toks, 0, end, c0) && ChunkAt(toks, ChunkEnd(0, c0), end, c1)
    requires ChunkAt(toks, ChunkEnd(ChunkEnd(0, c0), c1), end, c2)
    requires stop == ChunkEnd(ChunkEnd(ChunkEnd(0, c0), c1), c2)
    ensures ChunkRun(toks, 0, end, [c0, c1, c2], stop)
  {
    var e1 := ChunkEnd(0, c0);
    var e2 := ChunkEnd(e1, c1);
    assert [c2][1..] == [] && [c1, c2][1..] == [c2] && [c0, c1, c2][1..] == [c1, c2];
    assert ChunkRun(toks, e2, end, [c2], stop);
    assert ChunkRun(toks, e1, end, [c1, c2], stop);
  }

  /** Text, echo, text: one Output of all three. */
  lemma LayoutTextEchoText(a: string, x: Expr, q: nat, b: string)
    requires a != "" && b != ""
    ensures Layout([Text(a), Echo(x, q), Text(b)], []) == [Output([Const(LToken(a)), x, Const(LToken(b))])]
  {
    var ca, cb := Const(LToken(a)), Const(LToken(b));
    assert [Text(b)][1..] == [] && [Echo(x, q), Text(b)][1..] == [Text(b)];
    assert [Text(a), Echo(x, q), Text(b)][1..] == [Echo(x, q), Text(b)];
    assert [ca] + [x] == [ca, x] && [ca, x] + [cb] == [ca, x, cb] && [] + [ca] == [ca];
    assert Layout([], [ca, x, cb]) == [Output([ca, x, cb])];
    assert Layout([Text(b)], [ca, x]) == Layout([], [ca, x, cb]);
    assert Layout([Echo(x, q), Text(b)], [ca]) == Layout([Text(b)], [ca, x]);
    assert Layout([Text(a), Echo(x, q), Text(b)], []) == Layout([Echo(x, q), Text(b)], [ca]);
  }

  /** Text, tag, text: the tag closes the first Output and opens the next. */
  lemma LayoutTextTagText(a: string, st: Stmt, q: nat, b: string)
    requires a != "" && b != ""
    ensures Layout([Text(a), Tag(st, q), Text(b)], []) == [Output([Const(LToken(a))]), st, Output([Const(LToken(b))])]
  {
    var ca, cb := Const(LToken(a)), Const(LToken(b));
    assert [Text(b)][1..] == [] && [Tag(st, q), Text(b)][1..] == [Text(b)];
    assert [Text(a), Tag(st, q), Text(b)][1..] == [Tag(st, q), Text(b)];
    assert [] + [ca] == [ca] && [] + [cb] == [cb];
    assert Layout([], [cb]) == [Output([cb])];
    assert Layout([Text(b)], []) == Layout([], [cb]);
    assert Layout([Tag(st, q), Text(b)], [ca]) == [Output([ca]), st] + Layout([Text(b)], []);
    assert Layout([Text(a), Tag(st, q), Text(b)], []) == Layout([Tag(st, q), Text(b)], [ca]);
  }

  /** `a{{ x }}b` is one Output of `a`, `x` and `b`. */
  lemma EchoJoinsData(toks: seq<Token>, x: Expr, q: nat)
    requires |toks| == q + 2 && toks[0].kind == "data" && toks[0].value != ""
    requires Kind(toks, 1) == "variable_begin" && ParseTuple(toks, 2, Full) == Ok(Parsed(x, q))
    requires Kind(toks, q) == "variable_end" && toks[q + 1].kind == "data" && toks[q + 1].value != ""
    ensures Parse(toks) == Ok(Template([Output([Const(LToken(toks[0].value)), x, Const(LToken(toks[q + 1].value))])]))
  {
    var a, b := toks[0].value, toks[q + 1].value;
    RunOfThree(toks, None, Text(a), Echo(x, q), Text(b), q + 2);
    ParseRun(toks, [Text(a), Echo(x, q), Text(b)], q + 2);
    LayoutTextEchoText(a, x, q, b);
  }

  /** `a{% s %}b` is an Output of `a`, the statement, and an Output of `b`. */
  lemma TagSplitsData(toks: seq<Token>, st: Stmt, q: nat)
    requires |toks| == q + 2 && toks[0].kind == "data" && toks[0].value != ""
    requires Kind(toks, 1) == "block_begin" && ParseStatement(toks, 2) == Ok(Parsed(st, q))
    requires Kind(toks, q) == "block_end" && toks[q + 1].kind == "data" && toks[q + 1].value != ""
    ensures Parse(toks) == Ok(Template([Output([Const(LToken(toks[0].value))]), st, Output([Const(LToken(toks[q + 1].value))])]))
  {
    var a, b := toks[0].value, toks[q + 1].value;
    RunOfThree(toks, None, Text(a), Tag(st, q), Text(b), q + 2);
    ParseRun(toks, [Text(a), Tag(st, q), Text(b)], q + 2);
    LayoutTextTagText(a, st, q, b);
  }
}

/** The statement grammar of the template parser and the template driver
    `subparse`, which interleaves template data, `{{ ... }}` output and
    `{% ... %}` statements until an end keyword or the end of input.

    Every statement production returns a statement that satisfies the
    output invariant `ValidStmt`: every target in store or param context
    passed the assignability check, and every other expression is in load
    context. Termination is as in `Expressions`: the number of tokens left,
    then a rank that decreases along every call made without consuming a
    token first. */
module Statements {
  import opened Results
  import opened TokenStream
  import opened Nodes
  import opened Expressions

  /** One `if`/`elif` arm: its test and its body. */
  datatype Branch = Branch(test: Expr, body: seq<Stmt>)

  /** An `if` construct as read: the arms in source order and the final
      `else` body (empty when there is none). */
  datatype IfChain = IfChain(branches: seq<Branch>, else_: seq<Stmt>)

  /** Macro and call-block parameters, and the defaults given to them. */
  datatype Signature = Signature(params: seq<Expr>, defaults: seq<Expr>)

  /** A statement parse stayed within the stream and built a valid statement. */
  predicate StmtWithin(toks: seq<Token>, pos: nat, r: Result<Parsed<Stmt>>)
  {
    r.Ok? ==> pos <= r.value.pos <= |toks| && ValidStmt(r.value.val)
  }

  /** A statement parse consumed at least one token and built a valid statement. */
  predicate StmtProgress(toks: seq<Token>, pos: nat, r: Result<Parsed<Stmt>>)
  {
    r.Ok? ==> pos < r.value.pos <= |toks| && ValidStmt(r.value.val)
  }

  predicate ValidBranch(b: Branch)
  {
    LoadOnly(b.test) && AllValid(b.body)
  }

  /** The statement kind each leading token selects; any other token starts
      an assignment or an expression statement. */
  predicate Dispatched(kind: string, s: Stmt)
  {
    if kind == "for" then s.For?
    else if kind == "if" then s.If?
    else if kind == "block" then s.Block?
    else if kind == "extends" then s.Extends?
    else if kind == "print" then s.Output?
    else if kind == "macro" then s.Macro?
    else if kind == "include" then s.Include?
    else if kind == "from" then s.FromImport?
    else if kind == "import" then s.Import?
    else if kind == "call" then s.CallBlock?
    else if kind == "filter" then s.FilterBlock?
    else s.Assign? || s.ExprStmt?
  }

  /** Where `subparse` may stop: at the end of input, or (with end keywords)
      at one of them. */
  predicate Stopped(toks: seq<Token>, pos: nat, end: Option<set<string>>)
  {
    Kind(toks, pos) == "eof" || (end.Some? && Kind(toks, pos) in end.value)
  }

  /** The keywords `parse_statement` dispatches on: the statement keywords
      and the `call` and `filter` blocks. */
  const DispatchKeywords: set<string> := StatementKeywords + {"call", "filter"}

  /** `parse_statement`: dispatch on the first token of a `{% ... %}` body.
      No extension tags are registered, so a name token is never taken by
      an extension. */
  function ParseStatement(toks: seq<Token>, pos: nat): (r: Result<Parsed<Stmt>>)
    requires pos <= |toks|
    ensures StmtWithin(toks, pos, r)
    ensures r.Ok? ==> Dispatched(Kind(toks, pos), r.value.val)
    decreases |toks| - pos, 6
  {
    var k := Kind(toks, pos);
    if k == "for" then ParseFor(toks, pos)
    else if k == "if" then ParseIf(toks, pos)
    else if k == "block" then ParseBlock(toks, pos)
    else if k == "extends" then ParseExtends(toks, pos)
    else if k == "print" then ParsePrint(toks, pos)
    else if k == "macro" then ParseMacro(toks, pos)
    else if k == "include" then ParseInclude(toks, pos)
    else if k == "from" then ParseFrom(toks, pos)
    else if k == "import" then ParseImport(toks, pos)
    else if k == "call" then ParseCallBlock(toks, pos)
    else if k == "filter" then ParseFilterBlock(toks, pos)
    else
      var e :- ParseTuple(toks, pos, Full);
      if Kind(toks, e.pos) == "assign" then ParseAssign(toks, e.pos, e.val, Line(toks, pos))
      else Ok(Parsed(ExprStmt(e.val), e.pos))
  }

  /** A statement that starts with no keyword is a tuple, then an
      assignment when `=` follows and an expression statement otherwise. */
  lemma StatementFallback(toks: seq<Token>, pos: nat)
    requires pos <= |toks| && Kind(toks, pos) !in DispatchKeywords
    ensures var e := ParseTuple(toks, pos, Full);
            var r := ParseStatement(toks, pos);
            && (e.Err? ==> r == Err(e.error))
            && (e.Ok? && Kind(toks, e.value.pos) == "assign" ==> r == ParseAssign(toks, e.value.pos, e.value.val, Line(toks, pos)))
            && (e.Ok? && Kind(toks, e.value.pos) != "assign" ==> r == Ok(Parsed(ExprStmt(e.value.val), e.value.pos)))
  {
  }

  /** `parse_assign`: `target = value`. The target is checked before the
      value is read, and only a target that passed is switched to store. */
  function ParseAssign(toks: seq<Token>, pos: nat, target: Expr, targetLine: int): (r: Result<Parsed<Stmt>>)
    requires pos <= |toks|
    ensures StmtProgress(toks, pos, r)
    ensures r.Ok? ==> CanAssign(target) && r.value.val.Assign? && r.value.val.target == SetCtx(target, Store)
    ensures Kind(toks, pos) == "assign" && !CanAssign(target) ==> r == Err(Syntax(CantAssign, targetLine))
    ensures Kind(toks, pos) != "assign" ==> r == Err(Syntax(UnexpectedToken, Line(toks, pos)))
    ensures Kind(toks, pos) == "assign" && CanAssign(target) ==>
              var v := ParseTuple(toks, pos + 1, Full);
              && (v.Err? ==> r == Err(v.error))
              && (v.Ok? ==> r == Ok(Parsed(Assign(SetCtx(target, Store), v.value.val), v.value.pos)))
  {
    var eq :- Expect(toks, pos, "assign");
    if !CanAssign(target) then Err(Syntax(CantAssign, targetLine))
    else
      var value :- ParseTuple(toks, eq.pos, Full);
      SetCtxSets(target, Store);
      Ok(Parsed(Assign(SetCtx(target, Store), value.val), value.pos))
  }

  /** `parse_statements`: an optional colon, the closing `%}` of the
      opening tag, then the body up to one of the end keywords. With
      `dropNeedle` the end keyword is consumed too. */
  function ParseStatements(toks: seq<Token>, pos: nat, end: set<string>, dropNeedle: bool)
    : (r: Result<Parsed<seq<Stmt>>>)
    requires pos <= |toks|
    ensures r.Ok? ==> pos < r.value.pos <= |toks| && AllValid(r.value.val)
    ensures r.Ok? && !dropNeedle ==> Stopped(toks, r.value.pos, Some(end))
    decreases |toks| - pos, 3
  {
    var p := if Kind(toks, pos) == "colon" then pos + 1 else pos;
    var open :- Expect(toks, p, "block_end");
    var body :- Subparse(toks, open.pos, Some(end));
    Ok(Parsed(body.val, if dropNeedle then Next(toks, body.pos) else body.pos))
  }

  /** The body of a statement is what `subparse` reads after the `%}` of
      the opening tag, up to one of the end keywords. */
  lemma StatementsStep(toks: seq<Token>, pos: nat, end: set<string>, dropNeedle: bool)
    requires pos <= |toks|
    ensures var p := if Kind(toks, pos) == "colon" then pos + 1 else pos;
            var r := ParseStatements(toks, pos, end, dropNeedle);
            && (Kind(toks, p) != "block_end" ==> r == Err(Syntax(UnexpectedToken, Line(toks, p))))
            && (Kind(toks, p) == "block_end" ==>
                  var b := Subparse(toks, p + 1, Some(end));
                  && (b.Err? ==> r == Err(b.error))
                  && (b.Ok? ==> r == Ok(Parsed(b.value.val, if dropNeedle then Next(toks, b.value.pos) else b.value.pos))))
  {
  }

  /** `parse_for`: `for target in iter [if guard]` with a body and an
      optional `else` body. */
  function ParseFor(toks: seq<Token>, pos: nat): (r: Result<Parsed<Stmt>>)
    requires pos <= |toks|
    ensures StmtProgress(toks, pos, r)
    ensures r.Ok? ==> r.value.val.For?
    ensures Kind(toks, pos) == "for" ==>
              var t := ParseTuple(toks, pos + 1, Simplified);
              t.Ok? && !CanAssign(t.value.val) ==> r == Err(Syntax(CantAssign, Line(toks, pos + 1)))
    ensures r.Ok? ==>
              var t := ParseTuple(toks, pos + 1, Simplified);
              && t.Ok? && r.value.val.target == SetCtx(t.value.val, Store)
              && IsStoreTarget(r.value.val.target)
              && r == ForClauses(toks, t.value.pos, r.value.val.target)
    decreases |toks| - pos, 5
  {
    var kw :- Expect(toks, pos, "for");
    var target :- ParseTuple(toks, kw.pos, Simplified);
    if !CanAssign(target.val) then Err(Syntax(CantAssign, Line(toks, kw.pos)))
    else
      SetCtxSets(target.val, Store);
      ForClauses(toks, target.pos, SetCtx(target.val, Store))
  }

  /** The rest of a `for` tag after its target: `in`, the iterable, the
      optional guard, the body and the optional `else` body. */
  function ForClauses(toks: seq<Token>, pos: nat, target: Expr): (r: Result<Parsed<Stmt>>)
    requires pos <= |toks| && IsStoreTarget(target)
    ensures StmtProgress(toks, pos, r)
    ensures r.Ok? ==> r.value.val.For? && r.value.val.target == target
    ensures r.Ok? ==>
              && Kind(toks, pos) == "in"
              && var iter := ParseTuple(toks, pos + 1, NoCondexpr);
                 && iter.Ok? && r.value.val.iter == iter.value.val
                 && var guard := ForGuard(toks, iter.value.pos);
                    && guard.Ok? && r.value.val.guard == guard.value.val
                    && var body := ParseStatements(toks, guard.value.pos, {"endfor", "else"}, false);
                       && body.Ok? && r.value.val.body == body.value.val
                       && var els := ForElse(toks, body.value.pos);
                          els.Ok? && r.value.val.else_ == els.value.val && r.value.pos == els.value.pos
    decreases |toks| - pos, 4
  {
    var inTok :- Expect(toks, pos, "in");
    var iter :- ParseTuple(toks, inTok.pos, NoCondexpr);
    var guard :- ForGuard(toks, iter.pos);
    var body :- ParseStatements(toks, guard.pos, {"endfor", "else"}, false);
    var els :- ForElse(toks, body.pos);
    Ok(Parsed(For(target, iter.val, body.val, els.val, guard.val), els.pos))
  }

  /** The optional `if guard` of a `for` loop. */
  function ForGuard(toks: seq<Token>, pos: nat): (r: Result<Parsed<Option<Expr>>>)
    requires pos <= |toks|
    ensures r.Ok? ==> pos <= r.value.pos <= |toks| && OptLoadOnly(r.value.val)
    ensures Kind(toks, pos) != "if" ==> r == Ok(Parsed(None, pos))
    ensures Kind(toks, pos) == "if" ==>
              var g := ParseExpression(toks, pos + 1, false);
              && (g.Ok? ==> r == Ok(Parsed(Some(g.value.val), g.value.pos)))
              && (g.Err? ==> r == Err(g.error))
  {
    if Kind(toks, pos) == "if" then
      var g :- ParseExpression(toks, pos + 1, false);
      Ok(Parsed(Some(g.val), g.pos))
    else
      Ok(Parsed(None, pos))
  }

  /** What follows the body of a `for` loop: `endfor` directly, or an
      `else` body up to `endfor`. */
  function ForElse(toks: seq<Token>, pos: nat): (r: Result<Parsed<seq<Stmt>>>)
    requires pos <= |toks|
    ensures r.Ok? ==> pos <= r.value.pos <= |toks| && AllValid(r.value.val)
    ensures Kind(toks, pos) == "endfor" ==> r == Ok(Parsed([], pos + 1))
    ensures Kind(toks, pos) == "else" ==> r == ParseStatements(toks, pos + 1, {"endfor"}, true)
    ensures Kind(toks, pos) == "eof" ==> r.Err?
    decreases |toks| - pos, 4
  {
    if Kind(toks, pos) == "endfor" then Ok(Parsed([], Next(toks, pos)))
    else ParseStatements(toks, Next(toks, pos), {"endfor"}, true)
  }

  /** `parse_if`: the arms are read in order and nested, each `elif`
      becoming the single statement of the previous arm's `else`. */
  function ParseIf(toks: seq<Token>, pos: nat): (r: Result<Parsed<Stmt>>)
    requires pos <= |toks|
    ensures StmtProgress(toks, pos, r)
    ensures r.Ok? ==>
              var chain := IfBranches(toks, pos + 1);
              chain.Ok? && r.value.val == NestIfs(chain.value.val.branches, chain.value.val.else_)
    decreases |toks| - pos, 5
  {
    var kw :- Expect(toks, pos, "if");
    var chain :- IfBranches(toks, kw.pos);
    NestIfsValid(chain.val.branches, chain.val.else_);
    Ok(Parsed(NestIfs(chain.val.branches, chain.val.else_), chain.pos))
  }

  /** The loop of `parse_if`: one arm, then `elif` (another arm), `else`
      (the final body up to `endif`) or anything else (no `else` body). */
  function IfBranches(toks: seq<Token>, pos: nat): (r: Result<Parsed<IfChain>>)
    requires pos <= |toks|
    ensures r.Ok? ==> pos < r.value.pos <= |toks|
    ensures r.Ok? ==> |r.value.val.branches| >= 1 && AllValid(r.value.val.else_)
    ensures r.Ok? ==> forall i :: 0 <= i < |r.value.val.branches| ==> ValidBranch(r.value.val.branches[i])
    ensures r.Ok? ==>
              var test := ParseTuple(toks, pos, Full);
              test.Ok? && r.value.val.branches[0].test == test.value.val
    decreases |toks| - pos, 4
  {
    var test :- ParseTuple(toks, pos, Full);
    var body :- ParseStatements(toks, test.pos, {"elif", "else", "endif"}, false);
    var arm := Branch(test.val, body.val);
    var kind := Kind(toks, body.pos);
    var p := Next(toks, body.pos);
    if kind == "elif" then
      var rest :- IfBranches(toks, p);
      Ok(Parsed(IfChain([arm] + rest.val.branches, rest.val.else_), rest.pos))
    else if kind == "else" then
      var els :- ParseStatements(toks, p, {"endif"}, true);
      Ok(Parsed(IfChain([arm], els.val), els.pos))
    else
      Ok(Parsed(IfChain([arm], []), p))
  }

  /** What one round of the `parse_if` loop reads: the arm is the parsed
      test and body; after it, `elif` continues with the next arms, `else`
      ends the chain with the body up to `endif`, and anything else ends it
      with an empty else-list. */
  lemma IfBranchesStep(toks: seq<Token>, pos: nat)
    requires pos <= |toks|
    ensures var r := IfBranches(toks, pos);
            r.Ok? ==>
              var test := ParseTuple(toks, pos, Full);
              && test.Ok?
              && var body := ParseStatements(toks, test.value.pos, {"elif", "else", "endif"}, false);
                 && body.Ok?
                 && r.value.val.branches[0] == Branch(test.value.val, body.value.val)
                 && var k := Kind(toks, body.value.pos);
                    && (k == "elif" ==>
                          var rest := IfBranches(toks, body.value.pos + 1);
                          && rest.Ok? && r.value.val.branches[1..] == rest.value.val.branches
                          && r.value.val.else_ == rest.value.val.else_ && r.value.pos == rest.value.pos)
                    && (k == "else" ==>
                          var els := ParseStatements(toks, body.value.pos + 1, {"endif"}, true);
                          && |r.value.val.branches| == 1 && els.Ok?
                          && r.value.val.else_ == els.value.val && r.value.pos == els.value.pos)
                    && (k != "elif" && k != "else" ==>
                          |r.value.val.branches| == 1 && r.value.val.else_ == [] && r.value.pos == Next(toks, body.value.pos))
  {
  }

  /** The If node an arm sequence builds: the first arm on top, each later
      arm nested as the only statement of the previous arm's `else`. */
  function NestIfs(bs: seq<Branch>, els: seq<Stmt>): Stmt
    requires |bs| >= 1
    decreases |bs|
  {
    if |bs| == 1 then If(bs[0].test, bs[0].body, els)
    else If(bs[0].test, bs[0].body, [NestIfs(bs[1..], els)])
  }

  lemma {:induction false} NestIfsValid(bs: seq<Branch>, els: seq<Stmt>)
    requires |bs| >= 1 && AllValid(els)
    requires forall i :: 0 <= i < |bs| ==> ValidBranch(bs[i])
    ensures ValidStmt(NestIfs(bs, els))
    decreases |bs|
  {
    assert ValidBranch(bs[0]);
    if |bs| > 1 {
      NestIfsValid(bs[1..], els);
      assert AllValid([NestIfs(bs[1..], els)]);
    }
  }

  /** `parse_block`: `block name` with a body up to `endblock`. */
  function ParseBlock(toks: seq<Token>, pos: nat): (r: Result<Parsed<Stmt>>)
    requires pos <= |toks|
    ensures StmtProgress(toks, pos, r)
    ensures r.Ok? ==> Kind(toks, pos + 1) == "name" && r.value.val.Block? && r.value.val.name == Current(toks, pos + 1).value
    decreases |toks| - pos, 5
  {
    var kw :- Expect(toks, pos, "block");
    var name :- Expect(toks, kw.pos, "name");
    var body :- ParseStatements(toks, name.pos, {"endblock"}, true);
    Ok(Parsed(Block(name.val.value, body.val), body.pos))
  }

  /** A block holds the body up to `endblock`, which is consumed. */
  lemma BlockStep(toks: seq<Token>, pos: nat)
    requires pos < |toks| && Kind(toks, pos) == "block" && Kind(toks, pos + 1) == "name"
    ensures var b := ParseStatements(toks, pos + 2, {"endblock"}, true);
            var r := ParseBlock(toks, pos);
            && (b.Err? ==> r == Err(b.error))
            && (b.Ok? ==> r == Ok(Parsed(Block(Current(toks, pos + 1).value, b.value.val), b.value.pos)))
  {
  }

  /** `parse_extends`: `extends <expression>`. */
  function ParseExtends(toks: seq<Token>, pos: nat): (r: Result<Parsed<Stmt>>)
    requires pos <= |toks|
    ensures StmtProgress(toks, pos, r)
    ensures r.Ok? ==>
              var t := ParseExpression(toks, pos + 1, false);
              Kind(toks, pos) == "extends" && t.Ok? && r == Ok(Parsed(Extends(t.value.val), t.value.pos))
  {
    var kw :- Expect(toks, pos, "extends");
    var t :- ParseExpression(toks, kw.pos, false);
    Ok(Parsed(Extends(t.val), t.pos))
  }

  /** `parse_include`: `include <expression>`. */
  function ParseInclude(toks: seq<Token>, pos: nat): (r: Result<Parsed<Stmt>>)
    requires pos <= |toks|
    ensures StmtProgress(toks, pos, r)
    ensures r.Ok? ==>
              var t := ParseExpression(toks, pos + 1, false);
              Kind(toks, pos) == "include" && t.Ok? && r == Ok(Parsed(Include(t.value.val), t.value.pos))
  {
    var kw :- Expect(toks, pos, "include");
    var t :- ParseExpression(toks, kw.pos, false);
    Ok(Parsed(Include(t.val), t.pos))
  }

  /** `parse_import`: `import <expression> as name`; a name that cannot be
      assigned is an error at the line of `import`. */
  function ParseImport(toks: seq<Token>, pos: nat): (r: Result<Parsed<Stmt>>)
    requires pos <= |toks|
    ensures StmtProgress(toks, pos, r)
    ensures r.Ok? ==> r.value.val.Import? && AssignableName(r.value.val.boundName)
    ensures r.Ok? ==>
              var t := ParseExpression(toks, pos + 1, false);
              Kind(toks, pos) == "import" && t.Ok? && r.value.val.template == t.value.val && r.value.pos == t.value.pos + 2
    ensures Kind(toks, pos) == "import" ==>
              var t := ParseExpression(toks, pos + 1, false);
              t.Ok? && IsNameToken(toks, t.value.pos, "as") && Kind(toks, t.value.pos + 1) == "name" ==>
                var name := Current(toks, t.value.pos + 1).value;
                (AssignableName(name) <==> r.Ok?)
                && (r.Ok? ==> r.value.val.boundName == name)
                && (!AssignableName(name) ==> r == Err(Syntax(CantAssign, Line(toks, pos))))
  {
    var kw :- Expect(toks, pos, "import");
    var t :- ParseExpression(toks, kw.pos, false);
    var afterAs :- ExpectName(toks, t.pos, "as");
    var name :- Expect(toks, afterAs, "name");
    if !AssignableName(name.val.value) then Err(Syntax(CantAssign, kw.val.line))
    else Ok(Parsed(Import(t.val, name.val.value), name.pos))
  }

  /** `parse_from`: `from <expression> import a, b as c, ...`. After the
      names one more comma is skipped: `a,` ends past its comma, and so does
      `a,,`, whose first comma the names loop takes. */
  function ParseFrom(toks: seq<Token>, pos: nat): (r: Result<Parsed<Stmt>>)
    requires pos <= |toks|
    ensures StmtProgress(toks, pos, r)
    ensures r.Ok? ==> r.value.val.FromImport?
    ensures r.Ok? ==> Kind(toks, r.value.pos) != "comma" || Kind(toks, r.value.pos - 1) == "comma"
  {
    var kw :- Expect(toks, pos, "from");
    var t :- ParseExpression(toks, kw.pos, false);
    var imp :- Expect(toks, t.pos, "import");
    var names :- FromNames(toks, imp.pos, []);
    Ok(Parsed(FromImport(t.val, names.val), FromEnd(toks, names.pos)))
  }

  /** Where a from-import ends once its names end at `p`: one more comma
      is skipped. */
  function FromEnd(toks: seq<Token>, p: nat): nat
  {
    if Kind(toks, p) == "comma" then p + 1 else p
  }

  /** A `from` import holds the parsed template expression and the names
      the loop collected after `import`. */
  lemma FromStep(toks: seq<Token>, pos: nat)
    requires pos <= |toks|
    ensures var r := ParseFrom(toks, pos);
            r.Ok? ==>
              && Kind(toks, pos) == "from"
              && var t := ParseExpression(toks, pos + 1, false);
                 && t.Ok? && Kind(toks, t.value.pos) == "import"
                 && var names := FromNames(toks, t.value.pos + 1, []);
                    names.Ok? && r.value.val == FromImport(t.value.val, names.value.val)
  {
  }

  /** Once the template and `import` are read, a from-import is exactly the
      names the loop collects, ending after them and after one more comma
      if one follows; an error in the names propagates. */
  lemma FromResult(toks: seq<Token>, pos: nat)
    requires pos <= |toks|
    ensures pos < |toks| && Kind(toks, pos) == "from" ==>
              var t := ParseExpression(toks, pos + 1, false);
              t.Ok? && Kind(toks, t.value.pos) == "import" ==>
              var names := FromNames(toks, t.value.pos + 1, []);
              var r := ParseFrom(toks, pos);
              && (names.Err? ==> r == Err(names.error))
              && (names.Ok? ==> r == Ok(Parsed(FromImport(t.value.val, names.value.val), FromEnd(toks, names.value.pos))))
  {
  }

  /** `a,` followed by anything but a name: the names loop reads `a` and
      its comma, and stops after the comma. */
  lemma FromNamesTrailingComma(toks: seq<Token>, p: nat)
    requires p < |toks| && Kind(toks, p) == "name"
    requires AssignableName(Current(toks, p).value) && !StartsWithDunder(Current(toks, p).value)
    requires Kind(toks, p + 1) == "comma" && Kind(toks, p + 2) != "name"
    ensures FromNames(toks, p, []) == Ok(Parsed([Plain(Current(toks, p).value)], p + 2))
  {
    var n := Current(toks, p).value;
    assert [] + [Plain(n)] == [Plain(n)] && !IsNameToken(toks, p + 1, "as");
    assert FromNames(toks, p + 1, [Plain(n)]) == Ok(Parsed([Plain(n)], p + 2));
  }

  /** `from t import a,` ends right after its one comma. */
  lemma FromOneTrailingComma(toks: seq<Token>, pos: nat, t: Expr, q: nat)
    requires pos < |toks| && Kind(toks, pos) == "from" && ParseExpression(toks, pos + 1, false) == Ok(Parsed(t, q))
    requires Kind(toks, q) == "import" && Kind(toks, q + 1) == "name"
    requires AssignableName(Current(toks, q + 1).value) && !StartsWithDunder(Current(toks, q + 1).value)
    requires Kind(toks, q + 2) == "comma" && Kind(toks, q + 3) != "name" && Kind(toks, q + 3) != "comma"
    ensures ParseFrom(toks, pos) == Ok(Parsed(FromImport(t, [Plain(Current(toks, q + 1).value)]), q + 3))
  {
    FromResult(toks, pos);
    FromNamesTrailingComma(toks, q + 1);
  }

  /** `from t import a,,` ends after both commas: the names loop takes the
      first and the closing step skips the second. */
  lemma FromTwoCommas(toks: seq<Token>, pos: nat, t: Expr, q: nat)
    requires pos < |toks| && Kind(toks, pos) == "from" && ParseExpression(toks, pos + 1, false) == Ok(Parsed(t, q))
    requires Kind(toks, q) == "import" && Kind(toks, q + 1) == "name"
    requires AssignableName(Current(toks, q + 1).value) && !StartsWithDunder(Current(toks, q + 1).value)
    requires Kind(toks, q + 2) == "comma" && Kind(toks, q + 3) == "comma"
    ensures ParseFrom(toks, pos) == Ok(Parsed(FromImport(t, [Plain(Current(toks, q + 1).value)]), q + 4))
  {
    FromResult(toks, pos);
    FromNamesTrailingComma(toks, q + 1);
  }

  /** The name loop of `parse_from`. Names that cannot be assigned are
      syntax errors; names starting with two underscores make the source
      raise an exception class it never imported. */
  function FromNames(toks: seq<Token>, pos: nat, names: seq<ImportName>): (r: Result<Parsed<seq<ImportName>>>)
    requires pos <= |toks|
    requires forall i :: 0 <= i < |names| ==> ValidImportName(names[i])
    ensures r.Ok? ==> pos <= r.value.pos <= |toks| && names <= r.value.val
    ensures r.Ok? ==> forall i :: 0 <= i < |r.value.val| ==> ValidImportName(r.value.val[i])
    ensures |names| > 0 && Kind(toks, pos) != "comma" ==> r == Err(Syntax(UnexpectedToken, Line(toks, pos)))
    ensures |names| == 0 || Kind(toks, pos) == "comma" ==>
              var p := if |names| == 0 then pos else pos + 1;
              var n := Current(toks, p).value;
              && (Kind(toks, p) != "name" ==> r == Ok(Parsed(names, p)))
              && (Kind(toks, p) == "name" && !AssignableName(n) ==> r == Err(Syntax(CantAssign, Line(toks, p))))
              && (Kind(toks, p) == "name" && AssignableName(n) && StartsWithDunder(n) ==>
                    r == Err(Crash(UnimportedAssertionError)))
              && (Kind(toks, p) == "name" && AssignableName(n) && !StartsWithDunder(n) ==>
                    if IsNameToken(toks, p + 1, "as") then
                      var alias := Current(toks, p + 2);
                      && (alias.kind != "name" ==> r == Err(Syntax(UnexpectedToken, alias.line)))
                      && (alias.kind == "name" && !AssignableName(alias.value) ==> r == Err(Syntax(CantAssign, alias.line)))
                      && (r.Ok? ==> |r.value.val| > |names| && r.value.val[|names|] == Aliased(n, alias.value))
                    else
                      r.Ok? ==> |r.value.val| > |names| && r.value.val[|names|] == Plain(n))
    decreases |toks| - pos
  {
    var p :- ExpectWhen(toks, pos, |names| > 0, "comma");
    if Kind(toks, p) != "name" then Ok(Parsed(names, p))
    else
      var n := Current(toks, p).value;
      if !AssignableName(n) then Err(Syntax(CantAssign, Line(toks, p)))
      else if StartsWithDunder(n) then Err(Crash(UnimportedAssertionError))
      else if IsNameToken(toks, p + 1, "as") then
        var alias :- Expect(toks, p + 2, "name");
        if !AssignableName(alias.val.value) then Err(Syntax(CantAssign, alias.val.line))
        else if Kind(toks, alias.pos) != "comma" then Ok(Parsed(names + [Aliased(n, alias.val.value)], alias.pos))
        else FromNames(toks, alias.pos, names + [Aliased(n, alias.val.value)])
      else if Kind(toks, p + 1) != "comma" then Ok(Parsed(names + [Plain(n)], p + 1))
      else FromNames(toks, p + 1, names + [Plain(n)])
  }

  /** `parse_signature`: `(a, b=default, ...)`. Every parameter is an
      assignable name in param context; defaults are collected in order
      and never outnumber the parameters. */
  function ParseSignature(toks: seq<Token>, pos: nat): (r: Result<Parsed<Signature>>)
    requires pos <= |toks|
    ensures r.Ok? ==> pos < r.value.pos <= |toks| && Kind(toks, pos) == "lparen"
    ensures r.Ok? ==> forall i :: 0 <= i < |r.value.val.params| ==> IsParam(r.value.val.params[i])
    ensures r.Ok? ==> AllLoadOnly(r.value.val.defaults) && |r.value.val.defaults| <= |r.value.val.params|
  {
    var open :- Expect(toks, pos, "lparen");
    var sig :- SigLoop(toks, open.pos, Signature([], []));
    var close :- Expect(toks, sig.pos, "rparen");
    Ok(Parsed(sig.val, close.pos))
  }

  function SigLoop(toks: seq<Token>, pos: nat, sig: Signature): (r: Result<Parsed<Signature>>)
    requires pos <= |toks|
    requires forall i :: 0 <= i < |sig.params| ==> IsParam(sig.params[i])
    requires AllLoadOnly(sig.defaults) && |sig.defaults| <= |sig.params|
    ensures r.Ok? ==> pos <= r.value.pos <= |toks|
    ensures r.Ok? ==> sig.params <= r.value.val.params && sig.defaults <= r.value.val.defaults
    ensures r.Ok? ==> forall i :: 0 <= i < |r.value.val.params| ==> IsParam(r.value.val.params[i])
    ensures r.Ok? ==> AllLoadOnly(r.value.val.defaults) && |r.value.val.defaults| <= |r.value.val.params|
    ensures Kind(toks, pos) != "rparen" && (|sig.params| == 0 || Kind(toks, pos) == "comma") ==>
              var p := if |sig.params| == 0 then pos else pos + 1;
              Kind(toks, p) == "name" && !AssignableName(Current(toks, p).value) ==>
                r == Err(Syntax(CantAssign, Line(toks, p)))
    decreases |toks| - pos
  {
    if Kind(toks, pos) == "rparen" then Ok(Parsed(sig, pos))
    else
      var p :- ExpectWhen(toks, pos, |sig.params| > 0, "comma");
      var name :- Expect(toks, p, "name");
      if !AssignableName(name.val.value) then Err(Syntax(CantAssign, name.val.line))
      else
        var defaults :-
          if Kind(toks, name.pos) == "assign" then
            var d :- ParseExpression(toks, name.pos + 1, false);
            Ok(Parsed(sig.defaults + [d.val], d.pos))
          else
            Ok(Parsed(sig.defaults, name.pos));
        SigLoop(toks, defaults.pos, Signature(sig.params + [Name(name.val.value, Param)], defaults.val))
  }

  /** One round of the signature loop: the name becomes the next parameter,
      in param context, and the expression after `=` the next default. */
  lemma SigLoopStep(toks: seq<Token>, pos: nat, sig: Signature)
    requires pos <= |toks|
    requires forall i :: 0 <= i < |sig.params| ==> IsParam(sig.params[i])
    requires AllLoadOnly(sig.defaults) && |sig.defaults| <= |sig.params|
    requires Kind(toks, pos) != "rparen" && (|sig.params| == 0 || Kind(toks, pos) == "comma")
    ensures var p := if |sig.params| == 0 then pos else pos + 1;
            var n := Current(toks, p).value;
            var params := sig.params + [Name(n, Param)];
            var r := SigLoop(toks, pos, sig);
            Kind(toks, p) == "name" && AssignableName(n) ==>
              && (Kind(toks, p + 1) != "assign" ==> r == SigLoop(toks, p + 1, Signature(params, sig.defaults)))
              && (Kind(toks, p + 1) == "assign" ==>
                    var d := ParseExpression(toks, p + 2, false);
                    && (d.Err? ==> r == Err(d.error))
                    && (d.Ok? ==> r == SigLoop(toks, d.value.pos, Signature(params, sig.defaults + [d.value.val]))))
  {
  }

  /** `parse_call_block`: `call [(signature)] <call expression>` with a
      body up to `endcall`; an expression that is not a call is an error
      at the line of `call`. */
  function ParseCallBlock(toks: seq<Token>, pos: nat): (r: Result<Parsed<Stmt>>)
    requires pos <= |toks|
    ensures StmtProgress(toks, pos, r)
    ensures r.Ok? ==> r.value.val.CallBlock?
    ensures Kind(toks, pos) == "call" ==>
              var s := OptSignature(toks, pos + 1);
              s.Ok? ==>
                var c := ParseExpression(toks, s.value.pos, false);
                c.Ok? && !c.value.val.Call? ==> r == Err(Syntax(ExpectedCall, Line(toks, pos)))
    ensures r.Ok? ==>
              && Kind(toks, pos) == "call"
              && var s := OptSignature(toks, pos + 1);
                 && s.Ok? && r.value.val.params == s.value.val.params && r.value.val.defaults == s.value.val.defaults
                 && var c := ParseExpression(toks, s.value.pos, false);
                    c.Ok? && r.value.val.call == c.value.val && r.value.val.call.Call?
    decreases |toks| - pos, 5
  {
    var kw :- Expect(toks, pos, "call");
    var sig :- OptSignature(toks, kw.pos);
    var call :- ParseExpression(toks, sig.pos, false);
    if !call.val.Call? then Err(Syntax(ExpectedCall, kw.val.line))
    else
      var body :- ParseStatements(toks, call.pos, {"endcall"}, true);
      assert ValidStmt(CallBlock(sig.val.params, sig.val.defaults, call.val, body.val));
      Ok(Parsed(CallBlock(sig.val.params, sig.val.defaults, call.val, body.val), body.pos))
  }

  /** A call block holds the body up to `endcall`, which is consumed. */
  lemma CallBlockStep(toks: seq<Token>, pos: nat)
    requires pos < |toks| && Kind(toks, pos) == "call"
    ensures var s := OptSignature(toks, pos + 1);
            s.Ok? ==>
              var c := ParseExpression(toks, s.value.pos, false);
              c.Ok? && c.value.val.Call? ==>
                var b := ParseStatements(toks, c.value.pos, {"endcall"}, true);
                var r := ParseCallBlock(toks, pos);
                && (b.Err? ==> r == Err(b.error))
                && (b.Ok? ==> r == Ok(Parsed(CallBlock(s.value.val.params, s.value.val.defaults, c.value.val, b.value.val), b.value.pos)))
  {
  }

  /** The signature of a call block, which may be left out. */
  function OptSignature(toks: seq<Token>, pos: nat): (r: Result<Parsed<Signature>>)
    requires pos <= |toks|
    ensures r.Ok? ==> pos <= r.value.pos <= |toks|
    ensures r.Ok? ==> forall i :: 0 <= i < |r.value.val.params| ==> IsParam(r.value.val.params[i])
    ensures r.Ok? ==> AllLoadOnly(r.value.val.defaults) && |r.value.val.defaults| <= |r.value.val.params|
    ensures Kind(toks, pos) != "lparen" ==> r == Ok(Parsed(Signature([], []), pos))
  {
    if Kind(toks, pos) == "lparen" then ParseSignature(toks, pos)
    else Ok(Parsed(Signature([], []), pos))
  }

  /** `parse_filter_block`: `filter f | g(...)` with a body up to `endfilter`. */
  function ParseFilterBlock(toks: seq<Token>, pos: nat): (r: Result<Parsed<Stmt>>)
    requires pos <= |toks|
    ensures StmtProgress(toks, pos, r)
    ensures r.Ok? ==>
              var f := InlineFilter(toks, pos + 1);
              f.Ok? && r.value.val.FilterBlock? && r.value.val.filter == f.value.val
    decreases |toks| - pos, 5
  {
    var kw :- Expect(toks, pos, "filter");
    var f :- InlineFilter(toks, kw.pos);
    var body :- ParseStatements(toks, f.pos, {"endfilter"}, true);
    assert ValidStmt(FilterBlock(f.val, body.val));
    Ok(Parsed(FilterBlock(f.val, body.val), body.pos))
  }

  /** A filter block holds the body up to `endfilter`, which is consumed. */
  lemma FilterBlockStep(toks: seq<Token>, pos: nat)
    requires pos < |toks| && Kind(toks, pos) == "filter"
    ensures var f := InlineFilter(toks, pos + 1);
            f.Ok? ==>
              var b := ParseStatements(toks, f.value.pos, {"endfilter"}, true);
              var r := ParseFilterBlock(toks, pos);
              && (b.Err? ==> r == Err(b.error))
              && (b.Ok? ==> r == Ok(Parsed(FilterBlock(f.value.val, b.value.val), b.value.pos)))
  {
  }

  /** `parse_macro`: `macro name(signature)` with a body up to `endmacro`.
      A name that cannot be assigned makes the source fail while building
      its error message. */
  function ParseMacro(toks: seq<Token>, pos: nat): (r: Result<Parsed<Stmt>>)
    requires pos <= |toks|
    ensures StmtProgress(toks, pos, r)
    ensures r.Ok? ==> r.value.val.Macro? && r.value.val.name == Current(toks, pos + 1).value
    ensures Kind(toks, pos) == "macro" && Kind(toks, pos + 1) == "name" && !AssignableName(Current(toks, pos + 1).value) ==>
              r == Err(Crash(MissingTargetAttribute))
    decreases |toks| - pos, 5
  {
    var kw :- Expect(toks, pos, "macro");
    var name :- Expect(toks, kw.pos, "name");
    if !AssignableName(name.val.value) then Err(Crash(MissingTargetAttribute))
    else
      var sig :- ParseSignature(toks, name.pos);
      var body :- ParseStatements(toks, sig.pos, {"endmacro"}, true);
      assert ValidStmt(Macro(name.val.value, sig.val.params, sig.val.defaults, body.val));
      Ok(Parsed(Macro(name.val.value, sig.val.params, sig.val.defaults, body.val), body.pos))
  }

  /** A macro holds the signature that follows its name and the body up to
      `endmacro`, which is consumed. */
  lemma MacroStep(toks: seq<Token>, pos: nat)
    requires pos < |toks| && Kind(toks, pos) == "macro" && Kind(toks, pos + 1) == "name"
    requires AssignableName(Current(toks, pos + 1).value)
    ensures var sig := ParseSignature(toks, pos + 2);
            var r := ParseMacro(toks, pos);
            && (sig.Err? ==> r == Err(sig.error))
            && (sig.Ok? ==>
                  var b := ParseStatements(toks, sig.value.pos, {"endmacro"}, true);
                  && (b.Err? ==> r == Err(b.error))
                  && (b.Ok? ==> r == Ok(Parsed(Macro(Current(toks, pos + 1).value, sig.value.val.params, sig.value.val.defaults, b.value.val), b.value.pos))))
  {
  }

  /** `parse_print`: `print a, b, ...` up to a statement end token; each
      expression becomes one output node. */
  function ParsePrint(toks: seq<Token>, pos: nat): (r: Result<Parsed<Stmt>>)
    requires pos <= |toks|
    ensures StmtProgress(toks, pos, r)
    ensures r.Ok? ==> r.value.val.Output? && Kind(toks, r.value.pos) in StatementEndTokens
  {
    var kw :- Expect(toks, pos, "print");
    var ns :- PrintLoop(toks, kw.pos, []);
    Ok(Parsed(Output(ns.val), ns.pos))
  }

  function PrintLoop(toks: seq<Token>, pos: nat, nodes: seq<Expr>): (r: Result<Parsed<seq<Expr>>>)
    requires pos <= |toks| && AllLoadOnly(nodes)
    ensures r.Ok? ==> pos <= r.value.pos <= |toks| && AllLoadOnly(r.value.val) && nodes <= r.value.val
    ensures r.Ok? ==> Kind(toks, r.value.pos) in StatementEndTokens
    ensures Kind(toks, pos) in StatementEndTokens ==> r == Ok(Parsed(nodes, pos))
    decreases |toks| - pos
  {
    if Kind(toks, pos) in StatementEndTokens then Ok(Parsed(nodes, pos))
    else
      var p :- ExpectWhen(toks, pos, |nodes| > 0, "comma");
      var e :- ParseExpression(toks, p, false);
      PrintLoop(toks, e.pos, nodes + [e.val])
  }

  /** `flush_data`: buffered output nodes become one Output statement. */
  function Flush(body: seq<Stmt>, buf: seq<Expr>): (r: seq<Stmt>)
    requires AllValid(body) && AllLoadOnly(buf)
    ensures AllValid(r) && body <= r
    ensures |buf| == 0 ==> r == body
    ensures |buf| > 0 ==> r == body + [Output(buf)]
  {
    if |buf| == 0 then body else body + [Output(buf)]
  }

  /** `subparse`: template data and `{{ ... }}` output are buffered and
      flushed as one Output before each statement and at the end; a
      `{% ... %}` whose first token is an end keyword stops the body there,
      leaving that keyword unconsumed. */
  function Subparse(toks: seq<Token>, pos: nat, end: Option<set<string>>): (r: Result<Parsed<seq<Stmt>>>)
    requires pos <= |toks|
    ensures r.Ok? ==> pos <= r.value.pos <= |toks| && AllValid(r.value.val)
    ensures r.Ok? ==> Stopped(toks, r.value.pos, end)
    decreases |toks| - pos, 2
  {
    SubparseLoop(toks, pos, end, [], [])
  }

  function SubparseLoop(toks: seq<Token>, pos: nat, end: Option<set<string>>, body: seq<Stmt>, buf: seq<Expr>)
    : (r: Result<Parsed<seq<Stmt>>>)
    requires pos <= |toks| && AllValid(body) && AllLoadOnly(buf)
    ensures r.Ok? ==> pos <= r.value.pos <= |toks| && AllValid(r.value.val) && body <= r.value.val
    ensures r.Ok? ==> Stopped(toks, r.value.pos, end)
    ensures Kind(toks, pos) == "eof" ==> r == Ok(Parsed(Flush(body, buf), pos))
    ensures Kind(toks, pos) == "block_begin" && end.Some? && Kind(toks, pos + 1) in end.value ==>
              r == Ok(Parsed(Flush(body, buf), pos + 1))
    ensures Kind(toks, pos) !in {"eof", "data", "variable_begin", "block_begin"} ==> r == Err(Internal)
    decreases |toks| - pos, 1
  {
    var t := Current(toks, pos);
    if t.kind == "eof" then Ok(Parsed(Flush(body, buf), pos))
    else if t.kind == "data" then
      SubparseLoop(toks, pos + 1, end, body, if t.value != "" then buf + [Const(LToken(t.value))] else buf)
    else if t.kind == "variable_begin" then SubparseOutput(toks, pos, end, body, buf)
    else if t.kind == "block_begin" then SubparseTag(toks, pos, end, body, buf)
    else Err(Internal)
  }

  /** One round of `subparse`: a data token joins the buffer when it is not
      empty, `{{` reads an output expression and `{%` a tag. */
  lemma SubparseLoopStep(toks: seq<Token>, pos: nat, end: Option<set<string>>, body: seq<Stmt>, buf: seq<Expr>)
    requires pos <= |toks| && AllValid(body) && AllLoadOnly(buf)
    ensures var t := Current(toks, pos);
            var r := SubparseLoop(toks, pos, end, body, buf);
            && (t.kind == "data" && t.value != "" ==> r == SubparseLoop(toks, pos + 1, end, body, buf + [Const(LToken(t.value))]))
            && (t.kind == "data" && t.value == "" ==> r == SubparseLoop(toks, pos + 1, end, body, buf))
            && (t.kind == "variable_begin" ==> r == SubparseOutput(toks, pos, end, body, buf))
            && (t.kind == "block_begin" ==> r == SubparseTag(toks, pos, end, body, buf))
  {
  }

  /** A `{{ ... }}` inside `subparse`: its expression joins the buffer. */
  function SubparseOutput(toks: seq<Token>, pos: nat, end: Option<set<string>>, body: seq<Stmt>, buf: seq<Expr>)
    : (r: Result<Parsed<seq<Stmt>>>)
    requires pos < |toks| && AllValid(body) && AllLoadOnly(buf)
    ensures r.Ok? ==> pos <= r.value.pos <= |toks| && AllValid(r.value.val) && body <= r.value.val
    ensures r.Ok? ==> Stopped(toks, r.value.pos, end)
    decreases |toks| - pos, 0
  {
    var e :- ParseTuple(toks, pos + 1, Full);
    var close :- Expect(toks, e.pos, "variable_end");
    SubparseLoop(toks, close.pos, end, body, buf + [e.val])
  }

  /** The expression of a `{{ ... }}` joins the buffer, and the loop goes
      on after `}}`. */
  lemma SubparseOutputStep(toks: seq<Token>, pos: nat, end: Option<set<string>>, body: seq<Stmt>, buf: seq<Expr>)
    requires pos < |toks| && AllValid(body) && AllLoadOnly(buf)
    ensures var e := ParseTuple(toks, pos + 1, Full);
            var r := SubparseOutput(toks, pos, end, body, buf);
            && (e.Err? ==> r == Err(e.error))
            && (e.Ok? && Kind(toks, e.value.pos) != "variable_end" ==> r == Err(Syntax(UnexpectedToken, Line(toks, e.value.pos))))
            && (e.Ok? && Kind(toks, e.value.pos) == "variable_end" ==>
                  r == SubparseLoop(toks, e.value.pos + 1, end, body, buf + [e.value.val]))
  {
  }

  /** A `{% ... %}` inside `subparse`: the buffer is flushed first; an end
      keyword stops the body, any other tag is one statement. */
  function SubparseTag(toks: seq<Token>, pos: nat, end: Option<set<string>>, body: seq<Stmt>, buf: seq<Expr>)
    : (r: Result<Parsed<seq<Stmt>>>)
    requires pos < |toks| && AllValid(body) && AllLoadOnly(buf)
    ensures r.Ok? ==> pos <= r.value.pos <= |toks| && AllValid(r.value.val) && Flush(body, buf) <= r.value.val
    ensures r.Ok? ==> Stopped(toks, r.value.pos, end)
    ensures end.Some? && Kind(toks, pos + 1) in end.value ==> r == Ok(Parsed(Flush(body, buf), pos + 1))
    decreases |toks| - pos, 0
  {
    var flushed := Flush(body, buf);
    if end.Some? && Kind(toks, pos + 1) in end.value then Ok(Parsed(flushed, pos + 1))
    else
      var s :- ParseStatement(toks, pos + 1);
      var close :- Expect(toks, s.pos, "block_end");
      SubparseLoop(toks, close.pos, end, Push(flushed, s.val), [])
  }

  /** A tag that is not an end keyword appends its statement after the
      flushed buffer, and the loop goes on after `%}` with an empty buffer. */
  lemma SubparseTagStep(toks: seq<Token>, pos: nat, end: Option<set<string>>, body: seq<Stmt>, buf: seq<Expr>)
    requires pos < |toks| && AllValid(body) && AllLoadOnly(buf)
    requires !(end.Some? && Kind(toks, pos + 1) in end.value)
    ensures var s := ParseStatement(toks, pos + 1);
            var r := SubparseTag(toks, pos, end, body, buf);
            && (s.Err? ==> r == Err(s.error))
            && (s.Ok? && Kind(toks, s.value.pos) != "block_end" ==> r == Err(Syntax(UnexpectedToken, Line(toks, s.value.pos))))
            && (s.Ok? && Kind(toks, s.value.pos) == "block_end" ==>
                  r == SubparseLoop(toks, s.value.pos + 1, end, Flush(body, buf) + [s.value.val], []))
  {
  }

  /** `body.append(node)` for a valid statement. */
  function Push(body: seq<Stmt>, s: Stmt): (r: seq<Stmt>)
    requires AllValid(body) && ValidStmt(s)
    ensures AllValid(r) && body <= r && |r| == |body| + 1 && r[|body|] == s
  {
    body + [s]
  }

  /** `parse`: the whole token stream as a template. */
  function Parse(toks: seq<Token>): (r: Result<Template>)
    ensures r.Ok? ==> AllValid(r.value.body)
  {
    var body :- Subparse(toks, 0, None);
    Ok(Template(body.val))
  }
}

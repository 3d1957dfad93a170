# Jinja2 template parser, modelled in Dafny

This project models `jinja2/parser.py`, the early Jinja2 parser. It is a
recursive-descent parser that turns the lexer's token stream into the
template node tree:

- statements (`for`, `if`/`elif`/`else`, `block`, `extends`, `include`,
  `import`, `from ... import`, `macro`, `call`, `filter`, `print`, and
  assignments and expression statements);
- the expression grammar (conditional expressions, `or`, `and`, comparison
  chains, `+`, `-`, `~`, `*`, `/`, `//`, `%`, `**`, unary operators,
  primaries, tuples, lists and dicts, subscripts and slices, calls, filters
  and tests);
- the template driver `subparse`, which interleaves template data,
  `{{ ... }}` output and `{% ... %}` statements.

The files:

- `results.dfy`: the parse result and error values.
- `stream.dfy`: the token stream as a sequence and a position, with
  `current`, `next` and `expect`.
- `nodes.dfy`: the node tree, `can_assign`, `set_ctx` and the output
  invariant `ValidStmt`.
- `callorder.dfy`: the ordering discipline of call arguments.
- `expressions.dfy` and `statements.dfy`: one pure function per parser
  method, mirroring it branch by branch.
- `shapes.dfy`: reference definitions of the token runs the parser reads
  (operands of a binary level, `~` operands, comparison steps, tuple
  elements, conditional chains, call arguments, list and dict displays,
  `print`, `if` arms, filter chains and template bodies).
- `properties.dfy` and `runs.dfy`: the reference folds and the lemmas
  stating what the parser builds from those runs.

Every production takes `(toks, pos)` and returns either `Ok(Parsed(node,
pos'))` or an error:

- `Syntax(kind, line)` is a `TemplateSyntaxError`, with the line the source
  reports.
- `Internal` is the `AssertionError` of the driver.
- `Crash(defect)` marks the paths where the source itself fails with a
  Python exception other than a template error:
  - `x[]` and `x[a, b]`: `parse_subscript` builds a Tuple with a `lineno`
    it never bound.
  - `from t import __x`: `parse_from` raises `TemplateAssertionError`, which
    the module never imports.
  - A macro named `true`, `false` or `none`: `parse_macro` formats its
    message with `node.target`, which a Macro node lacks.
  - `parse_subscript` on a token that is neither `.` nor `[`: it reads
    `self.lineno`, which the parser lacks. `parse_postfix` never calls it
    that way.

  These are modelled as the failures they are, never as invented successes.

A successful parse of any production stays within the stream, and every
node an expression production builds is in load context.

Every statement it returns satisfies `ValidStmt`: a target in store or
param context has passed `can_assign`, and nothing else is in store
context.

The properties proved against independent reference definitions are:

- Binary levels fold their operands from the left. This covers the
  add/sub quirk: `a - b + c` is `Add(Sub(a, b), c)` but `a + b - c` is
  `Add(a, Sub(b, c))`.
- `~` builds one flat Concat node.
- A comparison chain is one Compare node with its steps in order, and
  `not in` is recorded as `notin`.
- `parse_tuple` returns a single element unwrapped. A comma or a trailing
  comma gives a Tuple, and an edge token gives the empty Tuple.
- Call-argument order errors are reported at the line of the `(`. The
  incremental `ensure` checks decide exactly the order positional*,
  keyword*, `*args`, `**kwargs`.
- `is` and `is not` build a Test and `Not(Test)`.
- An `if`/`elif` chain nests each arm in the previous arm's `else`, and
  the arms and the final else-list are exactly those in the tokens.
- Conditional expressions nest to the right.
- A call accepts every well-ordered argument list, including `f(*a, **k)`
  and a trailing comma, and records the arguments in order.
- List and dict displays and `print` keep their elements in order; the
  displays allow one trailing comma.
- A template of plain data is one Output node.
- A filter chain wraps the node in one Filter per `|`, in order, with the
  arguments each filter reads.
- A template read as a run of data, `{{ ... }}` and `{% ... %}` chunks is
  the layout of those chunks: `a{{ x }}b` is one Output of `a`, `x` and
  `b`, and `a{% s %}b` is `Output(a)`, `s`, `Output(b)`.

## Model

| member | source | states |
|---|---|---|
| Nodes.SetCtxSets | jinja2/parser.py:63-72 | `set_ctx(c)` leaves every context tag of the target equal to `c` and keeps `can_assign` unchanged, so an assignment target that passed the check is a valid store target |
| Nodes.SetCtxReaches | jinja2/parser.py:63-72 | after `set_ctx(c)` every node of the target that carries a context carries `c`, down to the leaves |
| Nodes.SetCtxKeepsAssignable | jinja2/parser.py:63-72 | `set_ctx` changes only context tags, so whether the target may be assigned to is the same before and after |
| Nodes.SetCtxRestores | jinja2/parser.py:63-72 | `set_ctx` changes nothing but context tags: a node whose tags are all `c`, switched to any context and back to `c`, is the node it was |
| CallOrder.AdmitIsOrderCheck | jinja2/parser.py:588-615 | the `ensure` checks admit an argument exactly when the written kinds stay in the order positional*, keyword*, at most one `*args`, at most one `**kwargs` |
| CallOrder.AddArgKeepsOrder | jinja2/parser.py:594-613 | taking an admitted argument keeps the kinds in valid order and the collected arguments in step with them |
| Expressions.ParseExpression | jinja2/parser.py:261-265 | a successful expression consumes at least one token and builds a load-context node |
| Expressions.ExpressionModes | jinja2/parser.py:261-265 | a full expression is `parse_condexpr` and a no-condexpr one is `parse_or`; the tuple modes use the same two parsers, and a simplified (loop target) element is a primary |
| Expressions.ParseCondExpr | jinja2/parser.py:267-277 | a conditional expression stops only where no further `if` follows |
| Expressions.CondTail | jinja2/parser.py:270-276 | without a following `if` the expression is returned unchanged; with one, the result is a CondExpr whose parts Expressions.CondTailIf states |
| Expressions.CondTailIf | jinja2/parser.py:270-276 | after `if` the test is an `or` expression and `else` must follow, else an unexpected-token error where it was expected; the result is `CondExpr(test, expr1, expr2)` with the else branch a whole conditional expression, and an error in either part propagates |
| Expressions.ParseBinary | jinja2/parser.py:318-396 | every binary level consumes its operands until its own operator no longer follows |
| Expressions.BinTail | jinja2/parser.py:321-325 | the operator loop stops at the first token that is not the level's operator and returns the accumulated node unchanged when there is none |
| Expressions.ParseCompare | jinja2/parser.py:299-316 | no comparison operator gives the additive operand itself; otherwise a Compare node over that operand with at least one step |
| Expressions.CompareTail | jinja2/parser.py:303-313 | the steps collected so far are kept as a prefix, the loop ends where no operator (nor `not in`) follows, and the first new step records the operator at the start |
| Expressions.CompareStep | jinja2/parser.py:304-310 | one step records the operator kind, or `notin` for `not in`, and its operand is the additive expression `parse_add` reads after the operator (after both tokens for `not in`), whose end is the step's end and whose error propagates |
| Expressions.ParseConcat | jinja2/parser.py:338-346 | concatenation stops where no `~` follows |
| Expressions.ConcatTail | jinja2/parser.py:341-343 | operands are appended after those already collected, ending where no `~` follows |
| Expressions.ParseUnary | jinja2/parser.py:398-413 | a leading `not`, `-` or `+` gives a Not, Neg or Pos node |
| Expressions.UnaryStep | jinja2/parser.py:398-413 | a `not`, `-` or `+` applies to the unary expression after it, so prefixes stack, and ends where that operand ends; an operand error propagates; without a prefix the result is the primary |
| Expressions.ParseAtom | jinja2/parser.py:415-439 | a name becomes its constant or load Name and an integer, float or string token a constant of its value, each consuming one token; only a name, number, string, `(`, `[` or `{` starts a primary, and anything else is an unexpected-token error at its line |
| Expressions.AtomStep | jinja2/parser.py:428-435 | `(` gives the full tuple inside it, which must be closed by `)` (else an unexpected-token error at the token found instead), and an error inside propagates; `[` is `parse_list` and `{` is `parse_dict` |
| Expressions.NameConst | jinja2/parser.py:417-423 | `true` and `false` give the boolean constants and `none` the None constant; every other name is a load Name of that name, and it is a Name exactly when it is assignable |
| Expressions.ParsePrimary | jinja2/parser.py:415-442 | a primary is followed by every postfix operation, so none can start right after it |
| Expressions.PrimaryStep | jinja2/parser.py:415-442 | a primary is its atom under the postfix operations that follow it; an atom error propagates |
| Expressions.ParseTuple | jinja2/parser.py:444-475 | a tuple that consumes nothing is the empty Tuple |
| Expressions.TupleItems | jinja2/parser.py:459-470 | elements are collected after those already read; a comma makes the result a tuple, and without one at most one element is read |
| Expressions.ParseElement | jinja2/parser.py:450-456 | each tuple mode's element parser consumes a token and builds a load node; which parser each mode is stands in Expressions.ExpressionModes |
| Expressions.ParseList | jinja2/parser.py:477-487 | brackets give a List node; the items loop stops only at `]`, so the closing `expect` always passes |
| Expressions.ListItems | jinja2/parser.py:480-485 | items read so far are kept as a prefix; the loop returns at once at `]` and stops nowhere else, and without a comma after an item it is an unexpected-token error |
| Expressions.ParseDict | jinja2/parser.py:489-502 | braces give a Dict node; the pairs loop stops only at `}`, so the closing `expect` always passes |
| Expressions.DictItems | jinja2/parser.py:492-500 | pairs read so far are kept as a prefix, every key and value in load context; the loop returns at once at `}` and stops nowhere else, and without a comma after a pair it is an unexpected-token error |
| Expressions.ParsePostfix | jinja2/parser.py:504-517 | postfix operations apply until no `.`, `[`, `(`, `\|` or `is` follows; without one the node is returned as is |
| Expressions.PostfixStep | jinja2/parser.py:504-517 | `.` or `[` applies `parse_subscript`, `(` makes a Call of the node with the parsed arguments, `\|` applies the filter chain and `is` the test, the loop going on after each; the first error ends it |
| Expressions.ParseSubscript | jinja2/parser.py:519-542 | `.name` or `.integer` gives a Subscript of the node keyed by a constant of the token's value, and any other token after `.` is an expected-name-or-number error at that token; `x[]` reaches the defective tuple branch (an unbound `lineno`); a token other than `.` or `[` reaches the defective `self.lineno` path |
| Expressions.SubscriptStep | jinja2/parser.py:528-536 | `x[s]` with a single subscript is a Subscript of the node keyed by the subscript `parse_subscribed` reads, ending after `]`; an error in the subscript propagates |
| Expressions.SubscriptSingle | jinja2/parser.py:528-538 | a bracketed subscript succeeds only when one subscript is directly followed by `]`, so two or more subscripts never succeed |
| Expressions.SubscriptItemsStep | jinja2/parser.py:530-533 | one round of the loop reads a subscript with `parse_subscribed`, after the comma when subscripts were already read, appends it and goes on after it; its error propagates |
| Expressions.SubscriptPairCrash | jinja2/parser.py:535-538 | `x[s, t]` reaches the defective tuple branch, which names a `lineno` it never bound |
| Expressions.SubscriptItems | jinja2/parser.py:530-534 | subscripts read so far are kept as a prefix; the loop returns at once at `]` and stops nowhere else, reads at least one more subscript otherwise, and without a comma after a subscript it is an unexpected-token error |
| Expressions.ParseSubscribed | jinja2/parser.py:544-573 | a leading colon gives a Slice without start |
| Expressions.SubscribedStep | jinja2/parser.py:544-556 | a leading `:` starts a slice without start; otherwise an expression not followed by `:` is the subscript itself, and one followed by `:` is the start of a slice |
| Expressions.SlicePart | jinja2/parser.py:557-571 | a slice part is absent exactly before `]` or `,`, or before `:` for the stop, and an absent part consumes nothing |
| Expressions.SliceRest | jinja2/parser.py:552-573 | a slice keeps the start it was given |
| Expressions.SliceRestStep | jinja2/parser.py:557-573 | a slice is `Slice(start, stop, None)` when no second `:` follows the stop, and `Slice(start, stop, step)` when one does |
| Expressions.ParseCallArgs | jinja2/parser.py:575-621 | accepted arguments are in valid order and tracked by kind, and the list runs from `(` to `)` |
| Expressions.CallLoop | jinja2/parser.py:588-615 | an argument out of order is a syntax error reported at the line of the `(`, whether it comes first or after a comma |
| Expressions.CallArg | jinja2/parser.py:594-613 | an admitted argument extends the written kinds by its own kind, keeps them in valid order, and consumes at least one token |
| Expressions.FilterItem | jinja2/parser.py:628-636 | a filter takes the previous node as input and the name token as its name; without `(` after the name it has no arguments and ends after the name, with `(` its arguments and end are those `parse_call` reads, whose error propagates; no name is an error |
| Expressions.WrapsTransitive | jinja2/parser.py:625-637 | a node under filters under filters is under filters of the original node |
| Expressions.FilterChain | jinja2/parser.py:623-638 | a chain of `\|` filters wraps the node and stops where no `\|` follows; without one the node is unchanged; each layer is stated by Expressions.FilterChainStep and the whole chain by Runs.FilterChainRun |
| Expressions.FilterChainStep | jinja2/parser.py:625-637 | at a `\|` the chain applies one filter to the node, as Expressions.FilterItem reads it after the `\|`, and goes on from the end of that filter with the Filter node as the new node; an error in the filter propagates |
| Expressions.InlineFilter | jinja2/parser.py:623-638 | the inline form of a filter block yields a Filter chain built on a first filter with no input, which is its innermost filter |
| Expressions.InnermostOfWraps | jinja2/parser.py:625-637 | a chain of filters wrapped around a filter without input has that filter innermost |
| Expressions.ParseTest | jinja2/parser.py:640-662 | `is name ...` gives a Test of the node named by the token, and `is not name ...` gives Not of that Test; the three argument forms are stated by Expressions.TestWithCall, Expressions.TestWithArgument and Expressions.TestWithoutArgs |
| Expressions.TestWithCall | jinja2/parser.py:647-651 | with `(` after the test name the Test's arguments and end are those `parse_call` reads, whose error propagates; `is not` wraps it in Not |
| Expressions.TestWithArgument | jinja2/parser.py:652-655 | with a name, string, number, `(`, `[`, `{` or regex token after the test name, the Test has the one expression read there as its only positional argument and ends where it ends, whose error propagates; `is not` wraps it in Not |
| Expressions.TestWithoutArgs | jinja2/parser.py:656-662 | with any other token after the test name the Test has no arguments and ends right after the name; `is not` wraps it in Not |
| Statements.ParseStatement | jinja2/parser.py:42-61 | each statement keyword selects its own statement kind, and anything else gives an assignment or an expression statement; the result satisfies the output invariant; the fallback is stated by Statements.StatementFallback |
| Statements.StatementFallback | jinja2/parser.py:55-61 | a token that is no statement keyword starts a full tuple; an `=` after it makes the statement the assignment `parse_assign` reads with that tuple as target, otherwise it is an ExprStmt of the tuple ending where it ends; a tuple error propagates |
| Statements.ParseAssign | jinja2/parser.py:63-72 | a target that cannot be assigned is an error at the target's line before the value is read; otherwise the result is `Assign(target in store context, value)` with the value the full tuple after `=`, ending where it ends, and a value error propagates |
| Statements.ParseStatements | jinja2/parser.py:74-90 | a body consumes the closing `%}` of its tag and, unless the end keyword is dropped, stops at an end keyword or the end of input; its statements are stated by Statements.StatementsStep |
| Statements.StatementsStep | jinja2/parser.py:79-90 | after an optional `:` a token other than `%}` is an unexpected-token error at its line; otherwise the statements are exactly those `subparse` reads after the `%}` up to the end keywords, ending there or one token later when the end keyword is dropped; a body error propagates |
| Statements.ParseFor | jinja2/parser.py:92-112 | an unassignable loop target (a tuple of primaries) is an error at the line of the target; an accepted target is switched to store context and the loop is what Statements.ForClauses reads after it: the no-condexpr iterable, the guard, the body and the else body |
| Statements.ForClauses | jinja2/parser.py:101-112 | after `in`, the iterable is the no-condexpr tuple, and the guard, the body up to `endfor` or `else` and the else body are those read in turn; the loop keeps the target it was given and ends where the else body ends |
| Statements.ForGuard | jinja2/parser.py:103-106 | after `if` the guard is the full expression that follows, whose error propagates; without `if` there is no guard and nothing is consumed |
| Statements.ForElse | jinja2/parser.py:107-111 | `endfor` right after the body gives an empty else body and consumes only that keyword; `else` gives the body up to `endfor`, consuming it; the end of input is an error |
| Statements.ParseIf | jinja2/parser.py:114-133 | the If node is the nesting of the arms read by the loop, each `elif` inside the previous `else` |
| Statements.IfBranches | jinja2/parser.py:117-132 | the arms are read in order starting with the first test, each in load context with a valid body |
| Statements.IfBranchesStep | jinja2/parser.py:117-132 | the first arm is the parsed test and body; after `elif` the remaining arms and the final else-list are those of the next round; after `else` the chain has one arm and the body up to `endif` as its else-list; otherwise one arm and an empty else-list |
| Statements.NestIfsValid | jinja2/parser.py:114-133 | nesting valid arms gives a valid If statement |
| Statements.ParseBlock | jinja2/parser.py:135-139 | a block is named by the name token after `block`; its body is stated by Statements.BlockStep |
| Statements.BlockStep | jinja2/parser.py:135-139 | a block is `Block(name, body)` with the body the statements up to `endblock`, ending after that keyword, and a body error propagates |
| Statements.ParseExtends | jinja2/parser.py:141-144 | `extends` is followed by one expression, the template |
| Statements.ParseInclude | jinja2/parser.py:146-149 | `include` is followed by one expression, the template |
| Statements.ParseImport | jinja2/parser.py:151-160 | the template is the expression after `import` and the import ends two tokens after it (`as` and the name); the import binds the name after `as` if and only if it is assignable; otherwise a syntax error at the line of `import` |
| Statements.ParseFrom | jinja2/parser.py:162-198 | a successful from-import is a FromImport statement, and it ends at a comma only when the token before is also a comma; where it ends is stated by Statements.FromResult |
| Statements.FromStep | jinja2/parser.py:162-166 | a from-import holds the template expression parsed after `from` and the names the loop collects after `import` |
| Statements.FromResult | jinja2/parser.py:162-198 | once the template and `import` are read, the from-import is `FromImport(template, names)` with the names the loop collects; it ends where they end, or one token later when a comma follows them; an error in the names propagates |
| Statements.FromNamesTrailingComma | jinja2/parser.py:167-195 | after `a,` with no name following, the names loop holds `a` alone and stops after the comma, which its `expect` consumed |
| Statements.FromOneTrailingComma | jinja2/parser.py:162-198 | `from t import a,` ends right after its one comma |
| Statements.FromTwoCommas | jinja2/parser.py:162-198 | `from t import a,,` ends after both commas: the names loop takes the first, and the closing step skips the second |
| Statements.FromNames | jinja2/parser.py:167-195 | for the first name and for every name after a comma: a non-name ends the list; an unassignable name is a syntax error at its line and a dunder name reaches the unimported exception; after `as` a non-name is an unexpected-token error and an unassignable alias a syntax error at the alias; the appended element is `Aliased(name, alias)` or `Plain(name)` |
| Statements.ParseSignature | jinja2/parser.py:200-217 | parameters are assignable names in param context, with no more defaults than parameters; each round is stated by Statements.SigLoopStep |
| Statements.SigLoop | jinja2/parser.py:204-215 | parameters and defaults are appended in order; an unassignable parameter is an error at its line; the appended name and default are stated by Statements.SigLoopStep |
| Statements.SigLoopStep | jinja2/parser.py:204-215 | one round, after the comma when parameters were already read, appends `Name(token, param)` for an assignable name token; without `=` the loop goes on after the name, and with `=` the expression after it is appended to the defaults and the loop goes on where it ends, a default error propagating |
| Statements.ParseCallBlock | jinja2/parser.py:219-232 | after `call` and the optional signature, an expression that is not a call is an error at the line of `call`, whether or not a signature came first; a call block carries the parsed signature and the parsed call, which is a Call; its body is stated by Statements.CallBlockStep |
| Statements.CallBlockStep | jinja2/parser.py:219-232 | a call block whose signature and call parse is `CallBlock(params, defaults, call, body)` with the body the statements up to `endcall`, ending after that keyword, and a body error propagates |
| Statements.OptSignature | jinja2/parser.py:221-225 | without `(` a call block has no parameters and no defaults and nothing is consumed; with one, the parameters are assignable names with no more defaults than parameters |
| Statements.ParseFilterBlock | jinja2/parser.py:234-238 | the block's filter is the inline filter chain after `filter`; its body is stated by Statements.FilterBlockStep |
| Statements.FilterBlockStep | jinja2/parser.py:234-238 | a filter block whose inline filter parses is `FilterBlock(filter, body)` with the body the statements up to `endfilter`, ending after that keyword, and a body error propagates |
| Statements.ParseMacro | jinja2/parser.py:240-250 | the macro is named by the name token; an unassignable name reaches the defective message path; signature and body are stated by Statements.MacroStep |
| Statements.MacroStep | jinja2/parser.py:240-250 | a macro with an assignable name is `Macro(name, params, defaults, body)` with the parameters and defaults those `parse_signature` reads after the name and the body the statements after them up to `endmacro`; an error in either propagates |
| Statements.ParsePrint | jinja2/parser.py:252-259 | `print` gives an Output node and stops at a statement end token |
| Statements.PrintLoop | jinja2/parser.py:255-258 | expressions are appended in order until a statement end token |
| Statements.Flush | jinja2/parser.py:669-673 | buffered output nodes become one Output statement appended to the body, and nothing is added when the buffer is empty |
| Statements.Subparse | jinja2/parser.py:664-697 | the body stops only at the end of input or at one of its end keywords; its statements are stated by Statements.SubparseLoopStep and Runs.SubparseRun |
| Statements.SubparseLoop | jinja2/parser.py:675-697 | statements already read are kept; the end of input flushes the buffer; an end keyword after `{%` stops before that keyword; any other token kind is the internal error |
| Statements.SubparseLoopStep | jinja2/parser.py:675-694 | a data token with text appends `Const(text)` to the buffer and one without text leaves it unchanged, the loop going on at the next token; `{{` continues as Statements.SubparseOutputStep and `{%` as Statements.SubparseTagStep |
| Statements.SubparseOutput | jinja2/parser.py:681-684 | the expression of a `{{ ... }}` joins the buffer, so statements already read are kept; the step is stated by Statements.SubparseOutputStep |
| Statements.SubparseOutputStep | jinja2/parser.py:681-684 | after `{{` the full tuple is read and appended to the buffer, and the loop goes on after the `}}` that must follow it, else an unexpected-token error at the token found; a tuple error propagates |
| Statements.SubparseTag | jinja2/parser.py:685-692 | the buffer is flushed before the tag; an end keyword right after `{%` stops with exactly the flushed body, before that keyword; the step is stated by Statements.SubparseTagStep |
| Statements.SubparseTagStep | jinja2/parser.py:685-692 | after `{%` without an end keyword the buffer is flushed and the statement `parse_statement` reads is appended to the body, the loop going on with an empty buffer after the `%}` that must follow it, else an unexpected-token error; a statement error propagates |
| Statements.Parse | jinja2/parser.py:699-703 | every statement of the template satisfies the output invariant |
| Properties.FoldLeftLast | jinja2/parser.py:318-326 | the last operand of a left fold is the right child of its root |
| Properties.BinTailRun | jinja2/parser.py:321-325 | the operator loop folds the operands that follow from the left |
| Properties.BinaryLeftAssoc | jinja2/parser.py:279-396 | operands separated by a level's operator parse to their left fold: `a op b op c` is `(a op b) op c`, for every level including `**` |
| Properties.SingleOperand | jinja2/parser.py:318-326 | one operand without the operator is returned as is |
| Properties.TwoOperands | jinja2/parser.py:318-326 | two operands around the operator give one Binary node |
| Properties.InnerThenOuter | jinja2/parser.py:279-396 | for every binary level and the level its operands come from (`+` over `-`, `or` over `and`, `*` over `/` over `//` over `%` over `**`), `a i b o c` parses as `o(i(a, b), c)`: `a - b + c` is `Add(Sub(a, b), c)` |
| Properties.OuterThenInner | jinja2/parser.py:279-396 | for the same pairs, `a o b i c` parses as `o(a, i(b, c))`: `a + b - c` is `Add(a, Sub(b, c))`, because subtraction is parsed below addition |
| Properties.ConcatTailRun | jinja2/parser.py:341-343 | the `~` loop appends every following operand in order |
| Properties.ConcatFlat | jinja2/parser.py:338-346 | operands joined by `~` give one flat Concat of all of them, and a single operand is returned unwrapped |
| Properties.CompareTailRun | jinja2/parser.py:303-313 | the comparison loop collects exactly the steps that follow, in order |
| Properties.CompareChain | jinja2/parser.py:299-316 | no step gives the bare operand; otherwise one Compare node with the steps in source order |
| Properties.NotInStep | jinja2/parser.py:308-310 | `not in` is one step recorded as `notin`, whose operand starts after both tokens |
| Properties.PositionalAfterKeyword | jinja2/parser.py:603-613 | `f(k=v, x)` is a syntax error at the line of the `(` |
| Properties.StarArgsOrder | jinja2/parser.py:594-600 | `f(**k, *a)` is a syntax error at the line of the `(` |
| Runs.CallLoopRun | jinja2/parser.py:588-615 | the argument loop on a run of arguments whose kinds keep the order valid takes every argument, in order, and stops at `)`, after one trailing comma if there is one |
| Runs.CallArgsRun | jinja2/parser.py:575-621 | a call whose arguments form such a run records every argument by its kind, in order, and ends after the `)`; a trailing comma before `)` is accepted |
| Runs.EmptyCall | jinja2/parser.py:588-616 | `f()` has no arguments |
| Runs.StarThenDoubleStar | jinja2/parser.py:594-601 | `f(*a, **k)` is accepted with `a` as the dynamic positional and `k` as the dynamic keyword arguments |
| Runs.TrailingCommaCall | jinja2/parser.py:588-593 | `f(a,)` is accepted as one positional argument, the trailing comma consumed with the `)` |
| Properties.ElementRunEnd | jinja2/parser.py:459-470 | a run of tuple elements ends inside the stream and is in load context |
| Properties.TupleItemsRun | jinja2/parser.py:459-470 | after a comma the loop collects every following element, consuming one trailing comma before an edge token |
| Properties.TupleOfRun | jinja2/parser.py:444-475 | one element without a comma is returned unwrapped; two or more, or a trailing comma, give a Tuple of all elements in order |
| Properties.TupleAtEdge | jinja2/parser.py:459-475 | an edge token before the first element gives the empty Tuple and consumes nothing |
| Properties.IfChainArm | jinja2/parser.py:114-133 | arm `k` of an `if`/`elif` chain is the If found `k` levels down the `else` branches, and only the last arm carries the final `else` body |
| Properties.SubparseDataRun | jinja2/parser.py:675-681 | data tokens append one constant per non-empty piece to the buffer, flushed at the end of input |
| Properties.ParseDataOnly | jinja2/parser.py:664-703 | a template of data alone is one Output of its non-empty pieces in order, or nothing |
| Runs.FilterChainRun | jinja2/parser.py:623-638 | on a run of `\|` filters, each a name with or without a `parse_call` argument list, the chain is the node wrapped in one Filter per item, in order and with the arguments read, ending after the last filter |
| Runs.ChunkStep | jinja2/parser.py:675-692 | one data, `{{ ... }}` or `{% ... %}` chunk moves the loop past the chunk, adds the statements the chunk completes to the body and leaves the buffer the chunk leaves |
| Runs.SubparseRun | jinja2/parser.py:664-697 | on a run of chunks ending at the end of input or at an end keyword, the loop returns the body followed by the layout of the chunks: buffered data and output expressions become one Output node, closed before each statement and at the end |
| Runs.ParseRun | jinja2/parser.py:664-703 | a template that is a run of chunks up to the end of input parses to the layout of those chunks |
| Runs.EchoJoinsData | jinja2/parser.py:675-697 | `a{{ x }}b` is the template of one Output of `a`, `x` and `b` |
| Runs.TagSplitsData | jinja2/parser.py:675-697 | `a{% s %}b` is the template `Output(a)`, `s`, `Output(b)` |
| Runs.CondExprRun | jinja2/parser.py:267-277 | a chain `v0 if t0 else v1 if t1 else ... vn` of `or` expressions parses to the right-nested `CondExpr(t0, v0, CondExpr(t1, v1, ... vn))` and ends after the last value |
| Runs.CondNestsRight | jinja2/parser.py:267-277 | `a if b else c if d else e` is `CondExpr(b, a, CondExpr(d, c, e))` |
| Runs.ListItemsRun | jinja2/parser.py:480-485 | on a run of comma-separated expressions closed by `]`, possibly after one trailing comma, the loop appends exactly those expressions in order |
| Runs.ListOfRun | jinja2/parser.py:477-487 | a list display is a List of its expressions in order, one trailing comma allowed, ending after the `]` |
| Runs.PrintLoopRun | jinja2/parser.py:255-258 | on a run of comma-separated expressions ending at a statement end token, the loop appends exactly those expressions in order |
| Runs.PrintOfRun | jinja2/parser.py:252-259 | `print a, b, ...` is an Output of the expressions in order, ending at the statement end token |
| Runs.DictItemsRun | jinja2/parser.py:492-500 | on a run of comma-separated `key: value` pairs closed by `}`, possibly after one trailing comma, the loop appends exactly those pairs in order |
| Runs.DictOfRun | jinja2/parser.py:489-502 | a dict display is a Dict of its pairs in order, one trailing comma allowed, ending after the `}` |
| Runs.IfBranchesRun | jinja2/parser.py:117-132 | the loop on a run of arms separated by `elif` collects exactly those arms in order, with the body after `else` up to `endif`, or nothing, as the final else-list |
| Runs.ParseIfRun | jinja2/parser.py:114-133 | an `if` construct is its arms nested through their else-lists, each `elif` arm inside the previous arm's else and the final else-list innermost |

## Left out

- Parser construction: `Parser.__init__` and the lexer. The model starts
  from a token sequence; the lexer is not part of this model.
- Extensions are not modelled: the tag table is taken to be empty, so a
  name token is never dispatched to an extension.
- `Template.set_environment` is not modelled; `Parse` only builds the
  Template node.
- Error messages and file names are not modelled. An error records only
  its kind and its line.
- Node line numbers are not tracked.
- Errors carry the line of the token where they are detected. Two cases
  differ from the source:
  - The source reports a can't-assign error at the target node's
    `lineno`; the model uses the line of the target's first token.
  - For a from-import name the source builds a Name without a line (None);
    the model uses the name token's line.
- `parse_tuple`'s `enforce` flag is not modelled: no caller passes it.
- Python's `is` comparison of strings is read as equality.
- `nodes.py` is not part of this model. Two of its behaviours are
  assumptions:
  - `can_assign`: a Name is assignable unless it is `true`, `false` or
    `none`; a Tuple if all items are; a Subscript always; nothing else.
  - `set_ctx`: gives the context to every descendant that has one.
- Statements.Parse: the end position is discarded, so the contract does
  not state that parsing ends at the end of input.
- Expressions.ParseBinary: on its own it states only progress and where
  it stops; the left-fold shape is stated by Properties.BinaryLeftAssoc.
- Expressions.ParseTuple: on its own it states only the empty case; the
  full rules are stated by Properties.TupleOfRun and
  Properties.TupleAtEdge.
- Expressions.ParseCompare: on its own it states only the shape; the step
  order is stated by Properties.CompareChain.
- Statements.ParseSignature: the source does not require defaults to come
  last, so the model only bounds their number.

/** Failure values of the parser and the success value it threads through
    every production: a parsed value together with the stream position
    just after it. */
module Results {

  /** The kinds of `TemplateSyntaxError` the parser raises; the message text
      is not modelled, only what it reports. */
  datatype SyntaxKind =
    | UnexpectedToken        // `expect` saw another kind, or no primary can start here
    | CantAssign             // an assignment, loop, import or parameter target is not assignable
    | InvalidCall            // call arguments out of order
    | ExpectedCall           // a call block whose expression is not a call
    | ExpectedNameOrNumber   // `.` not followed by a name or an integer

  /** Paths on which the source raises a Python exception other than a
      template syntax error because the code itself is defective. */
  datatype Defect =
    | UndefinedLineno            // `x[]` or `x[a, b]`: the Tuple index refers to an unbound `lineno`
    | UnimportedAssertionError   // `from t import __x`: `TemplateAssertionError` is never imported
    | MissingTargetAttribute     // a macro named `true`/`false`/`none`: the message reads `node.target`
    | MissingParserLineno        // `parse_subscript` on a token that is neither `.` nor `[`

  datatype Error =
    | Syntax(kind: SyntaxKind, line: int)
    | Crash(defect: Defect)
    | Internal                   // the template driver met a token kind it cannot classify

  /** A parsed value and the position of the first token after it. */
  datatype Parsed<+T> = Parsed(val: T, pos: nat)

  datatype Result<+T> = Ok(value: T) | Err(error: Error) {

    predicate IsFailure() {
      Err?
    }

    function PropagateFailure<U>(): Result<U>
      requires Err?
    {
      Err(error)
    }

    function Extract(): T
      requires Ok?
    {
      value
    }
  }
}

/** The failure behaviour of formatMarkdown.

    The only way the formatter can fail is the `RangeError` that
    `'    '.repeat(n)` raises for a negative `n`: it happens when the indenter
    meets a closing bracket outside quotes while its indent level is already 0.
    The exception escapes the regex callback and formatMarkdown itself. */
module Outcome {

  datatype Error = NegativeIndent

  datatype Result<T> = Ok(value: T) | Err(error: Error)
}

/** The exceptions that ActionChain's operations raise, and the result types that carry them. */
module Errors {

  /** One constructor per exception the modelled code can raise. */
  datatype Error =
    | InvalidNameBox(nameBox: string)      // ValueError("Invalid name box: ...")
    | ChrArgumentOutOfRange(code: int)     // ValueError raised by chr() on a negative code
    | InvalidLiteral(text: string)         // ValueError raised by int() on text that is not a number
    | UnknownSheet(sheet: string)          // KeyError on the spreadsheet's sheet map
    | PixelSizeOutOfRange(pixelSize: int)  // AssertionError("Pixel size must be between 2 and 2000")

  /** A value, or the exception raised instead of producing it. */
  datatype Result<+T> = Ok(value: T) | Err(error: Error)

  /** A call that returns nothing, or the exception it raised. */
  datatype Outcome = Pass | Fail(error: Error)
}

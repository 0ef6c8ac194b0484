/** The kinds of failure the parser raises or meets, and the result of an operation
    that may raise one. */
module Errors {

  /** `ParameterParserError` is the recoverable failure about one parameter;
      `PlainError` is a plain `Error` signalling misuse by the embedding code
      (a state built around `undefined`, an unknown enum string); `TypeError`
      is what the JavaScript runtime throws when it cannot convert a value or
      read a property of `null` or `undefined`. The kind and the message of the
      first two are modelled; the text of a `TypeError` is chosen by the
      runtime and is not. */
  datatype Failure = ParserError(message: string) | PlainError(message: string) | TypeError

  /** The value an operation returns, or the error it throws. */
  datatype Result<+T> = Ok(value: T) | Err(error: Failure)

  const ERROR_PREFIX := "Error parsing parameter "

  /** `BaseQueryParameter.makeError`: a `ParameterParserError` whose message
      names the parameter and then gives the detail. */
  function MakeError(name: string, detail: string): (e: Failure)
    ensures e.ParserError?
    ensures |e.message| == |ERROR_PREFIX| + |name| + 2 + |detail|
    ensures e.message[..|ERROR_PREFIX|] == ERROR_PREFIX
    ensures e.message[|ERROR_PREFIX|..|ERROR_PREFIX| + |name|] == name
    ensures e.message[|ERROR_PREFIX| + |name|..|ERROR_PREFIX| + |name| + 2] == ": "
    ensures e.message[|e.message| - |detail|..] == detail
  {
    ParserError(ERROR_PREFIX + name + ": " + detail)
  }

  /** For one parameter, different details give different errors. */
  lemma MakeErrorInjective(name: string, detail1: string, detail2: string)
    requires MakeError(name, detail1) == MakeError(name, detail2)
    ensures detail1 == detail2
  {
  }
}

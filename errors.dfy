/** The error classifiers of src/utils/errors.ts. */
module Errors {
  import opened Wrappers

  /**
   * A thrown value, by its runtime kind: an `Error` instance (with its optional
   * `stack`), a string, or anything else.
   */
  datatype Thrown =
    | ErrorObject(message: string, stack: Option<string>)
    | StringValue(text: string)
    | OtherValue

  const UnknownErrorMessage: string := "Erro desconhecido"

  /** The human-readable message of a thrown value; the `Error` case is tried first. */
  function GetErrorMessage(error: Thrown): (r: string)
    ensures error.ErrorObject? ==> r == error.message
    ensures error.StringValue? ==> r == error.text
    ensures error.OtherValue? ==> r == UnknownErrorMessage
  {
    if error.ErrorObject? then error.message
    else if error.StringValue? then error.text
    else UnknownErrorMessage
  }

  /** The stack trace of an `Error`; `undefined` for every other thrown value. */
  function GetErrorStack(error: Thrown): (r: Option<string>)
    ensures error.ErrorObject? ==> r == error.stack
    ensures !error.ErrorObject? ==> r.None?
  {
    if error.ErrorObject? then error.stack else None
  }

  /** A value with a stack trace is an `Error`, so its message is the `Error`'s own message. */
  lemma StackImpliesErrorMessage(error: Thrown)
    requires GetErrorStack(error).Some?
    ensures GetErrorMessage(error) == error.message
  {
  }

  /** A message differs from the unknown-error text only when the error supplied it. */
  lemma UnknownOnlyForForeignValues(error: Thrown)
    ensures GetErrorMessage(error) != UnknownErrorMessage ==> !error.OtherValue?
    ensures error.StringValue? && error.text != UnknownErrorMessage ==> GetErrorMessage(error) != UnknownErrorMessage
  {
  }
}

/**
  The tagged result helpers of the error handler: success and error
  constructors, the two type guards, and the classification of an arbitrary
  thrown value into an error result.
 */
module ErrorHandler {
  import opened IDTypes

  /** A result is either a success, possibly carrying data, or an error with a message and an optional code. */
  datatype Result<T> = SuccessResult(data: Option<T>) | ErrorResult(error: string, code: Option<string>) {
    /** The `success` discriminant field. */
    predicate success() {
      SuccessResult?
    }
  }

  /** A thrown value, as far as the classification can tell them apart: an `Error` instance
      (with its message and a possible `code` property), a string, or anything else
      (which may also carry a `code` property). */
  datatype ErrorValue =
    | ErrorObj(message: string, errCode: Option<string>)
    | Str(s: string)
    | Other(otherCode: Option<string>)

  const UnexpectedErrorMessage := "Une erreur inattendue s'est produite"
  const UnknownErrorCode := "UNKNOWN_ERROR"

  /** `error?.code`: a string has no `code` property. */
  function CodeOf(e: ErrorValue): Option<string> {
    match e
    case ErrorObj(_, c) => c
    case Str(_) => None
    case Other(c) => c
  }

  /** Turns any thrown value into an error result; the logging context argument is left out. */
  function HandleError<T>(e: ErrorValue): (r: Result<T>)
    ensures !r.success()
    ensures e.ErrorObj? ==> r.error == e.message
    ensures e.Str? ==> r.error == e.s
    ensures e.Other? ==> r.error == UnexpectedErrorMessage
    ensures r.code.Some?
    ensures Truthy(CodeOf(e)) ==> r.code == CodeOf(e)
    ensures !Truthy(CodeOf(e)) ==> r.code == Some(UnknownErrorCode)
  {
    var message :=
      match e
      case ErrorObj(m, _) => m
      case Str(s) => s
      case Other(_) => UnexpectedErrorMessage;
    var code := CodeOf(e);
    ErrorResult(message, Some(if Truthy(code) then code.value else UnknownErrorCode))
  }

  /** The code of a handled error is never empty, so a caller can always show it. */
  lemma HandledCodeNonEmpty<T>(e: ErrorValue)
    ensures var r: Result<T> := HandleError(e); r.code.Some? && r.code.value != ""
  {
  }

  function CreateSuccessResult<T>(data: Option<T>): (r: Result<T>)
    ensures r.success() && r.data == data
  {
    SuccessResult(data)
  }

  function CreateErrorResult<T>(error: string, code: Option<string>): (r: Result<T>)
    ensures !r.success() && r.error == error && r.code == code
  {
    ErrorResult(error, code)
  }

  /** The type guard `result is ErrorResult`: it holds exactly of the error variant. */
  function IsErrorResult<T>(r: Result<T>): (b: bool)
    ensures b <==> r.ErrorResult?
  {
    !r.success()
  }

  /** The type guard `result is SuccessResult`: it holds exactly of the success variant. */
  function IsSuccessResult<T>(r: Result<T>): (b: bool)
    ensures b <==> r.SuccessResult?
  {
    r.success()
  }

  /** Every result is recognised by exactly one of the two guards. */
  lemma GuardsComplementary<T>(r: Result<T>)
    ensures IsErrorResult(r) != IsSuccessResult(r)
  {
  }

  /** Each constructor is recognised by its own guard and only that one. */
  lemma GuardsRecogniseConstructors<T>(data: Option<T>, error: string, code: Option<string>)
    ensures IsSuccessResult(CreateSuccessResult(data)) && !IsErrorResult(CreateSuccessResult(data))
    ensures IsErrorResult(CreateErrorResult<T>(error, code)) && !IsSuccessResult(CreateErrorResult<T>(error, code))
  {
  }
}

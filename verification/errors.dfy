/** Result codes of the engine's public operations and their human-readable messages. */
module ErrorModel {

  /** The codes returned by every public operation (their numeric values live in shenidam.h). */
  datatype Status =
    | Success
    | InvalidArgument
    | AlreadySetBaseSignal
    | BaseSignalNotSet
    | AllocationError

  const UnknownErrorMessage: string := "Unknown error"

  /** The message for a code; every code the lookup does not recognise gets the fallback. */
  function ErrorMessage(code: Status): (msg: string)
    ensures msg == UnknownErrorMessage <==> code == Success
    ensures |msg| > 0
  {
    match code
    case InvalidArgument => "Invalid argument"
    case AlreadySetBaseSignal => "Base signal already set"
    case BaseSignalNotSet => "Base signal not set"
    case AllocationError => "Could not allocate memory"
    case Success => UnknownErrorMessage
  }

  /** Two different error codes never share a message, so a message identifies its error. */
  lemma ErrorMessageInjective(a: Status, b: Status)
    requires a != Success && b != Success
    requires ErrorMessage(a) == ErrorMessage(b)
    ensures a == b
  {
  }
}

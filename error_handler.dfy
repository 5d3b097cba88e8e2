/**
  The application's error record, the Express error handler that turns a
  thrown error into a response, and the table of response messages.
 */
module ErrorHandler {
  import opened Http

  /** `AppError`: an error carrying the status to respond with. */
  datatype AppError = AppError(code: int, message: string)

  /** An error reaching the handler: the authentication library's
      `UnauthorizedError` with its own status, an `AppError`, or any other error. */
  datatype Raised =
    | Unauthorized(status: int, message: string)
    | Application(error: AppError)
    | Other(message: string)

  /** The message every kind of error carries. */
  function MessageOf(err: Raised): string
  {
    match err
    case Unauthorized(_, m) => m
    case Application(e) => e.message
    case Other(m) => m
  }

  /** `errorHandler`: an unauthorized error gets its own status, an `AppError`
      its code, anything else 500; the body is always `{Error: message}`. */
  function HandleError<T>(err: Raised): (r: Reply<T>)
    ensures r.Sent? && r.body == ErrorBody(MessageOf(err))
    ensures err.Unauthorized? ==> r.status == err.status
    ensures err.Application? ==> r.status == err.error.code
    ensures err.Other? ==> r.status == 500
  {
    if err.Unauthorized? then Sent(err.status, ErrorBody(err.message))
    else if err.Application? then Sent(err.error.code, ErrorBody(err.error.message))
    else Sent(500, ErrorBody(err.message))
  }

  /** The handler always answers, and its status is 500 for every error it knows nothing about. */
  lemma HandledStatus<T>(err: Raised)
    ensures HandleError<T>(err).Sent?
    ensures HandleError<T>(err).status != 500 ==> !err.Other?
    ensures (err.Unauthorized? || err.Application?) ==>
      HandleError<T>(err).status == (if err.Unauthorized? then err.status else err.error.code)
  {
  }

  /** An `AppError` raised with a code and a message is answered with exactly them. */
  lemma AppErrorAnswered<T>(code: int, message: string)
    ensures HandleError<T>(Application(AppError(code, message))) == Sent(code, ErrorBody(message))
  {
  }

  /** The two entity kinds of `errorMessages`. */
  datatype Kind = BoatKind | LoadKind

  /** `errorMessages[kind]`. */
  function ErrorMessages(kind: Kind): (m: map<string, string>)
    ensures "server" in m && "missingAttributes" in m
    ensures kind.BoatKind? ==> m.Keys == {"server", "missingAttributes", "invalidBoatId", "notOwner", "notFound", "alreadyLoaded", "mismatchedEntity"}
    ensures kind.LoadKind? ==> m.Keys == {"server", "missingAttributes", "invalidLoadId"}
  {
    match kind
    case BoatKind =>
      map[
        "server" := "Internal server error",
        "missingAttributes" := "The request object is missing at least one of the required attributes",
        "invalidBoatId" := "No boat with this boat_id exists",
        "notOwner" := "You do not own this boat",
        "notFound" := "The specified boat and/or load does not exist",
        "alreadyLoaded" := "The load is already loaded on another boat",
        "mismatchedEntity" := "No boat with this boat_id is loaded with the load with this load_id"
      ]
    case LoadKind =>
      map[
        "server" := "Internal server error",
        "missingAttributes" := "The request object is missing at least one of the required attributes",
        "invalidLoadId" := "No load with this load_id exists"
      ]
  }

  /** The two tables agree on the messages they share. */
  lemma SharedMessages()
    ensures forall key :: key in ErrorMessages(BoatKind) && key in ErrorMessages(LoadKind) ==>
      ErrorMessages(BoatKind)[key] == ErrorMessages(LoadKind)[key]
  {
    assert ErrorMessages(BoatKind).Keys * ErrorMessages(LoadKind).Keys == {"server", "missingAttributes"};
  }
}

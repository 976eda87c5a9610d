/** HTTP replies and the error-handling middleware: the errors a handler
    throws reach `ErrorHandler`, which turns them into a status and a body. */
module Errors {
  import opened Seqs

  datatype Details = NoDetails | Messages(items: seq<string>) | Detail(text: string)

  /** The status and JSON body of a failed request. */
  datatype ErrorBody = ErrorBody(status: int, error: string, details: Details)

  /** What a request handler answers: a success status with a value, or an error body. */
  datatype Reply<+T> = Ok(status: int, value: T) | Err(body: ErrorBody)

  /** A handler's own `res.status(code).json({ error: text })`. */
  function Fail<T>(status: int, text: string): Reply<T> {
    Err(ErrorBody(status, text, NoDetails))
  }

  /** A thrown error, as much of it as the middleware reads. */
  datatype Error = Error(
    name: string,
    message: string,
    code: Option<int>,
    status: Option<int>,
    fieldErrors: seq<string>)

  /** A schema validation failure, one message per failing path. */
  function ValidationError(model: string, fieldErrors: seq<string>): Error {
    Error("ValidationError", model + " validation failed", None, None, fieldErrors)
  }

  /** The unique-index violation raised by the database server. */
  function DuplicateKeyError(): Error {
    Error("MongoServerError", "E11000 duplicate key error", Some(11000), None, [])
  }

  /** The failure to cast a client string to an identifier. */
  function CastError(model: string, value: string): Error {
    Error("CastError", "Cast to ObjectId failed for value \"" + value + "\" (type string) at path \"_id\" for model \"" + model + "\"", None, None, [])
  }

  /** The error raised by reading a property of a lookup that found nothing. */
  function NullPropertyError(property: string): Error {
    Error("TypeError", "Cannot read properties of null (reading '" + property + "')", None, None, [])
  }

  predicate IsDuplicateKey(e: Error) {
    e.name == "MongoServerError" && e.code == Some(11000)
  }

  /** The status the catch-all branch answers with: `err.status || 500`. */
  function FallbackStatus(e: Error): int {
    if e.status.Some? && e.status.value != 0 then e.status.value else 500
  }

  /** The middleware: the first matching branch decides. */
  function ErrorHandler(e: Error): (r: ErrorBody)
    ensures e.name == "ValidationError" ==>
      r.status == 400 && r.error == "Validation error" && r.details == Messages(e.fieldErrors)
    ensures e.name != "ValidationError" && IsDuplicateKey(e) ==>
      r.status == 400 && r.error == "Duplicate entry" && r.details == Detail("This email is already registered")
    ensures e.name != "ValidationError" && !IsDuplicateKey(e) && e.name == "MulterError" ==>
      r.status == 400 && r.error == "File upload error" && r.details == Detail(e.message)
    ensures e.name !in {"ValidationError", "MulterError"} && !IsDuplicateKey(e) ==>
      r.status == FallbackStatus(e) && r.details == NoDetails
      && r.error == (if e.message != [] then e.message else "Internal server error")
  {
    if e.name == "ValidationError" then
      ErrorBody(400, "Validation error", Messages(e.fieldErrors))
    else if e.name == "MongoServerError" && e.code == Some(11000) then
      ErrorBody(400, "Duplicate entry", Detail("This email is already registered"))
    else if e.name == "MulterError" then
      ErrorBody(400, "File upload error", Detail(e.message))
    else
      ErrorBody(FallbackStatus(e),
                if e.message != [] then e.message else "Internal server error",
                NoDetails)
  }

  /** An error that carries no status of its own is a server error, unless
      one of the three recognised kinds claims it first. */
  lemma UnrecognisedIsServerError(e: Error)
    requires e.name !in {"ValidationError", "MulterError"} && !IsDuplicateKey(e)
    requires e.status.None? || e.status == Some(0)
    ensures ErrorHandler(e).status == 500
  {
  }

  /** Every status the middleware answers is 400, the error's own non-zero
      status, or 500. */
  lemma ErrorHandlerStatuses(e: Error)
    ensures var s := ErrorHandler(e).status;
      s == 400 || s == 500 || (e.status.Some? && s == e.status.value)
  {
  }

  /** The first three branches are told apart by the error's name, so a
      validation error is reported as one whatever code, status or message
      it also carries, the duplicate-key code included. */
  lemma ValidationWinsOverDuplicate(e: Error)
    requires e.name == "ValidationError" && e.code == Some(11000)
    ensures ErrorHandler(e) == ErrorBody(400, "Validation error", Messages(e.fieldErrors))
  {
  }

  /** The errors the handlers raise themselves: validation failures and
      duplicates are client errors (400), casts and null reads server
      errors (500). */
  lemma RaisedErrorStatuses(model: string, value: string, property: string, fieldErrors: seq<string>)
    ensures ErrorHandler(ValidationError(model, fieldErrors)).status == 400
    ensures ErrorHandler(DuplicateKeyError()) == ErrorBody(400, "Duplicate entry", Detail("This email is already registered"))
    ensures ErrorHandler(CastError(model, value)).status == 500
    ensures ErrorHandler(NullPropertyError(property)).status == 500
  {
  }
}

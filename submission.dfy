/** Interpreting the ledger's answer to one `store_transaction` call. */
module Submission {
  import opened Wrappers

  /** What the ledger call produces: a created transaction's id, an API
      error with its HTTP status and the `detail` strings of its parsed
      `errors` list, or any other exception, known only by its text. */
  datatype Reply =
    | Created(id: string)
    | ApiError(status: int, details: seq<string>, text: string)
    | OtherError(text: string)

  /** The logged outcome of one submission. */
  datatype Outcome = Accepted(id: string) | Rejected(reason: string) | Failed(cause: string)

  /** The status Firefly III answers with when it refuses a record, among
      others for a duplicate. */
  const Unprocessable := 422

  /** A reply the importer can interpret without raising: anything but a
      422 whose error list is empty. */
  predicate Interpretable(reply: Reply) {
    !(reply.ApiError? && reply.status == Unprocessable && reply.details == [])
  }

  /** The outcome of a reply, or `None` when a 422 carries no error detail:
      taking its first detail then raises inside the exception handler, and
      the exception ends the whole run. */
  function Interpret(reply: Reply): (r: Option<Outcome>)
    ensures r.Some? <==> Interpretable(reply)
    ensures (r.Some? && r.value.Accepted?) <==> reply.Created?
    ensures reply.Created? ==> r == Some(Accepted(reply.id))
    ensures (r.Some? && r.value.Rejected?) <==> reply.ApiError? && reply.status == Unprocessable && reply.details != []
    ensures r.Some? && r.value.Rejected? ==> r.value.reason == reply.details[0]
    ensures (r.Some? && r.value.Failed?) <==> reply.OtherError? || (reply.ApiError? && reply.status != Unprocessable)
    ensures r.Some? && r.value.Failed? ==> r.value.cause == reply.text
  {
    match reply
    case Created(id) => Some(Accepted(id))
    case ApiError(status, details, text) =>
      if status == Unprocessable then
        if details == [] then None else Some(Rejected(details[0]))
      else Some(Failed(text))
    case OtherError(text) => Some(Failed(text))
  }

}

/** What a request can come back with, the messages the pages derive from
    it, and the precedence the pages use to decide what to show in place of a
    list. */
module Api {
  import opened Wrappers

  /** The outcome of one request: a usable answer, a failure the server
      reported (with its `message`, when it sent one), or no answer at all. */
  datatype Outcome<T> = Success(data: T) | ApiFail(message: Option<string>) | NetworkFail

  /** The body of a create, update or sign-up response. */
  datatype Reply = Reply(success: bool, message: string)

  /** `message || fallback` for a message the server may not have sent. */
  function MessageOr(message: Option<string>, fallback: string): (r: string)
    ensures message.Some? && message.value != "" ==> r == message.value
    ensures message.None? || message.value == "" ==> r == fallback
  {
    match message
    case Some(m) => if m != "" then m else fallback
    case None => fallback
  }

  /** The error a page records for a failed request: the server's non-empty
      message, else the page's fallback; `networkText` when no answer came. */
  function FailureText<T>(o: Outcome<T>, fallback: string, networkText: string): (r: string)
    requires !o.Success?
    ensures o.NetworkFail? ==> r == networkText
    ensures o.ApiFail? ==> r == MessageOr(o.message, fallback)
    ensures fallback != "" && networkText != "" ==> r != ""
  {
    match o
    case ApiFail(m) => MessageOr(m, fallback)
    case NetworkFail => networkText
  }

  /** What a dropdown or a table body shows. */
  datatype Body<T> = Loading | ErrorText(message: string) | NoResults(text: string) | Rows(items: seq<T>)

  /** Loading first, then the error, then the "no results" line for an empty
      list, then the list itself. */
  function BodyOf<T>(loading: bool, error: string, items: seq<T>, emptyText: string): (b: Body<T>)
    ensures b.Loading? <==> loading
    ensures b.ErrorText? <==> !loading && error != ""
    ensures b.NoResults? <==> !loading && error == "" && items == []
    ensures b.Rows? <==> !loading && error == "" && items != []
    ensures b.ErrorText? ==> b.message == error
    ensures b.NoResults? ==> b.text == emptyText
    ensures b.Rows? ==> b.items == items
  {
    if loading then Loading
    else if error != "" then ErrorText(error)
    else if items == [] then NoResults(emptyText)
    else Rows(items)
  }
}

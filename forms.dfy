/** What the create, update and sign-up pages share: the validation message,
    how a submission's outcome becomes the page's message and navigation,
    and how the message is coloured. */
module Forms {
  import opened Wrappers
  import Text
  import Api
  import Js

  const RequiredFieldsMessage: string := "Please fill all required fields."

  /** A form field as it appears in a payload: absent when empty. */
  function NonEmpty(s: string): (r: Option<Js.Value>)
    ensures r.None? <==> s == ""
    ensures r.Some? ==> r.value == Js.Str(s) && Js.Truthy(r.value)
  {
    if s == "" then None else Some(Js.Str(s))
  }

  /** The message a page shows once its request has settled: the server's
      `message` after a response; after a thrown error, the server's
      non-empty message if the error carried one, else the page's fallback. */
  function SettledMessage(outcome: Api.Outcome<Api.Reply>, fallback: string): (m: string)
    ensures outcome.Success? ==> m == outcome.data.message
    ensures outcome.ApiFail? ==> m == Api.MessageOr(outcome.message, fallback)
    ensures outcome.NetworkFail? ==> m == fallback
  {
    match outcome
    case Success(reply) => reply.message
    case ApiFail(msg) => Api.MessageOr(msg, fallback)
    case NetworkFail => fallback
  }

  /** A thrown error always leaves a message when the fallback is not empty. */
  lemma FailureLeavesMessage(outcome: Api.Outcome<Api.Reply>, fallback: string)
    requires !outcome.Success? && fallback != ""
    ensures SettledMessage(outcome, fallback) != ""
  {
  }

  /** When a page leaves after its request: on every response, or only on a
      response whose `success` is true. A thrown error never navigates. */
  datatype NavigationRule = OnAnyResponse | OnSuccessOnly

  function NavigationAfter(outcome: Api.Outcome<Api.Reply>, rule: NavigationRule, target: string): (nav: Option<string>)
    ensures nav.Some? ==> nav.value == target
    ensures nav.Some? <==> outcome.Success? && (rule.OnAnyResponse? || outcome.data.success)
  {
    if outcome.Success? && (rule.OnAnyResponse? || outcome.data.success) then Some(target) else None
  }

  /** `message.toLowerCase().includes("failed")`. */
  predicate MentionsFailed(message: string) {
    Text.Includes(Text.Lower(message), "failed")
  }

  /** `message.toLowerCase().includes("failed") || message.toLowerCase().includes("error")`. */
  predicate MentionsFailedOrError(message: string) {
    MentionsFailed(message) || Text.Includes(Text.Lower(message), "error")
  }

  /** A fallback that begins with "Failed" is shown red by either test. */
  lemma FailedPrefixIsRed(message: string)
    requires |message| >= 6 && message[..6] == "Failed"
    ensures MentionsFailed(message) && MentionsFailedOrError(message)
  {
    var l := Text.Lower(message);
    assert l[..6] == "failed";
    assert Text.OccursAt(l, "failed", 0);
  }
}

/** `askingReplyRequestSubmission`: the user confirms the reply request. "y"
    files it with the reason, "n" without, "r" asks for the reason again;
    anything else changes nothing. */
module AskingReplyRequestSubmissionHandler {
  import opened Js
  import opened Messages
  import opened Session
  import opened Utils

  const MissingText := "searchText not set in data"
  const ReviseText := "好的，請重新填寫理由。"
  const UpdatesText := " waiting for clarification. " + "Please refer to this " + "page for updates: "

  /** The text after "y". It reads "other s are" or "other  is" without the
      word "user", exactly as the source's template writes it. */
  function WithReasonText(replyRequestCount: nat, selectedArticleId: Option<string>): string
  {
    "We've recorded your reason. " + NatToString(replyRequestCount) + " other "
    + (if replyRequestCount > 1 then "s are" else " is") + UpdatesText
    + GetArticleURL(Interpolate(selectedArticleId))
  }

  /** The text after "n". */
  function WithoutReasonText(replyRequestCount: nat, selectedArticleId: Option<string>): string
  {
    "We've recorded your reason. " + NatToString(replyRequestCount) + " other user"
    + (if replyRequestCount > 1 then "s are" else " is") + " also" + UpdatesText
    + GetArticleURL(Interpolate(selectedArticleId))
  }

  /** The turn the handler takes, given the request count the backend returns.
      `data` is never written. */
  function Handle(data: Data, p: Params, replyRequestCount: nat): (r: Result<Turn>)
    ensures r.Err? <==> !Truthy(data.searchedText)
    ensures r.Err? ==> r.message == MissingText
    ensures r.Ok? ==> r.value.data == data
    ensures r.Ok? && p.event.input == "y" ==>
      r.value.calls == [CreateReplyRequest(data.selectedArticleId, data.reasonText)]
      && r.value.params == p.(state := Init, replies := [Text(WithReasonText(replyRequestCount, data.selectedArticleId))])
    ensures r.Ok? && p.event.input == "n" ==>
      r.value.calls == [CreateReplyRequest(data.selectedArticleId, None)]
      && r.value.params == p.(state := Init, replies := [Text(WithoutReasonText(replyRequestCount, data.selectedArticleId))])
    ensures r.Ok? && p.event.input == "r" ==>
      r.value.calls == [] && r.value.params == p.(state := AskingReplyRequestReason, replies := [Text(ReviseText)])
    ensures r.Ok? && p.event.input !in {"y", "n", "r"} ==> r.value == Turn(data, p, [])
  {
    if !Truthy(data.searchedText) then Err(MissingText)
    else if p.event.input == "y" then
      Ok(Turn(data, p.(state := Init, replies := [Text(WithReasonText(replyRequestCount, data.selectedArticleId))]),
              [CreateReplyRequest(data.selectedArticleId, data.reasonText)]))
    else if p.event.input == "n" then
      Ok(Turn(data, p.(state := Init, replies := [Text(WithoutReasonText(replyRequestCount, data.selectedArticleId))]),
              [CreateReplyRequest(data.selectedArticleId, None)]))
    else if p.event.input == "r" then
      Ok(Turn(data, p.(state := AskingReplyRequestReason, replies := [Text(ReviseText)]), []))
    else
      Ok(Turn(data, p, []))
  }
}

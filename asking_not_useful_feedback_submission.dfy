/** `askingNotUsefulFeedbackSubmission`: the user confirms the reason. Any
    answer but "r" casts the downvote ("n" without the reason); "r" asks for
    the reason again. */
module AskingNotUsefulFeedbackSubmissionHandler {
  import opened Js
  import opened Messages
  import opened Session
  import opened Utils
  import AskingNotUsefulFeedbackHandler

  const MissingReply := "selectedReply not set in data"

  /** The turn `askingNotUsefulFeedbackSubmission` takes, given the feedback
      count the downvote returns. `data` is never written. */
  function Handle(data: Data, p: Params, feedbackCount: nat): (r: Result<Turn>)
    ensures r.Err? <==> !Truthy(data.selectedReplyId)
    ensures r.Err? ==> r.message == MissingReply
    ensures r.Ok? ==> r.value.data == data
    // Anything but "r", "y" and free text included, casts exactly one downvote:
    // without a reason for "n", with the stored comment otherwise.
    ensures r.Ok? && p.event.input == "n" ==>
      r.value.calls == [CreateOrUpdateFeedback(Downvote, data.selectedArticleId, data.selectedReplyId.value,
                                               Some(AskingNotUsefulFeedbackHandler.NoComment))]
    ensures r.Ok? && p.event.input != "r" && p.event.input != "n" ==>
      r.value.calls == [CreateOrUpdateFeedback(Downvote, data.selectedArticleId, data.selectedReplyId.value,
                                               data.comment)]
    ensures r.Ok? && p.event.input != "r" ==>
      r.value.params == p.(state := Init,
                              replies := AskingNotUsefulFeedbackHandler.DownvoteReplies(feedbackCount, data.selectedArticleId))
    ensures r.Ok? && p.event.input == "r" ==>
      r.value.calls == []
      && r.value.params == p.(state := AskingNotUsefulFeedback,
                              replies := [Buttons("好的，請重新填寫理由", [Postback("我不想填了", "n")])])
  {
    if !Truthy(data.selectedReplyId) then Err(MissingReply)
    else if p.event.input != "r" then
      var comment := if p.event.input == "n" then Some(AskingNotUsefulFeedbackHandler.NoComment) else data.comment;
      var vote := CreateOrUpdateFeedback(Downvote, data.selectedArticleId, data.selectedReplyId.value, comment);
      Ok(Turn(data, p.(state := Init,
                       replies := AskingNotUsefulFeedbackHandler.DownvoteReplies(feedbackCount, data.selectedArticleId)),
              [vote]))
    else
      Ok(Turn(data, p.(state := AskingNotUsefulFeedback,
                       replies := [Buttons("好的，請重新填寫理由", [CreatePostbackAction("我不想填了", "n")])]), []))
  }
}

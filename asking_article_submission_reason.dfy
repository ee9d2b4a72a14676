/** `askingArticleSubmissionReason`: the user says why the unmatched text
    should be filed as a new article. "n" discards it; any other text is kept
    as the reason and shown back for confirmation. */
module AskingArticleSubmissionReasonHandler {
  import opened Js
  import opened Messages
  import opened Session
  import opened Utils
  import AskingReplyRequestReasonHandler

  const DiscardedText := "訊息沒有送出，謝謝您的使用。"

  /** The turn the handler takes. It has no precondition, never throws and
      calls no backend. */
  function Transition(data: Data, p: Params): (r: Turn)
    ensures r.calls == []
    ensures p.event.input == "n" ==>
      r.data == data && r.params == p.(state := Init, replies := [Text(DiscardedText)])
    ensures p.event.input != "n" ==>
      r.data == data.(reasonText := Some(p.event.input))
      && r.params == p.(state := AskingArticleSubmission,
                        replies := AskingReplyRequestReasonHandler.ConfirmReasonReplies(p.event.input, DiscardLabel))
  {
    if p.event.input == "n" then
      Turn(data, p.(state := Init, replies := [Text(DiscardedText)]), [])
    else
      Turn(data.(reasonText := Some(p.event.input)),
           p.(state := AskingArticleSubmission,
              replies := AskingReplyRequestReasonHandler.ConfirmReasonReplies(p.event.input, DiscardLabel)),
           [])
  }

  /** The handler on the shared session object: `reasonText` is the only field
      it writes. */
  method Handle(data: SessionData, p: Params) returns (r: Turn)
    modifies data
    ensures r == Transition(old(data.View()), p)
    ensures data.View() == r.data
  {
    var state, replies := p.state, p.replies;
    if p.event.input == "n" {
      replies := [Text(DiscardedText)];
      state := Init;
    } else {
      var reason := p.event.input;
      replies := AskingReplyRequestReasonHandler.ConfirmReasonReplies(reason, DiscardLabel);
      data.reasonText := Some(reason);
      state := AskingArticleSubmission;
    }
    r := Turn(data.View(), p.(state := state, replies := replies), []);
  }
}

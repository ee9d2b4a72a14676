/** `askingNotUsefulFeedback`: the user says why the reply did not help. "n"
    skips the reason and casts a downvote at once; any other text is kept as
    the comment and shown back for confirmation. */
module AskingNotUsefulFeedbackHandler {
  import opened Js
  import opened Messages
  import opened Session
  import opened Utils

  const MissingReply := "selectedReply not set in data"

  const FirstFeedbackText := "感謝您的回饋，" + "您是第一個評論這個回應的人 :)"

  /** The comment sent with a downvote whose reason was skipped. */
  const NoComment := "none"

  /** The thanks after a downvote: how many others gave feedback, or the
      first-feedback text. */
  function ThanksText(feedbackCount: nat): (r: string)
    ensures feedbackCount <= 1 <==> r == FirstFeedbackText
    ensures feedbackCount > 1 ==> r == "感謝您與其他 " + NatToString(feedbackCount - 1) + " 人的回饋。"
  {
    if feedbackCount > 1 then
      var r := "感謝您與其他 " + NatToString(feedbackCount - 1) + " 人的回饋。";
      assert r[3] == '與' && FirstFeedbackText[3] == '的';
      r
    else FirstFeedbackText
  }

  const InviteBefore := "\U{1F481} 若您認為自己能回應得更好，歡迎到 "
  const InviteAfter := " 提交新的回應唷！"

  /** The two messages after a downvote: the thanks, then an invitation that
      carries the article's URL whole. */
  function DownvoteReplies(feedbackCount: nat, selectedArticleId: Option<string>): (r: seq<Reply>)
    ensures |r| == 2 && r[0] == Text(ThanksText(feedbackCount)) && r[1].Text?
    ensures var u, k := GetArticleURL(Interpolate(selectedArticleId)), |InviteBefore|;
      |r[1].text| == k + |u| + |InviteAfter| && r[1].text[k..k + |u|] == u
  {
    var u := GetArticleURL(Interpolate(selectedArticleId));
    var invite := InviteBefore + u + InviteAfter;
    assert invite[|InviteBefore|..|InviteBefore| + |u|] == u;
    [ Text(ThanksText(feedbackCount)), Text(invite) ]
  }

  /** The reason shown back, with submit, revise and skip buttons. */
  function ConfirmReplies(reason: string): (r: seq<Reply>)
    ensures |r| == 2 && r[0] == Text("以下是您所填寫的理由：「" + reason + "」")
    ensures r[1].Buttons? && Payloads(r[1].buttons) == ["y", "r", "n"]
  {
    [ Text("以下是您所填寫的理由：「" + reason + "」"),
      Buttons("我們會把您覺得回應沒幫助的原因呈現給編輯們看。請確認：",
              [CreatePostbackAction("明白，我要送出", "y"),
               CreatePostbackAction("重寫送出的理由", "r"),
               CreatePostbackAction("算了，我不想填", "n")]) ]
  }

  /** The turn `askingNotUsefulFeedback` takes, given the feedback count the
      downvote returns. */
  function Transition(data: Data, p: Params, feedbackCount: nat): (r: Result<Turn>)
    ensures r.Err? <==> !Truthy(data.selectedReplyId)
    ensures r.Err? ==> r.message == MissingReply
    // "n": one downvote without a reason, back to the start; nothing written.
    ensures r.Ok? && p.event.input == "n" ==>
      r.value.data == data
      && r.value.calls == [CreateOrUpdateFeedback(Downvote, data.selectedArticleId, data.selectedReplyId.value,
                                                  Some(NoComment))]
      && r.value.params == p.(state := Init, replies := DownvoteReplies(feedbackCount, data.selectedArticleId))
    // Anything else is the reason: only `comment` is written, and nothing is sent.
    ensures r.Ok? && p.event.input != "n" ==>
      r.value.data == data.(comment := Some(p.event.input))
      && r.value.calls == []
      && r.value.params == p.(state := AskingNotUsefulFeedbackSubmission, replies := ConfirmReplies(p.event.input))
  {
    if !Truthy(data.selectedReplyId) then Err(MissingReply)
    else if p.event.input == "n" then
      Ok(Turn(data, p.(state := Init, replies := DownvoteReplies(feedbackCount, data.selectedArticleId)),
              [CreateOrUpdateFeedback(Downvote, data.selectedArticleId, data.selectedReplyId.value, Some(NoComment))]))
    else
      Ok(Turn(data.(comment := Some(p.event.input)),
              p.(state := AskingNotUsefulFeedbackSubmission, replies := ConfirmReplies(p.event.input)), []))
  }

  /** `askingNotUsefulFeedback` on the shared session object: `comment` is the
      only field it writes. */
  method Handle(data: SessionData, p: Params, feedbackCount: nat) returns (r: Result<Turn>)
    modifies data
    ensures r == Transition(old(data.View()), p, feedbackCount)
    ensures r.Ok? ==> data.View() == r.value.data
    ensures r.Err? ==> unchanged(data)
  {
    if !Truthy(data.selectedReplyId) {
      return Err(MissingReply);
    }
    var state, replies := p.state, p.replies;
    var calls := [];
    if p.event.input == "n" {
      calls := [CreateOrUpdateFeedback(Downvote, data.selectedArticleId, data.selectedReplyId.value, Some(NoComment))];
      replies := DownvoteReplies(feedbackCount, data.selectedArticleId);
      state := Init;
    } else {
      data.comment := Some(p.event.input);
      replies := ConfirmReplies(p.event.input);
      state := AskingNotUsefulFeedbackSubmission;
    }
    r := Ok(Turn(data.View(), p.(state := state, replies := replies), calls));
  }
}

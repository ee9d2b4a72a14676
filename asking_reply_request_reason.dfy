/** `askingReplyRequestReason`: the user says why an unanswered article should
    be answered. "n" files the reply request without a reason; any other text
    is kept as the reason and shown back for confirmation. */
module AskingReplyRequestReasonHandler {
  import opened Js
  import opened Messages
  import opened Session
  import opened Utils

  const SkipReasonLabel := "我不想填理由"
  const WarningText :=
    "我們即將把此訊息與您填寫的理由送至資料庫。若您送出的訊息或理由意味不明、"
    + "造成闢謠編輯的困擾，可能會影響到您未來送出文章的權利。"

  /** The reason shown back verbatim, the warning, and submit, revise and skip
      buttons; `skipLabel` is the skip button's title. */
  function ConfirmReasonReplies(reason: string, skipLabel: string): (r: seq<Reply>)
    ensures |r| == 3 && r[0] == Text("以下是您所填寫的理由：\n「\n" + reason + "\n」") && r[1].Text?
    ensures r[2].Buttons? && |r[2].buttons| == 3 && Payloads(r[2].buttons) == ["y", "r", "n"]
    ensures r[2].buttons[2] == Postback(skipLabel, "n")
  {
    [ Text("以下是您所填寫的理由：\n「\n" + reason + "\n」"),
      Text(WarningText),
      Buttons("請確認：", [CreatePostbackAction("明白，我要送出", "y"),
                          CreatePostbackAction("重寫送出的理由", "r"),
                          CreatePostbackAction(skipLabel, "n")]) ]
  }

  /** What the user is told once the request is filed. */
  function RequestedText(replyRequestCount: nat, selectedArticleId: Option<string>): string
  {
    "已經將您的需求記錄下來了，共有 " + NatToString(replyRequestCount)
    + " 人跟您一樣渴望看到針對這篇訊息的回應。若有最新回應，會寫在這個地方："
    + GetArticleURL(Interpolate(selectedArticleId))
  }

  /** The turn `askingReplyRequestReason` takes, given the request count the
      backend returns. It has no precondition and never throws. */
  function Transition(data: Data, p: Params, replyRequestCount: nat): (r: Turn)
    ensures p.event.input != "n" ==>
      r.data == data.(reasonText := Some(p.event.input)) && r.calls == []
      && r.params == p.(state := AskingReplyRequestSubmission,
                        replies := ConfirmReasonReplies(p.event.input, SkipReasonLabel))
    ensures p.event.input == "n" ==>
      r.data == data && r.calls == [CreateReplyRequest(data.selectedArticleId, None)]
      && r.params == p.(state := Init, replies := [Text(RequestedText(replyRequestCount, data.selectedArticleId))])
  {
    if p.event.input != "n" then
      Turn(data.(reasonText := Some(p.event.input)),
           p.(state := AskingReplyRequestSubmission, replies := ConfirmReasonReplies(p.event.input, SkipReasonLabel)),
           [])
    else
      Turn(data, p.(state := Init, replies := [Text(RequestedText(replyRequestCount, data.selectedArticleId))]),
           [CreateReplyRequest(data.selectedArticleId, None)])
  }

  /** The handler on the shared session object: `reasonText` is the only field
      it writes. */
  method Handle(data: SessionData, p: Params, replyRequestCount: nat) returns (r: Turn)
    modifies data
    ensures r == Transition(old(data.View()), p, replyRequestCount)
    ensures data.View() == r.data
  {
    var selectedArticleId := data.selectedArticleId;
    var state, replies := p.state, p.replies;
    var calls := [];
    if p.event.input != "n" {
      var reason := p.event.input;
      replies := ConfirmReasonReplies(reason, SkipReasonLabel);
      data.reasonText := Some(reason);
      state := AskingReplyRequestSubmission;
    } else {
      calls := [CreateReplyRequest(selectedArticleId, None)];
      replies := [Text(RequestedText(replyRequestCount, selectedArticleId))];
      state := Init;
    }
    r := Turn(data.View(), p.(state := state, replies := replies), calls);
  }
}

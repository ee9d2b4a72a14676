/** `choosingReply`: the user picks one of the offered replies by number; the
    chosen reply is shown in five messages ending with a yes/no question. */
module ChoosingReplyHandler {
  import opened Js
  import opened Messages
  import opened Session
  import opened Utils

  const MissingIds := "foundReplyIds not set in data"

  /** The longest reply text or reference shown. */
  const TextLimit: nat := 2000

  const HelpfulQuestion := "請問上面回應是否有幫助？"

  /** "Please enter 1 to n to choose a reply." */
  function EnterNumberText(n: nat): string
  {
    "請輸入 1～" + NatToString(n) + " 的數字，來選擇回應。"
  }

  /** The five messages explaining a reply. */
  function ReplyMessages(selectedArticleId: Option<string>, reply: ReplyDetail): (r: seq<Reply>)
    ensures |r| == 5 && r[0].Text? && r[1].Text? && r[2].Text? && r[3].Text?
    ensures |r[1].text| <= TextLimit && |r[2].text| <= TextLimit
    ensures |reply.text| < TextLimit ==> r[1].text == reply.text
    ensures r[1].text[..if |r[1].text| < TextLimit then |r[1].text| else TextLimit - 2] <= reply.text
    ensures var ref := CreateReferenceWords(reply.reference, reply.replyType);
      && (|ref| < TextLimit ==> r[2].text == ref)
      && r[2].text[..if |r[2].text| < TextLimit then |r[2].text| else TextLimit - 2] <= ref
    ensures r[4] == Buttons(HelpfulQuestion, [Postback("是", "y"), Postback("否", "n")])
    ensures Payloads(r[4].buttons) == ["y", "n"]
  {
    [ Text("有人標記這個訊息 " + CreateTypeWords(reply.replyType) + "，理由是："),
      Text(Ellipsis(reply.text, TextLimit)),
      Text(Ellipsis(CreateReferenceWords(reply.reference, reply.replyType), TextLimit)),
      Text("\U{1F481} 以上訊息由好心人提供。建議至 " + GetArticleURL(Interpolate(selectedArticleId))
           + " 觀看完整的訊息內容、其他鄉親的回應，以及他們各自所提出的理由與出處。"),
      Buttons(HelpfulQuestion, [CreatePostbackAction("是", "y"), CreatePostbackAction("否", "n")]) ]
  }

  /** The turn `choosingReply` takes, given the backend's answer for the chosen reply. */
  function Transition(data: Data, p: Params, reply: ReplyDetail): (r: Result<Turn>)
    ensures r.Err? <==> data.foundReplyIds.None?
    ensures r.Err? ==> r.message == MissingIds
    ensures r.Ok? ==> var ids := data.foundReplyIds.value;
      var selected := AtOneBased(ids, ToNumber(p.event.input));
      // A number outside 1..n, or an empty id: ask again; nothing is written.
      && (!Truthy(selected) ==>
            r.value.data == data && r.value.calls == []
            && r.value.params == p.(state := ChoosingReply, replies := [Text(EnterNumberText(|ids|))]))
      // A valid choice k: the k-th id is remembered and the reply shown.
      && (Truthy(selected) ==>
            r.value.data == data.(selectedReplyId := selected)
            && r.value.calls == [GetReply(selected.value)]
            && r.value.params == p.(state := AskingReplyFeedback,
                                    replies := ReplyMessages(data.selectedArticleId, reply)))
  {
    if data.foundReplyIds.None? then Err(MissingIds)
    else
      var ids := data.foundReplyIds.value;
      var selectedReplyId := AtOneBased(ids, ToNumber(p.event.input));
      if !Truthy(selectedReplyId) then
        Ok(Turn(data, p.(state := ChoosingReply, replies := [Text(EnterNumberText(|ids|))]), []))
      else
        Ok(Turn(data.(selectedReplyId := selectedReplyId),
                p.(state := AskingReplyFeedback, replies := ReplyMessages(data.selectedArticleId, reply)),
                [GetReply(selectedReplyId.value)]))
  }

  /** `choosingReply` on the shared session object: `selectedReplyId` is the only
      field it writes. */
  method Handle(data: SessionData, p: Params, reply: ReplyDetail) returns (r: Result<Turn>)
    modifies data
    ensures r == Transition(old(data.View()), p, reply)
    ensures r.Ok? ==> data.View() == r.value.data
    ensures r.Err? ==> unchanged(data)
  {
    if data.foundReplyIds.None? {
      return Err(MissingIds);
    }
    var state, replies := p.state, p.replies;
    var ids := data.foundReplyIds.value;
    var selectedReplyId := AtOneBased(ids, ToNumber(p.event.input));
    var calls := [];
    if !Truthy(selectedReplyId) {
      replies := [Text(EnterNumberText(|ids|))];
      state := ChoosingReply;
    } else {
      calls := [GetReply(selectedReplyId.value)];
      replies := ReplyMessages(data.selectedArticleId, reply);
      data.selectedReplyId := selectedReplyId;
      state := AskingReplyFeedback;
    }
    r := Ok(Turn(data.View(), p.(state := state, replies := replies), calls));
  }
}

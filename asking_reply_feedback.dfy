/** `askingReplyFeedback`: the user answers whether the reply helped. "y" casts
    an upvote and offers to share the article; "n" asks why; anything else is
    ignored. */
module AskingReplyFeedbackHandler {
  import opened Js
  import opened Messages
  import opened Session
  import opened Utils

  const MissingReply := "selectedReply not set in data"

  /** `ellipsis(undefined, 15)` reads `length` of `undefined` and throws a
      TypeError; its message is not modelled. */
  const UndefinedTextError := "TypeError"

  const FirstFeedbackText := "Thanks. " + ("You are the first " + "one who gave feedback " + "on this reply :)")
  const ShareText :=
    "\U{1F4F2} Don't forget to " + "forward the messages " + "above to others and " + "share with them!\n"
    + "\U{1F481} And feel free to " + "submit your own reply " + "if you have anything " + "to say about this!"
  const WhyNotUsefulText :=
    "Why do you find this " + "reply not helpful? " + "Please tell us in " + "messages. "
    + "If you want to skip " + "this, click the skip " + "button below."
  const SkipLabel := "Skip"

  /** The thanks after an upvote: how many others gave feedback, "user"
      plural iff more than one other; the first-feedback text otherwise. */
  function ThanksText(feedbackCount: nat): (r: string)
    ensures feedbackCount <= 1 <==> r == FirstFeedbackText
    ensures feedbackCount > 1 ==>
      r == ("We've received feedback " + "from you and ") + NatToString(feedbackCount - 1) + " other user"
           + (if feedbackCount > 2 then "s" else "") + "!"
    ensures feedbackCount > 1 ==> (r[|r| - 2] == 's' <==> feedbackCount > 2)
  {
    if feedbackCount > 1 then
      var others := NatToString(feedbackCount - 1);
      var plural := if feedbackCount > 2 then "s" else "";
      var r := ("We've received feedback " + "from you and ") + others + " other user" + plural + "!";
      assert r[|r| - 2] == (if feedbackCount > 2 then 's' else 'r');
      assert r[0] == 'W' && FirstFeedbackText[0] == 'T';
      r
    else FirstFeedbackText
  }

  const ShareHead := "網路上有人說「"

  /** The card the user can forward. */
  function SharedContent(selectedArticleText: string, reply: ReplyDetail, articleUrl: string): Card
  {
    Card(ShareHead + Ellipsis(selectedArticleText, 15) + "」" + (CreateTypeWords(reply.replyType) + "喔！"),
         Some("請至 " + articleUrl + " 看看鄉親們針對這則訊息的回應、理由，與所找的出處唷！"),
         [WebUrl("看看別人的回應", articleUrl)])
  }

  /** The two messages after an upvote. */
  function UpvoteReplies(feedbackCount: nat, selectedArticleText: string, reply: ReplyDetail,
                         articleUrl: string): (r: seq<Reply>)
    ensures |r| == 2 && r[0] == Text(ThanksText(feedbackCount)) && r[1].Generic?
    // Both links lead to the article's page.
    ensures var b := r[1].buttons;
      |b| == 2 && b[0].ElementShare? && |b[0].elements| == 1
      && b[0].elements[0].buttons == [WebUrl("看看別人的回應", articleUrl)]
      && b[1] == WebUrl("Submit a new reply", articleUrl)
    // The title quotes the article text cut to 15 characters, then its type.
    ensures var t, e, w := r[1].buttons[0].elements[0].title, Ellipsis(selectedArticleText, 15),
                           CreateTypeWords(reply.replyType) + "喔！";
      && |e| <= 15 && |t| == |ShareHead| + |e| + 1 + |w|
      && t[..|ShareHead|] == ShareHead && t[|ShareHead|..|ShareHead| + |e|] == e && t[|t| - |w|..] == w
  {
    var t, e, w := SharedContent(selectedArticleText, reply, articleUrl).title, Ellipsis(selectedArticleText, 15),
                   CreateTypeWords(reply.replyType) + "喔！";
    assert t == ShareHead + e + "」" + w;
    assert t[|ShareHead|..|ShareHead| + |e|] == e;
    assert t[|t| - |w|..] == w;
    [ Text(ThanksText(feedbackCount)),
      Generic(ShareText, [ElementShare([SharedContent(selectedArticleText, reply, articleUrl)]),
                          WebUrl("Submit a new reply", articleUrl)]) ]
  }

  /** The turn `askingReplyFeedback` takes, given the feedback count the upvote
      returns and the selected reply. `data` is never written. */
  function Handle(data: Data, p: Params, feedbackCount: nat, reply: ReplyDetail): (r: Result<Turn>)
    ensures r.Err? <==> !Truthy(data.selectedReplyId) || (p.event.input == "y" && data.selectedArticleText.None?)
    ensures !Truthy(data.selectedReplyId) ==> r == Err(MissingReply)
    ensures r.Ok? ==> r.value.data == data
    ensures r.Ok? && p.event.input == "y" ==>
      var replyId := data.selectedReplyId.value;
      && r.value.calls == [CreateOrUpdateFeedback(Upvote, data.selectedArticleId, replyId, None), GetReply(replyId)]
      && r.value.params == p.(state := Init, replies := r.value.params.replies)
      && r.value.params.replies
         == UpvoteReplies(feedbackCount, data.selectedArticleText.value, reply,
                          GetArticleURL(Interpolate(data.selectedArticleId)))
    ensures r.Ok? && p.event.input == "n" ==>
      r.value.calls == []
      && r.value.params == p.(state := AskingNotUsefulFeedback,
                              replies := [Buttons(WhyNotUsefulText, [Postback(SkipLabel, "n")])])
    ensures r.Ok? && p.event.input != "y" && p.event.input != "n" ==>
      r.value.calls == [] && r.value.params == p.(replies := [])
  {
    if !Truthy(data.selectedReplyId) then Err(MissingReply)
    else if p.event.input == "y" then
      var replyId := data.selectedReplyId.value;
      if data.selectedArticleText.None? then Err(UndefinedTextError)
      else
        var articleUrl := GetArticleURL(Interpolate(data.selectedArticleId));
        var replies := UpvoteReplies(feedbackCount, data.selectedArticleText.value, reply, articleUrl);
        Ok(Turn(data, p.(state := Init, replies := replies),
                [CreateOrUpdateFeedback(Upvote, data.selectedArticleId, replyId, None), GetReply(replyId)]))
    else if p.event.input == "n" then
      Ok(Turn(data, p.(state := AskingNotUsefulFeedback,
                       replies := [Buttons(WhyNotUsefulText, [CreatePostbackAction(SkipLabel, "n")])]), []))
    else
      Ok(Turn(data, p.(replies := []), []))
  }
}

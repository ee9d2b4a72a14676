/** `choosingArticle`: the user picks one of the offered hits by number (0
    meaning "none of these"); the chosen article's replies are tallied by type,
    reordered, and offered as a carousel of at most ten cards. */
module ChoosingArticleHandler {
  import opened Js
  import opened Messages
  import opened Session
  import opened Utils
  import opened ReplyRanking

  const MissingIds := "foundArticleIds not set in data"
  const ReadLabel := "閱讀此回應"
  const SkipReasonLabel := "我不想填理由"

  /** The most cards a carousel shows. */
  const MaxCards: nat := 10

  const NonsenseReply :=
    "剛才您傳的訊息資訊量太少，編輯無從查證。\n"
    + "查證範圍請參考\U{1F4D6}使用手冊 http://bit.ly/cofacts-fb-users"

  const NoReplyText :=
    "【跟編輯說您的疑惑】\n"
    + "抱歉這篇訊息還沒有人回應過唷！\n"
    + "\n"
    + "若您覺得這是一則謠言，請指出您有疑惑之處，" + "說服編輯這是一份應該被闢謠的訊息。\n"
    + "\n"
  const NoReplyPrompt := "請把「為何您會覺得這是一則謠言」的理由打字傳給我們，" + "幫助闢謠編輯釐清您有疑惑之處；\n"

  /** The three messages asking why the user thinks an unanswered article is a rumor. */
  const AskReasonReplies := [
    Text(NoReplyText),
    Text(NoReplyPrompt),
    Buttons("若想跳過，請按「我不想填理由」。", [CreatePostbackAction(SkipReasonLabel, "n")])
  ]

  /** "Please enter 1 to n to choose a message." */
  function EnterNumberText(n: nat): string
  {
    "請輸入 1～" + NatToString(n) + " 的數字，來選擇訊息。"
  }

  const SummaryHead := "這個訊息有：\n"
  const RumorTail := " 則回應標成 ❌ 含有不實訊息\n"
  const NotRumorTail := " 則回應標成 ⭕ 含有真實訊息\n"
  const OpinionatedTail := " 則回應標成 \U{1F4AC} 含有個人意見\n"
  const NotArticleTail := " 則回應標成 \U{26A0}\U{FE0F}\U{FE0F} 不在查證範圍\n"

  /** The four reply-type counts, each shown even when zero. */
  function Summary(rumor: nat, notRumor: nat, opinionated: nat, notArticle: nat): string
  {
    SummaryHead + (NatToString(rumor) + (RumorTail + (NatToString(notRumor) + (NotRumorTail
    + (NatToString(opinionated) + (OpinionatedTail + (NatToString(notArticle) + NotArticleTail)))))))
  }

  /** The summary of an article's replies. */
  function ArticleSummary(article: Article): string
  {
    var ars := article.articleReplies;
    Summary(CountOfType(ars, Rumor), CountOfType(ars, NotRumor),
            CountOfType(ars, Opinionated), CountOfType(ars, NotArticle))
  }

  /** The summary names each count, so different tallies read differently. */
  lemma SummaryDeterminesCounts(a: nat, b: nat, c: nat, d: nat, a': nat, b': nat, c': nat, d': nat)
    requires Summary(a, b, c, d) == Summary(a', b', c', d')
    ensures a == a' && b == b' && c == c' && d == d'
  {
    var D, D' := NatToString(d) + NotArticleTail, NatToString(d') + NotArticleTail;
    var C, C' := NatToString(c) + (OpinionatedTail + D), NatToString(c') + (OpinionatedTail + D');
    var B, B' := NatToString(b) + (NotRumorTail + C), NatToString(b') + (NotRumorTail + C');
    DropPrefix(SummaryHead, NatToString(a) + (RumorTail + B), NatToString(a') + (RumorTail + B'));
    DigitsPrefix(NatToString(a), RumorTail + B, NatToString(a'), RumorTail + B');
    DropPrefix(RumorTail, B, B');
    DigitsPrefix(NatToString(b), NotRumorTail + C, NatToString(b'), NotRumorTail + C');
    DropPrefix(NotRumorTail, C, C');
    DigitsPrefix(NatToString(c), OpinionatedTail + D, NatToString(c'), OpinionatedTail + D');
    DropPrefix(OpinionatedTail, D, D');
    DigitsPrefix(NatToString(d), NotArticleTail, NatToString(d'), NotArticleTail);
    NatToStringInjective(a, a');
    NatToStringInjective(b, b');
    NatToStringInjective(c, c');
    NatToStringInjective(d, d');
  }

  /** The card for the reply at position `idx` of the reordered replies. */
  function ReplyCard(ar: ArticleReply, idx: nat): Card
  {
    Card(SliceTo(ar.text, 80),
         Some(CreateTypeWords(ar.replyType) + "\n" + CreateFeedbackWords(ar.positiveFeedbackCount, ar.negativeFeedbackCount)),
         [CreatePostbackAction(ReadLabel, NatToString(idx + 1))])
  }

  function Min(a: nat, b: nat): nat
  {
    if a <= b then a else b
  }

  /** `articleReplies.slice(0, 10).map(...)`: at most ten cards, numbered from 1. */
  function ReplyCards(ars: seq<ArticleReply>): (cards: seq<Card>)
    ensures |cards| == Min(|ars|, MaxCards)
    ensures forall i :: 0 <= i < |cards| ==>
      cards[i].buttons == [Postback(ReadLabel, NatToString(i + 1))]
      && |cards[i].title| <= 80 && cards[i].title <= ars[i].text
      && cards[i].subtitle == Some(CreateTypeWords(ars[i].replyType) + "\n"
                                   + CreateFeedbackWords(ars[i].positiveFeedbackCount, ars[i].negativeFeedbackCount))
  {
    var shown := ars[..Min(|ars|, MaxCards)];
    seq(|shown|, i requires 0 <= i < |shown| => ReplyCard(shown[i], i))
  }

  /** The ids of the reordered replies, `foundReplyIds`. */
  function ReplyIds(ars: seq<ArticleReply>): (ids: seq<string>)
    ensures |ids| == |ars| && forall i :: 0 <= i < |ars| ==> ids[i] == ars[i].replyId
  {
    seq(|ars|, i requires 0 <= i < |ars| => ars[i].replyId)
  }

  /** The turn once an article with id `id` has been chosen and fetched. */
  function ChosenTurn(d: Data, p: Params, id: string, article: Article): (r: Turn)
    ensures r.calls == [GetArticle(id)]
    ensures article.articleReplies != [] ==>
      |r.params.replies| > 0 && r.params.replies[0] == Text(ArticleSummary(article))
    ensures r.params.userId == p.userId && r.params.issuedAt == p.issuedAt
    ensures var ars := Reordered(article.articleReplies);
      |ars| > 0 ==> r.data == d.(foundReplyIds := Some(ReplyIds(ars))) && r.params.state == ChoosingReply
    ensures |article.articleReplies| == 1 ==>
      r.params == p.(state := ChoosingReply, event := p.event.(input := "1"),
                     replies := [Text(ArticleSummary(article))], isSkipUser := true)
    ensures var ars := Reordered(article.articleReplies);
      |ars| > 1 ==>
        r.params == p.(state := ChoosingReply, replies := r.params.replies)
        && |r.params.replies| == (if |ars| > MaxCards then 3 else 2)
        && r.params.replies[1] == Carousel(ReplyCards(ars), [])
        && (|ars| > MaxCards ==> r.params.replies[2] == Text("更多回應請到：" + GetArticleURL(id)))
    ensures article.articleReplies == [] ==>
      r.data == d && r.params == p.(state := AskingReplyRequestReason, replies := AskReasonReplies)
  {
    var summary := ArticleSummary(article);
    var ars := Reordered(article.articleReplies);
    ReorderedIsPermutation(article.articleReplies);
    if |ars| != 0 then
      var d := d.(foundReplyIds := Some(ReplyIds(ars)));
      if |ars| == 1 then
        Turn(d, p.(state := ChoosingReply, event := p.event.(input := "1"), replies := [Text(summary)],
                   isSkipUser := true), [GetArticle(id)])
      else
        var replies := [Text(summary), Carousel(ReplyCards(ars), [])]
          + (if |ars| > MaxCards then [Text("更多回應請到：" + GetArticleURL(id))] else []);
        Turn(d, p.(state := ChoosingReply, replies := replies), [GetArticle(id)])
    else
      Turn(d, p.(state := AskingReplyRequestReason, replies := AskReasonReplies), [GetArticle(id)])
  }

  /** The turn `choosingArticle` takes, given the article the backend returns for
      the chosen id. */
  function Transition(data: Data, p: Params, article: Article): (r: Result<Turn>)
    ensures r.Err? <==> data.foundArticleIds.None?
    ensures r.Err? ==> r.message == MissingIds
    ensures r.Ok? ==> var ids := data.foundArticleIds.value;
      var selected := AtOneBased(ids, ToNumber(p.event.input));
      && r.value.data.selectedArticleId == selected
      && r.value.params.userId == p.userId && r.value.params.issuedAt == p.issuedAt
      // 0 (or nothing) means none of the hits matched: offer to submit the text.
      && (ToNumber(p.event.input) == Some(0) ==>
            r.value.data == data.(selectedArticleId := None)
            && r.value.params == p.(state := AskingArticleSubmissionReason, replies := CreateAskArticleSubmissionReply())
            && r.value.calls == [])
      // A number outside 1..n: ask again, no query.
      && (ToNumber(p.event.input) != Some(0) && !Truthy(selected) ==>
            r.value.data == data.(selectedArticleId := selected)
            && r.value.params == p.(state := ChoosingArticle, replies := [Text(EnterNumberText(|ids|))])
            && r.value.calls == [])
      // A valid choice: fetch the article and remember its text.
      && (ToNumber(p.event.input) != Some(0) && Truthy(selected) ==>
            r.value.calls == [GetArticle(selected.value)]
            && r.value.data.selectedArticleText == Some(article.text)
            && r.value == ChosenTurn(data.(selectedArticleId := selected, selectedArticleText := Some(article.text)),
                                     p, selected.value, article)
            && (article.articleReplies != [] ==> |r.value.params.replies| > 0 && r.value.params.replies[0] == Text(ArticleSummary(article))))
  {
    if data.foundArticleIds.None? then Err(MissingIds)
    else
      var ids := data.foundArticleIds.value;
      var selected := AtOneBased(ids, ToNumber(p.event.input));
      var d := data.(selectedArticleId := selected);
      var doesNotContainMyArticle := ToNumber(p.event.input) == Some(0);
      if doesNotContainMyArticle && IsNonsenseText() then
        Ok(Turn(d, p.(state := Init, replies := [Text(NonsenseReply)]), []))
      else if doesNotContainMyArticle then
        Ok(Turn(d, p.(state := AskingArticleSubmissionReason, replies := CreateAskArticleSubmissionReply()), []))
      else if !Truthy(selected) then
        Ok(Turn(d, p.(state := ChoosingArticle, replies := [Text(EnterNumberText(|ids|))]), []))
      else
        Ok(ChosenTurn(d.(selectedArticleText := Some(article.text)), p, selected.value, article))
  }

  /** The nonsense branch is dead: since no text counts as nonsense, the
      answer 0 always offers the submission and never the nonsense reply. */
  lemma NonsenseBranchDead(data: Data, p: Params, article: Article)
    requires data.foundArticleIds.Some? && ToNumber(p.event.input) == Some(0)
    ensures var r := Transition(data, p, article);
      r.Ok? && r.value.params.replies != [Text(NonsenseReply)]
      && r.value.params.state == AskingArticleSubmissionReason
  {
  }

  /** `choosingArticle` on the shared session object: it writes
      `selectedArticleId`, then for a valid choice `selectedArticleText` and,
      when the article has replies, `foundReplyIds`. */
  method Handle(data: SessionData, p: Params, article: Article) returns (r: Result<Turn>)
    modifies data
    ensures r == Transition(old(data.View()), p, article)
    ensures r.Ok? ==> data.View() == r.value.data
    ensures r.Err? ==> unchanged(data)
  {
    if data.foundArticleIds.None? {
      return Err(MissingIds);
    }
    ghost var before := data.View();
    var ids := data.foundArticleIds.value;
    var state, replies := p.state, p.replies;
    data.selectedArticleId := AtOneBased(ids, ToNumber(p.event.input));
    var selectedArticleId := data.selectedArticleId;
    var doesNotContainMyArticle := ToNumber(p.event.input) == Some(0);

    if doesNotContainMyArticle && IsNonsenseText() {
      replies := [Text(NonsenseReply)];
      state := Init;
    } else if doesNotContainMyArticle {
      replies := CreateAskArticleSubmissionReply();
      state := AskingArticleSubmissionReason;
    } else if !Truthy(selectedArticleId) {
      replies := [Text(EnterNumberText(|ids|))];
      state := ChoosingArticle;
    } else {
      data.selectedArticleText := Some(article.text);
      assert data.View() == before.(selectedArticleId := selectedArticleId, selectedArticleText := Some(article.text));
      var turn := Chosen(data, p, selectedArticleId.value, article);
      return Ok(turn);
    }
    r := Ok(Turn(data.View(), p.(state := state, replies := replies), []));
    assert data.View() == before.(selectedArticleId := selectedArticleId);
  }

  /** The valid-choice part of `choosingArticle`: tally, reorder, and write
      `foundReplyIds` when there are replies. */
  method Chosen(data: SessionData, p: Params, id: string, article: Article) returns (r: Turn)
    modifies data
    ensures r == ChosenTurn(old(data.View()), p, id, article)
    ensures data.View() == r.data
  {
    var state, event, replies := p.state, p.event, p.replies;
    var count := Tally(article.articleReplies);
    var articleReplies := ReorderArticleReplies(article.articleReplies);
    ReorderedIsPermutation(article.articleReplies);
    var summary := Summary(CountGet(count, Rumor), CountGet(count, NotRumor),
                           CountGet(count, Opinionated), CountGet(count, NotArticle));
    replies := [Text(summary)];
    if |articleReplies| != 0 {
      data.foundReplyIds := Some(ReplyIds(articleReplies));
      state := ChoosingReply;
      if |articleReplies| == 1 {
        event := event.(input := "1");
        return Turn(data.View(), p.(state := ChoosingReply, event := event, replies := replies, isSkipUser := true),
                    [GetArticle(id)]);
      }
      replies := replies + [Carousel(ReplyCards(articleReplies), [])];
      if |articleReplies| > MaxCards {
        replies := replies + [Text("更多回應請到：" + GetArticleURL(id))];
      }
    } else {
      replies := AskReasonReplies;
      state := AskingReplyRequestReason;
    }
    r := Turn(data.View(), p.(state := state, replies := replies), [GetArticle(id)]);
  }
}

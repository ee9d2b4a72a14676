/** How the handlers fit together: the finite table of states a turn can lead
    to, and how the numbered postback payloads one turn offers select, on the
    next turn, exactly the item they were shown for. */
module Conversation {
  import opened Js
  import opened Messages
  import opened Session
  import opened ReplyRanking
  import InitStateHandler
  import ChoosingArticleHandler
  import ChoosingReplyHandler
  import AskingReplyFeedbackHandler
  import AskingNotUsefulFeedbackHandler
  import AskingNotUsefulFeedbackSubmissionHandler
  import AskingReplyRequestReasonHandler
  import AskingReplyRequestSubmissionHandler
  import AskingArticleSubmissionReasonHandler
  import AskingArticleSubmissionHandler
  import DefaultStateHandler

  /** The states the handler for `s` can move to. A handler that leaves the
      state as passed in (a page comment at the start, an unrecognised answer)
      lists `s` itself. */
  function Successors(s: State): set<State>
  {
    match s
    case Init => {Init, ChoosingArticle, AskingArticleSubmissionReason}
    case ChoosingArticle => {Init, ChoosingArticle, ChoosingReply, AskingArticleSubmissionReason, AskingReplyRequestReason}
    case ChoosingReply => {ChoosingReply, AskingReplyFeedback}
    case AskingReplyFeedback => {Init, AskingReplyFeedback, AskingNotUsefulFeedback}
    case AskingNotUsefulFeedback => {Init, AskingNotUsefulFeedbackSubmission}
    case AskingNotUsefulFeedbackSubmission => {Init, AskingNotUsefulFeedback}
    case AskingArticleSubmissionReason => {Init, AskingArticleSubmission}
    case AskingArticleSubmission => {Init, AskingArticleSubmission, AskingArticleSubmissionReason}
    case AskingReplyRequestReason => {Init, AskingReplyRequestSubmission}
    case AskingReplyRequestSubmission => {Init, AskingReplyRequestSubmission, AskingReplyRequestReason}
  }

  /** A turn taken in state `s` that ends in one of `s`'s successors. */
  predicate Follows(s: State, r: Result<Turn>)
  {
    r.Ok? ==> r.value.params.state in Successors(s)
  }

  lemma InitStateFollows(data: Data, p: Params, hits: seq<Candidate>, topArticle: Article)
    requires p.state == Init
    ensures Follows(Init, Ok(InitStateHandler.Transition(data, p, hits, topArticle)))
  {
    if hits != [] {
      InitStateHandler.SortIsPermutation(hits);
    }
  }

  lemma ChoosingArticleFollows(data: Data, p: Params, article: Article)
    requires p.state == ChoosingArticle
    ensures Follows(ChoosingArticle, ChoosingArticleHandler.Transition(data, p, article))
  {
    ReorderedIsPermutation(article.articleReplies);
  }

  lemma ChoosingReplyFollows(data: Data, p: Params, reply: ReplyDetail)
    requires p.state == ChoosingReply
    ensures Follows(ChoosingReply, ChoosingReplyHandler.Transition(data, p, reply))
  {
  }

  lemma AskingReplyFeedbackFollows(data: Data, p: Params, feedbackCount: nat, reply: ReplyDetail)
    requires p.state == AskingReplyFeedback
    ensures Follows(AskingReplyFeedback, AskingReplyFeedbackHandler.Handle(data, p, feedbackCount, reply))
  {
  }

  lemma AskingNotUsefulFeedbackFollows(data: Data, p: Params, feedbackCount: nat)
    requires p.state == AskingNotUsefulFeedback
    ensures Follows(AskingNotUsefulFeedback, AskingNotUsefulFeedbackHandler.Transition(data, p, feedbackCount))
  {
  }

  lemma AskingNotUsefulFeedbackSubmissionFollows(data: Data, p: Params, feedbackCount: nat)
    requires p.state == AskingNotUsefulFeedbackSubmission
    ensures Follows(AskingNotUsefulFeedbackSubmission,
                    AskingNotUsefulFeedbackSubmissionHandler.Handle(data, p, feedbackCount))
  {
  }

  lemma AskingReplyRequestReasonFollows(data: Data, p: Params, replyRequestCount: nat)
    requires p.state == AskingReplyRequestReason
    ensures Follows(AskingReplyRequestReason,
                    Ok(AskingReplyRequestReasonHandler.Transition(data, p, replyRequestCount)))
  {
  }

  lemma AskingReplyRequestSubmissionFollows(data: Data, p: Params, replyRequestCount: nat)
    requires p.state == AskingReplyRequestSubmission
    ensures Follows(AskingReplyRequestSubmission,
                    AskingReplyRequestSubmissionHandler.Handle(data, p, replyRequestCount))
  {
  }

  lemma AskingArticleSubmissionReasonFollows(data: Data, p: Params)
    requires p.state == AskingArticleSubmissionReason
    ensures Follows(AskingArticleSubmissionReason, Ok(AskingArticleSubmissionReasonHandler.Transition(data, p)))
  {
  }

  lemma AskingArticleSubmissionFollows(data: Data, p: Params, newArticleId: string)
    requires p.state == AskingArticleSubmission
    ensures Follows(AskingArticleSubmission, AskingArticleSubmissionHandler.Handle(data, p, newArticleId))
  {
  }

  // ---------------------------------------------------------------------------
  // Numbered payloads.

  /** On `choosingArticle`, the input `k + 1` selects the k-th stored id. */
  lemma NumberSelectsArticle(d: Data, ids: seq<string>, k: nat, next: Params, article: Article)
    requires d.foundArticleIds == Some(ids) && k < |ids|
    requires next.event.input == NatToString(k + 1)
    ensures var r := ChoosingArticleHandler.Transition(d, next, article);
      r.Ok? && r.value.data.selectedArticleId == Some(ids[k])
  {
    NumberOfNatToString(k + 1);
  }

  /** On `choosingReply`, the input `k + 1` selects the k-th stored reply id. */
  lemma NumberSelectsReply(d: Data, ids: seq<string>, k: nat, next: Params, reply: ReplyDetail)
    requires d.foundReplyIds == Some(ids) && k < |ids| && ids[k] != ""
    requires next.event.input == NatToString(k + 1)
    ensures var r := ChoosingReplyHandler.Transition(d, next, reply);
      r.Ok? && r.value.data.selectedReplyId == Some(ids[k]) && r.value.params.state == AskingReplyFeedback
  {
    NumberOfNatToString(k + 1);
    assert AtOneBased(ids, ToNumber(next.event.input)) == Some(ids[k]);
  }

  lemma CandidateCardPayload(sorted: seq<Candidate>, i: nat)
    requires i < |sorted|
    ensures InitStateHandler.CarouselCards(sorted)[i].buttons[0].payload == NatToString(i + 1)
  {
  }

  lemma InitStoresRankedIds(data: Data, p: Params, hits: seq<Candidate>, topArticle: Article)
    requires hits != []
    ensures InitStateHandler.Transition(data, p, hits, topArticle).data.foundArticleIds
            == Some(InitStateHandler.Ids(InitStateHandler.SortBySimilarity(hits)))
  {
  }

  /** Pressing the button of search hit `i` on the next turn selects that hit. */
  lemma {:induction false} CandidatePayloadSelects(data: Data, p: Params, hits: seq<Candidate>, topArticle: Article,
                                                   i: nat, next: Params, article: Article)
    requires i < |hits|
    requires next.event.input == InitStateHandler.CarouselCards(InitStateHandler.SortBySimilarity(hits))[i].buttons[0].payload
    ensures var t := InitStateHandler.Transition(data, p, hits, topArticle);
      var r := ChoosingArticleHandler.Transition(t.data, next, article);
      r.Ok? && r.value.data.selectedArticleId == Some(InitStateHandler.SortBySimilarity(hits)[i].id)
  {
    var sorted := InitStateHandler.SortBySimilarity(hits);
    CandidateCardPayload(sorted, i);
    InitStoresRankedIds(data, p, hits, topArticle);
    var t := InitStateHandler.Transition(data, p, hits, topArticle);
    NumberSelectsArticle(t.data, InitStateHandler.Ids(sorted), i, next, article);
  }

  /** The "none of these" card's payload leads to the submission offer. */
  lemma NonePayloadOffersSubmission(data: Data, next: Params, article: Article)
    requires data.foundArticleIds.Some?
    requires next.event.input == InitStateHandler.NoneCard.buttons[0].payload
    ensures var r := ChoosingArticleHandler.Transition(data, next, article);
      r.Ok? && r.value.params.state == AskingArticleSubmissionReason && r.value.calls == []
  {
    assert next.event.input == NatToString(0);
    NumberOfNatToString(0);
  }

  lemma InitAutoAdvance(data: Data, p: Params, c: Candidate, topArticle: Article)
    requires c.similarity >= InitStateHandler.SimilarityThreshold && p.userId != CommentUserId
    ensures var t := InitStateHandler.Transition(data, p, [c], topArticle);
      && t.params.isSkipUser && t.params.state == ChoosingArticle && t.params.event.input == "1"
      && t.data.foundArticleIds == Some([c.id])
  {
    assert InitStateHandler.SortBySimilarity([c]) == [c] by {
      assert [c][1..] == [];
    }
    assert InitStateHandler.Ids([c]) == [c.id];
  }

  /** A single near-duplicate hit is chosen without asking: the rewritten
      input selects it on the re-entered turn. */
  lemma IdenticalHitAutoSelects(data: Data, p: Params, c: Candidate, topArticle: Article, article: Article)
    requires c.similarity >= InitStateHandler.SimilarityThreshold && p.userId != CommentUserId
    ensures var t := InitStateHandler.Transition(data, p, [c], topArticle);
      var r := ChoosingArticleHandler.Transition(t.data, t.params, article);
      t.params.isSkipUser && t.params.state == ChoosingArticle
      && r.Ok? && r.value.data.selectedArticleId == Some(c.id)
  {
    InitAutoAdvance(data, p, c, topArticle);
    var t := InitStateHandler.Transition(data, p, [c], topArticle);
    assert NatToString(1) == "1";
    NumberSelectsArticle(t.data, [c.id], 0, t.params, article);
  }

  lemma ReplyCardPayload(ars: seq<ArticleReply>, i: nat)
    requires i < ChoosingArticleHandler.Min(|ars|, ChoosingArticleHandler.MaxCards)
    ensures ChoosingArticleHandler.ReplyCards(ars)[i].buttons[0].payload == NatToString(i + 1)
  {
  }

  lemma ChosenStoresReplyIds(d: Data, p: Params, id: string, article: Article)
    requires |Reordered(article.articleReplies)| > 0
    ensures ChoosingArticleHandler.ChosenTurn(d, p, id, article).data.foundReplyIds
            == Some(ChoosingArticleHandler.ReplyIds(Reordered(article.articleReplies)))
  {
  }

  /** Pressing the button of reply card `i` on the turn after an article was
      chosen selects that reply. */
  lemma ReplyPayloadSelects(d: Data, p: Params, id: string, article: Article, i: nat,
                            next: Params, reply: ReplyDetail)
    requires var ars := Reordered(article.articleReplies);
      i < ChoosingArticleHandler.Min(|ars|, ChoosingArticleHandler.MaxCards) && ars[i].replyId != ""
    requires next.event.input == ChoosingArticleHandler.ReplyCards(Reordered(article.articleReplies))[i].buttons[0].payload
    ensures var t := ChoosingArticleHandler.ChosenTurn(d, p, id, article);
      var r := ChoosingReplyHandler.Transition(t.data, next, reply);
      r.Ok? && r.value.data.selectedReplyId == Some(Reordered(article.articleReplies)[i].replyId)
      && r.value.params.state == AskingReplyFeedback
  {
    var ars := Reordered(article.articleReplies);
    ReplyCardPayload(ars, i);
    ChosenStoresReplyIds(d, p, id, article);
    var t := ChoosingArticleHandler.ChosenTurn(d, p, id, article);
    NumberSelectsReply(t.data, ChoosingArticleHandler.ReplyIds(ars), i, next, reply);
  }

  lemma ChosenAutoAdvance(d: Data, p: Params, id: string, article: Article)
    requires |article.articleReplies| == 1
    ensures var t := ChoosingArticleHandler.ChosenTurn(d, p, id, article);
      && t.params.isSkipUser && t.params.state == ChoosingReply && t.params.event.input == "1"
      && t.data.foundReplyIds == Some(ChoosingArticleHandler.ReplyIds(Reordered(article.articleReplies)))
  {
    ReorderedIsPermutation(article.articleReplies);
  }

  /** An article with a single reply shows it without asking: the rewritten
      input selects it on the re-entered turn. */
  lemma SingleReplyAutoSelects(d: Data, p: Params, id: string, article: Article, reply: ReplyDetail)
    requires |article.articleReplies| == 1 && article.articleReplies[0].replyId != ""
    ensures var t := ChoosingArticleHandler.ChosenTurn(d, p, id, article);
      var r := ChoosingReplyHandler.Transition(t.data, t.params, reply);
      t.params.isSkipUser && t.params.state == ChoosingReply
      && r.Ok? && r.value.data.selectedReplyId == Some(article.articleReplies[0].replyId)
  {
    var ars := Reordered(article.articleReplies);
    assert ars == article.articleReplies by {
      assert article.articleReplies[..0] == [];
    }
    ChosenAutoAdvance(d, p, id, article);
    var t := ChoosingArticleHandler.ChosenTurn(d, p, id, article);
    assert NatToString(1) == "1";
    NumberSelectsReply(t.data, ChoosingArticleHandler.ReplyIds(ars), 0, t.params, reply);
  }
}

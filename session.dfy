/** The session a handler works on: the conversation states, the `data` object
    that carries values from one turn to the next, the event, the parameters and
    result every handler shares, and the backend's answers and requests. */
module Session {
  import opened Js
  import opened Messages

  /** The ten states of the conversation. */
  datatype State =
    | Init
    | ChoosingArticle
    | ChoosingReply
    | AskingReplyFeedback
    | AskingNotUsefulFeedback
    | AskingNotUsefulFeedbackSubmission
    | AskingArticleSubmissionReason
    | AskingArticleSubmission
    | AskingReplyRequestReason
    | AskingReplyRequestSubmission
  {
    /** The name stored in the session. */
    function Name(): string
    {
      match this
      case Init => "__INIT__"
      case ChoosingArticle => "CHOOSING_ARTICLE"
      case ChoosingReply => "CHOOSING_REPLY"
      case AskingReplyFeedback => "ASKING_REPLY_FEEDBACK"
      case AskingNotUsefulFeedback => "ASKING_NOT_USEFUL_FEEDBACK"
      case AskingNotUsefulFeedbackSubmission => "ASKING_NOT_USEFUL_FEEDBACK_SUBMISSION"
      case AskingArticleSubmissionReason => "ASKING_ARTICLE_SUBMISSION_REASON"
      case AskingArticleSubmission => "ASKING_ARTICLE_SUBMISSION"
      case AskingReplyRequestReason => "ASKING_REPLY_REQUEST_REASON"
      case AskingReplyRequestSubmission => "ASKING_REPLY_REQUEST_SUBMISSION"
    }
  }

  /** The state a stored name denotes, if any. */
  function ParseState(name: string): (r: Option<State>)
    ensures r.Some? ==> r.value.Name() == name
  {
    if name == "__INIT__" then Some(Init)
    else if name == "CHOOSING_ARTICLE" then Some(ChoosingArticle)
    else if name == "CHOOSING_REPLY" then Some(ChoosingReply)
    else if name == "ASKING_REPLY_FEEDBACK" then Some(AskingReplyFeedback)
    else if name == "ASKING_NOT_USEFUL_FEEDBACK" then Some(AskingNotUsefulFeedback)
    else if name == "ASKING_NOT_USEFUL_FEEDBACK_SUBMISSION" then Some(AskingNotUsefulFeedbackSubmission)
    else if name == "ASKING_ARTICLE_SUBMISSION_REASON" then Some(AskingArticleSubmissionReason)
    else if name == "ASKING_ARTICLE_SUBMISSION" then Some(AskingArticleSubmission)
    else if name == "ASKING_REPLY_REQUEST_REASON" then Some(AskingReplyRequestReason)
    else if name == "ASKING_REPLY_REQUEST_SUBMISSION" then Some(AskingReplyRequestSubmission)
    else None
  }

  /** A state survives being stored by name and read back. */
  lemma ParseName(s: State)
    ensures ParseState(s.Name()) == Some(s)
  {
  }

  /** The reply types the backend uses. */
  const Rumor := "RUMOR"
  const NotRumor := "NOT_RUMOR"
  const Opinionated := "OPINIONATED"
  const NotArticle := "NOT_ARTICLE"

  /** Comments on the page arrive with this user id. */
  const CommentUserId := "0"

  /** The session's `data`, each field possibly `undefined`. */
  datatype Data = Data(
    searchedText: Option<string>,
    foundArticleIds: Option<seq<string>>,
    selectedArticleId: Option<string>,
    selectedArticleText: Option<string>,
    foundReplyIds: Option<seq<string>>,
    selectedReplyId: Option<string>,
    reasonText: Option<string>,
    comment: Option<string>)

  /** `{}`. */
  const EmptyData := Data(None, None, None, None, None, None, None, None)

  /** The `data` object handlers write in place. */
  class SessionData {
    var searchedText: Option<string>
    var foundArticleIds: Option<seq<string>>
    var selectedArticleId: Option<string>
    var selectedArticleText: Option<string>
    var foundReplyIds: Option<seq<string>>
    var selectedReplyId: Option<string>
    var reasonText: Option<string>
    var comment: Option<string>

    /** The object's fields as a value. */
    function View(): Data
      reads this
    {
      Data(searchedText, foundArticleIds, selectedArticleId, selectedArticleText,
           foundReplyIds, selectedReplyId, reasonText, comment)
    }

    constructor (d: Data)
      ensures View() == d
    {
      searchedText, foundArticleIds := d.searchedText, d.foundArticleIds;
      selectedArticleId, selectedArticleText := d.selectedArticleId, d.selectedArticleText;
      foundReplyIds, selectedReplyId := d.foundReplyIds, d.selectedReplyId;
      reasonText, comment := d.reasonText, d.comment;
    }
  }

  /** The normalised event: its `input` and its `type` (`text` or `postback`). */
  datatype Event = Event(input: string, eventType: string)

  /** Everything in a handler's `params` besides `data`; the handler returns the
      same shape. */
  datatype Params = Params(
    state: State,
    event: Event,
    issuedAt: int,
    userId: string,
    replies: seq<Reply>,
    isSkipUser: bool)

  datatype Vote = Upvote | Downvote

  /** The queries and mutations a handler sends to the backend, in order. */
  datatype Call =
    | ListArticles(text: string)
    | GetArticle(articleId: string)
    | GetReply(replyId: string)
    | CreateOrUpdateFeedback(vote: Vote, feedbackArticleId: Option<string>, replyId: string, comment: Option<string>)
    | CreateReplyRequest(requestArticleId: Option<string>, requestReason: Option<string>)
    | CreateArticle(text: string, articleReason: Option<string>)

  /** What a handler returns: `data`, the other parameters, and the calls it made. */
  datatype Turn = Turn(data: Data, params: Params, calls: seq<Call>)

  /** An edge of `ListArticles` with the similarity computed for it, as a
      fixed-point number in units of 1/10000 (10000 is identical). */
  datatype Candidate = Candidate(id: string, text: string, similarity: nat)

  /** An element of `GetArticle.articleReplies`. */
  datatype ArticleReply = ArticleReply(
    replyId: string,
    replyType: string,
    text: string,
    positiveFeedbackCount: nat,
    negativeFeedbackCount: nat)

  /** The answer to `GetArticle`. */
  datatype Article = Article(text: string, articleReplies: seq<ArticleReply>)

  /** The answer to `GetReply`. */
  datatype ReplyDetail = ReplyDetail(replyType: string, text: string, reference: Option<string>)
}

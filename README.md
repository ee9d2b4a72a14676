# Cofacts Messenger bot: a Dafny model of the conversation engine

This project models one part of the Cofacts fact-check chatbot for Facebook Messenger: the conversation engine.

A user sends the bot a message they doubt. The bot then does three things:
- it searches the Cofacts database for similar articles;
- it lets the user pick the matching article and one of its replies;
- it collects feedback, reply requests or a new article submission.

Each step of this conversation is one of ten states. Each state has a handler in `src/handlers/`. A handler turns the session `data`, the state and the user's input into four things: new `data`, a new state, the reply messages, and an `isSkipUser` flag that asks to auto-advance. The model also covers:
- the turn wrapper of `src/messageHandler.js`;
- the two loops of `src/fbClient.js`.

The model is organised as follows.

- `Js`: the JavaScript behaviour the handlers rely on:
  - template interpolation of `undefined`, `slice` and `trim`;
  - rendering of numbers and the subset of `Number(string)` the inputs use;
  - 1-based array lookup.
- `Messages`: reply messages, with every postback button's payload kept. The payload is what the next turn receives as its input.
- `Session`:
  - the ten states and their stored names;
  - the `data` record, plus a `SessionData` class for the object that handlers write in place;
  - the handler parameters;
  - the backend answers (search hits, articles, replies);
  - the backend requests a turn issues (`Call`).
- `Utils`: the text helpers of `src/handlers/utils.js`.
- `ReplyRanking`: `reorderArticleReplies` and the reply-type tally.
- One module per handler. Pure handlers are functions `Handle`. Handlers that write `data` in place have two members:
  - a function `Transition`, which states the turn;
  - a `method Handle` on `SessionData`, proved equal to `Transition` on the old state.
- `FbClient`: `wrapUpMessages` and the field loop of `pagePublicContentAccess`.
- `MessageHandler`:
  - event classification;
  - the blacklist, `RESET`, the contact shortcut and the single-character shortcut;
  - `issuedAt` renewal and the error fallback;
  - the order of the effects.
- `Conversation`:
  - the finite table of state successors, and a lemma per handler that each turn stays inside it;
  - proofs that the numbered payloads a turn offers select, on the next turn, exactly the item they label.

Backend answers are parameters of each handler. These are:
- the search hits with their similarity;
- the article and its replies;
- the reply;
- the feedback count;
- the reply-request count;
- the new article id.

The queries and mutations a handler issues are returned as a list of `Call`s, in order.

## Model

| member | source | states |
|---|---|---|
| Js.SliceTo | src/handlers/utils.js:136 | `slice(0, end)` is a prefix of the text; its length is `end` clamped to the text, and a negative `end` counts from the back |
| Js.TrimStart | src/handlers/utils.js:28 | removing leading white space leaves a suffix of the text |
| Js.TrimEnd | src/handlers/utils.js:28 | removing trailing white space leaves a prefix of the text |
| Js.TrimAround | src/handlers/utils.js:28 | `trim` leaves a text that starts and ends with a non-space unchanged |
| Js.TrimLine | src/handlers/utils.js:28 | `trim` removes exactly the newline after such a text |
| Js.NatToString | src/handlers/initState.js:213 | a number is rendered as a non-empty string of decimal digits, and as one digit exactly when it is below 10 |
| Js.DecimalValueOfNatToString | src/handlers/initState.js:213 | the rendered digits read back as the same number |
| Js.NumberOfNatToString | src/handlers/choosingArticle.js:47-49 | `Number` of a rendered number gives that number back, so a numbered payload is understood as its number |
| Js.NatToStringInjective | src/fbClient.js:20-21 | different numbers render as different strings |
| Js.AtOneBased | src/handlers/choosingReply.js:26 | `ids[input - 1]` is defined exactly for a number from 1 to the length, and it is then the element at that position |
| Session.SessionData.constructor | src/handlers/initState.js:16 | the session object starts out holding exactly the given data |
| Utils.CreatePostbackAction | src/handlers/utils.js:6-12 | a postback button with the given title whose payload is the given input |
| Utils.CreateFeedbackWords | src/handlers/utils.js:20-29 | the fixed "nobody rated yet" text exactly when there are no votes; otherwise the vote lines in brackets |
| Utils.FeedbackWordsTrim | src/handlers/utils.js:23-28 | the bracketed text has a positive line iff there are upvotes and a negative line iff there are downvotes, positive first, with no trailing newline |
| Utils.CreateTypeWords | src/handlers/utils.js:36-52 | any type other than the four known ones gets the "undefined" wording, and only such types do |
| Utils.TypeWordsDistinct | src/handlers/utils.js:36-52 | the four known types get four different wordings |
| Utils.ReferencePrompt | src/handlers/utils.js:63 | the prompt is the opinion wording exactly for OPINIONATED replies |
| Utils.CreateReferenceWords | src/handlers/utils.js:62-68 | a non-empty reference appears whole after the prompt and `：`; a missing or empty one gives the warning with the prompt embedded between its two halves; the result starts with the warning exactly when there is no reference |
| Utils.CreateAskArticleSubmissionReply | src/handlers/utils.js:75-118 | three messages (text, text, buttons); the buttons hold a single postback with payload `n` |
| Utils.Ellipsis | src/handlers/utils.js:124-137 | a text shorter than the limit is kept; a longer one becomes its first limit−2 characters and `⋯⋯`; with limit ≥ 2 the result never exceeds the limit |
| Utils.GetArticleURL | src/handlers/utils.js:139-147 | the URL is the site's article prefix followed by exactly the id |
| Utils.ArticleURLInjective | src/handlers/utils.js:145-147 | different ids give different article URLs |
| ReplyRanking.Substantive | src/handlers/choosingArticle.js:19-31 | the non-NOT_ARTICLE replies, none of them NOT_ARTICLE |
| ReplyRanking.OffTopic | src/handlers/choosingArticle.js:19-31 | the NOT_ARTICLE replies, all of them NOT_ARTICLE |
| ReplyRanking.ReorderArticleReplies | src/handlers/choosingArticle.js:19-31 | the two-list pushing loop returns the substantive replies followed by the off-topic ones |
| ReplyRanking.ReorderedIsPermutation | src/handlers/choosingArticle.js:19-31 | reordering neither loses nor invents a reply: the same multiset and length |
| ReplyRanking.OffTopicLast | src/handlers/choosingArticle.js:19-31 | no substantive reply comes after an off-topic one |
| ReplyRanking.GroupsKeepOrder | src/handlers/choosingArticle.js:19-31 | each group keeps the backend's relative order |
| ReplyRanking.CountOfType | src/handlers/choosingArticle.js:116-128 | the number of replies of a type, at most the number of replies |
| ReplyRanking.Tally | src/handlers/choosingArticle.js:116-128 | the `forEach` dictionary holds exactly the types that occur, each mapped to its number of replies |
| ReplyRanking.NotArticleCountIsOffTopicSize | src/handlers/choosingArticle.js:116-130 | the NOT_ARTICLE count is the size of the group shown last |
| ReplyRanking.CountSplits | src/handlers/choosingArticle.js:19-31 | each reply is counted in exactly one of the two groups |
| ReplyRanking.ReorderedKeepsCounts | src/handlers/choosingArticle.js:116-130 | the per-type counts of the replies as offered equal those of the backend's list |
| InitStateHandler.ArticleSummary | src/handlers/initState.js:50-52 | the first 10 characters of the input, plus `⋯⋯` exactly when the input is longer |
| InitStateHandler.InsertBySimilarity | src/handlers/initState.js:67-76 | inserting a hit adds exactly that hit, in front or behind the old head |
| InitStateHandler.SortBySimilarity | src/handlers/initState.js:67-76 | ranking keeps the number of hits |
| InitStateHandler.InsertKeepsSorted | src/handlers/initState.js:67-76 | inserting into a ranking keeps similarity non-increasing |
| InitStateHandler.SortIsSorted | src/handlers/initState.js:67-76 | the ranked hits have non-increasing similarity |
| InitStateHandler.SortIsPermutation | src/handlers/initState.js:67-76 | the ranked hits are a permutation of the search results |
| InitStateHandler.InsertWithSimilarity | src/handlers/initState.js:67-76 | inserting a hit keeps the order among the hits of any one similarity |
| InitStateHandler.SortIsStable | src/handlers/initState.js:67-76 | hits with equal similarity keep the backend's order, as the stable `Array.prototype.sort` does |
| InitStateHandler.Ids | src/handlers/initState.js:79-81 | `foundArticleIds` lists the ids of the hits, position by position |
| InitStateHandler.IdenticalIffSomeHitClose | src/handlers/initState.js:83-84 | the top-ranked hit reaches the threshold exactly when some hit does |
| InitStateHandler.TwoDigits | src/handlers/initState.js:212 | a number below 100 is shown as exactly two decimal digits that denote it, leading zero kept |
| InitStateHandler.RoundPercent | src/handlers/initState.js:167-169 | the percentage is the similarity rounded half up to a whole percent |
| InitStateHandler.PercentTextInjective | src/handlers/initState.js:212 | the similarity on a card is shown exactly: different similarities give different percentage texts |
| InitStateHandler.CarouselCards | src/handlers/initState.js:205-255 | one card per ranked hit, with payload idx+1, a title that is a prefix of the hit's text of at most 80 characters, and the subtitle "[Similarity: p%]" with the hit's two-decimal percentage; then a payload-0 "none" card exactly when there is no near-duplicate |
| InitStateHandler.CountPhrase | src/handlers/initState.js:129-161 | a comment's count phrase is empty exactly for a zero count, and otherwise begins with its lead (", but " for the off-topic phrase, nothing for the others) followed by the count |
| InitStateHandler.Links | src/handlers/initState.js:89-91 | one page address per ranked hit: the i-th is the article page of the i-th hit |
| Js.JoinContains | src/handlers/initState.js:169-171 | every part of `join` appears whole in the joined text |
| InitStateHandler.CommentSummaryNamesCounts | src/handlers/initState.js:129-161 | the summary starts with ", and\n", is only that exactly when every count is zero, and names each non-zero count (the off-topic one after ", but ") |
| InitStateHandler.CommentText | src/handlers/initState.js:163-174 | the comment reply begins with the rounded percentage of the top hit and the summary, and ends with the hits' pages joined by newlines |
| InitStateHandler.CommentLinksEveryHit | src/handlers/initState.js:89-174 | a page comment's reply contains the page of every ranked hit |
| InitStateHandler.FoundTurn | src/handlers/initState.js:86-255 | with hits: a comment gets one text reply, no state change and `isSkipUser` false, the reply beginning with the top hit's rounded percentage and the summary of the top article's reply counts and ending with the hits' pages; a single near-duplicate auto-advances to CHOOSING_ARTICLE with input 1 and the replies passed through; otherwise CHOOSING_ARTICLE with three replies ending in the carousel |
| InitStateHandler.NotFoundTurn | src/handlers/initState.js:257-309 | no hits: a comment gets one text reply and keeps its state; any other user gets the not-found text and the three submission messages, in ASKING_ARTICLE_SUBMISSION_REASON |
| InitStateHandler.Transition | src/handlers/initState.js:15-314 | `searchedText` is always the input and `foundArticleIds` the ranked ids; the search is always the first request; a page comment never changes state |
| InitStateHandler.Handle | src/handlers/initState.js:15-314 | the in-place handler writes the session to exactly the data and turn of `Transition` |
| InitStateHandler.TransitionBranches | src/handlers/initState.js:67-86 | hits lead to the found branch over the ranked hits, no hits to the not-found branch |
| InitStateHandler.NonsenseBranchDead | src/handlers/initState.js:257-277 | since `isNonsenseText` is always false, a search without hits never answers with the nonsense reply |
| InitStateHandler.Found | src/handlers/initState.js:86-255 | the branch code, including the comment's `forEach` tally, computes `FoundTurn` |
| InitStateHandler.NotFound | src/handlers/initState.js:257-309 | the branch code computes `NotFoundTurn` |
| ChoosingArticleHandler.SummaryDeterminesCounts | src/handlers/choosingArticle.js:131-149 | the summary always shows all four counts: different counts give different summaries |
| ChoosingArticleHandler.ReplyCards | src/handlers/choosingArticle.js:171-202 | at most ten cards, numbered 1 to min(n, 10), each titled with a prefix of at most 80 characters of its reply and subtitled with the reply's type wording, a newline and its feedback wording |
| ChoosingArticleHandler.ReplyIds | src/handlers/choosingArticle.js:151-154 | `foundReplyIds` lists the reordered replies' ids, position by position |
| ChoosingArticleHandler.ChosenTurn | src/handlers/choosingArticle.js:82-272 | after the article is fetched: with replies, `foundReplyIds` are the reordered ids and the state is CHOOSING_REPLY; one reply auto-advances with input 1; more than one gets the carousel, plus the more-replies link iff n > 10; no reply goes to ASKING_REPLY_REQUEST_REASON |
| ChoosingArticleHandler.Transition | src/handlers/choosingArticle.js:40-272 | missing `foundArticleIds` throws; `selectedArticleId` is always the chosen id or undefined; 0 offers submission; a number out of range asks again with no query; a valid one fetches the article |
| ChoosingArticleHandler.NonsenseBranchDead | src/handlers/choosingArticle.js:49-68 | since `isNonsenseText` is always false, the answer 0 always offers the submission and never the nonsense reply |
| ChoosingArticleHandler.Handle | src/handlers/choosingArticle.js:40-272 | the in-place handler equals `Transition` and leaves the session untouched when it throws |
| ChoosingArticleHandler.Chosen | src/handlers/choosingArticle.js:106-272 | the chosen-article code, with its `forEach` tally and reply reordering, computes `ChosenTurn` |
| ChoosingReplyHandler.ReplyMessages | src/handlers/choosingReply.js:54-103 | five messages; the reply text and the reference line are each at most 2000 characters, each kept whole when shorter and otherwise a cut prefix of it; the last asks yes/no with payloads `y` then `n` |
| ChoosingReplyHandler.Transition | src/handlers/choosingReply.js:16-115 | missing `foundReplyIds` throws; a number outside 1..n asks again with nothing written; a valid k stores the k-th id, fetches the reply and moves to ASKING_REPLY_FEEDBACK |
| ChoosingReplyHandler.Handle | src/handlers/choosingReply.js:16-115 | the in-place handler equals `Transition`; `selectedReplyId` is the only field it writes |
| AskingReplyFeedbackHandler.ThanksText | src/handlers/askingReplyFeedback.js:96-99 | with more than one vote, it thanks "you and count−1 other user(s)", plural iff count > 2; otherwise the first-feedback text |
| AskingReplyFeedbackHandler.UpvoteReplies | src/handlers/askingReplyFeedback.js:69-133 | the thanks and the share message; both links go to the article's page; the card title quotes the article text cut to at most 15 characters and ends with the reply's type wording |
| AskingReplyFeedbackHandler.Handle | src/handlers/askingReplyFeedback.js:15-163 | missing `selectedReplyId` throws; `y` upvotes once and returns to the start; `n` asks why with one skip postback; anything else gives no replies; `data` is never written |
| AskingNotUsefulFeedbackHandler.ThanksText | src/handlers/askingNotUsefulFeedback.js:53-55 | the "you and N−1 others" thanks iff the feedback count exceeds one |
| AskingNotUsefulFeedbackHandler.DownvoteReplies | src/handlers/askingNotUsefulFeedback.js:46-68 | two text messages: the thanks for the feedback count, then an invitation that carries the article's URL whole |
| AskingNotUsefulFeedbackHandler.ConfirmReplies | src/handlers/askingNotUsefulFeedback.js:72-103 | the reason echoed, then buttons with payloads `y`, `r`, `n` in that order |
| AskingNotUsefulFeedbackHandler.Transition | src/handlers/askingNotUsefulFeedback.js:8-108 | missing `selectedReplyId` throws; `n` downvotes once with comment `none`; any other text becomes `comment`, is echoed for confirmation, and sends nothing |
| AskingNotUsefulFeedbackHandler.Handle | src/handlers/askingNotUsefulFeedback.js:8-108 | the in-place handler equals `Transition`; `comment` is the only field it writes |
| AskingNotUsefulFeedbackSubmissionHandler.Handle | src/handlers/askingNotUsefulFeedbackSubmission.js:7-92 | missing `selectedReplyId` throws; any answer but `r` downvotes exactly once and returns to the start, with comment `none` for `n` and the stored comment otherwise; `r` asks for the reason again; `data` is never written |
| AskingReplyRequestReasonHandler.ConfirmReasonReplies | src/handlers/askingReplyRequestReason.js:14-53 | three messages: the reason echoed verbatim, the warning, and buttons `y`, `r`, `n` |
| AskingReplyRequestReasonHandler.Transition | src/handlers/askingReplyRequestReason.js:7-85 | never throws; any text but `n` becomes `reasonText` with no request; `n` files one reply request without a reason and returns to the start |
| AskingReplyRequestReasonHandler.Handle | src/handlers/askingReplyRequestReason.js:7-85 | the in-place handler equals `Transition`; `reasonText` is the only field it writes |
| AskingReplyRequestSubmissionHandler.Handle | src/handlers/askingReplyRequestSubmission.js:8-77 | missing `searchedText` throws; `y` files the request with the stored reason, `n` without one; `r` asks again; anything else passes the turn through; `data` is never written |
| AskingArticleSubmissionReasonHandler.Transition | src/handlers/askingArticleSubmissionReason.js:8-72 | never throws and sends nothing; `n` discards and keeps `reasonText`; any other text becomes `reasonText` and is echoed with buttons `y`, `r`, `n` |
| AskingArticleSubmissionReasonHandler.Handle | src/handlers/askingArticleSubmissionReason.js:8-72 | the in-place handler equals `Transition`; `reasonText` is the only field it writes |
| AskingArticleSubmissionHandler.Handle | src/handlers/askingArticleSubmission.js:8-66 | missing `searchedText` throws; `y` creates the article from `searchedText` and `reasonText` and links to the new id; `n` discards; `r` asks again; anything else passes through; `data` is never written |
| DefaultStateHandler.Handle | src/handlers/defaultState.js:4-17 | always back to the start with one text reply; data, event, `issuedAt`, user and `isSkipUser` are unchanged; no request |
| FbClient.EntryNamesDistinct | src/fbClient.js:20 | different positions give different entry names |
| FbClient.WrapUpMessages | src/fbClient.js:7-29 | \|replies\|+1 POST entries to the messages path: first `msg0` with typing on and no dependency, then `msg{i+1}` sending reply i and depending on `msg{i}`; the names form one chain and are distinct |
| FbClient.FieldsText | src/fbClient.js:103-109 | the text is empty exactly when none of the fields is present |
| FbClient.PageTextFields | src/fbClient.js:98-109 | on status 200 the text is message, caption and link, each present one followed by a newline, in that order |
| FbClient.PagePublicContentAccess | src/fbClient.js:90-110 | the loop computes the page text, which is empty exactly on a failed fetch or a post with none of the fields |
| MessageHandler.LinkInput | src/messageHandler.js:60-85 | a Facebook post link gives the post's text; an outbound redirect gives the title, a tab and the decoded target; any other link gives no input |
| MessageHandler.Classify | src/messageHandler.js:42-93 | a postback payload wins over text and attachments; text wins over attachments; an event with neither is ignored; a non-link attachment has no input |
| MessageHandler.Settle | src/messageHandler.js:122-155 | a throw or missing replies gives the start context with empty data and one apology; otherwise `issuedAt` is the turn's time iff the state changed, else the previous one |
| MessageHandler.ImageUploads | src/messageHandler.js:173-193 | only image attachments among the first ten are uploaded, in order, each with its own index and URL |
| MessageHandler.EveryImageUploaded | src/messageHandler.js:173-193 | every image among the first ten attachments is uploaded |
| MessageHandler.HandleMessage | src/messageHandler.js:16-206 | a blacklisted user or an ignored event causes no effect; `RESET` only deletes the context; the contact text only replies; one character at the start is dropped; otherwise the settled replies are sent, then the context stored; no input gives the uploads, the text-only reply and the bare start state |
| Conversation.InitStateFollows | src/handlers/initState.js:189-309 | `initState` moves only to the start, CHOOSING_ARTICLE or ASKING_ARTICLE_SUBMISSION_REASON |
| Conversation.ChoosingArticleFollows | src/handlers/choosingArticle.js:49-267 | `choosingArticle` moves only to its five listed successors |
| Conversation.ChoosingReplyFollows | src/handlers/choosingReply.js:28-112 | `choosingReply` moves only to CHOOSING_REPLY or ASKING_REPLY_FEEDBACK |
| Conversation.AskingReplyFeedbackFollows | src/handlers/askingReplyFeedback.js:32-162 | the feedback question moves only to the start, itself or ASKING_NOT_USEFUL_FEEDBACK |
| Conversation.AskingNotUsefulFeedbackFollows | src/handlers/askingNotUsefulFeedback.js:15-105 | moves only to the start or ASKING_NOT_USEFUL_FEEDBACK_SUBMISSION |
| Conversation.AskingNotUsefulFeedbackSubmissionFollows | src/handlers/askingNotUsefulFeedbackSubmission.js:14-88 | moves only to the start or back to ASKING_NOT_USEFUL_FEEDBACK |
| Conversation.AskingReplyRequestReasonFollows | src/handlers/askingReplyRequestReason.js:11-81 | moves only to the start or ASKING_REPLY_REQUEST_SUBMISSION |
| Conversation.AskingReplyRequestSubmissionFollows | src/handlers/askingReplyRequestSubmission.js:16-76 | moves only to the start, itself or ASKING_REPLY_REQUEST_REASON |
| Conversation.AskingArticleSubmissionReasonFollows | src/handlers/askingArticleSubmissionReason.js:14-67 | moves only to the start or ASKING_ARTICLE_SUBMISSION |
| Conversation.AskingArticleSubmissionFollows | src/handlers/askingArticleSubmission.js:18-65 | moves only to the start, itself or ASKING_ARTICLE_SUBMISSION_REASON |
| Conversation.NumberSelectsArticle | src/handlers/choosingArticle.js:47 | the input k+1 selects the k-th found article |
| Conversation.NumberSelectsReply | src/handlers/choosingReply.js:26 | the input k+1 selects the k-th found reply and moves to ASKING_REPLY_FEEDBACK |
| Conversation.CandidateCardPayload | src/handlers/initState.js:213 | the i-th candidate card's button carries payload i+1 |
| Conversation.InitStoresRankedIds | src/handlers/initState.js:79-81 | after a search with hits, `foundArticleIds` are the ranked hits' ids |
| Conversation.CandidatePayloadSelects | src/handlers/initState.js:205-255 | pressing the i-th candidate card selects, on the next turn, exactly the i-th ranked hit |
| Conversation.NonePayloadOffersSubmission | src/handlers/choosingArticle.js:49-68 | pressing the "none" card offers article submission and issues no request |
| Conversation.InitAutoAdvance | src/handlers/initState.js:189-203 | a single near-duplicate hit sets CHOOSING_ARTICLE, input 1, `isSkipUser` and that hit as the only found id |
| Conversation.IdenticalHitAutoSelects | src/handlers/initState.js:189-203 | the re-entered turn after that auto-advance selects the near-duplicate hit |
| Conversation.ReplyCardPayload | src/handlers/choosingArticle.js:192 | the i-th reply card's button carries payload i+1 |
| Conversation.ChosenStoresReplyIds | src/handlers/choosingArticle.js:151-154 | an article with replies stores the reordered reply ids |
| Conversation.ReplyPayloadSelects | src/handlers/choosingArticle.js:171-202 | pressing the i-th reply card selects, on the next turn, exactly the i-th reordered reply |
| Conversation.ChosenAutoAdvance | src/handlers/choosingArticle.js:156-169 | an article with one reply sets CHOOSING_REPLY, input 1, `isSkipUser` and that reply as the only found id |
| Conversation.SingleReplyAutoSelects | src/handlers/choosingArticle.js:156-169 | the re-entered turn after that auto-advance selects the article's only reply |

## Left out

- Strings are sequences of Unicode code points. JavaScript measures `length`, `slice` and the single-character shortcut in UTF-16 code units, so the model differs from the source on characters outside the Basic Multilingual Plane.
- Js.ToNumber models only the part of `Number(string)` the inputs need: surrounding white space, the empty string (0) and plain decimal digits. Signs, fractions, exponents and hexadecimal read as not-a-number.
- After an auto-advance the source sets `event.input` to the number 1. The model uses the string "1", which every handler treats the same way.
- String similarity (`compareTwoStrings`) is a third-party library over floating point. Hits come with a given similarity, a fixed-point natural in units of 1/10000, and the threshold 0.95 is 9500.
- InitStateHandler.RoundPercent: `Math.round` and `toFixed` are modelled on that fixed-point similarity, not on floating point.
- GraphQL queries and mutations are left out. Their answers are parameters and their requests are recorded as `Call`s. The reply-request mutation's missing `$` before `reason` in askingReplyRequestSubmission.js is not modelled.
- Analytics (`ga`), logging, rollbar error reports, Redis and the Facebook send calls are left out or recorded only as effects in order. Concurrent webhook deliveries and the fire-and-forget interleaving are not modelled.
- The dispatcher `handleInput` is not part of this model. It is a function parameter of `MessageHandler.HandleMessage`, and its re-entry on `isSkipUser` is not modelled. `Conversation.IdenticalHitAutoSelects` and `Conversation.SingleReplyAutoSelects` state only what the re-entered handler would do.
- `url.parse`, `decodeURIComponent`, the page fetch and `encodeURIComponent(JSON.stringify(...))` are function parameters.
- MessageHandler.HandleMessage: `decodeURIComponent` is a total function here. In the source it runs before the `try` of the turn, so a redirect link whose decoded target is still malformed throws a URIError out of the handler: nothing is replied, stored or uploaded. The model always settles and replies.
- Missing backend answers are not modelled: an article or reply that the backend returns as null throws a TypeError into the fault reply in the source (choosingArticle.js, choosingReply.js); the model's answers are always present.
- FbClient.WrapUpMessages returns the list of batch entries; the JSON text it is serialised into is not modelled.
- The `SITE_URL` environment override is not modelled; the URL is the default site.
- A handler that throws is modelled as an error result carrying the message. Requests issued before a throw are not recorded. An `ellipsis` of a missing article text in askingReplyFeedback.js is the error "TypeError", without its message.
- The reply-type dictionary is a map over the types that occur; JavaScript object-prototype keys such as `constructor` are not modelled.
- The nonsense branches of initState.js and choosingArticle.js are kept; both are dead, since `isNonsenseText` is always false, as the two `NonsenseBranchDead` lemmas show.
- A shared-link attachment without a `url`, which throws in the source, is not modelled: an attachment always has a URL.
- Conversation.IdenticalHitAutoSelects is stated for a search with a single hit `[c]`, which is the only case the auto-advance takes.
- src/index.js, src/checkSignatureAndParse.js, src/fileUpload.js, src/mentionEventHandler.js and src/renew.js are not part of this model.

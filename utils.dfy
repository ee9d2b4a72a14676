/** The text helpers every handler shares: postback buttons, the feedback, type
    and reference wording, the article-submission prompt, the nonsense check,
    `ellipsis` and article URLs. */
module Utils {
  import opened Js
  import opened Messages
  import opened Session

  function CreatePostbackAction(title: string, input: string): (b: Button)
    ensures b.Postback? && b.title == title && b.payload == input
    ensures Payloads([b]) == [input]
  {
    Postback(title, input)
  }

  const NoFeedbackWords := "[還沒有人針對此回應評價]"

  function PositiveLine(positive: nat): string
  {
    "有 " + NatToString(positive) + " 人覺得此回應有幫助"
  }

  function NegativeLine(negative: nat): string
  {
    "有 " + NatToString(negative) + " 人覺得此回應沒幫助"
  }

  /** The lines of a bracketed feedback description, one per non-zero count,
      joined by newlines. */
  function FeedbackLines(positive: nat, negative: nat): string
  {
    if positive != 0 && negative != 0 then PositiveLine(positive) + "\n" + NegativeLine(negative)
    else if positive != 0 then PositiveLine(positive)
    else NegativeLine(negative)
  }

  /** How many users found a reply helpful or not. The source adds a line with
      a trailing newline per non-zero count and trims the result. */
  function CreateFeedbackWords(positive: nat, negative: nat): (r: string)
    ensures positive + negative == 0 <==> r == NoFeedbackWords
    ensures positive + negative != 0 ==> r == "[" + FeedbackLines(positive, negative) + "]"
  {
    if positive + negative == 0 then NoFeedbackWords
    else
      var result := (if positive != 0 then PositiveLine(positive) + "\n" else "")
                    + (if negative != 0 then NegativeLine(negative) + "\n" else "");
      FeedbackWordsTrim(positive, negative);
      "[" + Trim(result) + "]"
  }

  lemma FeedbackWordsTrim(positive: nat, negative: nat)
    requires positive + negative != 0
    ensures Trim((if positive != 0 then PositiveLine(positive) + "\n" else "")
                 + (if negative != 0 then NegativeLine(negative) + "\n" else ""))
            == FeedbackLines(positive, negative)
  {
    var lines := FeedbackLines(positive, negative);
    LineShape(NatToString(positive), " 人覺得此回應有幫助");
    LineShape(NatToString(negative), " 人覺得此回應沒幫助");
    if positive != 0 && negative != 0 {
      var a, b := PositiveLine(positive), NegativeLine(negative);
      assert (a + "\n" + b)[0] == a[0];
      assert (a + "\n" + b)[|a + "\n" + b| - 1] == b[|b| - 1];
      assert a + "\n" + (b + "\n") == lines + "\n";
    } else if positive != 0 {
      assert (PositiveLine(positive) + "\n") + "" == lines + "\n";
    } else {
      assert "" + (NegativeLine(negative) + "\n") == lines + "\n";
    }
    TrimLine(lines);
  }

  /** A feedback line starts with 有 and ends with 助, neither of them white space. */
  lemma LineShape(n: string, tail: string)
    requires |tail| > 0 && tail[|tail| - 1] == '助'
    ensures var s := "有 " + n + tail; |s| > 0 && s[0] == '有' && s[|s| - 1] == '助'
    ensures !IsWhiteSpace('有') && !IsWhiteSpace('助')
  {
    var s := "有 " + n + tail;
    assert s[|s| - 1] == tail[|tail| - 1];
  }

  const UndefinedTypeWords := "回應的狀態未定義！"

  /** The wording of a reply's type; unknown types get the "undefined" text. */
  function CreateTypeWords(replyType: string): (r: string)
    ensures replyType !in {Rumor, NotRumor, Opinionated, NotArticle} <==> r == UndefinedTypeWords
  {
    if replyType == Rumor then "❌ 含有不實訊息"
    else if replyType == NotRumor then "⭕ 含有真實訊息"
    else if replyType == Opinionated then "\U{1F4AC} 含有個人意見"
    else if replyType == NotArticle then "\U{26A0}\U{FE0F}\U{FE0F} 不在查證範圍"
    else UndefinedTypeWords
  }

  /** The four known types are worded differently. */
  lemma TypeWordsDistinct(t: string, u: string)
    requires t in {Rumor, NotRumor, Opinionated, NotArticle}
    requires u in {Rumor, NotRumor, Opinionated, NotArticle}
    ensures CreateTypeWords(t) == CreateTypeWords(u) <==> t == u
  {
  }

  const OpinionPrompt := "不同觀點請見"
  const SourcePrompt := "出處"

  function ReferencePrompt(replyType: string): (prompt: string)
    ensures prompt == OpinionPrompt <==> replyType == Opinionated
  {
    if replyType == Opinionated then OpinionPrompt else SourcePrompt
  }

  const NoReferenceBefore := "\U{100085} \U{26A0}\U{FE0F}\U{FE0F} 此回應沒有"
  const NoReferenceAfter := "，請自行斟酌回應之可信度。\U{26A0}\U{FE0F}\U{FE0F}  \U{100085}"

  /** The reference line of a reply, or a warning naming what is missing.
      A present reference is shown whole after the prompt; the warning is
      given exactly when there is none. */
  function CreateReferenceWords(reference: Option<string>, replyType: string): (r: string)
    ensures Truthy(reference) ==>
      var pre := ReferencePrompt(replyType) + "：";
      |r| == |pre| + |reference.value| && r[..|pre|] == pre && r[|pre|..] == reference.value
    ensures !Truthy(reference) ==>
      var prompt, k := ReferencePrompt(replyType), |NoReferenceBefore|;
      |r| == k + |prompt| + |NoReferenceAfter|
      && r[..k] == NoReferenceBefore && r[k..k + |prompt|] == prompt && r[k + |prompt|..] == NoReferenceAfter
    ensures NoReferenceBefore <= r <==> !Truthy(reference)
  {
    var prompt := ReferencePrompt(replyType);
    if Truthy(reference) then
      var r := prompt + "：" + reference.value;
      assert r[0] == prompt[0] && prompt[0] in {'不', '出'} && NoReferenceBefore[0] == '\U{100085}';
      r
    else
      var r := NoReferenceBefore + prompt + NoReferenceAfter;
      assert r[..|NoReferenceBefore|] == NoReferenceBefore;
      r
  }

  const SubmitArticleText :=
    "【送出訊息到公開資料庫？】\n"
    + "若這是「轉傳訊息」，而且您覺得這很可能是一則「謠言」，" + "請將這則訊息送進公開資料庫建檔，" + "讓好心人查證與回覆。\n"
    + "\n"
    + "雖然您不會立刻收到查證結果，但可以幫助到未來同樣收到這份訊息的人。"
  const SubmitArticlePrompt := "請把「為何您會覺得這是一則謠言」的理由傳給我們，" + "幫助闢謠編輯釐清您有疑惑之處。"
  const DiscardLabel := "放棄送出"

  /** The three messages that ask whether to submit the text as a new article. */
  function CreateAskArticleSubmissionReply(): (r: seq<Reply>)
    ensures |r| == 3 && r[0].Text? && r[1].Text? && r[2].Buttons?
    ensures r[2].buttons == [Postback(DiscardLabel, "n")]
  {
    [ Text(SubmitArticleText),
      Text(SubmitArticlePrompt),
      Buttons("若要放棄，請按「放棄送出」。", [CreatePostbackAction(DiscardLabel, "n")]) ]
  }

  /** The placeholder policy: no text is considered too sparse to search. The
      text callers pass is ignored. */
  function IsNonsenseText(): (r: bool)
    ensures !r
  {
    false
  }

  const EllipsisMark := "⋯⋯"

  /** `text` unchanged if shorter than `limit`, else cut so that with the
      two-character mark appended it has `limit` characters. */
  function Ellipsis(text: string, limit: int): (r: string)
    ensures |text| < limit ==> r == text
    ensures |text| >= limit ==> r == SliceTo(text, limit - |EllipsisMark|) + EllipsisMark
    ensures limit >= 2 ==> |r| <= limit
    ensures limit >= 2 && |text| >= limit ==> |r| == limit && r[..limit - 2] == text[..limit - 2]
  {
    if |text| < limit then text else SliceTo(text, limit - |EllipsisMark|) + EllipsisMark
  }

  const SiteUrl := "https://cofacts.g0v.tw"
  const ArticleUrlPrefix := SiteUrl + "/article/"

  /** The article's page; the id is what follows the fixed prefix. */
  function GetArticleURL(articleId: string): (url: string)
    ensures |url| == |ArticleUrlPrefix| + |articleId|
    ensures url[..|ArticleUrlPrefix|] == ArticleUrlPrefix && url[|ArticleUrlPrefix|..] == articleId
  {
    SiteUrl + "/article/" + articleId
  }

  /** Different articles have different pages. */
  lemma ArticleURLInjective(a: string, b: string)
    ensures GetArticleURL(a) == GetArticleURL(b) ==> a == b
  {
  }
}

/** `initState`: the entry state for messages and page comments. The text is
    searched for; the hits are ranked by similarity; then the handler offers
    a carousel, chooses the only near-duplicate hit for the user, answers a
    comment with a summary, or offers to submit the text. */
module InitStateHandler {
  import opened Js
  import opened Messages
  import opened Session
  import opened Utils
  import opened ReplyRanking

  /** 0.95 in units of 1/10000. */
  const SimilarityThreshold: nat := 9500

  /** The first ten characters of the input, with the mark iff cut. */
  function ArticleSummary(input: string): (r: string)
    ensures |input| <= 10 ==> r == input
    ensures |input| > 10 ==> r == input[..10] + EllipsisMark && |r| == 12
  {
    SliceTo(input, 10) + (if |input| > 10 then EllipsisMark else "")
  }

  // ---------------------------------------------------------------------------
  // Ranking: a stable sort by non-increasing similarity.

  predicate SortedBySimilarity(cs: seq<Candidate>)
  {
    forall i, j :: 0 <= i < j < |cs| ==> cs[i].similarity >= cs[j].similarity
  }

  /** Puts `c` in front of the first candidate that is not more similar. */
  function InsertBySimilarity(c: Candidate, sorted: seq<Candidate>): (r: seq<Candidate>)
    ensures |r| == |sorted| + 1
    ensures r[0] == c || (|sorted| > 0 && r[0] == sorted[0])
    ensures multiset(r) == multiset(sorted) + multiset{c}
    decreases |sorted|
  {
    if sorted == [] || sorted[0].similarity <= c.similarity then [c] + sorted
    else
      assert sorted == [sorted[0]] + sorted[1..];
      [sorted[0]] + InsertBySimilarity(c, sorted[1..])
  }

  /** `edges.sort((e1, e2) => e2.similarity - e1.similarity)`: an insertion
      sort, which like the ECMAScript sort keeps equally similar hits in
      their original order. */
  function SortBySimilarity(cs: seq<Candidate>): (r: seq<Candidate>)
    ensures |r| == |cs|
    decreases |cs|
  {
    if cs == [] then [] else InsertBySimilarity(cs[0], SortBySimilarity(cs[1..]))
  }

  lemma {:induction false} InsertKeepsSorted(c: Candidate, sorted: seq<Candidate>)
    requires SortedBySimilarity(sorted)
    ensures SortedBySimilarity(InsertBySimilarity(c, sorted))
    decreases |sorted|
  {
    if !(sorted == [] || sorted[0].similarity <= c.similarity) {
      InsertKeepsSorted(c, sorted[1..]);
      var tail := InsertBySimilarity(c, sorted[1..]);
      var r := [sorted[0]] + tail;
      forall i, j | 0 <= i < j < |r|
        ensures r[i].similarity >= r[j].similarity
      {
        if i == 0 {
          assert r[j] in multiset(tail);
          assert r[j] in multiset(sorted[1..]) + multiset{c};
        }
      }
    }
  }

  /** The ranked hits have non-increasing similarity. */
  lemma {:induction false} SortIsSorted(cs: seq<Candidate>)
    ensures SortedBySimilarity(SortBySimilarity(cs))
    decreases |cs|
  {
    if cs != [] {
      SortIsSorted(cs[1..]);
      InsertKeepsSorted(cs[0], SortBySimilarity(cs[1..]));
    }
  }

  /** The ranked hits are the search's hits, no more and no fewer. */
  lemma {:induction false} SortIsPermutation(cs: seq<Candidate>)
    ensures multiset(SortBySimilarity(cs)) == multiset(cs)
    decreases |cs|
  {
    if cs != [] {
      SortIsPermutation(cs[1..]);
      assert cs == [cs[0]] + cs[1..];
    }
  }

  /** The hits with the given similarity, in order. */
  function WithSimilarity(cs: seq<Candidate>, v: nat): seq<Candidate>
    decreases |cs|
  {
    if cs == [] then [] else (if cs[0].similarity == v then [cs[0]] else []) + WithSimilarity(cs[1..], v)
  }

  lemma WithSimilarityCons(x: Candidate, s: seq<Candidate>, v: nat)
    ensures WithSimilarity([x] + s, v) == (if x.similarity == v then [x] else []) + WithSimilarity(s, v)
  {
    assert ([x] + s)[1..] == s;
  }

  lemma {:induction false} InsertWithSimilarity(c: Candidate, sorted: seq<Candidate>, v: nat)
    ensures WithSimilarity(InsertBySimilarity(c, sorted), v)
         == (if c.similarity == v then [c] else []) + WithSimilarity(sorted, v)
    decreases |sorted|
  {
    if sorted == [] || sorted[0].similarity <= c.similarity {
      WithSimilarityCons(c, sorted, v);
    } else {
      var head, rest := sorted[0], sorted[1..];
      InsertWithSimilarity(c, rest, v);
      WithSimilarityCons(head, InsertBySimilarity(c, rest), v);
      assert sorted == [head] + rest;
      WithSimilarityCons(head, rest, v);
      var tail := WithSimilarity(rest, v);
      // `head` is strictly more similar than `c`: at most one of them has similarity `v`.
      if c.similarity == v {
        assert WithSimilarity(InsertBySimilarity(c, sorted), v) == [] + ([c] + tail);
      } else {
        assert WithSimilarity(InsertBySimilarity(c, sorted), v)
            == (if head.similarity == v then [head] else []) + ([] + tail);
      }
    }
  }

  /** Stability: equally similar hits keep the search's order. */
  lemma {:induction false} SortIsStable(cs: seq<Candidate>, v: nat)
    ensures WithSimilarity(SortBySimilarity(cs), v) == WithSimilarity(cs, v)
    decreases |cs|
  {
    if cs != [] {
      SortIsStable(cs[1..], v);
      InsertWithSimilarity(cs[0], SortBySimilarity(cs[1..]), v);
    }
  }

  /** The ids of the ranked hits, `foundArticleIds`. */
  function Ids(cs: seq<Candidate>): (ids: seq<string>)
    ensures |ids| == |cs| && forall i :: 0 <= i < |cs| ==> ids[i] == cs[i].id
  {
    seq(|cs|, i requires 0 <= i < |cs| => cs[i].id)
  }

  /** The top-ranked hit reaches the threshold. */
  predicate HasIdenticalDocs(sorted: seq<Candidate>)
  {
    |sorted| > 0 && sorted[0].similarity >= SimilarityThreshold
  }

  /** The top-ranked hit reaches the threshold iff some hit does. */
  lemma IdenticalIffSomeHitClose(cs: seq<Candidate>)
    ensures HasIdenticalDocs(SortBySimilarity(cs))
        <==> exists i :: 0 <= i < |cs| && cs[i].similarity >= SimilarityThreshold
  {
    var sorted := SortBySimilarity(cs);
    SortIsSorted(cs);
    SortIsPermutation(cs);
    if i :| 0 <= i < |cs| && cs[i].similarity >= SimilarityThreshold {
      assert cs[i] in multiset(sorted);
      var k :| 0 <= k < |sorted| && sorted[k] == cs[i];
      assert sorted[0].similarity >= sorted[k].similarity;
    }
    if HasIdenticalDocs(sorted) {
      assert sorted[0] in multiset(cs);
      var k :| 0 <= k < |cs| && cs[k] == sorted[0];
    }
  }

  // ---------------------------------------------------------------------------
  // The messages.

  const ChooseLabel := "Choose this one"
  const NoneTitle := "None of these messages match mine :("
  const ContactTeam := "I want to contact Cofacts team"
  const WhichMessage := "Which message below " + "matches what you just " + "sent to us?"

  /** The two decimals `toFixed(2)` prints, leading zero kept. */
  function TwoDigits(n: nat): (r: string)
    requires n < 100
    ensures |r| == 2 && AllDigits(r)
    ensures DecimalValue(r) == n
  {
    var r := [DigitChar(n / 10), DigitChar(n % 10)];
    assert r[..1] == [DigitChar(n / 10)] && r[..1][..0] == [];
    assert DecimalValue(r[..1]) == n / 10;
    assert DecimalValue(r) == (n / 10) * 10 + n % 10;
    r
  }

  /** `(similarity * 100).toFixed(2)` for a similarity in units of 1/10000. */
  function PercentText(similarity: nat): string
  {
    NatToString(similarity / 100) + "." + TwoDigits(similarity % 100)
  }

  /** The percentage on a card is exact: different similarities read differently. */
  lemma PercentTextInjective(a: nat, b: nat)
    ensures PercentText(a) == PercentText(b) ==> a == b
  {
    if PercentText(a) == PercentText(b) {
      var ta, tb := TwoDigits(a % 100), TwoDigits(b % 100);
      assert PercentText(a) == NatToString(a / 100) + ("." + ta);
      assert PercentText(b) == NatToString(b / 100) + ("." + tb);
      DigitsPrefix(NatToString(a / 100), "." + ta, NatToString(b / 100), "." + tb);
      NatToStringInjective(a / 100, b / 100);
      DropPrefix(".", ta, tb);
    }
  }

  /** `Math.round(similarity * 100)` for a similarity in units of 1/10000. */
  function RoundPercent(similarity: nat): (r: nat)
    ensures r * 100 <= similarity + 50 < r * 100 + 100
  {
    (similarity + 50) / 100
  }

  /** The card offering the hit at position `idx`. */
  function CandidateCard(c: Candidate, idx: nat): Card
  {
    Card(SliceTo(c.text, 80), Some("[Similarity: " + PercentText(c.similarity) + "%]"),
         [CreatePostbackAction(ChooseLabel, NatToString(idx + 1))])
  }

  const NoneCard := Card(NoneTitle, None, [CreatePostbackAction(ChooseLabel, "0")])

  /** One card per ranked hit, then the "none of these" card unless the top hit
      is a near-duplicate. */
  function CarouselCards(sorted: seq<Candidate>): (cards: seq<Card>)
    ensures |cards| == |sorted| + (if HasIdenticalDocs(sorted) then 0 else 1)
    ensures forall i :: 0 <= i < |sorted| ==>
      cards[i].buttons == [Postback(ChooseLabel, NatToString(i + 1))] && |cards[i].title| <= 80
      && cards[i].title <= sorted[i].text
      && cards[i].subtitle == Some("[Similarity: " + PercentText(sorted[i].similarity) + "%]")
    ensures !HasIdenticalDocs(sorted) ==> cards[|sorted|] == NoneCard
    ensures !HasIdenticalDocs(sorted) ==> cards[|sorted|].buttons == [Postback(ChooseLabel, "0")]
  {
    seq(|sorted|, i requires 0 <= i < |sorted| => CandidateCard(sorted[i], i))
    + (if HasIdenticalDocs(sorted) then [] else [NoneCard])
  }

  /** `${lead}${n}${gap}user(s) verb(s)${rest}` when `n` is non-zero, else nothing. */
  function CountPhrase(n: nat, lead: string, gap: string, verb: string, rest: string): (r: string)
    ensures n == 0 <==> r == ""
    ensures n != 0 ==> lead + NatToString(n) <= r
  {
    if n == 0 then ""
    else lead + NatToString(n) + gap + "user" + (if n > 1 then "s" else "")
         + " " + verb + (if n > 1 then "" else "s") + rest
  }

  const CommentSummaryHead := ", and\n"
  const OffTopicLead := ", but "

  const RumorWords := " this to be a rumor \U{274C}\n"
  const NotRumorWords := " this can be a truth \U{2B55}\n"
  const OpinionatedWords := " this is simply a " + "personal opinion \U{1F4AC}\n"
  const NotArticleWords := " this is off-topic " + "and Cofacts need not " + "to handle it \U{26A0}\U{FE0F}\U{FE0F}\n"

  /** What the replies to the top hit say, for a page comment. The off-topic
      phrase has two spaces before "user". */
  function CommentSummary(rumor: nat, notRumor: nat, opinionated: nat, notArticle: nat): string
  {
    CommentSummaryHead + CountPhrase(rumor, "", " ", "consider", RumorWords)
    + CountPhrase(notRumor, "", " ", "think", NotRumorWords)
    + CountPhrase(opinionated, "", " ", "think", OpinionatedWords)
    + CountPhrase(notArticle, OffTopicLead, "  ", "think", NotArticleWords)
  }

  /** The comment's summary names each non-zero count, and with no replies
      only its head remains. */
  lemma CommentSummaryNamesCounts(rumor: nat, notRumor: nat, opinionated: nat, notArticle: nat)
    ensures var r := CommentSummary(rumor, notRumor, opinionated, notArticle);
      && CommentSummaryHead <= r
      && (r == CommentSummaryHead <==> rumor == 0 && notRumor == 0 && opinionated == 0 && notArticle == 0)
      && (rumor != 0 ==> Occurs(NatToString(rumor), r))
      && (notRumor != 0 ==> Occurs(NatToString(notRumor), r))
      && (opinionated != 0 ==> Occurs(NatToString(opinionated), r))
      && (notArticle != 0 ==> Occurs(OffTopicLead + NatToString(notArticle), r))
  {
    var p1 := CountPhrase(rumor, "", " ", "consider", RumorWords);
    var p2 := CountPhrase(notRumor, "", " ", "think", NotRumorWords);
    var p3 := CountPhrase(opinionated, "", " ", "think", OpinionatedWords);
    var p4 := CountPhrase(notArticle, OffTopicLead, "  ", "think", NotArticleWords);
    var r := CommentSummary(rumor, notRumor, opinionated, notArticle);
    assert r == CommentSummaryHead + p1 + p2 + p3 + p4;
    PhrasesOccur(CommentSummaryHead, p1, p2, p3, p4);
    if rumor != 0 {
      assert "" + NatToString(rumor) == NatToString(rumor);
    }
    if notRumor != 0 {
      assert "" + NatToString(notRumor) == NatToString(notRumor);
    }
    if opinionated != 0 {
      assert "" + NatToString(opinionated) == NatToString(opinionated);
    }
  }

  /** Each phrase of a concatenation, and what it begins with, is found in it. */
  lemma PhrasesOccur(h: string, p1: string, p2: string, p3: string, p4: string)
    ensures var r := h + p1 + p2 + p3 + p4;
      && h <= r && (r == h <==> p1 == p2 == p3 == p4 == [])
      && (forall x | x <= p1 :: Occurs(x, r)) && (forall x | x <= p2 :: Occurs(x, r))
      && (forall x | x <= p3 :: Occurs(x, r)) && (forall x | x <= p4 :: Occurs(x, r))
  {
    var r := h + p1 + p2 + p3 + p4;
    assert |r| == |h| + |p1| + |p2| + |p3| + |p4|;
    assert r[..|h|] == h;
    forall x | x <= p1 ensures Occurs(x, r) {
      assert r[|h|..] == p1 + (p2 + p3 + p4);
    }
    forall x | x <= p2 ensures Occurs(x, r) {
      assert r[|h| + |p1|..] == p2 + (p3 + p4);
    }
    forall x | x <= p3 ensures Occurs(x, r) {
      assert r[|h| + |p1| + |p2|..] == p3 + p4;
    }
    forall x | x <= p4 ensures Occurs(x, r) {
      assert r[|h| + |p1| + |p2| + |p3|..] == p4;
    }
  }

  /** The hits' pages, in rank order. */
  function Links(sorted: seq<Candidate>): (links: seq<string>)
    ensures |links| == |sorted|
    ensures forall i :: 0 <= i < |sorted| ==> links[i] == GetArticleURL(sorted[i].id)
  {
    seq(|sorted|, i requires 0 <= i < |sorted| => "https://cofacts.g0v.tw/article/" + sorted[i].id)
  }

  const CommentHead := "Hey #Cofacts has messages "
  const SimilarTo := "similar to this one: "
  const WebsiteLine := "\nGo to Cofacts' website " + "for more information!\n"

  /** The comment reply: the top hit's rounded percentage and the summary first,
      the hits' pages, one per line, last. */
  function CommentText(sorted: seq<Candidate>, summary: string): (r: string)
    requires |sorted| > 0
    ensures CommentHead + NatToString(RoundPercent(sorted[0].similarity)) + SimilarTo + summary <= r
    ensures var j := Join(Links(sorted), "\n"); |j| <= |r| && r[|r| - |j|..] == j
  {
    var head := CommentHead + NatToString(RoundPercent(sorted[0].similarity)) + SimilarTo + summary;
    var j := Join(Links(sorted), "\n");
    var r := head + WebsiteLine + j;
    assert r == head + (WebsiteLine + j);
    assert r[|r| - |j|..] == j;
    r
  }

  const NonsenseReply :=
    "Sorry, please provide " + "more information.\n"
    + "Please refer to our " + "user's manual \U{1F4D6} http://bit.ly/cofacts-fb-users"

  function NotFoundText(summary: string): string
  {
    "We didn't find anything about \"" + summary + "\" :("
  }

  function NotFoundCommentText(summary: string): string
  {
    "We didn't find anything about \"" + summary + ("\" :(\"\nYou can try " + "these websites again:\n\n")
    + "              蘭姆酒吐司Rumor " + "& Truth https://www.facebook.com/rumtoast/\n"
    + "Or report this article " + "to us via Line! \n" + "http://bit.ly/cofacts-line-users"
  }

  function CheckingText(summary: string): string
  {
    "We're checking \"" + summary + " for you..."
  }

  // ---------------------------------------------------------------------------
  // The transition.

  /** The turn when the search found hits, ranked as `sorted`. */
  function FoundTurn(d: Data, p: Params, sorted: seq<Candidate>, topArticle: Article): (r: Turn)
    requires |sorted| > 0
    ensures r.data == d
    ensures p.userId == CommentUserId ==>
      r.params == p.(replies := r.params.replies, isSkipUser := false)
      && |r.params.replies| == 1 && r.params.replies[0].Text?
      && r.calls == [ListArticles(p.event.input), GetArticle(sorted[0].id)]
    ensures p.userId == CommentUserId ==>
      var t, ars := r.params.replies[0].text, topArticle.articleReplies;
      var j := Join(Links(sorted), "\n");
      && CommentHead + NatToString(RoundPercent(sorted[0].similarity)) + SimilarTo
         + CommentSummary(CountOfType(ars, Rumor), CountOfType(ars, NotRumor),
                          CountOfType(ars, Opinionated), CountOfType(ars, NotArticle)) <= t
      && |j| <= |t| && t[|t| - |j|..] == j
    ensures p.userId != CommentUserId ==> r.calls == [ListArticles(p.event.input)]
    ensures p.userId != CommentUserId && |sorted| == 1 && HasIdenticalDocs(sorted) ==>
      r.params == p.(state := ChoosingArticle, event := p.event.(input := "1"), isSkipUser := true)
    ensures p.userId != CommentUserId && !(|sorted| == 1 && HasIdenticalDocs(sorted)) ==>
      r.params == p.(state := ChoosingArticle, replies := r.params.replies)
      && |r.params.replies| == 3 && r.params.replies[2].Carousel?
      && r.params.replies[2].cards == CarouselCards(sorted)
      && r.params.replies[2].quickReplies == [QuickReply(ContactTeam, ContactTeam)]
  {
    var input := p.event.input;
    if p.userId == CommentUserId then
      var ars := topArticle.articleReplies;
      var text := CommentText(sorted, CommentSummary(CountOfType(ars, Rumor), CountOfType(ars, NotRumor),
                                                     CountOfType(ars, Opinionated), CountOfType(ars, NotArticle)));
      Turn(d, p.(replies := [Text(text)], isSkipUser := false), [ListArticles(input), GetArticle(sorted[0].id)])
    else if |sorted| == 1 && HasIdenticalDocs(sorted) then
      Turn(d, p.(state := ChoosingArticle, event := p.event.(input := "1"), isSkipUser := true), [ListArticles(input)])
    else
      var replies := [Text(CheckingText(ArticleSummary(input))), Text(WhichMessage),
                      Carousel(CarouselCards(sorted), [QuickReply(ContactTeam, ContactTeam)])];
      Turn(d, p.(state := ChoosingArticle, replies := replies), [ListArticles(input)])
  }

  /** A page comment's reply links to every ranked hit. */
  lemma CommentLinksEveryHit(d: Data, p: Params, sorted: seq<Candidate>, topArticle: Article, i: nat)
    requires p.userId == CommentUserId && i < |sorted|
    ensures Occurs(GetArticleURL(sorted[i].id), FoundTurn(d, p, sorted, topArticle).params.replies[0].text)
  {
    var links := Links(sorted);
    JoinContains(links, "\n", i);
    OccursInSuffix(links[i], Join(links, "\n"), FoundTurn(d, p, sorted, topArticle).params.replies[0].text);
  }

  /** The turn when the search found nothing. */
  function NotFoundTurn(d: Data, p: Params): (r: Turn)
    ensures r.data == d && r.calls == [ListArticles(p.event.input)]
    ensures p.userId == CommentUserId ==>
      r.params == p.(replies := [Text(NotFoundCommentText(ArticleSummary(p.event.input)))])
    ensures p.userId != CommentUserId ==>
      r.params == p.(state := AskingArticleSubmissionReason,
                     replies := [Text(NotFoundText(ArticleSummary(p.event.input)))] + CreateAskArticleSubmissionReply())
  {
    var input := p.event.input;
    var summary := ArticleSummary(input);
    if IsNonsenseText() then
      Turn(d, p.(state := Init, replies := [Text(NonsenseReply)]), [ListArticles(input)])
    else if p.userId == CommentUserId then
      Turn(d, p.(replies := [Text(NotFoundCommentText(summary))]), [ListArticles(input)])
    else
      var replies := [Text(NotFoundText(summary))] + CreateAskArticleSubmissionReply();
      Turn(d, p.(state := AskingArticleSubmissionReason, replies := replies), [ListArticles(input)])
  }

  /** The turn `initState` takes, given the search hits with their similarity
      to the input and, for a comment with hits, the top hit's article. */
  function Transition(data: Data, p: Params, hits: seq<Candidate>, topArticle: Article): (r: Turn)
    // Every path records the text and searches for it; hits are stored ranked.
    ensures hits != [] ==> r.data == data.(searchedText := Some(p.event.input),
                                           foundArticleIds := Some(Ids(SortBySimilarity(hits))))
    ensures hits == [] ==> r.data == data.(searchedText := Some(p.event.input))
    ensures |r.calls| > 0 && r.calls[0] == ListArticles(p.event.input)
    ensures r.params.userId == p.userId && r.params.issuedAt == p.issuedAt
    // A page comment never changes state and gets one text reply.
    ensures p.userId == CommentUserId ==>
      r.params.state == p.state && |r.params.replies| == 1 && r.params.replies[0].Text?
    ensures p.userId == CommentUserId && hits != [] ==> !r.params.isSkipUser
  {
    var d := data.(searchedText := Some(p.event.input));
    if hits != [] then
      var sorted := SortBySimilarity(hits);
      FoundTurn(d.(foundArticleIds := Some(Ids(sorted))), p, sorted, topArticle)
    else
      NotFoundTurn(d, p)
  }

  /** The nonsense branch is dead: since no text counts as nonsense, a search
      without hits never answers with the nonsense reply. */
  lemma NonsenseBranchDead(data: Data, p: Params, topArticle: Article)
    ensures Transition(data, p, [], topArticle).params.replies != [Text(NonsenseReply)]
  {
    var summary := ArticleSummary(p.event.input);
    if p.userId == CommentUserId {
      assert NotFoundCommentText(summary)[0] == 'W' && NonsenseReply[0] == 'S';
    }
  }

  /** `initState` on the shared session object: it writes `searchedText` and,
      when there are hits, `foundArticleIds` in place. */
  method Handle(data: SessionData, p: Params, hits: seq<Candidate>, topArticle: Article) returns (r: Turn)
    modifies data
    ensures r == Transition(old(data.View()), p, hits, topArticle)
    ensures data.View() == r.data
  {
    ghost var before := data.View();
    TransitionBranches(before, p, hits, topArticle);
    data.searchedText := Some(p.event.input);
    if |hits| > 0 {
      var edgesSortedWithSimilarity := SortBySimilarity(hits);
      data.foundArticleIds := Some(Ids(edgesSortedWithSimilarity));
      assert data.View() == before.(searchedText := Some(p.event.input),
                                    foundArticleIds := Some(Ids(edgesSortedWithSimilarity)));
      r := Found(data.View(), p, edgesSortedWithSimilarity, topArticle);
    } else {
      assert data.View() == before.(searchedText := Some(p.event.input));
      r := NotFound(data.View(), p);
    }
  }

  /** Which branch function the transition takes. */
  lemma TransitionBranches(data: Data, p: Params, hits: seq<Candidate>, topArticle: Article)
    ensures var d := data.(searchedText := Some(p.event.input));
      && (hits != [] ==>
            Transition(data, p, hits, topArticle)
            == FoundTurn(d.(foundArticleIds := Some(Ids(SortBySimilarity(hits)))), p, SortBySimilarity(hits), topArticle))
      && (hits == [] ==> Transition(data, p, hits, topArticle) == NotFoundTurn(d, p))
  {
  }

  /** The branches after the search found hits, ranked as `sorted`; the reply
      types of a comment's top hit are tallied in a dictionary. */
  method Found(d: Data, p: Params, sorted: seq<Candidate>, topArticle: Article) returns (r: Turn)
    requires |sorted| > 0
    ensures r == FoundTurn(d, p, sorted, topArticle)
  {
    var calls := [ListArticles(p.event.input)];
    if p.userId == CommentUserId {
      calls := calls + [GetArticle(sorted[0].id)];
      var count := Tally(topArticle.articleReplies);
      var summary := CommentSummary(CountGet(count, Rumor), CountGet(count, NotRumor),
                                    CountGet(count, Opinionated), CountGet(count, NotArticle));
      var text := CommentText(sorted, summary);
      return Turn(d, p.(replies := [Text(text)], isSkipUser := false), calls);
    }
    if |sorted| == 1 && HasIdenticalDocs(sorted) {
      var event := p.event.(input := "1");
      return Turn(d, p.(state := ChoosingArticle, event := event, isSkipUser := true), calls);
    }
    var replies := [Text(CheckingText(ArticleSummary(p.event.input))), Text(WhichMessage),
                    Carousel(CarouselCards(sorted), [QuickReply(ContactTeam, ContactTeam)])];
    r := Turn(d, p.(state := ChoosingArticle, replies := replies), calls);
  }

  /** The branches after the search found nothing. */
  method NotFound(d: Data, p: Params) returns (r: Turn)
    ensures r == NotFoundTurn(d, p)
  {
    var state, replies := p.state, p.replies;
    var articleSummary := ArticleSummary(p.event.input);
    if IsNonsenseText() {
      replies := [Text(NonsenseReply)];
      state := Init;
    } else if p.userId == CommentUserId {
      replies := [Text(NotFoundCommentText(articleSummary))];
    } else {
      replies := [Text(NotFoundText(articleSummary))] + CreateAskArticleSubmissionReply();
      state := AskingArticleSubmissionReason;
    }
    r := Turn(d, p.(state := state, replies := replies), [ListArticles(p.event.input)]);
  }
}

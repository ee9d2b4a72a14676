/** How an article's replies are ordered and tallied before they are shown:
    replies that judge the message come first, off-topic (`NOT_ARTICLE`) ones
    last, each group in the backend's order; and a count per reply type. */
module ReplyRanking {
  import opened Js
  import opened Session

  /** The replies that are not `NOT_ARTICLE`, in order. */
  function Substantive(ars: seq<ArticleReply>): (r: seq<ArticleReply>)
    ensures |r| <= |ars|
    ensures forall i :: 0 <= i < |r| ==> r[i].replyType != NotArticle
    decreases |ars|
  {
    if ars == [] then []
    else
      var last := ars[|ars| - 1];
      Substantive(ars[..|ars| - 1]) + (if last.replyType != NotArticle then [last] else [])
  }

  /** The `NOT_ARTICLE` replies, in order. */
  function OffTopic(ars: seq<ArticleReply>): (r: seq<ArticleReply>)
    ensures |r| <= |ars|
    ensures forall i :: 0 <= i < |r| ==> r[i].replyType == NotArticle
    decreases |ars|
  {
    if ars == [] then []
    else
      var last := ars[|ars| - 1];
      OffTopic(ars[..|ars| - 1]) + (if last.replyType == NotArticle then [last] else [])
  }

  /** The order in which replies are offered. */
  function Reordered(ars: seq<ArticleReply>): seq<ArticleReply>
  {
    Substantive(ars) + OffTopic(ars)
  }

  /** `reorderArticleReplies`: one pass pushing each reply onto one of two lists. */
  method ReorderArticleReplies(articleReplies: seq<ArticleReply>) returns (r: seq<ArticleReply>)
    ensures r == Reordered(articleReplies)
  {
    var replies: seq<ArticleReply> := [];
    var notArticleReplies: seq<ArticleReply> := [];
    for i := 0 to |articleReplies|
      invariant replies == Substantive(articleReplies[..i])
      invariant notArticleReplies == OffTopic(articleReplies[..i])
    {
      var articleReply := articleReplies[i];
      assert articleReplies[..i + 1][..i] == articleReplies[..i];
      if articleReply.replyType != NotArticle {
        replies := replies + [articleReply];
      } else {
        notArticleReplies := notArticleReplies + [articleReply];
      }
    }
    assert articleReplies[..|articleReplies|] == articleReplies;
    r := replies + notArticleReplies;
  }

  /** Reordering loses and invents nothing. */
  lemma {:induction false} ReorderedIsPermutation(ars: seq<ArticleReply>)
    ensures multiset(Reordered(ars)) == multiset(ars)
    ensures |Reordered(ars)| == |ars|
    decreases |ars|
  {
    if ars != [] {
      var init, last := ars[..|ars| - 1], ars[|ars| - 1];
      ReorderedIsPermutation(init);
      assert ars == init + [last];
      assert multiset(ars) == multiset(init) + multiset{last};
    }
  }

  /** No substantive reply comes after an off-topic one. */
  lemma OffTopicLast(ars: seq<ArticleReply>)
    ensures var r := Reordered(ars);
      forall i, j :: 0 <= i < j < |r| && r[i].replyType == NotArticle ==> r[j].replyType == NotArticle
  {
    var r := Reordered(ars);
    var s := Substantive(ars);
    forall i, j | 0 <= i < j < |r| && r[i].replyType == NotArticle
      ensures r[j].replyType == NotArticle
    {
      assert i >= |s|;
    }
  }

  lemma {:induction false} SubstantiveAppend(a: seq<ArticleReply>, b: seq<ArticleReply>)
    ensures Substantive(a + b) == Substantive(a) + Substantive(b)
    ensures OffTopic(a + b) == OffTopic(a) + OffTopic(b)
    decreases |b|
  {
    if b == [] {
      assert a + b == a;
    } else {
      var init, last := b[..|b| - 1], b[|b| - 1];
      assert (a + b)[..|a + b| - 1] == a + init;
      SubstantiveAppend(a, init);
    }
  }

  lemma {:induction false} FilterOfFiltered(ars: seq<ArticleReply>)
    ensures Substantive(Substantive(ars)) == Substantive(ars)
    ensures OffTopic(Substantive(ars)) == []
    ensures Substantive(OffTopic(ars)) == []
    ensures OffTopic(OffTopic(ars)) == OffTopic(ars)
    decreases |ars|
  {
    if ars != [] {
      var init, last := ars[..|ars| - 1], ars[|ars| - 1];
      FilterOfFiltered(init);
      SubstantiveAppend(Substantive(init), if last.replyType != NotArticle then [last] else []);
      SubstantiveAppend(OffTopic(init), if last.replyType == NotArticle then [last] else []);
    }
  }

  /** Each group keeps the backend's relative order. */
  lemma GroupsKeepOrder(ars: seq<ArticleReply>)
    ensures Substantive(Reordered(ars)) == Substantive(ars)
    ensures OffTopic(Reordered(ars)) == OffTopic(ars)
  {
    SubstantiveAppend(Substantive(ars), OffTopic(ars));
    FilterOfFiltered(ars);
  }

  /** How many replies have the given type. */
  function CountOfType(ars: seq<ArticleReply>, replyType: string): (n: nat)
    ensures n <= |ars|
    decreases |ars|
  {
    if ars == [] then 0
    else CountOfType(ars[..|ars| - 1], replyType) + (if ars[|ars| - 1].replyType == replyType then 1 else 0)
  }

  /** `count[type] || 0` for the dictionary the tally builds. */
  function CountGet(count: map<string, nat>, replyType: string): nat
  {
    if replyType in count then count[replyType] else 0
  }

  /** The `forEach` tally of reply types into a dictionary: it holds exactly
      the types that occur, each with its number of replies. */
  method Tally(articleReplies: seq<ArticleReply>) returns (count: map<string, nat>)
    ensures forall t :: CountGet(count, t) == CountOfType(articleReplies, t)
    ensures forall t :: t in count <==> CountOfType(articleReplies, t) > 0
  {
    count := map[];
    for i := 0 to |articleReplies|
      invariant forall t :: CountGet(count, t) == CountOfType(articleReplies[..i], t)
      invariant forall t :: t in count <==> CountOfType(articleReplies[..i], t) > 0
    {
      var replyType := articleReplies[i].replyType;
      assert articleReplies[..i + 1][..i] == articleReplies[..i];
      if replyType !in count || count[replyType] == 0 {
        count := count[replyType := 1];
      } else {
        count := count[replyType := count[replyType] + 1];
      }
    }
    assert articleReplies[..|articleReplies|] == articleReplies;
  }

  /** The off-topic count is the size of the group shown last. */
  lemma {:induction false} NotArticleCountIsOffTopicSize(ars: seq<ArticleReply>)
    ensures CountOfType(ars, NotArticle) == |OffTopic(ars)|
    decreases |ars|
  {
    if ars != [] {
      NotArticleCountIsOffTopicSize(ars[..|ars| - 1]);
    }
  }

  lemma {:induction false} CountOfTypeAppend(a: seq<ArticleReply>, b: seq<ArticleReply>, t: string)
    ensures CountOfType(a + b, t) == CountOfType(a, t) + CountOfType(b, t)
    decreases |b|
  {
    if b == [] {
      assert a + b == a;
    } else {
      assert (a + b)[..|a + b| - 1] == a + b[..|b| - 1];
      CountOfTypeAppend(a, b[..|b| - 1], t);
    }
  }

  /** Every reply is in exactly one of the two groups. */
  lemma {:induction false} CountSplits(ars: seq<ArticleReply>, t: string)
    ensures CountOfType(ars, t) == CountOfType(Substantive(ars), t) + CountOfType(OffTopic(ars), t)
    decreases |ars|
  {
    if ars != [] {
      var init, last := ars[..|ars| - 1], ars[|ars| - 1];
      CountSplits(init, t);
      var one := [last];
      assert CountOfType(one, t) == if last.replyType == t then 1 else 0 by {
        assert one[..0] == [];
      }
      if last.replyType != NotArticle {
        assert OffTopic(ars) == OffTopic(init) + [];
        assert OffTopic(init) + [] == OffTopic(init);
        CountOfTypeAppend(Substantive(init), one, t);
      } else {
        assert Substantive(ars) == Substantive(init) + [];
        assert Substantive(init) + [] == Substantive(init);
        CountOfTypeAppend(OffTopic(init), one, t);
      }
    }
  }

  /** The counts are those of the replies as offered: reordering keeps them. */
  lemma ReorderedKeepsCounts(ars: seq<ArticleReply>, t: string)
    ensures CountOfType(Reordered(ars), t) == CountOfType(ars, t)
  {
    CountOfTypeAppend(Substantive(ars), OffTopic(ars), t);
    CountSplits(ars, t);
  }
}

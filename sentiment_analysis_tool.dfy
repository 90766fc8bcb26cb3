/** The deterministic part of the Reddit sentiment tool: picking a label from
    the classifier's scores, keeping the posts of the last thirty days, and
    tallying labels into three buckets. The classifier and the Reddit search
    are inputs, given as functions. */
module SentimentAnalysis {
  import opened Text

  const SentimentErrorPrefix: string := "An error occurred during analyzing sentiment: "
  const PostsErrorPrefix: string := "An error occurred during get_reddit_posts: "
  const TallyErrorPrefix: string := "An error occurred during sentiment analysis: "

  /** The classifier's output classes, in index order. */
  const Labels: seq<string> := ["negative", "neutral", "positive"]
  /** The keys of the counter, which are exactly the three labels. */
  const CountKeys: set<string> := {"neutral", "negative", "positive"}

  /** `timedelta(days=30)`, in seconds. */
  const WindowSeconds: int := 30 * 86400
  /** The default `days` argument, which the window ignores. */
  const DefaultDays: int := 30
  /** The default `limit` of both `get_reddit_posts` and the tool. */
  const DefaultLimit: int := 100
  /** The default `subreddits` argument of the tool. */
  const DefaultSubreddits: seq<string> := ["wallstreetbets", "stocks", "investing"]

  /** What the classifier gives for one text: the softmax scores of its
      output row, or the message of an exception raised while tokenizing or
      running the model. */
  datatype Scores = Probabilities(p: seq<real>) | ClassifierFailure(message: string)

  /** A fetched post: its creation time in seconds since the epoch (UTC) and its title. */
  datatype Post = Post(createdUtc: int, title: string)

  /** One call to the Reddit search for a subreddit: the clock reading
      `end_date` taken for that call and the posts the search yields, in
      order; or the message of the exception raised on the way. */
  datatype Search = Found(now: int, posts: seq<Post>) | SearchFailed(message: string)

  /** What `get_reddit_posts` returns: a list of titles, or an error string. */
  datatype PostsResult = Titles(titles: seq<string>) | PostsError(text: string)

  /** What the tool returns: the counter, or an error string. */
  datatype TallyResult = Counts(counts: map<string, nat>) | TallyError(text: string)

  // ----- analyze_sentiment -----

  /** numpy's `argmax`: the first index of a largest score. */
  function ArgMax(p: seq<real>): (i: nat)
    requires |p| > 0
    ensures i < |p|
    ensures forall j :: 0 <= j < |p| ==> p[j] <= p[i]
    ensures forall j :: 0 <= j < i ==> p[j] < p[i]
  {
    if |p| == 1 then 0
    else
      var k := ArgMax(p[..|p| - 1]);
      if p[k] < p[|p| - 1] then |p| - 1 else k
  }

  /** `analyze_sentiment`: the label at the arg-max, or an error string. An
      empty score row makes `argmax` raise, and an index past the three
      labels makes the lookup raise; both end in the fallback. */
  function AnalyzeSentiment(classify: string -> Scores, text: string): (tag: string)
    ensures tag in CountKeys || HasPrefix(SentimentErrorPrefix, tag)
  {
    match classify(text)
    case ClassifierFailure(m) => SentimentErrorPrefix + m
    case Probabilities(p) =>
      if |p| == 0 then SentimentErrorPrefix + "attempt to get argmax of an empty sequence"
      else if ArgMax(p) < |Labels| then Labels[ArgMax(p)]
      else SentimentErrorPrefix + "list index out of range"
  }

  /** The text is given one of the three labels exactly when the classifier
      produced scores whose first maximum lies among the first three; the
      label is then the one at that maximum. Every other outcome is an error
      string, which is never a counter key. */
  lemma AnalyzeSentimentLabel(classify: string -> Scores, text: string)
    ensures AnalyzeSentiment(classify, text) in CountKeys <==>
              classify(text).Probabilities? && |classify(text).p| > 0 && ArgMax(classify(text).p) < 3
    ensures AnalyzeSentiment(classify, text) in CountKeys ==>
              var p := classify(text).p;
              exists i :: 0 <= i < 3 && i < |p| && AnalyzeSentiment(classify, text) == Labels[i] &&
                (forall j :: 0 <= j < |p| ==> p[j] <= p[i]) && (forall j :: 0 <= j < i ==> p[j] < p[i])
    ensures AnalyzeSentiment(classify, text) !in CountKeys ==>
              HasPrefix(SentimentErrorPrefix, AnalyzeSentiment(classify, text))
  {
    var r := AnalyzeSentiment(classify, text);
    if !(classify(text).Probabilities? && |classify(text).p| > 0 && ArgMax(classify(text).p) < 3) {
      assert HasPrefix(SentimentErrorPrefix, r);
      ErrorTextIsNoKey(r);
    } else {
      var p := classify(text).p;
      var i := ArgMax(p);
      assert r == Labels[i];
    }
  }

  /** A string carrying the `analyzing sentiment` error prefix is never one
      of the three counter keys. */
  lemma ErrorTextIsNoKey(s: string)
    requires HasPrefix(SentimentErrorPrefix, s)
    ensures s !in CountKeys
  {
  }

  // ----- get_reddit_posts -----

  /** `start_date <= post_date <= end_date`, both ends included. */
  predicate InWindow(p: Post, now: int)
  {
    now - WindowSeconds <= p.createdUtc <= now
  }

  /** The titles of the posts inside the window, in search order. */
  function RecentTitles(posts: seq<Post>, now: int): seq<string>
  {
    if |posts| == 0 then []
    else (if InWindow(posts[0], now) then [posts[0].title] else []) + RecentTitles(posts[1..], now)
  }

  /** What `get_reddit_posts` returns for one search: the recent titles, or
      its error text when the search raised. */
  function RedditPosts(search: Search): (r: PostsResult)
    ensures r.PostsError? <==> search.SearchFailed?
    ensures r.PostsError? ==> HasPrefix(PostsErrorPrefix, r.text)
  {
    match search
    case SearchFailed(m) => PostsError(PostsErrorPrefix + m)
    case Found(now, posts) => Titles(RecentTitles(posts, now))
  }

  /** `get_reddit_posts`: the filter loop over the search results. The window
      is always thirty days; `days` plays no part. */
  method GetRedditPosts(subreddit: string, symbol: string, limit: int, days: int,
                        search: (string, string, int) -> Search)
    returns (r: PostsResult)
    ensures r == RedditPosts(search(subreddit, symbol, limit))
  {
    var found := search(subreddit, symbol, limit);
    if found.SearchFailed? {
      return PostsError(PostsErrorPrefix + found.message);
    }
    var endDate := found.now;
    var startDate := endDate - WindowSeconds;
    var posts: seq<string> := [];
    var i := 0;
    while i < |found.posts|
      invariant 0 <= i <= |found.posts|
      invariant posts == RecentTitles(found.posts[..i], endDate)
    {
      var post := found.posts[i];
      assert found.posts[..i + 1] == found.posts[..i] + [post];
      RecentTitlesConcat(found.posts[..i], [post], endDate);
      if startDate <= post.createdUtc <= endDate {
        posts := posts + [post.title];
      }
      i := i + 1;
    }
    assert found.posts[..i] == found.posts;
    return Titles(posts);
  }

  /** The filter keeps search order. */
  lemma {:induction false} RecentTitlesConcat(a: seq<Post>, b: seq<Post>, now: int)
    ensures RecentTitles(a + b, now) == RecentTitles(a, now) + RecentTitles(b, now)
  {
    if |a| == 0 {
      assert a + b == b;
    } else {
      assert (a + b)[0] == a[0];
      assert (a + b)[1..] == a[1..] + b;
      RecentTitlesConcat(a[1..], b, now);
    }
  }

  /** A title is kept exactly when some post inside the window carries it;
      nothing is added, and at most one title per post is kept. */
  lemma {:induction false} RecentTitlesExactly(posts: seq<Post>, now: int)
    ensures |RecentTitles(posts, now)| <= |posts|
    ensures forall t :: t in RecentTitles(posts, now) <==>
              exists p :: p in posts && InWindow(p, now) && p.title == t
  {
    if |posts| > 0 {
      RecentTitlesExactly(posts[1..], now);
      var head := posts[0];
      assert posts == [head] + posts[1..];
      forall t
        ensures t in RecentTitles(posts, now) <==> exists p :: p in posts && InWindow(p, now) && p.title == t
      {
        if exists p :: p in posts && InWindow(p, now) && p.title == t {
          var p :| p in posts && InWindow(p, now) && p.title == t;
          if p != head {
            assert p in posts[1..];
          }
        }
      }
    }
  }

  /** Posts dated exactly thirty days ago and exactly now are both kept;
      one second outside either end is dropped. */
  lemma WindowIsInclusive(now: int, title: string)
    ensures RecentTitles([Post(now - WindowSeconds, title), Post(now, title)], now) == [title, title]
    ensures RecentTitles([Post(now - WindowSeconds - 1, title), Post(now + 1, title)], now) == []
  {
    var keep := [Post(now - WindowSeconds, title), Post(now, title)];
    assert keep[1..] == [Post(now, title)];
    assert RecentTitles(keep[1..], now) == [title] by {
      assert keep[1..][1..] == [];
    }
    var drop := [Post(now - WindowSeconds - 1, title), Post(now + 1, title)];
    assert drop[1..] == [Post(now + 1, title)];
    assert RecentTitles(drop[1..], now) == [] by {
      assert drop[1..][1..] == [];
    }
  }

  // ----- reddit_sentiment_analysis -----

  /** What `for post in posts` walks over: the titles, or, when
      `get_reddit_posts` returned its error string, that string's characters. */
  function PostTexts(r: PostsResult): seq<string>
  {
    match r
    case Titles(ts) => ts
    case PostsError(s) => seq(|s|, i requires 0 <= i < |s| => [s[i]])
  }

  /** The labels `analyze_sentiment` gives the texts, in order. */
  function Classified(texts: seq<string>, classify: string -> Scores): (labels: seq<string>)
    ensures |labels| == |texts|
  {
    seq(|texts|, i requires 0 <= i < |texts| => AnalyzeSentiment(classify, texts[i]))
  }

  /** Every label the tool computes, subreddit after subreddit. */
  function AllLabels(symbol: string, subreddits: seq<string>, limit: int,
                     search: (string, string, int) -> Search, classify: string -> Scores): seq<string>
  {
    if |subreddits| == 0 then []
    else AllLabels(symbol, subreddits[..|subreddits| - 1], limit, search, classify) +
         Classified(PostTexts(RedditPosts(search(subreddits[|subreddits| - 1], symbol, limit))), classify)
  }

  /** How many texts the loops walk over, subreddit after subreddit. */
  function TotalTexts(symbol: string, subreddits: seq<string>, limit: int,
                      search: (string, string, int) -> Search): nat
  {
    if |subreddits| == 0 then 0
    else TotalTexts(symbol, subreddits[..|subreddits| - 1], limit, search) +
         |PostTexts(RedditPosts(search(subreddits[|subreddits| - 1], symbol, limit)))|
  }

  /** The first label that is not a counter key, if any. */
  function FirstUnknown(labels: seq<string>): Option<string>
  {
    if |labels| == 0 then None
    else if labels[0] !in CountKeys then Some(labels[0])
    else FirstUnknown(labels[1..])
  }

  /** How often each label occurs. */
  function CountsOf(labels: seq<string>): map<string, nat>
  {
    map k | k in CountKeys :: multiset(labels)[k]
  }

  /** The tool's answer for a sequence of labels: the counts, or, at the
      first label that is no key, the `KeyError` text (the key in quotes). */
  function Tally(labels: seq<string>): TallyResult
  {
    match FirstUnknown(labels)
    case Some(k) => TallyError(TallyErrorPrefix + "'" + k + "'")
    case None => Counts(CountsOf(labels))
  }

  /** `reddit_sentiment_analysis`: the counter is updated in place, one
      bucket per post, over the subreddits in order. */
  method RedditSentimentAnalysis(symbol: string, subreddits: seq<string>, limit: int,
                                 search: (string, string, int) -> Search, classify: string -> Scores)
    returns (r: TallyResult)
    ensures r == Tally(AllLabels(symbol, subreddits, limit, search, classify))
  {
    var counts: map<string, nat> := map["neutral" := 0, "negative" := 0, "positive" := 0];
    ghost var done: seq<string> := [];
    NoLabelsNoCounts();
    var i := 0;
    while i < |subreddits|
      invariant 0 <= i <= |subreddits|
      invariant done == AllLabels(symbol, subreddits[..i], limit, search, classify)
      invariant FirstUnknown(done) == None
      invariant counts == CountsOf(done)
    {
      var posts := GetRedditPosts(subreddits[i], symbol, limit, DefaultDays, search);
      var texts := PostTexts(posts);
      var j := 0;
      ghost var seen := done;
      assert texts[..0] == [];
      while j < |texts|
        invariant 0 <= j <= |texts|
        invariant seen == done + Classified(texts[..j], classify)
        invariant FirstUnknown(seen) == None
        invariant counts == CountsOf(seen)
      {
        var sentiment := AnalyzeSentiment(classify, texts[j]);
        CountsKeys(seen);
        if sentiment !in counts {
          UnknownLabelStops(symbol, subreddits, limit, search, classify, i, j);
          return TallyError(TallyErrorPrefix + "'" + sentiment + "'");
        }
        TallyStep(seen, counts, sentiment);
        SeenStep(done, texts, classify, j);
        counts := counts[sentiment := counts[sentiment] + 1];
        seen := seen + [sentiment];
        j := j + 1;
      }
      assert texts[..j] == texts;
      AllLabelsStep(symbol, subreddits, limit, search, classify, i);
      done := seen;
      i := i + 1;
    }
    assert subreddits[..i] == subreddits;
    return Counts(counts);
  }

  /** The tool called with only a stock symbol: the three default
      subreddits, in order, a hundred posts each. */
  method RedditSentimentAnalysisDefaults(symbol: string, search: (string, string, int) -> Search,
                                         classify: string -> Scores)
    returns (r: TallyResult)
    ensures r == Tally(AllLabels(symbol, ["wallstreetbets", "stocks", "investing"], 100, search, classify))
  {
    r := RedditSentimentAnalysis(symbol, DefaultSubreddits, DefaultLimit, search, classify);
  }

  /** One turn of the inner loop: the label is a key, and adding one to its
      bucket gives the counts of the labels seen so far. */
  lemma TallyStep(before: seq<string>, counts: map<string, nat>, sentiment: string)
    requires FirstUnknown(before) == None && counts == CountsOf(before) && sentiment in counts
    ensures FirstUnknown(before + [sentiment]) == None
    ensures counts[sentiment := counts[sentiment] + 1] == CountsOf(before + [sentiment])
  {
    CountsKeys(before);
    assert FirstUnknown([sentiment]) == None;
    FirstUnknownConcat(before, [sentiment]);
    CountsStep(before, sentiment);
  }

  lemma CountsKeys(labels: seq<string>)
    ensures CountsOf(labels).Keys == CountKeys
  {
  }

  lemma ClassifiedStep(texts: seq<string>, classify: string -> Scores, j: nat)
    requires j < |texts|
    ensures Classified(texts[..j + 1], classify) ==
              Classified(texts[..j], classify) + [AnalyzeSentiment(classify, texts[j])]
  {
  }

  lemma SeenStep(done: seq<string>, texts: seq<string>, classify: string -> Scores, j: nat)
    requires j < |texts|
    ensures done + Classified(texts[..j + 1], classify) ==
              done + Classified(texts[..j], classify) + [AnalyzeSentiment(classify, texts[j])]
  {
    ClassifiedStep(texts, classify, j);
  }

  lemma AllLabelsStep(symbol: string, subreddits: seq<string>, limit: int,
                      search: (string, string, int) -> Search, classify: string -> Scores, i: nat)
    requires i < |subreddits|
    ensures AllLabels(symbol, subreddits[..i + 1], limit, search, classify) ==
              AllLabels(symbol, subreddits[..i], limit, search, classify) +
              Classified(PostTexts(RedditPosts(search(subreddits[i], symbol, limit))), classify)
  {
    assert subreddits[..i + 1][..i] == subreddits[..i];
  }

  /** The first post whose label is no key ends the whole tally with the
      `KeyError` text. */
  lemma UnknownLabelStops(symbol: string, subreddits: seq<string>, limit: int,
                          search: (string, string, int) -> Search, classify: string -> Scores, i: nat, j: nat)
    requires i < |subreddits|
    requires var texts := PostTexts(RedditPosts(search(subreddits[i], symbol, limit)));
             j < |texts| &&
             FirstUnknown(AllLabels(symbol, subreddits[..i], limit, search, classify) + Classified(texts[..j], classify)) == None &&
             AnalyzeSentiment(classify, texts[j]) !in CountKeys
    ensures var texts := PostTexts(RedditPosts(search(subreddits[i], symbol, limit)));
            Tally(AllLabels(symbol, subreddits, limit, search, classify)) ==
              TallyError(TallyErrorPrefix + "'" + AnalyzeSentiment(classify, texts[j]) + "'")
  {
    var texts := PostTexts(RedditPosts(search(subreddits[i], symbol, limit)));
    var before := AllLabels(symbol, subreddits[..i], limit, search, classify) + Classified(texts[..j], classify);
    LabelsSoFarPrefix(symbol, subreddits, limit, search, classify, i, j);
    FirstUnknownOfPrefix(before, AnalyzeSentiment(classify, texts[j]),
                         AllLabels(symbol, subreddits, limit, search, classify));
  }

  /** The labels up to and including post `j` of subreddit `i` begin the
      labels of the whole call. */
  lemma LabelsSoFarPrefix(symbol: string, subreddits: seq<string>, limit: int,
                          search: (string, string, int) -> Search, classify: string -> Scores, i: nat, j: nat)
    requires i < |subreddits|
    requires j < |PostTexts(RedditPosts(search(subreddits[i], symbol, limit)))|
    ensures var texts := PostTexts(RedditPosts(search(subreddits[i], symbol, limit)));
            AllLabels(symbol, subreddits[..i], limit, search, classify) + Classified(texts[..j], classify) +
              [AnalyzeSentiment(classify, texts[j])] <= AllLabels(symbol, subreddits, limit, search, classify)
  {
    var texts := PostTexts(RedditPosts(search(subreddits[i], symbol, limit)));
    var done := AllLabels(symbol, subreddits[..i], limit, search, classify);
    AllLabelsStep(symbol, subreddits, limit, search, classify, i);
    AllLabelsPrefix(symbol, subreddits, limit, search, classify, i + 1);
    ClassifiedStep(texts, classify, j);
    assert Classified(texts[..j + 1], classify) <= Classified(texts, classify);
    assert done + Classified(texts[..j + 1], classify) <= done + Classified(texts, classify);
  }

  // ----- properties of the tally -----

  lemma {:induction false} FirstUnknownConcat(a: seq<string>, b: seq<string>)
    ensures FirstUnknown(a + b) == if FirstUnknown(a).Some? then FirstUnknown(a) else FirstUnknown(b)
  {
    if |a| == 0 {
      assert a + b == b;
    } else {
      assert (a + b)[0] == a[0];
      assert (a + b)[1..] == a[1..] + b;
      FirstUnknownConcat(a[1..], b);
    }
  }

  lemma FirstUnknownOfPrefix(before: seq<string>, lbl: string, all: seq<string>)
    requires FirstUnknown(before) == None && lbl !in CountKeys
    requires before + [lbl] <= all
    ensures FirstUnknown(all) == Some(lbl)
  {
    var rest := all[|before| + 1..];
    assert all == before + ([lbl] + rest);
    FirstUnknownConcat(before, [lbl] + rest);
  }

  lemma {:induction false} AllLabelsPrefix(symbol: string, subreddits: seq<string>, limit: int,
                                           search: (string, string, int) -> Search,
                                           classify: string -> Scores, k: nat)
    requires k <= |subreddits|
    ensures AllLabels(symbol, subreddits[..k], limit, search, classify) <=
            AllLabels(symbol, subreddits, limit, search, classify)
    decreases |subreddits| - k
  {
    if k < |subreddits| {
      AllLabelsPrefix(symbol, subreddits, limit, search, classify, k + 1);
      assert subreddits[..k + 1][..k] == subreddits[..k];
    } else {
      assert subreddits[..k] == subreddits;
    }
  }

  /** Each processed post adds one to its own bucket and leaves the other two. */
  lemma CountsStep(labels: seq<string>, lbl: string)
    requires lbl in CountKeys
    ensures CountsOf(labels + [lbl]) == CountsOf(labels)[lbl := CountsOf(labels)[lbl] + 1]
  {
    assert multiset(labels + [lbl]) == multiset(labels) + multiset{lbl};
  }

  /** The counter starts with exactly the three keys, all zero, and stays
      so when no post is processed. */
  lemma NoLabelsNoCounts()
    ensures Tally([]) == Counts(map["neutral" := 0, "negative" := 0, "positive" := 0])
  {
    assert CountsOf([]) == map["neutral" := 0, "negative" := 0, "positive" := 0];
  }

  /** On success the three counts add up to the number of labels. */
  lemma {:induction false} CountsAddUp(labels: seq<string>)
    requires FirstUnknown(labels) == None
    ensures CountsOf(labels).Keys == CountKeys
    ensures CountsOf(labels)["neutral"] + CountsOf(labels)["negative"] + CountsOf(labels)["positive"] == |labels|
  {
    if |labels| > 0 {
      var init := labels[..|labels| - 1];
      var last := labels[|labels| - 1];
      assert labels == init + [last];
      FirstUnknownConcat(init, [last]);
      CountsAddUp(init);
      CountsStep(init, last);
    }
  }

  lemma {:induction false} AllLabelsCount(symbol: string, subreddits: seq<string>, limit: int,
                                          search: (string, string, int) -> Search, classify: string -> Scores)
    ensures |AllLabels(symbol, subreddits, limit, search, classify)| == TotalTexts(symbol, subreddits, limit, search)
  {
    if |subreddits| > 0 {
      AllLabelsCount(symbol, subreddits[..|subreddits| - 1], limit, search, classify);
    }
  }

  /** A successful tally has exactly the three keys, and its counts add up
      to the number of posts processed across all subreddits. */
  lemma TallyAddsUp(symbol: string, subreddits: seq<string>, limit: int,
                    search: (string, string, int) -> Search, classify: string -> Scores)
    requires Tally(AllLabels(symbol, subreddits, limit, search, classify)).Counts?
    ensures var c := Tally(AllLabels(symbol, subreddits, limit, search, classify)).counts;
            c.Keys == CountKeys &&
            c["neutral"] + c["negative"] + c["positive"] == TotalTexts(symbol, subreddits, limit, search)
  {
    var labels := AllLabels(symbol, subreddits, limit, search, classify);
    CountsAddUp(labels);
    AllLabelsCount(symbol, subreddits, limit, search, classify);
  }

  /** The tally is an error exactly when some post got a label that is no
      key, and the error names the first such label; no partial counts
      survive. */
  lemma TallyErrorIffUnknownLabel(labels: seq<string>)
    ensures Tally(labels).TallyError? <==> exists i :: 0 <= i < |labels| && labels[i] !in CountKeys
    ensures Tally(labels).TallyError? ==>
              exists i :: 0 <= i < |labels| && labels[i] !in CountKeys &&
                (forall j :: 0 <= j < i ==> labels[j] in CountKeys) &&
                Tally(labels).text == TallyErrorPrefix + "'" + labels[i] + "'"
  {
    FirstUnknownFinds(labels);
  }

  lemma {:induction false} FirstUnknownFinds(labels: seq<string>)
    ensures FirstUnknown(labels).None? <==> forall i :: 0 <= i < |labels| ==> labels[i] in CountKeys
    ensures FirstUnknown(labels).Some? ==>
              exists i :: 0 <= i < |labels| && labels[i] == FirstUnknown(labels).value &&
                labels[i] !in CountKeys && (forall j :: 0 <= j < i ==> labels[j] in CountKeys)
  {
    if |labels| > 0 {
      FirstUnknownFinds(labels[1..]);
      if labels[0] in CountKeys {
        if FirstUnknown(labels[1..]).Some? {
          var i :| 0 <= i < |labels[1..]| && labels[1..][i] == FirstUnknown(labels[1..]).value &&
                   labels[1..][i] !in CountKeys && (forall j :: 0 <= j < i ==> labels[1..][j] in CountKeys);
          assert labels[i + 1] == FirstUnknown(labels).value;
          assert forall j :: 0 <= j < i + 1 ==> labels[j] in CountKeys by {
            forall j | 0 <= j < i + 1 ensures labels[j] in CountKeys {
              if j > 0 { assert labels[j] == labels[1..][j - 1]; }
            }
          }
        } else {
          forall i | 0 <= i < |labels| ensures labels[i] in CountKeys {
            if i > 0 { assert labels[i] == labels[1..][i - 1]; }
          }
        }
      }
    }
  }

  /** With no subreddits, or none yielding a post, every count is zero. */
  lemma NoPostsAllZero(symbol: string, subreddits: seq<string>, limit: int,
                       search: (string, string, int) -> Search, classify: string -> Scores)
    requires TotalTexts(symbol, subreddits, limit, search) == 0
    ensures Tally(AllLabels(symbol, subreddits, limit, search, classify)) ==
              Counts(map["neutral" := 0, "negative" := 0, "positive" := 0])
  {
    AllLabelsCount(symbol, subreddits, limit, search, classify);
    NoLabelsNoCounts();
  }

  /** When the search for a subreddit fails, `get_reddit_posts` returns its
      error string and the loop classifies each of that string's characters
      as if it were a post title. */
  lemma FailedSearchClassifiesCharacters(message: string, classify: string -> Scores)
    ensures var text := PostsErrorPrefix + message;
            var labels := Classified(PostTexts(RedditPosts(SearchFailed(message))), classify);
            |labels| == |text| && |labels| >= 43 &&
            forall i :: 0 <= i < |text| ==> labels[i] == AnalyzeSentiment(classify, [text[i]])
  {
  }
}

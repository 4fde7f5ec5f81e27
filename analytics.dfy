/** The analytics endpoint of the backend: it folds every stored feedback
    record into the summary the admin dashboard displays (review count,
    average rating, sentiment and rating distributions, keyword frequencies,
    a week-over-week trend and a 14-day series of daily counts).

    Timestamps are integers counting microseconds; the current instant `now`
    is a parameter. Averages are exact reals; the source rounds them to one
    or two decimals for display, which the model does not do. */
module Analytics {
  import opened Base
  import opened SentimentRule

  const MicrosPerDay: int := 86_400_000_000
  const TopKeywordLimit: nat := 10
  const SeriesLength: nat := 14

  /** A stored feedback row; `createdAt` is absent when the column is null. */
  datatype FeedbackRow = FeedbackRow(
    id: int,
    rating: int,
    reviewText: string,
    aiResponse: Option<string>,
    aiSummary: Option<string>,
    recommendedActions: Option<seq<string>>,
    sentiment: Option<string>,
    keywords: Option<seq<string>>,
    createdAt: Option<int>)

  datatype KeywordStat = KeywordStat(keyword: string, count: nat, trend: string)

  /** One day of the series; `dayStart` is the midnight that opens the day
      (the source formats it as a "%b %d" label). */
  datatype DailyStats = DailyStats(dayStart: int, count: nat, avgRating: real)

  datatype RecentTrend = RecentTrend(change: real, direction: string)

  datatype AnalyticsResponse = AnalyticsResponse(
    totalReviews: nat,
    averageRating: real,
    sentimentDistribution: map<string, nat>,
    ratingDistribution: map<int, nat>,
    topKeywords: seq<KeywordStat>,
    recentTrend: RecentTrend,
    reviewsOverTime: seq<DailyStats>,
    positivePercentage: real,
    negativeCount: nat)

  const SentimentKeys: set<string> := {"positive", "negative", "neutral"}
  const RatingKeys: set<int> := {1, 2, 3, 4, 5}

  /** The reply for an empty table. */
  function EmptyAnalytics(): AnalyticsResponse
  {
    AnalyticsResponse(
      0, 0.0,
      map["positive" := 0, "negative" := 0, "neutral" := 0],
      map[1 := 0, 2 := 0, 3 := 0, 4 := 0, 5 := 0],
      [], RecentTrend(0.0, "stable"), [], 0.0, 0)
  }

  // ---------------------------------------------------------------------
  // Projections of the records

  /** The stored sentiment, or the rating rule when it is null or empty
      (Python's `or` treats both as false). */
  function EffectiveSentiment(f: FeedbackRow): string
  {
    if f.sentiment.Some? && f.sentiment.value != "" then f.sentiment.value else RatingSentiment(f.rating)
  }

  function Sentiments(fs: seq<FeedbackRow>): (r: seq<string>)
    ensures |r| == |fs|
    ensures forall i | 0 <= i < |fs| :: r[i] == EffectiveSentiment(fs[i])
  {
    seq(|fs|, i requires 0 <= i < |fs| => EffectiveSentiment(fs[i]))
  }

  function Ratings(fs: seq<FeedbackRow>): (r: seq<int>)
    ensures |r| == |fs|
    ensures forall i | 0 <= i < |fs| :: r[i] == fs[i].rating
  {
    seq(|fs|, i requires 0 <= i < |fs| => fs[i].rating)
  }

  function SumRatings(fs: seq<FeedbackRow>): int
  {
    if fs == [] then 0 else fs[0].rating + SumRatings(fs[1..])
  }

  /** The mean rating, 0 for no records. */
  function MeanRating(fs: seq<FeedbackRow>): real
  {
    if fs == [] then 0.0 else (SumRatings(fs) as real) / (|fs| as real)
  }

  /** The keywords a record contributes: none when the column is null. */
  function KeywordsOf(f: FeedbackRow): seq<string>
  {
    if f.keywords.Some? then f.keywords.value else []
  }

  /** All records' keyword lists, concatenated in record order. */
  function AllKeywords(fs: seq<FeedbackRow>): seq<string>
  {
    if fs == [] then [] else AllKeywords(fs[..|fs| - 1]) + KeywordsOf(fs[|fs| - 1])
  }

  /** Occurrences of `k`, summed record by record. */
  function KeywordOccurrences(fs: seq<FeedbackRow>, k: string): nat
  {
    if fs == [] then 0 else KeywordOccurrences(fs[..|fs| - 1], k) + Count(KeywordsOf(fs[|fs| - 1]), k)
  }

  // ---------------------------------------------------------------------
  // Counter.most_common

  /** Index of the first key with the largest count. */
  function ArgMax(keys: seq<string>, counts: map<string, nat>): (i: nat)
    requires |keys| > 0
    requires forall k | k in keys :: k in counts
    ensures i < |keys|
    ensures forall j | 0 <= j < |keys| :: counts[keys[j]] <= counts[keys[i]]
  {
    if |keys| == 1 then 0
    else
      var j := ArgMax(keys[1..], counts) + 1;
      assert keys[1..][j - 1] == keys[j];
      assert forall m | 1 <= m < |keys| :: keys[m] == keys[1..][m - 1];
      if counts[keys[j]] > counts[keys[0]] then j else 0
  }

  lemma RemoveAt(keys: seq<string>, i: nat)
    requires Distinct(keys) && i < |keys|
    ensures Distinct(keys[..i] + keys[i + 1..])
    ensures forall k :: k in keys[..i] + keys[i + 1..] <==> k in keys && k != keys[i]
  {
    var rest := keys[..i] + keys[i + 1..];
    assert forall m | 0 <= m < |rest| :: rest[m] == if m < i then keys[m] else keys[m + 1];
    forall k | k in keys && k != keys[i] ensures k in rest {
      var m :| 0 <= m < |keys| && keys[m] == k;
      if m < i { assert rest[m] == k; } else { assert rest[m - 1] == k; }
    }
  }

  /** `k` is one of the keywords listed in `top`. */
  predicate Listed(top: seq<(string, nat)>, k: string)
  {
    exists j | 0 <= j < |top| :: top[j].0 == k
  }

  /** The `n` most common keys with their counts, largest first; among equal
      counts the earlier key comes first, as in CPython, though the contract
      does not promise any tie order. */
  function MostCommon(keys: seq<string>, counts: map<string, nat>, n: nat): (top: seq<(string, nat)>)
    requires Distinct(keys)
    requires forall k | k in keys :: k in counts
    ensures IsTopList(top, keys, counts, Min(n, |keys|))
    decreases n
  {
    if n == 0 || keys == [] then []
    else
      var i := ArgMax(keys, counts);
      var rest := keys[..i] + keys[i + 1..];
      RemoveAt(keys, i);
      var tail := MostCommon(rest, counts, n - 1);
      MostCommonStep(keys, counts, i, rest, tail, Min(n - 1, |rest|));
      [(keys[i], counts[keys[i]])] + tail
  }

  /** `top` lists `len` distinct keys of `keys` with their counts, in
      non-increasing order of count, and no key left out counts more than any
      key listed. */
  ghost predicate IsTopList(top: seq<(string, nat)>, keys: seq<string>, counts: map<string, nat>, len: int)
    requires forall k | k in keys :: k in counts
  {
    && |top| == len
    && (forall i | 0 <= i < |top| :: top[i].0 in keys && top[i].1 == counts[top[i].0])
    && (forall i, j | 0 <= i < j < |top| :: top[i].0 != top[j].0)
    && (forall i, j | 0 <= i < j < |top| :: top[i].1 >= top[j].1)
    && (forall k, i | k in keys && !Listed(top, k) && 0 <= i < |top| :: counts[k] <= top[i].1)
  }

  lemma MostCommonStep(keys: seq<string>, counts: map<string, nat>, i: nat, rest: seq<string>,
                       tail: seq<(string, nat)>, len: int)
    requires forall k | k in keys :: k in counts
    requires i < |keys| && forall j | 0 <= j < |keys| :: counts[keys[j]] <= counts[keys[i]]
    requires forall k :: k in rest <==> k in keys && k != keys[i]
    requires IsTopList(tail, rest, counts, len)
    ensures IsTopList([(keys[i], counts[keys[i]])] + tail, keys, counts, len + 1)
  {
    var top := [(keys[i], counts[keys[i]])] + tail;
    assert forall j | 0 < j < |top| :: top[j] == tail[j - 1];
    assert forall j | 0 <= j < |tail| :: tail[j].0 in rest;
    forall j | 0 <= j < |top| ensures top[j].0 in keys && top[j].1 == counts[top[j].0] {
    }
    forall a, b | 0 <= a < b < |top| ensures top[a].0 != top[b].0 && top[a].1 >= top[b].1 {
      if a == 0 { assert top[b].0 in rest; }
    }
    forall k, j | k in keys && !Listed(top, k) && 0 <= j < |top| ensures counts[k] <= top[j].1 {
      assert top[0].0 == keys[i];
      assert k in rest && !Listed(tail, k) by {
        forall m | 0 <= m < |tail| ensures tail[m].0 != k {
          assert top[m + 1] == tail[m];
        }
      }
    }
  }

  /** The ten most frequent keywords, each with trend "stable". */
  function TopKeywords(fs: seq<FeedbackRow>): seq<KeywordStat>
  {
    var all := AllKeywords(fs);
    KeywordStats(MostCommon(Dedup(all), Tally(all, {}), TopKeywordLimit))
  }

  function KeywordStats(common: seq<(string, nat)>): (stats: seq<KeywordStat>)
    ensures |stats| == |common|
    ensures forall i | 0 <= i < |common| :: stats[i] == KeywordStat(common[i].0, common[i].1, "stable")
  {
    seq(|common|, i requires 0 <= i < |common| => KeywordStat(common[i].0, common[i].1, "stable"))
  }

  // ---------------------------------------------------------------------
  // Windows and the daily series

  /** Created within the last seven days. */
  predicate InRecentWindow(f: FeedbackRow, now: int)
  {
    f.createdAt.Some? && f.createdAt.value >= now - 7 * MicrosPerDay
  }

  /** Created in the seven days before that. */
  predicate InPreviousWindow(f: FeedbackRow, now: int)
  {
    f.createdAt.Some? && now - 14 * MicrosPerDay <= f.createdAt.value < now - 7 * MicrosPerDay
  }

  function RecentFeedbacks(fs: seq<FeedbackRow>, now: int): seq<FeedbackRow>
  {
    Filter(fs, f => InRecentWindow(f, now))
  }

  function PreviousFeedbacks(fs: seq<FeedbackRow>, now: int): seq<FeedbackRow>
  {
    Filter(fs, f => InPreviousWindow(f, now))
  }

  /** "up" above +0.1, "down" below -0.1, "stable" in between. */
  function Direction(change: real): string
  {
    if change > 0.1 then "up" else if change < -0.1 then "down" else "stable"
  }

  /** Midnight of the day `i` days before `now` (`replace(hour=0, ...)` on a
      naive UTC datetime). */
  function DayStart(now: int, i: int): int
  {
    Midnight(now - i * MicrosPerDay)
  }

  /** The midnight that opens the day holding `t`. */
  function Midnight(t: int): int
  {
    t - t % MicrosPerDay
  }

  predicate InSpan(f: FeedbackRow, lo: int, hi: int)
  {
    f.createdAt.Some? && lo <= f.createdAt.value < hi
  }

  /** The records created in [lo, hi). */
  function SpanFeedbacks(fs: seq<FeedbackRow>, lo: int, hi: int): seq<FeedbackRow>
  {
    Filter(fs, f => InSpan(f, lo, hi))
  }

  /** The records created during the day that starts at `start`. */
  function DayFeedbacks(fs: seq<FeedbackRow>, start: int): seq<FeedbackRow>
  {
    SpanFeedbacks(fs, start, start + MicrosPerDay)
  }

  function DailyStatsFor(fs: seq<FeedbackRow>, start: int): DailyStats
  {
    var d := DayFeedbacks(fs, start);
    DailyStats(start, |d|, MeanRating(d))
  }

  /** Entry `j` describes the day `13 - j` days before today, so the oldest
      day comes first. */
  function DailySeries(fs: seq<FeedbackRow>, now: int): seq<DailyStats>
  {
    seq(SeriesLength, j requires 0 <= j < SeriesLength => DailyStatsFor(fs, DayStart(now, SeriesLength - 1 - j)))
  }

  /** The whole reply, as a function of the records and the instant. */
  function SentimentDistribution(fs: seq<FeedbackRow>): map<string, nat>
  {
    Tally(Sentiments(fs), SentimentKeys)
  }

  function RatingDistribution(fs: seq<FeedbackRow>): map<int, nat>
  {
    Tally(Ratings(fs), RatingKeys)
  }

  /** Mean rating of the last seven days minus that of the seven before. */
  function Trend(fs: seq<FeedbackRow>, now: int): RecentTrend
  {
    var change := MeanRating(RecentFeedbacks(fs, now)) - MeanRating(PreviousFeedbacks(fs, now));
    RecentTrend(change, Direction(change))
  }

  function PositivePercentage(fs: seq<FeedbackRow>): real
    requires fs != []
  {
    assert "positive" in SentimentKeys;
    (SentimentDistribution(fs)["positive"] as real) / (|fs| as real) * 100.0
  }

  function NegativeCount(fs: seq<FeedbackRow>): nat
  {
    assert "negative" in SentimentKeys;
    SentimentDistribution(fs)["negative"]
  }

  /** The whole reply, as a function of the records and the instant. */
  function Analyze(fs: seq<FeedbackRow>, now: int): AnalyticsResponse
  {
    if fs == [] then EmptyAnalytics()
    else
      AnalyticsResponse(
        |fs|,
        MeanRating(fs),
        SentimentDistribution(fs),
        RatingDistribution(fs),
        TopKeywords(fs),
        Trend(fs, now),
        DailySeries(fs, now),
        PositivePercentage(fs),
        NegativeCount(fs))
  }

  // ---------------------------------------------------------------------
  // The endpoint, loop by loop

  lemma SentimentsSnoc(fs: seq<FeedbackRow>, i: nat)
    requires i < |fs|
    ensures Sentiments(fs[..i + 1]) == Sentiments(fs[..i]) + [EffectiveSentiment(fs[i])]
  {
    assert forall j | 0 <= j < i :: fs[..i + 1][j] == fs[..i][j];
  }

  lemma RatingsSnoc(fs: seq<FeedbackRow>, i: nat)
    requires i < |fs|
    ensures Ratings(fs[..i + 1]) == Ratings(fs[..i]) + [fs[i].rating]
  {
    assert forall j | 0 <= j < i :: fs[..i + 1][j] == fs[..i][j];
  }

  /** The dictionaries the loops start from are the counts of no rows. */
  lemma InitialCounts()
    ensures map["positive" := 0, "negative" := 0, "neutral" := 0] == Tally([], SentimentKeys)
    ensures map[1 := 0, 2 := 0, 3 := 0, 4 := 0, 5 := 0] == Tally([], RatingKeys)
  {
    assert Elements<string>([]) == {};
    assert Elements<int>([]) == {};
  }

  method CountSentiments(feedbacks: seq<FeedbackRow>) returns (counts: map<string, nat>)
    ensures counts == Tally(Sentiments(feedbacks), SentimentKeys)
  {
    counts := map["positive" := 0, "negative" := 0, "neutral" := 0];
    ghost var init := counts;
    assert Sentiments(feedbacks[..0]) == [];
    for i := 0 to |feedbacks|
      invariant counts == CountInto(Sentiments(feedbacks[..i]), init)
    {
      var sentiment := EffectiveSentiment(feedbacks[i]);
      SentimentsSnoc(feedbacks, i);
      CountIntoSnoc(Sentiments(feedbacks[..i]), sentiment, init);
      counts := counts[sentiment := (if sentiment in counts then counts[sentiment] else 0) + 1];
    }
    assert feedbacks[..|feedbacks|] == feedbacks;
    InitialCounts();
    CountIntoIsTally(Sentiments(feedbacks), SentimentKeys);
  }

  method CountRatings(feedbacks: seq<FeedbackRow>) returns (counts: map<int, nat>)
    ensures counts == Tally(Ratings(feedbacks), RatingKeys)
  {
    counts := map[1 := 0, 2 := 0, 3 := 0, 4 := 0, 5 := 0];
    ghost var init := counts;
    assert Ratings(feedbacks[..0]) == [];
    for i := 0 to |feedbacks|
      invariant counts == CountInto(Ratings(feedbacks[..i]), init)
    {
      var rating := feedbacks[i].rating;
      RatingsSnoc(feedbacks, i);
      CountIntoSnoc(Ratings(feedbacks[..i]), rating, init);
      counts := counts[rating := (if rating in counts then counts[rating] else 0) + 1];
    }
    assert feedbacks[..|feedbacks|] == feedbacks;
    InitialCounts();
    CountIntoIsTally(Ratings(feedbacks), RatingKeys);
  }

  method CollectKeywords(feedbacks: seq<FeedbackRow>) returns (allKeywords: seq<string>)
    ensures allKeywords == AllKeywords(feedbacks)
  {
    allKeywords := [];
    for i := 0 to |feedbacks|
      invariant allKeywords == AllKeywords(feedbacks[..i])
    {
      var f := feedbacks[i];
      assert feedbacks[..i + 1][..i] == feedbacks[..i];
      if f.keywords.Some? && f.keywords.value != [] {
        allKeywords := allKeywords + f.keywords.value;
      } else {
        assert KeywordsOf(f) == [];
      }
    }
    assert feedbacks[..|feedbacks|] == feedbacks;
  }

  method ReviewsOverTime(feedbacks: seq<FeedbackRow>, now: int) returns (days: seq<DailyStats>)
    ensures days == DailySeries(feedbacks, now)
  {
    days := [];
    var i := 13;
    while i >= 0
      invariant -1 <= i <= 13
      invariant |days| == 13 - i
      invariant forall j | 0 <= j < |days| :: days[j] == DailyStatsFor(feedbacks, DayStart(now, 13 - j))
    {
      var day := now - i * MicrosPerDay;
      var dayStart := day - day % MicrosPerDay;
      var dayFeedbacks := DayFeedbacks(feedbacks, dayStart);
      var count := |dayFeedbacks|;
      var avg := if count > 0 then (SumRatings(dayFeedbacks) as real) / (count as real) else 0.0;
      days := days + [DailyStats(dayStart, count, avg)];
      i := i - 1;
    }
  }

  /** The week-over-week comparison of mean ratings. */
  method RecentTrendOf(feedbacks: seq<FeedbackRow>, now: int) returns (t: RecentTrend)
    ensures t == Trend(feedbacks, now)
  {
    var recent := RecentFeedbacks(feedbacks, now);
    var previous := PreviousFeedbacks(feedbacks, now);
    var recentAvg := if |recent| > 0 then (SumRatings(recent) as real) / (|recent| as real) else 0.0;
    var previousAvg := if |previous| > 0 then (SumRatings(previous) as real) / (|previous| as real) else 0.0;
    var change := recentAvg - previousAvg;
    var direction := if change > 0.1 then "up" else if change < -0.1 then "down" else "stable";
    t := RecentTrend(change, direction);
  }

  /** GET /analytics/. */
  method GetAnalytics(feedbacks: seq<FeedbackRow>, now: int) returns (r: AnalyticsResponse)
    ensures r == Analyze(feedbacks, now)
  {
    if feedbacks == [] {
      return EmptyAnalytics();
    }
    var totalReviews := |feedbacks|;
    var averageRating := (SumRatings(feedbacks) as real) / (totalReviews as real);
    assert averageRating == MeanRating(feedbacks);

    var sentimentCounts := CountSentiments(feedbacks);
    var ratingCounts := CountRatings(feedbacks);

    var allKeywords := CollectKeywords(feedbacks);
    var common := MostCommon(Dedup(allKeywords), Tally(allKeywords, {}), TopKeywordLimit);
    var topKeywords := KeywordStats(common);
    assert topKeywords == TopKeywords(feedbacks);

    var recentTrend := RecentTrendOf(feedbacks, now);

    var reviewsOverTime := ReviewsOverTime(feedbacks, now);

    assert "positive" in SentimentKeys && "negative" in SentimentKeys;
    var positiveCount := sentimentCounts["positive"];
    var negativeCount := sentimentCounts["negative"];
    var positivePercentage := (positiveCount as real) / (totalReviews as real) * 100.0;
    assert positivePercentage == PositivePercentage(feedbacks);
    assert negativeCount == NegativeCount(feedbacks);

    r := AnalyticsResponse(
      totalReviews, averageRating, sentimentCounts, ratingCounts, topKeywords,
      recentTrend, reviewsOverTime, positivePercentage, negativeCount);
  }

  // ---------------------------------------------------------------------
  // Properties of the reply

  /** No records: zero counts everywhere, no keywords, no series, "stable". */
  lemma EmptyInputFallback(now: int)
    ensures var r := Analyze([], now);
      && r.totalReviews == 0 && r.negativeCount == 0
      && r.sentimentDistribution.Keys == SentimentKeys
      && (forall k | k in SentimentKeys :: r.sentimentDistribution[k] == 0)
      && r.ratingDistribution.Keys == RatingKeys
      && (forall k | k in RatingKeys :: r.ratingDistribution[k] == 0)
      && r.topKeywords == [] && r.reviewsOverTime == []
      && r.recentTrend.direction == "stable"
  {
  }

  /** The sentiment and rating distributions: the three sentiments and the
      five ratings are always keys, any other key is a value some record
      carries, and each key counts the records that carry it. */
  lemma CountsPerKey(fs: seq<FeedbackRow>)
    ensures SentimentKeys <= SentimentDistribution(fs).Keys
    ensures forall k | k in SentimentDistribution(fs) ::
      SentimentDistribution(fs)[k] == Count(Sentiments(fs), k) && (k in SentimentKeys || SentimentDistribution(fs)[k] > 0)
    ensures RatingKeys <= RatingDistribution(fs).Keys
    ensures forall k | k in RatingDistribution(fs) ::
      RatingDistribution(fs)[k] == Count(Ratings(fs), k) && (k in RatingKeys || RatingDistribution(fs)[k] > 0)
  {
    forall k | k in SentimentDistribution(fs) && k !in SentimentKeys
      ensures Count(Sentiments(fs), k) > 0
    {
      CountPositiveIsMember(Sentiments(fs), k);
    }
    forall k | k in RatingDistribution(fs) && k !in RatingKeys
      ensures Count(Ratings(fs), k) > 0
    {
      CountPositiveIsMember(Ratings(fs), k);
    }
  }

  /** Each record adds exactly one to the entry of its effective sentiment
      and leaves the other entries alone. */
  lemma SentimentCountsStep(fs: seq<FeedbackRow>, f: FeedbackRow)
    ensures var before, after := SentimentDistribution(fs), SentimentDistribution(fs + [f]);
      var s := EffectiveSentiment(f);
      && s in after && after[s] == (if s in before then before[s] else 0) + 1
      && (forall k | k in after && k != s :: k in before && after[k] == before[k])
  {
    assert Sentiments(fs + [f]) == Sentiments(fs) + [EffectiveSentiment(f)];
    TallySnoc(Sentiments(fs), EffectiveSentiment(f), SentimentKeys);
  }

  /** Summing the sentiment distribution over any enumeration of its keys
      gives the number of records: every record is counted exactly once. */
  lemma SentimentCountsSumToTotal(fs: seq<FeedbackRow>, ks: seq<string>)
    requires Distinct(ks) && Elements(ks) == SentimentDistribution(fs).Keys
    ensures forall k | k in ks :: k in SentimentDistribution(fs)
    ensures SumOver(SentimentDistribution(fs), ks) == |fs|
  {
    TallySumsToLength(Sentiments(fs), SentimentKeys, ks);
  }

  /** Summing the rating distribution over any enumeration of its keys
      gives the number of records, whatever integers the ratings are. */
  lemma RatingCountsSumToTotal(fs: seq<FeedbackRow>, ks: seq<int>)
    requires Distinct(ks) && Elements(ks) == RatingDistribution(fs).Keys
    ensures forall k | k in ks :: k in RatingDistribution(fs)
    ensures SumOver(RatingDistribution(fs), ks) == |fs|
  {
    TallySumsToLength(Ratings(fs), RatingKeys, ks);
  }

  /** When every stored sentiment is one of the three (or missing), the
      distribution has exactly those keys and they add up to the total. */
  lemma ValidSentimentsPartitionTotal(fs: seq<FeedbackRow>)
    requires forall f | f in fs :: f.sentiment.None? || f.sentiment.value == "" || IsValidSentiment(f.sentiment.value)
    ensures var d := SentimentDistribution(fs);
      && d.Keys == SentimentKeys
      && d["positive"] + d["negative"] + d["neutral"] == |fs|
  {
    var d := SentimentDistribution(fs);
    forall k | k in Elements(Sentiments(fs)) ensures k in SentimentKeys {
      var i :| 0 <= i < |fs| && Sentiments(fs)[i] == k;
      assert fs[i] in fs;
    }
    var ks := ["positive", "negative", "neutral"];
    assert Elements(ks) == SentimentKeys;
    SentimentCountsSumToTotal(fs, ks);
    SumOverThree(d);
  }

  lemma SumOverThree(d: map<string, nat>)
    requires SentimentKeys <= d.Keys
    ensures SumOver(d, ["positive", "negative", "neutral"]) == d["positive"] + d["negative"] + d["neutral"]
  {
    var ks := ["positive", "negative", "neutral"];
    assert ks[1..] == ["negative", "neutral"];
    assert ks[1..][1..] == ["neutral"];
    assert ks[1..][1..][1..] == [];
    assert SumOver(d, ["neutral"]) == d["neutral"];
    assert SumOver(d, ["negative", "neutral"]) == d["negative"] + d["neutral"];
  }

  /** When every rating is between 1 and 5, the rating distribution has
      exactly the keys 1..5 and its values add up to the total. */
  lemma ValidRatingsPartitionTotal(fs: seq<FeedbackRow>)
    requires forall f | f in fs :: 1 <= f.rating <= 5
    ensures var d := RatingDistribution(fs);
      && d.Keys == RatingKeys
      && d[1] + d[2] + d[3] + d[4] + d[5] == |fs|
  {
    var d := RatingDistribution(fs);
    forall k | k in Elements(Ratings(fs)) ensures k in RatingKeys {
      var i :| 0 <= i < |fs| && Ratings(fs)[i] == k;
      assert fs[i] in fs;
    }
    var ks := [1, 2, 3, 4, 5];
    assert Elements(ks) == RatingKeys;
    TallySumsToLength(Ratings(fs), RatingKeys, ks);
    SumOverFive(d);
  }

  lemma SumOverFive(d: map<int, nat>)
    requires RatingKeys <= d.Keys
    ensures SumOver(d, [1, 2, 3, 4, 5]) == d[1] + d[2] + d[3] + d[4] + d[5]
  {
    var ks := [1, 2, 3, 4, 5];
    assert ks[1..] == [2, 3, 4, 5];
    assert ks[1..][1..] == [3, 4, 5];
    assert ks[1..][1..][1..] == [4, 5];
    assert ks[1..][1..][1..][1..] == [5];
    assert ks[1..][1..][1..][1..][1..] == [];
    assert SumOver(d, [5]) == d[5];
    assert SumOver(d, [4, 5]) == d[4] + d[5];
    assert SumOver(d, [3, 4, 5]) == d[3] + d[4] + d[5];
    assert SumOver(d, [2, 3, 4, 5]) == d[2] + d[3] + d[4] + d[5];
  }

  /** The keyword counter counts every occurrence in every record's list;
      records with a null or empty list add nothing. */
  lemma {:induction false} KeywordCountIsOccurrences(fs: seq<FeedbackRow>, k: string)
    ensures Count(AllKeywords(fs), k) == KeywordOccurrences(fs, k)
  {
    if fs != [] {
      KeywordCountIsOccurrences(fs[..|fs| - 1], k);
      CountAppend(AllKeywords(fs[..|fs| - 1]), KeywordsOf(fs[|fs| - 1]), k);
    }
  }

  /** At most ten keywords, distinct, with non-increasing counts equal to
      their occurrences, trend "stable", and no omitted keyword more
      frequent than a listed one. */
  lemma TopKeywordsAreMostFrequent(fs: seq<FeedbackRow>)
    ensures var t := TopKeywords(fs);
      && |t| == Min(TopKeywordLimit, |Dedup(AllKeywords(fs))|)
      && (forall i | 0 <= i < |t| :: t[i].trend == "stable" && t[i].count == KeywordOccurrences(fs, t[i].keyword) > 0)
      && (forall i, j | 0 <= i < j < |t| :: t[i].keyword != t[j].keyword && t[i].count >= t[j].count)
      && (forall k, i | 0 <= i < |t| && KeywordOccurrences(fs, k) > 0 && (forall j | 0 <= j < |t| :: t[j].keyword != k) ::
            KeywordOccurrences(fs, k) <= t[i].count)
  {
    var all := AllKeywords(fs);
    var keys, counts := Dedup(all), Tally(all, {});
    var common := MostCommon(keys, counts, TopKeywordLimit);
    var t := TopKeywords(fs);
    assert t == KeywordStats(common);
    forall i | 0 <= i < |t| ensures t[i].count == KeywordOccurrences(fs, t[i].keyword) > 0 {
      KeywordCountIsOccurrences(fs, t[i].keyword);
      CountPositiveIsMember(all, t[i].keyword);
    }
    forall k, i | 0 <= i < |t| && KeywordOccurrences(fs, k) > 0 && (forall j | 0 <= j < |t| :: t[j].keyword != k)
      ensures KeywordOccurrences(fs, k) <= t[i].count
    {
      KeywordCountIsOccurrences(fs, k);
      CountPositiveIsMember(all, k);
      assert k in keys;
      assert !Listed(common, k);
    }
  }

  /** The two trend windows never share a record, and a record without a
      creation time is in neither. */
  lemma WindowsDisjoint(fs: seq<FeedbackRow>, now: int)
    ensures forall f | f in RecentFeedbacks(fs, now) :: f !in PreviousFeedbacks(fs, now)
    ensures forall f | f in fs && f.createdAt.None? :: f !in RecentFeedbacks(fs, now) && f !in PreviousFeedbacks(fs, now)
  {
  }

  lemma ModShift(t: int, i: int)
    ensures (t - i * MicrosPerDay) % MicrosPerDay == t % MicrosPerDay
  {
    var q, m := t / MicrosPerDay, t % MicrosPerDay;
    assert t - i * MicrosPerDay == (q - i) * MicrosPerDay + m;
    assert 0 <= m < MicrosPerDay;
  }

  /** Truncating to midnight commutes with moving back whole days. */
  lemma DayStartIsShiftedMidnight(now: int, i: int)
    ensures DayStart(now, i) == Midnight(now) - i * MicrosPerDay
    ensures Midnight(now) <= now < Midnight(now) + MicrosPerDay
  {
    ModShift(now, i);
  }

  /** Entry `j` of the series describes the whole day starting
      `13 - j` days before today's midnight. */
  lemma SeriesEntry(fs: seq<FeedbackRow>, now: int, j: int)
    requires 0 <= j < SeriesLength
    ensures |DailySeries(fs, now)| == SeriesLength
    ensures DailySeries(fs, now)[j] == DailyStatsFor(fs, Midnight(now) - (SeriesLength - 1 - j) * MicrosPerDay)
  {
    DayStartIsShiftedMidnight(now, SeriesLength - 1 - j);
  }

  /** Fourteen consecutive whole days, oldest first, the last one holding
      `now`; each entry counts the records created during its day. */
  lemma SeriesShape(fs: seq<FeedbackRow>, now: int)
    ensures var s := DailySeries(fs, now);
      && |s| == SeriesLength
      && (forall j | 0 <= j < |s| ::
            s[j].dayStart == Midnight(now) - (SeriesLength - 1 - j) * MicrosPerDay
            && s[j].count == |DayFeedbacks(fs, s[j].dayStart)|)
      && (forall j | 0 <= j < |s| - 1 :: s[j + 1].dayStart == s[j].dayStart + MicrosPerDay)
      && s[|s| - 1].dayStart <= now < s[|s| - 1].dayStart + MicrosPerDay
  {
    var s := DailySeries(fs, now);
    forall j | 0 <= j < SeriesLength
      ensures s[j].dayStart == Midnight(now) - (SeriesLength - 1 - j) * MicrosPerDay
      ensures s[j].count == |DayFeedbacks(fs, s[j].dayStart)|
    {
      SeriesEntry(fs, now, j);
    }
    forall j | 0 <= j < SeriesLength - 1
      ensures s[j + 1].dayStart == s[j].dayStart + MicrosPerDay
    {
      assert (SeriesLength - 1 - j) * MicrosPerDay == (SeriesLength - 1 - (j + 1)) * MicrosPerDay + MicrosPerDay;
    }
    DayStartIsShiftedMidnight(now, 0);
  }

  /** Two different days of the series never count the same record. */
  lemma SeriesBucketsDisjoint(fs: seq<FeedbackRow>, now: int, j: int, k: int, f: FeedbackRow)
    requires 0 <= j < k < SeriesLength
    requires f in DayFeedbacks(fs, DailySeries(fs, now)[j].dayStart)
    ensures f !in DayFeedbacks(fs, DailySeries(fs, now)[k].dayStart)
  {
    SeriesShape(fs, now);
  }

  lemma {:induction false} SpanSplit(fs: seq<FeedbackRow>, lo: int, mid: int, hi: int)
    requires lo <= mid <= hi
    ensures |SpanFeedbacks(fs, lo, hi)| == |SpanFeedbacks(fs, lo, mid)| + |SpanFeedbacks(fs, mid, hi)|
  {
    if fs != [] {
      SpanSplit(fs[1..], lo, mid, hi);
    }
  }

  function SeriesTotal(days: seq<DailyStats>): nat
  {
    if days == [] then 0 else SeriesTotal(days[..|days| - 1]) + days[|days| - 1].count
  }

  lemma {:induction false} SeriesPrefixTotal(fs: seq<FeedbackRow>, now: int, n: nat)
    requires n <= SeriesLength
    ensures var first := Midnight(now) - (SeriesLength - 1) * MicrosPerDay;
      SeriesTotal(DailySeries(fs, now)[..n]) == |SpanFeedbacks(fs, first, first + n * MicrosPerDay)|
  {
    var s := DailySeries(fs, now);
    var first := Midnight(now) - (SeriesLength - 1) * MicrosPerDay;
    if n == 0 {
      assert s[..0] == [];
      SpanSplit(fs, first, first, first);
    } else {
      SeriesPrefixTotal(fs, now, n - 1);
      assert s[..n][..n - 1] == s[..n - 1];
      SeriesEntry(fs, now, n - 1);
      assert (SeriesLength - 1 - (n - 1)) * MicrosPerDay == (SeriesLength - 1) * MicrosPerDay - (n - 1) * MicrosPerDay;
      assert s[n - 1].dayStart == first + (n - 1) * MicrosPerDay;
      assert first + n * MicrosPerDay == first + (n - 1) * MicrosPerDay + MicrosPerDay;
      SpanSplit(fs, first, first + (n - 1) * MicrosPerDay, first + n * MicrosPerDay);
    }
  }

  /** The daily counts add up to the number of records created in the
      fortnight the series covers: the days partition that span. */
  lemma SeriesCountsPartitionFortnight(fs: seq<FeedbackRow>, now: int)
    ensures var first := Midnight(now) - (SeriesLength - 1) * MicrosPerDay;
      SeriesTotal(DailySeries(fs, now)) == |SpanFeedbacks(fs, first, first + SeriesLength * MicrosPerDay)|
  {
    SeriesPrefixTotal(fs, now, SeriesLength);
    assert DailySeries(fs, now)[..SeriesLength] == DailySeries(fs, now);
  }

  /** The trend direction follows the thresholds of the change. */
  lemma TrendDirection(fs: seq<FeedbackRow>, now: int)
    ensures var t := Trend(fs, now);
      && (t.direction == "up" <==> t.change > 0.1)
      && (t.direction == "down" <==> t.change < -0.1)
      && (t.direction == "stable" <==> -0.1 <= t.change <= 0.1)
  {
  }

  /** Ratings between 1 and 5 give a sum between 1 and 5 per record. */
  lemma {:induction false} SumRatingsBounds(fs: seq<FeedbackRow>)
    requires forall f | f in fs :: 1 <= f.rating <= 5
    ensures |fs| <= SumRatings(fs) <= 5 * |fs|
  {
    if fs != [] {
      assert fs[0] in fs;
      assert forall f | f in fs[1..] :: f in fs;
      SumRatingsBounds(fs[1..]);
    }
  }

  /** With ratings between 1 and 5 the mean of a non-empty list lies
      between 1 and 5, and that of the empty list is 0. */
  lemma MeanRatingBounds(fs: seq<FeedbackRow>)
    requires forall f | f in fs :: 1 <= f.rating <= 5
    ensures fs == [] ==> MeanRating(fs) == 0.0
    ensures fs != [] ==> 1.0 <= MeanRating(fs) <= 5.0
  {
    if fs != [] {
      SumRatingsBounds(fs);
      QuotientBounds(SumRatings(fs) as real, |fs| as real);
    }
  }

  lemma QuotientBounds(sum: real, n: real)
    requires 0.0 < n <= sum <= 5.0 * n
    ensures 1.0 <= sum / n <= 5.0
  {
    var q := sum / n;
    assert q * n == sum;
    assert (q - 1.0) * n == sum - n >= 0.0;
    assert (5.0 - q) * n == 5.0 * n - sum >= 0.0;
    PositiveFactor(q - 1.0, n);
    PositiveFactor(5.0 - q, n);
  }

  lemma PositiveFactor(a: real, n: real)
    requires n > 0.0 && a * n >= 0.0
    ensures a >= 0.0
  {
  }

  /** With ratings between 1 and 5 the week-over-week change lies within
      [-4, 4] when both weeks have reviews, and within [-5, 5] always (an
      empty week averages 0). */
  lemma TrendChangeBounds(fs: seq<FeedbackRow>, now: int)
    requires forall f | f in fs :: 1 <= f.rating <= 5
    ensures -5.0 <= Trend(fs, now).change <= 5.0
    ensures RecentFeedbacks(fs, now) != [] && PreviousFeedbacks(fs, now) != [] ==>
      -4.0 <= Trend(fs, now).change <= 4.0
  {
    MeanRatingBounds(RecentFeedbacks(fs, now));
    MeanRatingBounds(PreviousFeedbacks(fs, now));
  }

  /** A non-empty reply is assembled from the functions above. */
  lemma ReplyFields(fs: seq<FeedbackRow>, now: int)
    requires fs != []
    ensures var r := Analyze(fs, now);
      && r.totalReviews == |fs|
      && r.sentimentDistribution == SentimentDistribution(fs)
      && r.ratingDistribution == RatingDistribution(fs)
      && r.topKeywords == TopKeywords(fs)
      && r.recentTrend == Trend(fs, now)
      && r.reviewsOverTime == DailySeries(fs, now)
      && r.negativeCount == r.sentimentDistribution["negative"]
  {
  }
}

/** The admin overview: the refresh that loads the list and the analytics
    together, the topic buttons that drive the search, the ten most recent
    matching reviews, the chart data and the metric cards' trend colours. */
module AdminPage {
  import opened Base
  import opened SentimentRule
  import opened FeedbackFilter
  import opened Analytics

  const RecentLimit: nat := 10

  // ---------------------------------------------------------------------
  // Chart data

  /** One slice of the sentiment donut. `value` is None where the key is
      missing from the distribution (`undefined` in the page). */
  datatype Slice = Slice(caption: string, value: Option<nat>, color: string)

  /** One point of the reviews-over-time line. */
  datatype Point = Point(day: int, value: nat)

  function Lookup(m: map<string, nat>, k: string): Option<nat>
  {
    if k in m then Some(m[k]) else None
  }

  /** No analytics, no slices; otherwise positive, neutral and negative in
      that order, coloured green, yellow and red. */
  function SatisfactionData(analytics: Option<AnalyticsResponse>): (r: seq<Slice>)
    ensures analytics.None? ==> r == []
    ensures analytics.Some? ==> (
      && |r| == 3
      && r[0] == Slice("Positive", Lookup(analytics.value.sentimentDistribution, "positive"), "#22c55e")
      && r[1] == Slice("Neutral", Lookup(analytics.value.sentimentDistribution, "neutral"), "#eab308")
      && r[2] == Slice("Negative", Lookup(analytics.value.sentimentDistribution, "negative"), "#ef4444"))
  {
    match analytics
    case None => []
    case Some(a) =>
      var d := a.sentimentDistribution;
      [Slice("Positive", Lookup(d, "positive"), "#22c55e"),
       Slice("Neutral", Lookup(d, "neutral"), "#eab308"),
       Slice("Negative", Lookup(d, "negative"), "#ef4444")]
  }

  /** The series as (day, count) points, in the same order. */
  function TrendData(analytics: Option<AnalyticsResponse>): (r: seq<Point>)
    ensures analytics.None? ==> r == []
    ensures analytics.Some? ==> (
      && |r| == |analytics.value.reviewsOverTime|
      && forall j | 0 <= j < |r| ::
           r[j] == Point(analytics.value.reviewsOverTime[j].dayStart, analytics.value.reviewsOverTime[j].count))
  {
    match analytics
    case None => []
    case Some(a) =>
      seq(|a.reviewsOverTime|, j requires 0 <= j < |a.reviewsOverTime| =>
        Point(a.reviewsOverTime[j].dayStart, a.reviewsOverTime[j].count))
  }

  /** On the backend's reply, for any store, all three slices have a value. */
  lemma SatisfactionHasValues(fs: seq<FeedbackRow>, now: int)
    ensures var r := SatisfactionData(Some(Analyze(fs, now)));
      |r| == 3 && r[0].value.Some? && r[1].value.Some? && r[2].value.Some?
  {
    if fs != [] {
      ReplyFields(fs, now);
      CountsPerKey(fs);
    }
  }

  /** When every stored sentiment is valid (or missing), the three slices
      have values and account for every review. */
  lemma SatisfactionCoversReviews(fs: seq<FeedbackRow>, now: int)
    requires forall f | f in fs :: f.sentiment.None? || f.sentiment.value == "" || IsValidSentiment(f.sentiment.value)
    ensures var r := SatisfactionData(Some(Analyze(fs, now)));
      && |r| == 3 && r[0].value.Some? && r[1].value.Some? && r[2].value.Some?
      && r[0].value.value + r[1].value.value + r[2].value.value == |fs|
  {
    if fs != [] {
      ReplyFields(fs, now);
      ValidSentimentsPartitionTotal(fs);
    }
  }

  /** For a non-empty store the line has fourteen points, one per day,
      oldest first, each counting the reviews created that day. */
  lemma TrendDataIsFortnight(fs: seq<FeedbackRow>, now: int)
    requires fs != []
    ensures var r := TrendData(Some(Analyze(fs, now)));
      && |r| == SeriesLength
      && (forall j | 0 <= j < |r| - 1 :: r[j + 1].day == r[j].day + MicrosPerDay)
      && (forall j | 0 <= j < |r| :: r[j].value == |DayFeedbacks(fs, r[j].day)|)
  {
    ReplyFields(fs, now);
    SeriesPoints(Analyze(fs, now), fs, now);
  }

  lemma SeriesPoints(a: AnalyticsResponse, fs: seq<FeedbackRow>, now: int)
    requires a.reviewsOverTime == DailySeries(fs, now)
    ensures var r := TrendData(Some(a));
      && |r| == SeriesLength
      && (forall j | 0 <= j < |r| - 1 :: r[j + 1].day == r[j].day + MicrosPerDay)
      && (forall j | 0 <= j < |r| :: r[j].value == |DayFeedbacks(fs, r[j].day)|)
  {
    SeriesShape(fs, now);
    var s := a.reviewsOverTime;
    var r := TrendData(Some(a));
    forall j | 0 <= j < |r| ensures r[j].day == s[j].dayStart && r[j].value == s[j].count {
    }
  }

  // ---------------------------------------------------------------------
  // Metric cards

  datatype TrendTone = Positive | Negative | Muted
  datatype TrendIcon = TrendingUp | TrendingDown | Level

  datatype CardStyle = CardStyle(tone: TrendTone, icon: TrendIcon)

  /** "up" is green with a rising arrow, "down" red with a falling one, and
      `inverseTrend` swaps the two; any other trend is muted and level. */
  function MetricCardStyle(trend: string, inverseTrend: bool): (c: CardStyle)
    ensures trend != "up" && trend != "down" ==> c == CardStyle(Muted, Level)
    ensures trend == "up" ==> c == if inverseTrend then CardStyle(Negative, TrendingDown) else CardStyle(Positive, TrendingUp)
    ensures trend == "down" ==> c == if inverseTrend then CardStyle(Positive, TrendingUp) else CardStyle(Negative, TrendingDown)
  {
    if trend == "up" then
      (if inverseTrend then CardStyle(Negative, TrendingDown) else CardStyle(Positive, TrendingUp))
    else if trend == "down" then
      (if inverseTrend then CardStyle(Positive, TrendingUp) else CardStyle(Negative, TrendingDown))
    else CardStyle(Muted, Level)
  }

  function Swapped(c: CardStyle): CardStyle
  {
    match c.tone
    case Positive => CardStyle(Negative, TrendingDown)
    case Negative => CardStyle(Positive, TrendingUp)
    case Muted => c
  }

  /** Inverting a card swaps its colour and arrow and changes nothing for
      other trends. */
  lemma InverseTrendSwaps(trend: string)
    ensures MetricCardStyle(trend, true) == Swapped(MetricCardStyle(trend, false))
    ensures Swapped(Swapped(MetricCardStyle(trend, false))) == MetricCardStyle(trend, false)
  {
  }

  /** The "Total Reviews" card follows the recent trend's direction, "stable"
      when there are no analytics or the direction is empty. */
  function TotalReviewsTrend(analytics: Option<AnalyticsResponse>): (t: string)
    ensures analytics.None? ==> t == "stable"
    ensures analytics.Some? && analytics.value.recentTrend.direction != "" ==> t == analytics.value.recentTrend.direction
    ensures analytics.Some? && analytics.value.recentTrend.direction == "" ==> t == "stable"
  {
    if analytics.Some? && analytics.value.recentTrend.direction != "" then analytics.value.recentTrend.direction
    else "stable"
  }

  /** The "Average Rating" card: up from 4, down up to 3, stable between and
      without analytics. */
  function AverageRatingTrend(analytics: Option<AnalyticsResponse>): (t: string)
    ensures t == "up" <==> analytics.Some? && analytics.value.averageRating >= 4.0
    ensures t == "down" <==> analytics.Some? && analytics.value.averageRating <= 3.0
    ensures t == "stable" <==> analytics.None? || 3.0 < analytics.value.averageRating < 4.0
  {
    if analytics.None? then "stable"
    else if analytics.value.averageRating >= 4.0 then "up"
    else if analytics.value.averageRating <= 3.0 then "down"
    else "stable"
  }

  /** The "Needs Attention" card is "down" exactly when there are negative
      reviews. */
  function NeedsAttentionTrend(analytics: Option<AnalyticsResponse>): (t: string)
    ensures t == "down" <==> analytics.Some? && analytics.value.negativeCount > 0
    ensures t != "down" ==> t == "stable"
  {
    if analytics.Some? && analytics.value.negativeCount > 0 then "down" else "stable"
  }

  /** The card is inverted, so negative reviews show a green rising arrow
      and none a muted level one. */
  lemma NeedsAttentionStyle(analytics: Option<AnalyticsResponse>)
    ensures analytics.Some? && analytics.value.negativeCount > 0 ==>
      MetricCardStyle(NeedsAttentionTrend(analytics), true) == CardStyle(Positive, TrendingUp)
    ensures !(analytics.Some? && analytics.value.negativeCount > 0) ==>
      MetricCardStyle(NeedsAttentionTrend(analytics), true) == CardStyle(Muted, Level)
  {
  }

  /** For the backend's reply the card counts the negative sentiments; an
      empty store gives the fixed reply and a "stable" card. */
  lemma NeedsAttentionCountsNegatives(fs: seq<FeedbackRow>, now: int)
    ensures NeedsAttentionTrend(Some(Analyze(fs, now))) == "down" <==> Count(Sentiments(fs), "negative") > 0
  {
    if fs != [] {
      ReplyFields(fs, now);
      CountsPerKey(fs);
    }
  }

  // ---------------------------------------------------------------------
  // Topics

  /** Clicking a topic selects it, or clears the search when it is the
      current query. */
  function ToggledQuery(query: string, keyword: string): string
  {
    if query == keyword then "" else keyword
  }

  /** Clicking the same topic twice restores the search when the topic was
      selected and clears it otherwise; a non-empty topic ends up selected
      after one click exactly when it was not; a third click repeats the
      first. */
  lemma ToggleTwice(query: string, keyword: string)
    ensures ToggledQuery(ToggledQuery(query, keyword), keyword) == if query == keyword then keyword else ""
    ensures keyword != "" ==> (ToggledQuery(query, keyword) == keyword <==> query != keyword)
    ensures ToggledQuery(ToggledQuery(ToggledQuery(query, keyword), keyword), keyword) == ToggledQuery(query, keyword)
  {
  }

  class AdminDashboard {
    var feedbacks: seq<FeedbackItem>
    var analytics: Option<AnalyticsResponse>
    var isLoading: bool
    var lastUpdated: Option<int>
    var filterRating: Option<int>
    var searchQuery: string
    var selectedReview: Option<FeedbackItem>

    constructor()
      ensures feedbacks == [] && analytics.None? && isLoading && lastUpdated.None?
      ensures filterRating.None? && searchQuery == "" && selectedReview.None?
    {
      feedbacks := [];
      analytics := None;
      isLoading := true;
      lastUpdated := None;
      filterRating := None;
      searchQuery := "";
      selectedReview := None;
    }

    /** One refresh: both requests run together and the three fields change
        only if both succeed; loading ends either way. `clock` is the time
        of `new Date()`. */
    method FetchData(feedbackOutcome: Fetch<seq<FeedbackItem>>, analyticsOutcome: Fetch<AnalyticsResponse>, clock: int)
      modifies this
      ensures feedbackOutcome.Loaded? && analyticsOutcome.Loaded? ==>
        feedbacks == feedbackOutcome.value && analytics == Some(analyticsOutcome.value) && lastUpdated == Some(clock)
      ensures !(feedbackOutcome.Loaded? && analyticsOutcome.Loaded?) ==>
        feedbacks == old(feedbacks) && analytics == old(analytics) && lastUpdated == old(lastUpdated)
      ensures !isLoading
      ensures filterRating == old(filterRating) && searchQuery == old(searchQuery) && selectedReview == old(selectedReview)
    {
      if feedbackOutcome.Loaded? && analyticsOutcome.Loaded? {
        feedbacks := feedbackOutcome.value;
        analytics := Some(analyticsOutcome.value);
        lastUpdated := Some(clock);
      }
      isLoading := false;
    }

    /** A click on a topic button. */
    method ToggleTopic(keyword: string)
      modifies this
      ensures searchQuery == ToggledQuery(old(searchQuery), keyword)
      ensures old(searchQuery) == keyword ==> searchQuery == ""
      ensures old(searchQuery) != keyword ==> searchQuery == keyword
      ensures feedbacks == old(feedbacks) && analytics == old(analytics) && isLoading == old(isLoading)
      ensures lastUpdated == old(lastUpdated) && filterRating == old(filterRating) && selectedReview == old(selectedReview)
    {
      var isSelected := searchQuery == keyword;
      searchQuery := if isSelected then "" else keyword;
    }

    /** The "Clear filter" button, shown while a query is set. */
    method ClearFilter()
      modifies this
      ensures searchQuery == ""
      ensures feedbacks == old(feedbacks) && analytics == old(analytics) && isLoading == old(isLoading)
      ensures lastUpdated == old(lastUpdated) && filterRating == old(filterRating) && selectedReview == old(selectedReview)
    {
      searchQuery := "";
    }

    predicate ShowsClearFilter()
      reads this
    {
      searchQuery != ""
    }

    /** The rating select of the recent-feedback column. */
    method SelectRating(value: string)
      requires value in {"", "1", "2", "3", "4", "5"}
      modifies this
      ensures filterRating == RatingChoice(value)
      ensures feedbacks == old(feedbacks) && analytics == old(analytics) && isLoading == old(isLoading)
      ensures lastUpdated == old(lastUpdated) && searchQuery == old(searchQuery) && selectedReview == old(selectedReview)
    {
      filterRating := RatingChoice(value);
    }

    /** Opening a review in the detail view, and "Back to list". */
    method SelectReview(item: Option<FeedbackItem>)
      modifies this
      ensures selectedReview == item
      ensures feedbacks == old(feedbacks) && analytics == old(analytics) && isLoading == old(isLoading)
      ensures lastUpdated == old(lastUpdated) && filterRating == old(filterRating) && searchQuery == old(searchQuery)
    {
      selectedReview := item;
    }

    function FilteredFeedbacks(): (r: seq<FeedbackItem>)
      reads this
      ensures IsSubsequence(r, feedbacks)
      ensures forall f :: f in r <==> f in feedbacks && Matches(f, filterRating, searchQuery)
    {
      Filtered(feedbacks, filterRating, searchQuery)
    }

    /** The "Recent Feedback" column: the first ten matching reviews, in
        order. */
    function RecentFeedback(): (r: seq<FeedbackItem>)
      reads this
      ensures |r| == Min(RecentLimit, |FilteredFeedbacks()|)
      ensures r == FilteredFeedbacks()[..|r|]
    {
      var f := FilteredFeedbacks();
      if |f| <= RecentLimit then f else f[..RecentLimit]
    }
  }
}

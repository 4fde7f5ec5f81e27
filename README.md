# Two-dashboard AI feedback: a Dafny model of its core

The system collects star ratings with short reviews. Its parts:

- **Public form.** Customers submit a 1–5 star rating and a review.
- **LLM service.** The backend asks a language model for five things: a reply, a one-line summary, recommended actions, a sentiment and topic keywords.
- **Admin dashboards.** These show analytics over everything stored:
  - the sentiment and rating distributions;
  - the top keywords;
  - a week-over-week trend;
  - a fourteen-day series.

  They also offer a searchable, filterable and deletable list of reviews.

This project models the parts of the system that carry logic:

- **Analytics endpoint** (`Analytics`).
  - `GetAnalytics` keeps the endpoint's loops: counters incremented record by record, keywords collected list by list, and the series built day by day.
  - `GetAnalytics` is proved equal to the specification function `Analyze`, which is assembled from one function per reply field.
  - The lemmas state the rest:
    - every record is counted once;
    - the buckets partition the input;
    - the top-ten keywords are the most frequent;
    - the two trend windows are disjoint;
    - the fourteen days are consecutive and partition the fortnight they cover.
- **Sentiment rule** (`SentimentRule`). The rating-to-sentiment rule that the backend writes out four times, stated once: in the analytics fallback, in the LLM service's no-client reply, when it replaces an invalid sentiment, and in its error reply.
- **LLM service** (`Llm`).
  - Decoded JSON is a datatype, and the chat call's outcome is an input.
  - `LLMService.AnalyzeFeedback` updates the decoded object step by step, as the service does.
  - It is proved equal to `Analysis`. The contracts of `Analysis` and `Normalized` state what gets stored:
    - a valid sentiment;
    - a keyword list;
    - flattened actions;
    - untouched other keys;
    - the two fixed fallback replies.
- **Database URL** (`DbSession`). The `postgres://` rewrite and the SQLite connect argument.
- **Frontend.**
  - `FeedbackFilter`: the list filter shared by both admin pages.
  - `ReviewsPage`: the review list page's state.
  - `AdminPage`: the overview's state, chart data and metric-card trends.
  - `SubmitPage`: the submit form's state machine.
  - `FeedbackCard`: the card's date normalisation and colours.
  - `StarRatingWidget`: the star input.

Page state that the source updates in place is a `class`, one per page or widget, with `modifies` on its handlers. What the handlers await is a parameter:
- a `Fetch` value for a call that returns data or throws;
- a boolean for the delete request's success.

Timestamps are integers (microseconds), and "now" is a parameter.

## Model

| member | source | states |
|---|---|---|
| SentimentRule.RatingSentiment | backend/app/services/llm.py:16 | Positive iff rating ≥ 4, negative iff ≤ 2, neutral iff 3. The result is always one of the three valid sentiments. The same rule is written at llm.py:61, llm.py:69 and analytics.py:37. |
| Analytics.GetAnalytics | backend/app/api/v1/endpoints/analytics.py:14-97 | The endpoint returns exactly `Analyze(feedbacks, now)`, the reply the lemmas below describe. |
| Analytics.CountSentiments | backend/app/api/v1/endpoints/analytics.py:35-38 | The loop's counter equals the tally of the records' effective sentiments. The effective sentiment is the stored one, or the rating rule when the stored one is null or empty. The keys are the three sentiments plus any other stored value. |
| Analytics.CountRatings | backend/app/api/v1/endpoints/analytics.py:40-42 | The loop's counter equals the tally of the ratings over the keys 1..5 plus any other rating that occurs. |
| Analytics.CollectKeywords | backend/app/api/v1/endpoints/analytics.py:44-47 | The collected list is every record's keyword list, concatenated in record order. Null or empty lists add nothing. |
| Analytics.ReviewsOverTime | backend/app/api/v1/endpoints/analytics.py:67-81 | The loop from 13 down to 0 builds exactly the series `DailySeries`: entry j is the day starting `13 - j` days back. |
| Analytics.RecentTrendOf | backend/app/api/v1/endpoints/analytics.py:54-65 | The change is the mean rating of the last seven days minus that of the seven before. A window with no records counts as 0. The direction follows from the change. |
| Analytics.EmptyInputFallback | backend/app/api/v1/endpoints/analytics.py:18-29 | With no records: total and negative count are 0, and all three sentiment keys and all five rating keys are 0. The keyword list and the series are empty, and the direction is "stable". |
| Analytics.CountsPerKey | backend/app/api/v1/endpoints/analytics.py:35-42 | The three sentiments and the ratings 1..5 are always keys. Each key's value is the number of records carrying it. A key outside those sets carries at least one record. |
| Analytics.SentimentCountsStep | backend/app/api/v1/endpoints/analytics.py:36-38 | One more record adds exactly one to the entry of its effective sentiment and leaves every other entry unchanged. |
| Analytics.SentimentCountsSumToTotal | backend/app/api/v1/endpoints/analytics.py:35-38 | Summed over any enumeration of its keys, the sentiment distribution gives the number of records. |
| Analytics.ValidSentimentsPartitionTotal | backend/app/api/v1/endpoints/analytics.py:35-38 | When every stored sentiment is valid or missing, the keys are exactly the three sentiments and their counts sum to the total. |
| Analytics.ValidRatingsPartitionTotal | backend/app/api/v1/endpoints/analytics.py:40-42 | When every rating is in 1..5, the keys are exactly 1..5 and their counts sum to the total. |
| Analytics.RatingCountsSumToTotal | backend/app/api/v1/endpoints/analytics.py:40-42 | For any ratings, including ones outside 1–5 (the backend stores any integer), the rating counts summed over all keys give the number of records. |
| Analytics.KeywordCountIsOccurrences | backend/app/api/v1/endpoints/analytics.py:44-48 | A keyword's count in the counter is its number of occurrences summed over all records' lists. |
| Analytics.MostCommon | backend/app/api/v1/endpoints/analytics.py:48-51 | Returns min(n, number of distinct keys) entries, each with the key's count. The keys are distinct and the counts non-increasing. No omitted key has a higher count than a listed one. |
| Analytics.TopKeywordsAreMostFrequent | backend/app/api/v1/endpoints/analytics.py:48-52 | At most 10 keywords, and fewer only when fewer distinct ones exist. Each is distinct, has trend "stable" and a positive count equal to its occurrences, and counts do not increase. No unlisted keyword occurs more often than a listed one. Tie order is not stated. |
| Analytics.WindowsDisjoint | backend/app/api/v1/endpoints/analytics.py:58-59 | No record is in both the recent and the previous window. A record without a creation time is in neither. |
| Analytics.DayStartIsShiftedMidnight | backend/app/api/v1/endpoints/analytics.py:69-70 | Truncating `now - i days` to midnight equals today's midnight minus i days. `now` lies in today's day. |
| Analytics.SeriesEntry | backend/app/api/v1/endpoints/analytics.py:68-81 | Entry j describes the whole day starting `13 - j` days before today's midnight. |
| Analytics.SeriesShape | backend/app/api/v1/endpoints/analytics.py:67-81 | Exactly 14 entries. Each starts one day after the previous one (oldest first), and the last holds `now`. Each counts the records created in [day start, day start + 1 day). |
| Analytics.SeriesBucketsDisjoint | backend/app/api/v1/endpoints/analytics.py:73 | Two different days of the series never share a record. |
| Analytics.SpanSplit | backend/app/api/v1/endpoints/analytics.py:73 | Counting records created in [lo, hi) is the sum of counting [lo, mid) and [mid, hi). |
| Analytics.SeriesCountsPartitionFortnight | backend/app/api/v1/endpoints/analytics.py:67-81 | The fourteen daily counts add up to the number of records created in the fortnight the series covers. |
| Analytics.TrendChangeBounds | backend/app/api/v1/endpoints/analytics.py:54-64 | With ratings 1 to 5, the change lies within [−4, 4] when both weeks have reviews, and within [−5, 5] always. |
| Analytics.MeanRatingBounds | backend/app/api/v1/endpoints/analytics.py:61-62 | With ratings 1 to 5, a window's mean lies between 1 and 5, and an empty window's is 0. |
| Analytics.TrendDirection | backend/app/api/v1/endpoints/analytics.py:65 | Direction "up" iff change > 0.1, "down" iff change < −0.1, "stable" iff the change is in between. |
| Analytics.ReplyFields | backend/app/api/v1/endpoints/analytics.py:83-97 | For a non-empty store the reply carries the total, both distributions, the top keywords, the trend and the series. Its `negative_count` is the distribution's "negative" entry. |
| Llm.NoClientReply | backend/app/services/llm.py:15-23 | The no-client reply has the five keys, the rating rule's sentiment for the given rating (so a valid one) and an empty keyword list. |
| Llm.ErrorReply | backend/app/services/llm.py:67-76 | The error reply has the five keys, the rating rule's sentiment for the given rating (so a valid one) and an empty keyword list. |
| Llm.Flattened | backend/app/services/llm.py:55-56 | Each object action becomes its "action" field, or its string form when that field is absent. Order and length are kept. |
| Llm.Normalized | backend/app/services/llm.py:52-66 | Keys other than actions, sentiment and keywords pass through unchanged. A valid sentiment is kept and anything else becomes the rating rule. A keyword list is kept and anything else becomes []. Actions are flattened when the first is an object; otherwise they are unchanged, and missing actions become []. |
| Llm.Analysis | backend/app/services/llm.py:14-76 | Every outcome has a valid sentiment and a keyword list. With no client the result is the no-client reply. A failed call, a non-object result or actions that raise give the error reply. Anything else gives the normalised object. |
| Llm.LLMService.AnalyzeFeedback | backend/app/services/llm.py:41-76 | The step-by-step updates of the decoded object produce exactly `Analysis` for the service's client state. |
| Llm.LLMService.constructor | backend/app/services/llm.py:6-12 | A non-empty key gives a Groq client and the model name. Otherwise there is no client (the intended behaviour, see Findings). |
| Llm.InitClientAsWritten | backend/app/services/llm.py:7-12 | As written, `self.client` is left unassigned exactly when the key is missing or empty. |
| Llm.AnalyzeFeedbackAsWritten | backend/app/services/llm.py:15 | As written, the call raises AttributeError exactly when `self.client` was never assigned. |
| Llm.NoKeyRaisesAttributeError | backend/app/services/llm.py:15 | With the default configuration (no key), the code as written raises, while the intended branch returns the no-client reply. |
| DbSession.ReplaceFirst | backend/app/db/session.py:8 | Only the first occurrence of the target is replaced. A string without it is unchanged. |
| DbSession.RewriteUri | backend/app/db/session.py:7-8 | A URL starting with `postgres://` becomes `postgresql://` followed by the unchanged rest. Every other URL, including empty, SQLite and `postgresql://` URLs, is unchanged. |
| DbSession.OnlySchemeReplaced | backend/app/db/session.py:8 | Nothing after the scheme changes, even a second `postgres://`. |
| DbSession.RewriteIdempotent | backend/app/db/session.py:7-8 | Rewriting twice equals rewriting once. |
| DbSession.ConnectArgsFor | backend/app/db/session.py:12 | `check_same_thread=False` is passed iff the URL contains "sqlite". |
| FeedbackFilter.Filtered | frontend/src/app/admin/reviews/page.tsx:39-46 | The result is an order-preserving subsequence with each item's multiplicity kept. An item is kept iff it passes both the rating test and the search test. |
| FeedbackFilter.NoFilterKeepsAll | frontend/src/app/admin/reviews/page.tsx:40-44 | No rating filter and an empty query keep the whole list. |
| FeedbackFilter.EmptyQueryIsRatingFilter | frontend/src/app/admin/reviews/page.tsx:41-45 | With an empty query, an item is kept iff it passes the rating test. |
| FeedbackFilter.RatingFilterSelects | frontend/src/app/admin/reviews/page.tsx:40 | With a rating r chosen, every kept item has rating r. |
| FeedbackFilter.SearchIgnoresQueryCase | frontend/src/app/admin/reviews/page.tsx:42-43 | The search gives the same answer for a query and its lower-cased form. |
| FeedbackFilter.SearchIgnoresTextCase | frontend/src/app/admin/reviews/page.tsx:42 | The search gives the same answer for a review text and its lower-cased form. |
| FeedbackFilter.RatingChoice | frontend/src/app/admin/reviews/page.tsx:81 | The select's "" means no filter; the digits 1–5 mean that rating. |
| ReviewsPage.WithoutId | frontend/src/app/admin/reviews/page.tsx:32 | Every item with the id is removed. Every other item is kept with its multiplicity, in its original order. |
| ReviewsPage.WithoutAbsentId | frontend/src/app/admin/reviews/page.tsx:32 | Deleting an id no item carries leaves the list unchanged. |
| ReviewsPage.WithoutIdSplits | frontend/src/app/admin/reviews/page.tsx:32 | Removal distributes over concatenation, so neighbours stay in place. |
| ReviewsPage.AllReviewsPage.constructor | frontend/src/app/admin/reviews/page.tsx:9-12 | The page starts loading, with an empty list and no query or rating filter. |
| ReviewsPage.AllReviewsPage.LoadFeedbacks | frontend/src/app/admin/reviews/page.tsx:14-27 | A loaded list replaces the current one and a failure keeps it. Loading is false afterwards; the filters are untouched. |
| ReviewsPage.AllReviewsPage.HandleDelete | frontend/src/app/admin/reviews/page.tsx:29-37 | On success the list loses exactly the items with that id, and there is no alert. On failure the list is unchanged and the alert text is raised. |
| ReviewsPage.AllReviewsPage.SetSearchQuery | frontend/src/app/admin/reviews/page.tsx:71 | Sets the query and nothing else. |
| ReviewsPage.AllReviewsPage.SelectRating | frontend/src/app/admin/reviews/page.tsx:81 | Sets the rating filter from the select's value and nothing else. |
| ReviewsPage.AllReviewsPage.FilteredFeedbacks | frontend/src/app/admin/reviews/page.tsx:39-46 | The cards shown are the items of the list that match the current filters, in order. |
| ReviewsPage.AllReviewsPage.ShowsEmptyNotice | frontend/src/app/admin/reviews/page.tsx:98-107 | The "No reviews matching your filters" notice shows iff loading has finished and no loaded item passes the rating and search filters. |
| ReviewsPage.AllReviewsPage.HeaderCount | frontend/src/app/admin/reviews/page.tsx:59 | The badge shows the unfiltered length, never less than the number of cards shown. |
| AdminPage.AdminDashboard.constructor | frontend/src/app/admin/page.tsx:10-16 | Starts loading, with no list, analytics, update time, filters or selection. |
| AdminPage.AdminDashboard.FetchData | frontend/src/app/admin/page.tsx:18-32 | The list, the analytics and the update time change only if both requests succeed, and then to their results and the clock. Loading is false either way; the filters and the selection are untouched. |
| AdminPage.AdminDashboard.FilteredFeedbacks | frontend/src/app/admin/page.tsx:41-48 | The same filter as the review list (`FeedbackFilter.Filtered`), over the dashboard's own state. |
| AdminPage.AdminDashboard.RecentFeedback | frontend/src/app/admin/page.tsx:247 | At most 10 items: exactly the first min(10, n) filtered items, in order. |
| AdminPage.AdminDashboard.ToggleTopic | frontend/src/app/admin/page.tsx:141-145 | The query becomes "" when it equalled the keyword, and the keyword otherwise. Nothing else changes. |
| AdminPage.ToggleTwice | frontend/src/app/admin/page.tsx:141-145 | Two clicks on the same topic give back that topic when it was the query, and a cleared search otherwise. One click selects a non-empty topic iff it was not the query. A third click gives the same query as the first. |
| AdminPage.AdminDashboard.ClearFilter | frontend/src/app/admin/page.tsx:129-136 | The "Clear filter" button empties the query and nothing else. |
| AdminPage.AdminDashboard.SelectRating | frontend/src/app/admin/page.tsx:233 | Sets the rating filter from the select's value and nothing else. |
| AdminPage.AdminDashboard.SelectReview | frontend/src/app/admin/page.tsx:250 | Opening a review, or going back to the list, sets only the selection. |
| AdminPage.SatisfactionData | frontend/src/app/admin/page.tsx:51-55 | Empty without analytics. Otherwise exactly Positive, Neutral, Negative, in that order, with their distribution entries and the colours #22c55e, #eab308 and #ef4444. |
| AdminPage.SatisfactionHasValues | frontend/src/app/admin/page.tsx:51-55 | On the backend's reply, for every store, there are three slices and each has a value. |
| AdminPage.SatisfactionCoversReviews | frontend/src/app/admin/page.tsx:51-55 | When the stored sentiments are all valid or missing, the three slices have values and add up to the number of reviews. |
| AdminPage.TrendData | frontend/src/app/admin/page.tsx:57-60 | Empty without analytics. Otherwise one (day, count) point per series entry, in the same order. |
| AdminPage.TrendDataIsFortnight | frontend/src/app/admin/page.tsx:57-60 | For a non-empty store the line has 14 points a day apart. Each point counts the reviews created that day. |
| AdminPage.MetricCardStyle | frontend/src/app/admin/page.tsx:283-300 | "up" is green with a rising arrow and "down" red with a falling one. `inverseTrend` swaps them. Any other trend is muted with the level icon. |
| AdminPage.InverseTrendSwaps | frontend/src/app/admin/page.tsx:292-300 | An inverted card is the swap of the plain one, and swapping twice restores it. |
| AdminPage.TotalReviewsTrend | frontend/src/app/admin/page.tsx:84 | The recent trend's direction, or "stable" without analytics or for an empty direction. |
| AdminPage.AverageRatingTrend | frontend/src/app/admin/page.tsx:90 | "up" iff the average is ≥ 4 and "down" iff it is ≤ 3. "stable" when it lies strictly between, or without analytics. |
| AdminPage.NeedsAttentionTrend | frontend/src/app/admin/page.tsx:102 | "down" iff there are analytics with `negative_count` > 0, else "stable". |
| AdminPage.NeedsAttentionStyle | frontend/src/app/admin/page.tsx:98-104 | Because the card is inverted, negative reviews show green with a rising arrow, and none show muted and level. |
| AdminPage.NeedsAttentionCountsNegatives | frontend/src/app/admin/page.tsx:102 | On the backend's reply, for every store including the empty one, the card is "down" iff some record's effective sentiment is negative. |
| SubmitPage.FailureMessage | frontend/src/app/page.tsx:40 | The error's own message when non-empty, otherwise "Something went wrong". Never empty. |
| SubmitPage.UserDashboard.BeginSubmit | frontend/src/app/page.tsx:21-32 | Rating 0 gives "Please select a rating", whatever the text. Otherwise JavaScript-blank text gives "Please write a review". Either way there is no request, and only the error changes. Otherwise loading starts, error and response are cleared, and the request carries the current rating and text. |
| SubmitPage.UserDashboard.FinishSubmit | frontend/src/app/page.tsx:34-43 | Success sets the response and resets rating to 0 and review to "". Failure sets the failure message and keeps rating, review and response. Loading is false after both. |
| SubmitPage.UserDashboard.HandleSubmit | frontend/src/app/page.tsx:19-44 | The whole handler. A request is sent iff the rating is non-zero and the review is not blank, and then carries them. Otherwise the validation error is set. A request is followed by the success or failure state. |
| SubmitPage.UserDashboard.constructor | frontend/src/app/page.tsx:13-17 | The form starts with rating 0, an empty review, no loading, no response and no error. |
| SubmitPage.UserDashboard.SetRating | frontend/src/app/page.tsx:13 | Sets the rating and nothing else. |
| SubmitPage.UserDashboard.SetReview | frontend/src/app/page.tsx:14 | Sets the review text and nothing else. |
| FeedbackCard.UtcDateString | frontend/src/components/FeedbackCard.tsx:23-27 | "" gives nothing to display. An aware string (ends in "Z" or contains "+") is kept. Any other string gets "Z" appended. The result is always aware. |
| FeedbackCard.UtcDateStringIdempotent | frontend/src/components/FeedbackCard.tsx:26-27 | Normalising twice equals normalising once. |
| FeedbackCard.NegativeOffsetGetsZ | frontend/src/components/FeedbackCard.tsx:26 | A "-05:00" offset counts as unaware and gets "Z" appended. |
| FeedbackCard.BadgeTone | frontend/src/components/FeedbackCard.tsx:44 | Green iff rating ≥ 4, yellow iff 3, red iff below 3. |
| FeedbackCard.SentimentTone | frontend/src/components/FeedbackCard.tsx:19-21 | Green iff positive and red iff negative. Yellow for anything else, including missing. The admin list and detail view use the same choice (admin/page.tsx:182-184, 253-255). |
| FeedbackCard.ToneAgreesWithRatingRule | frontend/src/components/FeedbackCard.tsx:19-21 | For a sentiment derived by the rating rule, the card colour equals the badge colour. |
| StarRatingWidget.FillFor | frontend/src/components/StarRating.tsx:17 | There are five stars. Star k is filled iff the displayed value is ≥ k, and the filled stars form a prefix. |
| StarRatingWidget.FilledCount | frontend/src/components/StarRating.tsx:32 | The number of filled stars is the displayed value clamped to 0..5. |
| StarRatingWidget.StarRating.Filled | frontend/src/components/StarRating.tsx:32 | The hovered value when a star is hovered, otherwise `value`. |
| StarRatingWidget.StarRating.constructor | frontend/src/components/StarRating.tsx:13 | No star is hovered at first. |
| StarRatingWidget.StarRating.MouseEnter | frontend/src/components/StarRating.tsx:24 | Sets the hovered star, only when not disabled. |
| StarRatingWidget.StarRating.MouseLeave | frontend/src/components/StarRating.tsx:25 | Clears the hover, only when not disabled. |
| StarRatingWidget.StarRating.Click | frontend/src/components/StarRating.tsx:23-26 | Reports the star's own value. A disabled button reports nothing. |
| StarRatingWidget.HoverFillsPrefix | frontend/src/components/StarRating.tsx:32 | Hovering star k fills exactly the first k stars, whatever the current value. |

## Left out

- **Analytics computation.**
  - The database query (`db.query(Feedback).all()`) is replaced by the list of records passed in.
  - `datetime.utcnow()` is the parameter `now`.
  - Timestamps are integer microseconds on a naive UTC clock.
  - Rounding of the averages, the change and the percentage (`round(…, 2)`, `round(…, 1)`) is left out: they are exact `real` values.
  - AdminPage.AverageRatingTrend: the dashboard compares the average as the backend rounded it to two decimals, so the model's boundary differs near 4 and 3. For example, an exact average of 3.995 is rounded to 4.0 and shows "up" in the source, but "stable" in the model.
  - Analytics.TrendDirection and Analytics.RecentTrendOf: the source compares a floating-point change with 0.1, and the model compares the exact one. They can disagree at the threshold. For example, a recent average of 3.1 and a previous one of 3.0 give 0.10000000000000009 in floating point ("up") but exactly 0.1 in the model ("stable").
  - The "%b %d" day labels are replaced by the day's midnight timestamp.
  - The positive percentage is only defined, ordinary real division. No contract states more about it.
- **Keyword lists of stored records.** A record's keywords are a list of strings. The LLM service keeps any JSON list as the keywords, and the record stores it unchanged. In the source, a list holding an object makes `Counter` raise TypeError, and one holding a number fails the `KeywordStat` schema, so the analytics request fails. The model assumes stored keyword lists hold strings and does not model that failure.
- **Analytics.EmptyAnalytics.** The fixed reply for an empty store has no contract of its own. Its content is stated by `Analytics.EmptyInputFallback`.
- **Analytics.MostCommon.** Ties are broken by first occurrence (the order of Python's `Counter`), but no contract pins the tie order.
- **LLM call.**
  - The chat request, the prompt text, `json.loads` and the `print` in the error handler are replaced by a `ChatReply` input: a decoded JSON value, or a failure.
  - Python's `str` of a dict is a parameter `show`.
  - JSON numbers are `real`; Python's int/float distinction is not kept.
  - Object key order is not kept (a `map`).
- **Database session.** Engine and session creation (backend/app/db/session.py:10-14) and the rest of the FastAPI/SQLAlchemy plumbing are framework wiring. Only the URL and the connect-argument choice are modelled.
- **Frontend network calls.** The `lib/api.ts` wrappers are the `Fetch` outcome, or a boolean for a delete. Their own error texts are not modelled. The `console.error` logging on a failed fetch or delete (admin/reviews/page.tsx:20 and :34, admin/page.tsx:28) is left out: it changes no state.
- **Asynchrony.** React state updates are applied in program order. Overlapping requests (a refresh racing a delete) and `setInterval` polling with its cleanup are not modelled.
- **Presentation.** Not modelled:
  - date parsing and `toLocaleString` in the Asia/Kolkata zone, `toLocaleDateString` and `toLocaleTimeString`;
  - the metric values' `|| 0` defaults;
  - the chart geometry (`DonutChart`, `LineChart`);
  - CSS classes and animations;
  - `Navbar`, the layout and the button component.
- **Lower-casing.** `toLowerCase` is modelled for ASCII letters only; other characters are left as they are.
- **AdminPage.AdminDashboard.ShowsClearFilter.** A plain predicate with no contract: the "Clear filter" button shows while the search query is non-empty (frontend/src/app/admin/page.tsx:129-136).
- **FeedbackCard.ShowsSummary and FeedbackCard.ShowsActions.** Both are plain predicates with no contract of their own:
  - the summary block needs a non-empty `ai_summary`;
  - the actions block needs a non-empty list.
- **The `onDelete` prop.** `FeedbackCard` never accepts it, so the model has no delete button on the card. `handleDelete` is modelled on its own.
- **Keep-alive thread.** `keep_alive.py` (a background thread making HTTP requests) is left out.

## Findings

| source | as written | input that shows it | evidently intended | confidence | as-written member | corrected member |
|---|---|---|---|---|---|---|
| backend/app/services/llm.py:6-15 | `__init__` assigns `self.client` only when `GROQ_API_KEY` is set. `analyze_feedback` then reads `self.client` as its first step, which raises AttributeError when it was never assigned. | `GROQ_API_KEY` unset, its default (`None`, backend/app/core/config.py:9) | Return the fixed no-client reply ("Check API Keys") that lines 16-23 spell out | high (not executed) | Llm.AnalyzeFeedbackAsWritten (shown by Llm.NoKeyRaisesAttributeError) | Llm.LLMService.constructor, which sets `client` to None, and Llm.LLMService.AnalyzeFeedback |

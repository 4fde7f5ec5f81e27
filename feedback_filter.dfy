/** A feedback record as the dashboards receive it, and the list filter the
    admin overview and the review list apply to it: a rating filter AND a
    case-insensitive search of the review text and the AI summary. */
module FeedbackFilter {
  import opened Base

  /** One element of the list returned by `GET /feedback/`. */
  datatype FeedbackItem = FeedbackItem(
    id: int,
    rating: int,
    reviewText: string,
    aiResponse: Option<string>,
    aiSummary: Option<string>,
    recommendedActions: Option<seq<string>>,
    sentiment: Option<string>,
    keywords: Option<seq<string>>,
    createdAt: string)

  /** JavaScript truthiness of an optional string: null, undefined and ""
      are falsy. */
  predicate Present(s: Option<string>)
  {
    s.Some? && s.value != ""
  }

  /** `filterRating ? f.rating === filterRating : true`: no filter, or the
      falsy 0, lets every rating through. */
  predicate MatchesRating(f: FeedbackItem, filterRating: Option<int>)
  {
    filterRating.None? || filterRating.value == 0 || f.rating == filterRating.value
  }

  /** An empty query matches everything; otherwise the lower-cased query must
      occur in the lower-cased review text or in a present AI summary. */
  predicate MatchesSearch(f: FeedbackItem, query: string)
  {
    query == ""
    || Contains(Lower(f.reviewText), Lower(query))
    || (Present(f.aiSummary) && Contains(Lower(f.aiSummary.value), Lower(query)))
  }

  predicate Matches(f: FeedbackItem, filterRating: Option<int>, query: string)
  {
    MatchesRating(f, filterRating) && MatchesSearch(f, query)
  }

  /** The list both pages render: the items passing both tests, in their
      original order. */
  function Filtered(fs: seq<FeedbackItem>, filterRating: Option<int>, query: string): (r: seq<FeedbackItem>)
    ensures IsSubsequence(r, fs)
    ensures forall f :: f in r <==> f in fs && MatchesRating(f, filterRating) && MatchesSearch(f, query)
    ensures forall f :: Count(r, f) == if Matches(f, filterRating, query) then Count(fs, f) else 0
  {
    Filter(fs, f => Matches(f, filterRating, query))
  }

  /** With no rating filter and an empty query nothing is hidden. */
  lemma NoFilterKeepsAll(fs: seq<FeedbackItem>)
    ensures Filtered(fs, None, "") == fs
  {
    FilterKeepsAll(fs, f => Matches(f, None, ""));
  }

  /** An empty query leaves exactly the rating filter. */
  lemma EmptyQueryIsRatingFilter(fs: seq<FeedbackItem>, filterRating: Option<int>, f: FeedbackItem)
    ensures f in Filtered(fs, filterRating, "") <==> f in fs && MatchesRating(f, filterRating)
  {
  }

  /** With a rating chosen (1 to 5 in the select), only that rating passes. */
  lemma RatingFilterSelects(fs: seq<FeedbackItem>, r: int, query: string)
    requires r != 0
    ensures forall f | f in Filtered(fs, Some(r), query) :: f.rating == r
  {
  }

  lemma LowerCharIdempotent(c: char)
    ensures LowerChar(LowerChar(c)) == LowerChar(c)
  {
  }

  lemma LowerIdempotent(s: string)
    ensures Lower(Lower(s)) == Lower(s)
  {
    forall i | 0 <= i < |s| ensures Lower(Lower(s))[i] == Lower(s)[i] {
      LowerCharIdempotent(s[i]);
    }
  }

  /** The search does not see the case of the query's letters. */
  lemma SearchIgnoresQueryCase(f: FeedbackItem, query: string)
    ensures MatchesSearch(f, Lower(query)) == MatchesSearch(f, query)
  {
    LowerIdempotent(query);
    assert |Lower(query)| == |query|;
  }

  /** Nor the case of the review text. */
  lemma SearchIgnoresTextCase(f: FeedbackItem, query: string)
    ensures MatchesSearch(f.(reviewText := Lower(f.reviewText)), query) == MatchesSearch(f, query)
  {
    LowerIdempotent(f.reviewText);
  }

  /** A value of the rating select: "" is "All", a digit is that rating. */
  function RatingChoice(value: string): (r: Option<int>)
    requires value in {"", "1", "2", "3", "4", "5"}
    ensures r.None? <==> value == ""
    ensures r.Some? ==> 1 <= r.value <= 5 && value == [('0' as int + r.value) as char]
  {
    if value == "" then None else Some(value[0] as int - '0' as int)
  }
}

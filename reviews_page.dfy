/** The admin "All Reviews" page: the list it holds, its initial load, the
    delete handler and the filtered view it renders. */
module ReviewsPage {
  import opened Base
  import opened FeedbackFilter

  const DeleteFailedAlert := "Failed to delete review. Please try again."

  /** The test `f => f.id !== id` of the delete handler. */
  function OtherId(id: int): FeedbackItem -> bool
  {
    (f: FeedbackItem) => f.id != id
  }

  /** The list without the items carrying `id`. */
  function WithoutId(fs: seq<FeedbackItem>, id: int): (r: seq<FeedbackItem>)
    ensures IsSubsequence(r, fs)
    ensures forall f :: f in r <==> f in fs && f.id != id
    ensures forall f: FeedbackItem | f.id != id :: Count(r, f) == Count(fs, f)
  {
    Filter(fs, OtherId(id))
  }

  /** Deleting an id no item carries leaves the list as it is. */
  lemma WithoutAbsentId(fs: seq<FeedbackItem>, id: int)
    requires forall f | f in fs :: f.id != id
    ensures WithoutId(fs, id) == fs
  {
    FilterKeepsAll(fs, OtherId(id));
  }

  /** Deleting one id does not disturb the items before and after it. */
  lemma WithoutIdSplits(xs: seq<FeedbackItem>, ys: seq<FeedbackItem>, id: int)
    ensures WithoutId(xs + ys, id) == WithoutId(xs, id) + WithoutId(ys, id)
  {
    FilterAppend(xs, ys, OtherId(id));
  }

  class AllReviewsPage {
    var feedbacks: seq<FeedbackItem>
    var isLoading: bool
    var searchQuery: string
    var filterRating: Option<int>

    /** The page mounts loading, with an empty list and no filters. */
    constructor()
      ensures feedbacks == [] && isLoading && searchQuery == "" && filterRating.None?
    {
      feedbacks := [];
      isLoading := true;
      searchQuery := "";
      filterRating := None;
    }

    /** The load effect: a fetched list replaces the current one, a failure
        keeps it; loading ends either way. */
    method LoadFeedbacks(outcome: Fetch<seq<FeedbackItem>>)
      modifies this
      ensures outcome.Loaded? ==> feedbacks == outcome.value
      ensures outcome.FetchFailed? ==> feedbacks == old(feedbacks)
      ensures !isLoading
      ensures searchQuery == old(searchQuery) && filterRating == old(filterRating)
    {
      if outcome.Loaded? {
        feedbacks := outcome.value;
      }
      isLoading := false;
    }

    /** The delete handler, given whether the DELETE request succeeded:
        success drops every item with the id, failure keeps the list and
        raises the alert. */
    method HandleDelete(id: int, deleted: bool) returns (alert: Option<string>)
      modifies this
      ensures deleted ==> feedbacks == WithoutId(old(feedbacks), id) && alert.None?
      ensures !deleted ==> feedbacks == old(feedbacks) && alert == Some(DeleteFailedAlert)
      ensures isLoading == old(isLoading) && searchQuery == old(searchQuery) && filterRating == old(filterRating)
    {
      if deleted {
        feedbacks := WithoutId(feedbacks, id);
        alert := None;
      } else {
        alert := Some(DeleteFailedAlert);
      }
    }

    method SetSearchQuery(query: string)
      modifies this
      ensures searchQuery == query
      ensures feedbacks == old(feedbacks) && isLoading == old(isLoading) && filterRating == old(filterRating)
    {
      searchQuery := query;
    }

    /** The rating select's change handler. */
    method SelectRating(value: string)
      requires value in {"", "1", "2", "3", "4", "5"}
      modifies this
      ensures filterRating == RatingChoice(value)
      ensures feedbacks == old(feedbacks) && isLoading == old(isLoading) && searchQuery == old(searchQuery)
    {
      filterRating := RatingChoice(value);
    }

    /** The cards shown. */
    function FilteredFeedbacks(): (r: seq<FeedbackItem>)
      reads this
      ensures IsSubsequence(r, feedbacks)
      ensures forall f :: f in r <==> f in feedbacks && Matches(f, filterRating, searchQuery)
    {
      Filtered(feedbacks, filterRating, searchQuery)
    }

    /** The "N Total" badge counts the whole list, never fewer than the cards
        shown. */
    function HeaderCount(): (n: nat)
      reads this
      ensures n == |feedbacks|
      ensures n >= |FilteredFeedbacks()|
    {
      |feedbacks|
    }

    /** The "No reviews matching your filters." notice. */
    predicate ShowsEmptyNotice(): (shown: bool)
      reads this
      ensures shown <==> !isLoading && forall f | f in feedbacks :: !Matches(f, filterRating, searchQuery)
    {
      var r := FilteredFeedbacks();
      assert r != [] ==> r[0] in r;
      r == [] && !isLoading
    }
  }
}

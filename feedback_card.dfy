/** The pure choices of the feedback card: the UTC normalisation applied to
    the creation time before it is displayed, the colour of the rating
    badge and of the card, and which optional blocks appear. */
module FeedbackCard {
  import opened Base
  import opened SentimentRule
  import opened FeedbackFilter

  /** The string counts as carrying a zone when it ends in "Z" or contains a
      '+'; a negative offset such as "-05:00" does not count. */
  predicate IsTimezoneAware(s: string)
  {
    EndsWith(s, "Z") || Contains(s, "+")
  }

  /** The string handed to `new Date` by `formatDate`, or None for the empty
      string, which is displayed as "". */
  function UtcDateString(s: string): (r: Option<string>)
    ensures r.None? <==> s == ""
    ensures r.Some? ==> IsTimezoneAware(r.value)
    ensures r.Some? && IsTimezoneAware(s) ==> r.value == s
    ensures r.Some? && !IsTimezoneAware(s) ==> r.value == s + "Z"
  {
    if s == "" then None
    else if IsTimezoneAware(s) then Some(s)
    else
      assert (s + "Z")[|s + "Z"| - 1..] == "Z";
      Some(s + "Z")
  }

  /** Normalising a normalised string changes nothing. */
  lemma UtcDateStringIdempotent(s: string)
    requires s != ""
    ensures UtcDateString(UtcDateString(s).value) == UtcDateString(s)
  {
  }

  /** A negative offset is taken for a missing zone and gets "Z" appended. */
  lemma NegativeOffsetGetsZ()
    ensures UtcDateString("2024-01-01T10:00:00-05:00") == Some("2024-01-01T10:00:00-05:00Z")
  {
    var s := "2024-01-01T10:00:00-05:00";
    assert !EndsWith(s, "Z") by {
      assert s[|s| - 1..][0] == s[|s| - 1] == '0';
    }
    assert !Contains(s, "+") by {
      forall i | 0 <= i <= |s| - 1 ensures !OccursAt(s, "+", i) {
        assert s[i..i + 1][0] == s[i];
      }
    }
    assert s + "Z" == "2024-01-01T10:00:00-05:00Z";
  }

  datatype Tone = Green | Yellow | Red

  /** The badge colour: four stars or more green, three yellow, fewer red. */
  function BadgeTone(rating: int): (t: Tone)
    ensures t == Green <==> rating >= 4
    ensures t == Yellow <==> rating == 3
    ensures t == Red <==> rating < 3
  {
    if rating >= 4 then Green else if rating >= 3 then Yellow else Red
  }

  /** The card colour: positive green, negative red, anything else (neutral,
      an unknown word, missing) yellow. */
  function SentimentTone(sentiment: Option<string>): (t: Tone)
    ensures t == Green <==> sentiment == Some("positive")
    ensures t == Red <==> sentiment == Some("negative")
    ensures t == Yellow <==> !(sentiment == Some("positive") || sentiment == Some("negative"))
  {
    if sentiment == Some("positive") then Green
    else if sentiment == Some("negative") then Red
    else Yellow
  }

  /** When the stored sentiment is the one the rating rule gives, the card
      and its badge have the same colour. */
  lemma ToneAgreesWithRatingRule(rating: int)
    ensures SentimentTone(Some(RatingSentiment(rating))) == BadgeTone(rating)
  {
  }

  /** The summary block needs a non-empty summary. */
  predicate ShowsSummary(item: FeedbackItem)
  {
    Present(item.aiSummary)
  }

  /** The actions block needs a non-empty list. */
  predicate ShowsActions(item: FeedbackItem)
  {
    item.recommendedActions.Some? && |item.recommendedActions.value| > 0
  }
}

/** The rule that derives a sentiment from a star rating when none is known.
    The backend writes it out four times (the analytics fallback, the LLM
    service's two fallback replies and its replacement of an invalid
    sentiment); the model states it once. */
module SentimentRule {

  /** The three sentiments the LLM prompt asks for and the analytics
      distribution always reports. */
  predicate IsValidSentiment(s: string)
  {
    s == "positive" || s == "negative" || s == "neutral"
  }

  /** Four stars or more is positive, two or fewer is negative, anything
      else is neutral. */
  function RatingSentiment(rating: int): (s: string)
    ensures IsValidSentiment(s)
    ensures s == "positive" <==> rating >= 4
    ensures s == "negative" <==> rating <= 2
    ensures s == "neutral" <==> rating == 3
  {
    if rating >= 4 then "positive" else if rating <= 2 then "negative" else "neutral"
  }
}

/** The LLM service of the backend: the fixed replies it falls back on and the
    normalisation of the JSON object the model returns, so that what is
    stored always has a valid sentiment, a keyword list and flattened
    recommended actions. The chat call and the JSON decoding are an input:
    either the decoded value or a failure. */
module Llm {
  import opened Base
  import opened SentimentRule

  /** A decoded JSON value (the result of Python's `json.loads`). */
  datatype Json =
    | JNull
    | JBool(b: bool)
    | JNum(x: real)
    | JStr(s: string)
    | JArr(items: seq<Json>)
    | JObj(fields: map<string, Json>)

  /** Python truthiness of a decoded value. */
  predicate Truthy(j: Json)
  {
    match j
    case JNull => false
    case JBool(b) => b
    case JNum(x) => x != 0.0
    case JStr(s) => s != ""
    case JArr(items) => items != []
    case JObj(fields) => fields != map[]
  }

  /** What the chat call and the decoding of its content gave: a decoded value,
      or an exception somewhere on the way (network error, no choices, content
      that is not JSON). */
  datatype ChatReply = Decoded(value: Json) | CallFailed

  /** The handle the service keeps when an API key is configured. */
  datatype Client = Client(apiKey: string, baseUrl: string)

  const GroqBaseUrl := "https://api.groq.com/openai/v1"
  const GroqModel := "llama-3.1-8b-instant"

  const ActionsKey := "recommended_actions"
  const SentimentKey := "sentiment"
  const KeywordsKey := "keywords"

  /** The reply stored when no client is configured. */
  function NoClientReply(rating: int): (r: map<string, Json>)
    ensures r.Keys == {"ai_response", "ai_summary", ActionsKey, SentimentKey, KeywordsKey}
    ensures r[SentimentKey] == JStr(RatingSentiment(rating)) && IsValidSentiment(r[SentimentKey].s)
    ensures r[KeywordsKey] == JArr([])
  {
    map[
      "ai_response" := JStr("Thank you for your feedback!"),
      "ai_summary" := JStr("No AI summary available."),
      ActionsKey := JArr([JStr("Check API Keys")]),
      SentimentKey := JStr(RatingSentiment(rating)),
      KeywordsKey := JArr([])
    ]
  }

  /** The reply stored when anything in the call or the normalisation raised. */
  function ErrorReply(rating: int): (r: map<string, Json>)
    ensures r.Keys == {"ai_response", "ai_summary", ActionsKey, SentimentKey, KeywordsKey}
    ensures r[SentimentKey] == JStr(RatingSentiment(rating)) && IsValidSentiment(r[SentimentKey].s)
    ensures r[KeywordsKey] == JArr([])
  {
    map[
      "ai_response" := JStr("Thank you for your feedback! We're processing it."),
      "ai_summary" := JStr("Error generating summary."),
      ActionsKey := JArr([JStr("Investigate LLM Service Error")]),
      SentimentKey := JStr(RatingSentiment(rating)),
      KeywordsKey := JArr([])
    ]
  }

  /** `result.get("recommended_actions", [])`. */
  function ActionsOf(o: map<string, Json>): Json
  {
    if ActionsKey in o then o[ActionsKey] else JArr([])
  }

  /** `actions and isinstance(actions[0], dict)`: the actions are a non-empty
      list whose first item is an object. */
  predicate FirstIsObject(a: Json)
  {
    a.JArr? && a.items != [] && a.items[0].JObj?
  }

  /** Normalising the actions raises: indexing a truthy boolean, number or
      object with 0, or calling `.get` on a non-object item of a list whose
      first item is an object. */
  predicate ActionsRaise(a: Json)
  {
    (Truthy(a) && (a.JBool? || a.JNum? || a.JObj?))
    || (FirstIsObject(a) && exists i | 0 <= i < |a.items| :: !a.items[i].JObj?)
  }

  /** `a.get("action", str(a))` for one object item; `show` stands for
      Python's `str` of a dict. */
  function ActionOf(a: Json, show: Json -> string): Json
    requires a.JObj?
  {
    if "action" in a.fields then a.fields["action"] else JStr(show(a))
  }

  function Flattened(items: seq<Json>, show: Json -> string): (r: seq<Json>)
    requires forall i | 0 <= i < |items| :: items[i].JObj?
    ensures |r| == |items|
    ensures forall i | 0 <= i < |items| :: r[i] == ActionOf(items[i], show)
  {
    seq(|items|, i requires 0 <= i < |items| => ActionOf(items[i], show))
  }

  /** The call ends in the error fallback: the call or the decoding failed,
      the decoded value is not an object (so `result.get` raises), or the
      actions cannot be normalised. */
  predicate Raises(reply: ChatReply)
  {
    match reply
    case CallFailed => true
    case Decoded(v) => !v.JObj? || ActionsRaise(ActionsOf(v.fields))
  }

  /** A decoded object after normalisation: other keys pass through, the
      actions are flattened when the first one is an object (a missing list
      becomes []), a valid sentiment is kept and anything else replaced by
      the rating rule, and a keyword list is kept and anything else
      replaced by []. */
  function Normalized(o: map<string, Json>, rating: int, show: Json -> string): (r: map<string, Json>)
    requires !ActionsRaise(ActionsOf(o))
    ensures r.Keys == o.Keys + {ActionsKey, SentimentKey, KeywordsKey}
    ensures forall k | k in o && k != ActionsKey && k != SentimentKey && k != KeywordsKey :: r[k] == o[k]
    ensures r[SentimentKey].JStr? && IsValidSentiment(r[SentimentKey].s)
    ensures SentimentKey in o && o[SentimentKey].JStr? && IsValidSentiment(o[SentimentKey].s) ==> r[SentimentKey] == o[SentimentKey]
    ensures !(SentimentKey in o && o[SentimentKey].JStr? && IsValidSentiment(o[SentimentKey].s)) ==> r[SentimentKey] == JStr(RatingSentiment(rating))
    ensures r[KeywordsKey].JArr?
    ensures KeywordsKey in o && o[KeywordsKey].JArr? ==> r[KeywordsKey] == o[KeywordsKey]
    ensures !(KeywordsKey in o && o[KeywordsKey].JArr?) ==> r[KeywordsKey] == JArr([])
    ensures FirstIsObject(ActionsOf(o)) ==>
      r[ActionsKey].JArr? && |r[ActionsKey].items| == |ActionsOf(o).items|
      && forall i | 0 <= i < |ActionsOf(o).items| :: r[ActionsKey].items[i] == ActionOf(ActionsOf(o).items[i], show)
    ensures !FirstIsObject(ActionsOf(o)) ==> r[ActionsKey] == ActionsOf(o)
  {
    var a := ActionsOf(o);
    var actions := if FirstIsObject(a) then JArr(Flattened(a.items, show)) else a;
    var withActions := o[ActionsKey := actions];
    var withSentiment :=
      if SentimentKey in o && o[SentimentKey].JStr? && IsValidSentiment(o[SentimentKey].s) then withActions
      else withActions[SentimentKey := JStr(RatingSentiment(rating))];
    if KeywordsKey in o && o[KeywordsKey].JArr? then withSentiment
    else withSentiment[KeywordsKey := JArr([])]
  }

  /** What `analyze_feedback` stores for a rating and a chat outcome, with or
      without a client: whatever happens, a reply with a valid sentiment and
      a keyword list. */
  function Analysis(hasClient: bool, rating: int, reply: ChatReply, show: Json -> string): (r: map<string, Json>)
    ensures SentimentKey in r && r[SentimentKey].JStr? && IsValidSentiment(r[SentimentKey].s)
    ensures KeywordsKey in r && r[KeywordsKey].JArr?
    ensures ActionsKey in r
    ensures !hasClient ==> r == NoClientReply(rating)
    ensures hasClient && Raises(reply) ==> r == ErrorReply(rating)
    ensures hasClient && !Raises(reply) ==> r == Normalized(reply.value.fields, rating, show)
  {
    if !hasClient then NoClientReply(rating)
    else if Raises(reply) then ErrorReply(rating)
    else Normalized(reply.value.fields, rating, show)
  }

  /** The service object: a client only when an API key is configured. */
  class LLMService {
    var client: Option<Client>
    var model: string

    /** The intended set-up: a non-empty key gives a client for the Groq
        endpoint, anything else leaves the service without one. */
    constructor(apiKey: Option<string>)
      ensures apiKey.Some? && apiKey.value != "" ==> client == Some(Client(apiKey.value, GroqBaseUrl)) && model == GroqModel
      ensures !(apiKey.Some? && apiKey.value != "") ==> client.None?
    {
      if apiKey.Some? && apiKey.value != "" {
        client := Some(Client(apiKey.value, GroqBaseUrl));
        model := GroqModel;
      } else {
        client := None;
        model := "";
      }
    }

    /** Builds the stored analysis of one review, updating the decoded
        object in place the way the service does. */
    method AnalyzeFeedback(rating: int, reply: ChatReply, show: Json -> string) returns (result: map<string, Json>)
      ensures result == Analysis(client.Some?, rating, reply, show)
    {
      if client.None? {
        return NoClientReply(rating);
      }
      if reply.CallFailed? || !reply.value.JObj? {
        return ErrorReply(rating);
      }
      var parsed := reply.value.fields;
      result := parsed;
      var actions := ActionsOf(result);
      if Truthy(actions) && (actions.JBool? || actions.JNum? || actions.JObj?) {
        // indexing the actions with 0 raises
        return ErrorReply(rating);
      }
      if FirstIsObject(actions) {
        if exists i | 0 <= i < |actions.items| :: !actions.items[i].JObj? {
          // `.get` on a non-object item raises
          return ErrorReply(rating);
        }
        actions := JArr(Flattened(actions.items, show));
      }
      assert !Raises(reply);
      result := result[ActionsKey := actions];
      if !(SentimentKey in result && result[SentimentKey].JStr? && IsValidSentiment(result[SentimentKey].s)) {
        result := result[SentimentKey := JStr(RatingSentiment(rating))];
      }
      if !(KeywordsKey in result && result[KeywordsKey].JArr?) {
        result := result[KeywordsKey := JArr([])];
      }
    }
  }

  // ---------------------------------------------------------------------
  // The client set-up as written

  /** Whether `self.client` was ever assigned. */
  datatype ClientAttribute = Unassigned | Assigned(c: Client)

  /** The constructor as written assigns `client` only when the key is set
      and non-empty; otherwise the attribute does not exist. */
  function InitClientAsWritten(apiKey: Option<string>): (a: ClientAttribute)
    ensures a.Unassigned? <==> !(apiKey.Some? && apiKey.value != "")
  {
    if apiKey.Some? && apiKey.value != "" then Assigned(Client(apiKey.value, GroqBaseUrl)) else Unassigned
  }

  datatype Outcome = Returned(reply: map<string, Json>) | AttributeError

  /** `analyze_feedback` as written: its first statement reads `self.client`,
      which raises when the attribute was never assigned. */
  function AnalyzeFeedbackAsWritten(attr: ClientAttribute, rating: int, reply: ChatReply, show: Json -> string): (o: Outcome)
    ensures o.AttributeError? <==> attr.Unassigned?
    ensures attr.Assigned? ==> o == Returned(Analysis(true, rating, reply, show))
  {
    match attr
    case Unassigned => AttributeError
    case Assigned(_) => Returned(Analysis(true, rating, reply, show))
  }

  /** With the default configuration (no key) the service as written raises
      on every call, instead of storing the no-client reply. */
  lemma NoKeyRaisesAttributeError(rating: int, reply: ChatReply, show: Json -> string)
    ensures AnalyzeFeedbackAsWritten(InitClientAsWritten(None), rating, reply, show) == AttributeError
    ensures Analysis(false, rating, reply, show) == NoClientReply(rating)
  {
  }
}

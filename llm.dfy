/**
 * What happens to the language model's answer (backend/services/llm.py): the
 * parsed JSON is checked for the four result keys and passed through, or
 * completed with defaults; a reply that is not JSON, or any exception, becomes
 * a fixed fallback record; and `call_llm` picks the back end from the
 * configuration (backend/config.py).
 *
 * The remote call itself is a parameter: it either raises (with the
 * exception's message) or answers with text that `json.loads` decodes or
 * rejects.
 */
module Llm {
  import opened Wrappers

  /** A decoded JSON value. Numbers are integers here. */
  datatype Json =
    | JNull
    | JBool(b: bool)
    | JInt(i: int)
    | JStr(s: string)
    | JArray(items: seq<Json>)
    | JObject(fields: map<string, Json>)

  /** The dictionary the service hands back to its caller. */
  type Reply = map<string, Json>

  /** What `json.loads(output)` gives. */
  datatype Decoded = Decoded(value: Json) | Malformed

  /** The Groq request: it raises an exception (with its message) or answers with text, decoded. */
  datatype ApiOutcome = Answered(decoded: Decoded) | Raised(message: string)

  /** `USE_SAGEMAKER` and `GROQ_API_KEY` as read from the environment. */
  datatype Config = Config(useSagemaker: bool, groqApiKey: string) {
    /** `USE_GROQ = bool(GROQ_API_KEY) and not USE_SAGEMAKER` */
    predicate UseGroq() {
      |groqApiKey| > 0 && !useSagemaker
    }
  }

  /** `NotImplementedError("SageMaker integration not yet implemented")` */
  datatype LlmError = NotImplemented(message: string)

  const RequiredKeys: seq<string> := ["score", "missing_skills", "suggestions", "rewritten_bullets"]

  predicate HasRequiredKeys(r: Reply) {
    "score" in r && "missing_skills" in r && "suggestions" in r && "rewritten_bullets" in r
  }

  /** The four checks are the membership of each of `RequiredKeys`. */
  lemma RequiredKeysChecked(r: Reply)
    ensures HasRequiredKeys(r) <==> forall k :: k in RequiredKeys ==> k in r
  {}

  /** A record made of exactly the four required keys. */
  function Record(score: Json, missingSkills: Json, suggestions: Json, rewrittenBullets: Json): (r: Reply)
    ensures HasRequiredKeys(r) && r.Keys == set k | k in RequiredKeys
  {
    map["score" := score, "missing_skills" := missingSkills, "suggestions" := suggestions,
        "rewritten_bullets" := rewrittenBullets]
  }

  /** Python's `d.get(key, default)`. */
  function Get(d: map<string, Json>, key: string, default: Json): Json {
    if key in d then d[key] else default
  }

  function Strings(xs: seq<string>): Json {
    JArray(seq(|xs|, i requires 0 <= i < |xs| => JStr(xs[i])))
  }

  /** The name Python gives the type of a decoded value in its error messages. */
  function TypeName(v: Json): string {
    match v
    case JNull => "NoneType"
    case JBool(_) => "bool"
    case JInt(_) => "int"
    case JStr(_) => "str"
    case JArray(_) => "list"
    case JObject(_) => "dict"
  }

  /**
   * Lines 40-51 of `call_groq_llm` applied to the decoded value. A dictionary
   * with every key is returned as it is; one missing a key is rebuilt with the
   * four keys, defaults filling the gaps. Anything else raises: `key in v` is a
   * `TypeError` for a number, a boolean or null, and a string or a list gets as
   * far as `result.get`, an `AttributeError`. The failure carries `str(e)`.
   */
  function Validate(v: Json): (r: Result<Reply, string>)
    ensures r.Success? ==> HasRequiredKeys(r.value)
    ensures r.Success? <==> v.JObject?
  {
    match v
    case JObject(d) =>
      if HasRequiredKeys(d) then Success(d)
      else Success(Record(Get(d, "score", JInt(0)), Get(d, "missing_skills", JArray([])),
                          Get(d, "suggestions", Strings(["Incomplete response from AI"])),
                          Get(d, "rewritten_bullets", JArray([]))))
    case JStr(_) | JArray(_) => Failure("'" + TypeName(v) + "' object has no attribute 'get'")
    case _ => Failure("argument of type '" + TypeName(v) + "' is not iterable")
  }

  /** The record returned when the model's text is not JSON. */
  const InvalidJsonReply: Reply :=
    Record(JInt(0), JArray([]), Strings(["AI generated invalid JSON response"]), JArray([]))

  /** The record returned for any other exception: the message cut to its first 100 characters. */
  function ApiErrorReply(message: string): (r: Reply)
    ensures HasRequiredKeys(r)
  {
    Record(JInt(0), JArray([]), Strings(["API Error: " + message[..Min(100, |message|)]]), JArray([]))
  }

  /** `call_groq_llm(prompt)` once the request has had its outcome. */
  function GroqReply(outcome: ApiOutcome): (r: Reply)
    ensures HasRequiredKeys(r)
  {
    match outcome
    case Raised(message) => ApiErrorReply(message)
    case Answered(Malformed) => InvalidJsonReply
    case Answered(Decoded(v)) =>
      match Validate(v)
      case Success(reply) => reply
      case Failure(message) => ApiErrorReply(message)
  }

  /** `call_local_llm(prompt)`: the same record whatever the prompt. */
  const LocalReply: Reply :=
    Record(JInt(0), Strings(["Groq API key not configured"]),
           Strings(["Add GROQ_API_KEY to your .env file", "Get free API key from https://console.groq.com/keys"]),
           JArray([]))

  /** `call_llm(prompt)`: SageMaker is not implemented, then Groq when configured, else the local stand-in. */
  function CallLlm(config: Config, groq: string -> ApiOutcome, prompt: string): (r: Result<Reply, LlmError>)
    ensures r.Failure? <==> config.useSagemaker
    ensures r.Success? ==> HasRequiredKeys(r.value)
  {
    if config.useSagemaker then Failure(NotImplemented("SageMaker integration not yet implemented"))
    else if config.UseGroq() then Success(GroqReply(groq(prompt)))
    else Success(LocalReply)
  }

  // ---------------------------------------------------------------------------
  // Validation

  /** A dictionary with all four keys comes back unchanged, extra keys and unchecked values included. */
  lemma ValidatePassesThrough(d: map<string, Json>)
    requires forall k :: k in RequiredKeys ==> k in d
    ensures Validate(JObject(d)) == Success(d)
    ensures GroqReply(Answered(Decoded(JObject(d)))) == d
  {
    assert HasRequiredKeys(d) by {
      forall k | 0 <= k < |RequiredKeys| ensures RequiredKeys[k] in d {
        assert RequiredKeys[k] in RequiredKeys;
      }
    }
  }

  /** The default each key gets when the model left it out. */
  function Default(key: string): Json {
    if key == "score" then JInt(0)
    else if key == "suggestions" then Strings(["Incomplete response from AI"])
    else JArray([])
  }

  /**
   * A dictionary missing a key is replaced by one with exactly the four keys:
   * those present keep their values, the others take their defaults, and any
   * extra key is dropped.
   */
  lemma {:induction false} ValidateFillsDefaults(d: map<string, Json>, missing: string)
    requires missing in RequiredKeys && missing !in d
    ensures Validate(JObject(d)).Success?
    ensures var r := Validate(JObject(d)).value;
      && r.Keys == set k | k in RequiredKeys
      && (forall k :: k in RequiredKeys ==> r[k] == Get(d, k, Default(k)))
  {
    assert !HasRequiredKeys(d) by {
      var i :| 0 <= i < |RequiredKeys| && RequiredKeys[i] == missing;
    }
  }

  /** A decoded value that is not an object makes the checks raise, with these messages. */
  lemma ValidateRejectsNonObjects(v: Json)
    requires !v.JObject?
    ensures v.JStr? || v.JArray? ==> Validate(v) == Failure("'" + TypeName(v) + "' object has no attribute 'get'")
    ensures v.JNull? || v.JBool? || v.JInt? ==> Validate(v) == Failure("argument of type '" + TypeName(v) + "' is not iterable")
  {}

  // ---------------------------------------------------------------------------
  // Fallbacks

  /** Text that is not JSON gives score 0, no skills, one fixed suggestion, no bullets; nothing is raised. */
  lemma InvalidJsonFallback()
    ensures var r := GroqReply(Answered(Malformed));
      && r["score"] == JInt(0)
      && r["missing_skills"] == JArray([])
      && r["suggestions"] == JArray([JStr("AI generated invalid JSON response")])
      && r["rewritten_bullets"] == JArray([])
  {}

  /**
   * Any other error gives score 0, empty lists and a single suggestion: "API
   * Error: " and the start of the message, at most 111 characters in all, the
   * whole message when it is at most 100 characters long.
   */
  lemma {:induction false} ApiErrorFallback(message: string)
    ensures var r := GroqReply(Raised(message));
      && r["score"] == JInt(0)
      && r["missing_skills"] == JArray([])
      && r["rewritten_bullets"] == JArray([])
      && r["suggestions"].JArray? && |r["suggestions"].items| == 1
      && r["suggestions"].items[0].JStr?
      && var s := r["suggestions"].items[0].s;
         && |s| <= 111
         && s[..11] == "API Error: "
         && (|message| <= 100 ==> s == "API Error: " + message)
         && (|message| > 100 ==> s[11..] == message[..100])
  {
    var s := "API Error: " + message[..Min(100, |message|)];
    assert GroqReply(Raised(message))["suggestions"] == JArray([JStr(s)]);
    assert s[..11] == "API Error: ";
    assert s[11..] == message[..Min(100, |message|)];
  }

  /** A decoded value that is not an object ends in the API-error record carrying the exception's message. */
  lemma NonObjectFallsBack(v: Json)
    requires !v.JObject?
    ensures GroqReply(Answered(Decoded(v))) == ApiErrorReply(Validate(v).error)
  {}

  // ---------------------------------------------------------------------------
  // Dispatch

  /** The three-way choice of `call_llm`. */
  lemma {:induction false} Dispatch(config: Config, groq: string -> ApiOutcome, prompt: string)
    ensures config.useSagemaker ==>
      CallLlm(config, groq, prompt) == Failure(NotImplemented("SageMaker integration not yet implemented"))
    ensures !config.useSagemaker && |config.groqApiKey| > 0 ==>
      CallLlm(config, groq, prompt) == Success(GroqReply(groq(prompt)))
    ensures !config.useSagemaker && |config.groqApiKey| == 0 ==>
      CallLlm(config, groq, prompt) == Success(LocalReply)
  {}

  /** Without SageMaker and without a Groq key the answer is the same for every prompt and never calls Groq. */
  lemma LocalIgnoresPrompt(config: Config, groq1: string -> ApiOutcome, groq2: string -> ApiOutcome, p1: string, p2: string)
    requires !config.useSagemaker && config.groqApiKey == []
    ensures CallLlm(config, groq1, p1) == CallLlm(config, groq2, p2) == Success(LocalReply)
    ensures LocalReply["score"] == JInt(0) && LocalReply["rewritten_bullets"] == JArray([])
    ensures LocalReply["missing_skills"] == JArray([JStr("Groq API key not configured")])
    ensures LocalReply["suggestions"].JArray? && |LocalReply["suggestions"].items| == 2
  {}

  /** Whatever the request does, a call that does not raise returns a record with the four keys. */
  lemma EveryReplyHasRequiredKeys(config: Config, groq: string -> ApiOutcome, prompt: string)
    requires !config.useSagemaker
    ensures CallLlm(config, groq, prompt).Success?
    ensures forall k :: k in RequiredKeys ==> k in CallLlm(config, groq, prompt).value
  {
    var r := CallLlm(config, groq, prompt).value;
    forall k | k in RequiredKeys ensures k in r {
      var i :| 0 <= i < |RequiredKeys| && RequiredKeys[i] == k;
    }
  }
}

/** The decision engine client (services/geminiService.ts): builds the
    outbound message list from the history, interprets the provider's reply
    and rewrites every failure into one of three error codes.

    The network call and the JSON decoding of the model's content are not
    modelled; they are the parameters `send` and `parse`, so every lemma
    below holds whatever the provider answers and whatever `parse` makes of
    it. */
module GeminiService {
  import opened Wrappers
  import opened Types
  import opened Strings
  import opened Conversation

  /** The error messages the service throws. */
  const KeyNotFound: string := "KEY_NOT_FOUND"
  const QuotaLimit: string := "QUOTA_LIMIT"
  const GroqApiError: string := "GROQ_API_ERROR"
  const EmptyResponse: string := "EMPTY_RESPONSE"
  const DecisionEngineFailure: string := "DECISION_ENGINE_FAILURE"

  /** The three codes a caller of `AnalyzeDecision` can see. */
  predicate IsErrorCode(code: string) {
    code == QuotaLimit || code == KeyNotFound || code == DecisionEngineFailure
  }

  /** The fixed system instruction; its wording plays no part in the logic. */
  const SystemPrompt: string

  /** One entry of the request's `messages` array. */
  datatype OutboundMessage = OutboundMessage(role: string, content: string)

  /** What `res.json()` gives: the reply's `choices[0].message.content`
      (absent when any link of that path is missing), or the message of the
      error it threw. */
  datatype Envelope = Decoded(content: Option<string>) | Undecodable(message: string)

  /** What `fetch` gives: a response, or the message of the error it threw.
      A response has its HTTP status; `textError`, the message `res.text()`
      throws when reading the body of a non-OK response fails (`None` when
      it reads); and `body`, what `res.json()` gives for an OK one. */
  datatype Transport =
    | Received(status: int, textError: Option<string>, body: Envelope)
    | Rejected(message: string)

  /** A successful analysis, as `analyzeDecision` resolves it. */
  datatype Reply = Reply(analysis: DecisionAnalysis, usedFallback: bool)

  /** `res.ok`: a status in the 200–299 range. */
  predicate IsOk(status: int) {
    200 <= status <= 299
  }

  /** `!GROQ_API_KEY`: the key is undefined or the empty string. */
  predicate KeyMissing(key: Option<string>) {
    key == None || key == Some("")
  }

  /** `!text`: the content is absent or empty. */
  predicate NoContent(content: Option<string>) {
    content == None || content == Some("")
  }

  /** One history turn as an outbound message, role and text carried over. */
  function ToWire(m: ChatMessage): OutboundMessage {
    OutboundMessage(RoleName(m.role), m.text)
  }

  /** `history.map(m => ({ role: m.role, content: m.text }))`. */
  function ToWireAll(h: seq<ChatMessage>): (w: seq<OutboundMessage>)
    ensures |w| == |h|
    ensures forall i | 0 <= i < |h| :: w[i].role == RoleName(h[i].role) && w[i].content == h[i].text
  {
    if h == [] then [] else [ToWire(h[0])] + ToWireAll(h[1..])
  }

  /** The request's `messages`: the system instruction, then one message per
      turn of the trimmed history, in order. */
  function BuildMessages(history: seq<ChatMessage>): (msgs: seq<OutboundMessage>)
    ensures |msgs| == 1 + Min(MaxTurns, |history|)
    ensures msgs[0] == OutboundMessage("system", SystemPrompt)
    ensures forall i | 1 <= i < |msgs| :: msgs[i].role != "system"
  {
    [OutboundMessage("system", SystemPrompt)] + ToWireAll(TrimHistory(history))
  }

  /** After the system instruction, the message list mirrors the trimmed
      history (the newest `Min(MaxTurns, |history|)` turns) one for one, in
      order, each message with its turn's role and text. */
  lemma BuildMessagesMirrorsHistory(history: seq<ChatMessage>, i: nat)
    requires 1 <= i < |BuildMessages(history)|
    ensures var m := history[|history| - |TrimHistory(history)| + (i - 1)];
      BuildMessages(history)[i].role == RoleName(m.role) && BuildMessages(history)[i].content == m.text
  {
    var t := TrimHistory(history);
    var w := ToWireAll(t);
    assert BuildMessages(history) == [OutboundMessage("system", SystemPrompt)] + w;
    assert BuildMessages(history)[i] == w[i - 1];
    assert t[i - 1] == history[|history| - |t| + (i - 1)];
  }

  /** The body of the `try`: send the request and interpret the reply. A
      `Failure` carries the message of whatever was thrown inside it. */
  function TryRequest(
    msgs: seq<OutboundMessage>,
    send: seq<OutboundMessage> -> Transport,
    parse: string -> Result<DecisionAnalysis, string>): (r: Result<Reply, string>)
    ensures var t := send(msgs);
      r.Success? <==>
        t.Received? && IsOk(t.status) && t.body.Decoded? && !NoContent(t.body.content) &&
        parse(t.body.content.value).Success?
    ensures r.Success? ==>
      var t := send(msgs);
      r.value == Reply(parse(t.body.content.value).value, false)
    ensures var t := send(msgs);
      t.Received? && !IsOk(t.status) ==>
        r == Failure(if t.textError.Some? then t.textError.value
                     else if t.status == 429 then QuotaLimit else GroqApiError)
    ensures var t := send(msgs);
      t.Received? && IsOk(t.status) && t.body.Decoded? && NoContent(t.body.content) ==>
        r == Failure(EmptyResponse)
    ensures var t := send(msgs);
      t.Rejected? ==> r == Failure(t.message)
    ensures var t := send(msgs);
      t.Received? && IsOk(t.status) && t.body.Undecodable? ==> r == Failure(t.body.message)
    ensures var t := send(msgs);
      (t.Received? && IsOk(t.status) && t.body.Decoded? && !NoContent(t.body.content) &&
       parse(t.body.content.value).Failure?) ==>
        r == Failure(parse(t.body.content.value).error)
  {
    match send(msgs)
    case Rejected(m) => Failure(m)
    case Received(status, textError, body) =>
      if !IsOk(status) then
        if textError.Some? then Failure(textError.value)
        else if status == 429 then Failure(QuotaLimit) else Failure(GroqApiError)
      else
        match body
        case Undecodable(m) => Failure(m)
        case Decoded(content) =>
          if NoContent(content) then Failure(EmptyResponse)
          else
            match parse(content.value)
            case Success(a) => Success(Reply(a, false))
            case Failure(m) => Failure(m)
  }

  /** The `catch` block: sniff the lower-cased message for substrings. */
  function Classify(msg: string): (code: string)
    ensures IsErrorCode(code)
  {
    var l := LowerCase(msg);
    if Contains(l, "quota") || Contains(l, "429") then QuotaLimit
    else if Contains(l, "key") then KeyNotFound
    else DecisionEngineFailure
  }

  /** `analyzeDecision(history)`. The key check comes before the `try`, so
      its error is not reclassified; everything thrown inside is. */
  function AnalyzeDecision(
    key: Option<string>,
    history: seq<ChatMessage>,
    send: seq<OutboundMessage> -> Transport,
    parse: string -> Result<DecisionAnalysis, string>): (r: Result<Reply, string>)
    ensures KeyMissing(key) ==> r == Failure(KeyNotFound)
    ensures r.Failure? ==> IsErrorCode(r.error)
    ensures r.Success? ==>
      !r.value.usedFallback &&
      var t := send(BuildMessages(history));
      t.Received? && IsOk(t.status) && t.body.Decoded? && !NoContent(t.body.content) &&
      parse(t.body.content.value) == Success(r.value.analysis)
  {
    if KeyMissing(key) then Failure(KeyNotFound)
    else
      match TryRequest(BuildMessages(history), send, parse)
      case Success(reply) => Success(reply)
      case Failure(m) => Failure(Classify(m))
  }

  /** The quota message stays a quota error: "quota_limit" contains "quota". */
  lemma ClassifyQuotaLimit()
    ensures Classify(QuotaLimit) == QuotaLimit
  {
    forall j | 0 <= j < 5 ensures LowerChar(QuotaLimit[j]) == "quota"[j] {
      assert j == 0 || j == 1 || j == 2 || j == 3 || j == 4;
    }
    OccursLowered(QuotaLimit, "quota", 0);
  }

  /** The key message stays a key error: "key_not_found" has neither a 'q'
      nor a '4', but begins with "key". */
  lemma ClassifyKeyNotFound()
    ensures Classify(KeyNotFound) == KeyNotFound
  {
    KeyNotFoundLacksQuotaChars();
    KeyNotFoundMentionsKey();
    KeyWithoutQuota(KeyNotFound, 'q', '4');
  }

  /** "KEY_NOT_FOUND" has no 'q', no 'Q' and no '4'. */
  lemma KeyNotFoundLacksQuotaChars()
    ensures 'q' !in KeyNotFound && 'Q' !in KeyNotFound && '4' !in KeyNotFound
  {
  }

  /** "DECISION_ENGINE_FAILURE" has no 'q', no 'Q' and no '4'. */
  lemma EngineFailureLacksQuotaChars()
    ensures 'q' !in DecisionEngineFailure && 'Q' !in DecisionEngineFailure
    ensures '4' !in DecisionEngineFailure
  {
  }

  /** "DECISION_ENGINE_FAILURE" has no 'k', no 'K' and no Kelvin sign. */
  lemma EngineFailureLacksKeyChars()
    ensures 'k' !in DecisionEngineFailure && 'K' !in DecisionEngineFailure
    ensures Kelvin !in DecisionEngineFailure
  {
  }

  /** "EMPTY_RESPONSE" has no 'q', 'Q', '4', 'k', 'K' or Kelvin sign. */
  lemma EmptyResponseLacksCodeChars()
    ensures 'q' !in EmptyResponse && 'Q' !in EmptyResponse && '4' !in EmptyResponse
    ensures 'k' !in EmptyResponse && 'K' !in EmptyResponse && Kelvin !in EmptyResponse
  {
  }

  /** "GROQ_API_ERROR" has no 'u', 'U', '4', 'k', 'K' or Kelvin sign. */
  lemma GroqApiErrorLacksCodeChars()
    ensures 'u' !in GroqApiError && 'U' !in GroqApiError && '4' !in GroqApiError
    ensures 'k' !in GroqApiError && 'K' !in GroqApiError && Kelvin !in GroqApiError
  {
  }

  /** Lower-cased, "KEY_NOT_FOUND" begins with "key". */
  lemma KeyNotFoundMentionsKey()
    ensures Contains(LowerCase(KeyNotFound), "key")
  {
    forall j | 0 <= j < 3 ensures LowerChar(KeyNotFound[j]) == "key"[j] {
      assert j == 0 || j == 1 || j == 2;
    }
    OccursLowered(KeyNotFound, "key", 0);
  }

  /** The generic failure code stays the generic failure. */
  lemma ClassifyDecisionEngineFailure()
    ensures Classify(DecisionEngineFailure) == DecisionEngineFailure
  {
    EngineFailureLacksQuotaChars();
    EngineFailureLacksKeyChars();
    FallsThrough(DecisionEngineFailure, 'q', '4', 'k');
  }

  /** The provider-error message becomes the generic failure:
      "groq_api_error" has a 'q' but no 'u', and no '4' or 'k'. */
  lemma ClassifyGroqApiError()
    ensures Classify(GroqApiError) == DecisionEngineFailure
  {
    GroqApiErrorLacksCodeChars();
    FallsThrough(GroqApiError, 'u', '4', 'k');
  }

  /** The empty-response message becomes the generic failure. */
  lemma ClassifyEmptyResponse()
    ensures Classify(EmptyResponse) == DecisionEngineFailure
  {
    EmptyResponseLacksCodeChars();
    FallsThrough(EmptyResponse, 'q', '4', 'k');
  }

  /** A message that lacks, in either case, one letter of "quota" (`cq`),
      one character of "429" (`c4`) and one letter of "key" (`ck`) falls
      through to the generic failure. */
  lemma FallsThrough(msg: string, cq: char, c4: char, ck: char)
    requires cq in "quota" && c4 in "429" && ck in "key"
    requires cq !in msg && (cq as int - 32) as char !in msg
    requires c4 !in msg
    requires ck !in msg && (ck as int - 32) as char !in msg && (ck == 'k' ==> Kelvin !in msg)
    ensures Classify(msg) == DecisionEngineFailure
  {
    LowerCaseExcludes(msg, cq);
    MissingCharNotContained(LowerCase(msg), "quota", cq);
    LowerCaseExcludes(msg, c4);
    MissingCharNotContained(LowerCase(msg), "429", c4);
    LowerCaseExcludes(msg, ck);
    MissingCharNotContained(LowerCase(msg), "key", ck);
  }

  /** A message that lacks, in either case, one letter of "quota" and one
      character of "429", and whose lower-cased form contains "key", is
      classified as a key error. */
  lemma KeyWithoutQuota(msg: string, cq: char, c4: char)
    requires cq in "quota" && c4 in "429"
    requires cq !in msg && (cq as int - 32) as char !in msg
    requires c4 !in msg
    requires Contains(LowerCase(msg), "key")
    ensures Classify(msg) == KeyNotFound
  {
    LowerCaseExcludes(msg, cq);
    MissingCharNotContained(LowerCase(msg), "quota", cq);
    LowerCaseExcludes(msg, c4);
    MissingCharNotContained(LowerCase(msg), "429", c4);
  }

  /** A message whose characters from position `i` lower-case to `sub`
      contains `sub` once lower-cased. */
  lemma OccursLowered(msg: string, sub: string, i: nat)
    requires i + |sub| <= |msg|
    requires forall j | 0 <= j < |sub| :: LowerChar(msg[i + j]) == sub[j]
    ensures Contains(LowerCase(msg), sub)
  {
    var l := LowerCase(msg);
    assert l[i..i + |sub|] == sub;
    assert OccursAt(l, sub, i);
    ContainsIff(l, sub);
  }

  /** Classifying a code again leaves it as it is. */
  lemma ClassifyIdempotent(msg: string)
    ensures Classify(Classify(msg)) == Classify(msg)
  {
    var c := Classify(msg);
    if c == QuotaLimit { ClassifyQuotaLimit(); }
    else if c == KeyNotFound { ClassifyKeyNotFound(); }
    else { ClassifyDecisionEngineFailure(); }
  }

  /** The classification ignores letter case. */
  lemma ClassifyIgnoresCase(msg: string)
    ensures Classify(LowerCase(msg)) == Classify(msg)
  {
    LowerCaseIdempotent(msg);
  }

  /** The classification in terms of occurrences: quota when "quota" or
      "429" occurs in the lower-cased message, otherwise key when "key"
      occurs, otherwise the generic failure. */
  lemma ClassifyByOccurrence(msg: string)
    ensures Classify(msg) == QuotaLimit <==>
      Occurs(LowerCase(msg), "quota") || Occurs(LowerCase(msg), "429")
    ensures Classify(msg) == KeyNotFound <==>
      !Occurs(LowerCase(msg), "quota") && !Occurs(LowerCase(msg), "429") && Occurs(LowerCase(msg), "key")
    ensures Classify(msg) == DecisionEngineFailure <==>
      !Occurs(LowerCase(msg), "quota") && !Occurs(LowerCase(msg), "429") && !Occurs(LowerCase(msg), "key")
  {
    var l := LowerCase(msg);
    ContainsIff(l, "quota");
    ContainsIff(l, "429");
    ContainsIff(l, "key");
  }

  /** With no key, the result does not depend on the network at all: no
      request is sent. */
  lemma MissingKeySendsNothing(
    key: Option<string>, history: seq<ChatMessage>,
    send1: seq<OutboundMessage> -> Transport, send2: seq<OutboundMessage> -> Transport,
    parse: string -> Result<DecisionAnalysis, string>)
    requires KeyMissing(key)
    ensures AnalyzeDecision(key, history, send1, parse) == Failure(KeyNotFound)
    ensures AnalyzeDecision(key, history, send1, parse) == AnalyzeDecision(key, history, send2, parse)
  {
  }

  /** The only request the service sends is `BuildMessages(history)`: two
      networks that answer it alike give the same result. */
  lemma OnlyBuiltMessagesAreSent(
    key: Option<string>, history: seq<ChatMessage>,
    send1: seq<OutboundMessage> -> Transport, send2: seq<OutboundMessage> -> Transport,
    parse: string -> Result<DecisionAnalysis, string>)
    requires send1(BuildMessages(history)) == send2(BuildMessages(history))
    ensures AnalyzeDecision(key, history, send1, parse) == AnalyzeDecision(key, history, send2, parse)
  {
  }

  /** HTTP 429 ends as the quota error, once its body has been read. */
  lemma QuotaStatusIsQuotaLimit(
    key: Option<string>, history: seq<ChatMessage>,
    send: seq<OutboundMessage> -> Transport, parse: string -> Result<DecisionAnalysis, string>)
    requires !KeyMissing(key)
    requires var t := send(BuildMessages(history));
      t.Received? && t.status == 429 && t.textError == None
    ensures AnalyzeDecision(key, history, send, parse) == Failure(QuotaLimit)
  {
    ClassifyQuotaLimit();
  }

  /** Any other non-OK status ends as the generic failure, once its body
      has been read. */
  lemma ErrorStatusIsEngineFailure(
    key: Option<string>, history: seq<ChatMessage>,
    send: seq<OutboundMessage> -> Transport, parse: string -> Result<DecisionAnalysis, string>)
    requires !KeyMissing(key)
    requires var t := send(BuildMessages(history));
      t.Received? && !IsOk(t.status) && t.status != 429 && t.textError == None
    ensures AnalyzeDecision(key, history, send, parse) == Failure(DecisionEngineFailure)
  {
    ClassifyGroqApiError();
  }

  /** An OK response without content ends as the generic failure. */
  lemma EmptyContentIsEngineFailure(
    key: Option<string>, history: seq<ChatMessage>,
    send: seq<OutboundMessage> -> Transport, parse: string -> Result<DecisionAnalysis, string>)
    requires !KeyMissing(key)
    requires var t := send(BuildMessages(history));
      t.Received? && IsOk(t.status) && t.body.Decoded? && NoContent(t.body.content)
    ensures AnalyzeDecision(key, history, send, parse) == Failure(DecisionEngineFailure)
  {
    ClassifyEmptyResponse();
  }

  /** An OK response whose content parses gives that analysis, with the
      fallback flag off. */
  lemma ParsedContentIsReturned(
    key: Option<string>, history: seq<ChatMessage>,
    send: seq<OutboundMessage> -> Transport, parse: string -> Result<DecisionAnalysis, string>,
    a: DecisionAnalysis)
    requires !KeyMissing(key)
    requires var t := send(BuildMessages(history));
      t.Received? && IsOk(t.status) && t.body.Decoded? && !NoContent(t.body.content) &&
      parse(t.body.content.value) == Success(a)
    ensures AnalyzeDecision(key, history, send, parse) == Success(Reply(a, false))
  {
  }

  /** Errors thrown by the network, by reading a non-OK body with
      `res.text()`, by `res.json()` or by `JSON.parse` reach the caller only
      through the classifier. */
  lemma ThrownErrorsAreClassified(
    key: Option<string>, history: seq<ChatMessage>,
    send: seq<OutboundMessage> -> Transport, parse: string -> Result<DecisionAnalysis, string>,
    m: string)
    requires !KeyMissing(key)
    requires var t := send(BuildMessages(history));
      t == Rejected(m) ||
      (t.Received? && !IsOk(t.status) && t.textError == Some(m)) ||
      (t.Received? && IsOk(t.status) && t.body == Undecodable(m)) ||
      (t.Received? && IsOk(t.status) && t.body.Decoded? && !NoContent(t.body.content) &&
       parse(t.body.content.value) == Failure(m))
    ensures AnalyzeDecision(key, history, send, parse) == Failure(Classify(m))
  {
  }

  /** The page passes a history it has already trimmed; trimming it again
      inside the service makes no difference. */
  lemma RetrimmingChangesNothing(
    key: Option<string>, history: seq<ChatMessage>,
    send: seq<OutboundMessage> -> Transport, parse: string -> Result<DecisionAnalysis, string>)
    ensures AnalyzeDecision(key, TrimHistory(history), send, parse) == AnalyzeDecision(key, history, send, parse)
  {
    TrimHistoryIdempotent(history);
    assert BuildMessages(TrimHistory(history)) == BuildMessages(history);
  }
}

/** The page component (App.tsx): seven pieces of state and the handlers
    that overwrite them. The `await` inside `handleAnalyze` splits it into
    two steps, `BeginSubmit` (up to the request) and `Settle` (after it);
    `HandleAnalyze` runs both around the service call. */
module App {
  import opened Wrappers
  import opened Types
  import opened Strings
  import opened Conversation
  import GeminiService

  /** The tabs of the analyzed view. */
  datatype Tab = MapTab | LabTab | QuickTab

  /** The user-facing error messages. */
  const CapacityMessage: string := "Decision engine is at capacity. Please try again shortly."
  const KeyMessage: string := "Groq API key not found. Check your .env.local file."
  const GenericMessage: string := "Critical failure. The paths are unclear right now."

  /** The assistant turn recorded when the reply has no chat text. */
  const Placeholder: string := "Strategy map updated."

  /** `customMsg || input.trim()`: a non-empty custom message is used as it
      is; otherwise the trimmed input. */
  function SubmittedText(customMsg: Option<string>, input: string): (msg: string)
    ensures msg == [] <==> (customMsg == None || customMsg == Some("")) && AllWhitespace(input)
    ensures customMsg.Some? && customMsg.value != [] ==> msg == customMsg.value
    ensures (customMsg == None || customMsg == Some("")) ==> msg == Trim(input)
  {
    TrimEmptyIff(input);
    if customMsg.Some? && customMsg.value != [] then customMsg.value else Trim(input)
  }

  /** The message shown for an error code: capacity for the quota code, the
      key message for the key code, the generic message for anything else. */
  function ErrorMessage(code: string): (m: string)
    ensures m == CapacityMessage || m == KeyMessage || m == GenericMessage
    ensures m == CapacityMessage <==> code == GeminiService.QuotaLimit
    ensures m == KeyMessage <==> code == GeminiService.KeyNotFound
  {
    if code == GeminiService.QuotaLimit then CapacityMessage
    else if code == GeminiService.KeyNotFound then KeyMessage
    else GenericMessage
  }

  /** `chatResponse || 'Strategy map updated.'`: the assistant turn's text is
      never empty, and is the chat reply whenever there is one. */
  function AssistantText(a: DecisionAnalysis): (t: string)
    ensures t != []
    ensures a.chatResponse != [] ==> t == a.chatResponse
    ensures a.chatResponse == [] ==> t == Placeholder
  {
    if a.chatResponse != [] then a.chatResponse else Placeholder
  }

  class AppState {
    var input: string
    var status: AppStatus
    var analysis: Option<DecisionAnalysis>
    var history: seq<ChatMessage>
    var error: Option<string>
    var activeTab: Tab
    var isUsingFallback: bool

    /** What every handler keeps: at most one assistant turn beyond the
        request window, and the analyzed view always has an analysis and a
        history ending with the assistant's turn. */
    ghost predicate Valid()
      reads this
    {
      |history| <= MaxTurns + 1 &&
      (status == Analyzed ==>
        analysis.Some? && history != [] && history[|history| - 1].role == Assistant)
    }

    /** The `analysis && status === 'analyzed'` guard of the report view. */
    predicate ShowsReport()
      reads this
    {
      analysis.Some? && status == Analyzed
    }

    /** The initial `useState` values. */
    constructor ()
      ensures Valid()
      ensures input == [] && status == Idle && analysis == None && history == []
      ensures error == None && activeTab == MapTab && !isUsingFallback
    {
      input := [];
      status := Idle;
      analysis := None;
      history := [];
      error := None;
      activeTab := MapTab;
      isUsingFallback := false;
    }

    /** In a valid state the report is shown exactly in the analyzed status. */
    lemma ReportShownIffAnalyzed()
      requires Valid()
      ensures ShowsReport() <==> status == Analyzed
    {
    }

    /** The textarea's `onChange`. */
    method EditInput(text: string)
      requires Valid()
      modifies this
      ensures Valid()
      ensures input == text
      ensures status == old(status) && analysis == old(analysis) && history == old(history)
      ensures error == old(error) && activeTab == old(activeTab) && isUsingFallback == old(isUsingFallback)
    {
      input := text;
    }

    /** `handleAnalyze` up to the `await`: pick the message; if there is
        none, do nothing; otherwise enter the loading state and return the
        history to send, the old history plus the user's turn, cut to the
        most recent turns. */
    method BeginSubmit(customMsg: Option<string>) returns (request: Option<seq<ChatMessage>>)
      requires Valid()
      modifies this
      ensures Valid()
      ensures SubmittedText(customMsg, old(input)) == [] ==>
        request == None &&
        status == old(status) && error == old(error) && isUsingFallback == old(isUsingFallback)
      ensures var msg := SubmittedText(customMsg, old(input));
        msg != [] ==>
          request == Some(TrimHistory(old(history) + [ChatMessage(User, msg)])) &&
          |request.value| == Min(MaxTurns, |old(history)| + 1) &&
          request.value[|request.value| - 1] == ChatMessage(User, msg) &&
          status == Loading && error == None && !isUsingFallback
      ensures input == old(input) && analysis == old(analysis) && history == old(history)
      ensures activeTab == old(activeTab)
    {
      var msg := SubmittedText(customMsg, input);
      if msg == [] {
        return None;
      }
      status := Loading;
      error := None;
      isUsingFallback := false;
      var turn := ChatMessage(User, msg);
      var window := TrimHistory(history + [turn]);
      assert window[|window| - 1] == (history + [turn])[|history|];
      request := Some(window);
    }

    /** `handleAnalyze` after the `await`: on success replace the analysis,
        record the assistant's turn after the request window, and show the
        map; on failure show the message for the error code and keep the
        history and the analysis as they were. */
    method Settle(request: seq<ChatMessage>, outcome: Result<GeminiService.Reply, string>)
      requires Valid()
      requires |request| <= MaxTurns
      modifies this
      ensures Valid()
      ensures match outcome
        case Success(reply) =>
          analysis == Some(reply.analysis) &&
          isUsingFallback == reply.usedFallback &&
          history == request + [ChatMessage(Assistant, AssistantText(reply.analysis))] &&
          status == Analyzed && input == [] && activeTab == MapTab && error == old(error)
        case Failure(code) =>
          error == Some(ErrorMessage(code)) && status == Error &&
          analysis == old(analysis) && history == old(history) && input == old(input) &&
          activeTab == old(activeTab) && isUsingFallback == old(isUsingFallback)
    {
      match outcome
      case Success(reply) =>
        analysis := Some(reply.analysis);
        isUsingFallback := reply.usedFallback;
        history := request + [ChatMessage(Assistant, AssistantText(reply.analysis))];
        status := Analyzed;
        input := [];
        activeTab := MapTab;
      case Failure(code) =>
        error := Some(ErrorMessage(code));
        status := Error;
    }

    /** The whole of `handleAnalyze`: `BeginSubmit`, the service call with
        the returned history, then `Settle`. */
    method HandleAnalyze(
      customMsg: Option<string>,
      key: Option<string>,
      send: seq<GeminiService.OutboundMessage> -> GeminiService.Transport,
      parse: string -> Result<DecisionAnalysis, string>)
      requires Valid()
      modifies this
      ensures Valid()
      ensures var msg := SubmittedText(customMsg, old(input));
        msg == [] ==>
          status == old(status) && analysis == old(analysis) && history == old(history) &&
          input == old(input) && error == old(error) && activeTab == old(activeTab) &&
          isUsingFallback == old(isUsingFallback)
      ensures var msg := SubmittedText(customMsg, old(input));
        var request := TrimHistory(old(history) + [ChatMessage(User, msg)]);
        msg != [] ==>
          match GeminiService.AnalyzeDecision(key, request, send, parse)
          case Success(reply) =>
            status == Analyzed && analysis == Some(reply.analysis) && !isUsingFallback &&
            history == request + [ChatMessage(Assistant, AssistantText(reply.analysis))] &&
            input == [] && activeTab == MapTab && error == None
          case Failure(code) =>
            status == Error && error == Some(ErrorMessage(code)) && !isUsingFallback &&
            analysis == old(analysis) && history == old(history) && input == old(input) &&
            activeTab == old(activeTab)
    {
      var request := BeginSubmit(customMsg);
      if request.Some? {
        var response := GeminiService.AnalyzeDecision(key, request.value, send, parse);
        Settle(request.value, response);
      }
    }

    /** The header's click handler: back to the idle form with no analysis
        and no history, from any state. */
    method Reset()
      requires Valid()
      modifies this
      ensures Valid()
      ensures status == Idle && analysis == None && history == []
      ensures error == old(error) && input == old(input) && activeTab == old(activeTab)
      ensures isUsingFallback == old(isUsingFallback)
    {
      status := Idle;
      analysis := None;
      history := [];
    }

    /** The error view's retry button: back to the idle form, nothing else. */
    method Retry()
      requires Valid()
      modifies this
      ensures Valid()
      ensures status == Idle
      ensures analysis == old(analysis) && history == old(history) && error == old(error)
      ensures input == old(input) && activeTab == old(activeTab)
      ensures isUsingFallback == old(isUsingFallback)
    {
      status := Idle;
    }

    /** A tab button of the report view. */
    method SelectTab(t: Tab)
      requires Valid()
      modifies this
      ensures Valid()
      ensures activeTab == t
      ensures status == old(status) && analysis == old(analysis) && history == old(history)
      ensures error == old(error) && input == old(input) && isUsingFallback == old(isUsingFallback)
    {
      activeTab := t;
    }
  }
}

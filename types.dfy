/** The application's value types: the status of the page, one turn of the
    conversation, and the five-panel analysis the decision engine returns. */
module Types {

  /** Which view the page shows; a closed set of four states. */
  datatype AppStatus = Idle | Loading | Analyzed | Error

  /** Who wrote a conversation turn. The history never holds a system turn:
      the system instruction appears only in the outbound message list. */
  datatype Role = User | Assistant

  /** One turn of the conversation history. */
  datatype ChatMessage = ChatMessage(role: Role, text: string)

  /** One of the options weighed in panel 3. */
  datatype DecisionOption = DecisionOption(
    name: string,
    description: string,
    pros: seq<string>,
    cons: seq<string>,
    tradeOff: string)

  /** Panel 1: the situation. */
  datatype SituationPanel = SituationPanel(title: string, narration: string)

  /** Panel 2: the key questions. */
  datatype QuestionsPanel = QuestionsPanel(title: string, questions: seq<string>)

  /** Panel 3: the options. */
  datatype OptionsPanel = OptionsPanel(title: string, options: seq<DecisionOption>)

  /** Panel 4: the verdict. */
  datatype VerdictPanel = VerdictPanel(
    title: string,
    verdict: string,
    reasoning: string,
    assumptions: seq<string>)

  /** Panel 5: the confidence. The score is a JavaScript number; nothing in
      the program computes with it, so a `real` stands for it. */
  datatype ConfidencePanel = ConfidencePanel(
    title: string,
    confidenceScore: real,
    explanation: string)

  /** A complete analysis: the chat reply plus exactly five panels. */
  datatype DecisionAnalysis = DecisionAnalysis(
    chatResponse: string,
    panel1: SituationPanel,
    panel2: QuestionsPanel,
    panel3: OptionsPanel,
    panel4: VerdictPanel,
    panel5: ConfidencePanel)

  /** The set of all statuses. */
  function AllStatuses(): set<AppStatus> {
    {Idle, Loading, Analyzed, Error}
  }

  /** `AppStatus` has exactly four values, and every status is one of them. */
  lemma AppStatusIsClosed(s: AppStatus)
    ensures s in AllStatuses()
    ensures |AllStatuses()| == 4
  {
    assert AllStatuses() == {Idle} + {Loading} + {Analyzed} + {Error};
  }

  /** The wire name of a role, as the outbound request spells it. */
  function RoleName(r: Role): (name: string)
    ensures name != "system"
    ensures name == "user" <==> r == User
    ensures r == Assistant ==> name == "assistant"
  {
    match r
    case User => "user"
    case Assistant => "assistant"
  }
}

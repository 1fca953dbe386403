/** The earlier draft of the interview screen, in which `App` holds the chat
    input itself. Its state is `{problem, code, interviewStarted, messages,
    userInput, isLoading}` (no error field: a validation failure is an `alert`).
    As written, the draft never calls the API: the two awaited calls are
    commented out and fixed simulated replies stand in for them, so the reply
    below is an input and the source always supplies `Success(SimulatedOpening)`
    and `Success(SimulatedFollowUp)`. */
module Draft {
  import opened Wrappers
  import opened JsValue
  import opened Api
  import opened Transcript
  import JsText

  datatype DraftState = DraftState(
    problem: string,
    code: string,
    interviewStarted: bool,
    messages: seq<Message>,
    userInput: string,
    isLoading: bool)

  type Reply = Result<string, string>

  const Initial := DraftState("", "", false, [], "", false)

  const SimulatedOpening := "Thank you for sharing your code. Could you briefly walk me through your overall approach to solving this problem?"
  const SimulatedFollowUp := "That's an interesting way to put it. What is the time and space complexity of this solution, and can you explain why?"
  const OpeningApology := "Sorry, I seem to be having trouble starting the interview. Please try again."
  const SendApology := "My apologies, I encountered an error. Could you repeat that?"
  const FallbackQuestion := "I'm sorry, I'm not sure how to respond to that. Let's try a different question. Can you explain your choice of data structures?"

  /** The fixed text of the draft's opening message around the two inputs. */
  const DraftHead :=
    "You are a senior engineer at a top tech company (like Google or Meta) conducting a technical interview. Your tone should be professional, encouraging, but also probing. The user has provided a LeetCode-style problem and their solution.\n" +
    "\n" +
    "                Your task is to engage in a dialogue to assess their understanding. Do NOT solve the problem for them or give them the answer. Ask one open-ended question at a time to see how they think.\n" +
    "\n" +
    "                Here is the problem:\n" +
    "                ---\n" +
    "                "
  const DraftMiddle :=
    "\n" +
    "                ---\n" +
    "\n" +
    "                Here is the user's code solution:\n" +
    "                ---\n" +
    "                "
  const DraftTail :=
    "\n" +
    "                ---\n" +
    "\n" +
    "                Start the interview by asking them to explain their overall approach in a sentence or two. Then, wait for their response."

  /** The text of the draft's opening message. */
  function DraftPrompt(problem: string, code: string): string {
    DraftHead + problem + DraftMiddle + code + DraftTail
  }

  /** The draft's opening message embeds both inputs verbatim, the problem first. */
  lemma DraftPromptRoundTrip(problem: string, code: string)
    ensures TemplateInputs(DraftPrompt(problem, code), DraftHead, DraftMiddle, DraftTail, |problem|) == Some((problem, code))
  {
    TemplateRoundTrip(DraftHead, problem, DraftMiddle, code, DraftTail);
  }

  predicate InputsBlank(s: DraftState) {
    JsText.IsBlank(s.problem) || JsText.IsBlank(s.code)
  }

  /** The opening history, or `None` when the handler returns at the blank check. */
  function OpeningRequest(s: DraftState): (r: Option<seq<Content>>)
    ensures r.None? <==> InputsBlank(s)
    ensures r.Some? ==> |r.value| == 1 && r.value[0].role == "user"
    ensures r.Some? ==> r.value[0].parts == [Part(DraftPrompt(s.problem, s.code))]
  {
    if InputsBlank(s) then None else Some([Content("user", [Part(DraftPrompt(s.problem, s.code))])])
  }

  /** The state while the opening reply is awaited. */
  function AwaitingOpening(s: DraftState): (r: DraftState)
    ensures r.interviewStarted && r.isLoading
    ensures r.messages == s.messages && r.userInput == s.userInput
    ensures r.problem == s.problem && r.code == s.code
  {
    s.(interviewStarted := true, isLoading := true)
  }

  /** The draft `handleStartInterview`, run to completion: blank inputs change
      nothing; otherwise the transcript becomes one model turn, the reply or
      the opening apology, and the interview stays started either way. */
  function StartInterview(s: DraftState, reply: Reply): (r: DraftState)
    ensures InputsBlank(s) ==> r == s
    ensures !InputsBlank(s) ==>
      && r.messages == [Message(ModelRole, if reply.Success? then reply.value else OpeningApology)]
      && r.interviewStarted && !r.isLoading
      && r.problem == s.problem && r.code == s.code && r.userInput == s.userInput
  {
    if InputsBlank(s) then s
    else
      var awaiting := AwaitingOpening(s);
      match reply
      case Success(response) => awaiting.(messages := [Message(ModelRole, response)], isLoading := false)
      case Failure(_) => awaiting.(messages := [Message(ModelRole, OpeningApology)], isLoading := false)
  }

  /** `!userInput.trim() || isLoading` fails. */
  predicate Accepts(s: DraftState) {
    !JsText.IsBlank(s.userInput) && !s.isLoading
  }

  /** `currentMessages`: the transcript with the user turn, untrimmed, appended. */
  function CurrentMessages(s: DraftState): seq<Message> {
    s.messages + [Message(UserRole, s.userInput)]
  }

  /** The history the draft builds: one entry per message of `currentMessages`,
      with the role mapped and the text kept. */
  function ApiHistory(s: DraftState): (r: seq<Content>)
    ensures |r| == |CurrentMessages(s)|
    ensures forall i :: 0 <= i < |r| ==>
      r[i].role == ApiRole(CurrentMessages(s)[i].role) && r[i].parts == [Part(CurrentMessages(s)[i].text)]
  {
    ToContents(CurrentMessages(s))
  }

  /** The state while a follow-up reply is awaited. */
  function AwaitingReply(s: DraftState): (r: DraftState)
    ensures r.messages == CurrentMessages(s) && r.userInput == "" && r.isLoading
    ensures r.problem == s.problem && r.code == s.code && r.interviewStarted == s.interviewStarted
  {
    s.(messages := CurrentMessages(s), userInput := "", isLoading := true)
  }

  /** The draft `handleSendMessage`, run to completion: a rejected send changes
      nothing; an accepted one appends the user turn and then a model turn (the
      reply or the apology), and clears the input. */
  function SendMessage(s: DraftState, reply: Reply): (r: DraftState)
    ensures !Accepts(s) ==> r == s
    ensures Accepts(s) ==>
      && |r.messages| == |s.messages| + 2 && r.messages[..|s.messages|] == s.messages
      && r.messages[|s.messages|] == Message(UserRole, s.userInput)
      && r.messages[|s.messages| + 1] == Message(ModelRole, if reply.Success? then reply.value else SendApology)
      && r.userInput == "" && !r.isLoading
      && r.interviewStarted == s.interviewStarted && r.problem == s.problem && r.code == s.code
  {
    if !Accepts(s) then s
    else
      var awaiting := AwaitingReply(s);
      match reply
      case Success(response) =>
        awaiting.(messages := awaiting.messages + [Message(ModelRole, response)], isLoading := false)
      case Failure(_) =>
        awaiting.(messages := awaiting.messages + [Message(ModelRole, SendApology)], isLoading := false)
  }

  /** The errors the draft `callGeminiAPI` throws. */
  datatype DraftError = StatusFailure(status: nat) | DraftReadFailure(read: ReadError)

  /** `error.message` of each error the draft throws; a status failure names
      the status, in decimal, right after the fixed prefix, and nothing else. */
  function DraftErrorMessage(e: DraftError): (m: string)
    ensures e.StatusFailure? ==>
      && |m| == |StatusPrefix| + |JsText.NatToDecimal(e.status)|
      && m[..|StatusPrefix|] == StatusPrefix
      && JsText.AllDigits(m[|StatusPrefix|..])
      && JsText.DecimalValue(m[|StatusPrefix|..]) == e.status
  {
    match e
    case StatusFailure(status) =>
      JsText.DecimalRoundTrip(status);
      var m := StatusPrefix + JsText.NatToDecimal(status);
      assert m[|StatusPrefix|..] == JsText.NatToDecimal(status);
      m
    case DraftReadFailure(read) => ReadErrorMessage(read)
  }

  /** The draft's handling of an ok response: the same check as the final
      service, but a reply that fails it gets the fallback question instead of
      an error. */
  function ExtractOrFallback(result: Json): (r: Result<Json, DraftError>)
    ensures ExtractText(result).Success? ==> r == Success(ExtractText(result).value)
    ensures ExtractText(result) == Failure(BlockedOrEmpty) ==> r == Success(Str(FallbackQuestion))
    ensures ExtractText(result).Failure? && ExtractText(result).error.ReadFailure? ==>
      r == Failure(DraftReadFailure(ExtractText(result).error.read))
  {
    match PassesShapeCheck(result)
    case Failure(e) => Failure(DraftReadFailure(e))
    case Success(false) => Success(Str(FallbackQuestion))
    case Success(true) =>
      match FirstPartText(result)
      case Failure(e) => Failure(DraftReadFailure(e))
      case Success(text) => Success(text)
  }

  /** A call of the draft `callGeminiAPI`: always sent, with an empty key and a
      payload of the history alone. */
  datatype DraftCall = DraftCall(request: Request, result: Result<Json, DraftError>)

  function CallGeminiDraft(chatHistory: seq<Content>, response: HttpResponse): (r: DraftCall)
    ensures r.request == Request(Endpoint, Payload(chatHistory, None))
    ensures !response.ok ==> r.result == Failure(StatusFailure(response.status))
    ensures response.ok ==> r.result == ExtractOrFallback(response.json)
  {
    var apiKey := "";
    var request := Request(Endpoint + apiKey, Payload(chatHistory, None));
    if !response.ok then DraftCall(request, Failure(StatusFailure(response.status)))
    else DraftCall(request, ExtractOrFallback(response.json))
  }

  /** The draft never reports a blocked or empty reply: an ok response whose
      body the check rejects yields the fallback question. */
  lemma DraftFallsBack(response: HttpResponse, chatHistory: seq<Content>)
    requires response.ok && NoUsableContent(response.json)
    ensures CallGeminiDraft(chatHistory, response).result == Success(Str(FallbackQuestion))
  {
    ExtractNoUsableContent(response.json);
  }

  /** The draft as written: both awaited calls are replaced by fixed replies, so
      a started interview opens with the simulated question and every accepted
      answer is followed by the simulated follow-up. */
  lemma AsWrittenReplies(s: DraftState)
    ensures !InputsBlank(s) ==>
      StartInterview(s, Success(SimulatedOpening)).messages == [Message(ModelRole, SimulatedOpening)]
    ensures Accepts(s) ==>
      SendMessage(s, Success(SimulatedFollowUp)).messages
      == s.messages + [Message(UserRole, s.userInput), Message(ModelRole, SimulatedFollowUp)]
  {
    if Accepts(s) {
      var r := SendMessage(s, Success(SimulatedFollowUp));
      assert r.messages == r.messages[..|s.messages|] + [r.messages[|s.messages|], r.messages[|s.messages| + 1]];
    }
  }

  /** The draft component's state, with its two handlers. */
  class DraftApp {
    var problem: string
    var code: string
    var interviewStarted: bool
    var messages: seq<Message>
    var userInput: string
    var isLoading: bool

    function Snapshot(): DraftState
      reads this
    {
      DraftState(problem, code, interviewStarted, messages, userInput, isLoading)
    }

    constructor ()
      ensures Snapshot() == Initial
    {
      problem, code := "", "";
      interviewStarted := false;
      messages := [];
      userInput := "";
      isLoading := false;
    }

    method SetProblem(value: string)
      modifies this
      ensures Snapshot() == old(Snapshot()).(problem := value)
    {
      problem := value;
    }

    method SetCode(value: string)
      modifies this
      ensures Snapshot() == old(Snapshot()).(code := value)
    {
      code := value;
    }

    /** The chat input's `onChange`. */
    method SetUserInput(value: string)
      modifies this
      ensures Snapshot() == old(Snapshot()).(userInput := value)
    {
      userInput := value;
    }

    method HandleStartInterview(reply: Reply) returns (request: Option<seq<Content>>, ghost awaiting: DraftState)
      modifies this
      ensures request == OpeningRequest(old(Snapshot()))
      ensures request.Some? ==> awaiting == AwaitingOpening(old(Snapshot()))
      ensures Snapshot() == StartInterview(old(Snapshot()), reply)
    {
      if JsText.IsBlank(problem) || JsText.IsBlank(code) {
        return None, Snapshot();
      }
      interviewStarted := true;
      isLoading := true;
      var initialMessages := [Content("user", [Part(DraftPrompt(problem, code))])];
      request := Some(initialMessages);
      awaiting := Snapshot();
      match reply {
        case Success(response) =>
          messages := [Message(ModelRole, response)];
        case Failure(_) =>
          messages := [Message(ModelRole, OpeningApology)];
      }
      isLoading := false;
    }

    /** The form's `onSubmit`; returns the history the API would be given
        (`None`: the handler returned at its guard). */
    method HandleSendMessage(reply: Reply) returns (request: Option<seq<Content>>, ghost awaiting: DraftState)
      modifies this
      ensures request == if Accepts(old(Snapshot())) then Some(ApiHistory(old(Snapshot()))) else None
      ensures request.Some? ==> awaiting == AwaitingReply(old(Snapshot()))
      ensures Snapshot() == SendMessage(old(Snapshot()), reply)
    {
      if JsText.IsBlank(userInput) || isLoading {
        return None, Snapshot();
      }
      var newUserMessage := Message(UserRole, userInput);
      var currentMessages := messages + [newUserMessage];
      messages := currentMessages;
      userInput := "";
      isLoading := true;
      var apiHistory := ToContents(currentMessages);
      request := Some(apiHistory);
      awaiting := Snapshot();
      match reply {
        case Success(response) =>
          messages := messages + [Message(ModelRole, response)];
        case Failure(_) =>
          messages := messages + [Message(ModelRole, SendApology)];
      }
      isLoading := false;
    }
  }
}

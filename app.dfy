/** The interview screen (final version): the component state
    `{problem, code, interviewStarted, messages, isLoading, error}` and its two
    handlers, first as transitions on a state value, then as a component whose
    handlers update its fields step by step. The reply of the awaited
    `callGeminiAPI` is an input: `Success(text)` or `Failure(error.message)`. */
module App {
  import opened Wrappers
  import opened Api
  import opened Transcript
  import JsText

  datatype AppState = AppState(
    problem: string,
    code: string,
    interviewStarted: bool,
    messages: seq<Message>,
    isLoading: bool,
    error: Option<string>)

  /** What the awaited API call returns, or the message of the error it throws. */
  type Reply = Result<string, string>

  const Initial := AppState("", "", false, [], false, None)

  const ValidationMessage := "Please provide both the problem description and your code."
  const StartErrorPrefix := "Error starting interview: "
  const SendErrorPrefix := "Error fetching response: "
  const Apology := "My apologies, I encountered an error. Please try again."

  /** `!problem.trim() || !code.trim()`. */
  predicate InputsBlank(s: AppState) {
    JsText.IsBlank(s.problem) || JsText.IsBlank(s.code)
  }

  /** The history `handleStartInterview` sends, or `None` if it returns before
      calling the API. */
  function OpeningRequest(s: AppState): (r: Option<seq<Content>>)
    ensures r.None? <==> InputsBlank(s)
    ensures r.Some? ==> |r.value| == 1 && r.value[0].role == "user"
    ensures r.Some? ==> r.value[0].parts == [Part(GenerateInitialPrompt(s.problem, s.code))]
  {
    if InputsBlank(s) then None
    else Some([Content("user", [Part(GenerateInitialPrompt(s.problem, s.code))])])
  }

  /** The state while the opening reply is awaited. */
  function AwaitingOpening(s: AppState): (r: AppState)
    ensures r.interviewStarted && r.isLoading && r.error == None
    ensures r.messages == s.messages && r.problem == s.problem && r.code == s.code
  {
    s.(error := None, interviewStarted := true, isLoading := true)
  }

  /** `handleStartInterview`, run to completion. */
  function StartInterview(s: AppState, reply: Reply): (r: AppState)
    ensures r.problem == s.problem && r.code == s.code
    ensures InputsBlank(s) ==>
      && r.error == Some(ValidationMessage)
      && r.messages == s.messages && r.interviewStarted == s.interviewStarted && r.isLoading == s.isLoading
    ensures !InputsBlank(s) ==> !r.isLoading
    ensures !InputsBlank(s) && reply.Success? ==>
      r.messages == [Message(ModelRole, reply.value)] && r.interviewStarted && r.error == None
    ensures !InputsBlank(s) && reply.Failure? ==>
      r.messages == [] && !r.interviewStarted && r.error == Some(StartErrorPrefix + reply.error)
  {
    if InputsBlank(s) then s.(error := Some(ValidationMessage))
    else
      var awaiting := AwaitingOpening(s);
      match reply
      case Success(response) =>
        awaiting.(messages := [Message(ModelRole, response)], isLoading := false)
      case Failure(message) =>
        awaiting.(error := Some(StartErrorPrefix + message), messages := [], interviewStarted := false, isLoading := false)
  }

  /** The history `handleSendMessage` sends: every earlier message, in order and
      with its text, then the new user text. */
  function HistoryForApi(messages: seq<Message>, userInput: string): (r: seq<Content>)
    ensures |r| == |messages| + 1
    ensures forall i :: 0 <= i < |messages| ==>
      r[i].role == ApiRole(messages[i].role) && r[i].parts == [Part(messages[i].text)]
    ensures r[|messages|] == Content("user", [Part(userInput)])
  {
    ToContents(messages) + [Content("user", [Part(userInput)])]
  }

  /** The state while a follow-up reply is awaited: the user turn is already shown. */
  function AwaitingReply(s: AppState, userInput: string): (r: AppState)
    ensures r.messages == s.messages + [Message(UserRole, userInput)]
    ensures r.isLoading && r.error == None
    ensures r.problem == s.problem && r.code == s.code && r.interviewStarted == s.interviewStarted
  {
    s.(messages := s.messages + [Message(UserRole, userInput)], isLoading := true, error := None)
  }

  /** `handleSendMessage(userInput)`, run to completion. */
  function SendMessage(s: AppState, userInput: string, reply: Reply): (r: AppState)
    ensures |r.messages| == |s.messages| + 2 && r.messages[..|s.messages|] == s.messages
    ensures r.messages[|s.messages|] == Message(UserRole, userInput)
    ensures r.messages[|s.messages| + 1] == Message(ModelRole, if reply.Success? then reply.value else Apology)
    ensures r.error == if reply.Success? then None else Some(SendErrorPrefix + reply.error)
    ensures !r.isLoading
    ensures r.interviewStarted == s.interviewStarted && r.problem == s.problem && r.code == s.code
  {
    var awaiting := AwaitingReply(s, userInput);
    match reply
    case Success(response) =>
      awaiting.(messages := awaiting.messages + [Message(ModelRole, response)], isLoading := false)
    case Failure(message) =>
      awaiting.(error := Some(SendErrorPrefix + message),
                messages := awaiting.messages + [Message(ModelRole, Apology)],
                isLoading := false)
  }

  /** A run of follow-up messages, each with the reply it receives. */
  function SendAll(s: AppState, turns: seq<(string, Reply)>): AppState
    decreases |turns|
  {
    if turns == [] then s else SendAll(SendMessage(s, turns[0].0, turns[0].1), turns[1..])
  }

  /** One follow-up keeps an odd-length transcript alternating. */
  lemma SendKeepsAlternation(s: AppState, userInput: string, reply: Reply)
    requires Alternates(s.messages) && |s.messages| % 2 == 1
    ensures Alternates(SendMessage(s, userInput, reply).messages)
  {
    var m := SendMessage(s, userInput, reply).messages;
    forall i | 0 <= i < |m| ensures m[i].role == (if i % 2 == 0 then ModelRole else UserRole) {
      if i < |s.messages| {
        assert m[i] == m[..|s.messages|][i];
      }
    }
  }

  /** Follow-ups only append: two turns each, earlier turns untouched. */
  lemma {:induction false} SendAllAppends(s: AppState, turns: seq<(string, Reply)>)
    ensures |SendAll(s, turns).messages| == |s.messages| + 2 * |turns|
    ensures SendAll(s, turns).messages[..|s.messages|] == s.messages
    decreases |turns|
  {
    if turns != [] {
      var next := SendMessage(s, turns[0].0, turns[0].1);
      SendAllAppends(next, turns[1..]);
      var m := SendAll(next, turns[1..]).messages;
      assert m[..|s.messages|] == m[..|next.messages|][..|s.messages|];
    }
  }

  /** Follow-ups keep an odd-length alternating transcript alternating. */
  lemma {:induction false} SendAllAlternates(s: AppState, turns: seq<(string, Reply)>)
    requires Alternates(s.messages) && |s.messages| % 2 == 1
    ensures Alternates(SendAll(s, turns).messages)
    decreases |turns|
  {
    if turns != [] {
      SendKeepsAlternation(s, turns[0].0, turns[0].1);
      SendAllAlternates(SendMessage(s, turns[0].0, turns[0].1), turns[1..]);
    }
  }

  /** After a successful start and N follow-ups the transcript has 1 + 2N turns,
      alternating model and user, opening with the first reply and ending with a
      model turn. */
  lemma InterviewTranscript(s: AppState, opening: string, turns: seq<(string, Reply)>)
    requires !InputsBlank(s)
    ensures OpeningTranscript(SendAll(StartInterview(s, Success(opening)), turns).messages, |turns|, opening)
  {
    var started := StartInterview(s, Success(opening));
    assert started.messages == [Message(ModelRole, opening)];
    TranscriptFromOpening(started, opening, turns);
  }

  lemma TranscriptFromOpening(started: AppState, opening: string, turns: seq<(string, Reply)>)
    requires started.messages == [Message(ModelRole, opening)]
    ensures OpeningTranscript(SendAll(started, turns).messages, |turns|, opening)
  {
    var m := SendAll(started, turns).messages;
    SendAllAppends(started, turns);
    SendAllAlternates(started, turns);
    OddAlternationEnds(m, |turns|, opening);
  }

  /** The transcript of an interview opened with `opening` after `k` follow-ups:
      1 + 2k turns alternating model and user, opening with that turn and
      ending with a model turn. */
  predicate OpeningTranscript(m: seq<Message>, k: nat, opening: string) {
    && |m| == 1 + 2 * k && Alternates(m)
    && m[0] == Message(ModelRole, opening) && m[|m| - 1].role == ModelRole
  }

  /** An alternation of odd length that opens with a given model turn starts
      with that turn and ends with a model turn. */
  lemma OddAlternationEnds(m: seq<Message>, k: nat, opening: string)
    requires |m| == 1 + 2 * k && Alternates(m) && m[..1] == [Message(ModelRole, opening)]
    ensures OpeningTranscript(m, k, opening)
  {
    assert m[0] == m[..1][0];
    assert (|m| - 1) % 2 == 0;
  }

  /** The errors `callGeminiAPI` throws reach the screen through `error.message`:
      a missing key fails the start with the key message, and a non-ok response
      to a follow-up shows its status and body and appends the apology. */
  lemma CallFailuresShown(s: AppState, userInput: string, apiKey: Option<string>, response: HttpResponse)
    ensures !InputsBlank(s) && KeyMissing(apiKey) ==>
      var call := CallGemini(apiKey, OpeningRequest(s).value, response);
      && call.result == Failure(MissingKey)
      && StartInterview(s, Failure(ErrorMessage(call.result.error))).error
         == Some(StartErrorPrefix + MissingKeyMessage)
    ensures !KeyMissing(apiKey) && !response.ok ==>
      var call := CallGemini(apiKey, HistoryForApi(s.messages, userInput), response);
      && call.result == Failure(HttpFailure(response.status, response.body))
      && var r := SendMessage(s, userInput, Failure(ErrorMessage(call.result.error)));
      && r.error == Some(SendErrorPrefix + StatusMessage(response.status, response.body))
      && r.messages[|s.messages| + 1] == Message(ModelRole, Apology)
  {
  }

  /** The component's state, with `handleStartInterview` and `handleSendMessage`. */
  class Interview {
    var problem: string
    var code: string
    var interviewStarted: bool
    var messages: seq<Message>
    var isLoading: bool
    var error: Option<string>

    function Snapshot(): AppState
      reads this
    {
      AppState(problem, code, interviewStarted, messages, isLoading, error)
    }

    constructor ()
      ensures Snapshot() == Initial
    {
      problem, code := "", "";
      interviewStarted := false;
      messages := [];
      isLoading := false;
      error := None;
    }

    /** The problem text field's `onChange`. */
    method SetProblem(value: string)
      modifies this
      ensures Snapshot() == old(Snapshot()).(problem := value)
    {
      problem := value;
    }

    /** The code text field's `onChange`. */
    method SetCode(value: string)
      modifies this
      ensures Snapshot() == old(Snapshot()).(code := value)
    {
      code := value;
    }

    /** Returns the history handed to the API (`None`: no call is made) and, as
        `awaiting`, the state on display while the reply is awaited. */
    method HandleStartInterview(reply: Reply) returns (request: Option<seq<Content>>, ghost awaiting: AppState)
      modifies this
      ensures request == OpeningRequest(old(Snapshot()))
      ensures request.Some? ==> awaiting == AwaitingOpening(old(Snapshot()))
      ensures Snapshot() == StartInterview(old(Snapshot()), reply)
    {
      if JsText.IsBlank(problem) || JsText.IsBlank(code) {
        error := Some(ValidationMessage);
        return None, Snapshot();
      }
      error := None;
      interviewStarted := true;
      isLoading := true;
      var initialPrompt := GenerateInitialPrompt(problem, code);
      var initialHistory := [Content("user", [Part(initialPrompt)])];
      request := Some(initialHistory);
      awaiting := Snapshot();
      match reply {
        case Success(response) =>
          messages := [Message(ModelRole, response)];
        case Failure(message) =>
          error := Some(StartErrorPrefix + message);
          messages := [];
          interviewStarted := false;
      }
      isLoading := false;
    }

    /** Returns the history handed to the API and, as `awaiting`, the state on
        display while the reply is awaited. */
    method HandleSendMessage(userInput: string, reply: Reply) returns (request: seq<Content>, ghost awaiting: AppState)
      modifies this
      ensures request == HistoryForApi(old(messages), userInput)
      ensures awaiting == AwaitingReply(old(Snapshot()), userInput)
      ensures Snapshot() == SendMessage(old(Snapshot()), userInput, reply)
    {
      var newUserMessage := Message(UserRole, userInput);
      request := ToContents(messages) + [Content("user", [Part(userInput)])];
      messages := messages + [newUserMessage];
      isLoading := true;
      error := None;
      awaiting := Snapshot();
      match reply {
        case Success(response) =>
          messages := messages + [Message(ModelRole, response)];
        case Failure(message) =>
          error := Some(SendErrorPrefix + message);
          messages := messages + [Message(ModelRole, Apology)];
      }
      isLoading := false;
    }
  }
}

/** The final screen as the user drives it: the problem form only accepts
    edits and the start click before the interview starts, and the chat form
    (shown only once it has started) passes its input through the chat panel's
    guard before the screen's `handleSendMessage` sees it. */
module Ui {
  import opened Transcript
  import JsText
  import App
  import Chat

  /** What the user can do on the screen. */
  datatype Event =
    | EditProblem(problem: string)
    | EditCode(code: string)
    | TypeAnswer(answer: string)
    | ClickStart(opening: App.Reply)
    | SubmitAnswer(reply: App.Reply)

  /** The screen's state and the chat panel's input. */
  datatype Screen = Screen(app: App.AppState, chatInput: string)

  const Initial := Screen(App.Initial, "")

  function Step(u: Screen, e: Event): Screen {
    match e
    case EditProblem(problem) =>
      if u.app.interviewStarted then u else u.(app := u.app.(problem := problem))
    case EditCode(code) =>
      if u.app.interviewStarted then u else u.(app := u.app.(code := code))
    case TypeAnswer(answer) => u.(chatInput := answer)
    case ClickStart(opening) =>
      if u.app.interviewStarted then u else u.(app := App.StartInterview(u.app, opening))
    case SubmitAnswer(reply) =>
      if !u.app.interviewStarted || !Chat.Accepts(u.chatInput, u.app.isLoading) then u
      else Screen(App.SendMessage(u.app, u.chatInput, reply), "")
  }

  function Run(u: Screen, events: seq<Event>): Screen
    decreases |events|
  {
    if events == [] then u else Run(Step(u, events[0]), events[1..])
  }

  /** What the screen keeps true between events: no blank user turn, and the
      transcript is empty before the interview starts and an odd-length
      alternation of model and user turns once it has. */
  predicate Consistent(u: Screen) {
    && NoBlankUserTurns(u.app.messages)
    && (!u.app.interviewStarted ==> u.app.messages == [])
    && (u.app.interviewStarted ==> Alternates(u.app.messages) && |u.app.messages| % 2 == 1)
  }

  lemma StepConsistent(u: Screen, e: Event)
    requires Consistent(u)
    ensures Consistent(Step(u, e))
  {
    match e
    case SubmitAnswer(reply) =>
      if u.app.interviewStarted && Chat.Accepts(u.chatInput, u.app.isLoading) {
        SubmitConsistent(u, reply);
      }
    case ClickStart(opening) =>
      if !u.app.interviewStarted {
        StartConsistent(u, opening);
      }
    case _ =>
  }

  /** An accepted answer keeps the screen consistent. */
  lemma SubmitConsistent(u: Screen, reply: App.Reply)
    requires Consistent(u) && u.app.interviewStarted && Chat.Accepts(u.chatInput, u.app.isLoading)
    ensures Consistent(Screen(App.SendMessage(u.app, u.chatInput, reply), ""))
  {
    var m := App.SendMessage(u.app, u.chatInput, reply).messages;
    App.SendKeepsAlternation(u.app, u.chatInput, reply);
    forall i | 0 <= i < |m| && m[i].role == UserRole ensures !JsText.IsBlank(m[i].text) {
      if i < |u.app.messages| {
        assert m[i] == m[..|u.app.messages|][i];
      }
    }
  }

  /** A start click before the interview has started keeps the screen consistent. */
  lemma StartConsistent(u: Screen, opening: App.Reply)
    requires Consistent(u) && !u.app.interviewStarted
    ensures Consistent(u.(app := App.StartInterview(u.app, opening)))
  {
  }

  /** However the user drives the screen, no blank answer enters the transcript
      and the transcript stays an alternation that opens and closes with the
      interviewer. */
  lemma {:induction false} RunConsistent(u: Screen, events: seq<Event>)
    requires Consistent(u)
    ensures Consistent(Run(u, events))
    decreases |events|
  {
    if events != [] {
      StepConsistent(u, events[0]);
      RunConsistent(Step(u, events[0]), events[1..]);
    }
  }

  /** From a fresh screen, every reachable transcript has no blank user turn,
      and once started an odd length, model turns first and last. */
  lemma ReachableTranscripts(events: seq<Event>)
    ensures var u := Run(Initial, events);
      && NoBlankUserTurns(u.app.messages)
      && (u.app.interviewStarted ==>
            && |u.app.messages| % 2 == 1 && Alternates(u.app.messages)
            && u.app.messages[0].role == ModelRole
            && u.app.messages[|u.app.messages| - 1].role == ModelRole)
  {
    RunConsistent(Initial, events);
  }

  /** A submit on the running screen: the chat panel's guard, then the screen's
      handler with the forwarded text. */
  method SubmitThroughChat(chat: Chat.ChatBox, app: App.Interview, reply: App.Reply)
    requires app.interviewStarted
    modifies chat, app
    ensures Screen(app.Snapshot(), chat.userInput) == Step(old(Screen(app.Snapshot(), chat.userInput)), SubmitAnswer(reply))
  {
    var sent := chat.HandleSubmit(app.isLoading);
    if sent.Some? {
      var _, _ := app.HandleSendMessage(sent.value, reply);
    }
  }
}

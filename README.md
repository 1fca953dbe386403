# IntRView interview controller — a Dafny model

IntRView is a single-page web app for mock coding interviews. The user pastes a
problem statement and a candidate solution. An AI interviewer, backed by the
Gemini `generateContent` endpoint, then asks follow-up questions one at a time.
This project models what the app does between the user's clicks and that
endpoint, and proves properties of it:

- the final interview screen (`src/App.jsx`): its state `{problem, code,
  interviewStarted, messages, isLoading, error}`, `handleStartInterview` and
  `handleSendMessage`. Each handler is a pure transition on a state value
  (`App.StartInterview`, `App.SendMessage`). It is also a method of the class
  `App.Interview` that updates the same fields step by step, and that method is
  proved equal to the transition;
- the Gemini service (`src/services/api.js`): the missing-key check, the request
  (URL, `contents`, safety policy), the non-ok error, the response-shape check
  with its JavaScript property-read and truthiness semantics, and the opening
  prompt `generateInitialPrompt`;
- the earlier draft of the screen (`src/App.js`), which has its own input guard,
  installs an apology when the opening call fails, and whose `callGeminiAPI`
  returns a fallback question instead of throwing;
- the chat panel's submit guard (`src/components/Chat.jsx`);
- the sidebar's chat titles, placeholder and highlight (`src/components/Sidebar.jsx`);
- the wiring of the final screen. Module `Ui` runs any sequence of user events
  through the problem form and the chat panel, and proves that no blank answer
  ever reaches the transcript. It also proves that the transcript stays an
  odd-length model/user alternation.

One file per module: `wrappers.dfy` (Option, Result), `jstext.dfy` (`trim`,
decimal rendering), `jsvalue.dfy` (a JSON-like value, property reads,
truthiness), `api.dfy`, `transcript.dfy` (messages and the request history built
from them), `app.dfy`, `draft.dfy`, `chat.dfy`, `sidebar.dfy`, `ui.dfy`.

Inputs that the source gets from outside are parameters here:
- the reply of the awaited `callGeminiAPI` is a `Reply`: `Success(text)` or
  `Failure(error.message)`;
- the HTTP response is an `HttpResponse` value: `ok`, `status`, the body text and
  the parsed body;
- the API key is an optional string instead of a read of `import.meta.env`.

Each handler runs to completion. The state on screen while a reply is awaited is
returned as the ghost out-parameter `awaiting`.

The final screen's `handleSendMessage` has no guard of its own. Only the chat
panel's guard stands in front of it. `Ui` proves that the guard's blank test
keeps blank answers out of the transcript. Because each handler runs to
completion, `isLoading` is off whenever an event arrives. The guard's loading
test therefore never rejects an event in `Ui`, and none of the proved
properties depend on it.
The files modelled here create and store no sessions.

As written, the draft `App.js` never calls the API. Both awaited calls are
commented out, and fixed simulated replies (`Draft.SimulatedOpening`,
`Draft.SimulatedFollowUp`) stand in for them. The model takes the reply as a
parameter, so that the failure branches of the draft's handlers are modelled
as well.

## Model

| member | source | states |
|---|---|---|
| `JsText.BlankIffAllSpace` | src/App.jsx:15 | `!s.trim()` holds exactly when every character of `s` is ECMAScript white space or a line terminator |
| `JsText.TrimStartDropsSpace` | src/App.jsx:15 | the leading part `trim` removes is white space and what remains starts with a non-space |
| `JsText.TrimEndDropsSpace` | src/App.jsx:15 | the trailing part `trim` removes is white space and what remains ends with a non-space |
| `JsText.NatToDecimal` | src/services/api.js:30 | `${status}` renders the status as one or more decimal digits without a leading zero |
| `JsText.DecimalRoundTrip` | src/services/api.js:30 | reading the rendered status back gives the status |
| `JsValue.Get` | src/services/api.js:35-36 | a property read throws exactly when the receiver is `null` or `undefined`, and the TypeError names the property |
| `Api.SafetySettings` | src/services/api.js:14-19 | the policy has exactly four settings, for four distinct categories, each `BLOCK_MEDIUM_AND_ABOVE` |
| `Api.StatusMessage` | src/services/api.js:28-31 | the non-ok error message is the fixed prefix, then the status (its digits read back to the status), then `. Body: `, and ends with the whole response body |
| `Api.ExtractText` | src/services/api.js:35-40 | the result check throws only the "blocked or empty" error or a property-read TypeError, and it throws "blocked or empty" exactly when the guard evaluates to false |
| `Api.ExtractWellFormed` | src/services/api.js:35-36 | on a well-formed reply it returns `candidates[0].content.parts[0].text` unmodified |
| `Api.ExtractNoUsableContent` | src/services/api.js:35-40 | missing or empty `candidates`, a first candidate without `content`, or missing or empty `parts` raise the "blocked or empty" error and return no text |
| `Api.ExtractNullCandidate` | src/services/api.js:35 | whenever `candidates` is a non-empty array whose first entry is `null` or `undefined`, the first two tests pass and reading `content` throws a TypeError naming `null` or `undefined` accordingly |
| `Api.CallGemini` | src/services/api.js:2-41 | a missing or empty key throws before any request exists; otherwise the request goes to the `gemini-2.0-flash` URL with the key, and its payload is `chatHistory` unchanged with the fixed safety policy; a non-ok response throws with its status and body; an ok one yields whatever the result check yields |
| `Api.PromptLayout` | src/services/api.js:44-63 | the prompt is 937 fixed characters plus both inputs, with the problem at offset 520 and the code 19 characters after it |
| `Api.TemplateRoundTrip` | src/services/api.js:54-55 | a text laid out as head, problem, middle, code, tail gives back both inputs when read with the problem's length |
| `Api.PromptRoundTrip` | src/services/api.js:44-63 | the opening prompt holds both inputs verbatim, problem before solution, and they can be read back from it |
| `Transcript.ToContents` | src/App.jsx:42-44 | the history has one entry per message, in order; each keeps its text as its one part, and a `'model'` role stays `'model'` while any other role becomes `'user'` |
| `App.OpeningRequest` | src/App.jsx:15-25 | no request is made exactly when the problem or the code is blank; otherwise the history is one `'user'` entry whose one part is `generateInitialPrompt(problem, code)` |
| `App.AwaitingOpening` | src/App.jsx:20-22 | while the opening reply is awaited the error is cleared, the interview counts as started and loading is on, and the transcript is untouched |
| `App.StartInterview` | src/App.jsx:14-38 | blank inputs set the validation message and leave the transcript, started flag and loading flag as they were; a reply makes the transcript exactly that one model turn, started, without error; a failure empties the transcript, un-starts the interview and sets `Error starting interview: ` plus the message; loading ends off |
| `App.HistoryForApi` | src/App.jsx:42-45 | the follow-up history has one entry more than the transcript, keeps every earlier text in order with its role mapped, and ends with the new user text |
| `App.AwaitingReply` | src/App.jsx:47-49 | while a follow-up is awaited, the user turn has already been appended, loading is on and the error is cleared; problem, code and started flag are unchanged |
| `App.SendMessage` | src/App.jsx:40-61 | the transcript grows by exactly two with the earlier turns unchanged: the untrimmed user turn, then the reply or the fixed apology; the error becomes `Error fetching response: ` plus the message on failure and is cleared on success; loading ends off |
| `App.SendKeepsAlternation` | src/App.jsx:47-57 | one follow-up keeps an odd-length model/user alternation alternating |
| `App.SendAllAppends` | src/App.jsx:47-57 | N follow-ups add exactly 2N turns and leave every earlier turn in place |
| `App.SendAllAlternates` | src/App.jsx:47-57 | N follow-ups keep an odd-length alternation alternating |
| `App.OddAlternationEnds` | src/App.jsx:29-57 | an odd-length alternation opens and closes with a model turn |
| `App.TranscriptFromOpening` | src/App.jsx:29-57 | from a one-turn opening, N follow-ups give 1 + 2N turns alternating model/user, opening with that turn and ending with a model turn |
| `App.InterviewTranscript` | src/App.jsx:14-61 | after a successful start and N sends the transcript has length 1 + 2N, alternates, starts with the opening reply and ends with a model turn |
| `App.CallFailuresShown` | src/App.jsx:27-57 | a missing key fails the start with `Error starting interview: ` and the key message; a non-ok response to a follow-up shows `Error fetching response: ` with its status and body, and appends the apology |
| `App.Interview.constructor` | src/App.jsx:7-12 | the screen starts with empty inputs and transcript, not started, not loading, no error |
| `App.Interview.SetProblem` | src/App.jsx:67 | editing the problem changes the problem and nothing else |
| `App.Interview.SetCode` | src/App.jsx:69 | editing the code changes the code and nothing else |
| `App.Interview.HandleStartInterview` | src/App.jsx:14-38 | the field-by-field handler sends `OpeningRequest`, shows `AwaitingOpening` while waiting and ends in `StartInterview` of the old state |
| `App.Interview.HandleSendMessage` | src/App.jsx:40-61 | the field-by-field handler sends `HistoryForApi` of the old transcript, shows `AwaitingReply` while waiting and ends in `SendMessage` of the old state |
| `Draft.DraftPromptRoundTrip` | src/App.js:38-57 | the draft's opening message embeds the problem and the code verbatim, problem first, and both can be read back |
| `Draft.OpeningRequest` | src/App.js:29-57 | no request exactly when an input is blank; otherwise a single `'user'` entry holding the draft's opening message |
| `Draft.AwaitingOpening` | src/App.js:35-36 | valid inputs set `interviewStarted` and `isLoading` before the reply is awaited; problem, code, transcript and answer are unchanged |
| `Draft.StartInterview` | src/App.js:29-71 | blank inputs change nothing; otherwise the transcript becomes exactly one model turn, the reply or the fixed apology, the interview stays started and loading ends off |
| `Draft.ApiHistory` | src/App.js:78-87 | the draft's history has the same length as `currentMessages`, with each text kept and non-model roles sent as `'user'` |
| `Draft.AwaitingReply` | src/App.js:77-81 | before the reply is awaited the untrimmed user turn is appended, the input is cleared and loading is on; problem, code and started flag are unchanged |
| `Draft.SendMessage` | src/App.js:73-100 | a blank input or a send while loading changes nothing; an accepted send grows the transcript by exactly two, the untrimmed user turn and then the reply or the fixed apology, clears the input and ends not loading |
| `Draft.DraftErrorMessage` | src/App.js:121-123 | the draft's non-ok error message is the fixed prefix followed by exactly as many characters as the status's canonical decimal rendering, all digits, which read back to the status, and nothing else |
| `Draft.AsWrittenReplies` | src/App.js:60-97 | as written, a started draft interview opens with the simulated question, and each accepted answer is followed by the simulated follow-up |
| `Draft.ExtractOrFallback` | src/App.js:125-136 | the draft's check agrees with the final service on well-formed replies and on TypeErrors, and turns the "blocked or empty" case into the fixed fallback question |
| `Draft.CallGeminiDraft` | src/App.js:104-137 | the draft always sends, with an empty key and a payload of the history alone; a non-ok response throws with the status; an ok one yields the reply text or the fallback |
| `Draft.DraftFallsBack` | src/App.js:127-136 | an ok response without usable content returns the fallback question rather than throwing |
| `Draft.DraftApp.constructor` | src/App.js:15-20 | the draft starts with empty inputs, transcript and answer, not started and not loading |
| `Draft.DraftApp.SetProblem` | src/App.js:155 | editing the problem changes only the problem |
| `Draft.DraftApp.SetCode` | src/App.js:168 | editing the code changes only the code |
| `Draft.DraftApp.SetUserInput` | src/App.js:220 | typing an answer changes only the answer |
| `Draft.DraftApp.HandleStartInterview` | src/App.js:29-71 | the field-by-field handler sends `OpeningRequest`, shows `AwaitingOpening` while waiting and ends in `StartInterview` |
| `Draft.DraftApp.HandleSendMessage` | src/App.js:73-100 | the field-by-field handler sends `ApiHistory` only when the guard passes, shows `AwaitingReply` while waiting and ends in `SendMessage` |
| `Chat.AcceptsIff` | src/components/Chat.jsx:15 | a submit goes through exactly when nothing is loading and the input holds a non-white-space character |
| `Chat.ChatBox.constructor` | src/components/Chat.jsx:5 | the answer field starts empty |
| `Chat.ChatBox.SetUserInput` | src/components/Chat.jsx:71 | typing sets the answer field |
| `Chat.ChatBox.HandleSubmit` | src/components/Chat.jsx:13-19 | a blank input or a submit while loading forwards nothing and leaves the input; otherwise `onSendMessage` gets the untrimmed input, once, and the input becomes `''` |
| `Sidebar.Split` | src/components/Sidebar.jsx:34 | `split(' ')` gives one more piece than there are spaces, none holding a space |
| `Sidebar.JoinSplit` | src/components/Sidebar.jsx:34 | joining the pieces of a split with `' '` gives back the string |
| `Sidebar.JoinPrefix` | src/components/Sidebar.jsx:34 | joining the first pieces gives a prefix of joining them all |
| `Sidebar.JoinAppend` | src/components/Sidebar.jsx:34 | joining two non-empty runs of pieces puts one space between their joins |
| `Sidebar.JoinSpaces` | src/components/Sidebar.jsx:34 | joining space-free pieces puts exactly one space between neighbours |
| `Sidebar.FirstWordsBounds` | src/components/Sidebar.jsx:34 | the first five words are a prefix of the problem with at most four spaces, equal to the problem when it has at most four spaces, and otherwise exactly the part before its fifth space (four spaces, followed in the problem by a space); empty only for an empty problem |
| `Sidebar.FirstWordsCut` | src/components/Sidebar.jsx:34 | a problem with more than four spaces is cut just before its fifth space, leaving four spaces |
| `Sidebar.Title` | src/components/Sidebar.jsx:34 | an absent or empty problem yields `'Untitled Chat'`; otherwise the title is a non-empty prefix of the problem, the whole problem when it has at most four spaces, and otherwise the part before its fifth space |
| `Sidebar.ChatButtons` | src/components/Sidebar.jsx:21-28 | one button per saved chat, in order, titled from its problem, highlighted exactly when `activeChatId === chat.id`, and its click passes exactly `chat.id` |
| `Sidebar.ChatListView` | src/components/Sidebar.jsx:20-39 | the placeholder `No saved chats yet.` appears exactly when there are no saved chats; otherwise the buttons above |
| `Ui.StepConsistent` | src/App.jsx:65-80 | every user event keeps the transcript free of blank answers, empty before the start and an odd-length alternation after it |
| `Ui.SubmitConsistent` | src/components/Chat.jsx:13-19 | an answer the chat guard accepts, sent through `handleSendMessage`, keeps the transcript free of blank answers and an odd-length alternation |
| `Ui.StartConsistent` | src/App.jsx:14-38 | a start click before the interview starts leaves either the empty transcript of an unstarted screen or a one-turn alternation |
| `Ui.RunConsistent` | src/App.jsx:65-80 | the same holds after any sequence of events |
| `Ui.ReachableTranscripts` | src/components/Chat.jsx:15 | from a fresh screen, no blank user turn ever enters the transcript through the chat panel, and once started the transcript has odd length and begins and ends with a model turn |
| `Ui.SubmitThroughChat` | src/App.jsx:75-80 | a submit through the chat panel, followed by the screen's handler, is the `SubmitAnswer` step of the event model |

## Left out

- The `fetch` call, HTTP transport and JSON parsing (`src/services/api.js:22-33`, `src/App.js:115-125`) are I/O. The response is an `HttpResponse` value. A body that fails to parse is not modelled.
- The read of `import.meta.env`: the key is an optional parameter of `Api.CallGemini`.
- `alert` and `console.error`: both have no effect on state.
- JSX rendering, CSS classes and the `scrollIntoView` effects.
- Asynchrony: each handler runs to completion, and the state on screen during the await is the ghost `awaiting` result. The stale-closure difference between the captured `messages` and `setMessages(prev => …)` is a concern of interleaved handlers and is not modelled.
- `src/components/ProblemInput.jsx`, `Navbar.jsx` and `Icons.jsx` are presentation. `Ui` uses only two facts about the problem form: it is disabled once the interview starts, and its start button is hidden then.
- `tailwind.config.js` and `vite.config.js` are build configuration.
- Session persistence, the per-user document store, sign-in and sign-out, `newChat` and `selectSession` are not implemented in the files modelled here. The sidebar's "+ New Chat" button only forwards a click.
- JsValue.GreaterThanZero: JavaScript converts a string or array before comparing it with `> 0`. The model counts such a value as not positive. This case arises only for an object whose own `length` field is a string or an array.
- JsValue.Get: only index `0` of an array or string is read by the source, so other indices read as `undefined`.
- JsValue.ReadErrorMessage uses V8's wording for the TypeError. Other engines word it differently.
- JSON numbers are integers here; floating point is left out.
- Strings are sequences of Unicode code points. JavaScript's `.length` and `[0]` count UTF-16 code units, so `JsValue.Get` on a string, and the character counts in `Api.PromptLayout`, agree with JavaScript only for text without characters outside the Basic Multilingual Plane. The prompt constants contain none, so the stated offsets are the program's.
- Transcript.ApiRole: messages carry one of the two roles the screens create (`'user'` and `'model'`). The "every other role becomes `'user'`" branch of the role mapping therefore has only `'user'` to act on.
- A `text` field of a Gemini part that is not a string is passed through as a `Json` value by `Api.ExtractText`. The screens' `Reply` carries only string replies.
- `chat.problem` values that are not strings (for example numbers coming from the store) are not modelled; the problem is an optional string.

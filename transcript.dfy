/** The chat transcript shared by both versions of the interview screen: a
    sequence of `{ role, text }` messages, and the request history built from it. */
module Transcript {
  import opened Api
  import JsText

  /** The two roles a message is created with: `'user'` and `'model'`. */
  datatype Role = UserRole | ModelRole

  datatype Message = Message(role: Role, text: string)

  /** The role sent to the endpoint for a message: `'model'` stays `'model'`,
      every other role becomes `'user'`. */
  function ApiRole(role: Role): string {
    if role == ModelRole then "model" else "user"
  }

  /** `messages.map(msg => ({ role: ..., parts: [{ text: msg.text }] }))`. */
  function ToContents(messages: seq<Message>): (r: seq<Content>)
    ensures |r| == |messages|
    ensures forall i :: 0 <= i < |messages| ==>
      r[i] == Content(ApiRole(messages[i].role), [Part(messages[i].text)])
  {
    if messages == [] then []
    else [Content(ApiRole(messages[0].role), [Part(messages[0].text)])] + ToContents(messages[1..])
  }

  /** Model turns at even positions and user turns at odd positions. */
  predicate Alternates(messages: seq<Message>) {
    forall i :: 0 <= i < |messages| ==> messages[i].role == (if i % 2 == 0 then ModelRole else UserRole)
  }

  /** No user turn is blank. */
  predicate NoBlankUserTurns(messages: seq<Message>) {
    forall i :: 0 <= i < |messages| && messages[i].role == UserRole ==> !JsText.IsBlank(messages[i].text)
  }
}

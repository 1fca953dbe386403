/** The service that talks to the Gemini `generateContent` endpoint: the request
    it builds from a conversation history, the checks it makes on the response,
    and the opening prompt that starts an interview. The HTTP exchange itself is
    an input: the response arrives as an `HttpResponse` value. */
module Api {
  import opened Wrappers
  import opened JsValue
  import JsText

  /** One turn of the request history: `{ role, parts: [{ text }] }`. */
  datatype Part = Part(text: string)
  datatype Content = Content(role: string, parts: seq<Part>)

  datatype SafetySetting = SafetySetting(category: string, threshold: string)

  /** The JSON body of the request; `safetySettings` is `None` when the payload
      has no such field. */
  datatype Payload = Payload(contents: seq<Content>, safetySettings: Option<seq<SafetySetting>>)

  datatype Request = Request(url: string, payload: Payload)

  /** What `fetch` hands back: the `ok` flag, the status, the body as text and
      the body parsed as JSON. */
  datatype HttpResponse = HttpResponse(ok: bool, status: nat, body: string, json: Json)

  /** The errors `callGeminiAPI` throws. */
  datatype ApiError =
    | MissingKey
    | HttpFailure(status: nat, body: string)
    | BlockedOrEmpty
    | ReadFailure(read: ReadError)

  /** A call: the request it sends, if it gets that far, and what it returns or throws. */
  datatype Call = Call(request: Option<Request>, result: Result<Json, ApiError>)

  const Endpoint := "https://generativelanguage.googleapis.com/v1beta/models/gemini-2.0-flash:generateContent?key="
  const BlockThreshold := "BLOCK_MEDIUM_AND_ABOVE"
  const MissingKeyMessage := "API Key not found. Please add VITE_GEMINI_API_KEY to your .env file."
  const BlockedMessage := "The response was blocked or empty. Please try rephrasing your message."
  const StatusPrefix := "API call failed with status: "

  /** The fixed safety policy sent with every request: the four harm categories,
      each blocked from medium probability up. */
  function SafetySettings(): (r: seq<SafetySetting>)
    ensures |r| == 4
    ensures forall i :: 0 <= i < |r| ==> r[i].threshold == BlockThreshold
    ensures forall i, j :: 0 <= i < j < |r| ==> r[i].category != r[j].category
  {
    [ SafetySetting("HARM_CATEGORY_HARASSMENT", BlockThreshold),
      SafetySetting("HARM_CATEGORY_HATE_SPEECH", BlockThreshold),
      SafetySetting("HARM_CATEGORY_SEXUALLY_EXPLICIT", BlockThreshold),
      SafetySetting("HARM_CATEGORY_DANGEROUS_CONTENT", BlockThreshold) ]
  }

  /** The message of a non-ok response: the status, in decimal, right after the
      fixed prefix, and the whole response body at the end. */
  function StatusMessage(status: nat, body: string): (m: string)
    ensures |m| == |StatusPrefix| + |JsText.NatToDecimal(status)| + |". Body: "| + |body|
    ensures m[..|StatusPrefix|] == StatusPrefix
    ensures JsText.AllDigits(m[|StatusPrefix|..|StatusPrefix| + |JsText.NatToDecimal(status)|])
    ensures JsText.DecimalValue(m[|StatusPrefix|..|StatusPrefix| + |JsText.NatToDecimal(status)|]) == status
    ensures m[|StatusPrefix| + |JsText.NatToDecimal(status)|..|m| - |body|] == ". Body: "
    ensures m[|m| - |body|..] == body
  {
    var digits := JsText.NatToDecimal(status);
    var m := StatusPrefix + digits + ". Body: " + body;
    assert m[|StatusPrefix|..|StatusPrefix| + |digits|] == digits;
    assert m[|StatusPrefix| + |digits|..|m| - |body|] == ". Body: ";
    JsText.DecimalRoundTrip(status);
    m
  }

  /** `error.message` of each error `callGeminiAPI` throws. */
  function ErrorMessage(e: ApiError): string {
    match e
    case MissingKey => MissingKeyMessage
    case HttpFailure(status, body) => StatusMessage(status, body)
    case BlockedOrEmpty => BlockedMessage
    case ReadFailure(read) => ReadErrorMessage(read)
  }

  /** The response check
      `result.candidates && result.candidates.length > 0 && result.candidates[0].content
       && result.candidates[0].content.parts && result.candidates[0].content.parts.length > 0`,
      evaluated left to right with short-circuiting; a property read of `null` or
      `undefined` on the way throws. */
  function PassesShapeCheck(result: Json): Result<bool, ReadError> {
    var candidates :- Get(result, "candidates");
    if !Truthy(candidates) then Success(false) else
    // reads of a truthy value cannot throw
    var count := Get(candidates, "length").value;
    if !GreaterThanZero(count) then Success(false) else
    var first := Get(candidates, "0").value;
    var content :- Get(first, "content");
    if !Truthy(content) then Success(false) else
    var parts := Get(content, "parts").value;
    if !Truthy(parts) then Success(false) else
    var partCount := Get(parts, "length").value;
    Success(GreaterThanZero(partCount))
  }

  /** `result.candidates[0].content.parts[0].text`. */
  function FirstPartText(result: Json): Result<Json, ReadError> {
    var candidates :- Get(result, "candidates");
    var first :- Get(candidates, "0");
    var content :- Get(first, "content");
    var parts :- Get(content, "parts");
    var part :- Get(parts, "0");
    Get(part, "text")
  }

  /** What `callGeminiAPI` does with the parsed body of an ok response: return
      the first part's text, or throw the "blocked or empty" error; a TypeError
      from a property read propagates. It never throws anything else. */
  function ExtractText(result: Json): (r: Result<Json, ApiError>)
    ensures r.Failure? ==> r.error.BlockedOrEmpty? || r.error.ReadFailure?
    ensures r.Failure? && r.error.BlockedOrEmpty? <==> PassesShapeCheck(result) == Success(false)
  {
    match PassesShapeCheck(result)
    case Failure(e) => Failure(ReadFailure(e))
    case Success(false) => Failure(BlockedOrEmpty)
    case Success(true) =>
      match FirstPartText(result)
      case Failure(e) => Failure(ReadFailure(e))
      case Success(text) => Success(text)
  }

  /** The shape of a well-formed reply, stated directly: an object whose
      `candidates` is a non-empty array whose first element has a `content`
      object whose `parts` is a non-empty array whose first element is an object. */
  predicate WellFormed(result: Json) {
    && result.Obj? && "candidates" in result.fields
    && var candidates := result.fields["candidates"];
    && candidates.Arr? && |candidates.items| > 0
    && candidates.items[0].Obj? && "content" in candidates.items[0].fields
    && var content := candidates.items[0].fields["content"];
    && content.Obj? && "parts" in content.fields
    && var parts := content.fields["parts"];
    && parts.Arr? && |parts.items| > 0 && parts.items[0].Obj?
  }

  /** The `text` field of the first part of a well-formed reply (`undefined` if absent). */
  function ReplyText(result: Json): Json
    requires WellFormed(result)
  {
    var part := result.fields["candidates"].items[0].fields["content"].fields["parts"].items[0];
    if "text" in part.fields then part.fields["text"] else Undefined
  }

  /** A well-formed reply yields its first part's text, unmodified. */
  lemma ExtractWellFormed(result: Json)
    requires WellFormed(result)
    ensures ExtractText(result) == Success(ReplyText(result))
  {
  }

  /** The shapes the check rejects as "blocked or empty": `candidates` missing
      or empty, the first candidate without `content`, or a `content` whose
      `parts` is missing or empty. */
  predicate NoUsableContent(result: Json) {
    && result.Obj?
    && var fields := result.fields;
    || "candidates" !in fields
    || fields["candidates"] == Arr([])
    || (&& fields["candidates"].Arr? && |fields["candidates"].items| > 0
        && var first := fields["candidates"].items[0];
        && first.Obj?
        && (|| "content" !in first.fields
            || (&& first.fields["content"].Obj?
                && var content := first.fields["content"].fields;
                || "parts" !in content
                || content["parts"] == Arr([]))))
  }

  lemma ExtractNoUsableContent(result: Json)
    requires NoUsableContent(result)
    ensures ExtractText(result) == Failure(BlockedOrEmpty)
  {
  }

  /** A `null` or `undefined` first candidate is not caught by the check: it
      passes the first two tests, and reading its `content` throws. */
  lemma ExtractNullCandidate(result: Json)
    requires result.Obj? && "candidates" in result.fields
    requires result.fields["candidates"].Arr? && |result.fields["candidates"].items| > 0
    requires result.fields["candidates"].items[0].Null? || result.fields["candidates"].items[0].Undefined?
    ensures ExtractText(result)
      == Failure(ReadFailure(CannotRead(result.fields["candidates"].items[0].Null?, "content")))
  {
  }

  /** `!apiKey`: an absent key or the empty string. */
  predicate KeyMissing(apiKey: Option<string>) {
    apiKey == None || apiKey == Some("")
  }

  /** `callGeminiAPI(chatHistory)`, with the key read from the environment passed
      in and the response of the POST given. */
  function CallGemini(apiKey: Option<string>, chatHistory: seq<Content>, response: HttpResponse): (r: Call)
    ensures KeyMissing(apiKey) <==> r.request.None?
    ensures KeyMissing(apiKey) ==> r.result == Failure(MissingKey)
    ensures r.request.Some? ==> r.request.value.payload == Payload(chatHistory, Some(SafetySettings()))
    ensures r.request.Some? ==> r.request.value.url == Endpoint + apiKey.value
    ensures r.request.Some? && !response.ok ==> r.result == Failure(HttpFailure(response.status, response.body))
    ensures r.request.Some? && response.ok ==> r.result == ExtractText(response.json)
  {
    if KeyMissing(apiKey) then Call(None, Failure(MissingKey))
    else
      var request := Request(Endpoint + apiKey.value, Payload(chatHistory, Some(SafetySettings())));
      if !response.ok then Call(Some(request), Failure(HttpFailure(response.status, response.body)))
      else Call(Some(request), ExtractText(response.json))
  }

  /** The text of the opening prompt around the two inputs. */
  const PromptHead :=
    "You are a demanding but fair senior engineer at a top tech company. Your goal is to conduct a rigorous technical interview and find the limits of the user's knowledge.\n" +
    "  \n" +
    "  RULES:\n" +
    "  1.  Engage in a dialogue. Do NOT lecture.\n" +
    "  2.  Ask only ONE open-ended question at a time.\n" +
    "  3.  NEVER summarize the user's answer and say \"Thanks\" or \"Good.\" Instead, ask a follow-up question.\n" +
    "  4.  Your response MUST ALWAYS end with a single, specific, probing question.\n" +
    "  \n" +
    "  Here is the problem and the user's solution:\n" +
    "  PROBLEM: \"\"\""
  const PromptMiddle :=
    "\"\"\"\n" +
    "  SOLUTION: \"\"\""
  const PromptTail :=
    "\"\"\"\n" +
    "  \n" +
    "  INTERVIEW FLOW:\n" +
    "  1.  Start by asking the user for a high-level explanation of their approach.\n" +
    "  2.  After their explanation, your NEXT question MUST be about the Time and Space Complexity of their solution.\n" +
    "  3.  Then, probe them on potential edge cases they might have missed.\n" +
    "  4.  Finally, ask them about alternative solutions and the trade-offs involved.\n" +
    "  \n" +
    "  Begin the interview now."

  /** `generateInitialPrompt(problem, code)`. */
  function GenerateInitialPrompt(problem: string, code: string): string {
    PromptHead + problem + PromptMiddle + code + PromptTail
  }

  /** The prompt is 937 characters of fixed text with the problem at offset 520
      and the code 19 characters after the problem. */
  lemma PromptLayout(problem: string, code: string)
    ensures var r := GenerateInitialPrompt(problem, code);
      && |r| == 937 + |problem| + |code|
      && r[520..520 + |problem|] == problem
      && r[539 + |problem|..539 + |problem| + |code|] == code
  {
    assert |PromptHead| == 520 && |PromptMiddle| == 19 && |PromptTail| == 398;
    var r := GenerateInitialPrompt(problem, code);
    assert r[520..520 + |problem|] == problem;
    assert r[539 + |problem|..539 + |problem| + |code|] == code;
  }

  /** Reads the two inputs back out of a text built as `head + problem + middle
      + code + tail`, given the length of the problem. */
  function TemplateInputs(text: string, head: string, middle: string, tail: string, problemLength: nat): Option<(string, string)> {
    if |text| < |head| + problemLength + |middle| + |tail| then None
    else
      var codeStart := |head| + problemLength + |middle|;
      var codeEnd := |text| - |tail|;
      if && text[..|head|] == head
         && text[|head| + problemLength..codeStart] == middle
         && text[codeEnd..] == tail
      then Some((text[|head|..|head| + problemLength], text[codeStart..codeEnd]))
      else None
  }

  lemma TemplateRoundTrip(head: string, problem: string, middle: string, code: string, tail: string)
    ensures TemplateInputs(head + problem + middle + code + tail, head, middle, tail, |problem|) == Some((problem, code))
  {
    var c := head + problem;
    var b := c + middle;
    var a := b + code;
    var r := a + tail;
    assert r[..|a|] == a && r[|a|..] == tail;
    assert a[..|b|] == b && a[|b|..] == code;
    assert b[..|c|] == c && b[|c|..] == middle;
    assert c[..|head|] == head && c[|head|..] == problem;
    assert r[..|head|] == a[..|head|] == b[..|head|] == c[..|head|];
    assert r[|head|..|c|] == a[|head|..|c|] == b[|head|..|c|] == c[|head|..];
    assert r[|c|..|b|] == a[|c|..|b|] == b[|c|..];
    assert r[|b|..|a|] == a[|b|..];
  }

  /** Reads the two inputs back out of an opening prompt. */
  function PromptInputs(prompt: string, problemLength: nat): Option<(string, string)> {
    TemplateInputs(prompt, PromptHead, PromptMiddle, PromptTail, problemLength)
  }

  /** The prompt holds both inputs verbatim, the problem before the code, and
      nothing of them is lost. */
  lemma PromptRoundTrip(problem: string, code: string)
    ensures PromptInputs(GenerateInitialPrompt(problem, code), |problem|) == Some((problem, code))
  {
    TemplateRoundTrip(PromptHead, problem, PromptMiddle, code, PromptTail);
  }
}

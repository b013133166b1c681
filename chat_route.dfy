/** The relay endpoint in front of the text model: which HTTP status and which
    error text a request gets, decided by a chain of early returns. The model
    call and the parsing of the request body are inputs. */
module ChatRoute {
  import opened Optional
  import opened JsString

  /** What a `catch` clause receives: an `Error` with a message, or any other value. */
  datatype Thrown = ErrorValue(message: string) | OtherValue

  /** The outcome of `await request.json()` and reading `prompt` from it. */
  datatype BodyOutcome = Parsed(prompt: Option<string>) | BodyThrew(thrown: Thrown)

  /** The outcome of sending a prompt to the model and reading the reply's text. */
  datatype ModelOutcome = Text(text: string) | ModelThrew(thrown: Thrown)

  /** The JSON response: the reply text with status 200, or an error with its status. */
  datatype Response =
    | Reply(response: string)
    | Failure(status: int, error: string, details: string)
  {
    function Status(): int {
      if Reply? then 200 else status
    }
  }

  /** The three message groups, in the order they are tested. */
  predicate IsAuthMessage(m: string) {
    Includes(m, "API key") || Includes(m, "authentication")
  }

  predicate IsQuotaMessage(m: string) {
    Includes(m, "quota") || Includes(m, "limit")
  }

  predicate IsNetworkMessage(m: string) {
    Includes(m, "network") || Includes(m, "fetch")
  }

  /** The `catch` clause: 401, 429 or 503 by the first message group that
      matches, otherwise 500 with the message, or with a fixed text when what
      was thrown is not an `Error`. */
  function CatchResponse(e: Thrown): (r: Response)
    ensures r.Failure?
    ensures r.status == 401 <==> e.ErrorValue? && IsAuthMessage(e.message)
    ensures r.status == 429 <==> e.ErrorValue? && !IsAuthMessage(e.message) && IsQuotaMessage(e.message)
    ensures r.status == 503 <==>
      e.ErrorValue? && !IsAuthMessage(e.message) && !IsQuotaMessage(e.message) && IsNetworkMessage(e.message)
    ensures r.status == 500 <==>
      e.OtherValue? || (!IsAuthMessage(e.message) && !IsQuotaMessage(e.message) && !IsNetworkMessage(e.message))
    ensures r.status == 401 ==>
      r.error == "Invalid API key" && r.details == "The provided API key is invalid or expired"
    ensures r.status == 429 ==>
      r.error == "API quota exceeded" && r.details == "You have exceeded your API quota limit"
    ensures r.status == 503 ==>
      r.error == "Network error" && r.details == "Failed to connect to Gemini API"
    ensures r.status == 500 ==> r.error == "Failed to get response from AI"
    ensures r.status == 500 ==> r.details == if e.ErrorValue? then e.message else "Unknown error occurred"
  {
    if e.ErrorValue? && IsAuthMessage(e.message) then
      Failure(401, "Invalid API key", "The provided API key is invalid or expired")
    else if e.ErrorValue? && IsQuotaMessage(e.message) then
      Failure(429, "API quota exceeded", "You have exceeded your API quota limit")
    else if e.ErrorValue? && IsNetworkMessage(e.message) then
      Failure(503, "Network error", "Failed to connect to Gemini API")
    else
      Failure(500, "Failed to get response from AI",
              if e.ErrorValue? then e.message else "Unknown error occurred")
  }

  /** `POST`: the API key is checked first, then the prompt, then the model's
      text; anything thrown on the way goes to the `catch` clause. */
  function Post(apiKey: Option<string>, body: BodyOutcome, model: string -> ModelOutcome): (r: Response)
    ensures !Truthy(apiKey) ==> r == Failure(500, "API key not configured",
      "Please set GEMINI_API_KEY or NEXT_PUBLIC_GEMINI_API_KEY environment variable")
    ensures Truthy(apiKey) && body.BodyThrew? ==> r == CatchResponse(body.thrown)
    ensures Truthy(apiKey) && body.Parsed? && !Truthy(body.prompt) ==>
      r == Failure(400, "Prompt is required", "No prompt provided in request body")
    ensures Truthy(apiKey) && body.Parsed? && Truthy(body.prompt) && model(body.prompt.value).ModelThrew? ==>
      r == CatchResponse(model(body.prompt.value).thrown)
    ensures (Truthy(apiKey) && body.Parsed? && Truthy(body.prompt)
             && model(body.prompt.value).Text? && AllWhiteSpace(model(body.prompt.value).text)) ==>
      r == Failure(500, "Empty response from AI", "AI returned an empty response")
    ensures r.Reply? <==>
      && Truthy(apiKey) && body.Parsed? && Truthy(body.prompt)
      && model(body.prompt.value).Text? && !AllWhiteSpace(model(body.prompt.value).text)
    ensures r.Reply? ==> r.response == model(body.prompt.value).text
    ensures r.Status() in {200, 400, 401, 429, 500, 503}
  {
    if !Truthy(apiKey) then
      Failure(500, "API key not configured",
              "Please set GEMINI_API_KEY or NEXT_PUBLIC_GEMINI_API_KEY environment variable")
    else
      match body
      case BodyThrew(e) => CatchResponse(e)
      case Parsed(prompt) =>
        if !Truthy(prompt) then
          Failure(400, "Prompt is required", "No prompt provided in request body")
        else
          match model(prompt.value)
          case ModelThrew(e) => CatchResponse(e)
          case Text(text) =>
            TrimEmptyIff(text);
            if text == "" || Trim(text) == "" then
              Failure(500, "Empty response from AI", "AI returned an empty response")
            else
              Reply(text)
  }

  /** The tests are case-sensitive: "QUOTA" is not "quota". */
  lemma CaseSensitiveMatch()
    ensures !Includes("QUOTA", "quota")
    ensures CatchResponse(ErrorValue("QUOTA")).status == 500
  {
    NotIncludesWithoutFirstChar("QUOTA", "quota");
    NotIncludesWithoutFirstChar("QUOTA", "limit");
    NotIncludesWithoutFirstChar("QUOTA", "fetch");
    NotIncludesLonger("QUOTA", "API key");
    NotIncludesLonger("QUOTA", "authentication");
    NotIncludesLonger("QUOTA", "network");
  }
}

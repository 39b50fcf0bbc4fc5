/** The request checks and defaults of the backend's HTTP endpoints and of the
    `ai-autocomplete` socket event (backend/server.js). The calls to the judge
    and to the text-completion provider themselves are not modelled: what they
    answer is an input here. */
module HttpApi {
  import opened JsValues

  /** A handler either passes a request on to the external service or answers
      400 Bad Request itself, without calling anything. */
  datatype Checked<T> = Forward(request: T) | BadRequest(error: string)

  // ---------------------------------------------------------------------------
  // POST /api/execute

  /** The JSON body the editor posts. Fields the client leaves out, or sends
      as null, are `None`. */
  datatype ExecuteBody = ExecuteBody(sourceCode: Option<string>, languageId: Option<int>, stdin: Option<string>)

  /** The submission the backend sends to the judge. */
  datatype JudgeSubmission = JudgeSubmission(
    sourceCode: string, languageId: int, stdin: string, cpuTimeLimit: int, memoryLimit: int)

  /** The resource limits attached to every submission (seconds, kilobytes). */
  const CpuTimeLimit := 5
  const MemoryLimit := 512000

  /** JavaScript truthiness of an optional number: absent and 0 are falsy. */
  predicate TruthyNumber(n: Option<int>) {
    n.Some? && n.value != 0
  }

  /** `/api/execute`: a falsy source or language id is refused before any call
      to the judge; otherwise source and language go through unchanged, stdin
      defaults to "", and the fixed limits are added. */
  function CheckExecute(body: ExecuteBody): (r: Checked<JudgeSubmission>)
    ensures r.BadRequest? <==> !Truthy(body.sourceCode) || !TruthyNumber(body.languageId)
    ensures r.BadRequest? ==> r.error == "Source code and language ID are required"
    ensures r.Forward? ==>
              && Some(r.request.sourceCode) == body.sourceCode
              && Some(r.request.languageId) == body.languageId
              && r.request.stdin == body.stdin.GetOr("")
              && r.request.cpuTimeLimit == 5 && r.request.memoryLimit == 512000
  {
    if !Truthy(body.sourceCode) || !TruthyNumber(body.languageId) then
      BadRequest("Source code and language ID are required")
    else
      Forward(JudgeSubmission(body.sourceCode.value, body.languageId.value,
                              Or(body.stdin, Some("")).value, CpuTimeLimit, MemoryLimit))
  }

  // ---------------------------------------------------------------------------
  // GET /api/submission/:token

  /** `/api/submission/:token`: an empty token is refused; any other token is
      passed to the judge unchanged. */
  function CheckToken(token: string): (r: Checked<string>)
    ensures r.BadRequest? <==> token == ""
    ensures r.BadRequest? ==> r.error == "Token is required"
    ensures r.Forward? ==> r.request == token
  {
    if token == "" then BadRequest("Token is required") else Forward(token)
  }

  // ---------------------------------------------------------------------------
  // POST /api/autocomplete and the `ai-autocomplete` socket event

  /** The parts of the provider's answer the handlers look at:
      `response.candidates[0].content.parts[0].text`, any link of which may be
      missing. */
  datatype Part = Part(text: Option<string>)
  datatype Content = Content(parts: Option<seq<Part>>)
  datatype Candidate = Candidate(content: Option<Content>)
  datatype Generation = Generated(candidates: Option<seq<Candidate>>) | GenerationFailed(message: string)

  /** `result?.response?.candidates?.[0]?.content?.parts?.[0]?.text`. */
  function FirstCandidateText(candidates: Option<seq<Candidate>>): (t: Option<string>)
    ensures t.Some? ==>
              && candidates.Some? && |candidates.value| > 0
              && candidates.value[0].content.Some?
              && candidates.value[0].content.value.parts.Some?
              && |candidates.value[0].content.value.parts.value| > 0
              && t == candidates.value[0].content.value.parts.value[0].text
    ensures (&& candidates.Some? && |candidates.value| > 0
             && candidates.value[0].content.Some?
             && candidates.value[0].content.value.parts.Some?
             && |candidates.value[0].content.value.parts.value| > 0) ==>
              t == candidates.value[0].content.value.parts.value[0].text
  {
    if candidates.None? || |candidates.value| == 0 then None
    else
      var content := candidates.value[0].content;
      if content.None? || content.value.parts.None? || |content.value.parts.value| == 0 then None
      else content.value.parts.value[0].text
  }

  /** `text?.trim() || ""`: the trimmed text, "" when there is none. */
  function SuggestionText(text: Option<string>): (s: string)
    ensures s == "" <==> text.None? || AllWhitespace(text.value)
    ensures text.Some? ==> s == Trim(text.value)
  {
    if text.None? then ""
    else
      TrimEmptyIff(text.value);
      var t := Trim(text.value);
      if t != "" then t else ""
  }

  /** The outcome of one completion request, over HTTP or over the socket. */
  datatype Completion = Suggestion(text: string) | CodeRequired | ProviderError(message: string)

  /** Both completion handlers: a falsy `code` is refused before the provider
      is asked (its answer does not matter); a provider failure is passed on
      with its message; otherwise the first candidate's trimmed text, or "". */
  function Autocomplete(code: Option<string>, provider: Generation): (r: Completion)
    ensures !Truthy(code) ==> r == CodeRequired
    ensures Truthy(code) && provider.GenerationFailed? ==> r == ProviderError(provider.message)
    ensures Truthy(code) && provider.Generated? ==>
              r.Suggestion? && r.text == SuggestionText(FirstCandidateText(provider.candidates))
  {
    if !Truthy(code) then CodeRequired
    else match provider
      case GenerationFailed(m) => ProviderError(m)
      case Generated(cs) => Suggestion(SuggestionText(FirstCandidateText(cs)))
  }

  /** The JSON body both handlers answer with: `{ error }` or `{ suggestion }`. */
  datatype ReplyBody = ErrorBody(error: string) | SuggestionBody(suggestion: string)

  function Body(r: Completion): ReplyBody {
    match r
    case Suggestion(t) => SuggestionBody(t)
    case CodeRequired => ErrorBody("Code is required")
    case ProviderError(m) => ErrorBody(m)
  }

  /** The HTTP status `/api/autocomplete` answers with (the socket event has
      none): 400 for a missing code, 500 for a provider failure, 200 else. */
  function HttpStatus(r: Completion): (status: int)
    ensures status == 200 <==> Body(r).SuggestionBody?
    ensures status == 400 <==> r.CodeRequired?
    ensures status == 500 <==> r.ProviderError?
  {
    match r
    case Suggestion(_) => 200
    case CodeRequired => 400
    case ProviderError(_) => 500
  }
}

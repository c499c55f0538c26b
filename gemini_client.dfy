/**
 * `GeminiClient.generateContent`: check the stored API key, send a one-part
 * request, turn the reply into a `Result<String>`, and count the successful
 * calls in the preferences. The HTTP call is the parameter `api`: given
 * the key and the request it either raises or returns the decoded reply.
 */
module GeminiClientModel {
  import opened Outcomes
  import opened Collections
  import opened GeminiModels
  import opened Preferences

  /** What `api.generateContent` did: raised an exception (with its message), or returned a decoded reply. */
  datatype Reply = Raised(message: Option<string>) | Responded(response: GeminiResponse)

  type Api = (string, GeminiRequest) -> Reply

  const MissingKey := "Gemini API key not configured"
  const EmptyReply := "Empty response from Gemini API"
  const ApiErrorPrefix := "Gemini API Error: "

  /** The request sent for `prompt`: one content holding one part, with the default generation settings. */
  function BuildRequest(prompt: string): (req: GeminiRequest)
    ensures |req.contents| == 1 && |req.contents[0].parts| == 1
    ensures req.contents[0].parts[0].text == prompt
    ensures req.generationConfig == GenerationConfig()
  {
    RequestOf([Content([Part(prompt)])])
  }

  /** `candidates.firstOrNull()?.content?.parts?.firstOrNull()?.text`. */
  function FirstText(resp: GeminiResponse): (t: Option<string>)
    ensures t.Some? <==>
      (|resp.candidates| > 0 && resp.candidates[0].content.Some? && |resp.candidates[0].content.value.parts| > 0)
    ensures t.Some? ==> t.value == resp.candidates[0].content.value.parts[0].text
  {
    match GetOrNull(resp.candidates, 0)
    case None => None
    case Some(c) =>
      match c.content
      case None => None
      case Some(content) =>
        match GetOrNull(content.parts, 0)
        case None => None
        case Some(part) => Some(part.text)
  }

  /** One call of `generateContent`: the request handed to the API (`None` when none was sent) and the result. */
  datatype Call = Call(request: Option<GeminiRequest>, result: Result<string>)

  /** The stored key can be used: it is neither `null` nor empty. */
  predicate HasKey(apiKey: Option<string>)
    ensures HasKey(apiKey) <==> apiKey != None && apiKey != Some("")
  {
    apiKey.Some? && apiKey.value != ""
  }

  /**
   * The decision logic of `generateContent` for the stored key `apiKey`:
   * an absent or empty key fails before any request; an exception's message
   * is passed on; a reply's `error` wins over its candidates; then the first
   * text of the first candidate, or a failure when there is none.
   */
  function Generate(apiKey: Option<string>, prompt: string, api: Api): (c: Call)
    ensures !HasKey(apiKey) ==> c == Call(None, Fail(MissingKey))
    ensures HasKey(apiKey) ==> c.request == Some(BuildRequest(prompt))
    ensures HasKey(apiKey) && api(apiKey.value, BuildRequest(prompt)).Raised? ==>
      c.result == Failure(api(apiKey.value, BuildRequest(prompt)).message)
    ensures HasKey(apiKey) && api(apiKey.value, BuildRequest(prompt)).Responded? ==>
      var resp := api(apiKey.value, BuildRequest(prompt)).response;
      c.result == if resp.error.Some? then Fail(ApiErrorPrefix + resp.error.value.message)
                  else if FirstText(resp).None? then Fail(EmptyReply)
                  else Success(FirstText(resp).value)
  {
    if !HasKey(apiKey) then Call(None, Fail(MissingKey))
    else
      var request := BuildRequest(prompt);
      var result :=
        match api(apiKey.value, request)
        case Raised(m) => Failure(m)
        case Responded(resp) =>
          if resp.error.Some? then Fail(ApiErrorPrefix + resp.error.value.message)
          else match FirstText(resp)
            case None => Fail(EmptyReply)
            case Some(text) => Success(text);
      Call(Some(request), result)
  }

  /**
   * A successful call is exactly one where a key was stored, the API
   * answered without an `error`, and its first candidate held a first part;
   * the text returned is that part's text.
   */
  lemma SuccessIsFirstText(apiKey: Option<string>, prompt: string, api: Api)
    ensures var c := Generate(apiKey, prompt, api);
      c.result.Success? <==>
        && HasKey(apiKey)
        && api(apiKey.value, BuildRequest(prompt)).Responded?
        && api(apiKey.value, BuildRequest(prompt)).response.error.None?
        && FirstText(api(apiKey.value, BuildRequest(prompt)).response).Some?
    ensures var c := Generate(apiKey, prompt, api);
      c.result.Success? ==> c.result.value == FirstText(api(apiKey.value, BuildRequest(prompt)).response).value
  {
  }

  /** A reply carrying an `error` fails even when it also carries candidates with text. */
  lemma ErrorWinsOverCandidates(apiKey: string, prompt: string, api: Api, text: string, e: ErrorInfo)
    requires apiKey != ""
    requires api(apiKey, BuildRequest(prompt)) == Responded(GeminiResponse([Candidate(Some(Content([Part(text)])))], None, Some(e)))
    ensures Generate(Some(apiKey), prompt, api).result == Fail(ApiErrorPrefix + e.message)
    ensures FirstText(GeminiResponse([Candidate(Some(Content([Part(text)])))], None, Some(e))) == Some(text)
  {
  }

  // ----------------------------------------------------------- the object

  class GeminiClient {
    const aiPreferences: AiPreferences

    constructor(aiPreferences: AiPreferences)
      ensures this.aiPreferences == aiPreferences
    {
      this.aiPreferences := aiPreferences;
    }

    /**
     * `generateContent(prompt)`. The result is `Generate`'s for the stored
     * key; `requestCount` goes up by one (as a Kotlin `Int`, wrapping
     * around) after a success and the store is untouched otherwise.
     */
    method GenerateContent(prompt: string, api: Api) returns (r: Result<string>)
      requires aiPreferences.Valid()
      modifies aiPreferences
      ensures aiPreferences.Valid()
      ensures r == Generate(old(aiPreferences.GeminiApiKey()), prompt, api).result
      ensures r.Success? ==>
        aiPreferences.store == WithRequestCount(old(aiPreferences.store), PlusInt32(old(aiPreferences.RequestCount()), 1))
      ensures r.Failure? ==> aiPreferences.store == old(aiPreferences.store)
    {
      var apiKey := aiPreferences.GeminiApiKey();
      var call := Generate(apiKey, prompt, api);
      r := call.result;
      if r.Success? {
        var count := aiPreferences.RequestCount();
        aiPreferences.SetRequestCount(PlusInt32(count, 1));
      }
    }
  }

  /** After a successful call the counter reads one more than before (wrapping at the top of `Int`); no other setting changes. */
  lemma SuccessBumpsCounter(st: Store)
    requires WellTyped(st)
    ensures WellTyped(WithRequestCount(st, PlusInt32(View(st).requestCount, 1)))
    ensures var after := View(WithRequestCount(st, PlusInt32(View(st).requestCount, 1)));
      && after == View(st).(requestCount := after.requestCount)
      && (View(st).requestCount < 0x7FFF_FFFF ==> after.requestCount == View(st).requestCount + 1)
      && (View(st).requestCount == 0x7FFF_FFFF ==> after.requestCount == -0x8000_0000)
  {
    RequestCountSetGet(st, PlusInt32(View(st).requestCount, 1));
  }
}

/**
 * The request and response records exchanged with the Gemini
 * `generateContent` endpoint. Kotlin's default argument values are the
 * datatype's default values, which is also what the JSON decoder fills in
 * for a field the reply leaves out.
 */
module GeminiModels {
  import opened Outcomes

  datatype Part = Part(text: string)

  datatype Content = Content(parts: seq<Part>)

  /** The sampling settings; the two `Float` settings, temperature and topP, are not part of this model. */
  datatype GenerationConfig = GenerationConfig(maxOutputTokens: Int32 := 2048, topK: Int32 := 40)

  datatype GeminiRequest = GeminiRequest(contents: seq<Content>, generationConfig: GenerationConfig := GenerationConfig())

  datatype UsageMetadata = UsageMetadata(promptTokenCount: Int32 := 0, candidatesTokenCount: Int32 := 0, totalTokenCount: Int32 := 0)

  datatype SafetyRating = SafetyRating(category: string := "", probability: string := "")

  datatype ErrorInfo = ErrorInfo(code: Int32 := 0, message: string := "", status: string := "")

  datatype Candidate = Candidate(content: Option<Content> := None, finishReason: string := "", safetyRatings: seq<SafetyRating> := [])

  datatype GeminiResponse = GeminiResponse(candidates: seq<Candidate> := [], usageMetadata: Option<UsageMetadata> := None, error: Option<ErrorInfo> := None)

  /** A request built from its contents alone carries the default generation settings. */
  function RequestOf(contents: seq<Content>): (req: GeminiRequest)
    ensures req.contents == contents
    ensures req.generationConfig.maxOutputTokens == 2048 && req.generationConfig.topK == 40
  {
    GeminiRequest(contents)
  }

  /** What a reply with none of its fields decodes to. */
  function EmptyResponse(): (resp: GeminiResponse)
    ensures resp.candidates == [] && resp.usageMetadata == None && resp.error == None
  {
    GeminiResponse()
  }

  /** What a candidate with none of its fields decodes to. */
  function EmptyCandidate(): (c: Candidate)
    ensures c.content == None && c.finishReason == "" && c.safetyRatings == []
  {
    Candidate()
  }

  /** What an error object with none of its fields decodes to. */
  function EmptyErrorInfo(): (e: ErrorInfo)
    ensures e.code == 0 && e.message == "" && e.status == ""
  {
    ErrorInfo()
  }

  /** What a usage object with none of its fields decodes to. */
  function EmptyUsageMetadata(): (u: UsageMetadata)
    ensures u.promptTokenCount == 0 && u.candidatesTokenCount == 0 && u.totalTokenCount == 0
  {
    UsageMetadata()
  }

  /** A rating with none of its fields. */
  function EmptySafetyRating(): (r: SafetyRating)
    ensures r.category == "" && r.probability == ""
  {
    SafetyRating()
  }
}

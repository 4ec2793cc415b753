/** The record shapes of the application's `types.ts` that the service
    reads and returns, and the slice of the generative-AI SDK's request and
    response shapes it touches. */
module Types {
  import opened Wrappers

  /** `EmailTone` is an open string. */
  type EmailTone = string

  /** A cited web page. */
  datatype Source = Source(uri: string, title: string)

  /** An uploaded document; `data` is its base64 text. */
  datatype DocumentState = DocumentState(name: string, mimeType: string, data: string)

  /** `text` is passed through from the SDK, which may give no text. */
  datatype GenerationResult = GenerationResult(text: Option<string>, sources: seq<Source>)

  /** The fields `buildPrompt` destructures. `selectedApproach` is absent or
      a string (the caller passes `selectedApproach || undefined`). */
  datatype GenerationParams = GenerationParams(
    emailContext: string,
    documentContent: Option<DocumentState>,
    clientInfo: string,
    tone: EmailTone,
    selectedApproach: Option<string>)

  /** The parameters of `findApproaches`. */
  datatype ApproachParams = ApproachParams(clientInfo: string, tone: EmailTone)

  /** One part of a request message. */
  datatype Part = TextPart(text: string) | InlineDataPart(mimeType: string, data: string)

  datatype Tool = GoogleSearch

  /** A `generateContent` call: the model, one message of the given role
      and parts, and the tools switched on. */
  datatype Request = Request(model: string, role: string, parts: seq<Part>, tools: seq<Tool>)

  datatype WebChunk = WebChunk(uri: Option<string>, title: Option<string>)

  datatype GroundingChunk = GroundingChunk(web: Option<WebChunk>)

  datatype GroundingMetadata = GroundingMetadata(groundingChunks: Option<seq<GroundingChunk>>)

  datatype Candidate = Candidate(groundingMetadata: Option<GroundingMetadata>)

  datatype GenerateContentResponse = GenerateContentResponse(text: Option<string>, candidates: Option<seq<Candidate>>)

  /** What the external call yields: a rejection (missing credential,
      network or API failure) or a response. */
  datatype Reply = CallFailed | Replied(response: GenerateContentResponse)
}

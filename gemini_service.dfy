/** The decision logic of the generation service: parsing the model's
    bulleted reply into approaches, building the email prompt from one of
    two templates, assembling the request parts and shaping the cited
    sources. The hosted model is a parameter `model: Request -> Reply`, so
    what is sent and what comes back are both visible to the contracts. */
module GeminiService {
  import opened Wrappers
  import opened JsString
  import opened Seqs
  import opened Types

  const ModelName := "gemini-2.5-flash"
  const UserRole := "user"
  const ApproachFailureMessage := "Failed to find approaches with the AI model."
  const EmailFailureMessage := "Failed to communicate with the AI model."
  const UntitledSource := "Untitled Source"

  /** JavaScript's `s || ''` on an optional string. */
  function OrEmpty(s: Option<string>): (r: string)
    ensures r != [] <==> s.Some? && s.value != []
    ensures r != [] ==> r == s.value
  {
    if s.Some? then s.value else ""
  }

  // ---------------------------------------------------------------------
  // findApproaches

  const ApproachPromptHead := "\n    Based on the following client description and goal: "
  const ApproachPromptTail := " tone.\n    Find 3 to 5 current and relevant news stories, trends, or topics from the advertising and marketing world that could be used as a compelling angle for a sales email.\n    List each topic as a concise, single sentence.\n    Format your response as a simple list, with each item on a new line, starting with a hyphen. Do not include any other text, titles, or explanations.\n    For example:\n    - A recent study shows a 20% increase in consumer engagement with interactive video ads.\n    - The rise of AI-powered personalization is transforming e-commerce marketing strategies.\n  "

  /** The prompt asking for angles; it quotes the client description and
      the tone. */
  function ApproachPrompt(clientInfo: string, tone: EmailTone): (r: string)
    ensures IsInfix("\"" + clientInfo + "\"", r)
    ensures IsInfix("\"" + tone + "\"", r)
  {
    var pieces := [ApproachPromptHead, "\"" + clientInfo + "\"", ", and a desired ", "\"" + tone + "\"", ApproachPromptTail];
    ConcatInfix(pieces, 1);
    ConcatInfix(pieces, 3);
    Concat(pieces)
  }

  /** The single-part, web-search-enabled request `findApproaches` sends. */
  function ApproachRequest(params: ApproachParams): (req: Request)
    ensures req.model == ModelName && req.role == UserRole && req.tools == [GoogleSearch]
    ensures req.parts == [TextPart(ApproachPrompt(params.clientInfo, params.tone))]
  {
    Request(ModelName, UserRole, [TextPart(ApproachPrompt(params.clientInfo, params.tone))], [GoogleSearch])
  }

  /** A trimmed reply line that is a bullet. */
  predicate IsBullet(line: string) {
    StartsWith(line, "-")
  }

  /** `line.substring(1).trim()`: one leading character dropped. */
  function DropHyphen(line: string): string {
    Trim(Substring(line, 1))
  }

  /** What one raw reply line contributes: the approach it carries, if its
      trimmed form is a bullet. */
  function ApproachOfLine(line: string): (a: Option<string>)
    ensures a.Some? <==> IsBullet(Trim(line))
    ensures a.Some? ==> a.value == Trim(Trim(line)[1..]) && IsTrimmed(a.value)
  {
    if IsBullet(Trim(line)) then Some(DropHyphen(Trim(line))) else None
  }

  /** The reply parser: `split('\n')`, `map(trim)`, `filter(startsWith('-'))`,
      `map(substring(1).trim())`. */
  function ParseApproaches(text: string): (approaches: seq<string>)
    ensures |approaches| <= |Split(text, '\n')|
    ensures forall k :: 0 <= k < |approaches| ==> IsTrimmed(approaches[k])
  {
    Map(Filter(Map(Split(text, '\n'), Trim), IsBullet), DropHyphen)
  }

  /** The parser keeps, in order and exactly once each, the approach of
      every bullet line of the reply, and nothing else; every approach is
      trimmed, and there are never more approaches than lines. */
  lemma ParseApproachesCorrect(text: string)
    ensures var lines := Split(text, '\n');
      && ParseApproaches(text) == FilterMap(lines, ApproachOfLine)
      && |ParseApproaches(text)| == CountSome(lines, ApproachOfLine) <= |lines|
      && (forall i :: 0 <= i < |lines| && IsBullet(Trim(lines[i])) ==>
            CountSome(lines[..i], ApproachOfLine) < |ParseApproaches(text)| &&
            ParseApproaches(text)[CountSome(lines[..i], ApproachOfLine)] == Trim(Trim(lines[i])[1..]))
      && (forall k :: 0 <= k < |ParseApproaches(text)| ==> IsTrimmed(ParseApproaches(text)[k]))
  {
    var lines := Split(text, '\n');
    MapFilterMapFusion(lines, Trim, IsBullet, DropHyphen, ApproachOfLine);
    FilterMapLength(lines, ApproachOfLine);
    forall i | 0 <= i < |lines| && IsBullet(Trim(lines[i]))
      ensures CountSome(lines[..i], ApproachOfLine) < |ParseApproaches(text)|
      ensures ParseApproaches(text)[CountSome(lines[..i], ApproachOfLine)] == Trim(Trim(lines[i])[1..])
    {
      FilterMapAt(lines, ApproachOfLine, i);
    }
    FilterMapAll(lines, ApproachOfLine, IsTrimmed);
  }

  /** Every approach comes from a bullet line of the reply, the one at its
      position in the order of bullet lines. */
  lemma ParseApproachesOrigin(text: string, k: nat)
    requires k < |ParseApproaches(text)|
    ensures var lines := Split(text, '\n');
      exists i :: 0 <= i < |lines| && IsBullet(Trim(lines[i]))
        && ParseApproaches(text)[k] == Trim(Trim(lines[i])[1..])
        && CountSome(lines[..i], ApproachOfLine) == k
  {
    var lines := Split(text, '\n');
    var r := ParseApproaches(text);
    ParseApproachesCorrect(text);
    assert r == FilterMap(lines, ApproachOfLine);
    FilterMapFrom(lines, ApproachOfLine, k);
    var i :| 0 <= i < |lines| && ApproachOfLine(lines[i]) == Some(FilterMap(lines, ApproachOfLine)[k])
      && CountSome(lines[..i], ApproachOfLine) == k;
    var a := ApproachOfLine(lines[i]);
    assert a.Some? && a.value == r[k];
    assert IsBullet(Trim(lines[i])) && r[k] == Trim(Trim(lines[i])[1..]);
  }

  /** An empty reply parses to no approaches, so the `!text` guard agrees
      with the parser. */
  lemma ParseEmptyReply()
    ensures ParseApproaches("") == []
  {
    assert Split("", '\n') == [""];
    assert Trim("") == "";
    assert Map([""], Trim) == [""];
    assert !IsBullet("");
  }

  /** Only one leading hyphen is removed: a line `"--" + rest` yields the
      approach `"-" + rest`, so `"--x"` gives `["-x"]`. */
  lemma ParseDoubleHyphen(rest: string)
    requires IsTrimmed(rest) && '\n' !in rest
    ensures ParseApproaches("--" + rest) == ["-" + rest]
  {
    var line := "--" + rest;
    SplitSingle(line, '\n');
    DoubleHyphenLine(rest);
    MapFilterMapFusion([line], Trim, IsBullet, DropHyphen, ApproachOfLine);
    FilterMapCons(line, [], ApproachOfLine);
  }

  lemma DoubleHyphenLine(rest: string)
    requires IsTrimmed(rest)
    ensures ApproachOfLine("--" + rest) == Some("-" + rest)
  {
    var line := "--" + rest;
    var approach := "-" + rest;
    assert line == "-" + approach;
    TrimmedLine(line);
    assert Substring(line, 1) == approach;
    TrimmedLine(approach);
  }

  /** A reply of bullets and a note line keeps the bullets' texts in order
      and drops the note, whatever it says as long as it is not a bullet
      once trimmed: `"- X\n- Y\nnotes\n- Z"` gives `["X", "Y", "Z"]`. */
  lemma ParseSkipsNonBullets(x: string, y: string, note: string, z: string)
    requires IsItem(x) && IsItem(y) && IsItem(z)
    requires '\n' !in note && !IsBullet(Trim(note))
    ensures ParseApproaches("- " + x + "\n- " + y + "\n" + note + "\n- " + z) == [x, y, z]
  {
    var text := "- " + x + "\n- " + y + "\n" + note + "\n- " + z;
    var lines := ["- " + x, "- " + y, note, "- " + z];
    assert Join(lines, '\n') == text by {
      assert Join(lines[3..], '\n') == "- " + z;
      assert Join(lines[2..], '\n') == note + "\n" + ("- " + z);
      assert Join(lines[1..], '\n') == "- " + y + "\n" + (note + "\n" + ("- " + z));
    }
    SplitJoin(lines, '\n');
    MapFilterMapFusion(lines, Trim, IsBullet, DropHyphen, ApproachOfLine);
    BulletLine(x);
    BulletLine(y);
    BulletLine(z);
    FilterMapOfFour("- " + x, "- " + y, note, "- " + z, ApproachOfLine, x, y, z);
  }

  /** A one-character item that is not whitespace. */
  predicate IsItem(a: string) {
    |a| == 1 && !IsWhitespace(a[0])
  }

  lemma FilterMapOfFour<A, B>(lx: A, ly: A, ln: A, lz: A, f: A -> Option<B>, x: B, y: B, z: B)
    requires f(lx) == Some(x) && f(ly) == Some(y) && f(ln) == None && f(lz) == Some(z)
    ensures FilterMap([lx, ly, ln, lz], f) == [x, y, z]
  {
    FilterMapCons(lz, [], f);
    FilterMapCons(ln, [lz], f);
    FilterMapCons(ly, [ln, lz], f);
    FilterMapCons(lx, [ly, ln, lz], f);
  }

  lemma TrimmedLine(line: string)
    requires IsTrimmed(line) && line != []
    ensures Trim(line) == line
  {
    assert [] + line + [] == line;
    TrimUnique([], line, []);
  }

  /** `"- " + a` is a bullet line carrying `a`, for a one-character `a`. */
  lemma BulletLine(a: string)
    requires IsItem(a)
    ensures ApproachOfLine("- " + a) == Some(a)
  {
    TrimmedLine("- " + a);
    SpaceThen(a);
  }

  lemma SpaceThen(a: string)
    requires |a| == 1 && !IsWhitespace(a[0])
    ensures Substring("- " + a, 1) == " " + a
    ensures Trim(" " + a) == a
  {
    assert " " + a + [] == " " + a;
    TrimUnique(" ", a, []);
  }

  /** `findApproaches`: a blank client description gives no approaches and
      leaves the model out, whatever it would have answered; otherwise a
      failed call is the fixed error, and a reply is parsed, a missing or
      empty text giving no approaches. */
  function FindApproaches(params: ApproachParams, model: Request -> Reply): (r: Result<seq<string>, string>)
    ensures AllWhitespace(params.clientInfo) ==> r == Success([])
    ensures !AllWhitespace(params.clientInfo) ==>
      (r.Failure? <==> model(ApproachRequest(params)).CallFailed?)
    ensures r.Failure? ==> r.error == ApproachFailureMessage
    ensures !AllWhitespace(params.clientInfo) && model(ApproachRequest(params)).Replied? ==>
      r == Success(ParseApproaches(OrEmpty(model(ApproachRequest(params)).response.text)))
    ensures var reply := model(ApproachRequest(params));
      !AllWhitespace(params.clientInfo) && reply.Replied? && OrEmpty(reply.response.text) == [] ==> r == Success([])
    ensures r.Success? ==> forall k :: 0 <= k < |r.value| ==> IsTrimmed(r.value[k])
  {
    TrimEmptyIffBlank(params.clientInfo);
    if Trim(params.clientInfo) == [] then
      Success([])
    else
      match model(ApproachRequest(params))
      case CallFailed => Failure(ApproachFailureMessage)
      case Replied(response) =>
        ParseEmptyReply();
        var text := OrEmpty(response.text);
        if text == [] then
          Success([])
        else
          ParseApproachesCorrect(text);
          Success(ParseApproaches(text))
  }

  // ---------------------------------------------------------------------
  // buildPrompt

  /** A present, non-empty string: JavaScript truthiness of `string | undefined`. */
  predicate IsTruthy(s: Option<string>) {
    s.Some? && s.value != []
  }

  const MustIncorporatePrefix := "You MUST incorporate the following angle into the email: "
  const UseExpertiseMessage := "Use your expertise to determine the best angle."

  /** `approachMessage`: a directive quoting the chosen angle, or the fixed
      fallback sentence. */
  function ApproachMessage(selectedApproach: Option<string>): (m: string)
    ensures IsTruthy(selectedApproach) <==> StartsWith(m, MustIncorporatePrefix)
    ensures IsTruthy(selectedApproach) ==> IsInfix("\"" + selectedApproach.value + "\"", m)
    ensures !IsTruthy(selectedApproach) ==> m == UseExpertiseMessage
  {
    if IsTruthy(selectedApproach) then
      var quoted := "\"" + selectedApproach.value + "\"";
      assert (MustIncorporatePrefix + quoted)[..|MustIncorporatePrefix|] == MustIncorporatePrefix;
      InfixOfConcat(MustIncorporatePrefix, quoted, "");
      assert MustIncorporatePrefix + quoted + "" == MustIncorporatePrefix + quoted;
      MustIncorporatePrefix + quoted
    else
      UseExpertiseMessage
  }

  const DocumentNamedPrefix := "An external document named "
  const DocumentNamedSuffix := " has been provided as additional context. Please analyze it carefully along with other information."
  const NoDocumentMessage := "No document context provided."

  /** `documentContextMessage`: names the attached document, in quotes,
      exactly when there is one. */
  function DocumentContextMessage(doc: Option<DocumentState>): (m: string)
    ensures doc.Some? <==> StartsWith(m, DocumentNamedPrefix)
    ensures doc.Some? ==> IsInfix("'" + doc.value.name + "'", m)
    ensures doc.None? ==> m == NoDocumentMessage
  {
    match doc
    case Some(d) =>
      var quoted := "'" + d.name + "'";
      var m := DocumentNamedPrefix + quoted + DocumentNamedSuffix;
      assert m == DocumentNamedPrefix + (quoted + DocumentNamedSuffix);
      assert m[..|DocumentNamedPrefix|] == DocumentNamedPrefix;
      InfixOfConcat(DocumentNamedPrefix, quoted, DocumentNamedSuffix);
      m
    case None =>
      assert NoDocumentMessage[0] != DocumentNamedPrefix[0];
      NoDocumentMessage
  }

  const ThreadOpening := "\n      You are an AI assistant."
  const ThreadIntro := " Your primary and most critical task is to analyze the following email thread and then draft a new email that seamlessly continues the conversation. This provided thread is the single source of truth for our past conversation.\n\n      **Primary Directive:**\n      Deeply analyze the email thread provided below. Your generated email MUST be a direct and relevant continuation of this specific conversation. Reference points, questions, or agreements mentioned in the thread to make the new email feel personal and informed. Do not generate a generic sales email; your response must be grounded in the provided dialogue.\n\n      **Chosen Angle:**\n      "
  const ThreadHeading := "\n\n      **Email Thread for Analysis:**\n      "
  const ThreadFence := "---"
  const ThreadIndent := "\n      "
  const ThreadGoal := "\n\n      **My Goal for this New Email:**\n      This is what I want to achieve. Use this to guide the call to action and the overall message, while staying true to the conversation history from the thread above.\n      "
  const ThreadTone := "\n\n      **Tone:**\n      "
  const ThreadDocuments := "\n\n      **Supporting Documents (For additional details):**\n      "
  const ThreadClosing := "\n\n      **Web Search (For enrichment):**\n      Use web search for current marketing or advertising topics ONLY if it directly supports the goal of this email and fits the context of our conversation. Avoid generic trends.\n\n      Based on your detailed analysis of the provided email thread, generate the new email now.\n    "

  const FallbackOpening := "\n    You are a New Business Assistant,"
  const FallbackIntro := " an expert in sales and marketing. Your task is to write a compelling and professional email to a prospective client.\n\n    "
  const NoThreadNotice := "No email thread was pasted."
  const FallbackGuidance := " The email will be generated based on your goal and other provided context.\n\n    Please draft a sales email based on the following information. Incorporate best practices for sales outreach and use current information about marketing and advertising trends to make the email relevant and impactful. The email should be clear, concise, and have a strong call to action.\n\n    **Chosen Angle:**\n    "
  const FallbackTone := "\n\n    **Tone:**\n    "
  const FallbackGoal := "\n\n    **My Goal & Client Information:**\n    "
  const FallbackDocuments := "\n\n    **Relevant context from my uploaded documents (if any):**\n    "
  const FallbackClosing := "\n\n    Generate the email now.\n  "

  /** The email thread as the thread template embeds it, between fences. */
  function FencedThread(emailContext: string): string {
    ThreadFence + ThreadIndent + emailContext + ThreadIndent + ThreadFence
  }

  /** The pieces of the thread-continuation template, in order. */
  function ThreadPieces(approachMessage: string, emailContext: string, clientInfo: string, tone: EmailTone, documentMessage: string): seq<string> {
    [ThreadOpening, ThreadIntro, approachMessage,
     ThreadHeading, FencedThread(emailContext),
     ThreadGoal, clientInfo,
     ThreadTone, tone,
     ThreadDocuments, documentMessage,
     ThreadClosing]
  }

  /** The pieces of the cold-outreach template used when no thread was
      pasted, in order. */
  function FallbackPieces(approachMessage: string, clientInfo: string, tone: EmailTone, documentMessage: string): seq<string> {
    [FallbackOpening, FallbackIntro, NoThreadNotice, FallbackGuidance, approachMessage,
     FallbackTone, tone,
     FallbackGoal, clientInfo,
     FallbackDocuments, documentMessage,
     FallbackClosing]
  }

  /** The template pieces `buildPrompt` joins: the thread template when
      `emailContext` is truthy, the fallback otherwise, each with the two
      derived sentences spliced in. */
  function PromptPieces(params: GenerationParams): seq<string> {
    var approachMessage := ApproachMessage(params.selectedApproach);
    var documentMessage := DocumentContextMessage(params.documentContent);
    if params.emailContext != [] then
      ThreadPieces(approachMessage, params.emailContext, params.clientInfo, params.tone, documentMessage)
    else
      FallbackPieces(approachMessage, params.clientInfo, params.tone, documentMessage)
  }

  /** `buildPrompt`. */
  function BuildPrompt(params: GenerationParams): string {
    Concat(PromptPieces(params))
  }

  /** The template in use can be read off the prompt's opening: the thread
      template exactly when `emailContext` is non-empty, whitespace-only
      threads included, and the fallback exactly when it is empty. */
  lemma BuildPromptMode(params: GenerationParams)
    ensures params.emailContext != [] <==> StartsWith(BuildPrompt(params), ThreadOpening)
    ensures params.emailContext == [] <==> StartsWith(BuildPrompt(params), FallbackOpening)
  {
    var pieces := PromptPieces(params);
    var r := BuildPrompt(params);
    ConcatAt(pieces, 0);
    assert StartsWith(r, pieces[0]);
    assert r[5] == pieces[0][5];
    assert ThreadOpening[5] != FallbackOpening[5];
  }

  /** The thread template embeds the thread verbatim between `---` fences. */
  lemma BuildPromptEmbedsThread(params: GenerationParams)
    requires params.emailContext != []
    ensures IsInfix(FencedThread(params.emailContext), BuildPrompt(params))
  {
    ConcatInfix(PromptPieces(params), 4);
  }

  /** The fallback template says that no thread was pasted. */
  lemma BuildPromptNotesNoThread(params: GenerationParams)
    requires params.emailContext == []
    ensures IsInfix(NoThreadNotice, BuildPrompt(params))
  {
    ConcatInfix(PromptPieces(params), 2);
  }

  /** Whichever template is used, it contains the client description, the
      tone and both derived sentences verbatim. */
  lemma BuildPromptFields(params: GenerationParams)
    ensures IsInfix(params.clientInfo, BuildPrompt(params))
    ensures IsInfix(params.tone, BuildPrompt(params))
    ensures IsInfix(ApproachMessage(params.selectedApproach), BuildPrompt(params))
    ensures IsInfix(DocumentContextMessage(params.documentContent), BuildPrompt(params))
  {
    var a := ApproachMessage(params.selectedApproach);
    var d := DocumentContextMessage(params.documentContent);
    if params.emailContext != [] {
      ThreadFields(a, params.emailContext, params.clientInfo, params.tone, d);
    } else {
      FallbackFields(a, params.clientInfo, params.tone, d);
    }
  }

  lemma ThreadFields(a: string, e: string, c: string, t: string, d: string)
    ensures var r := Concat(ThreadPieces(a, e, c, t, d));
      IsInfix(a, r) && IsInfix(c, r) && IsInfix(t, r) && IsInfix(d, r)
  {
    var pieces := ThreadPieces(a, e, c, t, d);
    ConcatInfix(pieces, 2);
    ConcatInfix(pieces, 6);
    ConcatInfix(pieces, 8);
    ConcatInfix(pieces, 10);
  }

  lemma FallbackFields(a: string, c: string, t: string, d: string)
    ensures var r := Concat(FallbackPieces(a, c, t, d));
      IsInfix(a, r) && IsInfix(c, r) && IsInfix(t, r) && IsInfix(d, r)
  {
    var pieces := FallbackPieces(a, c, t, d);
    ConcatInfix(pieces, 4);
    ConcatInfix(pieces, 6);
    ConcatInfix(pieces, 8);
    ConcatInfix(pieces, 10);
  }

  // ---------------------------------------------------------------------
  // generateBusinessEmail

  /** The request parts: the prompt text, then the document's inline data
      exactly when a document is attached. */
  function RequestParts(prompt: string, doc: Option<DocumentState>): (parts: seq<Part>)
    ensures |parts| == (if doc.Some? then 2 else 1)
    ensures parts[0] == TextPart(prompt)
    ensures doc.Some? ==> parts[1] == InlineDataPart(doc.value.mimeType, doc.value.data)
  {
    [TextPart(prompt)] + if doc.Some? then [InlineDataPart(doc.value.mimeType, doc.value.data)] else []
  }

  /** `contentParts`, built by pushing onto a list. */
  method ContentParts(prompt: string, doc: Option<DocumentState>) returns (parts: seq<Part>)
    ensures parts == RequestParts(prompt, doc)
  {
    parts := [TextPart(prompt)];
    if doc.Some? {
      parts := parts + [InlineDataPart(doc.value.mimeType, doc.value.data)];
    }
  }

  /** The request `generateBusinessEmail` sends. */
  function EmailRequest(params: GenerationParams): (req: Request)
    ensures req.model == ModelName && req.role == UserRole && req.tools == [GoogleSearch]
    ensures req.parts == RequestParts(BuildPrompt(params), params.documentContent)
  {
    Request(ModelName, UserRole, RequestParts(BuildPrompt(params), params.documentContent), [GoogleSearch])
  }

  /** The response has a first candidate whose grounding metadata carries
      a chunk list. */
  predicate HasGroundingChunks(response: GenerateContentResponse) {
    && response.candidates.Some?
    && |response.candidates.value| > 0
    && response.candidates.value[0].groundingMetadata.Some?
    && response.candidates.value[0].groundingMetadata.value.groundingChunks.Some?
  }

  /** `response.candidates?.[0]?.groundingMetadata?.groundingChunks || []`:
      the first candidate's chunk list, or no chunks when any link of the
      optional chain is missing. */
  function GroundingChunksOf(response: GenerateContentResponse): (chunks: seq<GroundingChunk>)
    ensures !HasGroundingChunks(response) ==> chunks == []
    ensures HasGroundingChunks(response) ==>
      chunks == response.candidates.value[0].groundingMetadata.value.groundingChunks.value
  {
    match response.candidates
    case None => []
    case Some(candidates) =>
      if |candidates| == 0 then []
      else match candidates[0].groundingMetadata
        case None => []
        case Some(metadata) => match metadata.groundingChunks
          case None => []
          case Some(chunks) => chunks
  }

  /** `title || 'Untitled Source'`. */
  function TitleOrDefault(title: Option<string>): (t: string)
    ensures t != []
    ensures IsTruthy(title) ==> t == title.value
    ensures !IsTruthy(title) ==> t == UntitledSource
  {
    if IsTruthy(title) then title.value else UntitledSource
  }

  /** The `map` callback: a source for a chunk with a web reference, `null`
      otherwise. */
  function ToSource(chunk: GroundingChunk): Option<Source> {
    match chunk.web
    case None => None
    case Some(web) => Some(Source(OrEmpty(web.uri), TitleOrDefault(web.title)))
  }

  /** The `filter` predicate, once `null` is excluded. */
  predicate HasUri(s: Source) {
    s.uri != []
  }

  /** The sources of a response: `map` to `Source | null`, then `filter`. */
  function ShapeSources(chunks: seq<GroundingChunk>): seq<Source> {
    Keep(Map(chunks, ToSource), HasUri)
  }

  /** What one chunk contributes: a source exactly when it has a web
      reference with a non-empty URI, titled by the chunk or by default. */
  function ChunkSource(chunk: GroundingChunk): (s: Option<Source>)
    ensures s.Some? <==> chunk.web.Some? && IsTruthy(chunk.web.value.uri)
    ensures s.Some? ==> s.value.uri == chunk.web.value.uri.value
    ensures s.Some? && IsTruthy(chunk.web.value.title) ==> s.value.title == chunk.web.value.title.value
    ensures s.Some? && !IsTruthy(chunk.web.value.title) ==> s.value.title == UntitledSource
  {
    var s := ToSource(chunk);
    if s.Some? && HasUri(s.value) then s else None
  }

  /** The sources keep chunk order, one per chunk with a web reference and
      a non-empty URI and none for any other chunk; every source has a
      non-empty URI and title. */
  lemma ShapeSourcesCorrect(chunks: seq<GroundingChunk>)
    ensures ShapeSources(chunks) == FilterMap(chunks, ChunkSource)
    ensures |ShapeSources(chunks)| == CountSome(chunks, ChunkSource) <= |chunks|
    ensures forall i :: 0 <= i < |chunks| && ChunkSource(chunks[i]).Some? ==>
      CountSome(chunks[..i], ChunkSource) < |ShapeSources(chunks)| &&
      ShapeSources(chunks)[CountSome(chunks[..i], ChunkSource)] == ChunkSource(chunks[i]).value
    ensures forall k :: 0 <= k < |ShapeSources(chunks)| ==>
      ShapeSources(chunks)[k].uri != [] && ShapeSources(chunks)[k].title != []
  {
    MapKeepFusion(chunks, ToSource, HasUri, ChunkSource);
    FilterMapLength(chunks, ChunkSource);
    forall i | 0 <= i < |chunks| && ChunkSource(chunks[i]).Some?
      ensures CountSome(chunks[..i], ChunkSource) < |ShapeSources(chunks)|
      ensures ShapeSources(chunks)[CountSome(chunks[..i], ChunkSource)] == ChunkSource(chunks[i]).value
    {
      FilterMapAt(chunks, ChunkSource, i);
    }
    FilterMapAll(chunks, ChunkSource, (s: Source) => s.uri != [] && s.title != []);
  }

  /** A chunk with an empty URI and a chunk without a web reference are
      dropped; a missing title becomes the default. */
  lemma ShapeSourcesExample()
    ensures ShapeSources([
      GroundingChunk(Some(WebChunk(Some(""), Some("X")))),
      GroundingChunk(Some(WebChunk(Some("http://a"), None))),
      GroundingChunk(None)])
      == [Source("http://a", UntitledSource)]
  {
    var chunks := [
      GroundingChunk(Some(WebChunk(Some(""), Some("X")))),
      GroundingChunk(Some(WebChunk(Some("http://a"), None))),
      GroundingChunk(None)];
    ShapeSourcesCorrect(chunks);
    assert chunks[1..][1..][1..] == [];
  }

  /** `generateBusinessEmail`: a failed call is the fixed error; otherwise
      the response text, passed through, and its shaped sources. */
  method GenerateBusinessEmail(params: GenerationParams, model: Request -> Reply) returns (r: Result<GenerationResult, string>)
    ensures r.Failure? <==> model(EmailRequest(params)).CallFailed?
    ensures r.Failure? ==> r.error == EmailFailureMessage
    ensures r.Success? ==>
      var response := model(EmailRequest(params)).response;
      r.value == GenerationResult(response.text, ShapeSources(GroundingChunksOf(response)))
    ensures r.Success? ==> forall k :: 0 <= k < |r.value.sources| ==> r.value.sources[k].uri != []
    ensures r.Success? && !HasGroundingChunks(model(EmailRequest(params)).response) ==> r.value.sources == []
  {
    var prompt := BuildPrompt(params);
    var parts := ContentParts(prompt, params.documentContent);
    var request := Request(ModelName, UserRole, parts, [GoogleSearch]);
    var reply := model(request);
    match reply {
      case CallFailed =>
        r := Failure(EmailFailureMessage);
      case Replied(response) =>
        var chunks := GroundingChunksOf(response);
        ShapeSourcesCorrect(chunks);
        r := Success(GenerationResult(response.text, ShapeSources(chunks)));
    }
  }
}

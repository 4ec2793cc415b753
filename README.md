# New Business Assistant: generation service logic in Dafny

The New Business Assistant is a browser tool that helps a salesperson draft
prospecting emails. All of its decision logic sits in the generation
service. That logic does three things:

- It parses the model's bulleted reply into a list of "approaches", the
  angles an email could take.
- It builds the email prompt from one of two templates.
- It shapes the model's response into a text and a list of cited sources.

This project models that logic and proves what it guarantees. The hosted
model is a parameter `model: Request -> Reply`. Because the model is a
parameter, a contract can say both what request is sent and what is done
with any reply.

Modules:

- `Wrappers` (`wrappers.dfy`): `Option` for a TypeScript value that may be
  `undefined` or `null`. `Result` for a promise that resolves or rejects
  with a message.
- `JsString` (`jsstring.dfy`): the JavaScript string operations the service
  uses. These are `trim` (with ECMAScript's whitespace and line-terminator
  set), `split` on one character, `startsWith` and `substring`. It also
  defines the infix and prefix predicates that state what a prompt
  contains, and `Concat`, which joins a template's pieces in order.
- `Seqs` (`seqs.dfy`): `Array.prototype.map` and `filter`, and a one-pass
  `FilterMap` that serves as their reference. A `map`/`filter` chain is
  proved equal to one `FilterMap`. Order and multiplicity are then proved
  once, for `FilterMap`.
- `Types` (`types.dfy`): the record shapes of `types.ts` (`Source`,
  `DocumentState`, `GenerationResult`), the fields `buildPrompt` reads, and the slice of the
  SDK's request and response that the service touches.
- `GeminiService` (`gemini_service.dfy`): `findApproaches`, `buildPrompt`
  and `generateBusinessEmail`.

Choices made in the model:

- "Truthy" means a non-empty string or a present object.
- `selectedApproach` is `Option<string>`. The caller passes
  `selectedApproach || undefined` (`App.tsx:155`), and `buildPrompt` reads
  the field (`services/geminiService.ts:65`), but the `GenerationParams`
  declaration in `types.ts` has no such field.
- A bullet loses its hyphen and then all whitespace that follows it, not just one space, because the code calls `trim` after `substring(1)`; `ParseApproachesCorrect` proves exactly that.
- The templates are copied character for character, indentation and line
  breaks included. Each template is a list of fixed pieces and spliced
  values.

## Model

| member | source | states |
|---|---|---|
| `JsString.IsWhitespace` | services/geminiService.ts:52 | holds exactly for the ECMAScript WhiteSpace and LineTerminator code points, the set `trim` removes |
| `JsString.LeadingWhitespace` | services/geminiService.ts:52 | counts exactly the whitespace run at the start: every counted character is whitespace, and the next one, if any, is not |
| `JsString.TrailingWhitespace` | services/geminiService.ts:52 | counts exactly the whitespace run at the end: every counted character is whitespace, and the one before it, if any, is not |
| `JsString.TrimStart` | services/geminiService.ts:52 | the result, `s` without its leading whitespace run, does not begin with whitespace |
| `JsString.TrimEnd` | services/geminiService.ts:52 | the result, `s` without its trailing whitespace run, does not end with whitespace |
| `JsString.Trim` | services/geminiService.ts:52 | the result has no whitespace at either end and is no longer than the input |
| `JsString.TrimFrame` | services/geminiService.ts:52 | character by character, the input is its leading whitespace, then the trimmed text, then only whitespace |
| `JsString.TrimEmptyIffBlank` | services/geminiService.ts:20 | `!s.trim()` holds exactly when every character of `s` is whitespace, the empty string included |
| `JsString.TrimUnique` | services/geminiService.ts:52 | whatever whitespace surrounds a trimmed non-empty core, trimming yields exactly that core |
| `JsString.Split` | services/geminiService.ts:51 | at least one piece; no piece contains the separator; joining the pieces with the separator gives back the input |
| `JsString.Join` | services/geminiService.ts:51 | joins pieces with the separator between them; it is the inverse that `Split` and `SplitJoin` are stated against |
| `JsString.SplitSingle` | services/geminiService.ts:51 | a text without a line break splits into itself alone |
| `JsString.SplitJoin` | services/geminiService.ts:51 | splitting a join of separator-free pieces gives back those pieces, the converse round trip |
| `JsString.StartsWith` | services/geminiService.ts:53 | `s.startsWith(prefix)`: `prefix` is no longer than `s` and equals its first `\|prefix\|` characters |
| `JsString.Substring` | services/geminiService.ts:54 | `substring(n)` is what remains after the first `n` characters, or empty past the end |
| `JsString.ConcatAt` | services/geminiService.ts:71-123 | each template piece occurs at its offset in the joined prompt, in order and without overlap |
| `Seqs.Map` | services/geminiService.ts:52 | same length; element `i` is `f` of input element `i` |
| `Seqs.Filter` | services/geminiService.ts:53 | no longer than the input; every kept element passes the predicate and comes from the input |
| `Seqs.Keep` | services/geminiService.ts:164 | keeps only present values that pass the predicate, unwrapped, each from the input |
| `Seqs.MapFilterMapFusion` | services/geminiService.ts:50-54 | `map` then `filter` then `map` equals a single filter-map pass |
| `Seqs.MapKeepFusion` | services/geminiService.ts:154-164 | `map` to a nullable value, then a type-guarded `filter`, equals a single filter-map pass |
| `Seqs.FilterMapLength` | services/geminiService.ts:50-54 | the output length is the number of contributing inputs, never more than the input length |
| `Seqs.FilterMapAt` | services/geminiService.ts:50-54 | a contributing input's value sits at the position given by the number of earlier contributors |
| `Seqs.CountSomeMonotone` | services/geminiService.ts:50-54 | a later contributing input lands at a later output position, so outputs keep input order |
| `Seqs.FilterMapFrom` | services/geminiService.ts:50-54 | every output element is the value of some input, at the position `FilterMapAt` gives it |
| `GeminiService.OrEmpty` | services/geminiService.ts:158 | `s \|\| ''` is non-empty exactly when `s` is present and non-empty, and then equals it |
| `GeminiService.ApproachPrompt` | services/geminiService.ts:24-32 | the prompt quotes the client description and the tone verbatim |
| `GeminiService.ApproachRequest` | services/geminiService.ts:36-42 | the request uses `gemini-2.5-flash`, the `user` role and web search, with the approach prompt as its only part |
| `GeminiService.IsBullet` | services/geminiService.ts:53 | a trimmed line is a bullet exactly when it starts with `-` |
| `GeminiService.DropHyphen` | services/geminiService.ts:54 | `line.substring(1).trim()`: the first character dropped, then the rest trimmed |
| `GeminiService.ApproachOfLine` | services/geminiService.ts:52-54 | a line contributes exactly when its trimmed form starts with `-`; it then contributes `trim(trim(line)[1..])`, which is trimmed |
| `GeminiService.ParseApproaches` | services/geminiService.ts:50-54 | the `split`/`map(trim)`/`filter(startsWith)`/`map(substring(1).trim())` chain as written; never more approaches than lines, every approach trimmed; its exact content is `ParseApproachesCorrect` |
| `GeminiService.ParseApproachesCorrect` | services/geminiService.ts:50-54 | the parser is one pass over the reply's lines: one approach per bullet line, in line order; never more approaches than lines; every approach trimmed |
| `GeminiService.ParseApproachesOrigin` | services/geminiService.ts:50-54 | every approach comes from a bullet line of the reply, at that line's rank among bullet lines |
| `GeminiService.ParseEmptyReply` | services/geminiService.ts:45-47 | an empty reply parses to no approaches, so the `!text` guard agrees with the parser |
| `GeminiService.ParseDoubleHyphen` | services/geminiService.ts:50-54 | only one hyphen is removed: for a trimmed `rest` with no line break, the one-line reply `"--" + rest` gives `["-" + rest]`, so `"--x"` gives `["-x"]` |
| `GeminiService.DoubleHyphenLine` | services/geminiService.ts:52-54 | for a trimmed `rest`, the line `"--" + rest` contributes the approach `"-" + rest` |
| `GeminiService.ParseSkipsNonBullets` | services/geminiService.ts:50-54 | a reply of the form `"- X\n- Y\n" + note + "\n- Z"` gives `["X", "Y", "Z"]` for any one-line note that is not a bullet once trimmed: bullets kept in order, the note dropped |
| `GeminiService.FindApproaches` | services/geminiService.ts:19-61 | a blank client description gives `[]` whatever the model would answer; otherwise a failed call gives the fixed error, a reply is parsed, and a missing or empty reply text gives `[]`; all approaches trimmed |
| `GeminiService.IsTruthy` | services/geminiService.ts:67 | JavaScript truthiness of an optional string: present and non-empty |
| `GeminiService.ApproachMessage` | services/geminiService.ts:67 | starts with the "You MUST incorporate" directive exactly when an angle is selected, and then quotes it; otherwise it is the "Use your expertise" sentence |
| `GeminiService.DocumentContextMessage` | services/geminiService.ts:66 | starts "An external document named" exactly when a document is attached, and then names it in quotes; otherwise "No document context provided." |
| `GeminiService.ThreadPieces` | services/geminiService.ts:71-99 | the thread template's literal pieces and spliced values, in order |
| `GeminiService.FallbackPieces` | services/geminiService.ts:103-123 | the fallback template's literal pieces and spliced values, in order |
| `GeminiService.PromptPieces` | services/geminiService.ts:64-124 | the thread template when `emailContext` is truthy, the fallback otherwise, with both derived sentences spliced in |
| `GeminiService.BuildPrompt` | services/geminiService.ts:64-124 | `buildPrompt`: the chosen template's pieces joined in order; what it contains is stated by `BuildPromptMode`, `BuildPromptEmbedsThread`, `BuildPromptNotesNoThread` and `BuildPromptFields` |
| `GeminiService.BuildPromptMode` | services/geminiService.ts:70-124 | the prompt opens with the thread template exactly when `emailContext` is non-empty (whitespace-only included), and with the fallback exactly when it is empty |
| `GeminiService.BuildPromptEmbedsThread` | services/geminiService.ts:80-83 | with a thread, the prompt contains the thread verbatim between `---` fences |
| `GeminiService.BuildPromptNotesNoThread` | services/geminiService.ts:106 | without a thread, the prompt contains "No email thread was pasted." |
| `GeminiService.BuildPromptFields` | services/geminiService.ts:64-124 | either template contains the client description, the tone, the approach message and the document message verbatim |
| `GeminiService.ThreadFields` | services/geminiService.ts:71-99 | the thread template contains its four spliced values |
| `GeminiService.FallbackFields` | services/geminiService.ts:103-123 | the fallback template contains its four spliced values |
| `GeminiService.RequestParts` | services/geminiService.ts:132-141 | the first part is the prompt text; there is a second part, holding the document's MIME type and data, exactly when a document is attached |
| `GeminiService.ContentParts` | services/geminiService.ts:132-141 | building the parts by pushing yields exactly `RequestParts` |
| `GeminiService.EmailRequest` | services/geminiService.ts:143-149 | the request uses `gemini-2.5-flash`, the `user` role and web search, with the prompt and optional document as parts |
| `GeminiService.HasGroundingChunks` | services/geminiService.ts:153 | every link of `candidates?.[0]?.groundingMetadata?.groundingChunks` is present |
| `GeminiService.GroundingChunksOf` | services/geminiService.ts:153 | the first candidate's chunk list when the whole optional chain is present, and `[]` when candidates are absent or empty, or the first candidate lacks metadata or chunks |
| `GeminiService.TitleOrDefault` | services/geminiService.ts:159 | always non-empty; the title when it is present and non-empty, otherwise "Untitled Source" |
| `GeminiService.ToSource` | services/geminiService.ts:155-163 | the `map` callback: a source for a chunk with `web`, its URI or `''` and its title or the default; `null` otherwise; specified per chunk by `ChunkSource` |
| `GeminiService.HasUri` | services/geminiService.ts:164 | the `filter` guard once `null` is excluded: the URI is not `''` |
| `GeminiService.ChunkSource` | services/geminiService.ts:155-164 | a chunk yields a source exactly when it has a web reference with a non-empty URI; the source keeps that URI and the chunk's title, or "Untitled Source" |
| `GeminiService.ShapeSources` | services/geminiService.ts:154-164 | the `map`-then-`filter` chain as written; its exact content is `ShapeSourcesCorrect` |
| `GeminiService.ShapeSourcesCorrect` | services/geminiService.ts:153-164 | the sources are one pass over the chunks: chunk order kept; one source per web chunk with a URI; nothing from other chunks; every URI and title non-empty |
| `GeminiService.ShapeSourcesExample` | services/geminiService.ts:154-164 | an empty-URI chunk and a chunk without `web` are dropped, and a missing title becomes "Untitled Source" |
| `GeminiService.GenerateBusinessEmail` | services/geminiService.ts:127-170 | fails with the fixed message exactly when the call fails; otherwise returns the response text unchanged and the shaped grounding sources, all with non-empty URIs, and no sources when the grounding chain is missing |

## Left out

- The lazily created SDK client and its `API_KEY` check (`services/geminiService.ts:4-15`) are left out: they are module state around a foreign SDK. A missing key makes the call reject, so it is one of the causes of `CallFailed`.
- The model call itself (inference and web search) is a foreign network service. It is the `model` parameter.
- `console.error` logging is a side effect only. The wrapping of any rejection into a fixed message is modelled; the original error value is not kept.
- Asynchrony is not modelled. Each operation is modelled at the point its promise settles.
- The React components, the FileReader base64 upload and the `localStorage` session are left out. They are UI and browser I/O, not service logic.
- `GenerationParams` fields that `buildPrompt` does not read are left out: sender and recipient details, knowledge base, previous email, refinement instructions, case studies, `selectedMarketingApproach` and `selectedCompanyNews` (`types.ts:36-37`). No code in the service reads them.
- Strings are sequences of Unicode scalar values, not JavaScript's UTF-16 code units, so a lone surrogate cannot be represented. No result of this code depends on the difference: it splits on `'\n'`, trims whitespace that lies in the Basic Multilingual Plane, and drops one leading `-`.
- Refinement mode, case-study JSON extraction, two-section bullet lists, knowledge-base fetching and sender/recipient prompt blocks are not in this code. They are not modelled.
- GeminiService.GenerateBusinessEmail: the response text is passed through as `Option<string>`, with no default to an empty string. The code returns `response.text` unchanged, even though the declared result type says `string`; it does not substitute an empty string.
- GeminiService.ParseSkipsNonBullets: proved for every reply of that shape whose three items are single non-whitespace characters and whose note is any one-line text that is not a bullet once trimmed. The literal `"- X\n- Y\nnotes\n- Z"` is one such reply.
- GeminiService.BuildPromptMode: the fallback cannot be said to "not contain" the thread. It is used only when the thread is the empty string, which every string contains. The modes are told apart by the prompt's distinct opening instead.
- JsString.TrimStart: its own contract says only that the result does not begin with whitespace. That exactly the leading whitespace run is dropped is stated by `LeadingWhitespace`, and for `trim` by `TrimFrame`.
- JsString.TrimEnd: its own contract says only that the result does not end with whitespace. That exactly the trailing whitespace run is dropped is stated by `TrailingWhitespace`, and for `trim` by `TrimFrame`.

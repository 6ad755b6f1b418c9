# SuperNum tutor: a verified model of the chat page core

SuperNum is a browser page where a student chats with a math tutor backed by a
generative-AI chat service. The student types or dictates a question, can attach an
image, and gets a streamed answer. The answer may embed a directive
`[GENERATE_IMAGE: prompt]` that makes the page ask an image model for an illustration.
Answers can also be read aloud. This project models the sequential core of
`index.tsx` in Dafny:

- **`Directive`** (`directive.dfy`). The two regular expressions around the image
  directive, as left-to-right scans with ECMA-262 semantics:
  - the global strip, which deletes every directive from the text that is shown and spoken;
  - the first-match capture of the prompt;
  - `String.prototype.trim`.
- **`DataUrl`** (`data_url.dfy`). The comma split of a FileReader data URL, and the
  payload that `toBase64` keeps.
- **`Voices`** (`voices.dfy`). The `loadVoices` locale tiers and the utterance
  language fallback of `speak`.
- **`Recognition`** (`recognition.dfy`). The `onresult` loop that builds the dictated
  transcript.
- **`Turns`** (`turns.dfy`). The chat history as values:
  - a `Turn` per message;
  - an `Event` per DOM or remote operation, with `Replay`, which rebuilds the history
    from the events;
  - for one submission of the chat form, the events it performs in order
    (`SubmitEvents`) and the turns it leaves (`SubmitTurns`).
- **`TurnProperties`** (`turn_properties.dfy`). The lemmas relating those events to
  those turns, and the ordering guarantees of a submission.
- **`Tutor`** (`tutor.dfy`). A class holding the page's mutable state:
  - the chat session, the speech support flags, `isListening` and the chosen voice;
  - the input text, the five control-disabled flags, the attachment slot and its
    preview;
  - the log of operations performed.

  Its methods are the event handlers (submit, `handleStream`,
  `processResponseForImages`, `handleFileSelect`, `removeAttachedFile`, the mic
  toggle, the recognition callbacks, `speak`). Each is proved to append exactly the
  events that the `Turns` functions specify. The chat history on screen is
  `History() == Replay([], log)`.

The remote services are inputs:
- a `Reply`: `sendMessageStream` throws, or it yields a list of chunks and then
  either ends or throws;
- an image-generation outcome: `Some(bytes)` or a failure.

## Model

| member | source | states |
|---|---|---|
| Directive.Trim | index.tsx:465 | `trim` removes only WhiteSpace/LineTerminator characters, from both ends, and leaves none at either end of the result |
| Directive.TrimIdempotent | index.tsx:332 | trimming a trimmed string changes nothing |
| Directive.TrimEmptyIff | index.tsx:465-467 | the trimmed input is empty exactly when every character is whitespace or a line terminator (the empty-input guard) |
| Directive.CloseFromNearest | index.tsx:332 | the lazy `.*?\]` ends at the nearest `]` reachable without a line terminator, and fails exactly when there is none |
| Directive.OpensAtIff | index.tsx:332 | the incremental prefix test agrees with a literal `[GENERATE_IMAGE:` at that position |
| Directive.MatchAt | index.tsx:332 | a match starts with `[GENERATE_IMAGE:` and ends just after a `]` |
| Directive.FirstFromIsFirst | index.tsx:359 | the match found is the leftmost one; when none is found, no position matches |
| Directive.CaptureNoneIff | index.tsx:359-360 | `Capture` (the first-match `match`) finds nothing exactly when no position of the text starts a directive |
| Directive.CaptureBody | index.tsx:359 | a captured prompt contains no `]` and no line terminator |
| Directive.StripWithoutDirective | index.tsx:332 | with no match left, the global replace keeps the rest of the text |
| Directive.StripAtFirst | index.tsx:332 | `Strip` (the global replace, scanned by `StripFrom`) keeps the text before the leftmost match, deletes the match and resumes right after it, so matches do not overlap |
| Directive.StripNoLonger | index.tsx:332 | stripping never lengthens the text |
| Directive.Shown | index.tsx:508 | the text shown and spoken (`Strip` then `trim`) is never longer than the reply, and neither starts nor ends with white space |
| Directive.StripUnchangedIff | index.tsx:332 | the strip changes the text exactly when it holds a directive |
| Directive.ShownWithoutDirective | index.tsx:332 | text without a directive is only trimmed |
| Directive.StripOneDirective | index.tsx:332 | one directive between two stretches of text without `[` is deleted and its two sides joined |
| Directive.StripAfterBracket | index.tsx:332 | a directive after a `[` that does not itself open a match is deleted, and the `[` kept |
| Directive.CaptureOneDirective | index.tsx:359-361 | the prompt of the first directive is its body, whatever follows |
| Directive.ExampleReply | index.tsx:508 | `Aquí tienes: [GENERATE_IMAGE: pie chart half shaded] ¿Listo?` is shown and spoken as `Aquí tienes:  ¿Listo?`, with both spaces around the directive kept |
| Directive.ExamplePrompt | index.tsx:359 | the prompt captured from that reply is ` pie chart half shaded`, the text after the colon |
| Directive.StripSplice | index.tsx:332 | `[GENERATE_[GENERATE_IMAGE:z]IMAGE:a]` strips to `[GENERATE_IMAGE:a]` |
| Directive.StripNotIdempotent | index.tsx:332 | the strip is not idempotent: a second strip of that result deletes the spliced directive |
| DataUrl.Split | index.tsx:157 | `split(',')` yields at least one field, and no field contains the separator |
| DataUrl.JoinSplit | index.tsx:157 | rejoining the fields with the separator gives back the original string |
| DataUrl.SplitJoin | index.tsx:157 | splitting separator-free fields joined by the separator gives back the fields |
| DataUrl.PayloadOfDataUrl | index.tsx:157 | `Payload` (the field `[1]` of the split): for `header,data` with no other comma, `toBase64` yields `data` |
| DataUrl.PayloadMissingIff | index.tsx:157 | `[1]` is `undefined` exactly when the data URL has no comma |
| Voices.FindLang | index.tsx:127-129 | `find` by exact lang returns the first voice with that lang, or none when no voice has it |
| Voices.FindSpanish | index.tsx:130 | `find` by `startsWith('es-')` returns the first voice whose lang starts `es-`, or none |
| Voices.ChooseVoice | index.tsx:127-131 | the chosen voice is one of the available voices |
| Voices.ChooseIndexBest | index.tsx:127-131 | the choice `ChooseIndex` makes is in the best tier present (es-ES, then es-US, then es-MX, then any es-), is the first voice of that tier, and is null exactly when no voice is Spanish |
| Voices.SpokenInSpanish | index.tsx:145 | the utterance language `UtteranceLang`, the chosen voice's lang or the `es-ES` fallback, always starts `es-` |
| Recognition.Transcript | index.tsx:217-227 | the input becomes the final transcripts from `resultIndex` on, in order, followed by the interim ones |
| Recognition.TranscriptsAppend | index.tsx:220-226 | the final and interim transcripts of a longer result list extend those of its prefix |
| Recognition.TranscriptsLength | index.tsx:220-226 | the final and interim strings (`Finals`, `Interims`) together are exactly as long as all the transcripts |
| Recognition.TranscriptPlaced | index.tsx:220-226 | a result's transcript lands in the string its `isFinal` selects, between the transcripts of the results before and after it, and adds nothing to the other string |
| TurnProperties.ConcatAppend | index.tsx:329-331 | the response accumulated by `fullResponse += chunk.text` (`Concat`) over a longer stream extends the one over its prefix |
| TurnProperties.SubmitGuard | index.tsx:465-467 | the guard `Admits` lets a submission through exactly when a chat session exists and either a file is staged or the input holds a character that `trim` keeps |
| TurnProperties.ReplayAppend | index.tsx:463-540 | `Replay` applies the operations one by one (`Apply`): the history after two runs of operations is the second replayed on the result of the first |
| TurnProperties.ReplayInert | index.tsx:469-487 | operations that touch no message (lock, URL, clear, focus, remote calls) leave the history unchanged |
| TurnProperties.RendersAt | index.tsx:331-333 | after chunk k, the shown text is the stripped and trimmed concatenation of chunks 0..k |
| TurnProperties.RendersLast | index.tsx:331-333 | the last render shows the stripped and trimmed full response, which is empty when no chunk arrived |
| TurnProperties.StreamOpens | index.tsx:499-504 | the thinking turn is removed before any chunk is read, and the new model turn ends up holding the last shown text |
| TurnProperties.StreamingFailed | index.tsx:499-528 | a stream that throws leaves its partial model turn followed by exactly one apology, and no thinking turn |
| TurnProperties.StreamingAnswered | index.tsx:499-521 | a stream that ends leaves one model turn with the shown text, the image block and the read-aloud text |
| TurnProperties.CaughtReplay | index.tsx:489-528 | when part assembly or `sendMessageStream` throws, the thinking turn is replaced by the apology |
| TurnProperties.ImagePromptOfDirective | index.tsx:359-361 | `ImagePrompt` gives nothing when the first directive's body is empty, and otherwise the body trimmed; a body of white space alone still asks for an image, with an empty prompt |
| TurnProperties.FinalBlockShowsImage | index.tsx:350-373 | the final block (`FinalBlock`) is a picture exactly when generation succeeded, with source `data:image/jpeg;base64,` followed by the returned bytes and text `Ayuda visual para: ` followed by the prompt; otherwise it is the error block |
| TurnProperties.ImageReplay | index.tsx:358-374 | no block without a prompt; otherwise the turn ends holding a picture exactly when generation returned a non-empty URL, and an error block when it did not |
| TurnProperties.SpeakReplay | index.tsx:508-521 | a read-aloud control is added only when the spoken text is non-empty, and it reads that text |
| TurnProperties.AnswerReplay | index.tsx:506-521 | image processing and the read-aloud step turn the streamed model turn into the answered turn: its image block from the prompt, and a read-aloud control reading its shown text when that is non-empty |
| TurnProperties.SubmitReplay | index.tsx:463-540 | every admitted submission leaves the turns `SubmitTurns` lists: the history before it, then the student's turn, then the outcome, with the thinking turn gone |
| TurnProperties.OutcomeShape | index.tsx:489-528 | the outcome (`Outcome`) is one or two model turns; the last is the apology exactly when the submission fails; there are two exactly when a stream broke off part way |
| TurnProperties.PartsShape | index.tsx:490-497 | the parts `BuildParts` assembles are the image (only if a file is staged, always first, carrying the payload and the file's type), then the text (only if non-empty); assembly throws only when the file cannot be read |
| TurnProperties.InlineCarriesPayload | index.tsx:162-169 | the image part (`FilePart`) of a file read as `header,data` carries `data` and the file's type |
| TurnProperties.SubmitLockBrackets | index.tsx:473-539 | the controls are locked once, before every remote call, and unlocked once, after every remote call, on every path; only the focus and, for a staged file, the revoke of its object URL follow |
| TurnProperties.SubmitKeepsSpeakers | index.tsx:514-517 | after a submission, every read-aloud control still reads the text its turn shows |
| Tutor.Initialize | index.tsx:267-285 | as written, the page starts with a greeting exactly when speech synthesis exists, and has a session (or a recognizer) only when speech synthesis exists and the session (or recognizer) was created, because `loadVoices` throws first without it |
| Tutor.InitializeGuarded | index.tsx:267-285 | with `loadVoices` skipped when there is no speech synthesis, the session, the recognizer, the mic flag and the greeting follow from chat and recognition support alone; a voice is chosen only with synthesis, from the voices offered |
| Tutor.StartWithoutSynthesis | index.tsx:124-135 | with recognition but no synthesis, the page as written has no session, no recognizer and no greeting, while the guarded start greets the student |
| Tutor.GuardedStartDegrades | index.tsx:267-285 | the guarded start equals the start as written when synthesis exists, and is that same start with no voice when it does not |
| Tutor.Tutor.constructor | index.tsx:267-285 | as written: without speech synthesis, no session, no recognizer, no voice, all controls enabled and an empty history; otherwise the welcome message, or the start-failure message when no chat session was created, the mic disabled without recognition, and the voice from `loadVoices` |
| Tutor.Tutor.Guarded | index.tsx:267-285 | the intended start: the session, recognizer, mic flag and greeting as with speech synthesis, whether or not it exists; a voice only with synthesis |
| Tutor.Tutor.VoicesChanged | index.tsx:125-135 | `onvoiceschanged` sets the voice to the tiered choice |
| Tutor.Tutor.Speak | index.tsx:138-151 | with synthesis, the utterance has the text, the chosen voice and the lang fallback; without it, only an alert; the history is unchanged |
| Tutor.Tutor.ReadAloud | index.tsx:514-517 | with synthesis, the read-aloud control of turn i speaks the text bound to it, with the chosen voice and language; without it, only the alert is logged; the history is unchanged |
| Tutor.Tutor.HandleFileSelect | index.tsx:378-392 | only an `image/` file is staged; a null or non-image file empties the slot (with an alert for a non-image file) and leaves the preview untouched; the preview shows once the read succeeds |
| Tutor.Tutor.RemoveAttachedFile | index.tsx:394-400 | the slot is empty, the preview hidden with no source, and the placeholder reset, whatever the state before, so a second call leaves them the same |
| Tutor.Tutor.RecognitionResult | index.tsx:217-228 | the input becomes the assembled transcript |
| Tutor.Tutor.RecognitionEnded | index.tsx:230-239 | `onend` and `onerror` set listening to false |
| Tutor.Tutor.MicClick | index.tsx:247-263 | nothing without a recognizer; stop (still listening) when listening; otherwise start and listen, unless start throws |
| Tutor.Tutor.HandleStream | index.tsx:325-337 | returns the in-order concatenation of the chunks, after re-rendering once per chunk; returns `''` without reading when there is no text area |
| Tutor.Tutor.ProcessResponseForImages | index.tsx:358-374 | performs the loading block, the request with the trimmed first prompt, and the final block, or nothing without a prompt |
| Tutor.Tutor.Submit | index.tsx:463-540 | a submission with nothing to send, or without a session, changes nothing; otherwise it performs exactly the steps of a submission and ends with the input empty, the controls enabled and the slot empty; the session, speech flags, voice and utterance are never touched |
| Tutor.Tutor.Run | index.tsx:469-539 | an admitted submission performs the opening, the exchange and the `finally` steps, in order, and changes only the input, controls, slot, preview, URL counter and log |
| Tutor.Tutor.Finish | index.tsx:489-539 | the `try`/`catch` steps and then the `finally` steps, with the controls enabled at the end |
| Tutor.Tutor.Prepare | index.tsx:469-487 | before the `try`: the preamble, the student's turn with its upload, the attachment cleared, then the thinking turn |
| Tutor.Tutor.Lock | index.tsx:469-481 | recognition stopped if listening, the input cleared and all five controls disabled, and the object URL created only for a staged file |
| Tutor.Tutor.Attempt | index.tsx:489-528 | the `try` and `catch` blocks perform the exchange of the reply |
| Tutor.Tutor.AssembleParts | index.tsx:490-497 | the part list built step by step is the image-then-text list |
| Tutor.Tutor.Catch | index.tsx:523-528 | the thinking turn is removed only if still present, then exactly one apology is shown |
| Tutor.Tutor.Respond | index.tsx:499-528 | a reply that streams: placeholder removed, empty model turn, one render per chunk, then the answer or the apology |
| Tutor.Tutor.Answer | index.tsx:505-521 | image processing of the full text, then the read-aloud control only for non-empty spoken text |
| Tutor.Tutor.Release | index.tsx:529-539 | the `finally` block re-enables all five controls, focuses the input and revokes the object URL if one was made |
| Tutor.SubmitHistory | index.tsx:463-540 | whatever was logged before, a submission appends exactly its turns to the history on screen, and keeps every read-aloud control reading its own turn's text |

## Left out

- DOM construction, CSS classes (including the mic's `listening` class), `innerHTML`, scrolling and focus handling. Focus is only logged as an event. The history holds the text handed to `marked.parse`, which is a foreign Markdown library.
- The chat and image services (`GoogleGenAI`, model names, configuration, the system instruction). They are inputs: a `Reply` and an optional byte string. The prompt template of `generateImage` (index.tsx:343) is not modelled: the image request records the trimmed directive prompt that the template wraps.
- FileReader's base64 encoding. The file carries its data URL, or none when the read fails. `URL.createObjectURL`/`revokeObjectURL` are an opaque counter that is created and revoked.
- `fileInput.value = ''` in `removeAttachedFile` (index.tsx:396): a DOM reset that lets the same file fire `change` again. The model lets `handleFileSelect` be called at any time.
- The camera modal, `getUserMedia`, canvas capture and drag-and-drop wiring. A drop simply calls `handleFileSelect`.
- The permission modal and `localStorage` (index.tsx:172-206).
- The API-key-missing message (index.tsx:59-61), shown at load time before any session exists.
- The speech engines themselves. A started utterance is recorded as the `speaking` field; an `alert` is an event; `console` output is dropped.
- `async`/`await` interleaving and re-entrant submissions. A submission is one sequential method.
- Non-string `chunk.text`: every chunk is a string.
- A stream that fails part way is modelled as the chunks delivered before the failure, followed by the throw.
- The speaker button template lookups (index.tsx:510-515): the template and button are taken to exist.
- Tutor.Tutor.Submit: its contract states the operations performed and the final control state. The resulting chat history is stated separately, by `Tutor.SubmitHistory` applied to `old(log)`, rather than in the method's own contract.
- Tutor.Tutor.ReadAloud: the invariant that every read-aloud control reads its own turn's text is proved per submission (`TurnProperties.SubmitKeepsSpeakers`, `Tutor.SubmitHistory`), not carried by the class invariant `Valid`.

Where the behaviour could be read two ways, the model follows `index.tsx`:
- A null or non-image selection in `handleFileSelect` sets the attachment slot to null. It does not leave a previously staged image in place.
- The `finally` block of the submit handler re-enables all five controls. This includes a mic button that was disabled because speech recognition is unsupported.

## Findings

| source | as written | input that shows it | evidently intended | confidence | as-written member | corrected member |
|---|---|---|---|---|---|---|
| index.tsx:124-135 | `loadVoices`, called first in `initializeChat` (index.tsx:268), assigns `window.speechSynthesis.onvoiceschanged` without testing that `speechSynthesis` exists, so the call throws and the recognizer, the chat session and the greeting are never set up | a browser with speech recognition and no speech synthesis: `Initialize(true, false, true, [])` has no session and no greeting (`Tutor.StartWithoutSynthesis`) | skip `loadVoices` without speech synthesis, as `speak` does (index.tsx:139), so that the page still chats | high; not executed | Tutor.Initialize | Tutor.InitializeGuarded |

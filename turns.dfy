/**
 * The conversation turn pipeline as values: the chat history as a sequence of turns,
 * every DOM and remote operation of the page as an event, and, for one submission of
 * the chat form (index.tsx:463-540), the events it performs in order and the turns it
 * leaves in the history. The class in module Tutor performs these steps one by one
 * and is proved to produce exactly these values.
 */
module Turns {
  import opened Options
  import opened Strings
  import opened Directive
  import opened DataUrl
  import opened Voices

  /** Who a turn belongs to: the student, the tutor, or the transient "thinking" placeholder. */
  datatype Sender = User | Model | Thinking

  /** The block a model turn gets when its reply asks for an image (index.tsx:362-373). */
  datatype ImageBlock = NoBlock | Loading | Picture(src: string, alt: string) | Failed

  /**
   * One message of the chat history, holding the text handed to the Markdown renderer;
   * `upload` is the object URL of the image a student turn shows, `speaker` the text
   * bound to the read-aloud control of a model turn.
   */
  datatype Turn = Turn(sender: Sender, text: string, upload: Option<nat>, block: ImageBlock, speaker: Option<string>)

  /** A picked or captured file: its declared type and what FileReader yields (None: the read fails). */
  datatype File = File(mimeType: string, dataUrl: Option<string>)

  /** A message part sent to the chat service: inline image data (possibly `undefined`) or text. */
  datatype Part = Inline(data: Option<string>, mimeType: string) | TextPart(text: string)

  /**
   * What the chat service does with one message: `sendMessageStream` throws, or it
   * returns a stream that yields `chunks` and then ends, or throws if `fails`.
   * A stream that fails after n chunks is `Streamed(first n chunks, true)`.
   */
  datatype Reply = Refused | Streamed(chunks: seq<string>, fails: bool)

  /** A `SpeechSynthesisUtterance`: its text, voice and language. */
  datatype Utterance = Utterance(text: string, voice: Option<Voice>, lang: string)

  /** The observable operations of the page, in the order they happen. */
  datatype Event =
    | RecognitionStarted | RecognitionStopped
    | Locked                          // text entry cleared and the five controls disabled
    | Unlocked | InputFocused
    | UrlCreated(url: nat) | UrlRevoked(url: nat)
    | TurnShown(turn: Turn)           // a message appended to the chat history
    | ThinkingRemoved
    | Rendered(text: string)          // the newest model turn's text replaced
    | BlockSet(block: ImageBlock)     // the newest model turn's image block set
    | SpeakerAdded(text: string)      // a read-aloud control added to the newest model turn
    | MessageSent(parts: seq<Part>)
    | ImageRequested(prompt: string)  // `generateImage` called with the directive's prompt
    | AttachmentCleared
    | Alerted(message: string)

  const ThinkingText: string := "SuperNum está pensando..."
  const ApologyText: string := "¡Vaya! Algo salió mal y no pude procesar tu pregunta. ¿Podrías intentar preguntarme de otra manera?"
  const WelcomeText: string := "¡Hola! Soy Tu Tutor Amigo AI, llamado SuperNum y estoy listo para ayudarte con tus preguntas de matemática. 🤓 Para poder ayudarte mejor, por favor dime: ¿A qué grado perteneces? (Quinto, Sexto, Séptimo, Octavo o Noveno)?"
  const StartFailureText: string := "¡Uy! No pude iniciar nuestra conversación. Por favor, revisa la configuración y recarga la página."
  const NotAnImageText: string := "Por favor, selecciona solo archivos de imagen."
  const NoSynthesisText: string := "Lo siento, tu navegador no soporta la función de lectura en voz alta."
  const ImagePrefix: string := "data:image/jpeg;base64,"

  function UserTurn(text: string, upload: Option<nat>): Turn {
    Turn(User, text, upload, NoBlock, None)
  }

  function ModelTurn(text: string): Turn {
    Turn(Model, text, None, NoBlock, None)
  }

  const ThinkingTurn: Turn := Turn(Thinking, ThinkingText, None, NoBlock, None)
  const ApologyTurn: Turn := ModelTurn(ApologyText)

  /** The effect of one event on the chat history; events that touch no message leave it alone. */
  function Apply(h: seq<Turn>, e: Event): seq<Turn> {
    match e
    case TurnShown(t) => h + [t]
    case ThinkingRemoved =>
      if h != [] && h[|h| - 1].sender == Thinking then h[..|h| - 1] else h
    case Rendered(x) =>
      if h != [] then h[..|h| - 1] + [h[|h| - 1].(text := x)] else h
    case BlockSet(b) =>
      if h != [] then h[..|h| - 1] + [h[|h| - 1].(block := b)] else h
    case SpeakerAdded(x) =>
      if h != [] then h[..|h| - 1] + [h[|h| - 1].(speaker := Some(x))] else h
    case _ => h
  }

  /** The chat history after the events `es`, starting from `h`. */
  function Replay(h: seq<Turn>, es: seq<Event>): seq<Turn> {
    if es == [] then h else Apply(Replay(h, es[..|es| - 1]), es[|es| - 1])
  }

  /** Every read-aloud control reads exactly the text its turn shows. */
  predicate SpeakersMatch(h: seq<Turn>) {
    forall k :: 0 <= k < |h| && h[k].speaker.Some? ==> h[k].speaker.value == h[k].text
  }

  /** Events that change no message. */
  predicate Inert(e: Event) {
    !(e.TurnShown? || e.ThinkingRemoved? || e.Rendered? || e.BlockSet? || e.SpeakerAdded?)
  }

  /** The remote calls: the chat message and the image generation. */
  predicate IsRemoteCall(e: Event) {
    e.MessageSent? || e.ImageRequested?
  }

  /** The full response: the chunk texts concatenated in order (`fullResponse += chunk.text`). */
  function Concat(chunks: seq<string>): string {
    if chunks == [] then [] else Concat(chunks[..|chunks| - 1]) + chunks[|chunks| - 1]
  }

  /** The re-render after each chunk: the shown form of everything received so far. */
  function Renders(chunks: seq<string>): (r: seq<Event>)
    ensures |r| == |chunks|
  {
    if chunks == [] then [] else Renders(chunks[..|chunks| - 1]) + [Rendered(Shown(Concat(chunks)))]
  }

  /** `file.type.startsWith('image/')` */
  predicate IsImage(f: File) {
    StartsWith(f.mimeType, "image/")
  }

  /** `fileToGenerativePart`: the payload of the data URL and the declared type; None if the read fails. */
  function FilePart(f: File): Option<Part> {
    match f.dataUrl
    case None => None
    case Some(url) => Some(Inline(Payload(url), f.mimeType))
  }

  /** The message parts (index.tsx:490-497): the image first, if any, then the text, if any. */
  function BuildParts(file: Option<File>, userInput: string): Option<seq<Part>> {
    var image := if file.Some? then FilePart(file.value) else None;
    if file.Some? && image.None? then None
    else Some((if file.Some? then [image.value] else []) + (if userInput != "" then [TextPart(userInput)] else []))
  }

  /** The guard at index.tsx:467: something to send, and a chat session to send it to. */
  predicate Admits(userInput: string, file: Option<File>, session: bool) {
    (userInput != "" || file.Some?) && session
  }

  /** The object URL shown in the student's turn. */
  function UploadOf(file: Option<File>, url: nat): Option<nat> {
    if file.Some? then Some(url) else None
  }

  /** The prompt acted on: the first directive's capture, trimmed; none if it is missing or empty. */
  function ImagePrompt(full: string): Option<string> {
    match Capture(full)
    case None => None
    case Some(c) => if c == "" then None else Some(Trim(c))
  }

  /** What `generateImage` returns for a generation outcome: a JPEG data URL, or `''` on failure. */
  function GeneratedUrl(generated: Option<string>): string {
    match generated
    case Some(bytes) => ImagePrefix + bytes
    case None => ""
  }

  /** The image block once generation has answered. */
  function FinalBlock(prompt: string, generated: Option<string>): ImageBlock {
    var url := GeneratedUrl(generated);
    if url != "" then Picture(url, "Ayuda visual para: " + prompt) else Failed
  }

  /** `processResponseForImages` for the prompt found, if any: loading block, image request, final block. */
  function ImageEvents(prompt: Option<string>, generated: Option<string>): seq<Event> {
    match prompt
    case None => []
    case Some(p) => [BlockSet(Loading), ImageRequested(p), BlockSet(FinalBlock(p, generated))]
  }

  /** The read-aloud control, added only when there is something to read (index.tsx:508-521). */
  function SpeakEvents(spoken: string): seq<Event> {
    if spoken != "" then [SpeakerAdded(spoken)] else []
  }

  /** What follows a stream that ended normally: image generation, then the read-aloud control. */
  function AnswerEvents(full: string, generated: Option<string>): seq<Event> {
    ImageEvents(ImagePrompt(full), generated) + SpeakEvents(Shown(full))
  }

  /** The body of the `try` and of the `catch` (index.tsx:489-528). */
  function Exchange(userInput: string, file: Option<File>, reply: Reply, generated: Option<string>): seq<Event> {
    match BuildParts(file, userInput)
    case None => [ThinkingRemoved, TurnShown(ApologyTurn)]
    case Some(parts) =>
      [MessageSent(parts)] +
      match reply
      case Refused => [ThinkingRemoved, TurnShown(ApologyTurn)]
      case Streamed(chunks, fails) => Streaming(chunks, fails, generated)
  }

  /** A reply that streams: the placeholder replaced by an empty model turn, re-rendered per chunk. */
  function Streaming(chunks: seq<string>, fails: bool, generated: Option<string>): seq<Event> {
    [ThinkingRemoved, TurnShown(ModelTurn(""))] + Renders(chunks) + StreamEnd(chunks, fails, generated)
  }

  /** After the last chunk: the apology of the `catch` block, or the rest of the `try` block. */
  function StreamEnd(chunks: seq<string>, fails: bool, generated: Option<string>): seq<Event> {
    if fails then [TurnShown(ApologyTurn)] else AnswerEvents(Concat(chunks), generated)
  }

  /** Everything before the `try` (index.tsx:469-487). */
  function Opening(stopping: bool, userInput: string, file: Option<File>, url: nat): seq<Event> {
    Preamble(stopping, file, url) +
    [TurnShown(UserTurn(userInput, UploadOf(file, url))), AttachmentCleared, TurnShown(ThinkingTurn)]
  }

  /** The steps before the student's turn is shown: recognition stopped, controls locked, object URL made. */
  function Preamble(stopping: bool, file: Option<File>, url: nat): seq<Event> {
    (if stopping then [RecognitionStopped] else []) + [Locked] +
    (if file.Some? then [UrlCreated(url)] else [])
  }

  /** The `finally` block (index.tsx:529-539). */
  function Closing(file: Option<File>, url: nat): seq<Event> {
    [Unlocked, InputFocused] + (if file.Some? then [UrlRevoked(url)] else [])
  }

  /**
   * The events of one admitted submission: `stopping` says whether recognition was
   * listening, `userInput` is the trimmed text, `file` the staged attachment and `url`
   * the object URL it gets.
   */
  function SubmitEvents(stopping: bool, userInput: string, file: Option<File>, url: nat,
                        reply: Reply, generated: Option<string>): seq<Event>
  {
    Opening(stopping, userInput, file, url) + Exchange(userInput, file, reply, generated) + Closing(file, url)
  }

  /** Whether the submission ends in the `catch` block. */
  predicate Fails(userInput: string, file: Option<File>, reply: Reply) {
    BuildParts(file, userInput).None? || reply.Refused? || reply.fails
  }

  /** The model turn of a reply that streamed to its end, given its shown text and image prompt. */
  function Answered(shown: string, prompt: Option<string>, generated: Option<string>): Turn {
    Turn(Model, shown, None,
         match prompt case None => NoBlock case Some(p) => FinalBlock(p, generated),
         if shown != "" then Some(shown) else None)
  }

  /** The model turn of the full response `full`. */
  function AnsweredTurn(full: string, generated: Option<string>): Turn {
    Answered(Shown(full), ImagePrompt(full), generated)
  }

  /**
   * The turns one admitted submission leaves after the student's own: the answer, or the
   * apology after whatever part of the answer had arrived.
   */
  function Outcome(userInput: string, file: Option<File>, reply: Reply, generated: Option<string>): seq<Turn> {
    if BuildParts(file, userInput).None? || reply.Refused? then [ApologyTurn]
    else if reply.fails then [ModelTurn(Shown(Concat(reply.chunks))), ApologyTurn]
    else [AnsweredTurn(Concat(reply.chunks), generated)]
  }

  /** The turns one admitted submission leaves in the history: the student's turn, then the outcome. */
  function SubmitTurns(userInput: string, file: Option<File>, url: nat, reply: Reply, generated: Option<string>): seq<Turn> {
    [UserTurn(userInput, UploadOf(file, url))] + Outcome(userInput, file, reply, generated)
  }
}

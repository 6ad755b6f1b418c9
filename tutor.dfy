/**
 * The page's module-level state and its event handlers (index.tsx:117-540): the chat
 * session, the speech flags, the text entry, the five control flags, the one-slot
 * attachment store, the image preview and the record of every DOM and remote step taken
 * so far. The chat history on screen is what those steps build (History). Each handler
 * is proved to take exactly the steps the functions of module Turns prescribe; what
 * those steps leave on screen is proved in module TurnProperties.
 */
module Tutor {
  import opened Options
  import opened Directive
  import opened Voices
  import opened Recognition
  import opened Turns
  import opened TurnProperties

  /** The `disabled` flags of the text entry and of the send, attach, camera and mic buttons. */
  datatype Controls = Controls(input: bool, send: bool, attach: bool, camera: bool, mic: bool)

  const AllDisabled: Controls := Controls(true, true, true, true, true)
  const AllEnabled: Controls := Controls(false, false, false, false, false)

  /** The preview container (shown or hidden), the preview image's `src`, and the text entry's placeholder. */
  datatype Preview = Preview(shown: bool, src: string, placeholder: string)

  const DefaultPlaceholder: string := "Escribe tu respuesta o pregunta aquí..."
  const ImagePlaceholder: string := "Añade un comentario a tu imagen..."
  const ClearedPreview: Preview := Preview(false, "", DefaultPlaceholder)

  /**
   * What `initializeChat` leaves: whether a chat session and a recognizer exist, whether
   * the mic is disabled, the voice chosen and the greeting shown, if any.
   */
  datatype Start = Start(session: bool, recognizer: bool, micDisabled: bool, voice: Option<Voice>, greeting: Option<Turn>)

  /** `loadVoices` when voices are known at load time: the tiered choice, or none. */
  function LoadedVoice(voices: seq<Voice>): (r: Option<Voice>)
    ensures r.Some? ==> r.value in voices
  {
    if |voices| > 0 then ChooseVoice(voices) else None
  }

  /** A start that reaches the `try`: the recognizer (the mic disabled without one), then the greeting. */
  function Started(sessionCreated: bool, recognitionSupported: bool, voice: Option<Voice>): Start {
    Start(sessionCreated, recognitionSupported, !recognitionSupported, voice,
          Some(ModelTurn(if sessionCreated then WelcomeText else StartFailureText)))
  }

  /**
   * `initializeChat` as written (index.tsx:267-285): `loadVoices` assigns to a property
   * of `window.speechSynthesis` (index.tsx:125) without the test `speak` makes, so
   * without speech synthesis it throws, and neither the recognizer, nor the session,
   * nor any message follows.
   */
  function Initialize(sessionCreated: bool, synthesisSupported: bool, recognitionSupported: bool, voices: seq<Voice>): (s: Start)
    ensures s.greeting.None? <==> !synthesisSupported
    ensures s.session <==> synthesisSupported && sessionCreated
    ensures s.recognizer <==> synthesisSupported && recognitionSupported
    ensures s.micDisabled <==> synthesisSupported && !recognitionSupported
  {
    if synthesisSupported then Started(sessionCreated, recognitionSupported, LoadedVoice(voices))
    else Start(false, false, false, None, None)
  }

  /** `initializeChat` with `loadVoices` skipped, as `speak` is, when there is no speech synthesis. */
  function InitializeGuarded(sessionCreated: bool, synthesisSupported: bool, recognitionSupported: bool, voices: seq<Voice>): (s: Start)
    ensures s.session == sessionCreated && s.recognizer == recognitionSupported && s.micDisabled == !recognitionSupported
    ensures s.greeting == Some(ModelTurn(if sessionCreated then WelcomeText else StartFailureText))
    ensures s.voice.Some? ==> synthesisSupported && s.voice.value in voices
  {
    Started(sessionCreated, recognitionSupported, if synthesisSupported then LoadedVoice(voices) else None)
  }

  /** The log a start leaves: its greeting shown, if any. */
  function Greeting(start: Start): seq<Event> {
    if start.greeting.Some? then [TurnShown(start.greeting.value)] else []
  }

  /** The history a start leaves on screen is its greeting alone, or nothing. */
  lemma {:induction false} GreetingShown(start: Start)
    ensures Replay([], Greeting(start)) == if start.greeting.Some? then [start.greeting.value] else []
  {
    if start.greeting.Some? {
      ReplayFirst(start.greeting.value);
    }
  }

  /**
   * A browser with speech recognition but no speech synthesis: the page as written
   * shows nothing and has no session, where the guarded start greets the student.
   */
  lemma {:induction false} StartWithoutSynthesis()
    ensures var written := Initialize(true, false, true, []);
      !written.session && !written.recognizer && written.greeting == None
    ensures var guarded := InitializeGuarded(true, false, true, []);
      guarded.session && guarded.recognizer && guarded.greeting == Some(ModelTurn(WelcomeText))
  {
  }

  /**
   * The guarded start degrades gracefully: with speech synthesis it is the start as
   * written, and without it it is that same start with no voice chosen.
   */
  lemma {:induction false} GuardedStartDegrades(sessionCreated: bool, synthesisSupported: bool, recognitionSupported: bool, voices: seq<Voice>)
    ensures synthesisSupported ==>
              InitializeGuarded(sessionCreated, synthesisSupported, recognitionSupported, voices)
              == Initialize(sessionCreated, synthesisSupported, recognitionSupported, voices)
    ensures !synthesisSupported ==>
              InitializeGuarded(sessionCreated, synthesisSupported, recognitionSupported, voices)
              == Initialize(sessionCreated, true, recognitionSupported, voices).(voice := None)
  {
  }

  class Tutor {
    /** Whether `chat` was created. */
    var session: bool
    /** Whether `speechSynthesis` exists. */
    var synthesis: bool
    /** Whether `recognition` was created. */
    var recognizer: bool
    var listening: bool
    var voice: Option<Voice>
    /** The utterance the synthesiser is speaking, if any. */
    var speaking: Option<Utterance>
    /** The text entry's value. */
    var input: string
    var disabled: Controls
    var attached: Option<File>
    var preview: Preview
    /** Every DOM and remote step taken so far, in order. */
    var log: seq<Event>
    /** The next object URL `URL.createObjectURL` hands out. */
    var nextUrl: nat

    /** The chat history on screen: what the steps taken so far have built. */
    function History(): seq<Turn>
      reads this
    {
      Replay([], log)
    }

    ghost predicate Valid()
      reads this
    {
      (listening ==> recognizer) &&
      (!preview.shown ==> preview.src == "")
    }

    /**
     * The page as `initializeChat` (index.tsx:267-285) leaves it, as written: without
     * speech synthesis `loadVoices` throws before anything else runs, so there is no
     * session, no recognizer and no message; otherwise the voices known at load time,
     * the recognizer (the mic disabled without one) and the welcome or failure message.
     */
    constructor(sessionCreated: bool, synthesisSupported: bool, recognitionSupported: bool, voices: seq<Voice>)
      ensures Valid()
      ensures !synthesisSupported ==>
                !session && !recognizer && voice == None && disabled == AllEnabled && History() == []
      ensures synthesisSupported ==>
                && session == sessionCreated && recognizer == recognitionSupported
                && disabled == AllEnabled.(mic := !recognitionSupported)
                && voice == (if |voices| > 0 then ChooseVoice(voices) else None)
                && History() == [ModelTurn(if sessionCreated then WelcomeText else StartFailureText)]
      ensures synthesis == synthesisSupported
      ensures !listening && speaking == None && input == "" && attached == None && preview == ClearedPreview
    {
      var start := Initialize(sessionCreated, synthesisSupported, recognitionSupported, voices);
      session, synthesis, recognizer, voice := start.session, synthesisSupported, start.recognizer, start.voice;
      listening, speaking, input := false, None, "";
      disabled := AllEnabled.(mic := start.micDisabled);
      attached, preview, nextUrl := None, ClearedPreview, 0;
      log := Greeting(start);
      new;
      GreetingShown(start);
    }

    /**
     * The page as `initializeChat` would leave it with `loadVoices` guarded by the same
     * test as `speak`: speech synthesis decides only whether a voice is chosen.
     */
    constructor Guarded(sessionCreated: bool, synthesisSupported: bool, recognitionSupported: bool, voices: seq<Voice>)
      ensures Valid()
      ensures session == sessionCreated && synthesis == synthesisSupported && recognizer == recognitionSupported
      ensures disabled == AllEnabled.(mic := !recognitionSupported)
      ensures voice == (if synthesisSupported && |voices| > 0 then ChooseVoice(voices) else None)
      ensures History() == [ModelTurn(if sessionCreated then WelcomeText else StartFailureText)]
      ensures !listening && speaking == None && input == "" && attached == None && preview == ClearedPreview
    {
      var start := InitializeGuarded(sessionCreated, synthesisSupported, recognitionSupported, voices);
      session, synthesis, recognizer, voice := start.session, synthesisSupported, start.recognizer, start.voice;
      listening, speaking, input := false, None, "";
      disabled := AllEnabled.(mic := start.micDisabled);
      attached, preview, nextUrl := None, ClearedPreview, 0;
      log := Greeting(start);
      new;
      GreetingShown(start);
    }

    /** The `onvoiceschanged` handler: keep the preferred Spanish voice, or none. */
    method VoicesChanged(voices: seq<Voice>)
      modifies this`voice
      ensures voice == ChooseVoice(voices)
    {
      voice := ChooseVoice(voices);
    }

    /**
     * `speak`: cancel what is being spoken and speak `text` with the chosen voice, in its
     * language or Spain's Spanish; without speech synthesis, an alert.
     */
    method Speak(text: string)
      modifies this`speaking, this`log
      ensures synthesis ==> speaking == Some(Utterance(text, voice, UtteranceLang(voice))) && log == old(log)
      ensures !synthesis ==> speaking == old(speaking) && log == old(log) + [Alerted(NoSynthesisText)]
      ensures History() == old(History())
    {
      if synthesis {
        speaking := Some(Utterance(text, voice, UtteranceLang(voice)));
      } else {
        ReplayInertStep([], log, Alerted(NoSynthesisText));
        log := log + [Alerted(NoSynthesisText)];
      }
    }

    /**
     * A click on the read-aloud control of turn `i`: it speaks the text the control was
     * created with, which is the text the turn shows (SubmitKeepsSpeakers).
     */
    method ReadAloud(i: nat)
      requires i < |History()| && History()[i].speaker.Some?
      modifies this`speaking, this`log
      ensures synthesis ==>
                speaking == Some(Utterance(old(History())[i].speaker.value, voice, UtteranceLang(voice))) && log == old(log)
      ensures !synthesis ==> speaking == old(speaking) && log == old(log) + [Alerted(NoSynthesisText)]
      ensures History() == old(History())
    {
      Speak(History()[i].speaker.value);
    }

    /**
     * `handleFileSelect`: an image file is staged and, once it is read, previewed; any
     * other choice empties the slot (with an alert for a non-image file) and leaves the
     * preview alone.
     */
    method HandleFileSelect(file: Option<File>)
      requires Valid()
      modifies this`attached, this`preview, this`log
      ensures Valid()
      ensures attached == (if file.Some? && IsImage(file.value) then file else None)
      ensures preview == (if file.Some? && IsImage(file.value) && file.value.dataUrl.Some?
                          then Preview(true, file.value.dataUrl.value, ImagePlaceholder) else old(preview))
      ensures log == old(log) + (if file.Some? && !IsImage(file.value) then [Alerted(NotAnImageText)] else [])
      ensures History() == old(History())
    {
      if file.None? || !IsImage(file.value) {
        if file.Some? {
          ReplayInertStep([], log, Alerted(NotAnImageText));
          log := log + [Alerted(NotAnImageText)];
        }
        attached := None;
        return;
      }
      attached := file;
      match file.value.dataUrl
      case Some(url) =>
        preview := Preview(true, url, ImagePlaceholder);
      case None =>
    }

    /** `removeAttachedFile`: the slot is empty, the preview hidden and blank, the placeholder reset. */
    method RemoveAttachedFile()
      modifies this`attached, this`preview, this`log
      ensures attached == None && preview == ClearedPreview
      ensures log == old(log) + [AttachmentCleared]
      ensures History() == old(History())
    {
      attached := None;
      preview := ClearedPreview;
      ReplayInertStep([], log, AttachmentCleared);
      log := log + [AttachmentCleared];
    }

    /** The recognition `onresult` handler: the text entry becomes the transcript of the new results. */
    method RecognitionResult(results: seq<SpeechResult>, resultIndex: nat)
      modifies this`input
      ensures input == Finals(From(results, resultIndex)) + Interims(From(results, resultIndex))
    {
      input := Transcript(results, resultIndex);
    }

    /** The recognition `onend` and `onerror` handlers: listening stops. */
    method RecognitionEnded()
      requires Valid()
      modifies this`listening
      ensures Valid() && !listening
    {
      listening := false;
    }

    /**
     * A click on the mic button: nothing without a recognizer; a stop request while
     * listening (listening goes on until recognition ends); otherwise a start, which
     * sets listening unless it throws (`startThrows`).
     */
    method MicClick(startThrows: bool)
      requires Valid()
      modifies this`listening, this`log
      ensures Valid()
      ensures !recognizer ==> listening == old(listening) && log == old(log)
      ensures recognizer && old(listening) ==> listening && log == old(log) + [RecognitionStopped]
      ensures recognizer && !old(listening) ==>
                listening == !startThrows && log == old(log) + (if startThrows then [] else [RecognitionStarted])
      ensures History() == old(History())
    {
      if !recognizer {
        return;
      }
      if listening {
        ReplayInertStep([], log, RecognitionStopped);
        log := log + [RecognitionStopped];
      } else if startThrows {
        listening := false;
      } else {
        ReplayInertStep([], log, RecognitionStarted);
        log := log + [RecognitionStarted];
        listening := true;
      }
    }

    /**
     * `handleStream`: every chunk is appended to the full response and the newest model
     * turn re-rendered with the shown form of what has arrived; without a text area
     * nothing is read and the result is empty.
     */
    method HandleStream(chunks: seq<string>, hasTextArea: bool) returns (full: string)
      modifies this`log
      ensures full == (if hasTextArea then Concat(chunks) else "")
      ensures log == old(log) + (if hasTextArea then Renders(chunks) else [])
    {
      full := "";
      if !hasTextArea {
        return;
      }
      var i := 0;
      while i < |chunks|
        invariant 0 <= i <= |chunks|
        invariant full == Concat(chunks[..i])
        invariant log == old(log) + Renders(chunks[..i])
      {
        StreamStep(chunks, i);
        full := full + chunks[i];
        log := log + [Rendered(Shown(full))];
        Regroup(old(log), Renders(chunks[..i]), [Rendered(Shown(full))]);
        i := i + 1;
      }
      assert chunks[..i] == chunks;
    }

    /**
     * `processResponseForImages`: for a non-empty first directive, a loading block, the
     * image request, then the picture or the error block.
     */
    method ProcessResponseForImages(full: string, generated: Option<string>)
      modifies this`log
      ensures log == old(log) + ImageEvents(ImagePrompt(full), generated)
    {
      match ImagePrompt(full)
      case None =>
      case Some(prompt) =>
        log := log + [BlockSet(Loading)];
        log := log + [ImageRequested(prompt)];
        var url := GeneratedUrl(generated);
        if url != "" {
          log := log + [BlockSet(Picture(url, "Ayuda visual para: " + prompt))];
        } else {
          log := log + [BlockSet(Failed)];
        }
        Snoc3(old(log), BlockSet(Loading), ImageRequested(prompt), BlockSet(FinalBlock(prompt, generated)));
    }

    /**
     * The submit handler (index.tsx:463-540). With nothing to send or no chat session it
     * changes nothing. Otherwise it takes the steps SubmitEvents lists, which leave the
     * turns SubmitTurns lists: the controls end enabled, the entry and the slot empty.
     */
    method Submit(reply: Reply, generated: Option<string>)
      requires Valid()
      modifies this`input, this`disabled, this`attached, this`preview, this`nextUrl, this`log
      ensures Valid()
      ensures !Admits(Trim(old(input)), old(attached), old(session)) ==> unchanged(this)
      ensures Admits(Trim(old(input)), old(attached), old(session)) ==>
                log == old(log) + SubmitEvents(old(listening), Trim(old(input)), old(attached), old(nextUrl), reply, generated) &&
                input == "" && disabled == AllEnabled && attached == None && preview == ClearedPreview &&
                listening == old(listening) && nextUrl == old(nextUrl) + (if old(attached).Some? then 1 else 0)
    {
      var userInput := Trim(input);
      if !Admits(userInput, attached, session) {
        return;
      }
      Run(userInput, reply, generated);
    }

    /** An admitted submission of the trimmed text `userInput`, from the lock to the `finally` block. */
    method Run(userInput: string, reply: Reply, generated: Option<string>)
      modifies this`input, this`disabled, this`attached, this`preview, this`nextUrl, this`log
      ensures log == old(log) + SubmitEvents(old(listening), userInput, old(attached), old(nextUrl), reply, generated)
      ensures input == "" && disabled == AllEnabled && attached == None && preview == ClearedPreview
      ensures listening == old(listening) && nextUrl == old(nextUrl) + (if old(attached).Some? then 1 else 0)
    {
      ghost var before, stopping := log, listening;
      var file, url := Prepare(userInput);
      Finish(userInput, file, url, reply, generated);
      SubmitLog(before, stopping, userInput, file, url, reply, generated);
    }

    /** The `try`, `catch` and `finally` blocks, once the controls are locked. */
    method Finish(userInput: string, file: Option<File>, url: nat, reply: Reply, generated: Option<string>)
      modifies this`disabled, this`log
      ensures disabled == AllEnabled
      ensures log == old(log) + (Exchange(userInput, file, reply, generated) + Closing(file, url))
    {
      Attempt(userInput, file, reply, generated);
      Release(file, url);
      Regroup(old(log), Exchange(userInput, file, reply, generated), Closing(file, url));
    }

    /**
     * Everything before the `try`: recognition stopped if listening, the entry cleared and
     * the controls disabled, an object URL for the staged file, the student's turn, the
     * slot emptied and the thinking placeholder shown.
     */
    method Prepare(userInput: string) returns (file: Option<File>, url: nat)
      modifies this`input, this`disabled, this`attached, this`preview, this`nextUrl, this`log
      ensures file == old(attached) && url == old(nextUrl)
      ensures log == old(log) + Opening(listening, userInput, file, url)
      ensures input == "" && disabled == AllDisabled && attached == None && preview == ClearedPreview
      ensures nextUrl == url + (if file.Some? then 1 else 0)
    {
      file, url := Lock();
      var user := UserTurn(userInput, UploadOf(file, url));
      log := log + [TurnShown(user)];
      RemoveAttachedFile();
      log := log + [TurnShown(ThinkingTurn)];
      Snoc3(old(log) + Preamble(listening, file, url), TurnShown(user), AttachmentCleared, TurnShown(ThinkingTurn));
      Regroup(old(log), Preamble(listening, file, url), [TurnShown(user), AttachmentCleared, TurnShown(ThinkingTurn)]);
    }

    /** Recognition stopped if listening, the entry cleared, the controls disabled, an object URL for the staged file. */
    method Lock() returns (file: Option<File>, url: nat)
      modifies this`input, this`disabled, this`nextUrl, this`log
      ensures file == attached && url == old(nextUrl)
      ensures log == old(log) + Preamble(listening, file, url)
      ensures input == "" && disabled == AllDisabled
      ensures nextUrl == url + (if file.Some? then 1 else 0)
    {
      if listening {
        log := log + [RecognitionStopped];
      }
      input := "";
      disabled := AllDisabled;
      log := log + [Locked];
      file := attached;
      url := nextUrl;
      if file.Some? {
        nextUrl := nextUrl + 1;
        log := log + [UrlCreated(url)];
      }
      Regroup(old(log), if listening then [RecognitionStopped] else [], [Locked]);
      Regroup(old(log), (if listening then [RecognitionStopped] else []) + [Locked], if file.Some? then [UrlCreated(url)] else []);
    }

    /**
     * The `try` and `catch` blocks: the parts are assembled and sent, the stream handled,
     * the image and the read-aloud control added; on any failure, the placeholder (if
     * still there) gives way to the apology.
     */
    method Attempt(userInput: string, file: Option<File>, reply: Reply, generated: Option<string>)
      modifies this`log
      ensures log == old(log) + Exchange(userInput, file, reply, generated)
    {
      var parts := AssembleParts(file, userInput);
      if parts.None? {
        Catch(true);
        Snoc2(old(log), ThinkingRemoved, TurnShown(ApologyTurn));
        return;
      }
      log := log + [MessageSent(parts.value)];
      match reply
      case Refused =>
        Catch(true);
        Snoc3(old(log), MessageSent(parts.value), ThinkingRemoved, TurnShown(ApologyTurn));
      case Streamed(chunks, fails) =>
        Respond(chunks, fails, generated);
        Regroup(old(log), [MessageSent(parts.value)], Streaming(chunks, fails, generated));
    }

    /** The message parts: the staged image first, if any, then the text, if any; None if the file cannot be read. */
    method AssembleParts(file: Option<File>, userInput: string) returns (parts: Option<seq<Part>>)
      ensures parts == BuildParts(file, userInput)
    {
      var image: seq<Part> := [];
      if file.Some? {
        var part := FilePart(file.value);
        if part.None? {
          return None;
        }
        image := [part.value];
      }
      var text: seq<Part> := if userInput != "" then [TextPart(userInput)] else [];
      return Some(image + text);
    }

    /** The `catch` block: the placeholder removed if it is still shown, then the apology. */
    method Catch(placeholderShown: bool)
      modifies this`log
      ensures log == old(log) + (if placeholderShown then [ThinkingRemoved] else []) + [TurnShown(ApologyTurn)]
    {
      if placeholderShown {
        log := log + [ThinkingRemoved];
      }
      log := log + [TurnShown(ApologyTurn)];
    }

    /** Once the stream call returns: the placeholder replaced, the chunks rendered, then the answer or the `catch`. */
    method Respond(chunks: seq<string>, fails: bool, generated: Option<string>)
      modifies this`log
      ensures log == old(log) + Streaming(chunks, fails, generated)
    {
      log := log + [ThinkingRemoved];
      log := log + [TurnShown(ModelTurn(""))];
      var full := HandleStream(chunks, true);
      Snoc2(old(log), ThinkingRemoved, TurnShown(ModelTurn("")));
      Regroup(old(log), [ThinkingRemoved, TurnShown(ModelTurn(""))], Renders(chunks));
      if fails {
        Catch(false);
      } else {
        Answer(full, generated);
      }
      Regroup(old(log), [ThinkingRemoved, TurnShown(ModelTurn(""))] + Renders(chunks), StreamEnd(chunks, fails, generated));
    }

    /** The rest of the `try` block: the image, then the read-aloud control when there is text to read. */
    method Answer(full: string, generated: Option<string>)
      modifies this`log
      ensures log == old(log) + AnswerEvents(full, generated)
    {
      ProcessResponseForImages(full, generated);
      var textToSpeak := Shown(full);
      if textToSpeak != "" {
        log := log + [SpeakerAdded(textToSpeak)];
      }
      Regroup(old(log), ImageEvents(ImagePrompt(full), generated), SpeakEvents(textToSpeak));
    }

    /** The `finally` block: the controls enabled, the entry focused, the object URL revoked. */
    method Release(file: Option<File>, url: nat)
      modifies this`disabled, this`log
      ensures disabled == AllEnabled
      ensures log == old(log) + Closing(file, url)
    {
      disabled := AllEnabled;
      log := log + [Unlocked];
      log := log + [InputFocused];
      Snoc2(old(log), Unlocked, InputFocused);
      if file.Some? {
        log := log + [UrlRevoked(url)];
        Regroup(old(log), [Unlocked, InputFocused], [UrlRevoked(url)]);
      }
    }
  }

  /** The three stages of a submission, logged one after the other, are its steps. */
  lemma {:induction false} SubmitLog(before: seq<Event>, stopping: bool, userInput: string, file: Option<File>, url: nat,
                                     reply: Reply, generated: Option<string>)
    ensures before + Opening(stopping, userInput, file, url) + (Exchange(userInput, file, reply, generated) + Closing(file, url))
              == before + SubmitEvents(stopping, userInput, file, url, reply, generated)
  {
    var o, e, c := Opening(stopping, userInput, file, url), Exchange(userInput, file, reply, generated), Closing(file, url);
    Regroup(before, o, e + c);
    Regroup(o, e, c);
  }

  /** What a submission leaves on screen, whatever was logged before it, and the read-aloud controls it keeps honest. */
  lemma {:induction false} SubmitHistory(before: seq<Event>, stopping: bool, userInput: string, file: Option<File>, url: nat,
                                         reply: Reply, generated: Option<string>)
    ensures Replay([], before + SubmitEvents(stopping, userInput, file, url, reply, generated)) ==
            Replay([], before) + SubmitTurns(userInput, file, url, reply, generated)
    ensures SpeakersMatch(Replay([], before)) ==>
              SpeakersMatch(Replay([], before + SubmitEvents(stopping, userInput, file, url, reply, generated)))
  {
    ReplayAppend([], before, SubmitEvents(stopping, userInput, file, url, reply, generated));
    SubmitReplay(Replay([], before), stopping, userInput, file, url, reply, generated);
    if SpeakersMatch(Replay([], before)) {
      SubmitKeepsSpeakers(Replay([], before), userInput, file, url, reply, generated);
    }
  }
}

/**
 * What one submission of the chat form guarantees, proved about the values of module
 * Turns: the history the events produce, the part list, the order of the steps, the
 * failure path and the answer.
 */
module TurnProperties {
  import opened Options
  import opened Directive
  import opened DataUrl
  import opened Turns

  /** Replaying two runs of events one after the other is replaying them joined. */
  lemma {:induction false} ReplayAppend(h: seq<Turn>, a: seq<Event>, b: seq<Event>)
    ensures Replay(h, a + b) == Replay(Replay(h, a), b)
    decreases |b|
  {
    if b == [] {
      assert a + b == a;
    } else {
      ReplayAppend(h, a, b[..|b| - 1]);
      assert (a + b)[..|a + b| - 1] == a + b[..|b| - 1];
    }
  }

  /** Appending two elements one at a time is appending both. */
  lemma {:induction false} Snoc2<T>(s: seq<T>, a: T, b: T)
    ensures s + [a] + [b] == s + [a, b]
  {
  }

  /** Appending three elements one at a time is appending all three. */
  lemma {:induction false} Snoc3<T>(s: seq<T>, a: T, b: T, c: T)
    ensures s + [a] + [b] + [c] == s + [a, b, c]
  {
  }

  /** The greeting alone on an empty history. */
  lemma {:induction false} ReplayFirst(t: Turn)
    ensures Replay([], [TurnShown(t)]) == [t]
  {
    ReplayOne([], TurnShown(t));
  }

  /** Replaying one more event applies it to the history replayed so far. */
  lemma {:induction false} ReplayStep(h: seq<Turn>, es: seq<Event>, e: Event)
    ensures Replay(h, es + [e]) == Apply(Replay(h, es), e)
  {
    assert (es + [e])[..|es|] == es;
  }

  /** One more event that touches no message leaves the replayed history as it was. */
  lemma {:induction false} ReplayInertStep(h: seq<Turn>, es: seq<Event>, e: Event)
    requires Inert(e)
    ensures Replay(h, es + [e]) == Replay(h, es)
  {
    ReplayStep(h, es, e);
  }

  /** Replaying a single event applies it. */
  lemma {:induction false} ReplayOne(h: seq<Turn>, a: Event)
    ensures Replay(h, [a]) == Apply(h, a)
  {
    assert [a][..0] == [];
  }

  /** Replaying two events applies them in order. */
  lemma {:induction false} ReplayTwo(h: seq<Turn>, a: Event, b: Event)
    ensures Replay(h, [a, b]) == Apply(Apply(h, a), b)
  {
    assert [a, b][..1] == [a];
    ReplayOne(h, a);
  }

  /** Replaying three events applies them in order. */
  lemma {:induction false} ReplayThree(h: seq<Turn>, a: Event, b: Event, c: Event)
    ensures Replay(h, [a, b, c]) == Apply(Apply(Apply(h, a), b), c)
  {
    assert [a, b, c][..2] == [a, b];
    ReplayTwo(h, a, b);
  }

  /** Events that touch no message leave the history as it is. */
  lemma {:induction false} ReplayInert(h: seq<Turn>, es: seq<Event>)
    requires forall k :: 0 <= k < |es| ==> Inert(es[k])
    ensures Replay(h, es) == h
  {
    if es != [] {
      ReplayInert(h, es[..|es| - 1]);
    }
  }

  /** After the k-th chunk, the text rendered is the shown form of the first k+1 chunks. */
  lemma {:induction false} RendersAt(chunks: seq<string>, k: nat)
    requires k < |chunks|
    ensures Renders(chunks)[k] == Rendered(Shown(Concat(chunks[..k + 1])))
  {
    if k < |chunks| - 1 {
      var init := chunks[..|chunks| - 1];
      RendersAt(init, k);
      assert init[..k + 1] == chunks[..k + 1];
    } else {
      assert chunks[..k + 1] == chunks;
    }
  }

  /** Every event of the stream loop is a re-render. */
  lemma {:induction false} RendersAll(chunks: seq<string>)
    ensures forall k :: 0 <= k < |Renders(chunks)| ==> Renders(chunks)[k].Rendered?
  {
    if chunks != [] {
      RendersAll(chunks[..|chunks| - 1]);
    }
  }

  /** One more chunk: the text so far grows by it, and one more re-render shows the new text. */
  lemma {:induction false} StreamStep(chunks: seq<string>, i: nat)
    requires i < |chunks|
    ensures Concat(chunks[..i + 1]) == Concat(chunks[..i]) + chunks[i]
    ensures Renders(chunks[..i + 1]) == Renders(chunks[..i]) + [Rendered(Shown(Concat(chunks[..i + 1])))]
  {
    var p := chunks[..i + 1];
    assert p[..|p| - 1] == chunks[..i];
  }

  /** Re-rendering the newest turn leaves it showing the last text rendered. */
  lemma {:induction false} ReplayRendered(h: seq<Turn>, t: Turn, rs: seq<Event>)
    requires forall k :: 0 <= k < |rs| ==> rs[k].Rendered?
    ensures Replay(h + [t], rs) == h + [if rs == [] then t else t.(text := rs[|rs| - 1].text)]
  {
    if rs != [] {
      var init := rs[..|rs| - 1];
      ReplayRendered(h, t, init);
      var before := Replay(h + [t], init);
      assert before[..|before| - 1] == h;
    }
  }

  /** Joining three sequences does not depend on the grouping. */
  lemma {:induction false} Regroup<T>(a: seq<T>, b: seq<T>, c: seq<T>)
    ensures a + (b + c) == a + b + c
  {
  }

  /** The full response is built chunk by chunk: concatenating two runs of chunks joins their texts. */
  lemma {:induction false} ConcatAppend(a: seq<string>, b: seq<string>)
    ensures Concat(a + b) == Concat(a) + Concat(b)
    decreases |b|
  {
    if b != [] {
      var b' := b[..|b| - 1];
      assert (a + b)[..|a + b| - 1] == a + b';
      ConcatAppend(a, b');
    } else {
      assert a + b == a;
    }
  }

  /**
   * The guard of the submit handler: a submission goes ahead exactly when a chat session
   * exists and either a file is staged or the entry holds a character that is not white
   * space or a line terminator.
   */
  lemma {:induction false} SubmitGuard(input: string, file: Option<File>, session: bool)
    ensures Admits(Trim(input), file, session) <==>
              session && (file.Some? || exists k :: 0 <= k < |input| && !IsTrimmable(input[k]))
  {
    TrimEmptyIff(input);
  }

  /**
   * The image prompt of a reply whose first directive has body `body`: none when the
   * body is empty, otherwise the body trimmed, so a body of white space alone still
   * asks for an image, with an empty prompt.
   */
  lemma {:induction false} ImagePromptOfDirective(a: string, body: string, b: string)
    requires IsPlain(a) && IsBody(body)
    ensures ImagePrompt(a + Open + body + "]" + b) == if body == "" then None else Some(Trim(body))
    ensures body != "" && (forall k :: 0 <= k < |body| ==> IsTrimmable(body[k])) ==>
              ImagePrompt(a + Open + body + "]" + b) == Some("")
  {
    CaptureOneDirective(a, body, b);
    TrimEmptyIff(body);
  }

  /**
   * The final image block holds a picture exactly when generation succeeded: its source
   * is the JPEG data URL of the returned bytes and its text names the prompt; a failed
   * generation, whose URL is empty, leaves the error block.
   */
  lemma {:induction false} FinalBlockShowsImage(prompt: string, generated: Option<string>)
    ensures FinalBlock(prompt, generated).Picture? <==> generated.Some?
    ensures generated.None? ==> FinalBlock(prompt, generated) == Failed
    ensures generated.Some? ==>
              var src := FinalBlock(prompt, generated).src;
              && |src| == |ImagePrefix| + |generated.value|
              && src[..|ImagePrefix|] == ImagePrefix && src[|ImagePrefix|..] == generated.value
              && FinalBlock(prompt, generated).alt == "Ayuda visual para: " + prompt
  {
    if generated.Some? {
      assert |GeneratedUrl(generated)| >= |ImagePrefix| > 0;
    }
  }

  /**
   * The history the events of a submission produce is the history before it followed by
   * the turns the submission promises: whatever the reply, the thinking placeholder is
   * gone and every message is where SubmitTurns puts it.
   */
  lemma {:induction false} SubmitReplay(h: seq<Turn>, stopping: bool, userInput: string, file: Option<File>, url: nat,
                     reply: Reply, generated: Option<string>)
    ensures Replay(h, SubmitEvents(stopping, userInput, file, url, reply, generated)) ==
            h + SubmitTurns(userInput, file, url, reply, generated)
  {
    var user := UserTurn(userInput, UploadOf(file, url));
    OpeningReplay(h, stopping, userInput, file, url);
    ExchangeReplay(h + [user], userInput, file, reply, generated);
    ClosingInert(file, url);
    ReplaySubmission(h, user, Opening(stopping, userInput, file, url), Exchange(userInput, file, reply, generated),
                     Closing(file, url), Outcome(userInput, file, reply, generated));
  }

  /**
   * What a submission adds after the student's turn: one or two model turns, never the
   * thinking placeholder; the last is the apology exactly when the submission fails, and
   * there are two exactly when a stream broke off, its partial answer kept before the apology.
   */
  lemma {:induction false} OutcomeShape(userInput: string, file: Option<File>, reply: Reply, generated: Option<string>)
    ensures var o := Outcome(userInput, file, reply, generated);
      && 1 <= |o| <= 2
      && (forall k :: 0 <= k < |o| ==> o[k].sender == Model)
      && (o[|o| - 1] == ApologyTurn <==> Fails(userInput, file, reply))
      && (|o| == 2 <==> BuildParts(file, userInput).Some? && reply.Streamed? && reply.fails)
  {
    if !Fails(userInput, file, reply) {
      var full := Concat(reply.chunks);
      assert Outcome(userInput, file, reply, generated) == [AnsweredTurn(full, generated)];
      if Shown(full) == "" {
        assert AnsweredTurn(full, generated).text != ApologyText;
      } else {
        assert AnsweredTurn(full, generated).speaker != ApologyTurn.speaker;
      }
    }
  }

  /** The three stages of a submission, replayed one after the other. */
  lemma {:induction false} ReplaySubmission(h: seq<Turn>, user: Turn, opening: seq<Event>, exchange: seq<Event>,
                                            closing: seq<Event>, outcome: seq<Turn>)
    requires Replay(h, opening) == h + [user] + [ThinkingTurn]
    requires Replay(h + [user] + [ThinkingTurn], exchange) == h + [user] + outcome
    requires forall k :: 0 <= k < |closing| ==> Inert(closing[k])
    ensures Replay(h, opening + exchange + closing) == h + ([user] + outcome)
  {
    ReplayAppend(h, opening, exchange);
    ReplayInert(h + [user] + outcome, closing);
    ReplayAppend(h, opening + exchange, closing);
    Regroup(h, [user], outcome);
  }

  /** The `finally` block changes no message. */
  lemma {:induction false} ClosingInert(file: Option<File>, url: nat)
    ensures forall k :: 0 <= k < |Closing(file, url)| ==> Inert(Closing(file, url)[k])
  {
  }

  /** The steps before the student's turn change no message. */
  lemma {:induction false} PreambleInert(stopping: bool, file: Option<File>, url: nat)
    ensures forall k :: 0 <= k < |Preamble(stopping, file, url)| ==> Inert(Preamble(stopping, file, url)[k])
  {
  }

  /** Before the `try`: the student's turn and the thinking placeholder are shown, nothing else changes. */
  lemma {:induction false} OpeningReplay(h: seq<Turn>, stopping: bool, userInput: string, file: Option<File>, url: nat)
    ensures Replay(h, Opening(stopping, userInput, file, url)) ==
            h + [UserTurn(userInput, UploadOf(file, url))] + [ThinkingTurn]
  {
    var user := UserTurn(userInput, UploadOf(file, url));
    var pre := Preamble(stopping, file, url);
    PreambleInert(stopping, file, url);
    ReplayInert(h, pre);
    ReplayAppend(h, pre, [TurnShown(user), AttachmentCleared, TurnShown(ThinkingTurn)]);
    ReplayThree(h, TurnShown(user), AttachmentCleared, TurnShown(ThinkingTurn));
  }

  /** The history from the placeholder on, through the `try` and `catch` blocks. */
  lemma {:induction false} ExchangeReplay(base: seq<Turn>, userInput: string, file: Option<File>,
                       reply: Reply, generated: Option<string>)
    ensures Replay(base + [ThinkingTurn], Exchange(userInput, file, reply, generated)) ==
            base + Outcome(userInput, file, reply, generated)
  {
    if BuildParts(file, userInput).Some? && reply.Streamed? {
      StreamedReplay(base, userInput, file, reply, generated);
    } else {
      CaughtReplay(base, userInput, file, reply, generated);
    }
  }

  /** Without a stream, the `catch` block replaces the placeholder by the apology. */
  lemma {:induction false} CaughtReplay(base: seq<Turn>, userInput: string, file: Option<File>,
                     reply: Reply, generated: Option<string>)
    requires BuildParts(file, userInput).None? || reply.Refused?
    ensures Replay(base + [ThinkingTurn], Exchange(userInput, file, reply, generated)) ==
            base + Outcome(userInput, file, reply, generated)
  {
    var sent := if BuildParts(file, userInput).None? then [] else [MessageSent(BuildParts(file, userInput).value)];
    assert Exchange(userInput, file, reply, generated) == sent + [ThinkingRemoved, TurnShown(ApologyTurn)];
    ApologyReplay(base, sent);
  }

  /** Events that change no message, then the `catch` block: the placeholder becomes the apology. */
  lemma {:induction false} ApologyReplay(base: seq<Turn>, sent: seq<Event>)
    requires forall k :: 0 <= k < |sent| ==> Inert(sent[k])
    ensures Replay(base + [ThinkingTurn], sent + [ThinkingRemoved, TurnShown(ApologyTurn)]) ==
            base + [ApologyTurn]
  {
    var started := base + [ThinkingTurn];
    assert started[..|started| - 1] == base;
    ReplayInert(started, sent);
    ReplayAppend(started, sent, [ThinkingRemoved, TurnShown(ApologyTurn)]);
    ReplayTwo(started, ThinkingRemoved, TurnShown(ApologyTurn));
  }

  /** A streamed reply: the send changes no message, then the stream does its work. */
  lemma {:induction false} StreamedReplay(base: seq<Turn>, userInput: string, file: Option<File>,
                       reply: Reply, generated: Option<string>)
    requires BuildParts(file, userInput).Some? && reply.Streamed?
    ensures Replay(base + [ThinkingTurn], Exchange(userInput, file, reply, generated)) ==
            base + Outcome(userInput, file, reply, generated)
  {
    ExchangeStreamed(userInput, file, reply, generated);
    StreamingReplay(base, reply.chunks, reply.fails, generated);
    SendReplay(base + [ThinkingTurn], MessageSent(BuildParts(file, userInput).value),
               Streaming(reply.chunks, reply.fails, generated));
  }

  /** Sending the message changes no message of the history. */
  lemma {:induction false} SendReplay(h: seq<Turn>, send: Event, es: seq<Event>)
    requires Inert(send)
    ensures Replay(h, [send] + es) == Replay(h, es)
  {
    ReplayAppend(h, [send], es);
    ReplayOne(h, send);
  }

  /** An admitted message whose reply streams: the send, then the stream. */
  lemma {:induction false} ExchangeStreamed(userInput: string, file: Option<File>, reply: Reply, generated: Option<string>)
    requires BuildParts(file, userInput).Some? && reply.Streamed?
    ensures Exchange(userInput, file, reply, generated) ==
            [MessageSent(BuildParts(file, userInput).value)] + Streaming(reply.chunks, reply.fails, generated)
  {
  }

  /** A streamed reply replaces the placeholder by the model turn, then answers or apologises. */
  lemma {:induction false} StreamingReplay(base: seq<Turn>, chunks: seq<string>, fails: bool, generated: Option<string>)
    ensures Replay(base + [ThinkingTurn], Streaming(chunks, fails, generated)) ==
            base + (if fails then [ModelTurn(Shown(Concat(chunks))), ApologyTurn]
                    else [AnsweredTurn(Concat(chunks), generated)])
  {
    if fails {
      StreamingFailed(base, chunks, generated);
    } else {
      StreamingAnswered(base, chunks, generated);
    }
  }

  /** A stream that breaks off leaves the partial answer and adds the apology after it. */
  lemma {:induction false} StreamingFailed(base: seq<Turn>, chunks: seq<string>, generated: Option<string>)
    ensures Replay(base + [ThinkingTurn], Streaming(chunks, true, generated)) ==
            base + [ModelTurn(Shown(Concat(chunks))), ApologyTurn]
  {
    var shown := Shown(Concat(chunks));
    var streamed := base + [ModelTurn(shown)];
    RendersLast(chunks);
    ReplayOne(streamed, TurnShown(ApologyTurn));
    StreamThen(base, Renders(chunks), shown, [TurnShown(ApologyTurn)], streamed + [ApologyTurn]);
    Regroup(base, [ModelTurn(shown)], [ApologyTurn]);
  }

  /** A stream that completes ends in the answered turn. */
  lemma {:induction false} StreamingAnswered(base: seq<Turn>, chunks: seq<string>, generated: Option<string>)
    ensures Replay(base + [ThinkingTurn], Streaming(chunks, false, generated)) ==
            base + [AnsweredTurn(Concat(chunks), generated)]
  {
    var full := Concat(chunks);
    var shown := Shown(full);
    RendersLast(chunks);
    AnswerReplay(base, shown, ImagePrompt(full), generated);
    StreamThen(base, Renders(chunks), shown, AnswerEvents(full, generated), base + [AnsweredTurn(full, generated)]);
  }

  /** The last render shows the whole reply as shown; with no chunk at all, nothing is shown. */
  lemma {:induction false} RendersLast(chunks: seq<string>)
    ensures forall k :: 0 <= k < |Renders(chunks)| ==> Renders(chunks)[k].Rendered?
    ensures if Renders(chunks) == [] then Shown(Concat(chunks)) == ""
            else Renders(chunks)[|Renders(chunks)| - 1].text == Shown(Concat(chunks))
  {
    RendersAll(chunks);
    if chunks == [] {
      ShownEmpty();
    } else {
      RendersAt(chunks, |chunks| - 1);
      assert chunks[..|chunks|] == chunks;
    }
  }

  /** The placeholder gives way to the streamed model turn, and whatever follows starts from there. */
  lemma {:induction false} StreamThen(base: seq<Turn>, rs: seq<Event>, shown: string, ending: seq<Event>, result: seq<Turn>)
    requires forall k :: 0 <= k < |rs| ==> rs[k].Rendered?
    requires if rs == [] then shown == "" else rs[|rs| - 1].text == shown
    requires Replay(base + [ModelTurn(shown)], ending) == result
    ensures Replay(base + [ThinkingTurn], [ThinkingRemoved, TurnShown(ModelTurn(""))] + rs + ending) == result
  {
    StreamOpens(base, rs, shown);
    ReplayAppend(base + [ThinkingTurn], [ThinkingRemoved, TurnShown(ModelTurn(""))] + rs, ending);
  }

  /** The placeholder gives way to an empty model turn, which then shows the last render. */
  lemma {:induction false} StreamOpens(base: seq<Turn>, rs: seq<Event>, shown: string)
    requires forall k :: 0 <= k < |rs| ==> rs[k].Rendered?
    requires if rs == [] then shown == "" else rs[|rs| - 1].text == shown
    ensures Replay(base + [ThinkingTurn], [ThinkingRemoved, TurnShown(ModelTurn(""))] + rs) ==
            base + [ModelTurn(shown)]
  {
    var started := base + [ThinkingTurn];
    var head := [ThinkingRemoved, TurnShown(ModelTurn(""))];
    assert started[..|started| - 1] == base;
    ReplayTwo(started, ThinkingRemoved, TurnShown(ModelTurn("")));
    ReplayAppend(started, head, rs);
    ReplayRendered(base, ModelTurn(""), rs);
  }

  /** The image block and the read-aloud control complete the answered turn. */
  lemma {:induction false} AnswerReplay(h: seq<Turn>, shown: string, prompt: Option<string>, generated: Option<string>)
    ensures Replay(h + [ModelTurn(shown)], ImageEvents(prompt, generated) + SpeakEvents(shown)) ==
            h + [Answered(shown, prompt, generated)]
  {
    var t := ModelTurn(shown);
    var withBlock := t.(block := Answered(shown, prompt, generated).block);
    ImageReplay(h, t, prompt, generated);
    ReplayAppend(h + [t], ImageEvents(prompt, generated), SpeakEvents(shown));
    SpeakReplay(h, withBlock, shown);
  }

  /** `processResponseForImages` leaves the newest turn with the final image block. */
  lemma {:induction false} ImageReplay(h: seq<Turn>, t: Turn, prompt: Option<string>, generated: Option<string>)
    ensures Replay(h + [t], ImageEvents(prompt, generated)) ==
            h + [match prompt case None => t case Some(p) => t.(block := FinalBlock(p, generated))]
  {
    match prompt
    case None =>
      assert ImageEvents(prompt, generated) == [];
    case Some(p) =>
      var a, b, c := BlockSet(Loading), ImageRequested(p), BlockSet(FinalBlock(p, generated));
      ReplayThree(h + [t], a, b, c);
      ApplyToLast(h, t, a);
      ApplyToLast(h, t.(block := Loading), b);
      ApplyToLast(h, t.(block := Loading), c);
  }

  /** The read-aloud control, when added, records the shown text on the newest turn. */
  lemma {:induction false} SpeakReplay(h: seq<Turn>, t: Turn, shown: string)
    ensures Replay(h + [t], SpeakEvents(shown)) ==
            h + [if shown != "" then t.(speaker := Some(shown)) else t]
  {
    if shown != "" {
      ReplayOne(h + [t], SpeakerAdded(shown));
      ApplyToLast(h, t, SpeakerAdded(shown));
    } else {
      assert SpeakEvents(shown) == [];
    }
  }

  /** An event applied to a history ending in `t` changes at most that turn. */
  lemma {:induction false} ApplyToLast(h: seq<Turn>, t: Turn, e: Event)
    ensures e.Rendered? ==> Apply(h + [t], e) == h + [t.(text := e.text)]
    ensures e.BlockSet? ==> Apply(h + [t], e) == h + [t.(block := e.block)]
    ensures e.SpeakerAdded? ==> Apply(h + [t], e) == h + [t.(speaker := Some(e.text))]
    ensures Inert(e) ==> Apply(h + [t], e) == h + [t]
  {
    assert (h + [t])[..|h|] == h;
  }

  /**
   * The parts of an admitted message: one or two, the image part first exactly when a
   * file is staged, the text part last exactly when the trimmed text is not empty;
   * assembly fails only when the staged file cannot be read.
   */
  lemma {:induction false} PartsShape(file: Option<File>, userInput: string)
    requires Admits(userInput, file, true)
    ensures BuildParts(file, userInput).None? <==> file.Some? && file.value.dataUrl.None?
    ensures BuildParts(file, userInput).Some? ==>
      var parts := BuildParts(file, userInput).value;
      && 1 <= |parts| <= 2
      && (parts[0].Inline? <==> file.Some?)
      && (file.Some? ==> parts[0] == Inline(Payload(file.value.dataUrl.value), file.value.mimeType))
      && (parts[|parts| - 1] == TextPart(userInput) <==> userInput != "")
      && (forall k :: 0 <= k < |parts| ==> (parts[k].TextPart? <==> k == |parts| - 1 && userInput != ""))
  {
  }

  /** The image part of a file read as `header,data` carries `data` and the file's type. */
  lemma {:induction false} InlineCarriesPayload(mimeType: string, header: string, data: string)
    requires ',' !in header && ',' !in data
    ensures FilePart(File(mimeType, Some(header + "," + data))) == Some(Inline(Some(data), mimeType))
  {
    PayloadOfDataUrl(header, data);
  }

  /**
   * The controls are locked once, before every remote call, and unlocked once, after
   * every remote call, on every path; only the focus and the release of the object URL
   * come after the unlock.
   */
  lemma {:induction false} SubmitLockBrackets(stopping: bool, userInput: string, file: Option<File>, url: nat,
                           reply: Reply, generated: Option<string>)
    ensures var t := SubmitEvents(stopping, userInput, file, url, reply, generated);
      var lock := if stopping then 1 else 0;
      var unlock := |t| - (if file.Some? then 3 else 2);
      && lock < unlock && t[lock] == Locked && t[unlock] == Unlocked && t[unlock + 1] == InputFocused
      && (file.Some? ==> t[unlock + 2] == UrlRevoked(url))
      && (forall j :: 0 <= j < |t| && t[j].Locked? ==> j == lock)
      && (forall j :: 0 <= j < |t| && t[j].Unlocked? ==> j == unlock)
      && (forall j :: 0 <= j < |t| && IsRemoteCall(t[j]) ==> lock < j < unlock)
  {
    var o, e, c := Opening(stopping, userInput, file, url), Exchange(userInput, file, reply, generated), Closing(file, url);
    OpeningLocks(stopping, userInput, file, url);
    ExchangeShape(userInput, file, reply, generated);
    ClosingUnlocks(file, url);
    BracketsJoin(o, e, c, if stopping then 1 else 0);
    if file.Some? {
      assert (o + e + c)[|o| + |e| + 2] == c[2];
    }
  }

  /** `o` locks the controls at `lock` and nowhere else, never unlocks them and calls no remote service. */
  predicate LocksOnceAt(o: seq<Event>, lock: nat) {
    lock < |o| && o[lock] == Locked &&
    forall j :: 0 <= j < |o| ==> (o[j].Locked? ==> j == lock) && !o[j].Unlocked? && !IsRemoteCall(o[j])
  }

  /** `c` starts with the unlock and the focus, and neither locks nor unlocks again nor calls a remote service. */
  predicate UnlocksFirst(c: seq<Event>) {
    2 <= |c| && c[0] == Unlocked && c[1] == InputFocused &&
    forall j :: 0 <= j < |c| ==> !c[j].Locked? && (c[j].Unlocked? ==> j == 0) && !IsRemoteCall(c[j])
  }

  /** The steps before the `try` lock the controls once, after stopping recognition if it was listening. */
  lemma {:induction false} OpeningLocks(stopping: bool, userInput: string, file: Option<File>, url: nat)
    ensures LocksOnceAt(Opening(stopping, userInput, file, url), if stopping then 1 else 0)
  {
    var o := Opening(stopping, userInput, file, url);
    var tail := [TurnShown(UserTurn(userInput, UploadOf(file, url))), AttachmentCleared, TurnShown(ThinkingTurn)];
    var stop: seq<Event> := if stopping then [RecognitionStopped] else [];
    var created: seq<Event> := if file.Some? then [UrlCreated(url)] else [];
    assert o == stop + [Locked] + created + tail;
    var lock := if stopping then 1 else 0;
    forall j | 0 <= j < |o|
      ensures (o[j].Locked? ==> j == lock) && !o[j].Unlocked? && !IsRemoteCall(o[j])
    {
      if j < |stop| {
        assert o[j] == stop[j];
      } else if j == |stop| {
        assert o[j] == Locked;
      } else if j < |stop| + 1 + |created| {
        assert o[j] == created[j - |stop| - 1];
      } else {
        assert o[j] == tail[j - |stop| - 1 - |created|];
      }
    }
  }

  /** The `finally` block unlocks the controls first, then focuses the entry and revokes the object URL, if any. */
  lemma {:induction false} ClosingUnlocks(file: Option<File>, url: nat)
    ensures UnlocksFirst(Closing(file, url))
    ensures |Closing(file, url)| == if file.Some? then 3 else 2
    ensures file.Some? ==> Closing(file, url)[2] == UrlRevoked(url)
  {
  }

  /** Locking in the first part, unlocking at the head of the last and neither in between brackets every remote call. */
  lemma {:induction false} BracketsJoin(o: seq<Event>, e: seq<Event>, c: seq<Event>, lock: nat)
    requires LocksOnceAt(o, lock) && NoLock(e) && UnlocksFirst(c)
    ensures var t := o + e + c;
      var unlock := |o| + |e|;
      && lock < unlock && t[lock] == Locked && t[unlock] == Unlocked && t[unlock + 1] == InputFocused
      && (forall j :: 0 <= j < |t| && t[j].Locked? ==> j == lock)
      && (forall j :: 0 <= j < |t| && t[j].Unlocked? ==> j == unlock)
      && (forall j :: 0 <= j < |t| && IsRemoteCall(t[j]) ==> lock < j < unlock)
  {
    var t := o + e + c;
    assert t[lock] == o[lock];
    assert t[|o| + |e|] == c[0] && t[|o| + |e| + 1] == c[1];
    forall j | 0 <= j < |t|
      ensures t[j].Locked? ==> j == lock
      ensures t[j].Unlocked? ==> j == |o| + |e|
      ensures IsRemoteCall(t[j]) ==> lock < j < |o| + |e|
    {
      if j < |o| {
        assert t[j] == o[j];
      } else if j < |o| + |e| {
        assert t[j] == e[j - |o|];
      } else {
        assert t[j] == c[j - |o| - |e|];
      }
    }
  }

  /** Events that neither lock nor unlock the controls. */
  predicate NoLock(es: seq<Event>) {
    forall k :: 0 <= k < |es| ==> !es[k].Locked? && !es[k].Unlocked?
  }

  /** The `try` and `catch` blocks neither lock nor unlock the controls. */
  lemma {:induction false} ExchangeShape(userInput: string, file: Option<File>, reply: Reply, generated: Option<string>)
    ensures NoLock(Exchange(userInput, file, reply, generated))
  {
    if BuildParts(file, userInput).Some? && reply.Streamed? {
      StreamedShape(userInput, file, reply, generated);
    } else {
      CaughtShape(userInput, file, reply, generated);
    }
  }

  /** Without a stream the exchange is at most the send, then the apology. */
  lemma {:induction false} CaughtShape(userInput: string, file: Option<File>, reply: Reply, generated: Option<string>)
    requires BuildParts(file, userInput).None? || reply.Refused?
    ensures NoLock(Exchange(userInput, file, reply, generated))
  {
  }

  /** A streamed reply's exchange neither locks nor unlocks the controls. */
  lemma {:induction false} StreamedShape(userInput: string, file: Option<File>, reply: Reply, generated: Option<string>)
    requires BuildParts(file, userInput).Some? && reply.Streamed?
    ensures NoLock(Exchange(userInput, file, reply, generated))
  {
    ExchangeStreamed(userInput, file, reply, generated);
    StreamingShape(reply.chunks, reply.fails, generated);
    NoLockJoin([MessageSent(BuildParts(file, userInput).value)], Streaming(reply.chunks, reply.fails, generated));
  }

  /** A streamed reply neither locks nor unlocks the controls. */
  lemma {:induction false} StreamingShape(chunks: seq<string>, fails: bool, generated: Option<string>)
    ensures NoLock(Streaming(chunks, fails, generated))
  {
    var head := [ThinkingRemoved, TurnShown(ModelTurn(""))];
    RendersShape(chunks);
    NoLockJoin(head, Renders(chunks));
    if !fails {
      var full := Concat(chunks);
      ImageAndSpeakShape(ImagePrompt(full), generated, Shown(full));
    }
    NoLockJoin(head + Renders(chunks), StreamEnd(chunks, fails, generated));
  }

  /** The re-renders neither lock nor unlock the controls. */
  lemma {:induction false} RendersShape(chunks: seq<string>)
    ensures NoLock(Renders(chunks))
  {
    if chunks != [] {
      RendersShape(chunks[..|chunks| - 1]);
      NoLockJoin(Renders(chunks[..|chunks| - 1]), [Rendered(Shown(Concat(chunks)))]);
    }
  }

  /** The image and read-aloud steps neither lock nor unlock the controls. */
  lemma {:induction false} ImageAndSpeakShape(prompt: Option<string>, generated: Option<string>, spoken: string)
    ensures NoLock(ImageEvents(prompt, generated) + SpeakEvents(spoken))
  {
    var image := ImageEvents(prompt, generated);
    var speak := SpeakEvents(spoken);
    if prompt.Some? {
      var p := prompt.value;
      NoLockThree(BlockSet(Loading), ImageRequested(p), BlockSet(FinalBlock(p, generated)));
    }
    if spoken != "" {
      NoLockOne(SpeakerAdded(spoken));
    }
    NoLockJoin(image, speak);
  }

  /** One event that neither locks nor unlocks. */
  lemma {:induction false} NoLockOne(a: Event)
    requires !a.Locked? && !a.Unlocked?
    ensures NoLock([a])
  {
    forall k | 0 <= k < 1 ensures ![a][k].Locked? && ![a][k].Unlocked? {
      assert [a][k] == a;
    }
  }

  /** Three events that neither lock nor unlock. */
  lemma {:induction false} NoLockThree(a: Event, b: Event, c: Event)
    requires !a.Locked? && !a.Unlocked? && !b.Locked? && !b.Unlocked? && !c.Locked? && !c.Unlocked?
    ensures NoLock([a, b, c])
  {
    forall k | 0 <= k < 3 ensures ![a, b, c][k].Locked? && ![a, b, c][k].Unlocked? {
      assert [a, b, c][k] in {a, b, c};
    }
  }

  /** No lock or unlock in two runs means none in their concatenation. */
  lemma {:induction false} NoLockJoin(a: seq<Event>, b: seq<Event>)
    requires NoLock(a) && NoLock(b)
    ensures NoLock(a + b)
  {
    forall k | 0 <= k < |a + b| ensures !(a + b)[k].Locked? && !(a + b)[k].Unlocked? {
      if k >= |a| { assert (a + b)[k] == b[k - |a|]; }
    }
  }

  /** The turns a submission adds keep every read-aloud control reading its own turn's text. */
  lemma {:induction false} SubmitKeepsSpeakers(h: seq<Turn>, userInput: string, file: Option<File>, url: nat,
                                               reply: Reply, generated: Option<string>)
    requires SpeakersMatch(h)
    ensures SpeakersMatch(h + SubmitTurns(userInput, file, url, reply, generated))
  {
    var added := SubmitTurns(userInput, file, url, reply, generated);
    var all := h + added;
    forall k | 0 <= k < |all| && all[k].speaker.Some?
      ensures all[k].speaker.value == all[k].text
    {
      if k >= |h| {
        assert all[k] == added[k - |h|];
      }
    }
  }
}

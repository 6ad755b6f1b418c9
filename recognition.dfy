/**
 * The transcript the speech-recognition `onresult` handler writes into the text entry
 * (index.tsx:217-228): the final transcripts from `resultIndex` on, concatenated in
 * order, followed by the interim ones.
 */
module Recognition {
  /** One entry of `event.results`: whether it is final, and the transcript of its first alternative. */
  datatype SpeechResult = SpeechResult(isFinal: bool, transcript: string)

  /** The final transcripts of `rs`, in order. */
  function Finals(rs: seq<SpeechResult>): string {
    if rs == [] then []
    else Finals(rs[..|rs| - 1]) + (if rs[|rs| - 1].isFinal then rs[|rs| - 1].transcript else [])
  }

  /** The interim transcripts of `rs`, in order. */
  function Interims(rs: seq<SpeechResult>): string {
    if rs == [] then []
    else Interims(rs[..|rs| - 1]) + (if rs[|rs| - 1].isFinal then [] else rs[|rs| - 1].transcript)
  }

  /** The results the loop visits: those from `index` on (none when `index` is past the end). */
  function From(rs: seq<SpeechResult>, index: nat): seq<SpeechResult> {
    if index <= |rs| then rs[index..] else []
  }

  /** The `for` loop of the `onresult` handler and the value it assigns to the text entry. */
  method Transcript(results: seq<SpeechResult>, resultIndex: nat) returns (t: string)
    ensures t == Finals(From(results, resultIndex)) + Interims(From(results, resultIndex))
  {
    var interim, final := "", "";
    var i := resultIndex;
    while i < |results|
      invariant resultIndex <= |results| ==> resultIndex <= i <= |results|
      invariant resultIndex > |results| ==> i == resultIndex
      invariant final == Finals(if i <= |results| then results[resultIndex..i] else [])
      invariant interim == Interims(if i <= |results| then results[resultIndex..i] else [])
    {
      assert results[resultIndex..i + 1][..i - resultIndex] == results[resultIndex..i];
      if results[i].isFinal {
        final := final + results[i].transcript;
      } else {
        interim := interim + results[i].transcript;
      }
      i := i + 1;
    }
    if resultIndex <= |results| {
      assert results[resultIndex..i] == results[resultIndex..];
    }
    t := final + interim;
  }

  /** Splitting the results splits both transcripts: each is built piece by piece, in order. */
  lemma {:induction false} TranscriptsAppend(a: seq<SpeechResult>, b: seq<SpeechResult>)
    ensures Finals(a + b) == Finals(a) + Finals(b)
    ensures Interims(a + b) == Interims(a) + Interims(b)
  {
    FinalsAppend(a, b);
    InterimsAppend(a, b);
  }

  /** The final transcripts of two runs of results, one after the other. */
  lemma {:induction false} FinalsAppend(a: seq<SpeechResult>, b: seq<SpeechResult>)
    ensures Finals(a + b) == Finals(a) + Finals(b)
    decreases |b|
  {
    if b == [] {
      assert a + b == a;
    } else {
      var b' := b[..|b| - 1];
      FinalsAppend(a, b');
      assert (a + b)[..|a + b| - 1] == a + b';
      var last := if b[|b| - 1].isFinal then b[|b| - 1].transcript else [];
      assert Finals(a + b) == (Finals(a) + Finals(b')) + last;
      assert Finals(b) == Finals(b') + last;
    }
  }

  /** The interim transcripts of two runs of results, one after the other. */
  lemma {:induction false} InterimsAppend(a: seq<SpeechResult>, b: seq<SpeechResult>)
    ensures Interims(a + b) == Interims(a) + Interims(b)
    decreases |b|
  {
    if b == [] {
      assert a + b == a;
    } else {
      var b' := b[..|b| - 1];
      InterimsAppend(a, b');
      assert (a + b)[..|a + b| - 1] == a + b';
      var last := if b[|b| - 1].isFinal then [] else b[|b| - 1].transcript;
      assert Interims(a + b) == (Interims(a) + Interims(b')) + last;
      assert Interims(b) == Interims(b') + last;
    }
  }

  /**
   * A result `r` between the results `a` and `b` lands in exactly one of the two parts,
   * at its place in order: a final result's transcript sits in the final part between
   * theirs and adds nothing to the interim part, and the other way round for an interim one.
   */
  lemma {:induction false} TranscriptPlaced(a: seq<SpeechResult>, r: SpeechResult, b: seq<SpeechResult>)
    ensures r.isFinal ==>
      && Finals(a + [r] + b) == Finals(a) + r.transcript + Finals(b)
      && Interims(a + [r] + b) == Interims(a) + Interims(b)
    ensures !r.isFinal ==>
      && Finals(a + [r] + b) == Finals(a) + Finals(b)
      && Interims(a + [r] + b) == Interims(a) + r.transcript + Interims(b)
  {
    TranscriptsAppend(a + [r], b);
    TranscriptsAppend(a, [r]);
    TranscriptsOfOne(r);
  }

  /** A single result contributes its transcript to exactly the part its finality selects. */
  lemma {:induction false} TranscriptsOfOne(r: SpeechResult)
    ensures Finals([r]) == if r.isFinal then r.transcript else []
    ensures Interims([r]) == if r.isFinal then [] else r.transcript
  {
    assert [r][..0] == [];
  }

  /** The two parts together are as long as all transcripts: no text is lost or repeated. */
  lemma {:induction false} TranscriptsLength(rs: seq<SpeechResult>)
    ensures |Finals(rs)| + |Interims(rs)| == TotalLength(rs)
  {
    if rs != [] {
      TranscriptsLength(rs[..|rs| - 1]);
    }
  }

  /** The summed length of all transcripts. */
  function TotalLength(rs: seq<SpeechResult>): nat {
    if rs == [] then 0 else TotalLength(rs[..|rs| - 1]) + |rs[|rs| - 1].transcript|
  }
}

/**
 * Choice of the speech-synthesis voice (index.tsx:124-136) and the language of the
 * utterance that reads a reply aloud (index.tsx:138-151).
 */
module Voices {
  import opened Options
  import opened Strings

  datatype Voice = Voice(name: string, lang: string)

  /** The position of the voice `voices.find(v => v.lang === lang)` returns: the first with exactly that language. */
  function FindLang(voices: seq<Voice>, lang: string): (r: Option<nat>)
    ensures r.Some? ==> r.value < |voices| && voices[r.value].lang == lang
    ensures r.Some? ==> forall j :: 0 <= j < r.value ==> voices[j].lang != lang
    ensures r.None? ==> forall j :: 0 <= j < |voices| ==> voices[j].lang != lang
  {
    if voices == [] then None
    else if voices[0].lang == lang then Some(0)
    else match FindLang(voices[1..], lang)
      case None => None
      case Some(i) => Some(i + 1)
  }

  /** The position of the voice `voices.find(v => v.lang.startsWith('es-'))` returns: the first Spanish voice of any region. */
  function FindSpanish(voices: seq<Voice>): (r: Option<nat>)
    ensures r.Some? ==> r.value < |voices| && StartsWith(voices[r.value].lang, "es-")
    ensures r.Some? ==> forall j :: 0 <= j < r.value ==> !StartsWith(voices[j].lang, "es-")
    ensures r.None? ==> forall j :: 0 <= j < |voices| ==> !StartsWith(voices[j].lang, "es-")
  {
    if voices == [] then None
    else if StartsWith(voices[0].lang, "es-") then Some(0)
    else match FindSpanish(voices[1..])
      case None => None
      case Some(i) => Some(i + 1)
  }

  /** The position of the voice the `onvoiceschanged` handler keeps: the four searches, in order. */
  function ChooseIndex(voices: seq<Voice>): Option<nat> {
    var es := FindLang(voices, "es-ES");
    if es.Some? then es else
    var us := FindLang(voices, "es-US");
    if us.Some? then us else
    var mx := FindLang(voices, "es-MX");
    if mx.Some? then mx else
    FindSpanish(voices)
  }

  /** `speechVoice`, as the handler sets it (`null` is None). */
  function ChooseVoice(voices: seq<Voice>): (r: Option<Voice>)
    ensures r.Some? ==> r.value in voices
  {
    match ChooseIndex(voices)
    case None => None
    case Some(i) => Some(voices[i])
  }

  /** Preference rank of a language: es-ES, es-US, es-MX, any other `es-`, and 4 for the rest. */
  function Tier(lang: string): nat {
    if lang == "es-ES" then 0
    else if lang == "es-US" then 1
    else if lang == "es-MX" then 2
    else if StartsWith(lang, "es-") then 3
    else 4
  }

  /**
   * The chosen voice is the first one of the best rank present, and there is none
   * exactly when no voice speaks any `es-` language.
   */
  lemma {:induction false} ChooseIndexBest(voices: seq<Voice>)
    ensures ChooseIndex(voices).None? <==> forall j :: 0 <= j < |voices| ==> Tier(voices[j].lang) == 4
    ensures ChooseIndex(voices).Some? ==>
      var i := ChooseIndex(voices).value;
      && i < |voices| && Tier(voices[i].lang) < 4
      && (forall j :: 0 <= j < |voices| ==> Tier(voices[i].lang) <= Tier(voices[j].lang))
      && (forall j :: 0 <= j < i ==> Tier(voices[j].lang) != Tier(voices[i].lang))
  {
    assert StartsWith("es-ES", "es-") && StartsWith("es-US", "es-") && StartsWith("es-MX", "es-");
    forall j | 0 <= j < |voices|
      ensures Tier(voices[j].lang) < 4 <==> StartsWith(voices[j].lang, "es-")
    {
      var l := voices[j].lang;
      if l == "es-ES" || l == "es-US" || l == "es-MX" {
        assert StartsWith(l, "es-");
      }
    }
  }

  /** `speechVoice?.lang || 'es-ES'`: the utterance language, falling back to Spain's Spanish. */
  function UtteranceLang(voice: Option<Voice>): string {
    if voice.Some? && voice.value.lang != "" then voice.value.lang else "es-ES"
  }

  /** Whatever voices are installed, replies are read aloud in some Spanish locale. */
  lemma {:induction false} SpokenInSpanish(voices: seq<Voice>)
    ensures StartsWith(UtteranceLang(ChooseVoice(voices)), "es-")
  {
    ChooseIndexBest(voices);
    assert StartsWith("es-ES", "es-");
    var v := ChooseVoice(voices);
    if v.Some? {
      var i := ChooseIndex(voices).value;
      var l := voices[i].lang;
      if l == "es-ES" || l == "es-US" || l == "es-MX" {
        assert StartsWith(l, "es-");
      }
    }
  }
}

/**
 * Text processing around the image directive `[GENERATE_IMAGE: prompt]` that the
 * model embeds in its replies (index.tsx:332, 359-361, 508).
 *
 * The source uses two regular expressions: `/\[GENERATE_IMAGE:.*?\]/g` with
 * `replace(…, '')` to delete every directive from the text that is shown and
 * spoken, and `/\[GENERATE_IMAGE:(.*?)\]/` with `match` to find the first one and
 * its prompt. Both are modelled here as left-to-right scans with the semantics of
 * ECMA-262 section 22.2: `.` matches any character except a line terminator, the
 * lazy `.*?` stops at the nearest following `]`, and a global replace resumes
 * scanning right after each match, so matches never overlap.
 * `String.prototype.trim` removes the WhiteSpace (ECMA-262 section 12.2) and
 * LineTerminator (section 12.3) characters from both ends.
 */
module Directive {
  import opened Options

  /** The literal text that opens a directive. */
  const Open: string := "[GENERATE_IMAGE:"

  /** LineTerminator of ECMA-262 section 12.3: LF, CR, LINE SEPARATOR, PARAGRAPH SEPARATOR. */
  predicate IsLineTerminator(c: char) {
    c == '\n' || c == '\r' || c == '\U{2028}' || c == '\U{2029}'
  }

  /** WhiteSpace of ECMA-262 section 12.2: TAB, VT, FF, ZWNBSP and the Unicode space separators (Zs). */
  predicate IsWhiteSpace(c: char) {
    c == '\t' || c == '\U{000B}' || c == '\U{000C}' || c == '\U{FEFF}' ||
    c == ' ' || c == '\U{00A0}' || c == '\U{1680}' || ('\U{2000}' <= c <= '\U{200A}') ||
    c == '\U{202F}' || c == '\U{205F}' || c == '\U{3000}'
  }

  /** The characters `trim` removes. */
  predicate IsTrimmable(c: char) {
    IsWhiteSpace(c) || IsLineTerminator(c)
  }

  /** The end of the run of trimmable characters that starts at `i`. */
  function LeadEnd(s: string, i: nat): (j: nat)
    requires i <= |s|
    ensures i <= j <= |s|
    ensures forall k :: i <= k < j ==> IsTrimmable(s[k])
    ensures j < |s| ==> !IsTrimmable(s[j])
    decreases |s| - i
  {
    if i < |s| && IsTrimmable(s[i]) then LeadEnd(s, i + 1) else i
  }

  /** The start of the run of trimmable characters that ends at `j`, looking no further back than `lo`. */
  function TrailStart(s: string, lo: nat, j: nat): (k: nat)
    requires lo <= j <= |s|
    ensures lo <= k <= j
    ensures forall q :: k <= q < j ==> IsTrimmable(s[q])
    ensures k > lo ==> !IsTrimmable(s[k - 1])
    decreases j
  {
    if j > lo && IsTrimmable(s[j - 1]) then TrailStart(s, lo, j - 1) else j
  }

  /**
   * `String.prototype.trim`: the infix of `s` left once the trimmable characters at
   * both ends are gone; everything removed is trimmable and the result neither starts
   * nor ends with a trimmable character.
   */
  function Trim(s: string): (r: string)
    ensures var i := LeadEnd(s, 0);
      && i + |r| <= |s| && r == s[i..i + |r|]
      && (forall k :: 0 <= k < i ==> IsTrimmable(s[k]))
      && (forall k :: i + |r| <= k < |s| ==> IsTrimmable(s[k]))
    ensures r != [] ==> !IsTrimmable(r[0]) && !IsTrimmable(r[|r| - 1])
  {
    var i := LeadEnd(s, 0);
    var j := TrailStart(s, i, |s|);
    assert j > i ==> !IsTrimmable(s[i]);
    s[i..j]
  }

  /** A string that neither starts nor ends with a trimmable character is its own trim. */
  lemma {:induction false} TrimClean(s: string)
    requires s != [] ==> !IsTrimmable(s[0]) && !IsTrimmable(s[|s| - 1])
    ensures Trim(s) == s
  {
  }

  /** Trimming twice is trimming once. */
  lemma {:induction false} TrimIdempotent(s: string)
    ensures Trim(Trim(s)) == Trim(s)
  {
    TrimClean(Trim(s));
  }

  /** The trim is empty exactly when every character is trimmable. */
  lemma {:induction false} TrimEmptyIff(s: string)
    ensures Trim(s) == [] <==> forall k :: 0 <= k < |s| ==> IsTrimmable(s[k])
  {
  }

  /** A body with neither `]` nor a line terminator: what the lazy `.*?` of a directive spans. */
  predicate IsBody(body: string) {
    forall k :: 0 <= k < |body| ==> body[k] != ']' && !IsLineTerminator(body[k])
  }

  /** Text holding no `[`, where no directive can start. */
  predicate IsPlain(t: string) {
    forall k :: 0 <= k < |t| ==> t[k] != '['
  }

  /**
   * `p` is a place where the lazy body `.*?\]` of a directive whose body starts at
   * `k` can end: a `]` with no line terminator between `k` and it.
   */
  ghost predicate Closes(s: string, k: nat, p: nat) {
    k <= p < |s| && s[p] == ']' && forall q :: k <= q < p ==> !IsLineTerminator(s[q])
  }

  /** The index of the `]` that closes a directive body starting at `k`: the nearest one, if any. */
  function CloseFrom(s: string, k: nat): (r: Option<nat>)
    ensures r.Some? ==> k <= r.value < |s| && s[r.value] == ']'
    decreases |s| - k
  {
    if k >= |s| then None
    else if s[k] == ']' then Some(k)
    else if IsLineTerminator(s[k]) then None
    else CloseFrom(s, k + 1)
  }

  /** The search for the closing `]` finds the nearest place where the body can end, and fails only when there is none. */
  lemma {:induction false} CloseFromNearest(s: string, k: nat)
    ensures CloseFrom(s, k).Some? ==>
      Closes(s, k, CloseFrom(s, k).value) && forall p :: Closes(s, k, p) ==> CloseFrom(s, k).value <= p
    ensures CloseFrom(s, k).None? ==> forall p :: !Closes(s, k, p)
    decreases |s| - k
  {
    if k < |s| && s[k] != ']' {
      if IsLineTerminator(s[k]) {
        assert forall p :: Closes(s, k, p) ==> p == k;
      } else {
        CloseFromNearest(s, k + 1);
        assert forall p: nat :: Closes(s, k, p) <==> p > k && Closes(s, k + 1, p);
      }
    }
  }

  /** The characters of `Open` that belong at indices `j` and on, for an opening at `i`, stand there in `s`. */
  predicate OpensFrom(s: string, i: nat, j: nat)
    requires i <= j <= i + |Open| && j <= |s|
    decreases |s| - j
  {
    j == i + |Open| || (j < |s| && s[j] == Open[j - i] && OpensFrom(s, i, j + 1))
  }

  /** The opening of a directive stands at index `i` of `s`. */
  predicate OpensAt(s: string, i: nat) {
    i <= |s| && OpensFrom(s, i, i)
  }

  /** The comparison with `Open`, character by character, is a comparison of the whole stretch. */
  lemma {:induction false} OpensFromIff(s: string, i: nat, j: nat)
    requires i <= j <= i + |Open| && j <= |s|
    ensures OpensFrom(s, i, j) <==>
      i + |Open| <= |s| && forall k :: j <= k < i + |Open| ==> s[k] == Open[k - i]
    decreases |s| - j
  {
    if j < i + |Open| && j < |s| {
      OpensFromIff(s, i, j + 1);
    }
  }

  /** The opening stands at `i` exactly when the text there spells it out. */
  lemma {:induction false} OpensAtIff(s: string, i: nat)
    ensures OpensAt(s, i) <==> i + |Open| <= |s| && forall k :: i <= k < i + |Open| ==> s[k] == Open[k - i]
  {
    if i <= |s| {
      OpensFromIff(s, i, i);
    }
  }

  /** The end (exclusive) of the directive that starts at index `i` of `s`, if one does. */
  function MatchAt(s: string, i: nat): (r: Option<nat>)
    ensures r.Some? ==> OpensAt(s, i) && i + |Open| < r.value <= |s| && s[r.value - 1] == ']'
  {
    if OpensAt(s, i) then
      match CloseFrom(s, i + |Open|)
      case Some(p) => Some(p + 1)
      case None => None
    else None
  }

  /** `s[i..]` with every directive deleted, scanning as a global regular-expression replace does. */
  function StripFrom(s: string, i: nat): (r: string)
    requires i <= |s|
    decreases |s| - i
  {
    if i == |s| then []
    else match MatchAt(s, i)
      case Some(e) => StripFrom(s, e)
      case None => [s[i]] + StripFrom(s, i + 1)
  }

  /** `s.replace(/\[GENERATE_IMAGE:.*?\]/g, '')` */
  function Strip(s: string): string {
    StripFrom(s, 0)
  }

  /** The first directive at or after `i`, as its start and end (exclusive). */
  function FirstFrom(s: string, i: nat): (r: Option<(nat, nat)>)
    ensures r.Some? ==> i <= r.value.0 && MatchAt(s, r.value.0) == Some(r.value.1)
    decreases |s| - i
  {
    if i >= |s| then None
    else match MatchAt(s, i)
      case Some(e) => Some((i, e))
      case None => FirstFrom(s, i + 1)
  }

  /** No directive starts between `i` and the first one found, nor anywhere after `i` when none is found. */
  lemma {:induction false} FirstFromIsFirst(s: string, i: nat)
    ensures FirstFrom(s, i).Some? ==> forall j :: i <= j < FirstFrom(s, i).value.0 ==> MatchAt(s, j).None?
    ensures FirstFrom(s, i).None? ==> forall j :: i <= j < |s| ==> MatchAt(s, j).None?
    decreases |s| - i
  {
    if i < |s| && MatchAt(s, i).None? {
      FirstFromIsFirst(s, i + 1);
    }
  }

  /**
   * `s.match(/\[GENERATE_IMAGE:(.*?)\]/)[1]`: the text between the opening of the
   * first directive and its closing `]`, or None when `s` holds no directive.
   */
  function Capture(s: string): Option<string> {
    match FirstFrom(s, 0)
    case None => None
    case Some((a, e)) => Some(s[a + |Open|..e - 1])
  }

  /** There is a capture exactly when a directive starts somewhere in the text. */
  lemma {:induction false} CaptureNoneIff(s: string)
    ensures Capture(s).None? <==> forall j :: 0 <= j < |s| ==> MatchAt(s, j).None?
  {
    FirstFromIsFirst(s, 0);
  }

  /** A capture holds neither a `]` nor a line terminator: it is what the lazy `.*?` can span. */
  lemma {:induction false} CaptureBody(s: string)
    ensures Capture(s).Some? ==> IsBody(Capture(s).value)
  {
    if FirstFrom(s, 0).Some? {
      var (a, e) := FirstFrom(s, 0).value;
      var k := a + |Open|;
      CloseFromNearest(s, k);
      assert CloseFrom(s, k) == Some(e - 1);
      forall q | k <= q < e - 1 ensures s[q] != ']' {
        assert !Closes(s, k, q);
      }
      assert Capture(s).value == s[k..e - 1];
    }
  }

  /**
   * The text shown in the model's turn and read aloud: directives deleted, then trimmed.
   * It is never longer than the response and neither starts nor ends with white space.
   */
  function Shown(s: string): (r: string)
    ensures |r| <= |s|
    ensures r != [] ==> !IsTrimmable(r[0]) && !IsTrimmable(r[|r| - 1])
  {
    StripNoLonger(s, 0);
    Trim(Strip(s))
  }

  /** With no directive at or after `i`, the strip keeps the rest of the text unchanged. */
  lemma {:induction false} StripWithoutDirective(s: string, i: nat)
    requires i <= |s| && FirstFrom(s, i).None?
    ensures StripFrom(s, i) == s[i..]
    decreases |s| - i
  {
    if i < |s| {
      StripWithoutDirective(s, i + 1);
      assert s[i..] == [s[i]] + s[i + 1..];
    }
  }

  /** The strip keeps everything before the first directive, deletes that directive and carries on after it. */
  lemma {:induction false} StripAtFirst(s: string, i: nat, a: nat, e: nat)
    requires i <= |s| && FirstFrom(s, i) == Some((a, e))
    ensures a <= e && StripFrom(s, i) == s[i..a] + StripFrom(s, e)
    decreases |s| - i
  {
    if i < a {
      assert MatchAt(s, i).None? && FirstFrom(s, i + 1) == Some((a, e));
      StripAtFirst(s, i + 1, a, e);
      ConsSlice(s, i, a, StripFrom(s, e));
    } else {
      EmptySlice(s, i, StripFrom(s, e));
    }
  }

  /** An empty stretch adds nothing in front of `rest`. */
  lemma {:induction false} EmptySlice(s: string, i: nat, rest: string)
    requires i <= |s|
    ensures s[i..i] + rest == rest
  {
    assert s[i..i] == [];
  }

  /** The strip never lengthens the text. */
  lemma {:induction false} StripNoLonger(s: string, i: nat)
    requires i <= |s|
    ensures |StripFrom(s, i)| <= |s| - i
    decreases |s| - i
  {
    if i < |s| {
      match MatchAt(s, i)
      case Some(e) => StripNoLonger(s, e);
      case None => StripNoLonger(s, i + 1);
    }
  }

  /** The strip changes the text exactly when the text holds a directive. */
  lemma {:induction false} StripUnchangedIff(s: string)
    ensures Strip(s) == s <==> Capture(s).None?
  {
    match FirstFrom(s, 0)
    case None =>
      StripWithoutDirective(s, 0);
    case Some((a, e)) =>
      StripAtFirst(s, 0, a, e);
      StripNoLonger(s, e);
  }

  /** An empty reply shows nothing. */
  lemma {:induction false} ShownEmpty()
    ensures Shown("") == ""
  {
    assert Strip("") == "";
  }

  /** Text without a directive is only trimmed. */
  lemma {:induction false} ShownWithoutDirective(s: string)
    requires Capture(s).None?
    ensures Shown(s) == Trim(s)
  {
    StripUnchangedIff(s);
  }

  /** A stretch without `[` is kept as it is: no directive can start there. */
  lemma {:induction false} StripKeepsPlain(s: string, i: nat, j: nat)
    requires i <= j <= |s|
    requires forall k :: i <= k < j ==> s[k] != '['
    ensures StripFrom(s, i) == s[i..j] + StripFrom(s, j)
    decreases j - i
  {
    if i < j {
      NoMatchWithoutBracket(s, i);
      StripKeepsPlain(s, i + 1, j);
      ConsSlice(s, i, j, StripFrom(s, j));
    } else {
      assert s[i..j] == [];
    }
  }

  /** Splitting the first character off a slice, ahead of more text. */
  lemma {:induction false} ConsSlice(s: string, i: nat, j: nat, rest: string)
    requires i < j <= |s|
    ensures s[i..j] + rest == [s[i]] + (s[i + 1..j] + rest)
  {
    assert s[i..j] == [s[i]] + s[i + 1..j];
  }

  /** No directive starts at a character other than `[`. */
  lemma {:induction false} NoMatchWithoutBracket(s: string, i: nat)
    requires i < |s| && s[i] != '['
    ensures MatchAt(s, i).None?
  {
    OpensAtIff(s, i);
    assert s[i] != Open[i - i];
  }

  /** A directive body with neither `]` nor a line terminator is closed by the `]` after it. */
  lemma {:induction false} CloseAfterBody(s: string, k: nat, p: nat)
    requires k <= p < |s| && s[p] == ']'
    requires forall q :: k <= q < p ==> s[q] != ']' && !IsLineTerminator(s[q])
    ensures CloseFrom(s, k) == Some(p)
    decreases p - k
  {
    if k < p {
      CloseAfterBody(s, k + 1, p);
    }
  }

  /** Every directive-free stretch is skipped by the search for the first directive. */
  lemma {:induction false} FirstKeepsPlain(s: string, i: nat, j: nat)
    requires i <= j <= |s|
    requires forall k :: i <= k < j ==> s[k] != '['
    ensures FirstFrom(s, i) == FirstFrom(s, j)
    decreases j - i
  {
    if i < j {
      NoMatchWithoutBracket(s, i);
      FirstKeepsPlain(s, i + 1, j);
    }
  }

  /** A directive with such a body, placed after `a`, is matched right where it starts and ends after its `]`. */
  lemma {:induction false} DirectiveAt(a: string, body: string, b: string)
    requires IsBody(body)
    ensures MatchAt(a + Open + body + "]" + b, |a|) == Some(|a| + |Open| + |body| + 1)
  {
    var s := a + Open + body + "]" + b;
    var k := |a| + |Open|;
    var p := k + |body|;
    forall j | |a| <= j < k ensures s[j] == Open[j - |a|] {
    }
    OpensAtIff(s, |a|);
    assert s[p] == ']';
    forall q | k <= q < p ensures s[q] != ']' && !IsLineTerminator(s[q]) {
      assert s[q] == body[q - k];
    }
    CloseAfterBody(s, k, p);
  }

  /** A directive with such a body, then plain text: the strip from the directive on keeps only that text. */
  lemma {:induction false} StripDirectiveThenPlain(a: string, body: string, b: string)
    requires IsBody(body) && IsPlain(b)
    ensures StripFrom(a + Open + body + "]" + b, |a|) == b
  {
    var s := a + Open + body + "]" + b;
    var e := |a| + |Open| + |body| + 1;
    DirectiveAt(a, body, b);
    forall k | e <= k < |s| ensures s[k] != '[' {
      assert s[k] == b[k - e];
    }
    StripKeepsPlain(s, e, |s|);
    assert s[e..] == b;
  }

  /**
   * A reply holding one directive between two stretches of plain text (no `[`): the
   * strip deletes exactly the directive and keeps the text on both sides as it is.
   */
  lemma {:induction false} StripOneDirective(a: string, body: string, b: string)
    requires IsPlain(a) && IsBody(body) && IsPlain(b)
    ensures Strip(a + Open + body + "]" + b) == a + b
  {
    var s := a + Open + body + "]" + b;
    forall k | 0 <= k < |a| ensures s[k] != '[' {
      assert s[k] == a[k];
    }
    StripKeepsPlain(s, 0, |a|);
    StripDirectiveThenPlain(a, body, b);
    assert s[0..|a|] == a;
  }

  /**
   * The same with one `[` in front that opens no directive: the strip keeps it and
   * deletes the directive, so the text on the two sides of the directive meets.
   */
  lemma {:induction false} StripAfterBracket(p: string, body: string, q: string)
    requires p != [] && IsPlain(p[1..]) && IsBody(body) && IsPlain(q)
    requires MatchAt(p + Open + body + "]" + q, 0).None?
    ensures Strip(p + Open + body + "]" + q) == p + q
  {
    var s := p + Open + body + "]" + q;
    assert StripFrom(s, 0) == [s[0]] + StripFrom(s, 1);
    forall k | 1 <= k < |p| ensures s[k] != '[' {
      assert s[k] == p[1..][k - 1];
    }
    StripKeepsPlain(s, 1, |p|);
    StripDirectiveThenPlain(p, body, q);
    ConsSlice(s, 0, |p|, q);
    assert s[0..|p|] == p;
  }

  /** In the same reply, the captured prompt is the directive's body. */
  lemma {:induction false} CaptureOneDirective(a: string, body: string, b: string)
    requires IsPlain(a) && IsBody(body)
    ensures Capture(a + Open + body + "]" + b) == Some(body)
  {
    var s := a + Open + body + "]" + b;
    var e := |a| + |Open| + |body| + 1;
    DirectiveAt(a, body, b);
    assert FirstFrom(s, 0) == Some((|a|, e)) by {
      forall k | 0 <= k < |a| ensures s[k] != '[' {
        assert s[k] == a[k];
      }
      FirstKeepsPlain(s, 0, |a|);
    }
    CaptureOfFirst(s, |a|, e);
    assert s[|a| + |Open|..e - 1] == body;
  }

  /** The capture is the body of the first directive. */
  lemma {:induction false} CaptureOfFirst(s: string, a: nat, e: nat)
    requires FirstFrom(s, 0) == Some((a, e))
    ensures a + |Open| <= e - 1 <= |s| && Capture(s) == Some(s[a + |Open|..e - 1])
  {
    assert MatchAt(s, a) == Some(e);
  }

  /**
   * The reply in the usage example: the directive is deleted from the shown text, the
   * spaces on both sides of it are kept, and its prompt is the text after the colon.
   */
  lemma {:induction false} ExampleReply()
    ensures Shown("Aquí tienes: " + Open + " pie chart half shaded" + "]" + " ¿Listo?") == "Aquí tienes: " + " ¿Listo?"
  {
    var a, body, b := "Aquí tienes: ", " pie chart half shaded", " ¿Listo?";
    StripOneDirective(a, body, b);
    TrimJoin(a, b);
  }

  /** The prompt of the reply in the usage example is the text after the colon. */
  lemma {:induction false} ExamplePrompt()
    ensures Capture("Aquí tienes: " + Open + " pie chart half shaded" + "]" + " ¿Listo?") == Some(" pie chart half shaded")
  {
    CaptureOneDirective("Aquí tienes: ", " pie chart half shaded", " ¿Listo?");
  }

  /** Text that starts and ends with a character that is not trimmed is its own trim. */
  lemma {:induction false} TrimJoin(a: string, b: string)
    requires a != [] && b != [] && !IsTrimmable(a[0]) && !IsTrimmable(b[|b| - 1])
    ensures Trim(a + b) == a + b
  {
    assert (a + b)[0] == a[0] && (a + b)[|a + b| - 1] == b[|b| - 1];
    TrimClean(a + b);
  }

  /** Deleting the inner directive of `[GENERATE_[GENERATE_IMAGE:z]IMAGE:a]` joins its two sides. */
  lemma {:induction false} StripSplice()
    ensures Strip("[GENERATE_" + Open + "z" + "]" + "IMAGE:a]") == "[GENERATE_" + "IMAGE:a]"
  {
    var p, q := "[GENERATE_", "IMAGE:a]";
    var s := p + Open + "z" + "]" + q;
    assert MatchAt(s, 0).None? by {
      OpensAtIff(s, 0);
      assert s[10] == '[' && Open[10 - 0] == 'I';
    }
    StripAfterBracket(p, "z", q);
  }

  /**
   * The strip is not idempotent: deleting a directive can join the text on its two
   * sides into a new one, which a second strip would delete.
   */
  lemma {:induction false} StripNotIdempotent()
    ensures var s := "[GENERATE_" + Open + "z" + "]" + "IMAGE:a]";
      && Strip(s) == Open + "a" + "]"
      && Strip(Strip(s)) == []
  {
    StripSplice();
    assert "[GENERATE_" + "IMAGE:a]" == Open + "a" + "]";
    StripOneDirective("", "a", "");
    assert "" + Open + "a" + "]" + "" == Open + "a" + "]";
  }
}

/** Locating the ASCII-armored message inside a pasted text. The app searches with the regular
    expression `-----BEGIN PGP MESSAGE-----(.|\s)*-----END PGP MESSAGE-----` (the BEGIN and END
    armor header lines of section 6.2 of RFC 4880) and keeps the matched range. This module
    states what that search returns under ICU's leftmost, backtracking (greedy) semantics, and
    computes it by scanning. */
module Armor {
  import opened Wrappers
  import opened Sequences

  const BeginMarker: string := "-----BEGIN PGP MESSAGE-----"
  const EndMarker: string := "-----END PGP MESSAGE-----"

  /** Characters ICU's `.` refuses by default: the line terminators. */
  predicate IsLineTerminator(c: char) {
    c in {'\n', '\U{0B}', '\U{0C}', '\r', '\U{85}', '\U{2028}', '\U{2029}'}
  }

  /** ICU's `\s`: the Unicode White_Space property. */
  predicate IsWhiteSpace(c: char) {
    ('\t' <= c <= '\r') || c == ' ' || c == '\U{85}' || c == '\U{A0}' || c == '\U{1680}'
    || ('\U{2000}' <= c <= '\U{200A}') || c == '\U{2028}' || c == '\U{2029}'
    || c == '\U{202F}' || c == '\U{205F}' || c == '\U{3000}'
  }

  /** One step of the repeated group `(.|\s)`. */
  predicate GapChar(c: char) {
    !IsLineTerminator(c) || IsWhiteSpace(c)
  }

  /** Every line terminator is white space, so `(.|\s)` accepts any character at all. */
  lemma GapAcceptsEveryChar(c: char)
    ensures GapChar(c)
  {
  }

  /** A half-open range `[start, end)` of the searched text. */
  datatype Span = Span(start: nat, end: nat)

  /** The pattern matches `s[start..end]` exactly. */
  ghost predicate IsMatch(s: string, start: nat, end: nat) {
    && start + |BeginMarker| + |EndMarker| <= end <= |s|
    && OccursAt(s, BeginMarker, start)
    && OccursAt(s, EndMarker, end - |EndMarker|)
    && forall k :: start + |BeginMarker| <= k < end - |EndMarker| ==> GapChar(s[k])
  }

  /** The first position at or after `from` where `m` occurs. */
  function FirstOccurrence(s: string, m: string, from: nat): (r: Option<nat>)
    ensures r.Some? ==> from <= r.value && OccursAt(s, m, r.value)
    ensures r.Some? ==> forall k: nat :: from <= k < r.value ==> !OccursAt(s, m, k)
    ensures r.None? ==> forall k: nat :: from <= k ==> !OccursAt(s, m, k)
    decreases |s| - from
  {
    if from + |m| > |s| then None
    else if OccursAt(s, m, from) then Some(from)
    else FirstOccurrence(s, m, from + 1)
  }

  /** The last position at or after `from` where `m` occurs. */
  function LastOccurrence(s: string, m: string, from: nat): (r: Option<nat>)
    ensures r.Some? ==> from <= r.value && OccursAt(s, m, r.value)
    ensures r.Some? ==> forall k: nat :: r.value < k ==> !OccursAt(s, m, k)
    ensures r.None? ==> forall k: nat :: from <= k ==> !OccursAt(s, m, k)
    decreases |s| - from
  {
    if from + |m| > |s| then None
    else
      match LastOccurrence(s, m, from + 1)
      case Some(p) => Some(p)
      case None => if OccursAt(s, m, from) then Some(from) else None
  }

  /** `String.range(of:options: .regularExpression)` for the armored-message pattern: the
      leftmost match, and among the matches that start there the longest, as the greedy
      repetition backtracks from the far end; `nil` when nothing matches. Since the gap
      accepts anything, that match runs from the FIRST begin marker of the text to the LAST
      end marker after it, not to the first end marker. */
  function FindEnvelope(s: string): (r: Option<Span>)
    ensures r.None? <==> forall i: nat, j: nat :: !IsMatch(s, i, j)
    ensures r.Some? ==> IsMatch(s, r.value.start, r.value.end)
    ensures r.Some? ==> forall i: nat, j: nat :: IsMatch(s, i, j) ==>
                          r.value.start < i || (r.value.start == i && j <= r.value.end)
    ensures r.Some? ==> forall p: nat :: p < r.value.start ==> !OccursAt(s, BeginMarker, p)
    ensures r.Some? ==> forall p: nat :: r.value.end - |EndMarker| < p ==> !OccursAt(s, EndMarker, p)
  {
    match FirstOccurrence(s, BeginMarker, 0)
    case None =>
      MatchStartsAtBegin(s);
      None
    case Some(b) =>
      MatchStartsAtBegin(s);
      match LastOccurrence(s, EndMarker, b + |BeginMarker|)
      case None => None
      case Some(e) =>
        assert forall k :: b + |BeginMarker| <= k < e ==> GapChar(s[k]) by {
          forall k | b + |BeginMarker| <= k < e { GapAcceptsEveryChar(s[k]); }
        }
        assert IsMatch(s, b, e + |EndMarker|);
        Some(Span(b, e + |EndMarker|))
  }

  /** What a match needs of the text: a begin marker where it starts and an end marker, after
      the begin marker, where it stops. */
  lemma MatchStartsAtBegin(s: string)
    ensures forall i: nat, j: nat :: IsMatch(s, i, j) ==>
              OccursAt(s, BeginMarker, i) && i + |BeginMarker| <= j - |EndMarker|
              && OccursAt(s, EndMarker, j - |EndMarker|)
  {
  }

  /** The matched text itself, which the app goes on with in place of the whole input: the
      input from the first begin marker to the last end marker after it. */
  function ExtractArmoredMessage(s: string): (r: Option<string>)
    ensures r.None? <==> forall i: nat, j: nat :: !IsMatch(s, i, j)
    ensures r.Some? <==> FindEnvelope(s).Some?
    ensures r.Some? ==> r.value == s[FindEnvelope(s).value.start..FindEnvelope(s).value.end]
    ensures r.Some? ==> |BeginMarker| + |EndMarker| <= |r.value|
    ensures r.Some? ==> r.value[..|BeginMarker|] == BeginMarker
    ensures r.Some? ==> r.value[|r.value| - |EndMarker|..] == EndMarker
  {
    match FindEnvelope(s)
    case None => None
    case Some(sp) =>
      var m := s[sp.start..sp.end];
      assert m[..|BeginMarker|] == s[sp.start..sp.start + |BeginMarker|];
      assert m[|m| - |EndMarker|..] == s[sp.end - |EndMarker|..sp.end];
      Some(m)
  }

  /** Two armored messages pasted one after the other are not split: the extraction keeps
      both, together with whatever lies between them, as one envelope. */
  lemma {:induction false} ConcatenatedMessagesStayTogether(body1: string, between: string, body2: string)
    ensures var s := BeginMarker + body1 + EndMarker + between + BeginMarker + body2 + EndMarker;
            ExtractArmoredMessage(s) == Some(s)
  {
    var s := BeginMarker + body1 + EndMarker + between + BeginMarker + body2 + EndMarker;
    assert s[..|BeginMarker|] == BeginMarker;
    assert s[|s| - |EndMarker|..] == EndMarker;
    forall k | |BeginMarker| <= k < |s| - |EndMarker| ensures GapChar(s[k]) { GapAcceptsEveryChar(s[k]); }
    assert IsMatch(s, 0, |s|);
    var sp := FindEnvelope(s).value;
    assert sp.start == 0 && sp.end == |s|;
    assert s[sp.start..sp.end] == s;
  }
}

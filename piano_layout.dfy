/** Key colours and black-key placement of the piano roll (`isBlackKey` and
    `getBlackKeyPositionOffset` in src/main.ts). */
module PianoLayout {
  import opened Prelude

  const WhiteKeyWidth := 30
  const BlackKeyWidth := 18
  /** Width of the seven white keys of one octave. */
  const OctaveWidth := WhiteKeyWidth * 7

  /** Pitch classes (note mod 12) of the black keys: C#, D#, F#, G#, A#. */
  const BlackPitchClasses: set<int> := {1, 3, 6, 8, 10}

  /** isBlackKey. Both remainders are JavaScript's, so a negative note gives a
      non-positive `relative` and is never black. */
  predicate IsBlackKey(note: int)
  {
    var relative := JsRem(note, 12);
    if relative < 4 then JsRem(relative, 2) == 1
    else if relative > 5 then JsRem(relative, 2) == 0
    else false
  }

  /** The classification by pitch class, in both directions; negative notes are white. */
  lemma BlackKeyPitchClasses(n: int)
    ensures IsBlackKey(n) <==> n >= 0 && n % 12 in BlackPitchClasses
  {
  }

  /** Key colour repeats every octave on the notes the piano roll draws. */
  lemma BlackKeyPeriodic(n: int)
    requires n >= 0
    ensures IsBlackKey(n + 12) == IsBlackKey(n)
  {
    BlackKeyPitchClasses(n);
    BlackKeyPitchClasses(n + 12);
  }

  /** Below zero the period breaks: -11 is congruent to 1 modulo 12, yet white. */
  lemma NegativeNotesBreakPeriod()
    ensures IsBlackKey(1) && !IsBlackKey(-11)
  {
  }

  /** The number of black keys among the notes lo, lo + 1, ..., lo + len - 1. */
  function BlackCount(lo: int, len: nat): (c: nat)
    ensures c <= len
  {
    if len == 0 then 0
    else BlackCount(lo, len - 1) + (if IsBlackKey(lo + len - 1) then 1 else 0)
  }

  /** The number of white keys to the left of note n in the piano roll. */
  function WhitesBelow(n: nat): nat
  {
    n - BlackCount(0, n)
  }

  lemma {:induction false} BlackCountSplit(lo: int, a: nat, b: nat)
    ensures BlackCount(lo, a + b) == BlackCount(lo, a) + BlackCount(lo + a, b)
    decreases b
  {
    if b > 0 {
      BlackCountSplit(lo, a, b - 1);
    }
  }

  lemma {:induction false} BlackCountShift(lo: int, len: nat)
    requires lo >= 0
    ensures BlackCount(lo + 12, len) == BlackCount(lo, len)
  {
    if len > 0 {
      BlackCountShift(lo, len - 1);
      BlackKeyPeriodic(lo + len - 1);
    }
  }

  /** Black keys below each point of the first octave. */
  lemma FirstOctaveCounts()
    ensures BlackCount(0, 1) == 0 && BlackCount(0, 3) == 1 && BlackCount(0, 6) == 2
    ensures BlackCount(0, 8) == 3 && BlackCount(0, 10) == 4 && BlackCount(0, 12) == 5
  {
    BlackKeyPitchClasses(0); BlackKeyPitchClasses(1); BlackKeyPitchClasses(2);
    BlackKeyPitchClasses(3); BlackKeyPitchClasses(4); BlackKeyPitchClasses(5);
    BlackKeyPitchClasses(6); BlackKeyPitchClasses(7); BlackKeyPitchClasses(8);
    BlackKeyPitchClasses(9); BlackKeyPitchClasses(10); BlackKeyPitchClasses(11);
    assert BlackCount(0, 2) == 1;
    assert BlackCount(0, 4) == 2 && BlackCount(0, 5) == 2;
    assert BlackCount(0, 7) == 3;
    assert BlackCount(0, 9) == 4;
    assert BlackCount(0, 11) == 5;
  }

  /** Any twelve consecutive notes of the piano roll hold exactly five black keys. */
  lemma {:induction false} FiveBlackKeysPerOctave(n: int)
    requires n >= 0
    ensures BlackCount(n, 12) == 5
  {
    if n == 0 {
      FirstOctaveCounts();
    } else {
      FiveBlackKeysPerOctave(n - 1);
      BlackCountSplit(n - 1, 1, 12);
      BlackKeyPeriodic(n - 1);
    }
  }

  lemma {:induction false} BlackCountByOctave(q: nat, r: nat)
    requires r <= 12
    ensures BlackCount(0, 12 * q + r) == 5 * q + BlackCount(0, r)
  {
    if q > 0 {
      BlackCountByOctave(q - 1, r);
      BlackCountSplit(0, 12, 12 * (q - 1) + r);
      BlackCountShift(0, 12 * (q - 1) + r);
      FirstOctaveCounts();
    }
  }

  /** The `switch` of getBlackKeyPositionOffset: the offset of a black key inside its
      octave, None where `offset` stays undefined. */
  function OffsetInOctave(key: int): (r: Option<int>)
    ensures r.Some? <==> key in BlackPitchClasses
    ensures r.Some? ==> 0 < r.value < OctaveWidth && (r.value + BlackKeyWidth / 2) % WhiteKeyWidth == 0
  {
    if key == 1 then Some(WhiteKeyWidth - BlackKeyWidth / 2)
    else if key == 3 then Some(WhiteKeyWidth * 2 - BlackKeyWidth / 2)
    else if key == 6 then Some(WhiteKeyWidth * 4 - BlackKeyWidth / 2)
    else if key == 8 then Some(WhiteKeyWidth * 5 - BlackKeyWidth / 2)
    else if key == 10 then Some(WhiteKeyWidth * 6 - BlackKeyWidth / 2)
    else None
  }

  lemma ShiftByWhiteKeys(k: int, x: int)
    ensures (WhiteKeyWidth * k + x) % WhiteKeyWidth == x % WhiteKeyWidth
  {
  }

  /** getBlackKeyPositionOffset. For a note that is not black, `offset` stays
      undefined and the source returns NaN, here None. */
  function BlackKeyOffset(note: int): (r: Option<int>)
    ensures r.Some? <==> IsBlackKey(note)
    ensures r.Some? ==> (r.value + BlackKeyWidth / 2) % WhiteKeyWidth == 0
    ensures r.Some? ==> note / 12 * OctaveWidth < r.value < (note / 12 + 1) * OctaveWidth
  {
    var octave := note / 12;  // Math.floor: Dafny's division rounds down for a positive divisor
    var offset := OffsetInOctave(JsRem(note, 12));
    BlackKeyPitchClasses(note);
    if offset.Some? then
      var x := octave * WhiteKeyWidth * 7;
      assert x == WhiteKeyWidth * (7 * octave);
      ShiftByWhiteKeys(7 * octave, offset.value + BlackKeyWidth / 2);
      Some(x + offset.value)
    else None
  }

  /** A black key is centred on the boundary after the white keys to its left. */
  lemma BlackKeyCentredOnWhiteBoundary(n: int)
    requires IsBlackKey(n)
    ensures n >= 0
    ensures BlackKeyOffset(n).value + BlackKeyWidth / 2 == WhiteKeyWidth * WhitesBelow(n)
  {
    BlackKeyPitchClasses(n);
    var q, r := n / 12, n % 12;
    assert n == 12 * q + r;
    BlackCountByOctave(q, r);
    assert WhitesBelow(n) == 7 * q + (r - BlackCount(0, r));
    CentredInFirstOctave(r);
    assert BlackKeyOffset(n).value == OctaveWidth * q + OffsetInOctave(r).value;
  }

  /** The statement above inside the first octave, one black pitch class at a time. */
  lemma CentredInFirstOctave(r: int)
    requires r in BlackPitchClasses
    ensures OffsetInOctave(r).value + BlackKeyWidth / 2 == WhiteKeyWidth * (r - BlackCount(0, r))
  {
    FirstOctaveCounts();
  }

  /** The note after a black key is white. */
  lemma NextIsWhite(m: int)
    requires IsBlackKey(m)
    ensures m >= 0 && !IsBlackKey(m + 1)
  {
    BlackKeyPitchClasses(m);
    BlackKeyPitchClasses(m + 1);
    var q, r := m / 12, m % 12;
    assert m + 1 == 12 * q + (r + 1);
    assert (m + 1) % 12 == r + 1;
  }

  /** Between two black keys lies at least one white key. */
  lemma WhiteKeyBetween(m: int, n: int)
    requires IsBlackKey(m) && IsBlackKey(n) && m < n
    ensures 0 <= m && WhitesBelow(m) < WhitesBelow(n)
  {
    NextIsWhite(m);
    assert n != m + 1;
    var d := n - m - 2;
    BlackCountSplit(0, m, n - m);
    BlackCountSplit(m, 2, d);
    assert BlackCount(m, 1) == 1;
    assert BlackCount(m, 2) == 1;
  }

  /** Black keys are placed left to right in note order. */
  lemma BlackKeyOffsetIncreasing(m: int, n: int)
    requires IsBlackKey(m) && IsBlackKey(n) && m < n
    ensures BlackKeyOffset(m).value < BlackKeyOffset(n).value
  {
    BlackKeyCentredOnWhiteBoundary(m);
    BlackKeyCentredOnWhiteBoundary(n);
    WhiteKeyBetween(m, n);
  }
}

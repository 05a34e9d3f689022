/** The microtonal pitch model and the gaussian-decay interval density of
    densidade_intervalar.py: note strings are parsed to positions on a scale
    of 24 steps per octave, every unordered pair of positions becomes an
    interval string, and the decay of each pair's step count is summed. */
module IntervalDensity {
  import opened Outcomes
  import opened Text
  import opened Pairwise

  /** Steps per microtonal octave (`TAMANHO_OITAVA_MICROTONAL`). */
  const OctaveSteps: nat := 24

  /** `escala_microtonal`: the offset of each note class within its octave. */
  const MicrotonalScale: map<string, int> := map[
    "C" := 1, "C#-" := 2, "C#" := 3, "C#+" := 4,
    "D" := 5, "D#-" := 6, "D#" := 7, "D#+" := 8,
    "E" := 9, "E#-" := 10,
    "F" := 11, "F#-" := 12, "F#" := 13, "F#+" := 14,
    "G" := 15, "G#-" := 16, "G#" := 17, "G#+" := 18,
    "A" := 19, "A#-" := 20, "A#" := 21, "A#+" := 22,
    "B" := 23, "B#-" := 24,
    "Cb+" := 24,
    "Db+" := 2, "Db" := 3, "Db-" := 4,
    "Eb+" := 6, "Eb" := 7, "Eb-" := 8,
    "Fb+" := 10,
    "Gb+" := 12, "Gb" := 13, "Gb-" := 14,
    "Ab+" := 16, "Ab" := 17, "Ab-" := 18,
    "Bb+" := 20, "Bb" := 21, "Bb-" := 22
  ]

  lemma ScaleOffsetsInRange()
    ensures forall c :: c in MicrotonalScale ==> 1 <= MicrotonalScale[c] <= OctaveSteps
  {
  }

  // ---------------------------------------------------------------------
  // Parsing a note: re.match(r'([A-G][#b]?[-+]?)([0-9x])', nota)

  predicate IsLetter(c: char) { 'A' <= c <= 'G' }
  predicate IsAccidental(c: char) { c == '#' || c == 'b' }
  predicate IsQuarterTone(c: char) { c == '-' || c == '+' }
  predicate IsOctaveChar(c: char) { IsDigit(c) || c == 'x' }

  /** The strings the group `[A-G][#b]?[-+]?` can match. */
  predicate IsNoteClass(cls: string) {
    && 1 <= |cls| <= 3
    && IsLetter(cls[0])
    && (|cls| == 2 ==> IsAccidental(cls[1]) || IsQuarterTone(cls[1]))
    && (|cls| == 3 ==> IsAccidental(cls[1]) && IsQuarterTone(cls[2]))
  }

  /** The pattern matches at the start of `s`, with groups `cls` and `oct`. */
  predicate MatchesAt(s: string, cls: string, oct: char) {
    IsNoteClass(cls) && IsOctaveChar(oct) && |cls| < |s| && s[..|cls|] == cls && s[|cls|] == oct
  }

  /** The greedy reading of the pattern at the start of `s`. */
  function MatchNote(s: string): Option<(string, char)> {
    if |s| == 0 || !IsLetter(s[0]) then None
    else
      var a := if 1 < |s| && IsAccidental(s[1]) then 2 else 1;
      var q := if a < |s| && IsQuarterTone(s[a]) then a + 1 else a;
      if q < |s| && IsOctaveChar(s[q]) then Some((s[..q], s[q])) else None
  }

  /** The greedy reading finds exactly the matches of the pattern: since none
      of `#b-+` is an octave character, backtracking never finds another one. */
  lemma MatchNoteExact(s: string, cls: string, oct: char)
    ensures MatchNote(s) == Some((cls, oct)) <==> MatchesAt(s, cls, oct)
  {
    if MatchesAt(s, cls, oct) {
      assert s[0] == cls[0];
      if |cls| >= 2 { assert s[1] == cls[1]; }
      if |cls| == 3 { assert s[2] == cls[2]; }
    }
  }

  /** `nota_para_posicao`: `Ok(None)` for the octave character `x`, otherwise
      the class offset plus 24 per octave. */
  function NotePosition(note: string): (r: Result<Option<int>>)
    ensures MatchNote(note).None? ==> r == Err(PatternMismatch)
    ensures MatchNote(note).Some? ==>
      var (cls, oct) := MatchNote(note).value;
      && (oct == 'x' <==> r == Ok(None))
      && (oct != 'x' && cls !in MicrotonalScale <==> r == Err(UnknownNoteClass))
      && (IsDigit(oct) && cls in MicrotonalScale ==>
            r == Ok(Some(MicrotonalScale[cls] + OctaveSteps * DigitValue(oct))))
      && (r.Ok? && r.value.Some? ==>
            && (r.value.value - 1) / OctaveSteps == DigitValue(oct)
            && (r.value.value - 1) % OctaveSteps + 1 == MicrotonalScale[cls])
  {
    match MatchNote(note)
    case None => Err(PatternMismatch)
    case Some((cls, oct)) =>
      if oct == 'x' then Ok(None)
      else if cls !in MicrotonalScale then Err(UnknownNoteClass)
      else
        ScaleOffsetsInRange();
        Ok(Some(MicrotonalScale[cls] + OctaveSteps * DigitValue(oct)))
  }

  /** A position lies in its octave's band `[24·oct + 1, 24·oct + 24]`. */
  lemma PositionInOctave(note: string)
    requires NotePosition(note).Ok? && NotePosition(note).value.Some?
    ensures
      var oct := DigitValue(MatchNote(note).value.1);
      var p := NotePosition(note).value.value;
      OctaveSteps * oct + 1 <= p <= OctaveSteps * oct + OctaveSteps
  {
  }

  /** Positions are strictly monotonic in (octave, class offset) order. */
  lemma PositionMonotone(n1: string, n2: string)
    requires NotePosition(n1).Ok? && NotePosition(n1).value.Some?
    requires NotePosition(n2).Ok? && NotePosition(n2).value.Some?
    ensures
      var (c1, o1) := MatchNote(n1).value;
      var (c2, o2) := MatchNote(n2).value;
      (DigitValue(o1), MicrotonalScale[c1]) == (DigitValue(o2), MicrotonalScale[c2])
        || (NotePosition(n1).value.value < NotePosition(n2).value.value
            <==> DigitValue(o1) < DigitValue(o2) || (o1 == o2 && MicrotonalScale[c1] < MicrotonalScale[c2]))
  {
    var (c1, o1) := MatchNote(n1).value;
    var (c2, o2) := MatchNote(n2).value;
    if o1 == o2 { } else { assert DigitValue(o1) != DigitValue(o2); }
  }

  /** A note class followed by an octave character is read as exactly that pair. */
  lemma MatchClassThenOctave(cls: string, oct: char)
    requires IsNoteClass(cls) && IsOctaveChar(oct)
    ensures MatchNote(cls + [oct]) == Some((cls, oct))
  {
    assert (cls + [oct])[..|cls|] == cls;
    MatchNoteExact(cls + [oct], cls, oct);
  }

  lemma SpellingPosition(cls: string, d: char)
    requires IsNoteClass(cls) && IsDigit(d) && cls in MicrotonalScale
    ensures NotePosition(cls + [d]) == Ok(Some(MicrotonalScale[cls] + OctaveSteps * DigitValue(d)))
  {
    MatchClassThenOctave(cls, d);
  }

  /** Every key of the table is a string the class group of the pattern can match. */
  lemma ScaleKeysAreNoteClasses()
    ensures forall c :: c in MicrotonalScale ==> IsNoteClass(c)
  {
  }

  /** Two spellings with the same table offset, e.g. "Db" and "C#" or
      "Cb+" and "B#-", are the same position in every octave. */
  lemma EnharmonicSpellings(c1: string, c2: string, d: char)
    requires c1 in MicrotonalScale && c2 in MicrotonalScale && MicrotonalScale[c1] == MicrotonalScale[c2]
    requires IsDigit(d)
    ensures NotePosition(c1 + [d]).Ok?
    ensures NotePosition(c1 + [d]) == NotePosition(c2 + [d])
  {
    assert IsNoteClass(c1) && IsNoteClass(c2) by { ScaleKeysAreNoteClasses(); }
    SpellingPosition(c1, d);
    SpellingPosition(c2, d);
  }

  /** A positioned note, and the octave character `x` giving a note without a position. */
  lemma NotePositionExamples()
    ensures NotePosition("C#+4") == Ok(Some(100))
    ensures NotePosition("E#+x") == Ok(None)
  {
    MatchClassThenOctave("C#+", '4');
    assert "C#+4" == "C#+" + ['4'];
    MatchClassThenOctave("E#+", 'x');
    assert "E#+x" == "E#+" + ['x'];
  }

  /** `E#-`, a class of the form's list, has position offset 10 in octave 4. */
  lemma QuarterFlatSharpEPosition()
    ensures NotePosition("E#-4") == Ok(Some(106))
  {
    MatchClassThenOctave("E#-", '4');
    assert "E#-4" == "E#-" + ['4'];
  }

  /** A class the pattern matches but the table lacks is an error only when
      the octave is a digit; a string the pattern does not match is an error. */
  lemma NotePositionErrorExamples()
    ensures NotePosition("E#+4") == Err(UnknownNoteClass)
    ensures NotePosition("Cb4") == Err(UnknownNoteClass)
  {
    MatchClassThenOctave("E#+", '4');
    assert "E#+4" == "E#+" + ['4'];
    assert "E#+" !in MicrotonalScale;
    MatchClassThenOctave("Cb", '4');
    assert "Cb4" == "Cb" + ['4'];
    assert "Cb" !in MicrotonalScale;
  }

  lemma PatternMismatchExamples()
    ensures NotePosition("H4") == Err(PatternMismatch)
    ensures NotePosition("C#") == Err(PatternMismatch)
  {
  }

  /** `[nota_para_posicao(n) for n in notas if ... is not None]`: the first
      failing note's error propagates; notes without a position are dropped. */
  function PositionsOf(notes: seq<string>): (r: Result<seq<int>>)
    ensures r.Ok? <==> forall k :: 0 <= k < |notes| ==> NotePosition(notes[k]).Ok?
    ensures r.Err? ==> FirstFailure(notes) < |notes| && NotePosition(notes[FirstFailure(notes)]) == Err(r.error)
    ensures r.Err? ==> exists k :: 0 <= k < |notes| && NotePosition(notes[k]) == Err(r.error) &&
                                     forall j :: 0 <= j < k ==> NotePosition(notes[j]).Ok?
    ensures r.Ok? ==> |r.value| <= |notes|
    ensures r.Ok? && (forall k :: 0 <= k < |notes| ==> NotePosition(notes[k]).Ok? && NotePosition(notes[k]).value.Some?) ==>
      |r.value| == |notes| && forall k :: 0 <= k < |notes| ==> r.value[k] == NotePosition(notes[k]).value.value
    ensures r.Ok? ==> forall k :: 0 <= k < |r.value| ==> 1 <= r.value[k] <= 10 * OctaveSteps
  {
    if |notes| == 0 then Ok([])
    else
      PositionsOfTail(notes);
      match NotePosition(notes[0])
      case Err(e) =>
        assert NotePosition(notes[FirstFailure(notes)]) == Err(e);
        Err(e)
      case Ok(None) => PositionsOf(notes[1..])
      case Ok(Some(p)) =>
        match PositionsOf(notes[1..])
        case Err(e) => Err(e)
        case Ok(ps) =>
          PositionBounds(notes[0]);
          PlacedCons(notes, p, ps);
          Ok([p] + ps)
  }

  /** A position `nota_para_posicao` gives lies in the ten octaves of the table. */
  lemma PositionBounds(note: string)
    ensures NotePosition(note).Ok? && NotePosition(note).value.Some? ==>
      1 <= NotePosition(note).value.value <= 10 * OctaveSteps
  {
    ScaleOffsetsInRange();
  }

  /** Putting a placed note's position in front of the tail's positions. */
  lemma PlacedCons(notes: seq<string>, p: int, ps: seq<int>)
    requires |notes| > 0 && NotePosition(notes[0]) == Ok(Some(p)) && 1 <= p <= 10 * OctaveSteps
    requires |ps| <= |notes[1..]|
    requires (forall k :: 0 <= k < |notes[1..]| ==> NotePosition(notes[1..][k]).Ok? && NotePosition(notes[1..][k]).value.Some?) ==>
      |ps| == |notes[1..]| && forall k :: 0 <= k < |notes[1..]| ==> ps[k] == NotePosition(notes[1..][k]).value.value
    requires forall k :: 0 <= k < |ps| ==> 1 <= ps[k] <= 10 * OctaveSteps
    ensures |[p] + ps| <= |notes|
    ensures (forall k :: 0 <= k < |notes| ==> NotePosition(notes[k]).Ok? && NotePosition(notes[k]).value.Some?) ==>
      |[p] + ps| == |notes| && forall k :: 0 <= k < |notes| ==> ([p] + ps)[k] == NotePosition(notes[k]).value.value
    ensures forall k :: 0 <= k < |[p] + ps| ==> 1 <= ([p] + ps)[k] <= 10 * OctaveSteps
  {
    assert forall k :: 1 <= k < |notes| ==> notes[k] == notes[1..][k - 1];
    assert forall k :: 1 <= k <= |ps| ==> ([p] + ps)[k] == ps[k - 1];
  }

  /** How the facts `PositionsOf` states about a list of notes split into its head and its tail. */
  lemma PositionsOfTail(notes: seq<string>)
    requires |notes| > 0
    ensures forall k :: 1 <= k < |notes| ==> notes[k] == notes[1..][k - 1]
    ensures (forall k :: 0 <= k < |notes| ==> NotePosition(notes[k]).Ok?) <==>
      NotePosition(notes[0]).Ok? && forall k :: 0 <= k < |notes[1..]| ==> NotePosition(notes[1..][k]).Ok?
    ensures (forall k :: 0 <= k < |notes| ==> NotePosition(notes[k]).Ok? && NotePosition(notes[k]).value.Some?) <==>
      NotePosition(notes[0]).Ok? && NotePosition(notes[0]).value.Some? &&
      forall k :: 0 <= k < |notes[1..]| ==> NotePosition(notes[1..][k]).Ok? && NotePosition(notes[1..][k]).value.Some?
    ensures FirstFailure(notes) == if NotePosition(notes[0]).Err? then 0 else 1 + FirstFailure(notes[1..])
  {
    assert forall k :: 1 <= k < |notes| ==> notes[k] == notes[1..][k - 1];
  }

  /** The index of the first note `nota_para_posicao` rejects, or the length. */
  function FirstFailure(notes: seq<string>): (k: nat)
    ensures k <= |notes|
    ensures forall j :: 0 <= j < k ==> NotePosition(notes[j]).Ok?
    ensures k < |notes| ==> NotePosition(notes[k]).Err?
  {
    if |notes| == 0 || NotePosition(notes[0]).Err? then 0
    else
      assert forall j :: 1 <= j < |notes| ==> notes[j] == notes[1..][j - 1];
      1 + FirstFailure(notes[1..])
  }

  /** The comprehension over a concatenation: the first part's error wins,
      then the second part's; otherwise the two position lists are joined. */
  lemma {:induction false} PositionsOfAppend(a: seq<string>, b: seq<string>)
    ensures PositionsOf(a + b) ==
      if PositionsOf(a).Err? then PositionsOf(a)
      else if PositionsOf(b).Err? then PositionsOf(b)
      else Ok(PositionsOf(a).value + PositionsOf(b).value)
    decreases |a|
  {
    if |a| == 0 {
      assert a + b == b;
      if PositionsOf(b).Ok? {
        assert [] + PositionsOf(b).value == PositionsOf(b).value;
      }
    } else {
      assert (a + b)[0] == a[0] && (a + b)[1..] == a[1..] + b;
      PositionsOfAppend(a[1..], b);
      match NotePosition(a[0])
      case Err(e) =>
        assert PositionsOf(a + b) == Err(e) && PositionsOf(a) == Err(e);
      case Ok(None) =>
        assert PositionsOf(a + b) == PositionsOf(a[1..] + b) && PositionsOf(a) == PositionsOf(a[1..]);
      case Ok(Some(p)) =>
        if PositionsOf(a[1..]).Ok? && PositionsOf(b).Ok? {
          assert [p] + (PositionsOf(a[1..]).value + PositionsOf(b).value)
              == ([p] + PositionsOf(a[1..]).value) + PositionsOf(b).value;
        }
    }
  }

  /** One note contributes its error, nothing (octave `x`), or its position. */
  lemma PositionsOfOne(note: string)
    ensures NotePosition(note).Err? ==> PositionsOf([note]) == Err(NotePosition(note).error)
    ensures NotePosition(note) == Ok(None) ==> PositionsOf([note]) == Ok([])
    ensures NotePosition(note).Ok? && NotePosition(note).value.Some? ==>
      PositionsOf([note]) == Ok([NotePosition(note).value.value])
  {
    assert [note][1..] == [];
    assert PositionsOf([]) == Ok([]);
    if NotePosition(note).Ok? && NotePosition(note).value.Some? {
      assert [NotePosition(note).value.value] + [] == [NotePosition(note).value.value];
    }
  }

  /** A note with octave `x` is dropped wherever it stands. */
  lemma DroppedNote(a: seq<string>, note: string, b: seq<string>)
    requires NotePosition(note) == Ok(None)
    ensures PositionsOf(a + [note] + b) == PositionsOf(a + b)
  {
    PositionsOfAppend(a + [note], b);
    PositionsOfAppend(a, [note]);
    PositionsOfAppend(a, b);
    PositionsOfOne(note);
    assert a + [note] + b == (a + [note]) + b;
    if PositionsOf(a).Ok? {
      assert PositionsOf(a).value + [] == PositionsOf(a).value;
    }
  }

  // ---------------------------------------------------------------------
  // Interval names and interval strings

  /** The values of `nomes_intervalos`, indexed by its keys 0..24. */
  const IntervalNames: seq<string> := [
    "unisono", "unisono+", "m2", "m2+", "M2", "M2+", "m3", "m3+", "M3", "M3+",
    "P4", "P4+", "aug4", "aug4+", "P5", "P5+", "m6", "m6+", "M6", "M6+",
    "m7", "m7+", "M7", "M7+", "oitava"
  ]

  predicate NoParen(s: string) {
    forall k :: 0 <= k < |s| ==> s[k] != '('
  }

  /** Every `(` is immediately followed by `s`, as in "oitava(s)". */
  predicate ParenBeforeS(s: string) {
    forall k :: 0 <= k < |s| && s[k] == '(' ==> k + 1 < |s| && s[k + 1] == 's'
  }

  /** `traduzir_para_intervalo_tradicional`: the name of the steps modulo 24,
      with " + n oitava(s)" appended when the quotient n is positive. */
  function TraditionalName(steps: int): string {
    IntervalNames[steps % OctaveSteps] + OctaveSuffix(steps / OctaveSteps)
  }

  /** The text appended for `octaves` whole octaves: nothing unless positive. */
  function OctaveSuffix(octaves: int): string {
    if octaves > 0 then " + " + IntToString(octaves) + " oitava(s)" else ""
  }

  /** The name starts with the entry for `steps % 24`, which is never the
      "oitava" entry, and carries an octave suffix exactly when `steps / 24 > 0`. */
  lemma TraditionalNameShape(steps: int)
    ensures var base := IntervalNames[steps % OctaveSteps];
      && base != IntervalNames[OctaveSteps]
      && |base| <= |TraditionalName(steps)|
      && TraditionalName(steps)[..|base|] == base
      && (steps / OctaveSteps > 0 <==> |TraditionalName(steps)| > |base|)
      && (steps / OctaveSteps > 0 ==>
            TraditionalName(steps)[|base|..] == " + " + IntToString(steps / OctaveSteps) + " oitava(s)")
      && TraditionalName(steps)[0] != 'o'
  {
    var r := steps % OctaveSteps;
    assert IntervalNames[r][0] != 'o';
  }

  predicate NoSpace(s: string) {
    forall k :: 0 <= k < |s| ==> s[k] != ' '
  }

  /** The characters of `s` before its first space. */
  function UpToSpace(s: string): (r: string)
    ensures |r| <= |s|
  {
    if |s| == 0 || s[0] == ' ' then "" else [s[0]] + UpToSpace(s[1..])
  }

  lemma {:induction false} UpToSpaceOf(base: string, rest: string)
    requires NoSpace(base) && (|rest| == 0 || rest[0] == ' ')
    ensures UpToSpace(base + rest) == base
    decreases |base|
  {
    if |base| > 0 {
      assert (base + rest)[1..] == base[1..] + rest;
      UpToSpaceOf(base[1..], rest);
    } else {
      assert base + rest == rest;
    }
  }

  /** The 24 names of `nomes_intervalos` a remainder can select are pairwise
      different and contain no space. */
  lemma IntervalNamesDistinct()
    ensures forall i, j :: 0 <= i < OctaveSteps && 0 <= j < OctaveSteps && IntervalNames[i] == IntervalNames[j] ==> i == j
    ensures forall i :: 0 <= i < OctaveSteps ==> NoSpace(IntervalNames[i])
  {
  }

  lemma {:induction false} OctaveSuffixInjective(p: int, q: int)
    requires p >= 0 && q >= 0 && OctaveSuffix(p) == OctaveSuffix(q)
    ensures p == q
  {
    if p > 0 && q > 0 {
      var sp, sq := IntToString(p), IntToString(q);
      var n := OctaveSuffix(p);
      assert n[3..|n| - 10] == sp;
      assert n[3..|n| - 10] == sq;
      IntToStringInjective(p, q);
    }
  }

  /** Different step counts get different traditional names: the name before
      its first space selects the remainder, and the suffix the octave count. */
  lemma TraditionalNameInjective(a: nat, b: nat)
    requires TraditionalName(a) == TraditionalName(b)
    ensures a == b
  {
    var ba, bb := IntervalNames[a % OctaveSteps], IntervalNames[b % OctaveSteps];
    IntervalNamesDistinct();
    UpToSpaceOf(ba, OctaveSuffix(a / OctaveSteps));
    UpToSpaceOf(bb, OctaveSuffix(b / OctaveSteps));
    assert ba == bb;
    assert a % OctaveSteps == b % OctaveSteps;
    var n := TraditionalName(a);
    assert n[|ba|..] == OctaveSuffix(a / OctaveSteps);
    assert n[|ba|..] == OctaveSuffix(b / OctaveSteps);
    OctaveSuffixInjective(a / OctaveSteps, b / OctaveSteps);
  }

  lemma TraditionalNameExamples()
    ensures TraditionalName(0) == "unisono"
    ensures TraditionalName(8) == "M3"
  {
    assert IntervalNames[0] == "unisono" && IntervalNames[8] == "M3";
  }

  lemma TraditionalNameOneOctaveExample()
    ensures TraditionalName(24) == "unisono + 1 oitava(s)"
  {
    assert TraditionalName(24) == IntervalNames[0] + OctaveSuffix(1);
    assert OctaveSuffix(1) == " + 1 oitava(s)" by { assert NatToString(1) == "1"; }
  }

  lemma TraditionalNameTwoOctavesExample()
    ensures TraditionalName(50) == "m2 + 2 oitava(s)"
  {
    assert TraditionalName(50) == IntervalNames[2] + OctaveSuffix(2);
    assert OctaveSuffix(2) == " + 2 oitava(s)" by { assert NatToString(2) == "2"; }
  }

  lemma ParenBeforeSConcat(a: string, b: string)
    requires ParenBeforeS(a) && ParenBeforeS(b)
    ensures ParenBeforeS(a + b)
  {
    forall k | 0 <= k < |a + b| && (a + b)[k] == '(' ensures k + 1 < |a + b| && (a + b)[k + 1] == 's' {
      if k < |a| {
        assert (a + b)[k + 1] == a[k + 1];
      } else {
        assert (a + b)[k] == b[k - |a|];
        assert (a + b)[k + 1] == b[k - |a| + 1];
      }
    }
  }

  lemma TraditionalNameParens(steps: int)
    ensures ParenBeforeS(TraditionalName(steps))
  {
    var r := steps % OctaveSteps;
    assert NoParen(IntervalNames[r]);
    var octaves := steps / OctaveSteps;
    if octaves > 0 {
      var digits := IntToString(octaves);
      assert NoParen(digits);
      ParenBeforeSConcat(IntervalNames[r], " + ");
      ParenBeforeSConcat(IntervalNames[r] + " + ", digits);
      ParenBeforeSConcat(IntervalNames[r] + " + " + digits, " oitava(s)");
    }
  }

  /** The string `obter_intervalos` emits for a pair `steps` apart. */
  function IntervalString(steps: nat): string {
    TraditionalName(steps) + " " + Marker + NatToString(steps) + ")"
  }

  // ---------------------------------------------------------------------
  // Reading the step count back: re.search(r'\(intervalo (\d+)\)', s)

  const Marker: string := "(intervalo "

  /** Length of the run of decimal digits starting at `j`. */
  function DigitRun(s: string, j: nat): (k: nat)
    requires j <= |s|
    ensures j + k <= |s| && AllDigits(s[j..j + k])
    ensures j + k == |s| || !IsDigit(s[j + k])
    decreases |s| - j
  {
    if j < |s| && IsDigit(s[j]) then
      var k := 1 + DigitRun(s, j + 1);
      assert s[j..j + k] == [s[j]] + s[j + 1..j + k];
      k
    else 0
  }

  /** The pattern at position `i`: the marker, one or more digits (greedy), `)`. */
  function MatchIntervalAt(s: string, i: nat): Option<nat>
    requires i <= |s|
  {
    var j := i + |Marker|;
    if j <= |s| && s[i..j] == Marker then
      var k := DigitRun(s, j);
      if k > 0 && j + k < |s| && s[j + k] == ')' then Some(DigitsValue(s[j..j + k])) else None
    else None
  }

  /** The leftmost match at or after position `i`. */
  function SearchFrom(s: string, i: nat): Option<nat>
    requires i <= |s|
    decreases |s| - i
  {
    if i == |s| then None
    else
      match MatchIntervalAt(s, i)
      case Some(n) => Some(n)
      case None => SearchFrom(s, i + 1)
  }

  /** `intervalo_para_numero`. */
  function IntervalToNumber(s: string): Option<nat> {
    SearchFrom(s, 0)
  }

  lemma {:induction false} DigitRunOfDigits(s: string, j: nat, n: nat)
    requires j + n <= |s| && AllDigits(s[j..j + n])
    requires j + n == |s| || !IsDigit(s[j + n])
    ensures DigitRun(s, j) == n
    decreases n
  {
    if n > 0 {
      assert IsDigit(s[j..j + n][0]);
      assert s[j + 1..j + n] == s[j..j + n][1..];
      DigitRunOfDigits(s, j + 1, n - 1);
    }
  }

  lemma {:induction false} NoMatchInName(name: string, rest: string, i: nat)
    requires ParenBeforeS(name) && i <= |name|
    requires |rest| > 0 && rest[0] == '('
    ensures SearchFrom(name + rest, i) == SearchFrom(name + rest, |name|)
    decreases |name| - i
  {
    if i < |name| {
      var s := name + rest;
      assert s[i] == name[i];
      if i + |Marker| <= |s| {
        if name[i] == '(' {
          assert s[i + 1] == name[i + 1] == 's';
          assert s[i..i + |Marker|][1] != Marker[1];
        } else {
          assert s[i..i + |Marker|][0] != Marker[0];
        }
      }
      assert MatchIntervalAt(s, i) == None;
      NoMatchInName(name, rest, i + 1);
    }
  }

  /** The marker, a run of digits and `)` match where the marker starts. */
  lemma MarkedNumberAt(name: string, digits: string)
    requires 0 < |digits| && AllDigits(digits)
    ensures MatchIntervalAt(name + Marker + digits + ")", |name|) == Some(DigitsValue(digits))
  {
    var s := name + Marker + digits + ")";
    var j := |name| + |Marker|;
    ConcatSlices(name, Marker, digits, ")");
    DigitRunOfDigits(s, j, |digits|);
  }

  lemma ConcatSlices(a: string, b: string, c: string, e: string)
    requires |e| > 0
    ensures var s := a + b + c + e; var j := |a| + |b|;
      && |s| == j + |c| + |e|
      && s[|a|..j] == b && s[j..j + |c|] == c && s[j + |c|] == e[0]
  {
  }

  /** After a name whose every `(` is followed by `s`, the marked number is the first match. */
  lemma SearchAfterName(name: string, digits: string)
    requires ParenBeforeS(name)
    requires 0 < |digits| && AllDigits(digits)
    ensures SearchFrom(name + Marker + digits + ")", 0) == Some(DigitsValue(digits))
  {
    var rest := Marker + digits + ")";
    assert name + rest == name + Marker + digits + ")";
    NoMatchInName(name, rest, 0);
    MarkedNumberAt(name, digits);
  }

  /** Round trip: the step count read back from an interval string is the one written into it. */
  lemma IntervalToNumberRoundTrip(steps: nat)
    ensures IntervalToNumber(IntervalString(steps)) == Some(steps)
  {
    TraditionalNameParens(steps);
    DigitsValueOfToString(steps);
    SearchLabelled(TraditionalName(steps), NatToString(steps));
  }

  /** The number read from `name (intervalo digits)` is the value of `digits`. */
  lemma SearchLabelled(name: string, digits: string)
    requires ParenBeforeS(name)
    requires 0 < |digits| && AllDigits(digits)
    ensures SearchFrom(name + " " + Marker + digits + ")", 0) == Some(DigitsValue(digits))
  {
    ParenBeforeSConcat(name, " ");
    SearchAfterName(name + " ", digits);
  }

  // ---------------------------------------------------------------------
  // Enumerating intervals and summing their decay

  /** The interval strings of a list of step counts. */
  function IntervalStrings(ds: seq<nat>): (r: seq<string>)
    ensures |r| == |ds|
  {
    if |ds| == 0 then [] else IntervalStrings(ds[..|ds| - 1]) + [IntervalString(ds[|ds| - 1])]
  }

  lemma {:induction false} IntervalStringsAt(ds: seq<nat>, k: nat)
    requires k < |ds|
    ensures IntervalStrings(ds)[k] == IntervalString(ds[k])
  {
    if k < |ds| - 1 {
      IntervalStringsAt(ds[..|ds| - 1], k);
    }
  }

  lemma IntervalStringsSnoc(ds: seq<nat>, d: nat)
    ensures IntervalStrings(ds + [d]) == IntervalStrings(ds) + [IntervalString(d)]
  {
    assert (ds + [d])[..|ds|] == ds;
  }

  /** The inner loop of `obter_intervalos`: the strings of the pairs `(i, j)`, `j > i`. */
  method AppendRow(ps: seq<int>, i: nat, prefix: seq<string>) returns (out: seq<string>)
    requires i < |ps| && prefix == IntervalStrings(RowsBefore(ps, i))
    ensures out == IntervalStrings(RowsBefore(ps, i + 1))
  {
    out := prefix;
    ghost var ds := RowsBefore(ps, i);
    RowStart(ps, i);
    var j := i + 1;
    while j < |ps|
      invariant i + 1 <= j <= |ps|
      invariant ds == RowsBefore(ps, i) + Row(ps, i)[..j - i - 1]
      invariant out == IntervalStrings(ds)
    {
      var d := AbsDiff(ps[i], ps[j]);
      RowStep(ps, i, j);
      IntervalStringsSnoc(ds, d);
      out := out + [IntervalString(d)];
      ds := ds + [d];
      j := j + 1;
    }
    RowEnd(ps, i);
  }

  /** `obter_intervalos`: one interval string per pair `i < j` of positioned notes. */
  method ObterIntervalos(notes: seq<string>) returns (r: Result<seq<string>>)
    ensures PositionsOf(notes).Err? ==> r == Err(PositionsOf(notes).error)
    ensures PositionsOf(notes).Ok? ==> r == Ok(IntervalStrings(PairDistances(PositionsOf(notes).value)))
  {
    var pr := PositionsOf(notes);
    if pr.Err? {
      return Err(pr.error);
    }
    var ps := pr.value;
    var out: seq<string> := [];
    var i := 0;
    while i < |ps|
      invariant 0 <= i <= |ps|
      invariant out == IntervalStrings(RowsBefore(ps, i))
    {
      out := AppendRow(ps, i, out);
      i := i + 1;
    }
    return Ok(out);
  }

  /** The decay summed over a list of step counts, left to right. */
  function SumDecay(ds: seq<nat>, decay: nat -> real): real {
    if |ds| == 0 then 0.0 else SumDecay(ds[..|ds| - 1], decay) + decay(ds[|ds| - 1])
  }

  /** What `calcular_densidade_intervalar` returns: the decay of every pair's distance, summed. */
  function IntervalDensityOf(notes: seq<string>, decay: nat -> real): Result<real> {
    match PositionsOf(notes)
    case Err(e) => Err(e)
    case Ok(ps) => Ok(SumDecay(PairDistances(ps), decay))
  }

  /** `calcular_densidade_intervalar`: parses each interval string back to its
      step count and accumulates the decay; `decay` stands for `decrescimo_gaussiano`. */
  method CalcularDensidadeIntervalar(notes: seq<string>, decay: nat -> real) returns (r: Result<real>)
    ensures r == IntervalDensityOf(notes, decay)
  {
    var strs := ObterIntervalos(notes);
    if strs.Err? {
      return Err(strs.error);
    }
    ghost var ds := PairDistances(PositionsOf(notes).value);
    var total := SumIntervalDecay(strs.value, ds, decay);
    return Ok(total);
  }

  /** The loop of `calcular_densidade_intervalar` over the interval strings. */
  method SumIntervalDecay(strs: seq<string>, ghost ds: seq<nat>, decay: nat -> real) returns (total: real)
    requires strs == IntervalStrings(ds)
    ensures total == SumDecay(ds, decay)
  {
    total := 0.0;
    for k := 0 to |strs|
      invariant total == SumDecay(ds[..k], decay)
    {
      var steps := IntervalToNumber(strs[k]);
      assert steps == Some(ds[k]) by {
        IntervalStringsAt(ds, k);
        IntervalToNumberRoundTrip(ds[k]);
      }
      if steps.Some? {
        total := total + decay(steps.value);
      }
      assert ds[..k + 1][..k] == ds[..k];
    }
    assert ds[..|ds|] == ds;
  }

  /** Fewer than two positioned notes give density 0. */
  lemma DensityOfFewNotes(notes: seq<string>, decay: nat -> real)
    requires PositionsOf(notes).Ok? && |PositionsOf(notes).value| < 2
    ensures IntervalDensityOf(notes, decay) == Ok(0.0)
  {
    PairCount(PositionsOf(notes).value);
  }

  lemma {:induction false} SumDecayBounds(ds: seq<nat>, decay: nat -> real)
    requires forall n: nat :: 0.0 <= decay(n) <= 1.0
    ensures 0.0 <= SumDecay(ds, decay) <= |ds| as real
  {
    if |ds| > 0 {
      SumDecayBounds(ds[..|ds| - 1], decay);
    }
  }

  lemma {:induction false} SumDecayUnison(ds: seq<nat>, decay: nat -> real)
    requires decay(0) == 1.0
    requires forall k :: 0 <= k < |ds| ==> ds[k] == 0
    ensures SumDecay(ds, decay) == |ds| as real
  {
    if |ds| > 0 {
      SumDecayUnison(ds[..|ds| - 1], decay);
    }
  }

  /** With a decay in [0, 1], the density of k positioned notes lies in [0, k·(k−1)/2]. */
  lemma DensityBounds(notes: seq<string>, decay: nat -> real)
    requires forall n: nat :: 0.0 <= decay(n) <= 1.0
    requires PositionsOf(notes).Ok?
    ensures var k := |PositionsOf(notes).value|;
      0.0 <= IntervalDensityOf(notes, decay).value <= (k * (k - 1) / 2) as real
  {
    var ps := PositionsOf(notes).value;
    PairSumBounds(ps, decay);
  }

  lemma PairSumBounds(ps: seq<int>, decay: nat -> real)
    requires forall n: nat :: 0.0 <= decay(n) <= 1.0
    ensures 0.0 <= SumDecay(PairDistances(ps), decay) <= (|ps| * (|ps| - 1) / 2) as real
  {
    PairCount(ps);
    SumDecayBounds(PairDistances(ps), decay);
  }

  /** k notes in unison, with decay(0) = 1, give exactly k·(k−1)/2. */
  lemma DensityOfUnison(notes: seq<string>, decay: nat -> real)
    requires decay(0) == 1.0
    requires PositionsOf(notes).Ok?
    requires forall i, j :: 0 <= i < j < |PositionsOf(notes).value| ==> PositionsOf(notes).value[i] == PositionsOf(notes).value[j]
    ensures var k := |PositionsOf(notes).value|;
      IntervalDensityOf(notes, decay) == Ok((k * (k - 1) / 2) as real)
  {
    var ps := PositionsOf(notes).value;
    PairSumUnison(ps, decay);
  }

  lemma PairSumUnison(ps: seq<int>, decay: nat -> real)
    requires decay(0) == 1.0
    requires forall i, j :: 0 <= i < j < |ps| ==> ps[i] == ps[j]
    ensures SumDecay(PairDistances(ps), decay) == (|ps| * (|ps| - 1) / 2) as real
  {
    PairCount(ps);
    PairDistancesZero(ps);
    SumDecayUnison(PairDistances(ps), decay);
  }

  // ---------------------------------------------------------------------

  /** `calcular_amplitude_agregado`: 0 without positioned notes, otherwise the
      largest minus the smallest position. */
  function AmplitudeOf(notes: seq<string>): (r: Result<int>)
    ensures r.Err? <==> PositionsOf(notes).Err?
    ensures r.Ok? ==> r.value >= 0
    ensures r.Ok? ==> var ps := PositionsOf(notes).value;
      && (forall i, j :: 0 <= i < |ps| && 0 <= j < |ps| ==> ps[i] - ps[j] <= r.value)
      && (r.value == 0 <==> forall i, j :: 0 <= i < j < |ps| ==> ps[i] == ps[j])
  {
    match PositionsOf(notes)
    case Err(e) => Err(e)
    case Ok(ps) => if |ps| == 0 then Ok(0) else Ok(MaxOf(ps) - MinOf(ps))
  }

  /** The amplitude is attained: it is the distance of some pair of positioned notes. */
  lemma AmplitudeIsWidestPair(notes: seq<string>)
    requires PositionsOf(notes).Ok? && |PositionsOf(notes).value| >= 2
    ensures var ps := PositionsOf(notes).value;
      exists k :: 0 <= k < |PairDistances(ps)| && PairDistances(ps)[k] == AmplitudeOf(notes).value
  {
    WidestPair(PositionsOf(notes).value);
  }

  lemma WidestPair(ps: seq<int>)
    requires |ps| >= 2
    ensures exists k :: 0 <= k < |PairDistances(ps)| && PairDistances(ps)[k] == MaxOf(ps) - MinOf(ps)
  {
    var hi :| 0 <= hi < |ps| && ps[hi] == MaxOf(ps);
    var lo :| 0 <= lo < |ps| && ps[lo] == MinOf(ps);
    if hi == lo {
      PairDistanceAt(ps, 0, 1);
    } else if lo < hi {
      PairDistanceAt(ps, lo, hi);
    } else {
      PairDistanceAt(ps, hi, lo);
    }
  }
}

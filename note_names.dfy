/** Twelve-tone note names of plot_metr_espectrais.py: a MIDI number is
    named by its pitch class (number modulo 12) and its octave (number
    divided by 12, minus one), so that MIDI 60 is "C4". */
module NoteNames {
  import opened Outcomes
  import opened Text

  /** `NOTAS_CROMATICAS`. */
  const ChromaticNames: seq<string> := ["C", "C#", "D", "D#", "E", "F", "F#", "G", "G#", "A", "A#", "B"]

  /** Python's `m % 12` and `m // 12 - 1`; Dafny's `%` and `/` agree with
      Python's floor division for the positive divisor 12. */
  function PitchClass(m: int): (k: nat)
    ensures k < 12
  {
    m % 12
  }

  function OctaveNumber(m: int): int {
    m / 12 - 1
  }

  /** The name of a MIDI number, with no range check. */
  function NameOf(m: int): string {
    ChromaticNames[PitchClass(m)] + IntToString(OctaveNumber(m))
  }

  /** `midi_to_note_name`: "N/A" outside the MIDI range 0..127. */
  function MidiToNoteName(m: int): (name: string)
    ensures name == "N/A" <==> m < 0 || m > 127
    ensures 0 <= m <= 127 ==> name == NameOf(m)
  {
    if m < 0 || m > 127 then "N/A"
    else
      assert NameOf(m)[0] != 'N';
      NameOf(m)
  }

  /** `semitons_to_note_name` for a whole number of semitones: the name of
      MIDI `60 + k`, without the range check of `midi_to_note_name`. */
  function SemitonsToNoteName(k: int): (name: string)
    ensures 0 <= 60 + k <= 127 ==> name == MidiToNoteName(60 + k)
    ensures name != "N/A" && NoteNameToMidi(name) == Some(60 + k)
  {
    NameRoundTrip(60 + k);
    assert NameOf(60 + k)[0] != 'N';
    NameOf(60 + k)
  }

  // ---------------------------------------------------------------------
  // Reading a name back

  /** A signed decimal numeral, as `IntToString` writes it. */
  function ParseInt(s: string): Option<int> {
    if |s| > 0 && s[0] == '-' then
      if |s| > 1 && AllDigits(s[1..]) then Some(-(DigitsValue(s[1..]) as int)) else None
    else if |s| > 0 && AllDigits(s) then Some(DigitsValue(s))
    else None
  }

  lemma ParseIntOfToString(i: int)
    ensures ParseInt(IntToString(i)) == Some(i)
  {
    if i < 0 {
      var s := IntToString(i);
      assert s[1..] == NatToString(-i);
      DigitsValueOfToString(-i);
    } else {
      DigitsValueOfToString(i);
    }
  }

  /** The position of a class name in `ChromaticNames`. */
  function ClassIndex(cls: string): (r: Option<nat>)
    ensures r.Some? ==> r.value < 12 && ChromaticNames[r.value] == cls
  {
    if cls == "C" then Some(0) else if cls == "C#" then Some(1)
    else if cls == "D" then Some(2) else if cls == "D#" then Some(3)
    else if cls == "E" then Some(4) else if cls == "F" then Some(5)
    else if cls == "F#" then Some(6) else if cls == "G" then Some(7)
    else if cls == "G#" then Some(8) else if cls == "A" then Some(9)
    else if cls == "A#" then Some(10) else if cls == "B" then Some(11)
    else None
  }

  lemma ClassIndexOfName(k: nat)
    requires k < 12
    ensures ClassIndex(ChromaticNames[k]) == Some(k)
  {
  }

  /** The inverse of `NameOf` on names whose octave is a numeral. */
  function NoteNameToMidi(name: string): Option<int> {
    var n := if |name| >= 2 && name[1] == '#' then 2 else 1;
    if |name| < n then None
    else
      match (ClassIndex(name[..n]), ParseInt(name[n..]))
      case (Some(k), Some(o)) => Some(12 * (o + 1) + k)
      case _ => None
  }

  /** Round trip: the name of every MIDI number determines the number. */
  lemma NameRoundTrip(m: int)
    ensures NoteNameToMidi(NameOf(m)) == Some(m)
  {
    var cls := ChromaticNames[PitchClass(m)];
    var oct := IntToString(OctaveNumber(m));
    var name := cls + oct;
    assert |cls| == 1 || cls[1] == '#';
    assert oct[0] == '-' || IsDigit(oct[0]);
    assert name[..|cls|] == cls && name[|cls|..] == oct;
    ClassIndexOfName(PitchClass(m));
    ParseIntOfToString(OctaveNumber(m));
  }

  /** Every name `midi_to_note_name` gives in the MIDI range reads back as its number. */
  lemma MidiNameRoundTrip(m: int)
    requires 0 <= m <= 127
    ensures NoteNameToMidi(MidiToNoteName(m)) == Some(m)
  {
    NameRoundTrip(m);
  }

  lemma MidiNameInjective(m1: int, m2: int)
    requires 0 <= m1 <= 127 && 0 <= m2 <= 127
    requires MidiToNoteName(m1) == MidiToNoteName(m2)
    ensures m1 == m2
  {
    MidiNameRoundTrip(m1);
    MidiNameRoundTrip(m2);
  }

  /** One octave up keeps the pitch class and raises the octave number by one. */
  lemma OctaveShift(m: int)
    ensures PitchClass(m + 12) == PitchClass(m) && OctaveNumber(m + 12) == OctaveNumber(m) + 1
  {
  }

  lemma NoteNameExamples()
    ensures MidiToNoteName(60) == "C4"
    ensures MidiToNoteName(69) == "A4"
    ensures MidiToNoteName(0) == "C-1"
    ensures MidiToNoteName(127) == "G9"
    ensures MidiToNoteName(128) == "N/A" && MidiToNoteName(-1) == "N/A"
    ensures SemitonsToNoteName(0) == "C4"
    ensures SemitonsToNoteName(-61) == "B-2"
  {
  }
}

/** The spelling normaliser and the MIDI numbering of Main.py:
    `converter_para_sustenido` rewrites a flat or quarter-tone spelling to
    the sharp spelling of its table, and `note_to_midi` numbers a note on
    the twelve-tone MIDI scale, with half numbers for quarter tones. */
module Spelling {
  import opened Outcomes
  import opened Text
  import NoteNames

  /** `equivalencias`. */
  const Equivalences: map<string, string> := map[
    "Cb" := "B", "Db" := "C#", "Eb" := "D#", "Fb" := "E", "Gb" := "F#",
    "Ab" := "G#", "Bb" := "A#",
    "C-" := "B#", "D-" := "C#+", "E-" := "D#+", "F-" := "E#+", "G-" := "F#+",
    "A-" := "G#+", "B-" := "A#+",
    "C+" := "B-", "D+" := "C#-", "E+" := "D#-", "F+" := "E-", "G+" := "F#-",
    "A+" := "G#-", "B+" := "A#-"
  ]

  // ---------------------------------------------------------------------
  // re.match(r'([A-Ga-g][#b]?[-+]?)([0-9x]?)', nota)

  predicate IsLetter(c: char) { 'A' <= c <= 'G' || 'a' <= c <= 'g' }
  predicate IsAccidental(c: char) { c == '#' || c == 'b' }
  predicate IsQuarterTone(c: char) { c == '-' || c == '+' }
  predicate IsOctaveChar(c: char) { IsDigit(c) || c == 'x' }

  /** A letter, an optional accidental and an optional quarter-tone mark, with no octave. */
  predicate IsBase(v: string) {
    && 1 <= |v| <= 3
    && IsLetter(v[0])
    && (|v| == 2 ==> IsAccidental(v[1]) || IsQuarterTone(v[1]))
    && (|v| == 3 ==> IsAccidental(v[1]) && IsQuarterTone(v[2]))
  }

  /** Whether the base `b` read so far can take `c` as its next character. */
  predicate Extends(b: string, c: char) {
    || (|b| == 1 && (IsAccidental(c) || IsQuarterTone(c)))
    || (|b| == 2 && IsAccidental(b[1]) && IsQuarterTone(c))
  }

  /** Lengths of the two groups when the pattern matches at the start of `s`:
      every part after the letter is optional, so the greedy reading is the match. */
  function MatchLengths(s: string): (r: Option<(nat, nat)>)
    ensures r.Some? <==> |s| > 0 && IsLetter(s[0])
    ensures r.Some? ==> 1 <= r.value.0 <= 3 && r.value.1 <= 1 && r.value.0 + r.value.1 <= |s|
    ensures r.Some? ==>
      var (q, o) := r.value;
      && IsBase(s[..q])
      && (q < |s| ==> !Extends(s[..q], s[q]))
      && (o == 1 <==> q < |s| && IsOctaveChar(s[q]))
  {
    if |s| == 0 || !IsLetter(s[0]) then None
    else
      var a := if 1 < |s| && IsAccidental(s[1]) then 2 else 1;
      var q := if a < |s| && IsQuarterTone(s[a]) then a + 1 else a;
      var o := if q < |s| && IsOctaveChar(s[q]) then 1 else 0;
      Some((q, o))
  }

  /** `converter_para_sustenido`: the base group, rewritten when it is a key of
      the table, followed by the octave group; the rest of the string is dropped. */
  function ConverterParaSustenido(nota: string): (r: Result<string>)
    ensures r.Err? <==> |nota| == 0 || !IsLetter(nota[0])
    ensures r.Err? ==> r.error == PatternMismatch
    ensures r.Ok? ==>
      var (q, o) := MatchLengths(nota).value;
      var base := nota[..q];
      && (base in Equivalences ==> r.value == Equivalences[base] + nota[q..q + o])
      && (base !in Equivalences ==> r.value == nota[..q + o])
  {
    match MatchLengths(nota)
    case None => Err(PatternMismatch)
    case Some((q, o)) =>
      var base := nota[..q];
      var octave := nota[q..q + o];
      if base in Equivalences then Ok(Equivalences[base] + octave)
      else
        assert nota[..q + o] == base + octave;
        Ok(base + octave)
  }

  /** The parts the source's regular expression yields, put back together. */
  lemma ConvertParts(nota: string, base: string, octave: string)
    requires MatchLengths(nota) == Some((|base| as nat, |octave| as nat))
    requires nota[..|base|] == base && nota[|base|..|base| + |octave|] == octave
    ensures ConverterParaSustenido(nota) == Ok((if base in Equivalences then Equivalences[base] else base) + octave)
  {
  }

  /** A note whose base is not a key of the table is returned unchanged, up to
      its octave character. */
  lemma UnchangedSpellings()
    ensures ConverterParaSustenido("C#4") == Ok("C#4")
    ensures ConverterParaSustenido("Db-4") == Ok("Db-4")
  {
    assert MatchLengths("C#4") == Some((2, 1));
    ConvertParts("C#4", "C#", "4");
    assert "C#" + "4" == "C#4";
    assert MatchLengths("Db-4") == Some((3, 1));
    ConvertParts("Db-4", "Db-", "4");
    assert "Db-" + "4" == "Db-4";
  }

  /** Lower-case letters are accepted but never rewritten. */
  lemma LowerCaseSpelling()
    ensures ConverterParaSustenido("db4") == Ok("db4")
  {
    assert MatchLengths("db4") == Some((2, 1));
    ConvertParts("db4", "db", "4");
    assert "db" + "4" == "db4";
  }

  /** What follows the octave character is dropped. */
  lemma TrailingTextDropped()
    ensures ConverterParaSustenido("E5th") == Ok("E5")
  {
    assert MatchLengths("E5th") == Some((1, 1));
    assert "E5th"[..1] == "E" && "E5th"[1..2] == "5";
    ConvertParts("E5th", "E", "5");
    assert "E" + "5" == "E5";
  }

  lemma RewrittenSpellings()
    ensures ConverterParaSustenido("Db4") == Ok("C#4")
    ensures ConverterParaSustenido("F-3") == Ok("E#+3")
    ensures ConverterParaSustenido("Gb") == Ok("F#")
  {
    assert MatchLengths("Db4") == Some((2, 1));
    ConvertParts("Db4", "Db", "4");
    assert Equivalences["Db"] + "4" == "C#4";
    assert MatchLengths("F-3") == Some((2, 1));
    ConvertParts("F-3", "F-", "3");
    assert Equivalences["F-"] + "3" == "E#+3";
    assert MatchLengths("Gb") == Some((2, 0));
    ConvertParts("Gb", "Gb", "");
    assert Equivalences["Gb"] + "" == "F#";
  }

  lemma InvalidSpellings()
    ensures ConverterParaSustenido("") == Err(PatternMismatch)
    ensures ConverterParaSustenido("H4") == Err(PatternMismatch)
    ensures ConverterParaSustenido("#4") == Err(PatternMismatch)
  {
  }

  /** The rewrite is not idempotent: "C+" becomes "B-", which becomes "A#+". */
  lemma NotIdempotent()
    ensures ConverterParaSustenido("C+") == Ok("B-")
    ensures ConverterParaSustenido("B-") == Ok("A#+")
  {
    assert MatchLengths("C+") == Some((2, 0));
    ConvertParts("C+", "C+", "");
    assert Equivalences["C+"] + "" == "B-";
    assert MatchLengths("B-") == Some((2, 0));
    ConvertParts("B-", "B-", "");
    assert Equivalences["B-"] + "" == "A#+";
  }

  /** No rewritten base is a flat spelling. */
  lemma EquivalencesAreSharp()
    ensures forall b :: b in Equivalences ==> (forall k :: 0 <= k < |Equivalences[b]| ==> Equivalences[b][k] != 'b')
  {
  }

  /** Every rewritten base is again a base the pattern reads whole. */
  lemma EquivalencesAreBases()
    ensures forall b :: b in Equivalences ==> MatchLengths(Equivalences[b]) == Some((|Equivalences[b]| as nat, 0 as nat))
  {
    forall b | b in Equivalences
      ensures MatchLengths(Equivalences[b]) == Some((|Equivalences[b]| as nat, 0 as nat))
    {
      assert IsBase(Equivalences[b]);
      BaseReadWhole(Equivalences[b]);
    }
  }

  lemma BaseReadWhole(v: string)
    requires IsBase(v)
    ensures MatchLengths(v) == Some((|v| as nat, 0 as nat))
  {
  }

  /** The base group is the only base prefix that cannot be extended, so the
      greedy reading is the one the regular expression makes. */
  lemma BaseGroupUnique(s: string, q: nat)
    requires q <= |s| && IsBase(s[..q]) && (q < |s| ==> !Extends(s[..q], s[q]))
    ensures MatchLengths(s).Some? && MatchLengths(s).value.0 == q
  {
    assert s[..q][0] == s[0];
  }

  // ---------------------------------------------------------------------
  // note_to_midi

  /** `note_base`: the MIDI offset of each class within its octave. */
  const NoteBase: map<string, real> := map[
    "C" := 0.0, "C#" := 1.0, "Db" := 1.0, "C#-" := 0.5, "C#+" := 1.5,
    "D" := 2.0, "D#" := 3.0, "Eb" := 3.0, "D#-" := 2.5, "D#+" := 3.5,
    "E" := 4.0, "F" := 5.0, "F#" := 6.0, "Gb" := 6.0, "F#-" := 5.5, "F#+" := 6.5,
    "G" := 7.0, "G#" := 8.0, "Ab" := 8.0, "G#-" := 7.5, "G#+" := 8.5,
    "A" := 9.0, "A#" := 10.0, "Bb" := 10.0, "A#-" := 9.5, "A#+" := 10.5,
    "B" := 11.0, "C-" := 11.5, "B#" := 12.0, "B#-" := 11.5
  ]

  /** `note_to_midi`: all but the last character is the class, the last is the
      octave digit. An empty note fails on `note[-1]` (IndexError), a
      non-digit octave in `int` (ValueError), an unknown class in the table (KeyError). */
  function NoteToMidi(note: string): (r: Result<real>)
    ensures |note| == 0 <==> r == Err(IndexOutOfRange)
    ensures |note| > 0 && !IsDigit(note[|note| - 1]) <==> r == Err(BadOctave)
    ensures |note| > 0 && IsDigit(note[|note| - 1]) && note[..|note| - 1] !in NoteBase <==> r == Err(UnknownMidiClass)
    ensures r.Ok? ==>
      var octave := DigitValue(note[|note| - 1]);
      r.value - NoteBase[note[..|note| - 1]] == (12 * (octave + 1)) as real
  {
    if |note| == 0 then Err(IndexOutOfRange)
    else
      var pitch := note[..|note| - 1];
      var last := note[|note| - 1];
      if !IsDigit(last) then Err(BadOctave)
      else if pitch !in NoteBase then Err(UnknownMidiClass)
      else Ok((12 * (DigitValue(last) + 1)) as real + NoteBase[pitch])
  }

  lemma NoteBaseInRange()
    ensures forall c :: c in NoteBase ==> 0.0 <= NoteBase[c] <= 12.0
  {
  }

  /** Every number lies in the octave band of its digit: from 12·(oct+1) to 12·(oct+2). */
  lemma MidiInOctave(note: string)
    requires NoteToMidi(note).Ok?
    ensures var octave := DigitValue(note[|note| - 1]);
      (12 * (octave + 1)) as real <= NoteToMidi(note).value <= (12 * (octave + 2)) as real
  {
    NoteBaseInRange();
  }

  lemma NoteToMidiOf(cls: string, d: char)
    requires IsDigit(d)
    ensures NoteToMidi(cls + [d]) == if cls in NoteBase then Ok((12 * (DigitValue(d) + 1)) as real + NoteBase[cls]) else Err(UnknownMidiClass)
  {
    assert (cls + [d])[..|cls|] == cls;
  }

  /** Two spellings with the same table value, e.g. "C#" and "Db", give the
      same number in every octave. */
  lemma EnharmonicMidi(c1: string, c2: string, d: char)
    requires c1 in NoteBase && c2 in NoteBase && NoteBase[c1] == NoteBase[c2] && IsDigit(d)
    ensures NoteToMidi(c1 + [d]) == NoteToMidi(c2 + [d])
  {
    NoteToMidiOf(c1, d);
    NoteToMidiOf(c2, d);
  }

  lemma NoteToMidiExamples()
    ensures NoteToMidi("C4") == Ok(60.0)
    ensures NoteToMidi("A4") == Ok(69.0)
    ensures NoteToMidi("C#+4") == Ok(61.5)
  {
    NoteToMidiOf("C", '4');
    assert "C4" == "C" + ['4'];
    NoteToMidiOf("A", '4');
    assert "A4" == "A" + ['4'];
    NoteToMidiOf("C#+", '4');
    assert "C#+4" == "C#+" + ['4'];
  }

  /** "E#-" is a class of the microtonal scale but not of this table. */
  lemma NoteToMidiErrors()
    ensures NoteToMidi("E#-4") == Err(UnknownMidiClass)
    ensures NoteToMidi("C") == Err(BadOctave)
    ensures NoteToMidi("") == Err(IndexOutOfRange)
  {
    NoteToMidiOf("E#-", '4');
    assert "E#-4" == "E#-" + ['4'];
  }

  lemma NoteBaseOfChromatic(k: nat)
    requires k < 12
    ensures NoteNames.ChromaticNames[k] in NoteBase && NoteBase[NoteNames.ChromaticNames[k]] == k as real
  {
  }

  lemma ChromaticMidi(k: nat, d: char)
    requires k < 12 && IsDigit(d)
    ensures NoteToMidi(NoteNames.ChromaticNames[k] + [d]) == Ok((12 * (DigitValue(d) + 1) + k) as real)
  {
    NoteToMidiOf(NoteNames.ChromaticNames[k], d);
    NoteBaseOfChromatic(k);
  }

  /** `midi_to_note_name` names the number 12·(o+1)+k by the k-th class and the digit of o. */
  lemma ChromaticName(k: nat, d: char)
    requires k < 12 && IsDigit(d) && 12 * (DigitValue(d) + 1) + k <= 127
    ensures NoteNames.MidiToNoteName(12 * (DigitValue(d) + 1) + k) == NoteNames.ChromaticNames[k] + [d]
  {
    var o := DigitValue(d);
    var m := 12 * (o + 1) + k;
    assert NoteNames.PitchClass(m) == k && NoteNames.OctaveNumber(m) == o by { DivModTwelve(o + 1, k); }
    assert IntToString(o) == [d];
  }

  lemma DivModTwelve(q: int, k: nat)
    requires k < 12
    ensures (12 * q + k) % 12 == k && (12 * q + k) / 12 == q
  {
  }

  /** The rewrite does not preserve the number: "C-4" is 71.5, its rewrite "B#4" is 72. */
  lemma RewriteShiftsQuarterFlatC()
    ensures ConverterParaSustenido("C-4") == Ok("B#4")
    ensures NoteToMidi("C-4") == Ok(71.5)
    ensures NoteToMidi("B#4") == Ok(72.0)
  {
    assert MatchLengths("C-4") == Some((2, 1));
    ConvertParts("C-4", "C-", "4");
    assert Equivalences["C-"] + "4" == "B#4";
    NoteToMidiOf("C-", '4');
    assert "C-4" == "C-" + ['4'];
    NoteToMidiOf("B#", '4');
    assert "B#4" == "B#" + ['4'];
  }
}

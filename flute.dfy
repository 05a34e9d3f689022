/** The flute instrument of flauta.py: its notation converter, its
    twelve-tone pitch numbering, and the lookups into its measured spectral
    table, including the largest possible density of a set of notes. */
module Flute {
  import opened Outcomes
  import opened Text
  import NoteNames
  import RealSeqs

  // ---------------------------------------------------------------------
  // converter_notacao

  /** `converter_notacao`: a note with a `b` has every `b` turned into `#`;
      then, if the note has a `-`, every `#-` becomes `#+`, and otherwise, if
      it has a `+`, every `#+` becomes `#-`. A note without `b` is returned as is. */
  function ConverterNotacao(nota: string): (r: string)
    ensures |r| == |nota|
  {
    if 'b' in nota then
      var sharp := ReplaceAll(nota, "b", "#");
      ReplaceCharAt(nota, 'b', '#');
      if '-' in nota then
        ReplacePairShape(sharp, '#', '-', '+');
        ReplaceAll(sharp, "#-", "#+")
      else if '+' in nota then
        ReplacePairShape(sharp, '#', '+', '-');
        ReplaceAll(sharp, "#+", "#-")
      else sharp
    else nota
  }

  /** What the conversion does, position by position: a note without `b` is
      unchanged; otherwise every `b` becomes `#` and no `b` is left. With a `-`
      in the note, exactly the `-`s right after a `b` or `#` become `+`;
      otherwise, with a `+`, exactly the `+`s right after a `b` or `#` become
      `-`; every other character stays. */
  lemma ConverterNotacaoSpec(nota: string)
    ensures 'b' !in nota ==> ConverterNotacao(nota) == nota
    ensures forall k :: 0 <= k < |nota| ==> ConverterNotacao(nota)[k] != 'b'
    ensures forall k :: 0 <= k < |nota| && nota[k] == 'b' ==> ConverterNotacao(nota)[k] == '#'
    ensures forall k :: 0 <= k < |nota| && nota[k] != 'b' && nota[k] != '-' && nota[k] != '+' ==> ConverterNotacao(nota)[k] == nota[k]
    ensures 'b' in nota && '-' in nota ==> forall k :: 0 <= k < |nota| ==>
      ConverterNotacao(nota)[k] ==
        if nota[k] == 'b' then '#'
        else if nota[k] == '-' && 0 < k && (nota[k - 1] == 'b' || nota[k - 1] == '#') then '+'
        else nota[k]
    ensures 'b' in nota && '-' !in nota && '+' in nota ==> forall k :: 0 <= k < |nota| ==>
      ConverterNotacao(nota)[k] ==
        if nota[k] == 'b' then '#'
        else if nota[k] == '+' && 0 < k && (nota[k - 1] == 'b' || nota[k - 1] == '#') then '-'
        else nota[k]
    ensures 'b' in nota && '-' in nota ==> NoPair(ConverterNotacao(nota), '#', '-')
    ensures 'b' in nota && '-' !in nota && '+' in nota ==> NoPair(ConverterNotacao(nota), '#', '+')
  {
    if 'b' in nota {
      var sharp := ReplaceAll(nota, "b", "#");
      ReplaceCharAt(nota, 'b', '#');
      if '-' in nota {
        ReplacePairShape(sharp, '#', '-', '+');
        ReplacePairRemoves(sharp, '#', '-', '+');
        QuarterSignFlipped(nota, sharp, ReplaceAll(sharp, "#-", "#+"), '-', '+');
      } else if '+' in nota {
        ReplacePairShape(sharp, '#', '+', '-');
        ReplacePairRemoves(sharp, '#', '+', '-');
        QuarterSignFlipped(nota, sharp, ReplaceAll(sharp, "#+", "#-"), '+', '-');
      }
    }
  }

  /** Composing the two replacements position by position: `sharp` is `nota`
      with `#` for `b`, and `r` is `sharp` with each `y` right after a `#` made `z`. */
  lemma QuarterSignFlipped(nota: string, sharp: string, r: string, y: char, z: char)
    requires y != 'b' && y != '#'
    requires |sharp| == |nota| == |r|
    requires forall k :: 0 <= k < |nota| ==> sharp[k] == if nota[k] == 'b' then '#' else nota[k]
    requires forall k {:trigger r[k]} :: 0 <= k < |sharp| ==> r[k] == if 0 < k && sharp[k - 1] == '#' && sharp[k] == y then z else sharp[k]
    ensures forall k :: 0 <= k < |nota| ==>
      r[k] == if nota[k] == 'b' then '#'
              else if nota[k] == y && 0 < k && (nota[k - 1] == 'b' || nota[k - 1] == '#') then z
              else nota[k]
  {
    forall k | 0 <= k < |nota| {
      QuarterSignAt(nota, sharp, r, y, z, k);
    }
  }

  lemma QuarterSignAt(nota: string, sharp: string, r: string, y: char, z: char, k: nat)
    requires y != 'b' && y != '#'
    requires |sharp| == |nota| == |r| && k < |nota|
    requires forall k :: 0 <= k < |nota| ==> sharp[k] == if nota[k] == 'b' then '#' else nota[k]
    requires forall k {:trigger r[k]} :: 0 <= k < |sharp| ==> r[k] == if 0 < k && sharp[k - 1] == '#' && sharp[k] == y then z else sharp[k]
    ensures r[k] == if nota[k] == 'b' then '#'
                    else if nota[k] == y && 0 < k && (nota[k - 1] == 'b' || nota[k - 1] == '#') then z
                    else nota[k]
  {
    assert sharp[k] == if nota[k] == 'b' then '#' else nota[k];
    assert r[k] == if 0 < k && sharp[k - 1] == '#' && sharp[k] == y then z else sharp[k];
    if 0 < k {
      assert sharp[k - 1] == if nota[k - 1] == 'b' then '#' else nota[k - 1];
    }
  }

  /** Converting twice is converting once: the output has no `b` left. */
  lemma ConverterNotacaoIdempotent(nota: string)
    ensures ConverterNotacao(ConverterNotacao(nota)) == ConverterNotacao(nota)
  {
    var r := ConverterNotacao(nota);
    ConverterNotacaoSpec(nota);
    assert forall k :: 0 <= k < |r| ==> r[k] != 'b';
    ConverterNotacaoSpec(r);
  }

  lemma ConverterNotacaoKeepsSharps()
    ensures ConverterNotacao("C#4") == "C#4"
  {
  }

  lemma ConverterNotacaoFlat()
    ensures ConverterNotacao("Db4") == "D#4"
  {
    ReplaceCharAt("Db4", 'b', '#');
  }

  /** The conversion keeps the letter: `Db4` is numbered as `D#4`, two
      semitones above `C#4`, the note that sounds as `Db4`. */
  lemma ConverterNotacaoKeepsLetter()
    ensures NotaParaInt(ConverterNotacao("Db4")) == Ok(51)
    ensures NotaParaInt("C#4") == Ok(49)
  {
    ConverterNotacaoFlat();
    assert "D#4"[..2] == "D#";
    assert "C#4"[..2] == "C#";
  }

  /** With a `-`, the flat becomes a sharp and the quarter-tone sign flips to `+`. */
  lemma ConverterNotacaoFlatMinus()
    ensures ConverterNotacao("Db-4") == "D#+4"
  {
    ReplaceCharAt("Db-4", 'b', '#');
    var sharp := ReplaceAll("Db-4", "b", "#");
    assert sharp == "D#-4";
    ReplacePairShape(sharp, '#', '-', '+');
    ReplacePairRemoves(sharp, '#', '-', '+');
  }

  /** With a `+`, the flat becomes a sharp and the quarter-tone sign flips to `-`. */
  lemma ConverterNotacaoFlatPlus()
    ensures ConverterNotacao("Eb+5") == "E#-5"
  {
    ReplaceCharAt("Eb+5", 'b', '#');
    var sharp := ReplaceAll("Eb+5", "b", "#");
    assert sharp == "E#+5";
    ReplacePairShape(sharp, '#', '+', '-');
    ReplacePairRemoves(sharp, '#', '+', '-');
  }

  // ---------------------------------------------------------------------
  // nota_para_int

  /** The `escala` of `nota_para_int`: the twelve sharp spellings. */
  const Escala: map<string, int> := map[
    "C" := 0, "C#" := 1, "D" := 2, "D#" := 3, "E" := 4, "F" := 5,
    "F#" := 6, "G" := 7, "G#" := 8, "A" := 9, "A#" := 10, "B" := 11
  ]

  lemma EscalaIsChromatic(k: nat)
    requires k < 12
    ensures NoteNames.ChromaticNames[k] in Escala && Escala[NoteNames.ChromaticNames[k]] == k
  {
  }

  /** `nota_para_int`: all but the last character is the class, the last the
      octave digit. The IndexError of an empty note is not caught; the KeyError
      of an unknown class and the ValueError of a non-digit octave are both
      raised again as ValueError. */
  function NotaParaInt(nota: string): (r: Result<int>)
    ensures |nota| == 0 <==> r == Err(IndexOutOfRange)
    ensures |nota| > 0 && !IsDigit(nota[|nota| - 1]) <==> r == Err(BadOctave)
    ensures |nota| > 0 && IsDigit(nota[|nota| - 1]) && nota[..|nota| - 1] !in Escala <==> r == Err(UnknownNoteClass)
    ensures r.Ok? ==>
      var octave := DigitValue(nota[|nota| - 1]);
      && 12 * octave <= r.value <= 12 * octave + 11
      && r.value % 12 == Escala[nota[..|nota| - 1]]
  {
    if |nota| == 0 then Err(IndexOutOfRange)
    else
      var base := nota[..|nota| - 1];
      var last := nota[|nota| - 1];
      if !IsDigit(last) then Err(BadOctave)
      else if base !in Escala then Err(UnknownNoteClass)
      else Ok(Escala[base] + 12 * DigitValue(last))
  }

  /** Round trip: the number of a twelve-tone name is the MIDI number, less one
      octave, that `midi_to_note_name` gives the same name. */
  lemma NotaParaIntRoundTrip(k: nat, d: char)
    requires k < 12 && IsDigit(d)
    ensures var n := k + 12 * DigitValue(d);
      && NotaParaInt(NoteNames.ChromaticNames[k] + [d]) == Ok(n)
      && NoteNames.NameOf(n + 12) == NoteNames.ChromaticNames[k] + [d]
  {
    var name := NoteNames.ChromaticNames[k];
    var o := DigitValue(d);
    var n := k + 12 * o;
    assert (name + [d])[..|name|] == name;
    EscalaIsChromatic(k);
    assert NoteNames.PitchClass(n + 12) == k;
    assert NoteNames.OctaveNumber(n + 12) == o;
    assert IntToString(o) == [d];
  }

  // ---------------------------------------------------------------------
  // spectral_data and its lookups

  /** The three measured dynamics of one note of `spectral_data`. */
  datatype Samples = Samples(pp: Measure, mf: Measure, ff: Measure)

  /** A measured density is never negative. */
  type Measure = r: real | r >= 0.0

  /** The inner dictionary's lookup: one of the keys "pp", "mf", "ff". */
  function AtDynamic(s: Samples, dinamica: string): Option<real> {
    if dinamica == "pp" then Some(s.pp)
    else if dinamica == "mf" then Some(s.mf)
    else if dinamica == "ff" then Some(s.ff)
    else None
  }

  /** Python's `max` over the inner dictionary's values. */
  function MaxSample(s: Samples): (m: real)
    ensures m == s.pp || m == s.mf || m == s.ff
    ensures s.pp <= m && s.mf <= m && s.ff <= m
  {
    var a := if s.pp >= s.mf then s.pp else s.mf;
    if a >= s.ff then a else s.ff
  }

  /** The number of notes in `spectral_data`. */
  const TableSize: nat := 75

  /** The `i`-th note of `spectral_data`, in the dictionary's order, with its
      three measurements. */
  function TableRow(i: nat): (string, Samples)
    requires i < TableSize
  {
    match i
    case 0 => ("C4", Samples(4.723, 11.721, 18.528))
    case 1 => ("C#-4", Samples(4.723, 11.721, 18.528))
    case 2 => ("C#4", Samples(4.518, 10.958, 18.414))
    case 3 => ("C#+4", Samples(4.576, 10.527, 18.497))
    case 4 => ("D4", Samples(4.872, 10.282, 18.883))
    case 5 => ("D#-4", Samples(4.9, 10.106, 19.127))
    case 6 => ("D#4", Samples(4.733, 9.465, 19.465))
    case 7 => ("D#+4", Samples(4.665, 9.0, 19.005))
    case 8 => ("E4", Samples(4.894, 8.278, 17.054))
    case 9 => ("E#-4", Samples(5.206, 8.35, 16.193))
    case 10 => ("F4", Samples(6.193, 9.398, 14.68))
    case 11 => ("F#-4", Samples(6.269, 9.965, 13.853))
    case 12 => ("F#4", Samples(5.321, 10.424, 13.26))
    case 13 => ("F#+4", Samples(5.515, 10.893, 13.037))
    case 14 => ("G4", Samples(7.408, 11.903, 12.966))
    case 15 => ("G#-4", Samples(7.503, 12.065, 12.688))
    case 16 => ("G#4", Samples(6.547, 11.894, 12.149))
    case 17 => ("G#+4", Samples(5.864, 11.253, 11.99))
    case 18 => ("A4", Samples(4.861, 9.739, 12.007))
    case 19 => ("A#-4", Samples(4.403, 9.191, 11.654))
    case 20 => ("A#4", Samples(3.865, 8.868, 10.374))
    case 21 => ("A#+4", Samples(3.595, 8.837, 10.217))
    case 22 => ("B4", Samples(3.044, 8.733, 10.573))
    case 23 => ("B#-4", Samples(2.834, 8.625, 10.559))
    case 24 => ("C5", Samples(2.761, 8.203, 9.801))
    case 25 => ("C#-5", Samples(2.722, 7.532, 8.731))
    case 26 => ("C#5", Samples(2.752, 5.848, 6.324))
    case 27 => ("C#+5", Samples(2.761, 5.763, 5.876))
    case 28 => ("D5", Samples(2.759, 6.847, 6.37))
    case 29 => ("D#-5", Samples(2.77, 7.093, 6.689))
    case 30 => ("D#5", Samples(2.776, 6.416, 6.742))
    case 31 => ("D#+5", Samples(2.743, 5.96, 6.616))
    case 32 => ("E5", Samples(2.634, 5.377, 6.563))
    case 33 => ("E#-5", Samples(2.628, 5.242, 6.182))
    case 34 => ("F5", Samples(2.691, 5.34, 5.047))
    case 35 => ("F#-5", Samples(2.669, 5.102, 4.389))
    case 36 => ("F#5", Samples(2.518, 4.282, 3.783))
    case 37 => ("F#+5", Samples(2.572, 4.187, 3.439))
    case 38 => ("G5", Samples(2.841, 4.743, 3.274))
    case 39 => ("G#-5", Samples(2.902, 4.988, 3.508))
    case 40 => ("G#5", Samples(2.821, 5.225, 4.505))
    case 41 => ("G#+5", Samples(2.751, 4.989, 4.829))
    case 42 => ("A5", Samples(2.609, 4.121, 5.019))
    case 43 => ("A#-5", Samples(2.537, 3.442, 4.818))
    case 44 => ("A#5", Samples(2.488, 2.908, 4.183))
    case 45 => ("A#+5", Samples(2.541, 2.829, 3.915))
    case 46 => ("B5", Samples(2.707, 3.186, 3.3))
    case 47 => ("B#-5", Samples(3.087, 3.271, 3.23))
    case 48 => ("C6", Samples(3.912, 2.957, 3.345))
    case 49 => ("C#-6", Samples(3.578, 2.388, 2.828))
    case 50 => ("C#6", Samples(1.734, 1.11, 1.198))
    case 51 => ("C#+6", Samples(1.309, 1.278, 1.125))
    case 52 => ("D6", Samples(2.255, 3.165, 2.763))
    case 53 => ("D#-6", Samples(2.435, 3.471, 2.76))
    case 54 => ("D#6", Samples(2.573, 3.239, 1.467))
    case 55 => ("D#+6", Samples(2.571, 2.91, 1.072))
    case 56 => ("E6", Samples(2.492, 1.856, 0.574))
    case 57 => ("E#-6", Samples(2.428, 1.632, 0.503))
    case 58 => ("F6", Samples(2.339, 2.014, 0.725))
    case 59 => ("F#-6", Samples(2.272, 2.203, 0.834))
    case 60 => ("F#6", Samples(2.161, 2.434, 0.96))
    case 61 => ("F#+6", Samples(2.163, 2.507, 1.007))
    case 62 => ("G6", Samples(2.3, 2.481, 1.011))
    case 63 => ("G#-6", Samples(2.193, 2.327, 0.941))
    case 64 => ("G#6", Samples(1.797, 1.96, 0.739))
    case 65 => ("G#+6", Samples(1.681, 1.972, 0.802))
    case 66 => ("A6", Samples(1.716, 2.396, 1.206))
    case 67 => ("A#-6", Samples(1.741, 2.68, 1.437))
    case 68 => ("A#6", Samples(1.709, 2.858, 1.536))
    case 69 => ("A#+6", Samples(1.625, 2.687, 1.359))
    case 70 => ("B6", Samples(1.363, 1.87, 0.664))
    case 71 => ("B#-6", Samples(1.264, 1.472, 0.445))
    case 72 => ("C7", Samples(1.079, 0.454, 0.185))
    case 73 => ("C#-7", Samples(1.016, 0.35, 0.154))
    case _ => ("C#7", Samples(0.799, 0.647, 0.145))
  }

  /** A dictionary lookup over `size` rows, from the `i`-th row on: the
      measurements of the first row whose key is `nota`. */
  function LookupFrom(rows: nat --> (string, Samples), size: nat, nota: string, i: nat): Option<Samples>
    requires i <= size && forall m: nat :: m < size ==> rows.requires(m)
    decreases size - i
  {
    if i == size then None
    else if rows(i).0 == nota then Some(rows(i).1)
    else LookupFrom(rows, size, nota, i + 1)
  }

  /** Looking a note up in `spectral_data`: its three measurements, or
      nothing for a note the dictionary lacks. */
  function SpectralEntry(nota: string): Option<Samples> {
    LookupFrom(TableRow, TableSize, nota, 0)
  }

  /** A note at row `j` and at none of the rows from `i` up to `j` is found there. */
  lemma {:induction false} LookupFound(rows: nat --> (string, Samples), size: nat, nota: string, i: nat, j: nat)
    requires forall m: nat :: m < size ==> rows.requires(m)
    requires i <= j < size && rows(j).0 == nota
    requires forall m: nat :: i <= m < j ==> rows(m).0 != nota
    ensures LookupFrom(rows, size, nota, i) == Some(rows(j).1)
    decreases j - i
  {
    if i < j {
      LookupFound(rows, size, nota, i + 1, j);
    }
  }

  /** A note at none of the rows from `i` on is not found. */
  lemma {:induction false} LookupMissing(rows: nat --> (string, Samples), size: nat, nota: string, i: nat)
    requires forall m: nat :: m < size ==> rows.requires(m)
    requires i <= size && forall m: nat :: i <= m < size ==> rows(m).0 != nota
    ensures LookupFrom(rows, size, nota, i) == None
    decreases size - i
  {
    if i < size {
      LookupMissing(rows, size, nota, i + 1);
    }
  }

  /** A note that is found is the key of some row. */
  lemma {:induction false} LookupIsKey(rows: nat --> (string, Samples), size: nat, nota: string, i: nat) returns (j: nat)
    requires forall m: nat :: m < size ==> rows.requires(m)
    requires i <= size && LookupFrom(rows, size, nota, i).Some?
    ensures i <= j < size && rows(j).0 == nota && LookupFrom(rows, size, nota, i) == Some(rows(j).1)
    decreases size - i
  {
    if rows(i).0 == nota {
      j := i;
    } else {
      j := LookupIsKey(rows, size, nota, i + 1);
    }
  }

  /** The table is keyed by sharp spellings only. */
  lemma SpectralKeysHaveNoFlat(nota: string)
    ensures SpectralEntry(nota).Some? ==> 'b' !in nota
  {
    if SpectralEntry(nota).Some? {
      var j := LookupIsKey(TableRow, TableSize, nota, 0);
      KeysHaveNoFlat(j);
    }
  }

  lemma KeysHaveNoFlat(j: nat)
    requires j < TableSize
    ensures 'b' !in TableRow(j).0
  {
  }

  /** The lookup `calcular_densidade` makes once the note's entry has been
      found or not: the measurement at the dynamic, or an error (a KeyError
      raised again as ValueError) when the note or the dynamic is missing. */
  function DensityOfEntry(e: Option<Samples>, dinamica: string): (r: Result<real>)
    ensures r.Ok? <==> e.Some? && AtDynamic(e.value, dinamica).Some?
    ensures r.Err? ==> r.error == MissingEntry
    ensures r.Ok? ==> (r.value == e.value.pp || r.value == e.value.mf || r.value == e.value.ff)
    ensures r.Ok? ==> 0.0 <= r.value <= MaxSample(e.value)
  {
    match e
    case None => Err(MissingEntry)
    case Some(s) =>
      match AtDynamic(s, dinamica)
      case Some(v) => Ok(v)
      case None => Err(MissingEntry)
  }

  /** `calcular_densidade`. */
  function CalcularDensidade(nota: string, dinamica: string): Result<real> {
    DensityOfEntry(SpectralEntry(nota), dinamica)
  }

  lemma CalcularDensidadeFound()
    ensures CalcularDensidade("A4", "mf") == Ok(9.739)
  {
    LookupFound(TableRow, TableSize, "A4", 0, 18);
  }

  lemma CalcularDensidadeMissingDynamic()
    ensures CalcularDensidade("A4", "p") == Err(MissingEntry)
  {
    LookupFound(TableRow, TableSize, "A4", 0, 18);
  }

  /** Flat spellings are not keys of the table. */
  lemma CalcularDensidadeMissingNote()
    ensures CalcularDensidade("Bb4", "pp") == Err(MissingEntry)
  {
    SpectralKeysHaveNoFlat("Bb4");
    assert "Bb4"[1] == 'b';
  }

  // ---------------------------------------------------------------------
  // predict_intermediate_dynamics

  /** The nine dynamic names of `dynamic_levels`, each of which gets a prediction. */
  const AllDynamics: set<string> := {"pppp", "ppp", "pp", "p", "mf", "f", "ff", "fff", "ffff"}

  /** `predict_intermediate_dynamics` for a single note: the regressor is fitted
      to the note's pp/mf/ff values and evaluated at all nine levels. `gpr`
      stands for the fitted Gaussian process: given the three measured values
      and a level name it returns the prediction at that level. */
  function PredictIntermediateDynamics(pp: real, mf: real, ff: real, gpr: (real, real, real, string) -> real)
    : (r: map<string, real>)
    ensures r.Keys == AllDynamics
    ensures forall d :: d in r ==> r[d] == gpr(pp, mf, ff, d)
  {
    map d | d in AllDynamics :: gpr(pp, mf, ff, d)
  }

  /** The later `get_max_note_density`: for the converted note, the largest of
      its three measured values times `scale(num)`, or 0 when the table lacks
      it; `scale` stands for `np.sqrt` and the dynamic is not used. */
  function GetMaxNoteDensity(nota: string, dinamica: string, num: int, scale: int -> real): real {
    MaxOfEntry(SpectralEntry(ConverterNotacao(nota)), num, scale)
  }

  function MaxOfEntry(e: Option<Samples>, num: int, scale: int -> real): real {
    match e
    case Some(s) => MaxSample(s) * scale(num)
    case None => 0.0
  }

  /** With a non-negative scale, the maximum of an entry is non-negative and
      bounds the scaled density of the entry at every dynamic. */
  lemma EntryBounds(e: Option<Samples>, dinamica: string, num: int, scale: int -> real)
    requires scale(num) >= 0.0
    ensures MaxOfEntry(e, num, scale) >= 0.0
    ensures DensityOfEntry(e, dinamica).Ok? ==>
      DensityOfEntry(e, dinamica).value * scale(num) <= MaxOfEntry(e, num, scale)
  {
    if e.Some? {
      ScaledBound(AtDynamic(e.value, dinamica), e.value, scale(num));
    }
  }

  /** For `get_max_note_density` itself: 0 when the table lacks the converted
      note, and never negative; the bound by `calcular_densidade` of the
      converted note at each dynamic is `EntryBounds` for that note's entry. */
  lemma MaxNoteDensityBounds(nota: string, dinamica: string, num: int, scale: int -> real)
    requires scale(num) >= 0.0
    ensures SpectralEntry(ConverterNotacao(nota)).None? ==> GetMaxNoteDensity(nota, dinamica, num, scale) == 0.0
    ensures GetMaxNoteDensity(nota, dinamica, num, scale) >= 0.0
  {
    EntryBounds(SpectralEntry(ConverterNotacao(nota)), dinamica, num, scale);
  }

  /** What `calcular_densidade` finds, scaled, is non-negative and never
      exceeds `get_max_note_density` of the same note: a key of the table has
      no flat, so `converter_notacao` leaves it as it is. */
  lemma DensityWithinMax(nota: string, dinamica: string, num: int, scale: int -> real, v: real)
    requires CalcularDensidade(nota, dinamica) == Ok(v) && scale(num) >= 0.0
    ensures 0.0 <= v * scale(num) <= GetMaxNoteDensity(nota, dinamica, num, scale)
  {
    EntryWithinMax(SpectralEntry(nota), dinamica, num, scale, v);
    MaxOfKey(nota, dinamica, num, scale);
  }

  /** The maximum of a key of the table is its own entry's maximum. */
  lemma MaxOfKey(nota: string, dinamica: string, num: int, scale: int -> real)
    requires SpectralEntry(nota).Some?
    ensures GetMaxNoteDensity(nota, dinamica, num, scale) == MaxOfEntry(SpectralEntry(nota), num, scale)
  {
    assert ConverterNotacao(nota) == nota by {
      SpectralKeysHaveNoFlat(nota);
    }
  }

  lemma EntryWithinMax(e: Option<Samples>, dinamica: string, num: int, scale: int -> real, v: real)
    requires DensityOfEntry(e, dinamica) == Ok(v) && scale(num) >= 0.0
    ensures 0.0 <= v * scale(num) <= MaxOfEntry(e, num, scale)
  {
    EntryBounds(e, dinamica, num, scale);
    RealSeqs.ProductNonNegative(v, scale(num));
  }

  /** A flat spelling reaches the table through the sharp of the same
      letter: `Ab4` is read as `A#4`. */
  lemma GetMaxNoteDensityOfFlat(scale: int -> real)
    ensures GetMaxNoteDensity("Ab4", "pp", 4, scale) == 10.374 * scale(4)
  {
    ConverterNotacaoAb4();
    SpectralEntryOfASharp4();
    assert MaxSample(Samples(3.865, 8.868, 10.374)) == 10.374;
  }

  lemma SpectralEntryOfASharp4()
    ensures SpectralEntry("A#4") == Some(Samples(3.865, 8.868, 10.374))
  {
    LookupFound(TableRow, TableSize, "A#4", 0, 20);
  }

  lemma ConverterNotacaoAb4()
    ensures ConverterNotacao("Ab4") == "A#4"
  {
    ReplaceCharAt("Ab4", 'b', '#');
  }

  /** `Bb4` is read as `B#4`, which the table lacks, so its maximum is 0. */
  lemma GetMaxNoteDensityOfMissingSharp(scale: int -> real)
    ensures GetMaxNoteDensity("Bb4", "pp", 4, scale) == 0.0
  {
    ReplaceCharAt("Bb4", 'b', '#');
    assert ConverterNotacao("Bb4") == "B#4";
    LookupMissing(TableRow, TableSize, "B#4", 0);
  }

  lemma ScaledBound(v: Option<real>, s: Samples, f: real)
    requires f >= 0.0 && (v.Some? ==> v.value <= MaxSample(s))
    ensures MaxSample(s) * f >= 0.0
    ensures v.Some? ==> v.value * f <= MaxSample(s) * f
  {
  }

  /** The total of `calculate_max_possible_density` over the first `n` triples of the zip. */
  function MaxPossibleOf(notas: seq<string>, dinamicas: seq<string>, nums: seq<int>, scale: int -> real, n: nat): real
    requires n <= |notas| && n <= |dinamicas| && n <= |nums|
  {
    if n == 0 then 0.0
    else MaxPossibleOf(notas, dinamicas, nums, scale, n - 1) + GetMaxNoteDensity(notas[n - 1], dinamicas[n - 1], nums[n - 1], scale)
  }

  function ZipLength(a: nat, b: nat, c: nat): (n: nat)
    ensures n <= a && n <= b && n <= c && (n == a || n == b || n == c)
  {
    if a <= b && a <= c then a else if b <= c then b else c
  }

  /** The later `calculate_max_possible_density`: the per-note maxima summed
      over the zip of the three lists, which stops at the shortest. */
  method CalculateMaxPossibleDensity(notas: seq<string>, dinamicas: seq<string>, nums: seq<int>, scale: int -> real)
    returns (total: real)
    ensures total == MaxPossibleOf(notas, dinamicas, nums, scale, ZipLength(|notas|, |dinamicas|, |nums|))
  {
    var n := ZipLength(|notas|, |dinamicas|, |nums|);
    total := 0.0;
    for k := 0 to n
      invariant total == MaxPossibleOf(notas, dinamicas, nums, scale, k)
    {
      total := total + GetMaxNoteDensity(notas[k], dinamicas[k], nums[k], scale);
    }
  }

  /** With a non-negative scale the largest possible density is non-negative. */
  lemma {:induction false} MaxPossibleNonNegative(notas: seq<string>, dinamicas: seq<string>, nums: seq<int>, scale: int -> real, n: nat)
    requires n <= |notas| && n <= |dinamicas| && n <= |nums|
    requires forall k :: 0 <= k < n ==> scale(nums[k]) >= 0.0
    ensures MaxPossibleOf(notas, dinamicas, nums, scale, n) >= 0.0
  {
    if n > 0 {
      MaxPossibleNonNegative(notas, dinamicas, nums, scale, n - 1);
      assert GetMaxNoteDensity(notas[n - 1], dinamicas[n - 1], nums[n - 1], scale) >= 0.0 by {
        MaxNoteDensityBounds(notas[n - 1], dinamicas[n - 1], nums[n - 1], scale);
      }
    }
  }
}

/** The "Calcular" handler of Main.py, lifted out of the form: the notes are
    normalised to sharps, each note's density is read from the instrument
    table (or predicted for a dynamic the table does not measure) and scaled
    by its player count, and the interval density, the instrument density and
    the spectral spread are combined into the weighted, refined and total
    densities. The instrument module is the flute's; the transcendental
    functions and the regressor are parameters. */
module Composer {
  import opened Outcomes
  import opened RealSeqs
  import Spelling
  import Flute
  import IntervalDensity
  import SpectralMoments

  /** A list comprehension whose element function may raise: every element
      mapped, or the error of the first element that fails. */
  function MapAll<A, B>(xs: seq<A>, f: A -> Result<B>): (r: Result<seq<B>>)
    ensures r.Ok? <==> forall k :: 0 <= k < |xs| ==> f(xs[k]).Ok?
    ensures r.Ok? ==> |r.value| == |xs| && forall k :: 0 <= k < |xs| ==> r.value[k] == f(xs[k]).value
    ensures r.Err? ==> exists k :: 0 <= k < |xs| && f(xs[k]) == Err(r.error) && forall j :: 0 <= j < k ==> f(xs[j]).Ok?
  {
    if |xs| == 0 then Ok([])
    else
      var front :- MapAll(xs[..|xs| - 1], f);
      var y :- f(xs[|xs| - 1]);
      Ok(front + [y])
  }

  // ---------------------------------------------------------------------
  // One note's density

  /** The three dynamics the instrument table measures. */
  const Measured: seq<string> := ["pp", "mf", "ff"]

  /** The loop body of the handler once the note's table entry is found or
      not: a measured dynamic is read off the entry; any other dynamic is
      predicted from the entry's pp, mf and ff values, and a name outside the
      nine levels is a KeyError. */
  function NoteDensityOfEntry(e: Option<Flute.Samples>, dinamica: string, gpr: (real, real, real, string) -> real)
    : (r: Result<real>)
    ensures r.Err? <==> e.None? || dinamica !in Flute.AllDynamics
    ensures r.Err? ==> r.error == if e.None? then MissingEntry else UnknownDynamic
    ensures r.Ok? && dinamica in Measured ==> r == Flute.DensityOfEntry(e, dinamica)
    ensures r.Ok? && dinamica !in Measured ==> r.value == gpr(e.value.pp, e.value.mf, e.value.ff, dinamica)
  {
    if dinamica in Measured then Flute.DensityOfEntry(e, dinamica)
    else
      // the pp lookup fails exactly when the entry is missing; an existing
      // entry has all three dynamics
      match e
      case None => Err(MissingEntry)
      case Some(s) =>
        var predicted := Flute.PredictIntermediateDynamics(s.pp, s.mf, s.ff, gpr);
        if dinamica in predicted then Ok(predicted[dinamica]) else Err(UnknownDynamic)
  }

  /** The density of one note at one dynamic, before scaling; `table` is the
      instrument module's spectral table. */
  function NoteDensity(table: string -> Option<Flute.Samples>, nota: string, dinamica: string,
                       gpr: (real, real, real, string) -> real): Result<real> {
    NoteDensityOfEntry(table(nota), dinamica, gpr)
  }

  /** For a measured dynamic the predictor plays no part: the density is the
      table's, exactly as `calcular_densidade` returns it. */
  lemma MeasuredIgnoresPredictor(nota: string, dinamica: string,
                                 gpr1: (real, real, real, string) -> real, gpr2: (real, real, real, string) -> real)
    requires dinamica in Measured
    ensures NoteDensity(Flute.SpectralEntry, nota, dinamica, gpr1) == NoteDensity(Flute.SpectralEntry, nota, dinamica, gpr2)
                                                                   == Flute.CalcularDensidade(nota, dinamica)
  {
    NoteDensityAtMeasured(Flute.SpectralEntry(nota), dinamica, gpr1);
    NoteDensityAtMeasured(Flute.SpectralEntry(nota), dinamica, gpr2);
  }

  lemma NoteDensityAtMeasured(e: Option<Flute.Samples>, dinamica: string, gpr: (real, real, real, string) -> real)
    requires dinamica in Measured
    ensures NoteDensityOfEntry(e, dinamica, gpr) == Flute.DensityOfEntry(e, dinamica)
  {
  }

  // ---------------------------------------------------------------------
  // densidades_instrumento

  /** `scaled_density`: a note's density times the scale factor of its player
      count; `scale` stands for `np.sqrt`. */
  function ScaledDensity(densidade: real, num: int, scale: int -> real): real {
    densidade * scale(num)
  }

  /** The scaled densities of the first `n` zipped notes, or the error of the
      first note whose density cannot be found. */
  function DensitiesOf(table: string -> Option<Flute.Samples>, notas: seq<string>, dinamicas: seq<string>, nums: seq<int>,
                       gpr: (real, real, real, string) -> real, scale: int -> real, n: nat): (r: Result<seq<real>>)
    requires n <= |notas| && n <= |dinamicas| && n <= |nums|
    ensures r.Ok? ==> |r.value| == n
  {
    if n == 0 then Ok([])
    else
      var front :- DensitiesOf(table, notas, dinamicas, nums, gpr, scale, n - 1);
      var d :- NoteDensity(table, notas[n - 1], dinamicas[n - 1], gpr);
      Ok(front + [ScaledDensity(d, nums[n - 1], scale)])
  }

  /** The density list exists exactly when every note's density does. */
  lemma {:induction false} DensitiesOfOk(table: string -> Option<Flute.Samples>, notas: seq<string>, dinamicas: seq<string>, nums: seq<int>,
                                         gpr: (real, real, real, string) -> real, scale: int -> real, n: nat)
    requires n <= |notas| && n <= |dinamicas| && n <= |nums|
    ensures DensitiesOf(table, notas, dinamicas, nums, gpr, scale, n).Ok? <==>
      forall k :: 0 <= k < n ==> NoteDensity(table, notas[k], dinamicas[k], gpr).Ok?
  {
    if n > 0 {
      DensitiesOfOk(table, notas, dinamicas, nums, gpr, scale, n - 1);
    }
  }

  /** A density list holds each note's density times its note's scale
      factor, in note order. */
  lemma {:induction false} DensitiesOfValues(table: string -> Option<Flute.Samples>, notas: seq<string>, dinamicas: seq<string>, nums: seq<int>,
                                             gpr: (real, real, real, string) -> real, scale: int -> real, n: nat)
    requires n <= |notas| && n <= |dinamicas| && n <= |nums|
    requires DensitiesOf(table, notas, dinamicas, nums, gpr, scale, n).Ok?
    ensures forall k :: 0 <= k < n ==>
      NoteDensity(table, notas[k], dinamicas[k], gpr).Ok? &&
      DensitiesOf(table, notas, dinamicas, nums, gpr, scale, n).value[k] == ScaledDensity(NoteDensity(table, notas[k], dinamicas[k], gpr).value, nums[k], scale)
  {
    if n > 0 {
      var front := DensitiesOf(table, notas, dinamicas, nums, gpr, scale, n - 1);
      assert front.Ok?;
      DensitiesOfValues(table, notas, dinamicas, nums, gpr, scale, n - 1);
      assert DensitiesOf(table, notas, dinamicas, nums, gpr, scale, n).value[..n - 1] == front.value;
    }
  }

  /** Once a prefix has failed, every longer prefix fails with the same error. */
  lemma {:induction false} ErrorPersists(table: string -> Option<Flute.Samples>, notas: seq<string>, dinamicas: seq<string>, nums: seq<int>,
                                         gpr: (real, real, real, string) -> real, scale: int -> real, k: nat, n: nat)
    requires k <= n <= |notas| && n <= |dinamicas| && n <= |nums|
    requires DensitiesOf(table, notas, dinamicas, nums, gpr, scale, k).Err?
    ensures DensitiesOf(table, notas, dinamicas, nums, gpr, scale, n) == DensitiesOf(table, notas, dinamicas, nums, gpr, scale, k)
  {
    if k < n {
      ErrorPersists(table, notas, dinamicas, nums, gpr, scale, k, n - 1);
    }
  }

  /** One more note with a density extends the list by its scaled density. */
  lemma DensitiesOfSnoc(table: string -> Option<Flute.Samples>, notas: seq<string>, dinamicas: seq<string>, nums: seq<int>,
                        gpr: (real, real, real, string) -> real, scale: int -> real, k: nat)
    requires k < |notas| && k < |dinamicas| && k < |nums|
    requires DensitiesOf(table, notas, dinamicas, nums, gpr, scale, k).Ok?
    requires NoteDensity(table, notas[k], dinamicas[k], gpr).Ok?
    ensures DensitiesOf(table, notas, dinamicas, nums, gpr, scale, k + 1)
      == Ok(DensitiesOf(table, notas, dinamicas, nums, gpr, scale, k).value
            + [ScaledDensity(NoteDensity(table, notas[k], dinamicas[k], gpr).value, nums[k], scale)])
  {
  }

  /** The loop of the handler over `zip(notas, dinamicas, numeros_instrumentos)`,
      appending each scaled density to `densidades_instrumento`. */
  method InstrumentDensities(table: string -> Option<Flute.Samples>, notas: seq<string>, dinamicas: seq<string>, nums: seq<int>,
                             gpr: (real, real, real, string) -> real, scale: int -> real) returns (r: Result<seq<real>>)
    ensures r == DensitiesOf(table, notas, dinamicas, nums, gpr, scale, Flute.ZipLength(|notas|, |dinamicas|, |nums|))
  {
    var n := Flute.ZipLength(|notas|, |dinamicas|, |nums|);
    var densidades: seq<real> := [];
    for k := 0 to n
      invariant DensitiesOf(table, notas, dinamicas, nums, gpr, scale, k) == Ok(densidades)
    {
      var densidade := NoteDensity(table, notas[k], dinamicas[k], gpr);
      if densidade.Err? {
        ErrorPersists(table, notas, dinamicas, nums, gpr, scale, k + 1, n);
        return Err(densidade.error);
      }
      DensitiesOfSnoc(table, notas, dinamicas, nums, gpr, scale, k);
      densidades := densidades + [ScaledDensity(densidade.value, nums[k], scale)];
    }
    return Ok(densidades);
  }

  /** With measured dynamics only and non-negative scale factors, the flute's
      instrument density lies between 0 and `calculate_max_possible_density`
      of the same notes. */
  lemma InstrumentWithinMaxPossible(notas: seq<string>, dinamicas: seq<string>, nums: seq<int>,
                                    gpr: (real, real, real, string) -> real, scale: int -> real, n: nat)
    requires n <= |notas| && n <= |dinamicas| && n <= |nums|
    requires DensitiesOf(Flute.SpectralEntry, notas, dinamicas, nums, gpr, scale, n).Ok?
    requires forall k :: 0 <= k < n ==> dinamicas[k] in Measured && scale(nums[k]) >= 0.0
    ensures 0.0 <= Sum(DensitiesOf(Flute.SpectralEntry, notas, dinamicas, nums, gpr, scale, n).value)
                <= Flute.MaxPossibleOf(notas, dinamicas, nums, scale, n)
  {
    var ds := DensitiesOf(Flute.SpectralEntry, notas, dinamicas, nums, gpr, scale, n).value;
    DensitiesOfValues(Flute.SpectralEntry, notas, dinamicas, nums, gpr, scale, n);
    forall k | 0 <= k < n
      ensures 0.0 <= ds[k] <= Flute.GetMaxNoteDensity(notas[k], dinamicas[k], nums[k], scale)
    {
      NoteWithinMax(notas[k], dinamicas[k], nums[k], gpr, scale);
    }
    SumWithinMaxPossible(ds, notas, dinamicas, nums, scale, n);
  }

  /** One note at a measured dynamic: its scaled density is at most its maximum. */
  lemma NoteWithinMax(nota: string, dinamica: string, num: int, gpr: (real, real, real, string) -> real, scale: int -> real)
    requires dinamica in Measured && scale(num) >= 0.0
    requires NoteDensity(Flute.SpectralEntry, nota, dinamica, gpr).Ok?
    ensures 0.0 <= ScaledDensity(NoteDensity(Flute.SpectralEntry, nota, dinamica, gpr).value, num, scale)
                <= Flute.GetMaxNoteDensity(nota, dinamica, num, scale)
  {
    var e := Flute.SpectralEntry(nota);
    assert NoteDensity(Flute.SpectralEntry, nota, dinamica, gpr) == NoteDensityOfEntry(e, dinamica, gpr);
    var v := NoteDensityOfEntry(e, dinamica, gpr).value;
    assert ScaledDensity(v, num, scale) == v * scale(num);
    assert Flute.DensityOfEntry(e, dinamica) == Ok(v) by {
      NoteDensityAtMeasured(e, dinamica, gpr);
    }
    Flute.EntryWithinMax(e, dinamica, num, scale, v);
    Flute.MaxOfKey(nota, dinamica, num, scale);
  }

  /** Termwise bounds give bounds on the sums. */
  lemma {:induction false} SumWithinMaxPossible(ds: seq<real>, notas: seq<string>, dinamicas: seq<string>, nums: seq<int>,
                                                scale: int -> real, n: nat)
    requires |ds| == n <= |notas| && n <= |dinamicas| && n <= |nums|
    requires forall k :: 0 <= k < n ==> 0.0 <= ds[k] <= Flute.GetMaxNoteDensity(notas[k], dinamicas[k], nums[k], scale)
    ensures 0.0 <= Sum(ds) <= Flute.MaxPossibleOf(notas, dinamicas, nums, scale, n)
  {
    if n > 0 {
      SumWithinMaxPossible(ds[..n - 1], notas, dinamicas, nums, scale, n - 1);
    }
  }

  // ---------------------------------------------------------------------
  // The weighted, refined and total densities

  /** `densidade_ponderada_val`: the instrument density weighted by `w`, the
      interval density by `1 - w`. */
  function Weighted(inst: real, intv: real, w: real): (r: real)
    ensures w == 1.0 ==> r == inst
    ensures w == 0.0 ==> r == intv
  {
    inst * w + intv * (1.0 - w)
  }

  /** For a weight in [0, 1] (the slider's range) the weighted density lies
      between the two densities it mixes. */
  lemma WeightedBetween(inst: real, intv: real, w: real)
    requires 0.0 <= w <= 1.0
    ensures inst <= intv ==> inst <= Weighted(inst, intv, w) <= intv
    ensures intv <= inst ==> intv <= Weighted(inst, intv, w) <= inst
  {
    assert Weighted(inst, intv, w) - intv == w * (inst - intv);
    assert inst - Weighted(inst, intv, w) == (1.0 - w) * (inst - intv);
    if inst <= intv {
      ScaledNonPositive(w, inst - intv);
      ScaledNonPositive(1.0 - w, inst - intv);
    } else {
      ProductNonNegative(w, inst - intv);
      ProductNonNegative(1.0 - w, inst - intv);
    }
  }

  /** `amplitude`: the distance from the lowest to the highest pitch. */
  function Amplitude(pitches: seq<real>): (r: real)
    requires |pitches| > 0
    ensures r >= 0.0
    ensures forall i, j :: 0 <= i < |pitches| && 0 <= j < |pitches| ==> pitches[i] - pitches[j] <= r
    ensures exists i, j :: 0 <= i < |pitches| && 0 <= j < |pitches| && pitches[i] - pitches[j] == r
  {
    var hi := Max(pitches);
    var lo := Min(pitches);
    assert exists i, j :: 0 <= i < |pitches| && 0 <= j < |pitches| && pitches[i] == hi && pitches[j] == lo;
    hi - lo
  }

  /** `densidade_refinada_val`: the weighted density per unit of amplitude,
      or the weighted density itself when all pitches coincide. */
  function Refined(weighted: real, amplitude: real): (r: real)
    ensures amplitude == 0.0 ==> r == weighted
    ensures amplitude != 0.0 ==> r * amplitude == weighted
  {
    if amplitude != 0.0 then weighted / amplitude else weighted
  }

  /** `densidade_total_val`: the refined density times the spectral spread over
      the maximum possible density, or the refined density when that maximum
      is 0. A NaN spread (`None`) makes the quotient NaN. */
  function Total(refined: real, deviation: Option<real>, maxPossible: real): (r: Option<real>)
    ensures maxPossible == 0.0 ==> r == Some(refined)
    ensures maxPossible != 0.0 ==> (r.None? <==> deviation.None?)
    ensures maxPossible != 0.0 && r.Some? ==> r.value * maxPossible == refined * deviation.value
  {
    if maxPossible != 0.0 then
      match deviation
      case None => None
      case Some(d) => Some((refined * d) / maxPossible)
    else Some(refined)
  }

  // ---------------------------------------------------------------------
  // The whole handler

  /** Everything the handler writes into its result box. */
  datatype Report = Report(interval: real, instrument: real, weighted: real, refined: real,
                           total: Option<real>, moments: SpectralMoments.Moments)

  /** Densities handed to `calculate_spectral_moments` are numbers, never NaN. */
  function AsSamples(ds: seq<real>): (r: seq<Option<real>>)
    ensures |r| == |ds|
    ensures SpectralMoments.Cleaned(r) == ds
  {
    var r := seq(|ds|, k requires 0 <= k < |ds| => Some(ds[k]));
    assert SpectralMoments.Cleaned(r) == ds;
    r
  }

  /** The parameters the handler's helpers leave open. */
  datatype Environment = Environment(
    decay: nat -> real,                      // decrescimo_gaussiano
    gpr: (real, real, real, string) -> real, // the fitted regressor of predict_intermediate_dynamics
    scale: int -> real,                      // np.sqrt on player counts
    hz: real -> real,                        // midi_to_frequency
    sqrt: real -> real,                      // np.sqrt on the variance
    semitone: real -> int)                   // the rounded semitone index of frequency_to_note_name

  /** What the handler computes from the selected rows: the raw note strings
      (name and octave), the dynamics, the instrument names, the player counts
      and the slider's weight. */
  function ReportOf(raw: seq<string>, dinamicas: seq<string>, instrumentos: seq<string>, nums: seq<int>,
                    w: real, env: Environment): Result<Report>
  {
    var notas :- MapAll(raw, Spelling.ConverterParaSustenido);
    if |notas| == 0 || |dinamicas| == 0 || |instrumentos| == 0 || |nums| == 0 then Err(MissingInput)
    else
      var intv :- IntervalDensity.IntervalDensityOf(notas, env.decay);
      var n := Flute.ZipLength(|notas|, |dinamicas|, |nums|);
      var ds :- DensitiesOf(Flute.SpectralEntry, notas, dinamicas, nums, env.gpr, env.scale, n);
      var pitches :- MapAll(notas, Spelling.NoteToMidi);
      Summarise(notas, dinamicas, nums, w, env, intv, ds, pitches)
  }

  /** The arithmetic tail of the handler, once every lookup has succeeded. */
  function Summarise(notas: seq<string>, dinamicas: seq<string>, nums: seq<int>, w: real, env: Environment,
                     intv: real, ds: seq<real>, pitches: seq<real>): Result<Report>
    requires |pitches| > 0
  {
    var inst := Sum(ds);
    var weighted := Weighted(inst, intv, w);
    var refined := Refined(weighted, Amplitude(pitches));
    var moments :- SpectralMoments.CalculateSpectralMoments(pitches, AsSamples(ds), env.hz, env.sqrt, env.semitone);
    var maxPossible := Flute.MaxPossibleOf(notas, dinamicas, nums, env.scale, Flute.ZipLength(|notas|, |dinamicas|, |nums|));
    Ok(Report(intv, inst, weighted, refined, Total(refined, moments.deviation, maxPossible), moments))
  }

  /** `ao_clicar_no_botao_calcular`, without the form and the result box:
      each step that can raise returns its error, as the handler's `except`
      clauses report it. */
  method AoClicarNoBotaoCalcular(raw: seq<string>, dinamicas: seq<string>, instrumentos: seq<string>, nums: seq<int>,
                                 w: real, env: Environment) returns (r: Result<Report>)
    ensures r == ReportOf(raw, dinamicas, instrumentos, nums, w, env)
  {
    var converted := MapAll(raw, Spelling.ConverterParaSustenido);
    if converted.Err? {
      return Err(converted.error);
    }
    var notas := converted.value;
    if |notas| == 0 || |dinamicas| == 0 || |instrumentos| == 0 || |nums| == 0 {
      return Err(MissingInput);
    }
    var intv := IntervalDensity.CalcularDensidadeIntervalar(notas, env.decay);
    if intv.Err? {
      return Err(intv.error);
    }
    var ds := InstrumentDensities(Flute.SpectralEntry, notas, dinamicas, nums, env.gpr, env.scale);
    if ds.Err? {
      return Err(ds.error);
    }
    var inst := Sum(ds.value);
    var weighted := Weighted(inst, intv.value, w);
    var pitches := MapAll(notas, Spelling.NoteToMidi);
    if pitches.Err? {
      return Err(pitches.error);
    }
    var refined := Refined(weighted, Amplitude(pitches.value));
    var moments := SpectralMoments.CalculateSpectralMoments(pitches.value, AsSamples(ds.value), env.hz, env.sqrt, env.semitone);
    if moments.Err? {
      return Err(moments.error);
    }
    var maxPossible := Flute.CalculateMaxPossibleDensity(notas, dinamicas, nums, env.scale);
    r := Ok(Report(intv.value, inst, weighted, refined, Total(refined, moments.value.deviation, maxPossible), moments.value));
  }

  // ---------------------------------------------------------------------
  // Properties of the whole handler

  /** The early exits: a bad note string is a ValueError, and an empty
      input list returns before any density is computed. */
  lemma ReportGuards(raw: seq<string>, dinamicas: seq<string>, instrumentos: seq<string>, nums: seq<int>,
                     w: real, env: Environment)
    ensures (exists k :: 0 <= k < |raw| && Spelling.ConverterParaSustenido(raw[k]).Err?) ==>
      ReportOf(raw, dinamicas, instrumentos, nums, w, env) == Err(PatternMismatch)
    ensures ((forall k :: 0 <= k < |raw| ==> Spelling.ConverterParaSustenido(raw[k]).Ok?) &&
             (|raw| == 0 || |dinamicas| == 0 || |instrumentos| == 0 || |nums| == 0)) ==>
      ReportOf(raw, dinamicas, instrumentos, nums, w, env) == Err(MissingInput)
  {
  }

  /** A successful report is the arithmetic tail applied to the results of
      the lookups, each of which succeeded: the notes convert, no list is
      empty, and the interval density, the density list and the MIDI pitches
      all exist. */
  lemma ReportStages(raw: seq<string>, dinamicas: seq<string>, instrumentos: seq<string>, nums: seq<int>,
                     w: real, env: Environment)
    requires ReportOf(raw, dinamicas, instrumentos, nums, w, env).Ok?
    ensures var converted := MapAll(raw, Spelling.ConverterParaSustenido);
      converted.Ok? &&
      (var notas := converted.value;
       var n := Flute.ZipLength(|notas|, |dinamicas|, |nums|);
       var intv := IntervalDensity.IntervalDensityOf(notas, env.decay);
       var ds := DensitiesOf(Flute.SpectralEntry, notas, dinamicas, nums, env.gpr, env.scale, n);
       var pitches := MapAll(notas, Spelling.NoteToMidi);
       && |notas| > 0 && |dinamicas| > 0 && |instrumentos| > 0 && |nums| > 0
       && intv.Ok? && ds.Ok? && pitches.Ok?
       && ReportOf(raw, dinamicas, instrumentos, nums, w, env)
          == Summarise(notas, dinamicas, nums, w, env, intv.value, ds.value, pitches.value))
  {
  }

  /** `E#-` is offered by the form and priced by the flute table, but
      `note_to_midi` does not know it: a chord with `E#-4` gets as far as the
      MIDI numbering and then raises the KeyError, which the handler reports
      under its generic `except Exception` rather than as an invalid note. */
  lemma QuarterFlatSharpEUnpriced(w: real, env: Environment)
    ensures ReportOf(["E#-4"], ["pp"], ["flauta"], [1], w, env) == Err(UnknownMidiClass)
  {
    QuarterFlatSharpEStages(env);
    ReportMidiError(["E#-4"], ["pp"], ["flauta"], [1], w, env);
  }

  /** Once the notes convert, no list is empty and both densities exist, a
      note `note_to_midi` rejects makes the handler fail with that error. */
  lemma ReportMidiError(raw: seq<string>, dinamicas: seq<string>, instrumentos: seq<string>, nums: seq<int>,
                        w: real, env: Environment)
    requires MapAll(raw, Spelling.ConverterParaSustenido).Ok?
    requires var notas := MapAll(raw, Spelling.ConverterParaSustenido).value;
      && |notas| > 0 && |dinamicas| > 0 && |instrumentos| > 0 && |nums| > 0
      && IntervalDensity.IntervalDensityOf(notas, env.decay).Ok?
      && DensitiesOf(Flute.SpectralEntry, notas, dinamicas, nums, env.gpr, env.scale, Flute.ZipLength(|notas|, |dinamicas|, |nums|)).Ok?
      && MapAll(notas, Spelling.NoteToMidi).Err?
    ensures ReportOf(raw, dinamicas, instrumentos, nums, w, env)
      == Err(MapAll(MapAll(raw, Spelling.ConverterParaSustenido).value, Spelling.NoteToMidi).error)
  {
  }

  /** The stages of the handler for the one note `E#-4` at `pp`. */
  lemma QuarterFlatSharpEStages(env: Environment)
    ensures MapAll(["E#-4"], Spelling.ConverterParaSustenido) == Ok(["E#-4"])
    ensures IntervalDensity.IntervalDensityOf(["E#-4"], env.decay).Ok?
    ensures DensitiesOf(Flute.SpectralEntry, ["E#-4"], ["pp"], [1], env.gpr, env.scale, 1).Ok?
    ensures MapAll(["E#-4"], Spelling.NoteToMidi) == Err(UnknownMidiClass)
  {
    QuarterFlatSharpEConverted();
    QuarterFlatSharpEPlaced(env.decay);
    QuarterFlatSharpEPriced(env.gpr, env.scale);
    Spelling.NoteToMidiErrors();
  }

  lemma QuarterFlatSharpEPlaced(decay: nat -> real)
    ensures IntervalDensity.IntervalDensityOf(["E#-4"], decay).Ok?
  {
    IntervalDensity.QuarterFlatSharpEPosition();
    assert IntervalDensity.PositionsOf(["E#-4"]).Ok?;
  }

  lemma QuarterFlatSharpEPriced(gpr: (real, real, real, string) -> real, scale: int -> real)
    ensures DensitiesOf(Flute.SpectralEntry, ["E#-4"], ["pp"], [1], gpr, scale, 1).Ok?
  {
    Flute.LookupFound(Flute.TableRow, Flute.TableSize, "E#-4", 0, 9);
  }

  lemma QuarterFlatSharpEConverted()
    ensures MapAll(["E#-4"], Spelling.ConverterParaSustenido) == Ok(["E#-4"])
  {
    assert Spelling.MatchLengths("E#-4") == Some((3, 1));
    Spelling.ConvertParts("E#-4", "E#-", "4");
    assert "E#-" !in Spelling.Equivalences;
    assert "E#-" + "4" == "E#-4";
    var converted := MapAll(["E#-4"], Spelling.ConverterParaSustenido);
    assert converted.Ok? && |converted.value| == 1 && converted.value[0] == "E#-4";
    assert converted.value == ["E#-4"];
  }

  /** The fields of a report: the instrument density is the sum of the
      scaled note densities; the slider's end points select one density;
      equal pitches make the refined density the weighted one; a maximum
      possible density of 0 makes the total the refined density, and
      otherwise the total is NaN exactly when the spread is. */
  lemma SummariseFields(notas: seq<string>, dinamicas: seq<string>, nums: seq<int>, w: real, env: Environment,
                        intv: real, ds: seq<real>, pitches: seq<real>)
    requires |pitches| > 0
    requires Summarise(notas, dinamicas, nums, w, env, intv, ds, pitches).Ok?
    ensures var rep := Summarise(notas, dinamicas, nums, w, env, intv, ds, pitches).value;
      var maxPossible := Flute.MaxPossibleOf(notas, dinamicas, nums, env.scale, Flute.ZipLength(|notas|, |dinamicas|, |nums|));
      && rep.interval == intv
      && rep.instrument == Sum(ds)
      && (w == 1.0 ==> rep.weighted == rep.instrument)
      && (w == 0.0 ==> rep.weighted == rep.interval)
      && ((forall k :: 0 <= k < |pitches| ==> pitches[k] == pitches[0]) ==> rep.refined == rep.weighted)
      && (maxPossible == 0.0 ==> rep.total == Some(rep.refined))
      && (maxPossible != 0.0 ==> (rep.total.None? <==> rep.moments.deviation.None?))
  {
    if forall k :: 0 <= k < |pitches| ==> pitches[k] == pitches[0] {
      assert Min(pitches) == pitches[0] && Max(pitches) == pitches[0];
    }
  }
}

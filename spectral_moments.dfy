/** The spectral moments of advanced_density_analysis.py: pitches (MIDI
    numbers) weighted by spectral densities give a centroid, a spread (the
    weighted standard deviation) and a skewness; the centroid is reported as a
    frequency and a note name. NaN is `None`; the MIDI-to-Hz conversion, the
    square root and the rounded semitone index of a frequency are parameters. */
module SpectralMoments {
  import opened Outcomes
  import opened Text
  import NoteNames
  import RealSeqs

  // ---------------------------------------------------------------------
  // frequency_to_note_name

  /** `frequency_to_note_name`: "Invalid" for a non-positive frequency;
      otherwise `semitone(f)` (Python's `round(12 * log2(f / C0))`, the
      semitones above C0) is split into a name of `NoteNames.ChromaticNames`
      and an octave. Since `h % 12` is always in 0..11, the source's second
      "Invalid" branch is never taken. */
  function FrequencyToNoteName(f: real, semitone: real -> int): (name: string)
    ensures name == "Invalid" <==> f <= 0.0
  {
    if f <= 0.0 then "Invalid"
    else
      var h := semitone(f);
      var n := h % 12;
      var octave := h / 12;
      assert (NoteNames.ChromaticNames[n] + IntToString(octave))[0] != 'I';
      NoteNames.ChromaticNames[n] + IntToString(octave)
  }

  /** The name of a positive frequency is the name of MIDI `h + 12`, whose
      octave is the octave of semitone `h` above C0. */
  lemma FrequencyNameIsMidiName(f: real, semitone: real -> int)
    requires f > 0.0
    ensures FrequencyToNoteName(f, semitone) == NoteNames.NameOf(semitone(f) + 12)
  {
    var h := semitone(f);
    assert (h + 12) % 12 == h % 12 && (h + 12) / 12 - 1 == h / 12;
  }

  // ---------------------------------------------------------------------
  // Weighted sums

  /** `np.nan_to_num` on one density: NaN becomes 0. */
  function NanToNum(d: Option<real>): real {
    if d.Some? then d.value else 0.0
  }

  function Cleaned(ds: seq<Option<real>>): (r: seq<real>)
    ensures |r| == |ds|
    ensures forall k :: 0 <= k < |ds| ==> r[k] == NanToNum(ds[k])
  {
    seq(|ds|, k requires 0 <= k < |ds| => NanToNum(ds[k]))
  }

  function Power(x: real, n: nat): real {
    if n == 0 then 1.0 else x * Power(x, n - 1)
  }

  /** `np.sum(pitches * densities)`. */
  function WeightedPitchSum(ps: seq<real>, ds: seq<real>): real
    requires |ps| == |ds|
  {
    if |ps| == 0 then 0.0
    else WeightedPitchSum(ps[..|ps| - 1], ds[..|ds| - 1]) + ps[|ps| - 1] * ds[|ds| - 1]
  }

  /** `np.sum(densities * (pitches - c) ** n)`. */
  function CentralSum(ps: seq<real>, ds: seq<real>, c: real, n: nat): real
    requires |ps| == |ds|
  {
    if |ps| == 0 then 0.0
    else CentralSum(ps[..|ps| - 1], ds[..|ds| - 1], c, n) + ds[|ds| - 1] * Power(ps[|ps| - 1] - c, n)
  }

  // ---------------------------------------------------------------------
  // calculate_spectral_moments

  /** The dictionary `calculate_spectral_moments` returns; `None` is NaN. */
  datatype Moments = Moments(frequency: Option<real>, note: string, deviation: Option<real>, skewness: Option<real>)

  /** The result for a total weight of 0. */
  const Undefined := Moments(None, "Invalid", None, None)

  /** The weighted mean pitch. */
  function Centroid(ps: seq<real>, ds: seq<real>): real
    requires |ps| == |ds| && RealSeqs.Sum(ds) != 0.0
  {
    WeightedPitchSum(ps, ds) / RealSeqs.Sum(ds)
  }

  /** The weighted variance, the square of `spectral_spread_midi`. */
  function SpreadSquared(ps: seq<real>, ds: seq<real>): real
    requires |ps| == |ds| && RealSeqs.Sum(ds) != 0.0
  {
    CentralSum(ps, ds, Centroid(ps, ds), 2) / RealSeqs.Sum(ds)
  }

  /** `np.sqrt` of the variance: NaN for a negative one (possible only with
      negative densities). */
  function Spread(ps: seq<real>, ds: seq<real>, sqrt: real -> real): Option<real>
    requires |ps| == |ds| && RealSeqs.Sum(ds) != 0.0
  {
    var v := SpreadSquared(ps, ds);
    if v >= 0.0 then Some(sqrt(v)) else None
  }

  /** The third central moment over the variance to the power 3/2: NaN when
      the spread is 0 or NaN. */
  function Skewness(ps: seq<real>, ds: seq<real>, sqrt: real -> real): Option<real>
    requires |ps| == |ds| && RealSeqs.Sum(ds) != 0.0
  {
    match Spread(ps, ds, sqrt)
    case None => None
    case Some(s) =>
      if s == 0.0 then None
      else
        CubeNonZero(s);
        Some((CentralSum(ps, ds, Centroid(ps, ds), 3) / RealSeqs.Sum(ds)) / Power(s, 3))
  }

  lemma CubeNonZero(s: real)
    requires s != 0.0
    ensures Power(s, 3) != 0.0
  {
    assert Power(s, 1) == s;
    assert Power(s, 2) == s * s;
    assert s * s > 0.0;
    assert Power(s, 3) == s * (s * s);
  }

  /** `calculate_spectral_moments`: after the NaN densities become 0, a total
      weight of 0 gives the undefined result; otherwise (the element-wise
      products needing equal lengths) the centroid and the centroid plus the
      spread are converted to frequencies by `hz`. */
  function CalculateSpectralMoments(ps: seq<real>, densities: seq<Option<real>>,
                                    hz: real -> real, sqrt: real -> real, semitone: real -> int): (r: Result<Moments>)
    ensures RealSeqs.Sum(Cleaned(densities)) == 0.0 <==> r == Ok(Undefined)
    ensures r.Err? <==> RealSeqs.Sum(Cleaned(densities)) != 0.0 && |ps| != |densities|
    ensures r.Err? ==> r.error == RaggedInput
    ensures r.Ok? && r != Ok(Undefined) ==>
      var ds := Cleaned(densities);
      var c := Centroid(ps, ds);
      && r.value.frequency == Some(hz(c))
      && r.value.note == FrequencyToNoteName(hz(c), semitone)
      && r.value.skewness == Skewness(ps, ds, sqrt)
      && (Spread(ps, ds, sqrt).None? <==> r.value.deviation.None?)
      && (Spread(ps, ds, sqrt).Some? ==> r.value.deviation == Some(hz(c + Spread(ps, ds, sqrt).value) - hz(c)))
  {
    var ds := Cleaned(densities);
    var total := RealSeqs.Sum(ds);
    if total == 0.0 then Ok(Undefined)
    else if |ps| != |ds| then Err(RaggedInput)
    else
      var c := Centroid(ps, ds);
      var freq := hz(c);
      var deviation := match Spread(ps, ds, sqrt)
        case None => None
        case Some(s) => Some(hz(c + s) - freq);
      assert Moments(Some(freq), FrequencyToNoteName(freq, semitone), deviation, Skewness(ps, ds, sqrt)) != Undefined;
      Ok(Moments(Some(freq), FrequencyToNoteName(freq, semitone), deviation, Skewness(ps, ds, sqrt)))
  }

  // ---------------------------------------------------------------------
  // Properties

  lemma MulMonotone(a: real, b: real, d: real)
    requires a <= b && d >= 0.0
    ensures a * d <= b * d
  {
  }

  lemma BoundStep(lo: real, hi: real, t: real, w: real, p: real, d: real)
    requires lo * t <= w <= hi * t && lo <= p <= hi && d >= 0.0
    ensures lo * (t + d) <= w + p * d <= hi * (t + d)
  {
    MulMonotone(lo, p, d);
    MulMonotone(p, hi, d);
    assert lo * (t + d) == lo * t + lo * d;
    assert hi * (t + d) == hi * t + hi * d;
  }

  /** Pitches within `[lo, hi]` and non-negative weights keep the weighted
      pitch sum between `lo` and `hi` times the total weight. */
  lemma {:induction false} WeightedSumBounds(ps: seq<real>, ds: seq<real>, lo: real, hi: real)
    requires |ps| == |ds|
    requires forall k :: 0 <= k < |ps| ==> lo <= ps[k] <= hi && ds[k] >= 0.0
    ensures lo * RealSeqs.Sum(ds) <= WeightedPitchSum(ps, ds) <= hi * RealSeqs.Sum(ds)
  {
    if |ps| > 0 {
      var n := |ps| - 1;
      var t, w := RealSeqs.Sum(ds[..n]), WeightedPitchSum(ps[..n], ds[..n]);
      assert lo * t <= w <= hi * t by {
        WeightedSumBounds(ps[..n], ds[..n], lo, hi);
      }
      assert RealSeqs.Sum(ds) == t + ds[n];
      assert WeightedPitchSum(ps, ds) == w + ps[n] * ds[n];
      BoundStep(lo, hi, t, w, ps[n], ds[n]);
    }
  }

  lemma QuotientBounds(a: real, t: real, lo: real, hi: real)
    requires t > 0.0 && lo * t <= a <= hi * t
    ensures lo <= a / t <= hi
  {
  }

  /** With non-negative densities and a positive total, the centroid lies
      between the lowest and the highest pitch. */
  lemma CentroidBetweenExtremes(ps: seq<real>, ds: seq<real>)
    requires |ps| == |ds| && |ps| > 0
    requires forall k :: 0 <= k < |ds| ==> ds[k] >= 0.0
    requires RealSeqs.Sum(ds) > 0.0
    ensures RealSeqs.Min(ps) <= Centroid(ps, ds) <= RealSeqs.Max(ps)
  {
    CentroidWithin(ps, ds, RealSeqs.Min(ps), RealSeqs.Max(ps));
  }

  lemma CentroidWithin(ps: seq<real>, ds: seq<real>, lo: real, hi: real)
    requires |ps| == |ds|
    requires forall k :: 0 <= k < |ps| ==> lo <= ps[k] <= hi && ds[k] >= 0.0
    requires RealSeqs.Sum(ds) > 0.0
    ensures lo <= Centroid(ps, ds) <= hi
  {
    var w, t := WeightedPitchSum(ps, ds), RealSeqs.Sum(ds);
    assert lo * t <= w <= hi * t by {
      WeightedSumBounds(ps, ds, lo, hi);
    }
    QuotientBounds(w, t, lo, hi);
  }

  lemma {:induction false} SquareSumNonNegative(ps: seq<real>, ds: seq<real>, c: real)
    requires |ps| == |ds|
    requires forall k :: 0 <= k < |ds| ==> ds[k] >= 0.0
    ensures CentralSum(ps, ds, c, 2) >= 0.0
  {
    if |ps| > 0 {
      var n := |ps| - 1;
      SquareSumNonNegative(ps[..n], ds[..n], c);
      var x := ps[n] - c;
      assert Power(x, 1) == x;
      assert Power(x, 2) == x * x;
      MulMonotone(0.0, x * x, ds[n]);
    }
  }

  /** With non-negative densities and a positive total, the variance is never
      negative, so the spread is a number. */
  lemma SpreadDefined(ps: seq<real>, ds: seq<real>, sqrt: real -> real)
    requires |ps| == |ds|
    requires forall k :: 0 <= k < |ds| ==> ds[k] >= 0.0
    requires RealSeqs.Sum(ds) > 0.0
    ensures SpreadSquared(ps, ds) >= 0.0
    ensures Spread(ps, ds, sqrt) == Some(sqrt(SpreadSquared(ps, ds)))
  {
    SquareSumNonNegative(ps, ds, Centroid(ps, ds));
  }

  lemma {:induction false} ConstantWeightedSum(ps: seq<real>, ds: seq<real>, a: real)
    requires |ps| == |ds|
    requires forall k :: 0 <= k < |ps| ==> ps[k] == a
    ensures WeightedPitchSum(ps, ds) == a * RealSeqs.Sum(ds)
  {
    if |ps| > 0 {
      ConstantWeightedSum(ps[..|ps| - 1], ds[..|ds| - 1], a);
    }
  }

  lemma {:induction false} ConstantCentralSum(ps: seq<real>, ds: seq<real>, a: real, n: nat)
    requires |ps| == |ds| && n > 0
    requires forall k :: 0 <= k < |ps| ==> ps[k] == a
    ensures CentralSum(ps, ds, a, n) == 0.0
  {
    if |ps| > 0 {
      ConstantCentralSum(ps[..|ps| - 1], ds[..|ds| - 1], a, n);
      assert Power(0.0, n) == 0.0;
    }
  }

  /** When every pitch is the same, the centroid is that pitch and the spread
      is 0; with `sqrt(0) = 0` the skewness is NaN and the deviation in Hz is 0. */
  lemma ConstantPitches(ps: seq<real>, densities: seq<Option<real>>, a: real,
                        hz: real -> real, sqrt: real -> real, semitone: real -> int)
    requires |ps| == |densities|
    requires forall k :: 0 <= k < |ps| ==> ps[k] == a
    requires RealSeqs.Sum(Cleaned(densities)) != 0.0
    requires sqrt(0.0) == 0.0
    ensures Centroid(ps, Cleaned(densities)) == a
    ensures SpreadSquared(ps, Cleaned(densities)) == 0.0
    ensures CalculateSpectralMoments(ps, densities, hz, sqrt, semitone) ==
      Ok(Moments(Some(hz(a)), FrequencyToNoteName(hz(a), semitone), Some(0.0), None))
  {
    var ds := Cleaned(densities);
    var t := RealSeqs.Sum(ds);
    assert WeightedPitchSum(ps, ds) == a * t by {
      ConstantWeightedSum(ps, ds, a);
    }
    assert Centroid(ps, ds) == a by {
      CancelFactor(a, t);
    }
    assert CentralSum(ps, ds, a, 2) == 0.0 by {
      ConstantCentralSum(ps, ds, a, 2);
    }
    assert Spread(ps, ds, sqrt) == Some(0.0);
    assert Skewness(ps, ds, sqrt) == None;
  }

  lemma CancelFactor(a: real, t: real)
    requires t != 0.0
    ensures (a * t) / t == a
  {
  }

  /** Total weight 0, here from densities that are all NaN, gives the undefined result. */
  lemma {:induction false} AllNaNUndefined(ps: seq<real>, densities: seq<Option<real>>,
                                           hz: real -> real, sqrt: real -> real, semitone: real -> int)
    requires forall k :: 0 <= k < |densities| ==> densities[k].None?
    ensures CalculateSpectralMoments(ps, densities, hz, sqrt, semitone) == Ok(Undefined)
  {
    ZeroSum(Cleaned(densities));
  }

  lemma {:induction false} ZeroSum(s: seq<real>)
    requires forall k :: 0 <= k < |s| ==> s[k] == 0.0
    ensures RealSeqs.Sum(s) == 0.0
  {
    if |s| > 0 {
      ZeroSum(s[..|s| - 1]);
    }
  }

  /** Pitches 60, 62, 64 weighted 1, 2, 1: centroid 62, variance 2, third
      moment 0, so the skewness is 0 whenever `sqrt(2)` is not 0. */
  lemma SymmetricWeighting(sqrt: real -> real)
    requires sqrt(2.0) != 0.0
    ensures RealSeqs.Sum([1.0, 2.0, 1.0]) == 4.0
    ensures Centroid([60.0, 62.0, 64.0], [1.0, 2.0, 1.0]) == 62.0
    ensures SpreadSquared([60.0, 62.0, 64.0], [1.0, 2.0, 1.0]) == 2.0
    ensures CentralSum([60.0, 62.0, 64.0], [1.0, 2.0, 1.0], 62.0, 3) == 0.0
    ensures Skewness([60.0, 62.0, 64.0], [1.0, 2.0, 1.0], sqrt) == Some(0.0)
  {
    var ps := [60.0, 62.0, 64.0];
    var ds := [1.0, 2.0, 1.0];
    assert ps[..2] == [60.0, 62.0] && ps[..2][..1] == [60.0] && ps[..2][..1][..0] == [];
    assert ds[..2] == [1.0, 2.0] && ds[..2][..1] == [1.0] && ds[..2][..1][..0] == [];
    assert RealSeqs.Sum(ds[..2][..1]) == 1.0;
    assert RealSeqs.Sum(ds[..2]) == 3.0;
    assert WeightedPitchSum(ps[..2][..1], ds[..2][..1]) == 60.0;
    assert WeightedPitchSum(ps[..2], ds[..2]) == 184.0;
    assert WeightedPitchSum(ps, ds) == 248.0;
    assert Power(-2.0, 1) == -2.0 && Power(2.0, 1) == 2.0 && Power(0.0, 1) == 0.0;
    assert Power(-2.0, 2) == 4.0 && Power(2.0, 2) == 4.0 && Power(0.0, 2) == 0.0;
    assert Power(-2.0, 3) == -8.0 && Power(2.0, 3) == 8.0 && Power(0.0, 3) == 0.0;
    assert CentralSum(ps[..2][..1], ds[..2][..1], 62.0, 2) == 4.0;
    assert CentralSum(ps[..2], ds[..2], 62.0, 2) == 4.0;
    assert CentralSum(ps[..2][..1], ds[..2][..1], 62.0, 3) == -8.0;
    assert CentralSum(ps[..2], ds[..2], 62.0, 3) == -8.0;
    assert Spread(ps, ds, sqrt) == Some(sqrt(2.0));
    CubeNonZero(sqrt(2.0));
    assert (0.0 / 4.0) / Power(sqrt(2.0), 3) == 0.0;
  }
}

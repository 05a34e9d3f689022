/** The nine-level dynamic curve of Den_alg_Lin_10.py: for each of the 38
    pitches, the measured pp, mf and ff values are extended by regressor
    predictions for ppp, p, f and fff, and by two extreme predictions, pppp
    and ffff, clamped to stay strictly outside ppp and fff. The regressors
    are parameters: `gpr` gives the four interior levels and `xgb` the two
    raw extremes of one pitch, each from that pitch's three measurements. */
module DynamicCurve {
  import opened Outcomes

  /** `pitches`: the flute's range, C4 to Db7. */
  const Pitches: seq<string> := [
    "C4", "Db4", "D4", "Eb4", "E4", "F4", "F#4", "G4", "Ab4", "A4", "Bb4", "B4",
    "C5", "Db5", "D5", "Eb5", "E5", "F5", "F#5", "G5", "Ab5", "A5", "Bb5", "B5",
    "C6", "Db6", "D6", "Eb6", "E6", "F6", "F#6", "G6", "Ab6", "A6", "Bb6", "B6", "C7", "Db7"
  ]

  /** `dynamic_levels`: the nine dynamics and their levels. */
  const DynamicLevels: map<string, int> := map[
    "pppp" := 1, "ppp" := 2, "pp" := 3, "p" := 4, "mf" := 5, "f" := 6, "ff" := 7, "fff" := 8, "ffff" := 9
  ]

  /** The `1e-6` margin of the clamps. */
  const Epsilon: real := 0.000001

  /** The Gaussian-process predictions for levels ppp, p, f and fff. */
  datatype Interior = Interior(ppp: real, p: real, f: real, fff: real)

  /** The XGBoost predictions for levels pppp and ffff, before the clamp. */
  datatype Extremes = Extremes(pppp: real, ffff: real)

  // ---------------------------------------------------------------------
  // The clamps of lines 82-83

  /** `min(raw, ppp - 1e-6)`. */
  function RepairPppp(raw: real, ppp: real): (r: real)
    ensures r < ppp && r <= raw
    ensures r == raw || r == ppp - Epsilon
    ensures r == raw <==> raw <= ppp - Epsilon
  {
    if ppp - Epsilon < raw then ppp - Epsilon else raw
  }

  /** `max(raw, fff + 1e-6)`. */
  function RepairFfff(raw: real, fff: real): (r: real)
    ensures r > fff && r >= raw
    ensures r == raw || r == fff + Epsilon
    ensures r == raw <==> raw >= fff + Epsilon
  {
    if fff + Epsilon > raw then fff + Epsilon else raw
  }

  // ---------------------------------------------------------------------
  // The curve

  /** The value of dynamic `d` that the loop records for pitch `i`. */
  function LevelValue(pp: seq<real>, mf: seq<real>, ff: seq<real>,
                      gpr: (real, real, real) -> Interior, xgb: (real, real, real) -> Extremes,
                      d: string, i: nat): real
    requires i < |pp| && i < |mf| && i < |ff|
  {
    var y := gpr(pp[i], mf[i], ff[i]);
    var x := xgb(pp[i], mf[i], ff[i]);
    if d == "ppp" then y.ppp
    else if d == "p" then y.p
    else if d == "f" then y.f
    else if d == "fff" then y.fff
    else if d == "pppp" then RepairPppp(x.pppp, y.ppp)
    else RepairFfff(x.ffff, y.fff)
  }

  /** The list of dynamic `d` after `n` pitches. */
  function Column(pp: seq<real>, mf: seq<real>, ff: seq<real>,
                  gpr: (real, real, real) -> Interior, xgb: (real, real, real) -> Extremes,
                  d: string, n: nat): (c: seq<real>)
    requires n <= |pp| && n <= |mf| && n <= |ff|
    ensures |c| == n
    ensures forall i :: 0 <= i < n ==> c[i] == LevelValue(pp, mf, ff, gpr, xgb, d, i)
  {
    seq(n, i requires 0 <= i < n => LevelValue(pp, mf, ff, gpr, xgb, d, i))
  }

  lemma ColumnSnoc(pp: seq<real>, mf: seq<real>, ff: seq<real>,
                   gpr: (real, real, real) -> Interior, xgb: (real, real, real) -> Extremes,
                   d: string, n: nat)
    requires n < |pp| && n < |mf| && n < |ff|
    ensures Column(pp, mf, ff, gpr, xgb, d, n + 1) == Column(pp, mf, ff, gpr, xgb, d, n) + [LevelValue(pp, mf, ff, gpr, xgb, d, n)]
  {
  }

  function InteriorLists(pp: seq<real>, mf: seq<real>, ff: seq<real>,
                         gpr: (real, real, real) -> Interior, xgb: (real, real, real) -> Extremes, n: nat): map<string, seq<real>>
    requires n <= |pp| && n <= |mf| && n <= |ff|
  {
    map["ppp" := Column(pp, mf, ff, gpr, xgb, "ppp", n), "p" := Column(pp, mf, ff, gpr, xgb, "p", n),
        "f" := Column(pp, mf, ff, gpr, xgb, "f", n), "fff" := Column(pp, mf, ff, gpr, xgb, "fff", n)]
  }

  function ExtremeLists(pp: seq<real>, mf: seq<real>, ff: seq<real>,
                        gpr: (real, real, real) -> Interior, xgb: (real, real, real) -> Extremes, n: nat): map<string, seq<real>>
    requires n <= |pp| && n <= |mf| && n <= |ff|
  {
    map["pppp" := Column(pp, mf, ff, gpr, xgb, "pppp", n), "ffff" := Column(pp, mf, ff, gpr, xgb, "ffff", n)]
  }

  /** `dynamic_values`: the measured lists merged with the predicted ones. */
  function Curve(pp: seq<real>, mf: seq<real>, ff: seq<real>,
                 gpr: (real, real, real) -> Interior, xgb: (real, real, real) -> Extremes): map<string, seq<real>>
    requires |Pitches| <= |pp| && |Pitches| <= |mf| && |Pitches| <= |ff|
  {
    map["pp" := pp, "mf" := mf, "ff" := ff]
      + InteriorLists(pp, mf, ff, gpr, xgb, |Pitches|)
      + ExtremeLists(pp, mf, ff, gpr, xgb, |Pitches|)
  }

  /** What `start_analysis` hands to the plot: an error when a list is empty
      (the message box), when the lists differ in length (NumPy cannot stack
      them), or when they are shorter than the 38 pitches (the column index
      runs out); otherwise the curve. */
  function AnalysisOf(pp: seq<real>, mf: seq<real>, ff: seq<real>,
                      gpr: (real, real, real) -> Interior, xgb: (real, real, real) -> Extremes): Result<map<string, seq<real>>>
  {
    if |pp| == 0 || |mf| == 0 || |ff| == 0 then Err(MissingInput)
    else if |pp| != |mf| || |pp| != |ff| then Err(RaggedInput)
    else if |pp| < |Pitches| then Err(IndexOutOfRange)
    else Ok(Curve(pp, mf, ff, gpr, xgb))
  }

  // ---------------------------------------------------------------------
  // start_analysis

  /** `start_analysis` up to the plot: one pass per pitch appends to the
      lists of `intermediate_predictions` and `extreme_predictions`. */
  method StartAnalysis(pp: seq<real>, mf: seq<real>, ff: seq<real>,
                       gpr: (real, real, real) -> Interior, xgb: (real, real, real) -> Extremes)
    returns (r: Result<map<string, seq<real>>>)
    ensures r == AnalysisOf(pp, mf, ff, gpr, xgb)
  {
    if |pp| == 0 || |mf| == 0 || |ff| == 0 {
      return Err(MissingInput);
    }
    if |pp| != |mf| || |pp| != |ff| {
      return Err(RaggedInput);
    }
    if |pp| < |Pitches| {
      return Err(IndexOutOfRange);
    }
    var intermediate: map<string, seq<real>> := map["ppp" := [], "p" := [], "f" := [], "fff" := []];
    var extreme: map<string, seq<real>> := map["pppp" := [], "ffff" := []];
    for i := 0 to |Pitches|
      invariant intermediate == InteriorLists(pp, mf, ff, gpr, xgb, i)
      invariant extreme == ExtremeLists(pp, mf, ff, gpr, xgb, i)
    {
      var y := gpr(pp[i], mf[i], ff[i]);
      intermediate := intermediate["ppp" := intermediate["ppp"] + [y.ppp]];
      intermediate := intermediate["p" := intermediate["p"] + [y.p]];
      intermediate := intermediate["f" := intermediate["f"] + [y.f]];
      intermediate := intermediate["fff" := intermediate["fff"] + [y.fff]];
      var x := xgb(pp[i], mf[i], ff[i]);
      var ppppValue := RepairPppp(x.pppp, y.ppp);
      var ffffValue := RepairFfff(x.ffff, y.fff);
      extreme := extreme["pppp" := extreme["pppp"] + [ppppValue]];
      extreme := extreme["ffff" := extreme["ffff"] + [ffffValue]];
      ColumnSnoc(pp, mf, ff, gpr, xgb, "ppp", i);
      ColumnSnoc(pp, mf, ff, gpr, xgb, "p", i);
      ColumnSnoc(pp, mf, ff, gpr, xgb, "f", i);
      ColumnSnoc(pp, mf, ff, gpr, xgb, "fff", i);
      ColumnSnoc(pp, mf, ff, gpr, xgb, "pppp", i);
      ColumnSnoc(pp, mf, ff, gpr, xgb, "ffff", i);
    }
    r := Ok(map["pp" := pp, "mf" := mf, "ff" := ff] + intermediate + extreme);
  }

  // ---------------------------------------------------------------------
  // Properties of the curve

  /** The curve has exactly the nine dynamics of `dynamic_levels`. */
  lemma CurveKeys(pp: seq<real>, mf: seq<real>, ff: seq<real>,
                  gpr: (real, real, real) -> Interior, xgb: (real, real, real) -> Extremes)
    requires |Pitches| <= |pp| && |Pitches| <= |mf| && |Pitches| <= |ff|
    ensures Curve(pp, mf, ff, gpr, xgb).Keys == DynamicLevels.Keys
  {
    assert DynamicLevels.Keys == {"pppp", "ppp", "pp", "p", "mf", "f", "ff", "fff", "ffff"};
  }

  /** The measured lists are kept as given and every predicted list has one
      entry per pitch. */
  lemma CurveLengths(pp: seq<real>, mf: seq<real>, ff: seq<real>,
                     gpr: (real, real, real) -> Interior, xgb: (real, real, real) -> Extremes)
    requires |Pitches| <= |pp| && |Pitches| <= |mf| && |Pitches| <= |ff|
    ensures var c := Curve(pp, mf, ff, gpr, xgb);
      && c["pp"] == pp && c["mf"] == mf && c["ff"] == ff
      && |c["ppp"]| == |c["p"]| == |c["f"]| == |c["fff"]| == |c["pppp"]| == |c["ffff"]| == |Pitches| == 38
  {
  }

  /** For every pitch, the interior levels are the regressor's predictions
      as given (not clamped against their neighbours), pppp lies strictly
      below ppp and at most at its raw prediction, and ffff strictly above
      fff and at least at its raw prediction. */
  lemma CurveOrder(pp: seq<real>, mf: seq<real>, ff: seq<real>,
                   gpr: (real, real, real) -> Interior, xgb: (real, real, real) -> Extremes, i: nat)
    requires |Pitches| <= |pp| && |Pitches| <= |mf| && |Pitches| <= |ff|
    requires i < |Pitches|
    ensures var c := Curve(pp, mf, ff, gpr, xgb);
      var y, x := gpr(pp[i], mf[i], ff[i]), xgb(pp[i], mf[i], ff[i]);
      && c["ppp"][i] == y.ppp && c["p"][i] == y.p && c["f"][i] == y.f && c["fff"][i] == y.fff
      && c["pppp"][i] < c["ppp"][i] && c["pppp"][i] <= x.pppp
      && c["ffff"][i] > c["fff"][i] && c["ffff"][i] >= x.ffff
  {
  }

  /** A raw extreme already beyond the margin is kept unchanged, and only then. */
  lemma ExtremesKeptWhenOrdered(pp: seq<real>, mf: seq<real>, ff: seq<real>,
                                gpr: (real, real, real) -> Interior, xgb: (real, real, real) -> Extremes, i: nat)
    requires |Pitches| <= |pp| && |Pitches| <= |mf| && |Pitches| <= |ff|
    requires i < |Pitches|
    ensures var c := Curve(pp, mf, ff, gpr, xgb);
      var y, x := gpr(pp[i], mf[i], ff[i]), xgb(pp[i], mf[i], ff[i]);
      && (c["pppp"][i] == x.pppp <==> x.pppp <= y.ppp - Epsilon)
      && (c["ffff"][i] == x.ffff <==> x.ffff >= y.fff + Epsilon)
  {
  }

  /** The analysis fails exactly on empty, ragged or short input. */
  lemma AnalysisErrors(pp: seq<real>, mf: seq<real>, ff: seq<real>,
                       gpr: (real, real, real) -> Interior, xgb: (real, real, real) -> Extremes)
    ensures AnalysisOf(pp, mf, ff, gpr, xgb).Ok? <==> |pp| == |mf| == |ff| >= 38
    ensures AnalysisOf(pp, mf, ff, gpr, xgb) == Err(MissingInput) <==> |pp| == 0 || |mf| == 0 || |ff| == 0
  {
  }
}

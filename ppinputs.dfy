/**
 * StdPPv2.calc up to the pp formulas: where the map figures and the star
 * ratings come from, the checks on manually given figures, the defaults of
 * the judgement counts, the accuracy solver run, and the score-version
 * dispatch that decides which accuracy and circle count the formulas use.
 */
module PerformanceInputs {
  import opened Wrappers
  import opened Numeric
  import opened Beatmaps
  import opened DifficultyEngine
  import opened Accuracy

  datatype PPError =
    | MaxComboInvalid                    // 'maxCombo must be > 0'
    | CountsRequired                     // 'sliderCount, circleCount, objectCount are required'
    | ObjectCountTooSmall                // 'objectCount must be >= sliderCount + circleCount'
    | StarsRequired                      // 'aim and speed stars required'
    | UnsupportedScoreVersion(version: int)
    | ComboFailed(combo: ComboError)     // map.maxCombo() threw
    | AccuracyFailed(accuracy: AccuracyError)

  /** The parameters of calc; absent ones are None (undefined), absent objects null. */
  datatype PPParams = PPParams(
    stars: StdDifficulty?, beatmap: Beatmap?,
    aimStars: Option<real>, speedStars: Option<real>,
    maxCombo: Option<int>, sliderCount: Option<int>, circleCount: Option<int>, objectCount: Option<int>,
    baseAR: Option<real>, baseOD: Option<real>, mods: Option<int>, singletapThreshold: Option<real>,
    combo: Option<int>, n300: Option<int>, n100: Option<int>, n50: Option<int>, missCount: Option<int>,
    scoreVersion: Option<int>, accuracyPercent: Option<real>)

  /** The map figures the formulas use, from a map or from the parameters. */
  datatype Figures = Figures(maxCombo: int, sliderCount: int, circleCount: int, objectCount: int,
                             baseAR: real, baseOD: real)

  /** Everything the pp formulas start from. */
  datatype PPInputs = PPInputs(
    figures: Figures, mods: int, aimStars: real, speedStars: real,
    missCount: int, counts: Counts, combo: int, scoreVersion: int,
    accuracy: real, realAccuracy: real, accuracyCircleCount: int)

  function OrDefaultR(x: Option<real>, d: real): real
  {
    if x.Some? then x.value else d
  }

  /**
   * The figures given by hand: maxCombo must be truthy and not negative,
   * the three counts truthy (so a zero slider count is refused), and the
   * object count must hold the sliders and circles; AR and OD default to 5.
   */
  function ManualFigures(p: PPParams): (r: Result<Figures, PPError>)
    ensures r == Failure(MaxComboInvalid) <==> !(p.maxCombo.Some? && p.maxCombo.value > 0)
    ensures r == Failure(CountsRequired)
        <==> p.maxCombo.Some? && p.maxCombo.value > 0
             && !(TruthyInt(p.sliderCount) && TruthyInt(p.circleCount) && TruthyInt(p.objectCount))
    ensures r.Success?
        <==> && p.maxCombo.Some? && p.maxCombo.value > 0
             && TruthyInt(p.sliderCount) && TruthyInt(p.circleCount) && TruthyInt(p.objectCount)
             && p.objectCount.value >= p.sliderCount.value + p.circleCount.value
    ensures r.Success? ==>
      && r.value.maxCombo > 0
      && r.value.objectCount >= r.value.sliderCount + r.value.circleCount
      && r.value.baseAR == (if p.baseAR.None? then 5.0 else p.baseAR.value)
      && r.value.baseOD == (if p.baseOD.None? then 5.0 else p.baseOD.value)
  {
    if !TruthyInt(p.maxCombo) || p.maxCombo.value < 0 then Failure(MaxComboInvalid)
    else if !TruthyInt(p.sliderCount) || !TruthyInt(p.circleCount) || !TruthyInt(p.objectCount) then
      Failure(CountsRequired)
    else if p.objectCount.value < p.sliderCount.value + p.circleCount.value then Failure(ObjectCountTooSmall)
    else
      Success(Figures(p.maxCombo.value, p.sliderCount.value, p.circleCount.value, p.objectCount.value,
                      OrDefaultR(p.baseAR, 5.0), OrDefaultR(p.baseOD, 5.0)))
  }

  /** `params.scoreVersion || 1`. */
  function ScoreVersionOf(p: PPParams): int
  {
    if TruthyInt(p.scoreVersion) then p.scoreVersion.value else 1
  }

  /** The solver run of calc: the defaulted counts with the target percent and object count. */
  function SolverParams(f: Figures, p: PPParams): AccuracyParams
  {
    var missCount := OrDefault(p.missCount, 0);
    var n50 := OrDefault(p.n50, 0);
    var n100 := OrDefault(p.n100, 0);
    var n300 := OrDefault(p.n300, f.objectCount - n100 - n50 - missCount);
    AccuracyParams(Some(missCount), Some(n300), Some(n100), Some(n50), Some(f.objectCount), p.accuracyPercent)
  }

  /**
   * The score-v1 accuracy: sliders and spinners are free 300s, so they are
   * taken off the 300s (not below 0), with the uncapped miss count.
   */
  function ScoreV1Accuracy(f: Figures, c: Counts, missCount: int): (r: Result<real, AccuracyError>)
    ensures r.Success? ==> 0.0 <= r.value <= 1.0
  {
    var spinnerCount := f.objectCount - f.sliderCount - f.circleCount;
    match AccuracyOf(Counts(MaxI(0, c.n300 - f.sliderCount - spinnerCount), c.n100, c.n50, missCount), None)
    case Failure(e) => Failure(e)
    case Success(v) => Success(MaxR(0.0, v))
  }

  /** The solver run and value() of its counts: the counts and the accuracy they give. */
  function Judge(f: Figures, p: PPParams): (r: Result<(Counts, real), AccuracyError>)
    ensures r.Success? ==>
      && CountsOf(SolverParams(f, p)) == Success(r.value.0)
      && AccuracyOf(r.value.0, None) == Success(r.value.1)
  {
    match CountsOf(SolverParams(f, p))
    case Failure(e) => Failure(e)
    case Success(c) =>
      match AccuracyOf(c, None)
      case Failure(e) => Failure(e)
      case Success(accuracy) => Success((c, accuracy))
  }

  /**
   * The score-version switch: the accuracy and the circle count the
   * formulas use. Version 1 discounts the free 300s, version 2 counts every
   * object as a circle, any other version is refused.
   */
  function Dispatch(f: Figures, c: Counts, accuracy: real, missCount: int, version: int)
    : (r: Result<(real, int), PPError>)
    ensures r.Success? ==> version == 1 || version == 2
    ensures version == 2 ==> r == Success((accuracy, f.objectCount))
    ensures version == 1 && r.Success? ==>
      r.value.1 == f.circleCount && ScoreV1Accuracy(f, c, missCount) == Success(r.value.0)
    ensures version != 1 && version != 2 ==> r == Failure(UnsupportedScoreVersion(version))
  {
    if version == 1 then
      match ScoreV1Accuracy(f, c, missCount)
      case Failure(e) => Failure(AccuracyFailed(e))
      case Success(realAccuracy) => Success((realAccuracy, f.circleCount))
    else if version == 2 then Success((accuracy, f.objectCount))
    else Failure(UnsupportedScoreVersion(version))
  }

  /**
   * calc after the figures, mods and stars are settled: the stars check,
   * the count defaults, the solver, value() of its counts and the
   * score-version dispatch.
   */
  function Resolve(f: Figures, mods: int, aimStars: Option<real>, speedStars: Option<real>, p: PPParams)
    : (r: Result<PPInputs, PPError>)
    ensures r == Failure(StarsRequired) <==> aimStars.None? || speedStars.None?
    ensures r.Failure? ==> r.error.StarsRequired? || r.error.AccuracyFailed? || r.error.UnsupportedScoreVersion?
    ensures r.Success? ==>
      && r.value.scoreVersion == ScoreVersionOf(p) && (r.value.scoreVersion == 1 || r.value.scoreVersion == 2)
      && r.value.missCount == OrDefault(p.missCount, 0)
      && r.value.combo == (if p.combo.None? then f.maxCombo - r.value.missCount else p.combo.value)
      && 0.0 <= r.value.accuracy <= 1.0 && 0.0 <= r.value.realAccuracy <= 1.0
      && AccuracyOf(r.value.counts, None) == Success(r.value.accuracy)
      && CountsOf(SolverParams(f, p)) == Success(r.value.counts)
    ensures aimStars.Some? && speedStars.Some? && ScoreVersionOf(p) != 1 && ScoreVersionOf(p) != 2 ==> r.Failure?
    ensures r.Success? && r.value.scoreVersion == 2 ==>
      r.value.accuracyCircleCount == f.objectCount && r.value.realAccuracy == r.value.accuracy
    ensures r.Success? && r.value.scoreVersion == 1 ==>
      r.value.accuracyCircleCount == f.circleCount
      && ScoreV1Accuracy(f, r.value.counts, r.value.missCount) == Success(r.value.realAccuracy)
  {
    if aimStars.None? || speedStars.None? then Failure(StarsRequired)
    else Finish(f, mods, aimStars.value, speedStars.value, p)
  }

  /** Resolve once both star ratings are known. */
  function Finish(f: Figures, mods: int, aimStars: real, speedStars: real, p: PPParams): Result<PPInputs, PPError>
  {
    var missCount := OrDefault(p.missCount, 0);
    var combo := OrDefault(p.combo, f.maxCombo - missCount);
    var version := ScoreVersionOf(p);
    match Judge(f, p)
    case Failure(e) => Failure(AccuracyFailed(e))
    case Success(judged) =>
      match Dispatch(f, judged.0, judged.1, missCount, version)
      case Failure(e) => Failure(e)
      case Success(chosen) =>
        Success(PPInputs(f, mods, aimStars, speedStars, missCount, judged.0, combo, version,
                         judged.1, chosen.0, chosen.1))
  }

  /** The map calc reads: the one of `stars` when given (even when that is null), else the parameter. */
  function SelectedMap(p: PPParams): Beatmap?
    reads p.stars
  {
    if p.stars != null then p.stars.beatmap else p.beatmap
  }

  /** What calc needs of the map it reads to run maxCombo and, without stars, the difficulty calculator. */
  predicate InputsReady(p: PPParams)
    reads p.stars, SelectedMap(p)
  {
    var b := SelectedMap(p);
    b != null ==> SlidersCarryData(b.objects) && b.sv != 0.0 && (p.stars == null ==> Usable(b))
  }

  /** The figures of a map: its max combo, counts and length, AR and OD. */
  function MapFigures(b: Beatmap): Result<Figures, PPError>
    requires SlidersCarryData(b.objects) && b.sv != 0.0
    reads b
  {
    match MaxComboOf(b.circleCount, b.spinnerCount, b.objects, b.timingPoints, b.formatVersion, b.sv, b.tickRate)
    case Failure(e) => Failure(ComboFailed(e))
    case Success(maxCombo) => Success(Figures(maxCombo, b.sliderCount, b.circleCount, |b.objects|, b.ar, b.od))
  }

  /** The mods and star ratings calc works with. */
  datatype StarRatings = StarRatings(mods: int, aim: Option<real>, speed: Option<real>)

  /**
   * The ratings of `stars` when given; else, with a map, those of a new
   * difficulty calculator run on it with the given mods and threshold;
   * else the parameters, with mods defaulting to none.
   */
  function StarsOf(p: PPParams, m: Maths): StarRatings
    requires InputsReady(p)
    reads p.stars, SelectedMap(p)
  {
    var b := SelectedMap(p);
    if p.stars != null then StarRatings(p.stars.mods, Some(p.stars.aim), Some(p.stars.speed))
    else if b != null then
      var mods := if TruthyInt(p.mods) then p.mods.value else 0;
      var threshold := if Truthy(p.singletapThreshold) then p.singletapThreshold.value
                       else DEFAULT_SINGLETAP_THRESHOLD;
      var rating := RatingOf(b.objects, b.cs, mods, threshold, m);
      StarRatings(mods, Some(rating.aim), Some(rating.speed))
    else StarRatings(OrDefault(p.mods, 0), p.aimStars, p.speedStars)
  }

  /** What StdPPv2.calc resolves its inputs to, or the error it throws first. */
  function InputsOf(p: PPParams, m: Maths): Result<PPInputs, PPError>
    requires InputsReady(p)
    reads p.stars, SelectedMap(p)
  {
    var b := SelectedMap(p);
    var figures := if b != null then MapFigures(b) else ManualFigures(p);
    match figures
    case Failure(e) => Failure(e)
    case Success(f) =>
      var s := StarsOf(p, m);
      Resolve(f, s.mods, s.aim, s.speed, p)
  }

  /** With a map, the manual checks are skipped: the figures come from the map unchecked. */
  lemma MapSkipsManualChecks(p: PPParams, m: Maths)
    requires InputsReady(p) && SelectedMap(p) != null
    ensures InputsOf(p, m) != Failure(MaxComboInvalid)
    ensures InputsOf(p, m) != Failure(CountsRequired)
    ensures InputsOf(p, m) != Failure(ObjectCountTooSmall)
    ensures InputsOf(p, m).Success? ==> InputsOf(p, m).value.figures.objectCount == |SelectedMap(p).objects|
  {
  }

  /** Stars are missing only when neither a stars object nor a map is given and the parameters lack them. */
  lemma StarsRequiredOnlyByHand(p: PPParams, m: Maths)
    requires InputsReady(p)
    ensures InputsOf(p, m) == Failure(StarsRequired)
        <==> p.stars == null && p.beatmap == null && ManualFigures(p).Success?
             && (p.aimStars.None? || p.speedStars.None?)
  {
  }

  /**
   * Without n300 and without a target percent, the defaulted counts fill
   * the object count: n300 is the remainder after 100s, 50s and misses.
   */
  lemma DefaultCountsFillObjects(f: Figures, mods: int, aimStars: Option<real>, speedStars: Option<real>,
                                 p: PPParams)
    requires p.n300.None? && !Truthy(p.accuracyPercent)
    requires Resolve(f, mods, aimStars, speedStars, p).Success?
    ensures var r := Resolve(f, mods, aimStars, speedStars, p).value;
      && r.counts.missCount == r.missCount
      && r.counts.n300 + r.counts.n100 + r.counts.n50 + r.counts.missCount == f.objectCount
      && r.counts.n100 == OrDefault(p.n100, 0) && r.counts.n50 == OrDefault(p.n50, 0)
  {
  }

  /**
   * With a target percent the solved counts replace the given ones: they
   * still add up to the object count, with the misses capped at it.
   */
  lemma SolvedCountsFillObjects(f: Figures, mods: int, aimStars: Option<real>, speedStars: Option<real>,
                                p: PPParams)
    requires Truthy(p.accuracyPercent)
    requires Resolve(f, mods, aimStars, speedStars, p).Success?
    ensures var r := Resolve(f, mods, aimStars, speedStars, p).value;
      && r.counts.n300 + r.counts.n100 + r.counts.n50 + r.counts.missCount == f.objectCount
      && r.counts.missCount == MinI(f.objectCount, r.missCount)
  {
    var sp := SolverParams(f, p);
    SolveShape(0.2, OrDefault(sp.n50, 0), OrDefault(sp.missCount, 0), f.objectCount, p.accuracyPercent.value);
  }

  /**
   * Score v1 changes nothing when every object is a circle and the counts
   * were not solved: there are no free 300s to take off.
   */
  lemma ScoreV1AllCircles(f: Figures, mods: int, aimStars: Option<real>, speedStars: Option<real>, p: PPParams)
    requires f.sliderCount == 0 && f.circleCount == f.objectCount && !Truthy(p.accuracyPercent)
    requires Resolve(f, mods, aimStars, speedStars, p).Success?
    requires Resolve(f, mods, aimStars, speedStars, p).value.scoreVersion == 1
    ensures Resolve(f, mods, aimStars, speedStars, p).value.realAccuracy
         == Resolve(f, mods, aimStars, speedStars, p).value.accuracy
  {
    var r := Resolve(f, mods, aimStars, speedStars, p).value;
    assert r.counts.n300 >= 0;
    assert r.counts.missCount == r.missCount;
  }

  class StdPPv2 {
    /** The accuracy calculator of the last calc call. */
    var computedAccuracy: StdAccuracy?

    constructor()
      ensures computedAccuracy == null
    {
      computedAccuracy := null;
    }

    /**
     * calc up to the pp formulas: the figures from the map (of `stars` when
     * given) or from the checked parameters, the stars from `stars`, from a
     * difficulty calculator run on the map, or from the parameters; then the
     * rest as Resolve describes.
     */
    method Calc(p: PPParams, m: Maths) returns (r: Result<PPInputs, PPError>)
      requires InputsReady(p)
      modifies this
      ensures r == InputsOf(p, m)
      ensures r.Success? ==> computedAccuracy != null && computedAccuracy.Value() == r.value.counts
    {
      var stars := p.stars;
      var b := p.beatmap;
      if stars != null {
        b := stars.beatmap;
      }
      var figures: Figures;
      if b != null {
        var maxCombo := b.MaxCombo();
        if maxCombo.Failure? {
          return Failure(ComboFailed(maxCombo.error));
        }
        figures := Figures(maxCombo.value, b.sliderCount, b.circleCount, |b.objects|, b.ar, b.od);
        if stars == null {
          var d := new StdDifficulty();
          var rated := d.Calc(CalcParams(b, p.mods, p.singletapThreshold), m);
          stars := d;
        }
      } else {
        var manual := ManualFigures(p);
        if manual.Failure? {
          return Failure(manual.error);
        }
        figures := manual.value;
      }
      var mods, aimStars, speedStars;
      if stars != null {
        mods, aimStars, speedStars := stars.mods, Some(stars.aim), Some(stars.speed);
      } else {
        mods, aimStars, speedStars := OrDefault(p.mods, 0), p.aimStars, p.speedStars;
      }
      r := Settle(figures, mods, aimStars, speedStars, p);
    }

    /** The part of calc after the figures and stars are known. */
    method Settle(f: Figures, mods: int, aimStars: Option<real>, speedStars: Option<real>, p: PPParams)
      returns (r: Result<PPInputs, PPError>)
      modifies this
      ensures r == Resolve(f, mods, aimStars, speedStars, p)
      ensures r.Success? ==> computedAccuracy != null && computedAccuracy.Value() == r.value.counts
    {
      if aimStars.None? || speedStars.None? {
        return Failure(StarsRequired);
      }
      r := SettleRated(f, mods, aimStars.value, speedStars.value, p);
    }

    /** Settle once both star ratings are known. */
    method SettleRated(f: Figures, mods: int, aimStars: real, speedStars: real, p: PPParams)
      returns (r: Result<PPInputs, PPError>)
      modifies this
      ensures r == Finish(f, mods, aimStars, speedStars, p)
      ensures r.Success? ==> computedAccuracy != null && computedAccuracy.Value() == r.value.counts
    {
      var missCount := OrDefault(p.missCount, 0);
      var n50 := OrDefault(p.n50, 0);
      var n100 := OrDefault(p.n100, 0);
      var n300 := OrDefault(p.n300, f.objectCount - n100 - n50 - missCount);
      var combo := OrDefault(p.combo, f.maxCombo - missCount);
      var scoreVersion := if TruthyInt(p.scoreVersion) then p.scoreVersion.value else 1;
      var computed := StdAccuracy.Make(
        AccuracyParams(Some(missCount), Some(n300), Some(n100), Some(n50), Some(f.objectCount), p.accuracyPercent));
      if computed.Failure? {
        return Failure(AccuracyFailed(computed.error));
      }
      computedAccuracy := computed.value;
      var counts := computedAccuracy.Value();
      n300, n100, n50 := counts.n300, counts.n100, counts.n50;
      var accuracy := AccuracyOf(counts, None);
      if accuracy.Failure? {
        return Failure(AccuracyFailed(accuracy.error));
      }
      assert Judge(f, p) == Success((counts, accuracy.value));
      var chosen := SwitchScoreVersion(f, counts, accuracy.value, missCount, scoreVersion);
      if chosen.Failure? {
        return Failure(chosen.error);
      }
      var (realAccuracy, circleCount) := chosen.value;
      return Success(PPInputs(f, mods, aimStars, speedStars, missCount, counts, combo, scoreVersion,
                              accuracy.value, realAccuracy, circleCount));
    }
  }

  /**
   * The score-version switch of calc: the accuracy and the circle count
   * the formulas use.
   */
  method SwitchScoreVersion(f: Figures, counts: Counts, accuracy: real, missCount: int, scoreVersion: int)
    returns (r: Result<(real, int), PPError>)
    ensures r == Dispatch(f, counts, accuracy, missCount, scoreVersion)
  {
    var realAccuracy := accuracy;
    var circleCount := f.circleCount;
    if scoreVersion == 1 {
      var spinnerCount := f.objectCount - f.sliderCount - f.circleCount;
      var free := new StdAccuracy.FromCounts(
        Counts(MaxI(0, counts.n300 - f.sliderCount - spinnerCount), counts.n100, counts.n50, missCount));
      var v1 := AccuracyOf(free.Value(), None);
      if v1.Failure? {
        return Failure(AccuracyFailed(v1.error));
      }
      realAccuracy := MaxR(0.0, v1.value);
    } else if scoreVersion == 2 {
      circleCount := f.objectCount;
    } else {
      return Failure(UnsupportedScoreVersion(scoreVersion));
    }
    return Success((realAccuracy, circleCount));
  }
}

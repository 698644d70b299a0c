/**
 * The star-rating calculators: StdDifficulty, which normalizes the object
 * positions, runs the speed and aim strain passes and counts singletaps, and
 * Difficulty, which keeps one calculator per game mode.
 */
module DifficultyEngine {
  import opened Wrappers
  import opened Numeric
  import opened Beatmaps
  import opened Strain
  import Stats
  import Mods
  import Text
  import Seqs

  const PLAYFIELD_WIDTH: real := 512.0
  const PLAYFIELD_HEIGHT: real := 384.0
  const CIRCLESIZE_BUFF_THRESHOLD: real := 30.0
  const DEFAULT_SINGLETAP_THRESHOLD: real := 125.0

  /** The circle size at which the radius formula reaches zero. */
  const DEGENERATE_CS: real := 85.0 / 7.0

  /** The circle radius in osu! pixels for a circle size. */
  function Radius(cs: real): real
  {
    (PLAYFIELD_WIDTH / 16.0) * (1.0 - 0.7 * (cs - 5.0) / 5.0)
  }

  lemma RadiusSign(cs: real)
    ensures Radius(cs) == 0.0 <==> cs == DEGENERATE_CS
    ensures Radius(cs) > 0.0 <==> cs < DEGENERATE_CS
    ensures Radius(5.0) == 32.0
  {
  }

  /** The component of `_normalizer_vector`: 52 / radius, with a bonus of up to 10% below radius 30. */
  function NormalizerScale(cs: real): real
    requires cs != DEGENERATE_CS
  {
    RadiusSign(cs);
    var radius := Radius(cs);
    var scalingFactor := 52.0 / radius;
    if radius < CIRCLESIZE_BUFF_THRESHOLD then
      scalingFactor * (1.0 + MinR(CIRCLESIZE_BUFF_THRESHOLD - radius, 5.0) / 50.0)
    else scalingFactor
  }

  lemma QuotientTimes(a: real, b: real)
    requires b != 0.0
    ensures b * (a / b) == a
  {
  }

  /**
   * After normalization every circle has radius 52, raised by at most 10%
   * for small circles (radius under 30).
   */
  lemma NormalizedRadius(cs: real)
    requires cs < DEGENERATE_CS
    ensures 52.0 <= Radius(cs) * NormalizerScale(cs) <= 57.2
    ensures Radius(cs) >= CIRCLESIZE_BUFF_THRESHOLD ==> Radius(cs) * NormalizerScale(cs) == 52.0
  {
    RadiusSign(cs);
    var radius := Radius(cs);
    QuotientTimes(52.0, radius);
    if radius < CIRCLESIZE_BUFF_THRESHOLD {
      var bonus := 1.0 + MinR(CIRCLESIZE_BUFF_THRESHOLD - radius, 5.0) / 50.0;
      assert 1.0 <= bonus <= 1.1;
      assert radius * ((52.0 / radius) * bonus) == (radius * (52.0 / radius)) * bonus;
    }
  }

  /**
   * `_normalizer_vector`: the same factor on both axes, one that brings any
   * circle to radius 52, or up to 10% more for small circles.
   */
  function NormalizerVector(cs: real): (v: Vec)
    requires cs != DEGENERATE_CS
    ensures v.x == v.y == NormalizerScale(cs)
    ensures cs < DEGENERATE_CS ==> 52.0 <= Radius(cs) * v.x <= 57.2
    ensures cs < DEGENERATE_CS && Radius(cs) >= CIRCLESIZE_BUFF_THRESHOLD ==> Radius(cs) * v.x == 52.0
  {
    if cs < DEGENERATE_CS then
      NormalizedRadius(cs);
      Vec(NormalizerScale(cs), NormalizerScale(cs))
    else
      Vec(NormalizerScale(cs), NormalizerScale(cs))
  }

  /** Circle and slider objects that are not spinners carry a position. */
  predicate PositionsCarried(objects: seq<HitObject>)
  {
    forall i :: 0 <= i < |objects| ==> HasPosition(objects[i])
  }

  predicate HasPosition(o: HitObject)
  {
    HasBit(o.objectType, SPINNER) || !Moving(o) || o.data.CirclePayload? || o.data.SliderPayload?
  }

  function Scaled(v: Vec, f: real): Vec
  {
    Vec(v.x * f, v.y * f)
  }

  /** The normalized position: spinners sit at the playfield centre, unknown types at the origin. */
  function NormPos(o: HitObject, f: real): Vec
    requires HasPosition(o)
  {
    if HasBit(o.objectType, SPINNER) then Scaled(Vec(PLAYFIELD_WIDTH / 2.0, PLAYFIELD_HEIGHT / 2.0), f)
    else if Moving(o) then Scaled(o.data.pos, f)
    else Vec(0.0, 0.0)
  }

  /** `new StdDifficultyHitObject(o)` with its normalized position. */
  function FreshObject(o: HitObject, f: real): DiffObject
    requires HasPosition(o)
  {
    DiffObject(o, 0.0, 0.0, NormPos(o, f), false)
  }

  /**
   * The objects `_init_objects` is meant to build: each wraps the map object
   * at the same index, starts with zero strains and no single flag, and a
   * spinner sits at the scaled playfield centre, a circle or slider at its
   * scaled position.
   */
  function InitObjectsOf(mapObjects: seq<HitObject>, f: real): (r: seq<DiffObject>)
    requires PositionsCarried(mapObjects)
    ensures |r| == |mapObjects|
    ensures forall i :: 0 <= i < |r| ==>
      && r[i].obj == mapObjects[i]
      && r[i].speedStrain == 0.0 && r[i].aimStrain == 0.0 && !r[i].isSingle
      && (HasBit(mapObjects[i].objectType, SPINNER) ==> r[i].normpos == Vec(256.0 * f, 192.0 * f))
      && (!HasBit(mapObjects[i].objectType, SPINNER) && Moving(mapObjects[i]) ==>
            r[i].normpos == Vec(mapObjects[i].data.pos.x * f, mapObjects[i].data.pos.y * f))
    ensures forall i :: 0 <= i < |r| ==> r[i] == FreshObject(mapObjects[i], f)
  {
    seq(|mapObjects|, i requires 0 <= i < |mapObjects| => FreshObject(mapObjects[i], f))
  }

  predicate SlotsCarryPositions(slots: seq<DiffObject>)
  {
    forall i :: 0 <= i < |slots| ==> HasPosition(slots[i].obj)
  }

  /**
   * `_init_objects` as written: a slot left over from an earlier call is
   * rebuilt around its own old hit object, so only new slots agree with the
   * intended objects.
   */
  function InitObjectsAsWritten(slots: seq<DiffObject>, mapObjects: seq<HitObject>, f: real): (r: seq<DiffObject>)
    requires PositionsCarried(mapObjects) && SlotsCarryPositions(slots)
    ensures |r| == |mapObjects|
    ensures forall i :: 0 <= i < |r| && i < |slots| ==> r[i].obj == slots[i].obj
    ensures forall i :: |slots| <= i < |r| ==> r[i] == InitObjectsOf(mapObjects, f)[i]
    ensures forall i :: 0 <= i < |r| ==> r[i].speedStrain == 0.0 && r[i].aimStrain == 0.0 && !r[i].isSingle
  {
    seq(|mapObjects|, i requires 0 <= i < |mapObjects| =>
      FreshObject(if i < |slots| then slots[i].obj else mapObjects[i], f))
  }

  /**
   * A calculator reused for a second map of the same length keeps the first
   * map's hit objects: as written, the new map is never read.
   */
  lemma InitObjectsAsWrittenIsStale(slots: seq<DiffObject>, mapObjects: seq<HitObject>, f: real)
    requires PositionsCarried(mapObjects) && SlotsCarryPositions(slots)
    requires |slots| == |mapObjects| > 0 && slots[0].obj != mapObjects[0]
    ensures InitObjectsAsWritten(slots, mapObjects, f) != InitObjectsOf(mapObjects, f)
  {
    assert InitObjectsAsWritten(slots, mapObjects, f)[0].obj != InitObjectsOf(mapObjects, f)[0].obj;
  }

  /** Number of objects after the first whose single flag is set. */
  function SinglesUpTo(objs: seq<DiffObject>, n: nat): (c: nat)
    requires n <= |objs|
    ensures n >= 1 ==> c <= n - 1
  {
    if n <= 1 then 0
    else SinglesUpTo(objs, n - 1) + (if objs[n - 1].isSingle then 1 else 0)
  }

  /** The interval to the previous object, in real time. */
  function Interval(objs: seq<DiffObject>, i: nat, speedMultiplier: real): real
    requires 1 <= i < |objs| && speedMultiplier != 0.0
  {
    (objs[i].obj.time - objs[i - 1].obj.time) / speedMultiplier
  }

  /** Number of circles and sliders after the first at least `threshold` ms after their predecessor. */
  function ThresholdUpTo(objs: seq<DiffObject>, n: nat, speedMultiplier: real, threshold: real): (c: nat)
    requires n <= |objs| && speedMultiplier != 0.0
    ensures n >= 1 ==> c <= n - 1
  {
    if n <= 1 then 0
    else ThresholdUpTo(objs, n - 1, speedMultiplier, threshold)
         + (if Moving(objs[n - 1].obj) && Interval(objs, n - 1, speedMultiplier) >= threshold then 1 else 0)
  }

  /** The aim pass keeps the single flag the speed pass set. */
  lemma {:induction false} StrainedKeeps(objs: seq<DiffObject>, i: nat, ty: DiffType, s: real, m: Maths)
    requires i < |objs| && s != 0.0
    ensures ty == Aim ==> Strained(objs, i, ty, s, m).isSingle == objs[i].isSingle
  {
    if i > 0 {
      CalcStrainShape(ty, objs[i], Strained(objs, i - 1, ty, s, m), s, m);
      CalcStrainSingle(ty, objs[i], Strained(objs, i - 1, ty, s, m), s, m);
    }
  }

  /**
   * After the speed pass and the aim pass over fresh objects, object i is
   * single exactly when it is a circle or slider lying more than 125
   * normalized units from object i - 1.
   */
  lemma SinglesAfterPasses(init: seq<DiffObject>, s: real, m: Maths, i: nat)
    requires s != 0.0 && i < |init|
    requires forall k :: 0 <= k < |init| ==> !init[k].isSingle
    ensures var objs := StrainPass(StrainPass(init, Speed, s, m), Aim, s, m);
      objs[i].isSingle <==>
        (i >= 1 && Moving(init[i].obj) && Distance(init[i].normpos, init[i - 1].normpos, m) > 125.0)
  {
    var afterSpeed := StrainPass(init, Speed, s, m);
    StrainedKeeps(afterSpeed, i, Aim, s, m);
    if i >= 1 {
      StrainedKeeps(init, i - 1, Speed, s, m);
      CalcStrainSingle(Speed, init[i], Strained(init, i - 1, Speed, s, m), s, m);
    }
  }

  /** The observable outcome of StdDifficulty.calc. */
  datatype Rating = Rating(objects: seq<DiffObject>, speed: real, aim: real, total: real,
                           nsingles: nat, nsinglesThreshold: nat)

  /** The stats calc derives from the map's circle size under `mods`. */
  function ModdedStats(cs: real, mods: int): Stats.StatsValue
  {
    Stats.WithModsOf(Stats.StatsValue(None, None, None, Some(cs), 1.0), Bits(mods))
  }

  /**
   * The modded circle size is present, and it is never the degenerate one:
   * a map-changing mod caps it at 10, otherwise it is the map's own.
   */
  lemma ModdedStatsShape(cs: real, mods: int)
    requires cs != DEGENERATE_CS
    ensures ModdedStats(cs, mods).cs.Some?
    ensures ModdedStats(cs, mods).cs.value != DEGENERATE_CS
    ensures STRAIN_STEP * ModdedStats(cs, mods).speedMultiplier >= 1.0
  {
    var base := Stats.StatsValue(None, None, None, Some(cs), 1.0);
    Stats.WithModsOfSpeed(base, Bits(mods));
    if Stats.HasMod(Bits(mods), Mods.MapChanging) {
      Stats.WithModsOfCaps(base, Bits(mods));
    }
  }

  /** The normalization factor calc uses: the one for the modded circle size. */
  function ScaleOf(cs: real, mods: int): real
    requires cs != DEGENERATE_CS
  {
    ModdedStatsShape(cs, mods);
    NormalizerScale(ModdedStats(cs, mods).cs.value)
  }

  /** The objects after the speed pass and then the aim pass. */
  function PassesOf(init: seq<DiffObject>, speedMultiplier: real, m: Maths): seq<DiffObject>
    requires speedMultiplier != 0.0
  {
    StrainPass(StrainPass(init, Speed, speedMultiplier, m), Aim, speedMultiplier, m)
  }

  /** Speed stars: the square root of the speed difficulty, scaled. */
  function SpeedStars(init: seq<DiffObject>, speedMultiplier: real, m: Maths): real
    requires STRAIN_STEP * speedMultiplier >= 1.0
  {
    m.sqrt(Individual(init, Speed, speedMultiplier, m)) * STAR_SCALING_FACTOR
  }

  /** Aim stars, computed on the objects after the speed pass; Touch Device takes them to the power 0.8. */
  function AimStars(init: seq<DiffObject>, speedMultiplier: real, touchDevice: bool, m: Maths): real
    requires STRAIN_STEP * speedMultiplier >= 1.0
  {
    var aim := m.sqrt(Individual(StrainPass(init, Speed, speedMultiplier, m), Aim, speedMultiplier, m))
               * STAR_SCALING_FACTOR;
    if touchDevice then m.pow(aim, 0.8) else aim
  }

  lemma AimStarsOf(init: seq<DiffObject>, speedMultiplier: real, touchDevice: bool, m: Maths, rawAim: real)
    requires STRAIN_STEP * speedMultiplier >= 1.0
    requires rawAim == Individual(StrainPass(init, Speed, speedMultiplier, m), Aim, speedMultiplier, m)
    ensures AimStars(init, speedMultiplier, touchDevice, m)
         == (if touchDevice then m.pow(m.sqrt(rawAim) * STAR_SCALING_FACTOR, 0.8)
             else m.sqrt(rawAim) * STAR_SCALING_FACTOR)
  {
  }

  /** The rating of already initialised objects at a speed multiplier, with or without Touch Device. */
  function RatingFrom(init: seq<DiffObject>, speedMultiplier: real, touchDevice: bool, threshold: real, m: Maths): Rating
    requires STRAIN_STEP * speedMultiplier >= 1.0
  {
    var objs := PassesOf(init, speedMultiplier, m);
    var speed := SpeedStars(init, speedMultiplier, m);
    var aim := AimStars(init, speedMultiplier, touchDevice, m);
    Rating(objs, speed, aim, Total(aim, speed),
           SinglesUpTo(objs, |objs|), ThresholdUpTo(objs, |objs|, speedMultiplier, threshold))
  }

  lemma RatingFromFields(init: seq<DiffObject>, speedMultiplier: real, touchDevice: bool, threshold: real,
                         m: Maths, r: Rating)
    requires STRAIN_STEP * speedMultiplier >= 1.0
    requires r.objects == PassesOf(init, speedMultiplier, m)
    requires r.speed == SpeedStars(init, speedMultiplier, m)
    requires r.aim == AimStars(init, speedMultiplier, touchDevice, m)
    requires r.total == Total(r.aim, r.speed)
    requires r.nsingles == SinglesUpTo(r.objects, |r.objects|)
    requires r.nsinglesThreshold == ThresholdUpTo(r.objects, |r.objects|, speedMultiplier, threshold)
    ensures r == RatingFrom(init, speedMultiplier, touchDevice, threshold, m)
  {
  }

  /** What StdDifficulty.calc computes for a map's objects and circle size. */
  function RatingOf(mapObjects: seq<HitObject>, cs: real, mods: int, threshold: real, m: Maths): Rating
    requires PositionsCarried(mapObjects) && cs != DEGENERATE_CS
  {
    ModdedStatsShape(cs, mods);
    RatingFrom(InitObjectsOf(mapObjects, ScaleOf(cs, mods)), ModdedStats(cs, mods).speedMultiplier,
               Stats.HasMod(Bits(mods), Mods.TD), threshold, m)
  }

  /**
   * The rating keeps one object per map object, in order; singles are the
   * circles and sliders far from their predecessor; the total mixes aim and
   * speed as Total does.
   */
  lemma RatingOfShape(mapObjects: seq<HitObject>, cs: real, mods: int, threshold: real, m: Maths, i: nat)
    requires PositionsCarried(mapObjects) && cs != DEGENERATE_CS && i < |mapObjects|
    ensures var r := RatingOf(mapObjects, cs, mods, threshold, m);
      && |r.objects| == |mapObjects|
      && r.objects[i].obj == mapObjects[i]
      && r.total == Total(r.aim, r.speed)
      && (r.objects[i].isSingle <==>
            (i >= 1 && Moving(mapObjects[i])
             && Distance(r.objects[i].normpos, r.objects[i - 1].normpos, m) > 125.0))
  {
    ModdedStatsShape(cs, mods);
    var stats := ModdedStats(cs, mods);
    var s := stats.speedMultiplier;
    var init := InitObjectsOf(mapObjects, NormalizerScale(stats.cs.value));
    var afterSpeed := StrainPass(init, Speed, s, m);
    SinglesAfterPasses(init, s, m, i);
    StrainedKeeps(afterSpeed, i, Aim, s, m);
    StrainedKeeps(init, i, Speed, s, m);
    if i >= 1 {
      StrainedKeeps(afterSpeed, i - 1, Aim, s, m);
      StrainedKeeps(init, i - 1, Speed, s, m);
    }
  }

  /** Without map-changing mods positions are scaled for the map's own circle size at speed 1. */
  lemma RatingWithoutMapChange(cs: real, mods: int)
    requires cs != DEGENERATE_CS && !Stats.HasMod(Bits(mods), Mods.MapChanging)
    ensures ModdedStats(cs, mods).speedMultiplier == 1.0
    ensures ModdedStats(cs, mods).cs == Some(cs)
  {
  }

  datatype CalcParams = CalcParams(beatmap: Beatmap?, mods: Option<int>, singletapThreshold: Option<real>)

  datatype CalcError =
    | NoMapGiven        // neither the parameters nor an earlier call supplied a map
    | UnsupportedMode   // only osu!standard has a calculator

  /** A map the calculator can work on. */
  predicate Usable(b: Beatmap?)
    reads b
  {
    b != null ==> b.cs != DEGENERATE_CS && PositionsCarried(b.objects)
  }

  class StdDifficulty {
    var objects: seq<DiffObject>
    var total: real
    var aim: real
    var speed: real
    var nsingles: nat
    var nsinglesThreshold: nat
    /** Parameters that persist between calls. */
    var beatmap: Beatmap?
    var mods: int
    var singletapThreshold: real

    function Value(): Rating
      reads this
    {
      Rating(objects, speed, aim, total, nsingles, nsinglesThreshold)
    }

    constructor()
      ensures objects == [] && beatmap == null && mods == 0
      ensures singletapThreshold == DEFAULT_SINGLETAP_THRESHOLD
      ensures total == 0.0 && aim == 0.0 && speed == 0.0 && nsingles == 0 && nsinglesThreshold == 0
    {
      objects := [];
      total, aim, speed := 0.0, 0.0, 0.0;
      nsingles, nsinglesThreshold := 0, 0;
      beatmap := null;
      mods := 0;
      singletapThreshold := DEFAULT_SINGLETAP_THRESHOLD;
    }

    /**
     * calc: the map, mods and threshold fall back to the previous call's when
     * not given (or given as 0); without any map the call fails.
     */
    method Calc(params: CalcParams, m: Maths) returns (r: Result<StdDifficulty, CalcError>)
      requires Usable(if params.beatmap != null then params.beatmap else beatmap)
      modifies this
      ensures beatmap == (if params.beatmap != null then params.beatmap else old(beatmap))
      ensures beatmap == null ==> r == Failure(NoMapGiven) && mods == old(mods) && Value() == old(Value())
      ensures beatmap != null ==>
        && r == Success(this)
        && mods == (if TruthyInt(params.mods) then params.mods.value else old(mods))
        && singletapThreshold
             == (if Truthy(params.singletapThreshold) then params.singletapThreshold.value
                 else old(singletapThreshold))
        && Value() == RatingOf(beatmap.objects, beatmap.cs, mods, singletapThreshold, m)
    {
      var chosen := if params.beatmap != null then params.beatmap else beatmap;
      beatmap := chosen;
      if chosen == null {
        return Failure(NoMapGiven);
      }
      mods := if TruthyInt(params.mods) then params.mods.value else mods;
      singletapThreshold :=
        if Truthy(params.singletapThreshold) then params.singletapThreshold.value else singletapThreshold;
      Rate(chosen, m);
      r := Success(this);
    }

    /** The computation of calc once the map, mods and threshold are settled. */
    method Rate(b: Beatmap, m: Maths)
      requires Usable(b)
      modifies this
      ensures Value() == RatingOf(b.objects, b.cs, mods, singletapThreshold, m)
      ensures beatmap == old(beatmap) && mods == old(mods) && singletapThreshold == old(singletapThreshold)
    {
      var base := new Stats.StdBeatmapStats(None, None, None, Some(b.cs));
      var stats := base.WithMods(mods);
      ModdedStatsShape(b.cs, mods);
      assert stats.Value() == ModdedStats(b.cs, mods);
      var speedMultiplier := stats.speedMultiplier;
      var touchDevice := Stats.HasMod(Bits(mods), Mods.TD);
      InitObjects(b.objects, stats.cs.value);
      assert RatingOf(b.objects, b.cs, mods, singletapThreshold, m)
          == RatingFrom(objects, speedMultiplier, touchDevice, singletapThreshold, m);
      RatePasses(speedMultiplier, touchDevice, m);
    }

    /** The two strain passes, the star values and the singletap counts of calc. */
    method RatePasses(speedMultiplier: real, touchDevice: bool, m: Maths)
      requires STRAIN_STEP * speedMultiplier >= 1.0
      modifies this
      ensures Value() == RatingFrom(old(objects), speedMultiplier, touchDevice, singletapThreshold, m)
      ensures beatmap == old(beatmap) && mods == old(mods) && singletapThreshold == old(singletapThreshold)
    {
      ghost var init := objects;
      var rawSpeed := CalcIndividual(Speed, speedMultiplier, m);
      speed := m.sqrt(rawSpeed) * STAR_SCALING_FACTOR;
      assert speed == SpeedStars(init, speedMultiplier, m);
      var rawAim := CalcIndividual(Aim, speedMultiplier, m);
      assert objects == PassesOf(init, speedMultiplier, m);
      var aimStars := m.sqrt(rawAim) * STAR_SCALING_FACTOR;
      if touchDevice {
        aimStars := m.pow(aimStars, 0.8);
      }
      AimStarsOf(init, speedMultiplier, touchDevice, m, rawAim);
      aim := aimStars;
      total := aim + speed + AbsR(speed - aim) * EXTREME_SCALING_FACTOR;
      CountSingles(speedMultiplier, singletapThreshold);
      RatingFromFields(init, speedMultiplier, touchDevice, singletapThreshold, m, Value());
    }

    /**
     * `_init_objects`, as intended: the array takes the map's length and
     * every slot is rebuilt around the map object at its index.
     */
    method InitObjects(mapObjects: seq<HitObject>, cs: real)
      requires PositionsCarried(mapObjects) && cs != DEGENERATE_CS
      modifies this
      ensures objects == InitObjectsOf(mapObjects, NormalizerScale(cs))
      ensures Value().(objects := []) == old(Value()).(objects := [])
      ensures beatmap == old(beatmap) && mods == old(mods) && singletapThreshold == old(singletapThreshold)
    {
      var n := |mapObjects|;
      var slots := objects;
      if |slots| > n {
        slots := slots[..n];
      }
      var f := NormalizerVector(cs).x;
      var i := 0;
      while i < n
        invariant 0 <= i <= n
        invariant i <= |slots| <= n
        invariant forall k :: 0 <= k < i ==> slots[k] == FreshObject(mapObjects[k], f)
      {
        var d := FreshObject(mapObjects[i], f);
        if i < |slots| {
          slots := slots[i := d];
        } else {
          slots := slots + [d];
        }
        i := i + 1;
      }
      objects := slots;
    }

    /** `_calc_individual`: one strain pass in place, then the weighted window maxima. */
    method CalcIndividual(ty: DiffType, speedMultiplier: real, m: Maths) returns (difficulty: real)
      requires STRAIN_STEP * speedMultiplier >= 1.0
      modifies this
      ensures objects == StrainPass(old(objects), ty, speedMultiplier, m)
      ensures difficulty == Individual(old(objects), ty, speedMultiplier, m)
      ensures Value().(objects := []) == old(Value()).(objects := [])
      ensures beatmap == old(beatmap) && mods == old(mods) && singletapThreshold == old(singletapThreshold)
    {
      var strainStep := STRAIN_STEP * speedMultiplier;
      var objs, sc := StrainAndScan(objects, ty, speedMultiplier, strainStep, m);
      objects := objs;
      difficulty := WeightedDifficulty(sc.strains);
    }

    /** The singletap counters of calc. */
    method CountSingles(speedMultiplier: real, threshold: real)
      requires speedMultiplier != 0.0
      modifies this
      ensures nsingles == SinglesUpTo(objects, |objects|)
      ensures nsinglesThreshold == ThresholdUpTo(objects, |objects|, speedMultiplier, threshold)
      ensures objects == old(objects) && total == old(total) && aim == old(aim) && speed == old(speed)
      ensures beatmap == old(beatmap) && mods == old(mods) && singletapThreshold == old(singletapThreshold)
    {
      var singles, thresholded := CountSinglesIn(objects, speedMultiplier, threshold);
      nsingles, nsinglesThreshold := singles, thresholded;
    }
  }

  /** The objects part-way through a pass: the first i updated, the rest as they were. */
  function PassedUpTo(objects: seq<DiffObject>, i: nat, ty: DiffType, s: real, m: Maths): (r: seq<DiffObject>)
    requires i <= |objects| && s != 0.0
    ensures |r| == |objects|
  {
    StrainPass(objects, ty, s, m)[..i] + objects[i..]
  }

  lemma PassedUpToEnds(objects: seq<DiffObject>, ty: DiffType, s: real, m: Maths)
    requires s != 0.0
    ensures PassedUpTo(objects, 0, ty, s, m) == objects
    ensures PassedUpTo(objects, |objects|, ty, s, m) == StrainPass(objects, ty, s, m)
  {
    assert StrainPass(objects, ty, s, m)[..|objects|] == StrainPass(objects, ty, s, m);
    assert objects[0..] == objects;
  }

  /** Updating slot i from slot i - 1 moves the pass one object further. */
  lemma PassAdvance(objects: seq<DiffObject>, i: nat, ty: DiffType, s: real, m: Maths)
    requires i < |objects| && s != 0.0
    ensures var p := PassedUpTo(objects, i, ty, s, m);
      (if i > 0 then p[i := CalcStrain(ty, p[i], p[i - 1], s, m)] else p) == PassedUpTo(objects, i + 1, ty, s, m)
    ensures PassedUpTo(objects, i + 1, ty, s, m)[i] == StrainPass(objects, ty, s, m)[i]
    ensures i > 0 ==> PassedUpTo(objects, i + 1, ty, s, m)[i - 1] == StrainPass(objects, ty, s, m)[i - 1]
  {
    var pass := StrainPass(objects, ty, s, m);
    var p := pass[..i] + objects[i..];
    assert p == PassedUpTo(objects, i, ty, s, m);
    assert p[i] == objects[i];
    Seqs.SpliceAdvance(pass, objects, i);
    if i > 0 {
      assert p[i - 1] == pass[i - 1];
      assert pass[i] == CalcStrain(ty, objects[i], pass[i - 1], s, m);
    } else {
      assert pass[0] == objects[0];
      assert p[0 := pass[0]] == p;
    }
  }

  /**
   * The object loop of `_calc_individual`: each object after the first gets
   * its strain from its predecessor, the windows it passes are closed, and
   * its strain feeds the open window's maximum.
   */
  method StrainAndScan(objects: seq<DiffObject>, ty: DiffType, speedMultiplier: real, strainStep: real, m: Maths)
    returns (objs: seq<DiffObject>, sc: Scan)
    requires speedMultiplier != 0.0 && strainStep == STRAIN_STEP * speedMultiplier && strainStep >= 1.0
    ensures objs == StrainPass(objects, ty, speedMultiplier, m)
    ensures sc == ScanUpTo(objs, |objs|, ty, strainStep, m)
  {
    ghost var pass := StrainPass(objects, ty, speedMultiplier, m);
    objs := objects;
    PassedUpToEnds(objects, ty, speedMultiplier, m);
    sc := Scan([], strainStep, 0.0);
    var i := 0;
    while i < |objs|
      invariant 0 <= i <= |objs| == |objects|
      invariant objs == PassedUpTo(objects, i, ty, speedMultiplier, m)
      invariant sc == ScanUpTo(pass, i, ty, strainStep, m)
    {
      objs, sc := StrainAndScanOne(objects, objs, sc, i, ty, speedMultiplier, strainStep, m);
      i := i + 1;
    }
  }

  /** One iteration of the object loop of `_calc_individual`. */
  method StrainAndScanOne(ghost objects: seq<DiffObject>, objs: seq<DiffObject>, sc: Scan, i: nat,
                          ty: DiffType, speedMultiplier: real, strainStep: real, m: Maths)
    returns (objs': seq<DiffObject>, sc': Scan)
    requires speedMultiplier != 0.0 && strainStep >= 1.0 && i < |objects|
    requires objs == PassedUpTo(objects, i, ty, speedMultiplier, m)
    requires sc == ScanUpTo(StrainPass(objects, ty, speedMultiplier, m), i, ty, strainStep, m)
    ensures objs' == PassedUpTo(objects, i + 1, ty, speedMultiplier, m)
    ensures sc' == ScanUpTo(StrainPass(objects, ty, speedMultiplier, m), i + 1, ty, strainStep, m)
  {
    PassAdvance(objects, i, ty, speedMultiplier, m);
    objs' := objs;
    if i > 0 {
      objs' := objs'[i := CalcStrain(ty, objs'[i], objs'[i - 1], speedMultiplier, m)];
    }
    var prev := if i > 0 then Some(objs'[i - 1]) else None;
    sc' := CloseWindows(sc, objs'[i].obj.time, prev, ty, strainStep, m);
    sc' := sc'.(maxStrain := MaxR(sc'.maxStrain, StrainOf(objs'[i], ty)));
  }

  /** The inner loop of `_calc_individual`: closes every window that ends before `t`. */
  method CloseWindows(start: Scan, t: real, prev: Option<DiffObject>, ty: DiffType, strainStep: real, m: Maths)
    returns (sc: Scan)
    requires strainStep >= 1.0
    ensures sc == Flush(start, t, prev, ty, strainStep, m)
  {
    var strains, intervalEnd, maxStrain := start.strains, start.intervalEnd, start.maxStrain;
    while t > intervalEnd
      invariant Flush(Scan(strains, intervalEnd, maxStrain), t, prev, ty, strainStep, m)
             == Flush(start, t, prev, ty, strainStep, m)
      decreases (t - intervalEnd).Floor
    {
      ghost var before := Scan(strains, intervalEnd, maxStrain);
      strains := strains + [maxStrain];
      if prev.Some? {
        var decay := m.pow(DecayBase(ty), (intervalEnd - prev.value.obj.time) / 1000.0);
        maxStrain := StrainOf(prev.value, ty) * decay;
      } else {
        maxStrain := 0.0;
      }
      intervalEnd := intervalEnd + strainStep;
      assert maxStrain == Restart(before.intervalEnd, prev, ty, m);
      FlushStep(before, t, prev, ty, strainStep, m);
    }
    sc := Scan(strains, intervalEnd, maxStrain);
  }

  /** The weighting loop of `_calc_individual`: the window maxima, largest first, with weights 0.9^i. */
  method WeightedDifficulty(strains: seq<real>) returns (difficulty: real)
    ensures difficulty == WeightedSum(SortDesc(strains))
  {
    var sorted := SortDesc(strains);
    difficulty := SumWeighted(sorted);
  }

  method SumWeighted(sorted: seq<real>) returns (difficulty: real)
    ensures difficulty == WeightedSum(sorted)
  {
    var weight := 1.0;
    difficulty := 0.0;
    var j := 0;
    while j < |sorted|
      invariant 0 <= j <= |sorted|
      invariant difficulty + WeightedSumFrom(sorted[j..], weight) == WeightedSum(sorted)
    {
      assert sorted[j..][1..] == sorted[j + 1..];
      difficulty := difficulty + sorted[j] * weight;
      weight := weight * DECAY_WEIGHT;
      j := j + 1;
    }
  }

  /** The singletap loop of calc. */
  method CountSinglesIn(objects: seq<DiffObject>, speedMultiplier: real, threshold: real)
    returns (singles: nat, thresholded: nat)
    requires speedMultiplier != 0.0
    ensures singles == SinglesUpTo(objects, |objects|)
    ensures thresholded == ThresholdUpTo(objects, |objects|, speedMultiplier, threshold)
  {
    singles, thresholded := 0, 0;
    if |objects| == 0 {
      return;
    }
    var i := 1;
    while i < |objects|
      invariant 1 <= i <= |objects|
      invariant singles == SinglesUpTo(objects, i)
      invariant thresholded == ThresholdUpTo(objects, i, speedMultiplier, threshold)
    {
      var obj := objects[i].obj;
      var prev := objects[i - 1].obj;
      if objects[i].isSingle {
        singles := singles + 1;
      }
      if Moving(obj) {
        var interval := (obj.time - prev.time) / speedMultiplier;
        if interval >= threshold {
          thresholded := thresholded + 1;
        }
      }
      i := i + 1;
    }
  }

  /** The key a JavaScript array gives `calculators[map.mode]`: the mode's string form. */
  function ModeKey(mode: Mode): string
  {
    match mode
    case ModeNumber(n) => if n >= 0 then Text.DecimalText(n) else "-" + Text.DecimalText(-n)
    case ModeText(t) => t
  }

  /**
   * The number 0 and the text "0" share a cache slot: once a standard map was
   * rated, a map whose mode was read as the text "0" reuses that calculator,
   * although a fresh Difficulty would reject its mode.
   */
  lemma ModeKeyShared()
    ensures ModeKey(ModeText("0")) == ModeKey(STD)
    ensures ModeText("0") != STD
  {
  }

  /**
   * A calculator after a successful calc: the mods and threshold given (or
   * the earlier ones when not given or 0), and the rating of its map under them.
   */
  predicate Rated(c: StdDifficulty, params: CalcParams, oldMods: int, oldThreshold: real, m: Maths)
    reads c, c.beatmap
  {
    && c.beatmap != null && Usable(c.beatmap)
    && c.mods == (if TruthyInt(params.mods) then params.mods.value else oldMods)
    && c.singletapThreshold
       == (if Truthy(params.singletapThreshold) then params.singletapThreshold.value else oldThreshold)
    && c.Value() == RatingOf(c.beatmap.objects, c.beatmap.cs, c.mods, c.singletapThreshold, m)
  }

  class Difficulty {
    /** One calculator per mode key, created on first use. */
    var calculators: map<string, StdDifficulty>
    var beatmap: Beatmap?

    constructor()
      ensures calculators == map[] && beatmap == null
    {
      calculators := map[];
      beatmap := null;
    }

    /**
     * calc: picks the calculator cached for the map's mode, creating the
     * standard one on first use, and runs it. The call succeeds exactly when
     * that calculator has a map to rate (the one given, or its own from an
     * earlier call), and then the calculator holds the rating of that map.
     */
    method Calc(params: CalcParams, m: Maths) returns (r: Result<StdDifficulty, CalcError>)
      requires Usable(params.beatmap)
      requires forall c :: c in calculators.Values ==> Usable(c.beatmap)
      modifies this, calculators.Values
      ensures beatmap == (if params.beatmap != null then params.beatmap else old(beatmap))
      ensures beatmap == null ==> r == Failure(NoMapGiven) && calculators == old(calculators)
      ensures beatmap != null && ModeKey(beatmap.mode) in old(calculators) ==>
        var c := old(calculators)[ModeKey(beatmap.mode)];
        && calculators == old(calculators)
        && (r.Success? <==> params.beatmap != null || old(c.beatmap) != null)
        && (r.Success? ==>
              && r.value == c
              && c.beatmap == (if params.beatmap != null then params.beatmap else old(c.beatmap))
              && Rated(c, params, old(c.mods), old(c.singletapThreshold), m))
      ensures beatmap != null && ModeKey(beatmap.mode) !in old(calculators) && beatmap.mode != STD ==>
        r == Failure(UnsupportedMode) && calculators == old(calculators)
      ensures beatmap != null && ModeKey(beatmap.mode) !in old(calculators) && beatmap.mode == STD ==>
        && ModeKey(beatmap.mode) in calculators
        && fresh(calculators[ModeKey(beatmap.mode)])
        && calculators == old(calculators)[ModeKey(beatmap.mode) := calculators[ModeKey(beatmap.mode)]]
        && (r.Success? <==> params.beatmap != null)
        && (r.Success? ==>
              && r.value == calculators[ModeKey(beatmap.mode)]
              && r.value.beatmap == params.beatmap
              && Rated(r.value, params, 0, DEFAULT_SINGLETAP_THRESHOLD, m))
    {
      var chosen := if params.beatmap != null then params.beatmap else beatmap;
      beatmap := chosen;
      if chosen == null {
        return Failure(NoMapGiven);
      }
      var key := ModeKey(chosen.mode);
      var calculator: StdDifficulty;
      if key !in calculators {
        if chosen.mode != STD {
          return Failure(UnsupportedMode);
        }
        calculator := new StdDifficulty();
        calculators := calculators[key := calculator];
      } else {
        calculator := calculators[key];
      }
      r := calculator.Calc(params, m);
    }
  }
}

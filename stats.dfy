/**
 * Mod-adjusted beatmap stats: the approach-rate and overall-difficulty
 * conversions through their millisecond windows, and the StdBeatmapStats
 * object whose withMods memoises one adjusted copy per mods value.
 */
module Stats {
  import opened Wrappers
  import opened Numeric
  import Mods

  const OD0_MS: real := 79.5
  const OD10_MS: real := 19.5
  const AR0_MS: real := 1800.0
  const AR5_MS: real := 1200.0
  const AR10_MS: real := 450.0

  const OD_MS_STEP: real := (OD0_MS - OD10_MS) / 10.0
  const AR_MS_STEP1: real := (AR0_MS - AR5_MS) / 5.0
  const AR_MS_STEP2: real := (AR5_MS - AR10_MS) / 5.0

  function Clamp(lo: real, hi: real, x: real): real
  {
    MinR(hi, MaxR(lo, x))
  }

  /** Approach rate to its millisecond window (two linear pieces meeting at AR 5). */
  function ArToMs(ar: real): real
  {
    if ar < 5.0 then AR0_MS - AR_MS_STEP1 * ar else AR5_MS - AR_MS_STEP2 * (ar - 5.0)
  }

  /** Millisecond window back to an approach rate. */
  function MsToAr(ms: real): real
  {
    if ms > AR5_MS then (AR0_MS - ms) / AR_MS_STEP1 else 5.0 + (AR5_MS - ms) / AR_MS_STEP2
  }

  /** The two conversions are inverse bijections of the whole real line. */
  lemma ArMsRoundTrip(ar: real, ms: real)
    ensures MsToAr(ArToMs(ar)) == ar
    ensures ArToMs(MsToAr(ms)) == ms
  {
  }

  /** A larger window means a lower approach rate. */
  lemma MsToArAntitone(ms1: real, ms2: real)
    requires ms1 <= ms2
    ensures MsToAr(ms2) <= MsToAr(ms1)
  {
  }

  lemma ArToMsAntitone(ar1: real, ar2: real)
    requires ar1 <= ar2
    ensures ArToMs(ar2) <= ArToMs(ar1)
  {
  }

  /**
   * recalculateApproachRate. The speed multiplier is one of 1, 1.5, 0.75 and
   * 1.125 wherever it is called; dividing by zero is not modelled.
   */
  function RecalculateAR(baseAR: real, speed: real, mul: real): (r: real)
    requires speed != 0.0
    ensures speed == 1.0 ==> 0.0 <= r <= 10.0
    ensures 0.75 <= speed <= 1.5 ==> -5.0 <= r <= 11.0
  {
    var arms := Clamp(AR10_MS, AR0_MS, ArToMs(baseAR * mul)) / speed;
    MsToAr(arms)
  }

  /** Without speed or multiplier change an approach rate in [0, 10] comes back unchanged. */
  lemma RecalculateARIdentity(ar: real)
    requires 0.0 <= ar <= 10.0
    ensures RecalculateAR(ar, 1.0, 1.0) == ar
  {
    ArMsRoundTrip(ar, 0.0);
  }

  /** A higher base rating never gives a lower approach rate. */
  lemma RecalculateARMonotone(ar1: real, ar2: real, speed: real, mul: real)
    requires ar1 <= ar2 && 0.0 < speed && 0.0 <= mul
    ensures RecalculateAR(ar1, speed, mul) <= RecalculateAR(ar2, speed, mul)
  {
    ArToMsAntitone(ar1 * mul, ar2 * mul);
    var ms1 := Clamp(AR10_MS, AR0_MS, ArToMs(ar1 * mul)) / speed;
    var ms2 := Clamp(AR10_MS, AR0_MS, ArToMs(ar2 * mul)) / speed;
    assert ms2 <= ms1;
    MsToArAntitone(ms2, ms1);
  }

  /** Playing faster never lowers the approach rate. */
  lemma RecalculateARFaster(ar: real, speed1: real, speed2: real, mul: real)
    requires 0.0 < speed1 <= speed2
    ensures RecalculateAR(ar, speed1, mul) <= RecalculateAR(ar, speed2, mul)
  {
    var w := Clamp(AR10_MS, AR0_MS, ArToMs(ar * mul));
    assert w / speed2 <= w / speed1;
    MsToArAntitone(w / speed2, w / speed1);
  }

  lemma MulMonotone(a: real, b: real, c: real)
    requires 0.0 <= a && b <= c
    ensures a * b <= a * c
  {
  }

  /** Bounds of a clamped window divided by a speed in [0.75, 1.5]. */
  lemma DivideWindow(w: real, lo: real, hi: real, speed: real)
    requires 0.0 <= lo <= w <= hi
    requires speed != 0.0
    ensures 0.75 <= speed <= 1.5 ==> lo / 1.5 <= w / speed <= hi / 0.75
  {
    if 0.75 <= speed <= 1.5 {
      QuotientUpper(w, speed);
      QuotientLower(w, speed);
      assert lo / 1.5 <= w / 1.5;
      assert w / 0.75 <= hi / 0.75;
    }
  }

  lemma QuotientUpper(w: real, speed: real)
    requires 0.0 <= w && 0.75 <= speed
    ensures w / speed <= w / 0.75
  {
    var q := w / speed;
    assert q * speed == w;
    assert q >= 0.0;
    MulMonotone(q, 0.75, speed);
  }

  lemma QuotientLower(w: real, speed: real)
    requires 0.0 <= w && 0.0 < speed <= 1.5
    ensures w / 1.5 <= w / speed
  {
    var q := w / speed;
    assert q * speed == w;
    assert q >= 0.0;
    MulMonotone(q, speed, 1.5);
  }

  /** Overall difficulty to its 300 hit window, rounded up to whole milliseconds of step. */
  function OdToMs(od: real): real
  {
    OD0_MS - Ceil(OD_MS_STEP * od) as real
  }

  /** recalculateOverallDifficulty; as for the approach rate, speed is never zero. */
  function RecalculateOD(baseOD: real, speed: real, mul: real): (r: real)
    requires speed != 0.0
    ensures speed == 1.0 ==> 0.0 <= r <= 10.0
    ensures 0.75 <= speed <= 1.5 ==> -26.5 / 6.0 <= r <= 66.5 / 6.0
  {
    var w := Clamp(OD10_MS, OD0_MS, OdToMs(baseOD * mul));
    DivideWindow(w, OD10_MS, OD0_MS, speed);
    (OD0_MS - w / speed) / OD_MS_STEP
  }

  /**
   * Without speed or multiplier change an overall difficulty in [0, 10] is
   * rounded up to the next sixth: it never drops and moves by less than 1/6.
   */
  lemma RecalculateODRoundsUp(od: real)
    requires 0.0 <= od <= 10.0
    ensures od <= RecalculateOD(od, 1.0, 1.0) < od + 1.0 / 6.0
    ensures RecalculateOD(od, 1.0, 1.0) * 6.0 == Ceil(6.0 * od) as real
  {
    var c := Ceil(6.0 * od);
    assert 0 <= c <= 60;
    assert OdToMs(od) == 79.5 - c as real;
  }

  /** A higher base rating never gives a lower overall difficulty. */
  lemma RecalculateODMonotone(od1: real, od2: real, speed: real, mul: real)
    requires od1 <= od2 && 0.0 < speed && 0.0 <= mul
    ensures RecalculateOD(od1, speed, mul) <= RecalculateOD(od2, speed, mul)
  {
    var c1 := Ceil(OD_MS_STEP * (od1 * mul));
    var c2 := Ceil(OD_MS_STEP * (od2 * mul));
    assert od1 * mul <= od2 * mul;
    assert c1 <= c2;
    var ms1 := Clamp(OD10_MS, OD0_MS, OdToMs(od1 * mul));
    var ms2 := Clamp(OD10_MS, OD0_MS, OdToMs(od2 * mul));
    assert ms2 <= ms1;
    assert ms2 / speed <= ms1 / speed;
  }

  /** The state of a StdBeatmapStats apart from its memo table. */
  datatype StatsValue = StatsValue(ar: Option<real>, od: Option<real>, hp: Option<real>,
                                   cs: Option<real>, speedMultiplier: real)

  predicate HasMod(mods: Mods.Mask, m: Mods.Mask)
  {
    mods & m != 0
  }

  /** The speed multiplier a mods value selects: DT or NC, then HT on top. */
  function SpeedOf(mods: Mods.Mask): real
  {
    if HasMod(mods, Mods.DT | Mods.NC) then (if HasMod(mods, Mods.HT) then 1.125 else 1.5)
    else (if HasMod(mods, Mods.HT) then 0.75 else 1.0)
  }

  /** The flat multiplier: HR, then EZ on top. */
  function MulOf(mods: Mods.Mask): real
  {
    if HasMod(mods, Mods.HR) then (if HasMod(mods, Mods.EZ) then 0.7 else 1.4)
    else (if HasMod(mods, Mods.EZ) then 0.5 else 1.0)
  }

  function CsFactor(mods: Mods.Mask): real
  {
    if HasMod(mods, Mods.HR) then (if HasMod(mods, Mods.EZ) then 0.65 else 1.3)
    else (if HasMod(mods, Mods.EZ) then 0.5 else 1.0)
  }

  /** `if (stats.ar) stats.ar = recalculateApproachRate(stats.ar, speed, mul)` */
  function AdjustAR(x: Option<real>, speed: real, mul: real): Option<real>
    requires speed != 0.0
  {
    if Truthy(x) then Some(RecalculateAR(x.value, speed, mul)) else x
  }

  /** The same for the overall difficulty. */
  function AdjustOD(x: Option<real>, speed: real, mul: real): Option<real>
    requires speed != 0.0
  {
    if Truthy(x) then Some(RecalculateOD(x.value, speed, mul)) else x
  }

  /** A truthy stat scaled by `factor` and capped at 10; a falsy one is left alone. */
  function Capped(x: Option<real>, factor: real): Option<real>
  {
    if Truthy(x) then Some(MinR(10.0, x.value * factor)) else x
  }

  /**
   * The adjusted copy withMods builds for mods it has not seen: a copy of the
   * four stats at speed 1, changed only when some map-changing bit is set.
   */
  function WithModsOf(s: StatsValue, mods: Mods.Mask): StatsValue
  {
    if !HasMod(mods, Mods.MapChanging) then s.(speedMultiplier := 1.0)
    else
      StatsValue(
        AdjustAR(s.ar, SpeedOf(mods), MulOf(mods)),
        AdjustOD(s.od, SpeedOf(mods), MulOf(mods)),
        Capped(s.hp, MulOf(mods)),
        Capped(s.cs, CsFactor(mods)),
        SpeedOf(mods))
  }

  lemma SpeedBitsAreMapChanging(mods: Mods.Mask)
    ensures HasMod(mods, Mods.DT | Mods.NC) ==> HasMod(mods, Mods.MapChanging)
    ensures HasMod(mods, Mods.HT) ==> HasMod(mods, Mods.MapChanging)
  {
    assert mods & (Mods.DT | Mods.NC) != 0 ==> mods & Mods.MapChanging != 0;
    assert mods & Mods.HT != 0 ==> mods & Mods.MapChanging != 0;
  }

  /** Without HR, EZ, DT, HT or NC the four stats are copied unchanged. */
  lemma WithModsOfNoMapChange(s: StatsValue, mods: Mods.Mask)
    requires !HasMod(mods, Mods.MapChanging)
    ensures WithModsOf(s, mods) == s.(speedMultiplier := 1.0)
  {
  }

  /** DT or NC give speed 1.5 and HT multiplies the speed by 0.75, whatever else is set. */
  lemma WithModsOfSpeed(s: StatsValue, mods: Mods.Mask)
    ensures WithModsOf(s, mods).speedMultiplier == SpeedOf(mods)
    ensures SpeedOf(mods) in {1.0, 1.5, 0.75, 1.125}
  {
    SpeedBitsAreMapChanging(mods);
  }

  /** A missing or zero stat is never touched. */
  lemma WithModsOfKeepsFalsy(s: StatsValue, mods: Mods.Mask)
    ensures !Truthy(s.ar) ==> WithModsOf(s, mods).ar == s.ar
    ensures !Truthy(s.od) ==> WithModsOf(s, mods).od == s.od
    ensures !Truthy(s.hp) ==> WithModsOf(s, mods).hp == s.hp
    ensures !Truthy(s.cs) ==> WithModsOf(s, mods).cs == s.cs
  {
  }

  /** Once a map-changing mod applies, circle size and drain rate are capped at 10. */
  lemma WithModsOfCaps(s: StatsValue, mods: Mods.Mask)
    requires HasMod(mods, Mods.MapChanging)
    ensures Truthy(s.cs) ==> WithModsOf(s, mods).cs.value <= 10.0
    ensures Truthy(s.hp) ==> WithModsOf(s, mods).hp.value <= 10.0
  {
  }

  /**
   * Without a speed-changing mod the clamped windows keep the recomputed
   * approach rate and overall difficulty in [0, 10].
   */
  lemma WithModsOfRange(s: StatsValue, mods: Mods.Mask)
    requires HasMod(mods, Mods.MapChanging) && !HasMod(mods, Mods.SpeedChanging)
    ensures Truthy(s.ar) ==> 0.0 <= WithModsOf(s, mods).ar.value <= 10.0
    ensures Truthy(s.od) ==> 0.0 <= WithModsOf(s, mods).od.value <= 10.0
  {
    assert mods & (Mods.DT | Mods.NC) == 0 && mods & Mods.HT == 0;
    assert SpeedOf(mods) == 1.0;
  }

  class StdBeatmapStats {
    var ar: Option<real>
    var od: Option<real>
    var hp: Option<real>
    var cs: Option<real>
    var speedMultiplier: real
    /** Adjusted copies already built, keyed by the mods value. */
    var precalculatedMods: map<int, StdBeatmapStats>

    function Value(): StatsValue
      reads this
    {
      StatsValue(ar, od, hp, cs, speedMultiplier)
    }

    constructor(ar: Option<real>, od: Option<real>, hp: Option<real>, cs: Option<real>)
      ensures Value() == StatsValue(ar, od, hp, cs, 1.0)
      ensures precalculatedMods == map[]
    {
      this.ar := ar;
      this.od := od;
      this.hp := hp;
      this.cs := cs;
      speedMultiplier := 1.0;
      precalculatedMods := map[];
    }

    /**
     * withMods: the cached copy when these mods were seen before (the same
     * object, nothing changes); otherwise a fresh adjusted copy, which is
     * remembered under the mods value.
     */
    method WithMods(mods: int) returns (stats: StdBeatmapStats)
      modifies this
      ensures Value() == old(Value())
      ensures mods in old(precalculatedMods) ==>
        stats == old(precalculatedMods[mods]) && precalculatedMods == old(precalculatedMods)
      ensures mods !in old(precalculatedMods) ==>
        && fresh(stats)
        && precalculatedMods == old(precalculatedMods)[mods := stats]
        && stats.Value() == WithModsOf(old(Value()), Bits(mods))
        && stats.precalculatedMods == map[]
    {
      if mods in precalculatedMods {
        return precalculatedMods[mods];
      }
      stats := new StdBeatmapStats(ar, od, hp, cs);
      precalculatedMods := precalculatedMods[mods := stats];
      var bits := Bits(mods);
      if !HasMod(bits, Mods.MapChanging) {
        return;
      }
      stats.Adjust(bits);
    }

    /** The map-changing branch of withMods, applied to the fresh copy. */
    method Adjust(mods: Mods.Mask)
      requires HasMod(mods, Mods.MapChanging)
      modifies this
      ensures Value() == WithModsOf(old(Value()), mods)
      ensures precalculatedMods == old(precalculatedMods)
    {
      var speed := 1.0;
      if HasMod(mods, Mods.DT | Mods.NC) {
        speed := 1.5;
      }
      if HasMod(mods, Mods.HT) {
        speed := speed * 0.75;
      }
      var mul := 1.0;
      if HasMod(mods, Mods.HR) {
        mul := 1.4;
      }
      if HasMod(mods, Mods.EZ) {
        mul := mul * 0.5;
      }
      assert speed == SpeedOf(mods) && mul == MulOf(mods);
      speedMultiplier := speed;
      ar := AdjustAR(ar, speed, mul);
      od := AdjustOD(od, speed, mul);
      if Truthy(cs) {
        var c := cs.value;
        if HasMod(mods, Mods.HR) {
          c := c * 1.3;
        }
        if HasMod(mods, Mods.EZ) {
          c := c * 0.5;
        }
        assert c == cs.value * CsFactor(mods);
        cs := Some(MinR(10.0, c));
      }
      hp := Capped(hp, mul);
    }
  }
}

/**
 * The beatmap model (timing points, hit objects, the Beatmap record the parser
 * fills in) and the max-combo estimate of Beatmap.maxCombo.
 */
module Beatmaps {
  import opened Wrappers
  import opened Numeric

  /** A point in playfield coordinates (a 512x384 rectangle). */
  datatype Vec = Vec(x: real, y: real)

  /**
   * A timing point. A point with `change == false` and a negative msPerBeat
   * inherits the previous BPM and stores a slider-velocity multiplier as
   * -100 * multiplier.
   */
  datatype Timing = Timing(time: real, msPerBeat: real, change: bool)

  /** Object type bits; the type can carry other flags as well. */
  const CIRCLE: bv32 := 1     // 1 << 0
  const SLIDER: bv32 := 2     // 1 << 1
  const SPINNER: bv32 := 8    // 1 << 3

  /** `type & flag`, after JavaScript's 32-bit conversion of the parsed type. */
  predicate HasBit(objectType: int, flag: bv32)
  {
    Bits(objectType) & flag != 0
  }

  /** `data` of a hit obj: null, a Circle or a Slider. */
  datatype Payload =
    | NoPayload
    | CirclePayload(pos: Vec)
    | SliderPayload(pos: Vec, distance: real, repetitions: int)

  datatype HitObject = HitObject(time: real, objectType: int, data: Payload)

  /**
   * The game mode field: the number 0 (standard) by default, or the text a
   * `Mode:` line assigned to it.
   */
  datatype Mode = ModeNumber(n: int) | ModeText(text: string)

  const STD: Mode := ModeNumber(0)

  /**
   * Every object with the slider bit carries slider data with a non-zero
   * repetition count (a count of 0 divides by zero in the tick estimate).
   */
  predicate SlidersCarryData(objects: seq<HitObject>)
  {
    forall i :: 0 <= i < |objects| && HasBit(objects[i].objectType, SLIDER) ==>
      objects[i].data.SliderPayload? && objects[i].data.repetitions != 0
  }

  predicate HasSlider(objects: seq<HitObject>)
  {
    exists i :: 0 <= i < |objects| && HasBit(objects[i].objectType, SLIDER)
  }

  predicate TimingSorted(tps: seq<Timing>)
  {
    forall i, j :: 0 <= i < j < |tps| ==> tps[i].time <= tps[j].time
  }

  predicate ObjectsSorted(objects: seq<HitObject>)
  {
    forall i, j :: 0 <= i < j < |objects| ==> objects[i].time <= objects[j].time
  }

  datatype ComboError =
    | NoTimingPoint   // a slider was met while timingPoints is empty: `t.change` of undefined

  /** The contents of a Beatmap, as a value. */
  datatype MapValue = MapValue(
    formatVersion: int, mode: Mode,
    title: string, titleUnicode: string, artist: string, artistUnicode: string,
    creator: string, version: string,
    cs: real, ar: real, od: real, hp: real, sv: real, tickRate: real,
    circleCount: int, sliderCount: int, spinnerCount: int,
    objects: seq<HitObject>, timingPoints: seq<Timing>)

  /** What `reset()` leaves: format v1, standard mode, empty texts, 5.0 stats, sv and tick rate 1. */
  const DefaultMap: MapValue :=
    MapValue(1, STD, "", "", "", "", "", "", 5.0, 5.0, 5.0, 5.0, 1.0, 1.0, 0, 0, 0, [], [])

  /** A partial beatmap with just enough data for pp calculation. */
  class Beatmap {
    var formatVersion: int
    var mode: Mode
    var title: string
    var titleUnicode: string
    var artist: string
    var artistUnicode: string
    var creator: string
    var version: string
    var cs: real
    var ar: real
    var od: real
    var hp: real
    var sv: real
    var tickRate: real
    var circleCount: int
    var sliderCount: int
    var spinnerCount: int
    var objects: seq<HitObject>
    var timingPoints: seq<Timing>

    /** The fields as one value. */
    function Value(): MapValue
      reads this
    {
      MapValue(formatVersion, mode, title, titleUnicode, artist, artistUnicode, creator, version,
               cs, ar, od, hp, sv, tickRate, circleCount, sliderCount, spinnerCount, objects, timingPoints)
    }

    /** A new map holds what `reset()` sets. */
    constructor ()
      ensures Value() == DefaultMap
    {
      formatVersion, mode := 1, STD;
      title, titleUnicode, artist, artistUnicode, creator, version := "", "", "", "", "", "";
      cs, ar, od, hp := 5.0, 5.0, 5.0, 5.0;
      sv, tickRate := 1.0, 1.0;
      circleCount, sliderCount, spinnerCount := 0, 0, 0;
      objects, timingPoints := [], [];
    }

    /**
     * Beatmap.maxCombo: circles and spinners give one combo each; every slider
     * gives its head, its tail and its ticks. The current timing point is
     * tracked with an index that only moves forward. `tnext` of the source is
     * -infinity before the first point is taken, the time of the point after
     * the current one, or +infinity after the last; the inner loop's guard
     * spells out `obj.time >= tnext` for those three cases.
     */
    method MaxCombo() returns (r: Result<int, ComboError>)
      requires SlidersCarryData(objects) && sv != 0.0
      ensures r == MaxComboOf(circleCount, spinnerCount, objects, timingPoints, formatVersion, sv, tickRate)
    {
      var objs, tps, fv, sv, tickRate := objects, timingPoints, formatVersion, this.sv, this.tickRate;
      var res := circleCount + spinnerCount;
      ghost var base := res;
      var tindex := -1;
      var pixelsPerBeat := 0.0;
      var i := 0;
      while i < |objs|
        invariant 0 <= i <= |objs|
        invariant -1 <= tindex < |tps|
        invariant tindex >= 0 ==> pixelsPerBeat == PixelsPerBeat(fv, sv, tps[tindex])
        invariant tps == [] ==> !HasSlider(objs[..i]) && res == base
        invariant tps != [] ==>
          res + SliderTotal(objs[i..], tps, tindex, fv, sv, tickRate)
          == base + SliderTotal(objs, tps, -1, fv, sv, tickRate)
      {
        var found, added;
        found, tindex, pixelsPerBeat, added := ComboStep(objs, i, tps, tindex, fv, sv, tickRate, pixelsPerBeat);
        if !found {
          return Failure(NoTimingPoint);
        }
        res := res + added;
        i := i + 1;
      }
      assert objs[..i] == objs;
      return Success(res);
    }
  }

  /**
   * One object of Beatmap.maxCombo: a slider moves the timing cursor and adds
   * its ticks; any other object adds nothing. Not finding a timing point
   * means the map has a slider and no timing points.
   */
  method ComboStep(objs: seq<HitObject>, i: int, tps: seq<Timing>, k: int, formatVersion: int, sv: real,
                   tickRate: real, pixelsPerBeat: real)
    returns (found: bool, k': int, pixelsPerBeat': real, added: int)
    requires SlidersCarryData(objs) && sv != 0.0 && 0 <= i < |objs|
    requires -1 <= k < |tps|
    requires k >= 0 ==> pixelsPerBeat == PixelsPerBeat(formatVersion, sv, tps[k])
    ensures !found ==> tps == [] && HasSlider(objs)
    ensures found ==> -1 <= k' < |tps|
    ensures found && k' >= 0 ==> pixelsPerBeat' == PixelsPerBeat(formatVersion, sv, tps[k'])
    ensures found && tps == [] ==> added == 0 && (!HasSlider(objs[..i]) ==> !HasSlider(objs[..i + 1]))
    ensures found && tps != [] ==>
      added + SliderTotal(objs[i + 1..], tps, k', formatVersion, sv, tickRate)
      == SliderTotal(objs[i..], tps, k, formatVersion, sv, tickRate)
  {
    var obj := objs[i];
    if HasBit(obj.objectType, SLIDER) {
      found, k', pixelsPerBeat' := AdvanceTiming(tps, k, obj.time, formatVersion, sv, pixelsPerBeat);
      if !found {
        NoTimingMeansSlider(objs, i);
        return false, k', pixelsPerBeat', 0;
      }
      var ticks := SliderTicks(obj.data, pixelsPerBeat', tickRate);
      added := MaxI(0, ticks);
      SliderTotalStep(objs, i, tps, k, k', formatVersion, sv, tickRate, pixelsPerBeat');
    } else {
      found, k', pixelsPerBeat', added := true, k, pixelsPerBeat, 0;
      SliderTotalSkip(objs, i, tps, k, formatVersion, sv, tickRate);
    }
  }

  /**
   * The inner loop of Beatmap.maxCombo: take the next timing point while none
   * has been taken yet or the next one starts at or before `t`. Running past
   * the last point (only possible with no points at all) is the source's
   * `t.change` of undefined.
   */
  method AdvanceTiming(tps: seq<Timing>, k: int, t: real, formatVersion: int, sv: real, pixelsPerBeat: real)
    returns (found: bool, k': int, pixelsPerBeat': real)
    requires -1 <= k < |tps| && sv != 0.0
    requires k >= 0 ==> pixelsPerBeat == PixelsPerBeat(formatVersion, sv, tps[k])
    ensures found <==> tps != []
    ensures found ==> k' == ScanFrom(tps, k, t)
    ensures found ==> pixelsPerBeat' == PixelsPerBeat(formatVersion, sv, tps[k'])
  {
    k', pixelsPerBeat' := k, pixelsPerBeat;
    while k' < 0 || (k' + 1 < |tps| && t >= tps[k' + 1].time)
      invariant k <= k' < |tps|
      invariant tps != [] ==> ScanFrom(tps, k', t) == ScanFrom(tps, k, t)
      invariant k' >= 0 ==> pixelsPerBeat' == PixelsPerBeat(formatVersion, sv, tps[k'])
      decreases |tps| - k'
    {
      k' := k' + 1;
      if k' >= |tps| {
        return false, k', pixelsPerBeat';
      }
      var tp := tps[k'];
      var svMultiplier := 1.0;
      if !tp.change && tp.msPerBeat < 0.0 {
        svMultiplier := -100.0 / tp.msPerBeat;
      }
      // format < 8: the multiplier is ignored
      if formatVersion < 8 {
        pixelsPerBeat' := sv * 100.0;
      } else {
        pixelsPerBeat' := sv * 100.0 * svMultiplier;
      }
    }
    found := true;
  }

  /** The tick count of one slider, with its head and tail, before clamping at zero. */
  method SliderTicks(sl: Payload, pixelsPerBeat: real, tickRate: real) returns (ticks: int)
    requires sl.SliderPayload? && sl.repetitions != 0 && pixelsPerBeat != 0.0
    ensures MaxI(0, ticks) == SliderCombo(sl.distance, sl.repetitions, pixelsPerBeat, tickRate)
  {
    // beats of one repetition times the tick rate; 0.1 beat is taken off so that
    // a whole beat count such as 2.0000001 does not ceil to 3
    ticks := Ceil(TickSpan(sl.distance, sl.repetitions, pixelsPerBeat, tickRate)) - 1;
    ticks := ticks * sl.repetitions;
    ticks := ticks + sl.repetitions + 1;
    SliderComboIsTicks(sl.distance, sl.repetitions, pixelsPerBeat, tickRate, ticks);
  }

  /** A slider met while the map has no timing point: the map has a slider. */
  lemma NoTimingMeansSlider(objects: seq<HitObject>, i: int)
    requires 0 <= i < |objects| && HasBit(objects[i].objectType, SLIDER)
    ensures HasSlider(objects)
  {
  }

  /** A non-slider step of the scan: nothing is added, the cursor stays. */
  lemma SliderTotalSkip(objects: seq<HitObject>, i: int, tps: seq<Timing>, k: int,
                        formatVersion: int, sv: real, tickRate: real)
    requires SlidersCarryData(objects) && sv != 0.0 && 0 <= i < |objects|
    requires !HasBit(objects[i].objectType, SLIDER)
    requires -1 <= k < |tps|
    ensures !HasSlider(objects[..i]) ==> !HasSlider(objects[..i + 1])
    ensures tps != [] ==> SliderTotal(objects[i..], tps, k, formatVersion, sv, tickRate)
                          == SliderTotal(objects[i + 1..], tps, k, formatVersion, sv, tickRate)
  {
    assert objects[..i + 1] == objects[..i] + [objects[i]];
    assert objects[i..][0] == objects[i] && objects[i..][1..] == objects[i + 1..];
  }

  /** The slider-velocity multiplier of an inherited timing point (1 otherwise). */
  function SvMultiplier(t: Timing): (m: real)
    ensures m > 0.0
  {
    if !t.change && t.msPerBeat < 0.0 then -100.0 / t.msPerBeat else 1.0
  }

  /** Playfield pixels per beat under timing point `t`. */
  function PixelsPerBeat(formatVersion: int, sv: real, t: Timing): (p: real)
    requires sv != 0.0
    ensures p != 0.0 && (sv > 0.0 ==> p > 0.0)
    ensures formatVersion < 8 ==> p == sv * 100.0
  {
    if formatVersion < 8 then sv * 100.0 else sv * 100.0 * SvMultiplier(t)
  }

  /**
   * The forward scan for the timing point of an obj at time `t`, starting
   * from index `k` (-1 before any point was taken): it moves on while the
   * next point starts at or before `t`.
   */
  function ScanFrom(tps: seq<Timing>, k: int, t: real): (r: int)
    requires tps != [] && -1 <= k < |tps|
    ensures 0 <= r < |tps| && k <= r
    ensures r + 1 == |tps| || t < tps[r + 1].time
    ensures r == MaxI(k, 0) || tps[r].time <= t
    decreases |tps| - k
  {
    if k < 0 || (k + 1 < |tps| && t >= tps[k + 1].time) then ScanFrom(tps, k + 1, t) else k
  }

  /** Beats per repetition times the tick rate, less the 0.1-beat epsilon. */
  function TickSpan(distance: real, repetitions: int, pixelsPerBeat: real, tickRate: real): real
    requires repetitions != 0 && pixelsPerBeat != 0.0
  {
    var beats := distance * repetitions as real / pixelsPerBeat;
    (beats - 0.1) / repetitions as real * tickRate
  }

  /**
   * What one slider adds: its head and tail, plus ticks on every repetition,
   * never less than zero.
   */
  function SliderCombo(distance: real, repetitions: int, pixelsPerBeat: real, tickRate: real): (c: int)
    requires repetitions != 0 && pixelsPerBeat != 0.0
    ensures c >= 0
    ensures var span := TickSpan(distance, repetitions, pixelsPerBeat, tickRate);
      && (repetitions >= 1 && span > 0.0 ==> c == repetitions * Ceil(span) + 1 && c >= repetitions + 1)
      && (repetitions >= 1 && span <= 0.0 ==> c <= 1)
  {
    var n := Ceil(TickSpan(distance, repetitions, pixelsPerBeat, tickRate));
    var ticks := n - 1;
    var total := ticks * repetitions + repetitions + 1;
    assert total == repetitions * n + 1;
    assert repetitions >= 1 && n >= 1 ==> repetitions * n >= repetitions by {
      if repetitions >= 1 && n >= 1 { MulAtLeast(repetitions, n); }
    }
    assert repetitions >= 1 && n <= 0 ==> repetitions * n <= 0 by {
      if repetitions >= 1 && n <= 0 { MulAtLeast(repetitions, 1 - n); }
    }
    MaxI(0, total)
  }

  lemma MulAtLeast(a: int, b: int)
    requires a >= 1 && b >= 1
    ensures a * b >= a
  {
  }

  lemma SliderComboIsTicks(distance: real, repetitions: int, pixelsPerBeat: real, tickRate: real, ticks: int)
    requires repetitions != 0 && pixelsPerBeat != 0.0
    requires ticks == (Ceil(TickSpan(distance, repetitions, pixelsPerBeat, tickRate)) - 1) * repetitions + repetitions + 1
    ensures MaxI(0, ticks) == SliderCombo(distance, repetitions, pixelsPerBeat, tickRate)
  {
  }

  /** One slider step of the scan: the cursor settles where the scan from `start` stops. */
  lemma SliderTotalStep(objects: seq<HitObject>, i: int, tps: seq<Timing>, start: int, k: int,
                        formatVersion: int, sv: real, tickRate: real, pixelsPerBeat: real)
    requires SlidersCarryData(objects) && sv != 0.0 && 0 <= i < |objects|
    requires HasBit(objects[i].objectType, SLIDER)
    requires tps != [] && -1 <= start <= k < |tps|
    requires k == ScanFrom(tps, start, objects[i].time)
    requires pixelsPerBeat == PixelsPerBeat(formatVersion, sv, tps[k])
    ensures SliderTotal(objects[i..], tps, start, formatVersion, sv, tickRate)
            == SliderCombo(objects[i].data.distance, objects[i].data.repetitions, pixelsPerBeat, tickRate)
               + SliderTotal(objects[i + 1..], tps, k, formatVersion, sv, tickRate)
  {
    assert objects[i..][0] == objects[i] && objects[i..][1..] == objects[i + 1..];
  }

  /** The sliders' combo, scanning timing points forward from cursor `k`. */
  function SliderTotal(objects: seq<HitObject>, tps: seq<Timing>, k: int,
                       formatVersion: int, sv: real, tickRate: real): int
    requires SlidersCarryData(objects) && sv != 0.0
    requires tps != [] && -1 <= k < |tps|
  {
    if objects == [] then 0
    else
      var o := objects[0];
      if !HasBit(o.objectType, SLIDER) then
        SliderTotal(objects[1..], tps, k, formatVersion, sv, tickRate)
      else
        var j := ScanFrom(tps, k, o.time);
        SliderCombo(o.data.distance, o.data.repetitions, PixelsPerBeat(formatVersion, sv, tps[j]), tickRate)
        + SliderTotal(objects[1..], tps, j, formatVersion, sv, tickRate)
  }

  /** The value Beatmap.maxCombo computes, or the error it throws. */
  function MaxComboOf(circleCount: int, spinnerCount: int, objects: seq<HitObject>, tps: seq<Timing>,
                      formatVersion: int, sv: real, tickRate: real): Result<int, ComboError>
    requires SlidersCarryData(objects) && sv != 0.0
  {
    if tps == [] then
      (if HasSlider(objects) then Failure(NoTimingPoint) else Success(circleCount + spinnerCount))
    else
      Success(circleCount + spinnerCount + SliderTotal(objects, tps, -1, formatVersion, sv, tickRate))
  }

  lemma {:induction false} SliderTotalNonNegative(objects: seq<HitObject>, tps: seq<Timing>, k: int,
                                                  formatVersion: int, sv: real, tickRate: real)
    requires SlidersCarryData(objects) && sv != 0.0
    requires tps != [] && -1 <= k < |tps|
    ensures SliderTotal(objects, tps, k, formatVersion, sv, tickRate) >= 0
  {
    if objects != [] {
      var j := if HasBit(objects[0].objectType, SLIDER) then ScanFrom(tps, k, objects[0].time) else k;
      SliderTotalNonNegative(objects[1..], tps, j, formatVersion, sv, tickRate);
    }
  }

  lemma {:induction false} SliderTotalWithoutSliders(objects: seq<HitObject>, tps: seq<Timing>, k: int,
                                                     formatVersion: int, sv: real, tickRate: real)
    requires SlidersCarryData(objects) && sv != 0.0
    requires tps != [] && -1 <= k < |tps|
    requires !HasSlider(objects)
    ensures SliderTotal(objects, tps, k, formatVersion, sv, tickRate) == 0
  {
    if objects != [] {
      assert !HasSlider(objects[1..]) by {
        forall i | 0 <= i < |objects[1..]| ensures !HasBit(objects[1..][i].objectType, SLIDER) {
          assert objects[1..][i] == objects[i + 1];
        }
      }
      SliderTotalWithoutSliders(objects[1..], tps, k, formatVersion, sv, tickRate);
    }
  }

  /** With no slider the max combo is circleCount + spinnerCount, timing points or not. */
  lemma MaxComboWithoutSliders(circleCount: int, spinnerCount: int, objects: seq<HitObject>,
                               tps: seq<Timing>, formatVersion: int, sv: real, tickRate: real)
    requires SlidersCarryData(objects) && sv != 0.0
    requires !HasSlider(objects)
    ensures MaxComboOf(circleCount, spinnerCount, objects, tps, formatVersion, sv, tickRate)
            == Success(circleCount + spinnerCount)
  {
    if tps != [] {
      SliderTotalWithoutSliders(objects, tps, -1, formatVersion, sv, tickRate);
    }
  }

  /** Sliders never lower the combo: the result is at least circleCount + spinnerCount. */
  lemma MaxComboAtLeastBase(circleCount: int, spinnerCount: int, objects: seq<HitObject>,
                            tps: seq<Timing>, formatVersion: int, sv: real, tickRate: real)
    requires SlidersCarryData(objects) && sv != 0.0
    ensures var r := MaxComboOf(circleCount, spinnerCount, objects, tps, formatVersion, sv, tickRate);
      r.Success? ==> r.value >= circleCount + spinnerCount
  {
    if tps != [] {
      SliderTotalNonNegative(objects, tps, -1, formatVersion, sv, tickRate);
    }
  }

  /** The only failure is a slider in a map without timing points. */
  lemma MaxComboFailsOnlyWithoutTiming(circleCount: int, spinnerCount: int, objects: seq<HitObject>,
                                       tps: seq<Timing>, formatVersion: int, sv: real, tickRate: real)
    requires SlidersCarryData(objects) && sv != 0.0
    ensures MaxComboOf(circleCount, spinnerCount, objects, tps, formatVersion, sv, tickRate).Failure?
            <==> tps == [] && HasSlider(objects)
  {
  }

  /** The timing point in effect at time `t`: the last one starting at or before `t` (or the first). */
  function ActivePoint(tps: seq<Timing>, t: real): (r: int)
    requires tps != []
    ensures 0 <= r < |tps|
  {
    ScanFrom(tps, -1, t)
  }

  /** Starting the scan from any point the scan would pass anyway gives the same result. */
  lemma {:induction false} ScanPasses(tps: seq<Timing>, j: int, k: int, t: real)
    requires tps != [] && TimingSorted(tps)
    requires -1 <= j <= k < |tps|
    requires k <= 0 || tps[k].time <= t
    ensures ScanFrom(tps, j, t) == ScanFrom(tps, k, t)
    decreases k - j
  {
    if j < k {
      assert j + 1 == k || tps[j + 1].time <= tps[k].time;
      ScanPasses(tps, j + 1, k, t);
    }
  }

  /** The objects after the first of a time-sorted list are time-sorted and start no earlier. */
  lemma ObjectsSortedTail(objects: seq<HitObject>)
    requires objects != [] && ObjectsSorted(objects)
    ensures ObjectsSorted(objects[1..])
    ensures objects[1..] != [] ==> objects[0].time <= objects[1..][0].time
  {
    var rest := objects[1..];
    forall a, b | 0 <= a < b < |rest| ensures rest[a].time <= rest[b].time {
      assert rest[a] == objects[a + 1] && rest[b] == objects[b + 1];
    }
  }

  /**
   * In a time-sorted map, resuming the scan from the previous slider's timing
   * point finds, for every slider, the timing point in effect at its time.
   */
  lemma {:induction false} ForwardScanFindsActivePoints(objects: seq<HitObject>, tps: seq<Timing>, k: int,
                                                        formatVersion: int, sv: real, tickRate: real)
    requires SlidersCarryData(objects) && sv != 0.0
    requires tps != [] && TimingSorted(tps) && ObjectsSorted(objects)
    requires -1 <= k < |tps|
    requires objects != [] && k > 0 ==> tps[k].time <= objects[0].time
    ensures SliderTotal(objects, tps, k, formatVersion, sv, tickRate)
            == SliderTotalAtActive(objects, tps, formatVersion, sv, tickRate)
    decreases |objects|, 1
  {
    if objects != [] {
      if HasBit(objects[0].objectType, SLIDER) {
        ForwardScanSlider(objects, tps, k, formatVersion, sv, tickRate);
      } else {
        ForwardScanOther(objects, tps, k, formatVersion, sv, tickRate);
      }
    }
  }

  /** The step of ForwardScanFindsActivePoints at a slider: the cursor moves to its active point. */
  lemma {:induction false} ForwardScanSlider(objects: seq<HitObject>, tps: seq<Timing>, k: int,
                                             formatVersion: int, sv: real, tickRate: real)
    requires SlidersCarryData(objects) && sv != 0.0
    requires tps != [] && TimingSorted(tps) && ObjectsSorted(objects)
    requires -1 <= k < |tps|
    requires objects != [] && HasBit(objects[0].objectType, SLIDER)
    requires k > 0 ==> tps[k].time <= objects[0].time
    ensures SliderTotal(objects, tps, k, formatVersion, sv, tickRate)
            == SliderTotalAtActive(objects, tps, formatVersion, sv, tickRate)
    decreases |objects|, 0
  {
    var o := objects[0];
    ObjectsSortedTail(objects);
    ScanPasses(tps, -1, MaxI(k, 0), o.time);
    ScanPasses(tps, k, MaxI(k, 0), o.time);
    var j := ScanFrom(tps, k, o.time);
    assert j == ActivePoint(tps, o.time);
    ForwardScanFindsActivePoints(objects[1..], tps, j, formatVersion, sv, tickRate);
  }

  /** The step of ForwardScanFindsActivePoints at a circle or spinner: the cursor stays. */
  lemma {:induction false} ForwardScanOther(objects: seq<HitObject>, tps: seq<Timing>, k: int,
                                            formatVersion: int, sv: real, tickRate: real)
    requires SlidersCarryData(objects) && sv != 0.0
    requires tps != [] && TimingSorted(tps) && ObjectsSorted(objects)
    requires -1 <= k < |tps|
    requires objects != [] && !HasBit(objects[0].objectType, SLIDER)
    requires k > 0 ==> tps[k].time <= objects[0].time
    ensures SliderTotal(objects, tps, k, formatVersion, sv, tickRate)
            == SliderTotalAtActive(objects, tps, formatVersion, sv, tickRate)
    decreases |objects|, 0
  {
    ObjectsSortedTail(objects);
    ForwardScanFindsActivePoints(objects[1..], tps, k, formatVersion, sv, tickRate);
  }

  /** Reference definition: every slider looks up its timing point from scratch. */
  function SliderTotalAtActive(objects: seq<HitObject>, tps: seq<Timing>,
                               formatVersion: int, sv: real, tickRate: real): int
    requires SlidersCarryData(objects) && sv != 0.0 && tps != []
  {
    if objects == [] then 0
    else
      var o := objects[0];
      var here := if !HasBit(o.objectType, SLIDER) then 0
        else SliderCombo(o.data.distance, o.data.repetitions,
                         PixelsPerBeat(formatVersion, sv, tps[ActivePoint(tps, o.time)]), tickRate);
      here + SliderTotalAtActive(objects[1..], tps, formatVersion, sv, tickRate)
  }

  /** Reference definition for old formats: one pixels-per-beat value for every slider. */
  function SliderTotalFlat(objects: seq<HitObject>, pixelsPerBeat: real, tickRate: real): int
    requires SlidersCarryData(objects) && pixelsPerBeat != 0.0
  {
    if objects == [] then 0
    else
      var o := objects[0];
      var here := if !HasBit(o.objectType, SLIDER) then 0
        else SliderCombo(o.data.distance, o.data.repetitions, pixelsPerBeat, tickRate);
      here + SliderTotalFlat(objects[1..], pixelsPerBeat, tickRate)
  }

  /** Before format v8 the inherited slider-velocity multiplier plays no part: sv * 100 is used throughout. */
  lemma {:induction false} OldFormatIgnoresMultiplier(objects: seq<HitObject>, tps: seq<Timing>, k: int,
                                                      formatVersion: int, sv: real, tickRate: real)
    requires SlidersCarryData(objects) && sv != 0.0
    requires tps != [] && -1 <= k < |tps|
    requires formatVersion < 8
    ensures SliderTotal(objects, tps, k, formatVersion, sv, tickRate)
            == SliderTotalFlat(objects, sv * 100.0, tickRate)
  {
    if objects != [] {
      var o := objects[0];
      var j := if HasBit(o.objectType, SLIDER) then ScanFrom(tps, k, o.time) else k;
      OldFormatIgnoresMultiplier(objects[1..], tps, j, formatVersion, sv, tickRate);
    }
  }
}

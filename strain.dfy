/**
 * The osu!standard strain model of StdDifficulty, as values: the speed
 * spacing weight, the decaying per-object strain, the pass over all objects,
 * the 400 ms windows whose maxima are kept, their descending sort and the
 * 0.9-geometric weighted sum, and the mix of aim and speed into the total.
 */
module Strain {
  import opened Wrappers
  import opened Numeric
  import opened Beatmaps

  const ALMOST_DIAMETER: real := 90.0
  const STREAM_SPACING: real := 110.0
  const SINGLE_SPACING: real := 125.0
  const DECAY_WEIGHT: real := 0.9
  const STRAIN_STEP: real := 400.0
  const STAR_SCALING_FACTOR: real := 0.0675
  const EXTREME_SCALING_FACTOR: real := 0.5

  /** DIFF_SPEED (0) and DIFF_AIM (1). */
  datatype DiffType = Speed | Aim

  /** DECAY_BASE[type] */
  function DecayBase(ty: DiffType): real
  {
    match ty
    case Speed => 0.3
    case Aim => 0.15
  }

  /** WEIGHT_SCALING[type] */
  function WeightScaling(ty: DiffType): real
  {
    match ty
    case Speed => 1400.0
    case Aim => 26.25
  }

  /** The speed spacing weight: four linear pieces between 0.95 and 2.5. */
  function SpeedWeight(distance: real): real
  {
    if distance > SINGLE_SPACING then 2.5
    else if distance > STREAM_SPACING then
      1.6 + 0.9 * (distance - STREAM_SPACING) / (SINGLE_SPACING - STREAM_SPACING)
    else if distance > ALMOST_DIAMETER then
      1.2 + 0.4 * (distance - ALMOST_DIAMETER) / (STREAM_SPACING - ALMOST_DIAMETER)
    else if distance > ALMOST_DIAMETER / 2.0 then
      0.95 + 0.25 * (distance - ALMOST_DIAMETER / 2.0) / (ALMOST_DIAMETER / 2.0)
    else 0.95
  }

  /** The weight takes the documented values at the ends of its pieces. */
  lemma SpeedWeightKnots()
    ensures SpeedWeight(45.0) == 0.95
    ensures SpeedWeight(90.0) == 1.2
    ensures SpeedWeight(110.0) == 1.6
    ensures SpeedWeight(125.0) == 2.5
  {
  }

  lemma SpeedWeightBounds(d: real)
    ensures 0.95 <= SpeedWeight(d) <= 2.5
    ensures d <= 45.0 ==> SpeedWeight(d) == 0.95
    ensures d > 125.0 ==> SpeedWeight(d) == 2.5
  {
  }

  /**
   * The weight is non-decreasing and changes by at most 0.06 per unit of
   * distance, so it is continuous: the pieces meet at 45, 90, 110 and 125.
   */
  lemma SpeedWeightMonotoneLipschitz(d1: real, d2: real)
    requires d1 <= d2
    ensures SpeedWeight(d1) <= SpeedWeight(d2)
    ensures SpeedWeight(d2) - SpeedWeight(d1) <= 0.06 * (d2 - d1)
  {
  }

  /** `_spacing_weight`: distance to the power 0.99 for aim, the speed weight otherwise. */
  function SpacingWeight(ty: DiffType, distance: real, m: Maths): real
  {
    match ty
    case Aim => m.pow(distance, 0.99)
    case Speed => SpeedWeight(distance)
  }

  /** StdDifficultyHitObject */
  datatype DiffObject = DiffObject(obj: HitObject, speedStrain: real, aimStrain: real,
                                   normpos: Vec, isSingle: bool)

  function StrainOf(d: DiffObject, ty: DiffType): real
  {
    match ty
    case Speed => d.speedStrain
    case Aim => d.aimStrain
  }

  function WithStrain(d: DiffObject, ty: DiffType, v: real): (r: DiffObject)
    ensures StrainOf(r, ty) == v
    ensures r.obj == d.obj && r.normpos == d.normpos
  {
    match ty
    case Speed => d.(speedStrain := v)
    case Aim => d.(aimStrain := v)
  }

  /** vec_len(vec_sub(a, b)) */
  function Distance(a: Vec, b: Vec, m: Maths): real
  {
    m.sqrt((a.x - b.x) * (a.x - b.x) + (a.y - b.y) * (a.y - b.y))
  }

  /** Objects with the circle or slider bit move the cursor; others add no strain. */
  predicate Moving(o: HitObject)
  {
    HasBit(o.objectType, SLIDER | CIRCLE)
  }

  function TimeElapsed(cur: DiffObject, prev: DiffObject, speedMultiplier: real): real
    requires speedMultiplier != 0.0
  {
    (cur.obj.time - prev.obj.time) / speedMultiplier
  }

  /** `_calc_strain`: the new state of `cur` given its predecessor. */
  function CalcStrain(ty: DiffType, cur: DiffObject, prev: DiffObject,
                      speedMultiplier: real, m: Maths): (r: DiffObject)
    requires speedMultiplier != 0.0
    ensures r.obj == cur.obj && r.normpos == cur.normpos
  {
    var timeElapsed := TimeElapsed(cur, prev, speedMultiplier);
    var decay := m.pow(DecayBase(ty), timeElapsed / 1000.0);
    var distance := Distance(cur.normpos, prev.normpos, m);
    var single := if Moving(cur.obj) && ty == Speed then distance > SINGLE_SPACING else cur.isSingle;
    WithStrain(cur.(isSingle := single), ty,
               StrainOf(prev, ty) * decay + SpacingValue(ty, cur, prev, m) / MaxR(timeElapsed, 50.0))
  }

  /** The weighted spacing term a moving object adds before division by the elapsed time. */
  function SpacingValue(ty: DiffType, cur: DiffObject, prev: DiffObject, m: Maths): real
  {
    if Moving(cur.obj) then SpacingWeight(ty, Distance(cur.normpos, prev.normpos, m), m) * WeightScaling(ty)
    else 0.0
  }

  /**
   * The speed pass marks a moving object single exactly when it lies more
   * than 125 normalized units from its predecessor; nothing else touches the flag.
   */
  lemma CalcStrainSingle(ty: DiffType, cur: DiffObject, prev: DiffObject, s: real, m: Maths)
    requires s != 0.0
    ensures ty == Speed && Moving(cur.obj) ==>
      (CalcStrain(ty, cur, prev, s, m).isSingle <==> Distance(cur.normpos, prev.normpos, m) > 125.0)
    ensures !(ty == Speed && Moving(cur.obj)) ==> CalcStrain(ty, cur, prev, s, m).isSingle == cur.isSingle
  {
  }

  /**
   * The pass changes only the strain of its own type and the single flag;
   * an object that is neither circle nor slider only decays its predecessor's strain.
   */
  lemma CalcStrainShape(ty: DiffType, cur: DiffObject, prev: DiffObject, s: real, m: Maths)
    requires s != 0.0
    ensures var r := CalcStrain(ty, cur, prev, s, m);
      && r.obj == cur.obj && r.normpos == cur.normpos
      && (ty == Speed ==> r.aimStrain == cur.aimStrain)
      && (ty == Aim ==> r.speedStrain == cur.speedStrain)
    ensures !Moving(cur.obj) ==>
      StrainOf(CalcStrain(ty, cur, prev, s, m), ty)
        == StrainOf(prev, ty) * m.pow(DecayBase(ty), TimeElapsed(cur, prev, s) / 1000.0)
  {
  }

  /** One strain step in the abstract: decayed old strain plus a term divided by at least 50. */
  lemma StepBounds(prevStrain: real, decay: real, value: real, div: real, cap: real)
    requires 0.0 <= prevStrain && 0.0 <= decay && 0.0 <= value <= cap && 50.0 <= div
    ensures 0.0 <= prevStrain * decay + value / div <= prevStrain * decay + cap / 50.0
  {
    assert 0.0 <= prevStrain * decay;
    assert value / div <= value / 50.0 <= cap / 50.0;
  }

  lemma SquareNonNegative(x: real)
    ensures 0.0 <= x * x
  {
  }

  /** The weighted spacing term of a moving object: never negative, at most 2.5 * 1400 for speed. */
  lemma SpacingValueBounds(ty: DiffType, a: Vec, b: Vec, m: Maths)
    requires Lawful(m)
    ensures 0.0 <= SpacingWeight(ty, Distance(a, b, m), m) * WeightScaling(ty)
    ensures ty == Speed ==> SpacingWeight(ty, Distance(a, b, m), m) * WeightScaling(ty) <= 3500.0
  {
    SquareNonNegative(a.x - b.x);
    SquareNonNegative(a.y - b.y);
    var d := Distance(a, b, m);
    match ty {
      case Aim =>
        assert d >= 0.0;
        assert m.pow(d, 0.99) >= 0.0;
      case Speed =>
        SpeedWeightBounds(d);
    }
  }

  /**
   * With lawful pow and sqrt a strain stays non-negative, and since the
   * divisor is at least 50 ms a speed strain grows by at most 2.5 * 1400 / 50 = 70.
   */
  lemma CalcStrainBounds(ty: DiffType, cur: DiffObject, prev: DiffObject, s: real, m: Maths)
    requires s != 0.0 && Lawful(m) && StrainOf(prev, ty) >= 0.0
    ensures var decay := m.pow(DecayBase(ty), TimeElapsed(cur, prev, s) / 1000.0);
      && 0.0 <= StrainOf(CalcStrain(ty, cur, prev, s, m), ty)
      && (ty == Speed ==> StrainOf(CalcStrain(ty, cur, prev, s, m), ty) <= StrainOf(prev, ty) * decay + 70.0)
  {
    var te := TimeElapsed(cur, prev, s);
    var decay := m.pow(DecayBase(ty), te / 1000.0);
    var value := SpacingValue(ty, cur, prev, m);
    SpacingValueBounds(ty, cur.normpos, prev.normpos, m);
    var cap := if ty == Speed then 3500.0 else value;
    StepBounds(StrainOf(prev, ty), decay, value, MaxR(te, 50.0), cap);
  }

  /** The i-th object after one pass: each strain is computed from the already updated predecessor. */
  function Strained(objs: seq<DiffObject>, i: nat, ty: DiffType, s: real, m: Maths): (r: DiffObject)
    requires i < |objs| && s != 0.0
    ensures r.obj == objs[i].obj && r.normpos == objs[i].normpos
  {
    if i == 0 then objs[0]
    else CalcStrain(ty, objs[i], Strained(objs, i - 1, ty, s, m), s, m)
  }

  /**
   * The objects after one pass of `_calc_individual`: the first is kept,
   * every later one gets its strain from its already updated predecessor,
   * and no object's hit object or position changes.
   */
  function StrainPass(objs: seq<DiffObject>, ty: DiffType, s: real, m: Maths): (r: seq<DiffObject>)
    requires s != 0.0
    ensures |r| == |objs|
    ensures |objs| > 0 ==> r[0] == objs[0]
    ensures forall i {:trigger objs[i]} :: 0 < i < |objs| ==> r[i] == CalcStrain(ty, objs[i], r[i - 1], s, m)
    ensures forall i :: 0 <= i < |objs| ==> r[i].obj == objs[i].obj && r[i].normpos == objs[i].normpos
    ensures forall i :: 0 <= i < |objs| ==> r[i] == Strained(objs, i, ty, s, m)
  {
    var r := seq(|objs|, i requires 0 <= i < |objs| => Strained(objs, i, ty, s, m));
    assert forall i {:trigger objs[i]} :: 0 < i < |objs| ==> r[i] == CalcStrain(ty, objs[i], r[i - 1], s, m) by {
      forall i | 0 < i < |objs| {
        StrainedStep(objs, i, ty, s, m);
      }
    }
    r
  }

  /**
   * An object's strain depends only on the objects up to it: two sequences
   * that agree up to index i agree on the first i + 1 results.
   */
  lemma {:induction false} StrainedPrefix(a: seq<DiffObject>, b: seq<DiffObject>, i: nat,
                                          ty: DiffType, s: real, m: Maths)
    requires i < |a| && i < |b| && s != 0.0
    requires forall k :: 0 <= k <= i ==> a[k] == b[k]
    ensures Strained(a, i, ty, s, m) == Strained(b, i, ty, s, m)
  {
    if i > 0 {
      StrainedPrefix(a, b, i - 1, ty, s, m);
      assert a[i] == b[i];
      StrainedStep(a, i, ty, s, m);
      StrainedStep(b, i, ty, s, m);
    } else {
      assert a[0] == b[0];
    }
  }

  lemma StrainedStep(objs: seq<DiffObject>, i: nat, ty: DiffType, s: real, m: Maths)
    requires 0 < i < |objs| && s != 0.0
    ensures Strained(objs, i, ty, s, m) == CalcStrain(ty, objs[i], Strained(objs, i - 1, ty, s, m), s, m)
  {
  }

  /** The state of the window scan: pushed maxima, end of the open window, its running maximum. */
  datatype Scan = Scan(strains: seq<real>, intervalEnd: real, maxStrain: real)

  /**
   * The inner loop of `_calc_individual` for an object at time t: while t
   * lies past the open window, push its maximum, restart the maximum from the
   * predecessor's strain decayed to the window's end, and move to the next window.
   */
  function Flush(sc: Scan, t: real, prev: Option<DiffObject>, ty: DiffType, step: real, m: Maths): (r: Scan)
    requires step >= 1.0
    ensures t > sc.intervalEnd ==> r.intervalEnd >= t
    ensures t <= sc.intervalEnd ==> r == sc
    ensures r.intervalEnd >= sc.intervalEnd
    ensures |r.strains| >= |sc.strains| && r.strains[..|sc.strains|] == sc.strains
    ensures sc.intervalEnd == WindowEnd(|sc.strains|, step) ==> r.intervalEnd == WindowEnd(|r.strains|, step)
    ensures |r.strains| > |sc.strains| ==> r.intervalEnd - step < t
    decreases (t - sc.intervalEnd).Floor
  {
    if t > sc.intervalEnd then
      Flush(Scan(sc.strains + [sc.maxStrain], sc.intervalEnd + step, Restart(sc.intervalEnd, prev, ty, m)),
            t, prev, ty, step, m)
    else sc
  }

  /** The maximum a new window starts from: the predecessor's strain decayed to the closed window's end. */
  function Restart(intervalEnd: real, prev: Option<DiffObject>, ty: DiffType, m: Maths): real
  {
    match prev
    case Some(p) => StrainOf(p, ty) * m.pow(DecayBase(ty), (intervalEnd - p.obj.time) / 1000.0)
    case None => 0.0
  }

  /** One window closed by Flush. */
  lemma FlushStep(sc: Scan, t: real, prev: Option<DiffObject>, ty: DiffType, step: real, m: Maths)
    requires step >= 1.0 && t > sc.intervalEnd
    ensures Flush(sc, t, prev, ty, step, m)
         == Flush(Scan(sc.strains + [sc.maxStrain], sc.intervalEnd + step, Restart(sc.intervalEnd, prev, ty, m)),
                  t, prev, ty, step, m)
  {
  }

  /** step * (k + 1), the end of the window that is open after k pushes, as repeated addition. */
  function WindowEnd(k: nat, step: real): real
  {
    if k == 0 then step else WindowEnd(k - 1, step) + step
  }

  lemma {:induction false} WindowEndGrows(k: nat, step: real)
    requires step >= 1.0
    ensures k >= 1 ==> WindowEnd(k, step) >= 2.0 * step
  {
    if k > 1 {
      WindowEndGrows(k - 1, step);
    }
  }

  /** The scan state after the first n (already strained) objects. */
  function ScanUpTo(objs: seq<DiffObject>, n: nat, ty: DiffType, step: real, m: Maths): Scan
    requires n <= |objs| && step >= 1.0
  {
    if n == 0 then Scan([], step, 0.0)
    else
      var prev := if n >= 2 then Some(objs[n - 2]) else None;
      var sc := Flush(ScanUpTo(objs, n - 1, ty, step, m), objs[n - 1].obj.time, prev, ty, step, m);
      sc.(maxStrain := MaxR(sc.maxStrain, StrainOf(objs[n - 1], ty)))
  }

  /** The latest time among a non-empty sequence of objects. */
  function MaxTime(objs: seq<DiffObject>): (r: real)
    requires |objs| > 0
    ensures forall k :: 0 <= k < |objs| ==> objs[k].obj.time <= r
  {
    if |objs| == 1 then objs[0].obj.time
    else MaxR(MaxTime(objs[..|objs| - 1]), objs[|objs| - 1].obj.time)
  }

  lemma {:induction false} MaxTimeAtMost(objs: seq<DiffObject>, bound: real)
    requires |objs| > 0
    requires forall k :: 0 <= k < |objs| ==> objs[k].obj.time <= bound
    ensures MaxTime(objs) <= bound
  {
    if |objs| > 1 {
      MaxTimeAtMost(objs[..|objs| - 1], bound);
    }
  }

  /** The open window always ends at step * (pushed windows + 1). */
  lemma {:induction false} ScanEnd(objs: seq<DiffObject>, n: nat, ty: DiffType, step: real, m: Maths)
    requires n <= |objs| && step >= 1.0
    ensures ScanUpTo(objs, n, ty, step, m).intervalEnd
         == WindowEnd(|ScanUpTo(objs, n, ty, step, m).strains|, step)
  {
    if n > 0 {
      ScanEnd(objs, n - 1, ty, step, m);
    }
  }

  /** The open window covers every object seen so far. */
  lemma {:induction false} ScanCovers(objs: seq<DiffObject>, n: nat, ty: DiffType, step: real, m: Maths)
    requires n <= |objs| && step >= 1.0
    ensures forall k :: 0 <= k < n ==> objs[k].obj.time <= ScanUpTo(objs, n, ty, step, m).intervalEnd
  {
    if n > 0 {
      ScanCovers(objs, n - 1, ty, step, m);
      var before := ScanUpTo(objs, n - 1, ty, step, m);
      var prev := if n >= 2 then Some(objs[n - 2]) else None;
      var sc := Flush(before, objs[n - 1].obj.time, prev, ty, step, m);
      assert sc.intervalEnd >= before.intervalEnd;
      assert ScanUpTo(objs, n, ty, step, m).intervalEnd == sc.intervalEnd;
    }
  }

  /**
   * A window is pushed only when some object lies past it: with at least one
   * pushed window, the latest object lies past the start of the open window.
   */
  lemma {:induction false} ScanPushedPast(objs: seq<DiffObject>, n: nat, ty: DiffType, step: real, m: Maths)
    requires n <= |objs| && step >= 1.0
    ensures var sc := ScanUpTo(objs, n, ty, step, m);
      |sc.strains| > 0 ==> sc.intervalEnd - step < MaxTime(objs[..n])
  {
    if n > 0 {
      ScanPushedPast(objs, n - 1, ty, step, m);
      var before := ScanUpTo(objs, n - 1, ty, step, m);
      var prev := if n >= 2 then Some(objs[n - 2]) else None;
      var t := objs[n - 1].obj.time;
      var sc := Flush(before, t, prev, ty, step, m);
      ScanUpToStep(objs, n, ty, step, m);
      MaxTimeSnoc(objs, n);
      if |sc.strains| == |before.strains| {
        FlushKeepsEnd(before, t, prev, ty, step, m);
      }
    }
  }

  /** One object of the scan: Flush up to its time; only the running maximum changes afterwards. */
  lemma ScanUpToStep(objs: seq<DiffObject>, n: nat, ty: DiffType, step: real, m: Maths)
    requires 0 < n <= |objs| && step >= 1.0
    ensures var sc := Flush(ScanUpTo(objs, n - 1, ty, step, m), objs[n - 1].obj.time,
                            if n >= 2 then Some(objs[n - 2]) else None, ty, step, m);
      && ScanUpTo(objs, n, ty, step, m).strains == sc.strains
      && ScanUpTo(objs, n, ty, step, m).intervalEnd == sc.intervalEnd
  {
  }

  /** The latest time of the first n objects, one object at a time. */
  lemma MaxTimeSnoc(objs: seq<DiffObject>, n: nat)
    requires 0 < n <= |objs|
    ensures n == 1 ==> MaxTime(objs[..n]) == objs[0].obj.time
    ensures n >= 2 ==> MaxTime(objs[..n]) == MaxR(MaxTime(objs[..n - 1]), objs[n - 1].obj.time)
  {
    assert objs[..n][n - 1] == objs[n - 1];
    if n >= 2 {
      assert objs[..n][..n - 1] == objs[..n - 1];
    }
  }

  /** A Flush that pushes nothing leaves the window where it was. */
  lemma FlushKeepsEnd(sc: Scan, t: real, prev: Option<DiffObject>, ty: DiffType, step: real, m: Maths)
    requires step >= 1.0
    requires |Flush(sc, t, prev, ty, step, m).strains| == |sc.strains|
    ensures Flush(sc, t, prev, ty, step, m) == sc && t <= sc.intervalEnd
  {
    if t > sc.intervalEnd {
      FlushStep(sc, t, prev, ty, step, m);
      assert false;
    }
  }

  /**
   * The window still open after the last object is never pushed: when every
   * object lies within the first window nothing is pushed at all.
   */
  lemma OneWindowPushesNothing(objs: seq<DiffObject>, ty: DiffType, step: real, m: Maths)
    requires step >= 1.0
    requires forall k :: 0 <= k < |objs| ==> objs[k].obj.time <= step
    ensures ScanUpTo(objs, |objs|, ty, step, m).strains == []
  {
    ScanEnd(objs, |objs|, ty, step, m);
    ScanPushedPast(objs, |objs|, ty, step, m);
    var sc := ScanUpTo(objs, |objs|, ty, step, m);
    if |sc.strains| > 0 {
      assert objs[..|objs|] == objs;
      MaxTimeAtMost(objs, step);
      WindowEndGrows(|sc.strains|, step);
    }
  }

  predicate SortedDesc(s: seq<real>)
  {
    forall i, j :: 0 <= i < j < |s| ==> s[i] >= s[j]
  }

  function Insert(x: real, s: seq<real>): (r: seq<real>)
    requires SortedDesc(s)
    ensures SortedDesc(r)
    ensures multiset(r) == multiset(s) + multiset{x}
    ensures |r| == |s| + 1
    ensures r[0] == x || (s != [] && r[0] == s[0])
  {
    if s == [] || x >= s[0] then
      ConsSorted(x, s);
      [x] + s
    else
      var rest := Insert(x, s[1..]);
      assert s == [s[0]] + s[1..];
      assert multiset(s) == multiset{s[0]} + multiset(s[1..]);
      assert multiset([s[0]] + rest) == multiset{s[0]} + multiset(rest);
      assert s[0] >= rest[0];
      ConsSorted(s[0], rest);
      [s[0]] + rest
  }

  /** A head no smaller than the first element of a descending list keeps it descending. */
  lemma ConsSorted(h: real, t: seq<real>)
    requires SortedDesc(t) && (t != [] ==> h >= t[0])
    ensures SortedDesc([h] + t)
  {
    var r := [h] + t;
    forall i, j | 0 <= i < j < |r|
      ensures r[i] >= r[j]
    {
      if i > 0 {
        assert r[i] == t[i - 1] && r[j] == t[j - 1];
      } else {
        assert r[j] == t[j - 1];
      }
    }
  }

  /** `strains.sort((a, b) => b - a)`: the same values, largest first. */
  function SortDesc(s: seq<real>): (r: seq<real>)
    ensures SortedDesc(r)
    ensures multiset(r) == multiset(s)
  {
    if s == [] then []
    else
      assert s == s[..|s| - 1] + [s[|s| - 1]];
      Insert(s[|s| - 1], SortDesc(s[..|s| - 1]))
  }

  /**
   * The weighted sum of `_calc_individual` from weight w on: s[0] * w +
   * s[1] * w * 0.9 + ...; the sum proper starts at weight 1.
   */
  function WeightedSumFrom(s: seq<real>, w: real): real
  {
    if s == [] then 0.0 else s[0] * w + WeightedSumFrom(s[1..], w * DECAY_WEIGHT)
  }

  function WeightedSum(s: seq<real>): real
  {
    WeightedSumFrom(s, 1.0)
  }

  /**
   * For values in [0, M] and a weight w > 0, the weighted sum lies between
   * the first value times w and 10 * M * w (the geometric series' limit).
   */
  lemma {:induction false} WeightedSumFromBounds(s: seq<real>, w: real, bound: real)
    requires forall k :: 0 <= k < |s| ==> 0.0 <= s[k] <= bound
    requires bound >= 0.0 && w > 0.0
    ensures 0.0 <= WeightedSumFrom(s, w) <= 10.0 * bound * w
    ensures |s| > 0 ==> s[0] * w <= WeightedSumFrom(s, w)
  {
    if s != [] {
      var rest := s[1..];
      WeightedSumFromBounds(rest, w * DECAY_WEIGHT, bound);
      WeightedStepBound(s[0], WeightedSumFrom(rest, w * DECAY_WEIGHT), w, bound);
    }
  }

  /** The arithmetic of one step: x * w, with x in [0, M], before a tail within 10 * M * 0.9 * w. */
  lemma WeightedStepBound(x: real, tail: real, w: real, bound: real)
    requires 0.0 <= x <= bound && w > 0.0
    requires 0.0 <= tail <= 10.0 * bound * (w * DECAY_WEIGHT)
    ensures 0.0 <= x * w + tail <= 10.0 * bound * w
    ensures x * w <= x * w + tail
  {
    var xw := x * w;
    var bw := bound * w;
    assert 0.0 <= xw <= bw;
    assert 10.0 * bound * (w * DECAY_WEIGHT) == 9.0 * bw;
    assert 10.0 * bound * w == 10.0 * bw;
  }

  /** For values in [0, M] the weighted sum lies between the first value and 10 * M. */
  lemma WeightedSumBounds(s: seq<real>, bound: real)
    requires forall k :: 0 <= k < |s| ==> 0.0 <= s[k] <= bound
    requires bound >= 0.0
    ensures 0.0 <= WeightedSum(s) <= 10.0 * bound
    ensures |s| > 0 ==> s[0] <= WeightedSum(s)
  {
    WeightedSumFromBounds(s, 1.0, bound);
  }

  /**
   * `_calc_individual`: the pass over the objects, the windows of
   * STRAIN_STEP * speedMultiplier, and the weighted sum of the pushed maxima,
   * largest first.
   */
  function Individual(objs: seq<DiffObject>, ty: DiffType, speedMultiplier: real, m: Maths): real
    requires STRAIN_STEP * speedMultiplier >= 1.0
  {
    var strained := StrainPass(objs, ty, speedMultiplier, m);
    var sc := ScanUpTo(strained, |strained|, ty, STRAIN_STEP * speedMultiplier, m);
    WeightedSum(SortDesc(sc.strains))
  }

  /** Star rating total: heavily aim- or speed-leaning maps get a bonus. */
  function Total(aim: real, speed: real): real
  {
    aim + speed + AbsR(speed - aim) * EXTREME_SCALING_FACTOR
  }

  /** The total is one and a half times the larger rating plus half the smaller, so never below either. */
  lemma TotalShape(aim: real, speed: real)
    ensures Total(aim, speed) == 1.5 * MaxR(aim, speed) + 0.5 * MinR(aim, speed)
    ensures MinR(aim, speed) >= 0.0 ==> Total(aim, speed) >= MaxR(aim, speed)
  {
  }
}

/**
 * StdAccuracy: judgement counts and the accuracy they give, and the solver
 * that picks counts for a target accuracy percentage.
 */
module Accuracy {
  import opened Wrappers
  import opened Numeric

  datatype AccuracyError =
    | ObjectCountRequired   // the TypeError for a percent, or for value() with neither n300 nor objectCount
    | NotANumber            // 0 / 0: the accuracy (and every count derived from it) is NaN

  /** The four judgement counts; n300 == -1 stands for "not given". */
  datatype Counts = Counts(n300: int, n100: int, n50: int, missCount: int)

  /**
   * value(objectCount): with a non-negative n300 the object count is the sum
   * of the counts and the argument is ignored; otherwise n300 is what the
   * object count leaves. The quotient is clamped to [0, 1]; a zero
   * denominator gives +Infinity (clamped to 1), -Infinity (clamped to 0) or NaN.
   */
  function AccuracyOf(c: Counts, objectCount: Option<int>): (r: Result<real, AccuracyError>)
    ensures r.Success? ==> 0.0 <= r.value <= 1.0
    ensures r == Failure(ObjectCountRequired) <==> c.n300 < 0 && !TruthyInt(objectCount)
  {
    if c.n300 < 0 && !TruthyInt(objectCount) then Failure(ObjectCountRequired)
    else
      var total := if c.n300 < 0 then objectCount.value else c.n300 + c.n100 + c.n50 + c.missCount;
      var n300 := if c.n300 < 0 then total - c.n100 - c.n50 - c.missCount else c.n300;
      var num := (n300 * 300 + c.n100 * 100 + c.n50 * 50) as real;
      var den := (total * 300) as real;
      if den == 0.0 then
        (if num == 0.0 then Failure(NotANumber) else if num > 0.0 then Success(1.0) else Success(0.0))
      else Success(MaxR(0.0, MinR(num / den, 1.0)))
  }

  /** Counts that make sense: none negative and at least one object. */
  predicate Plausible(c: Counts)
  {
    c.n300 >= 0 && c.n100 >= 0 && c.n50 >= 0 && c.missCount >= 0
    && c.n300 + c.n100 + c.n50 + c.missCount > 0
  }

  /** For plausible counts the clamp never acts: the value is the weighted share of 300s. */
  lemma AccuracyOfPlausible(c: Counts, objectCount: Option<int>)
    requires Plausible(c)
    ensures var total := c.n300 + c.n100 + c.n50 + c.missCount;
      AccuracyOf(c, objectCount)
      == Success((c.n300 * 300 + c.n100 * 100 + c.n50 * 50) as real / (total * 300) as real)
  {
    var total := c.n300 + c.n100 + c.n50 + c.missCount;
    var num := (c.n300 * 300 + c.n100 * 100 + c.n50 * 50) as real;
    var den := (total * 300) as real;
    assert 0.0 <= num <= den;
    QuotientBounds(num, den);
  }

  lemma QuotientBounds(num: real, den: real)
    requires 0.0 <= num <= den && den > 0.0
    ensures 0.0 <= num / den <= 1.0
  {
  }

  /**
   * With n300 missing, value(objectCount) is value() of the counts with
   * n300 filled in: the two ways of naming the object count agree.
   */
  lemma AccuracyOfFillsN300(c: Counts, objectCount: int)
    requires c.n300 < 0 && objectCount != 0
    requires objectCount - c.n100 - c.n50 - c.missCount >= 0
    ensures AccuracyOf(c, Some(objectCount))
         == AccuracyOf(c.(n300 := objectCount - c.n100 - c.n50 - c.missCount), None)
  {
  }

  /** With n300 given, the object count argument is never read. */
  lemma AccuracyOfIgnoresObjectCount(c: Counts, a: Option<int>, b: Option<int>)
    requires c.n300 >= 0
    ensures AccuracyOf(c, a) == AccuracyOf(c, b)
  {
  }

  /** The accuracy percentage the solver aims for: `percent` clamped to [0, best reachable]. */
  function TargetPercent(missCount: int, objectCount: int, percent: real): Result<real, AccuracyError>
  {
    var max300 := objectCount - missCount;
    match AccuracyOf(Counts(max300, 0, 0, missCount), None)
    case Failure(e) => Failure(e)
    case Success(maxAccuracy) => Success(MaxR(0.0, MinR(maxAccuracy * 100.0, percent)))
  }

  /**
   * The count solver of the StdAccuracy constructor. The 50s estimate is
   * `Round(-6 * (...) * fiftyFactor)`: 0.2 solves the accuracy equation for
   * 50s, the source writes 0.5.
   */
  function SolveWith(fiftyFactor: real, n50: int, missCount: int, objectCount: int, percent: real)
    : Result<Counts, AccuracyError>
  {
    var miss := MinI(objectCount, missCount);
    match TargetPercent(miss, objectCount, percent)
    case Failure(e) => Failure(e)
    case Success(accuracyPercent) => Success(CountsFor(fiftyFactor, n50, miss, objectCount, accuracyPercent))
  }

  /** The counts for an already clamped target percentage and capped miss count. */
  function CountsFor(fiftyFactor: real, n50: int, miss: int, objectCount: int, accuracyPercent: real): Counts
  {
    var max300 := objectCount - miss;
    var deficit := Deficit(miss, objectCount, accuracyPercent);
    var n100 := Round(-3.0 * deficit * 0.5);
    var (n100', n50') :=
      if n100 > max300 then (0, MinI(max300, Round(-6.0 * deficit * fiftyFactor))) else (n100, n50);
    Counts(objectCount - n100' - n50' - miss, n100', n50', miss)
  }

  /** The shortfall of the target from a perfect score, in objects. */
  function Deficit(miss: int, objectCount: int, accuracyPercent: real): real
  {
    (accuracyPercent * 0.01 - 1.0) * objectCount as real + miss as real
  }

  /** The two branches of CountsFor. */
  lemma CountsForCases(fiftyFactor: real, n50: int, miss: int, objectCount: int, accuracyPercent: real)
    ensures var d := Deficit(miss, objectCount, accuracyPercent);
      var n100 := Round(-3.0 * d * 0.5);
      var max300 := objectCount - miss;
      && (n100 <= max300 ==>
            CountsFor(fiftyFactor, n50, miss, objectCount, accuracyPercent)
            == Counts(objectCount - n100 - n50 - miss, n100, n50, miss))
      && (n100 > max300 ==>
            var kept := MinI(max300, Round(-6.0 * d * fiftyFactor));
            CountsFor(fiftyFactor, n50, miss, objectCount, accuracyPercent)
            == Counts(objectCount - kept - miss, 0, kept, miss))
  {
  }

  /** The solver as intended. */
  function Solve(n50: int, missCount: int, objectCount: int, percent: real): Result<Counts, AccuracyError>
  {
    SolveWith(0.2, n50, missCount, objectCount, percent)
  }

  /** The solver as written. */
  function SolveAsWritten(n50: int, missCount: int, objectCount: int, percent: real): Result<Counts, AccuracyError>
  {
    SolveWith(0.5, n50, missCount, objectCount, percent)
  }

  /**
   * The solved counts add up to the object count; misses are capped at the
   * object count; either the 100s estimate fits beside the 300s and the
   * given n50 is kept, or there are no 100s and the 50s fit.
   */
  lemma SolveShape(fiftyFactor: real, n50: int, missCount: int, objectCount: int, percent: real)
    requires SolveWith(fiftyFactor, n50, missCount, objectCount, percent).Success?
    ensures var c := SolveWith(fiftyFactor, n50, missCount, objectCount, percent).value;
      && c.n300 + c.n100 + c.n50 + c.missCount == objectCount
      && c.missCount == MinI(objectCount, missCount) && c.missCount <= objectCount
      && ((c.n100 <= objectCount - c.missCount && c.n50 == n50)
          || (c.n100 == 0 && c.n50 <= objectCount - c.missCount))
  {
  }

  /**
   * The solver yields NaN exactly when there are no objects and no negative
   * miss count: the best reachable accuracy is then 0 / 0.
   */
  lemma SolveNaN(fiftyFactor: real, n50: int, missCount: int, objectCount: int, percent: real)
    ensures SolveWith(fiftyFactor, n50, missCount, objectCount, percent) == Failure(NotANumber)
        <==> objectCount == 0 && missCount >= 0
    ensures SolveWith(fiftyFactor, n50, missCount, objectCount, percent) != Failure(ObjectCountRequired)
  {
  }

  /** The best reachable accuracy with misses m among n objects is (n - m) / n. */
  lemma TargetPercentBounds(miss: int, objectCount: int, percent: real)
    requires 0 <= miss <= objectCount && objectCount > 0
    ensures TargetPercent(miss, objectCount, percent).Success?
    ensures var a := TargetPercent(miss, objectCount, percent).value;
      0.0 <= a && a * 0.01 * objectCount as real <= (objectCount - miss) as real
  {
    var max300 := objectCount - miss;
    AccuracyOfPlausible(Counts(max300, 0, 0, miss), None);
    var best := (max300 * 300) as real / (objectCount * 300) as real;
    assert best * (objectCount * 300) as real == (max300 * 300) as real;
    assert best * 100.0 * 0.01 * objectCount as real == max300 as real;
    var a := TargetPercent(miss, objectCount, percent).value;
    assert a <= best * 100.0;
    MulMonotone(a * 0.01, best * 100.0 * 0.01, objectCount as real);
  }

  lemma MulMonotone(x: real, y: real, k: real)
    requires x <= y && k >= 0.0
    ensures x * k <= y * k
  {
  }

  lemma AbsTimesPositive(y: real, d: real)
    requires d > 0.0
    ensures AbsR(y) * d == AbsR(y * d)
  {
  }

  /**
   * If (acc - a) * 300n == k * e with |e| <= 1/2, then |acc - a| * n <= k / 600:
   * a rounding error of half a judgement worth k / 300 of an object.
   */
  lemma ErrorBound(acc: real, a: real, num: real, n: real, k: real, e: real)
    requires n > 0.0 && k > 0.0 && acc == num / (300.0 * n)
    requires num - 300.0 * (a * n) == k * e && -0.5 <= e <= 0.5
    ensures AbsR(acc - a) * n <= k / 600.0
  {
    var den := 300.0 * n;
    assert acc * den == num;
    assert (acc - a) * den == num - 300.0 * (a * n);
    AbsTimesPositive(acc - a, den);
    assert AbsR(k * e) <= k * 0.5;
    assert AbsR(acc - a) * den == 300.0 * (AbsR(acc - a) * n);
  }

  /** The accuracy of plausible counts c lies within bound / n of the target a. */
  predicate Within(c: Counts, a: real, n: int, bound: real)
  {
    Plausible(c) && AbsR(AccuracyOf(c, None).value - a) * n as real <= bound
  }

  /** The 100s branch: n300, n100 and the misses, with n100 the rounded exact solution x. */
  lemma HundredsBranch(c: Counts, miss: int, objectCount: int, x: real, a: real)
    requires 0 <= miss <= objectCount && objectCount > 0 && 0 <= c.n100 <= objectCount - miss
    requires c == Counts(objectCount - c.n100 - 0 - miss, c.n100, 0, miss)
    requires x - 0.5 < c.n100 as real <= x + 0.5
    requires x == 1.5 * ((objectCount - miss) as real - a * objectCount as real)
    ensures Within(c, a, objectCount, 1.0 / 3.0)
  {
    AccuracyOfPlausible(c, None);
    var num := ((objectCount - c.n100 - miss) * 300 + c.n100 * 100) as real;
    var n := objectCount as real;
    assert num - 300.0 * (a * n) == 200.0 * (x - c.n100 as real);
    ErrorBound(num / (300.0 * n), a, num, n, 200.0, x - c.n100 as real);
  }

  /** The 50s branch: no 100s, and the 50s the rounded exact solution x unless capped. */
  lemma FiftiesBranch(c: Counts, miss: int, objectCount: int, n50: int, x: real, a: real)
    requires 0 <= miss <= objectCount && objectCount > 0 && 0 <= n50
    requires c == Counts(objectCount - MinI(objectCount - miss, n50) - miss, 0, MinI(objectCount - miss, n50), miss)
    requires x - 0.5 < n50 as real <= x + 0.5
    requires x == 1.2 * ((objectCount - miss) as real - a * objectCount as real)
    ensures Plausible(c)
    ensures c.n50 == objectCount - miss || Within(c, a, objectCount, 5.0 / 12.0)
  {
    AccuracyOfPlausible(c, None);
    if c.n50 < objectCount - miss {
      var num := ((objectCount - n50 - miss) * 300 + n50 * 50) as real;
      var n := objectCount as real;
      assert num - 300.0 * (a * n) == 250.0 * (x - n50 as real);
      ErrorBound(num / (300.0 * n), a, num, n, 250.0, x - n50 as real);
    }
  }

  /**
   * The intended solver reproduces the target: with no 50s given and at
   * least one object, the solved counts are plausible and their accuracy is
   * within 1 / (3n) of the target when 100s are used, and within 5 / (12n)
   * when 50s are used, unless every non-miss is a 50 (the target lies below
   * what all 50s reach).
   */
  lemma SolveReachesTarget(missCount: int, objectCount: int, percent: real)
    requires 0 <= missCount <= objectCount && objectCount > 0
    ensures var c := Solve(0, missCount, objectCount, percent).value;
      var a := TargetPercent(missCount, objectCount, percent).value * 0.01;
      && Plausible(c)
      && ((c.n50 == 0 && Within(c, a, objectCount, 1.0 / 3.0))
          || (c.n100 == 0 && (c.n50 == objectCount - missCount || Within(c, a, objectCount, 5.0 / 12.0))))
  {
    var miss := missCount;
    TargetPercentBounds(miss, objectCount, percent);
    var ap := TargetPercent(miss, objectCount, percent).value;
    var a := ap * 0.01;
    var an := a * objectCount as real;
    var deficit := Deficit(miss, objectCount, ap);
    assert deficit == an - objectCount as real + miss as real;
    assert an <= (objectCount - miss) as real;
    var c := Solve(0, missCount, objectCount, percent).value;
    assert c == CountsFor(0.2, 0, miss, objectCount, ap);
    CountsForCases(0.2, 0, miss, objectCount, ap);
    var x100 := -3.0 * deficit * 0.5;
    var n100 := Round(x100);
    if n100 > objectCount - miss {
      var x50 := -6.0 * deficit * 0.2;
      FiftiesBranch(c, miss, objectCount, Round(x50), x50, a);
    } else {
      HundredsBranch(c, miss, objectCount, x100, a);
    }
  }

  /** With 100 objects and no misses, a 20% target is 80 objects short of a perfect score. */
  lemma TwentyPercentOfHundred()
    ensures TargetPercent(0, 100, 20.0) == Success(20.0)
    ensures Deficit(0, 100, 20.0) == -80.0
    ensures Round(-3.0 * -80.0 * 0.5) == 120
  {
    assert AccuracyOf(Counts(100, 0, 0, 0), None) == Success(1.0);
  }

  /**
   * As written, 100 objects, no misses and a 20% target give 100 50s, an
   * accuracy of 1/6 rather than 1/5.
   */
  lemma SolveAsWrittenMissesTarget()
    ensures SolveAsWritten(0, 0, 100, 20.0) == Success(Counts(0, 0, 100, 0))
    ensures AccuracyOf(Counts(0, 0, 100, 0), None) == Success(1.0 / 6.0)
  {
    TwentyPercentOfHundred();
    CountsForCases(0.5, 0, 0, 100, 20.0);
    assert Round(-6.0 * -80.0 * 0.5) == 240;
  }

  /** The intended factor gives 4 300s and 96 50s for the same input, exactly 20%. */
  lemma SolveHitsTarget()
    ensures Solve(0, 0, 100, 20.0) == Success(Counts(4, 0, 96, 0))
    ensures AccuracyOf(Counts(4, 0, 96, 0), None) == Success(0.2)
  {
    TwentyPercentOfHundred();
    CountsForCases(0.2, 0, 0, 100, 20.0);
    assert Round(-6.0 * -80.0 * 0.2) == 96;
  }

  /** The constructor's parameters; absent ones take the destructuring defaults. */
  datatype AccuracyParams = AccuracyParams(
    missCount: Option<int>, n300: Option<int>, n100: Option<int>, n50: Option<int>,
    objectCount: Option<int>, percent: Option<real>)

  function OrDefault(x: Option<int>, d: int): int
  {
    if x.Some? then x.value else d
  }

  /** The counts the constructor leaves, or what it throws. */
  function CountsOf(p: AccuracyParams): (r: Result<Counts, AccuracyError>)
    ensures !Truthy(p.percent) ==> r == Success(Counts(OrDefault(p.n300, -1), OrDefault(p.n100, 0),
                                                        OrDefault(p.n50, 0), OrDefault(p.missCount, 0)))
    ensures Truthy(p.percent) && p.objectCount.None? ==> r == Failure(ObjectCountRequired)
  {
    if !Truthy(p.percent) then
      Success(Counts(OrDefault(p.n300, -1), OrDefault(p.n100, 0), OrDefault(p.n50, 0), OrDefault(p.missCount, 0)))
    else if p.objectCount.None? then Failure(ObjectCountRequired)
    else Solve(OrDefault(p.n50, 0), OrDefault(p.missCount, 0), p.objectCount.value, p.percent.value)
  }

  class StdAccuracy {
    var missCount: int
    var n300: int
    var n100: int
    var n50: int

    function Value(): Counts
      reads this
    {
      Counts(n300, n100, n50, missCount)
    }

    constructor FromCounts(c: Counts)
      ensures Value() == c
    {
      n300, n100, n50, missCount := c.n300, c.n100, c.n50, c.missCount;
    }

    /**
     * The constructor: stores the given counts, then, for a non-zero percent,
     * solves for them.
     */
    static method Make(p: AccuracyParams) returns (r: Result<StdAccuracy, AccuracyError>)
      ensures r.Failure? ==> CountsOf(p) == Failure(r.error)
      ensures r.Success? ==> fresh(r.value) && CountsOf(p) == Success(r.value.Value())
    {
      var acc := new StdAccuracy.FromCounts(Counts(OrDefault(p.n300, -1), OrDefault(p.n100, 0),
                                                   OrDefault(p.n50, 0), OrDefault(p.missCount, 0)));
      if Truthy(p.percent) {
        if p.objectCount.None? {
          return Failure(ObjectCountRequired);
        }
        var err := acc.SolveFor(p.objectCount.value, p.percent.value);
        if err.Some? {
          return Failure(err.value);
        }
      }
      return Success(acc);
    }

    /**
     * The percent branch of the constructor: caps the misses, solves for the
     * 100s and falls back to 50s when the 100s do not fit beside the 300s.
     */
    method SolveFor(objectCount: int, percent: real) returns (err: Option<AccuracyError>)
      modifies this
      ensures var s := Solve(old(n50), old(missCount), objectCount, percent);
        && (err.Some? <==> s.Failure?)
        && (err.Some? ==> s.error == err.value)
        && (err.None? ==> Value() == s.value)
    {
      ghost var s := Solve(n50, missCount, objectCount, percent);
      ghost var given50 := n50;
      missCount := MinI(objectCount, missCount);
      var max300 := objectCount - missCount;
      var best := new StdAccuracy.FromCounts(Counts(max300, 0, 0, missCount));
      var maxAccuracy := AccuracyOf(best.Value(), None);
      if maxAccuracy.Failure? {
        return Some(maxAccuracy.error);
      }
      var accuracyPercent := MaxR(0.0, MinR(maxAccuracy.value * 100.0, percent));
      assert TargetPercent(missCount, objectCount, percent) == Success(accuracyPercent);
      var deficit := Deficit(missCount, objectCount, accuracyPercent);
      CountsForCases(0.2, n50, missCount, objectCount, accuracyPercent);
      n100 := Round(-3.0 * deficit * 0.5);
      if n100 > max300 {
        n100 := 0;
        n50 := Round(-6.0 * deficit * 0.2);
        n50 := MinI(max300, n50);
      }
      n300 := objectCount - n100 - n50 - missCount;
      assert s == Success(CountsFor(0.2, given50, missCount, objectCount, accuracyPercent));
      return None;
    }
  }
}

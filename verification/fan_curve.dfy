/**
 * The automatic fan curve: FanConfig::adjust_fan_speed and the two
 * built-in breakpoint tables.  A table is an ordered list of
 * (temperature, duty) breakpoints; it is only ever read here.
 */
module FanCurve {

  /** One breakpoint: at `temp` degrees Celsius the fan should run at `duty` percent. */
  datatype Mapping = Mapping(temp: int, duty: int)

  type Table = seq<Mapping>

  /** The built-in CPU curve. */
  function DefaultCpuTable(): (t: Table)
    ensures |t| == 9 && t[0] == Mapping(10, 0) && t[8] == Mapping(90, 100)
  {
    [Mapping(10, 0), Mapping(20, 20), Mapping(30, 25), Mapping(40, 35), Mapping(50, 45),
     Mapping(60, 60), Mapping(70, 75), Mapping(80, 85), Mapping(90, 100)]
  }

  /** The built-in GPU curve. */
  function DefaultGpuTable(): (t: Table)
    ensures |t| == 10 && t[0] == Mapping(10, 0) && t[9] == Mapping(95, 100)
  {
    [Mapping(10, 0), Mapping(20, 20), Mapping(30, 25), Mapping(40, 30), Mapping(50, 35),
     Mapping(60, 45), Mapping(70, 60), Mapping(80, 75), Mapping(90, 90), Mapping(95, 100)]
  }

  /** C's `(a + b) / 2` on `int`: the quotient is truncated toward zero. */
  function Midpoint(a: int, b: int): (m: int)
    ensures a + b >= 0 ==> 2 * m <= a + b < 2 * m + 2
    ensures a + b < 0 ==> 2 * m - 2 < a + b <= 2 * m
  {
    var s := a + b;
    if s >= 0 then s / 2 else -((-s) / 2)
  }

  /** Breakpoint `i` has been reached by the reading `temp`. */
  predicate Reached(table: Table, temp: int, i: int)
    requires 0 <= i < |table|
  {
    temp >= table[i].temp
  }

  /**
   * Breakpoint `i` (never index 0) is the highest-indexed reached one: the
   * one the downward heating scan stops at.
   */
  predicate HighestReached(table: Table, temp: int, i: int)
  {
    1 <= i < |table| && Reached(table, temp, i) &&
    forall j :: i < j < |table| ==> !Reached(table, temp, j)
  }

  /**
   * The pair (i-1, i) lets the fan step down: the reading is at or below
   * the truncated midpoint of the two temperatures and the fan runs faster
   * than the lower breakpoint's duty.
   */
  predicate Cools(table: Table, temp: int, duty: int, i: int)
    requires 1 <= i < |table|
  {
    temp <= Midpoint(table[i - 1].temp, table[i].temp) && duty > table[i - 1].duty
  }

  /** Pair `i` is the first (lowest-indexed) pair that lets the fan step down. */
  predicate FirstCooling(table: Table, temp: int, duty: int, i: int)
  {
    1 <= i < |table| && Cools(table, temp, duty, i) &&
    forall j :: 1 <= j < i ==> !Cools(table, temp, duty, j)
  }

  /** The downward scan over indices `hi` down to 1: the first reached breakpoint. */
  function HeatIndex(table: Table, temp: int, hi: nat): (k: Option)
    requires hi < |table|
    ensures k.Some? ==> 1 <= k.index <= hi && Reached(table, temp, k.index) &&
                        forall j :: k.index < j <= hi ==> !Reached(table, temp, j)
    ensures k.None? ==> forall j :: 1 <= j <= hi ==> !Reached(table, temp, j)
    decreases hi
  {
    if hi == 0 then None
    else if Reached(table, temp, hi) then Some(hi)
    else HeatIndex(table, temp, hi - 1)
  }

  /** The upward scan over pairs `lo` .. |table|-1: the first pair that cools. */
  function CoolIndex(table: Table, temp: int, duty: int, lo: nat): (k: Option)
    requires 1 <= lo <= |table|
    ensures k.Some? ==> lo <= k.index < |table| && Cools(table, temp, duty, k.index) &&
                        forall j :: lo <= j < k.index ==> !Cools(table, temp, duty, j)
    ensures k.None? ==> forall j :: lo <= j < |table| ==> !Cools(table, temp, duty, j)
    decreases |table| - lo
  {
    if lo == |table| then None
    else if Cools(table, temp, duty, lo) then Some(lo)
    else CoolIndex(table, temp, duty, lo + 1)
  }

  datatype Option = None | Some(index: nat)

  /**
   * The heating candidate: the duty of the highest reached breakpoint at
   * index 1 or above, 0 when none is reached.
   */
  function HeatingTarget(table: Table, temp: int): (d: int)
    requires |table| >= 1
    ensures forall i :: HighestReached(table, temp, i) ==> d == table[i].duty
    ensures (forall i :: 1 <= i < |table| ==> !Reached(table, temp, i)) ==> d == 0
  {
    match HeatIndex(table, temp, |table| - 1)
    case Some(i) => table[i].duty
    case None => 0
  }

  /**
   * FanConfig::adjust_fan_speed: the duty the fan should be set to, 0
   * meaning "leave it as it is".
   */
  function TargetDuty(temp: int, duty: int, table: Table): (r: int)
    requires |table| >= 1
    // a nonzero answer is always a change
    ensures r != 0 ==> r != duty
    // going up: the highest reached breakpoint, at once and without hysteresis
    ensures r > duty && r != 0 ==> exists i :: HighestReached(table, temp, i) && r == table[i].duty
    ensures forall i :: HighestReached(table, temp, i) && table[i].duty > duty ==> r == table[i].duty
    // going down: the lower duty of the first pair whose midpoint the reading has fallen to
    ensures r < duty && r != 0 ==> exists i :: FirstCooling(table, temp, duty, i) && r == table[i - 1].duty
    ensures HeatingTarget(table, temp) <= duty ==>
              forall i :: FirstCooling(table, temp, duty, i) ==> r == table[i - 1].duty
    // no change: nothing to step up to, and no pair to step down by (or only down to a 0 duty)
    ensures r == 0 && duty >= 0 ==>
              (forall i :: HighestReached(table, temp, i) ==> table[i].duty <= duty) &&
              (forall i :: FirstCooling(table, temp, duty, i) ==> table[i - 1].duty == 0)
  {
    var h := HeatingTarget(table, temp);
    if h > duty then
      var k := HeatIndex(table, temp, |table| - 1);
      assert k.Some? ==> HighestReached(table, temp, k.index);
      h
    else
      var c := CoolIndex(table, temp, duty, 1);
      if c.Some? then
        assert FirstCooling(table, temp, duty, c.index);
        table[c.index - 1].duty
      else 0
  }

  /**
   * The two loops of adjust_fan_speed as written: the downward scan stops
   * at index 1, the upward scan returns at the first cooling pair.
   */
  method AdjustFanSpeed(currentTemp: int, currentDuty: int, fanMappings: Table) returns (r: int)
    requires |fanMappings| >= 1
    ensures r == TargetDuty(currentTemp, currentDuty, fanMappings)
  {
    var targetDuty := 0;
    var i := |fanMappings| - 1;
    while i > 0
      invariant 0 <= i < |fanMappings|
      invariant forall j :: i < j < |fanMappings| ==> !Reached(fanMappings, currentTemp, j)
      invariant targetDuty == 0
    {
      if currentTemp >= fanMappings[i].temp {
        targetDuty := fanMappings[i].duty;
        break;
      }
      i := i - 1;
    }
    assert targetDuty == HeatingTarget(fanMappings, currentTemp) by {
      if i > 0 {
        assert HighestReached(fanMappings, currentTemp, i);
      }
    }
    if targetDuty > currentDuty {
      return targetDuty;
    }
    i := 1;
    while i < |fanMappings|
      invariant 1 <= i <= |fanMappings|
      invariant forall j :: 1 <= j < i ==> !Cools(fanMappings, currentTemp, currentDuty, j)
    {
      var prevTemp := fanMappings[i - 1].temp;
      var prevDuty := fanMappings[i - 1].duty;
      var nextTemp := fanMappings[i].temp;
      var tmpThreshold := Midpoint(prevTemp, nextTemp);
      if currentTemp <= tmpThreshold && currentDuty > prevDuty {
        assert FirstCooling(fanMappings, currentTemp, currentDuty, i);
        return prevDuty;
      }
      i := i + 1;
    }
    return 0;
  }

  /** Breakpoint duties never decrease along the table. */
  predicate DutiesNonDecreasing(table: Table)
  {
    forall i, j :: 0 <= i <= j < |table| ==> table[i].duty <= table[j].duty
  }

  /** Breakpoint temperatures are non-negative and strictly increasing. */
  predicate TempsIncreasing(table: Table)
  {
    (|table| > 0 ==> table[0].temp >= 0) &&
    forall i, j :: 0 <= i < j < |table| ==> table[i].temp < table[j].temp
  }

  /** For non-negative temperatures a < b, the truncated midpoint lies below b. */
  lemma MidpointBelowUpper(a: int, b: int)
    requires 0 <= a < b
    ensures Midpoint(a, b) < b
  {
  }

  /** The downward scan looks at breakpoint temperatures only, never at a duty. */
  lemma {:induction false} HeatIndexIgnoresDuties(table: Table, other: Table, temp: int, hi: nat)
    requires hi < |table| == |other|
    requires forall j :: 0 <= j < |table| ==> table[j].temp == other[j].temp
    ensures HeatIndex(table, temp, hi) == HeatIndex(other, temp, hi)
  {
    if hi > 0 {
      HeatIndexIgnoresDuties(table, other, temp, hi - 1);
    }
  }

  /** Entry 0 is never a heating candidate: its duty does not affect the step up. */
  lemma EntryZeroNeverHeats(table: Table, temp: int, d0: int)
    requires |table| >= 1
    ensures HeatingTarget(table[0 := Mapping(table[0].temp, d0)], temp) == HeatingTarget(table, temp)
  {
    var other := table[0 := Mapping(table[0].temp, d0)];
    HeatIndexIgnoresDuties(table, other, temp, |table| - 1);
    var k := HeatIndex(table, temp, |table| - 1);
    assert k.Some? ==> k.index != 0 && other[k.index] == table[k.index];
  }

  /** A one-entry table never asks for a change. */
  lemma SingleEntryNeverChanges(table: Table, temp: int, duty: int)
    requires |table| == 1
    ensures TargetDuty(temp, duty, table) == 0
  {
    assert HeatIndex(table, temp, 0).None?;
    assert CoolIndex(table, temp, duty, 1).None?;
  }

  /** A nonzero answer is always the duty of one of the curve's breakpoints. */
  lemma TargetIsBreakpointDuty(table: Table, temp: int, duty: int)
    requires |table| >= 1
    ensures var r := TargetDuty(temp, duty, table);
      r != 0 ==> exists i :: 0 <= i < |table| && table[i].duty == r
  {
    var r := TargetDuty(temp, duty, table);
    if r != 0 && r > duty {
      var i :| HighestReached(table, temp, i) && r == table[i].duty;
      assert table[i].duty == r;
    } else if r != 0 {
      var i :| FirstCooling(table, temp, duty, i) && r == table[i - 1].duty;
      assert table[i - 1].duty == r;
    }
  }

  /** A step down always lowers the duty to a breakpoint strictly below the current duty. */
  lemma {:induction false} CoolingLowersDuty(table: Table, temp: int, duty: int)
    requires |table| >= 1
    requires HeatingTarget(table, temp) <= duty
    requires exists i :: 1 <= i < |table| && Cools(table, temp, duty, i)
    ensures var r := TargetDuty(temp, duty, table);
      r < duty && exists i :: FirstCooling(table, temp, duty, i) && r == table[i - 1].duty
  {
    var i :| 1 <= i < |table| && Cools(table, temp, duty, i);
    var k := CoolIndex(table, temp, duty, 1);
    assert FirstCooling(table, temp, duty, k.index);
  }

  /**
   * Monotonic heating: with non-decreasing duties and the same current duty,
   * a strictly higher reading never yields a strictly lower nonzero target.
   */
  lemma HigherTempNeverLowerTarget(table: Table, duty: int, t1: int, t2: int)
    requires |table| >= 1 && DutiesNonDecreasing(table)
    requires t1 < t2
    requires TargetDuty(t1, duty, table) != 0 && TargetDuty(t2, duty, table) != 0
    ensures TargetDuty(t1, duty, table) <= TargetDuty(t2, duty, table)
  {
    var r1, r2 := TargetDuty(t1, duty, table), TargetDuty(t2, duty, table);
    if r1 > duty {
      var i1 :| HighestReached(table, t1, i1) && r1 == table[i1].duty;
      assert Reached(table, t2, i1);
      var k := HeatIndex(table, t2, |table| - 1);
      assert HighestReached(table, t2, k.index);
      assert table[i1].duty <= table[k.index].duty;
    } else if r2 < duty {
      var i1 :| FirstCooling(table, t1, duty, i1) && r1 == table[i1 - 1].duty;
      var i2 :| FirstCooling(table, t2, duty, i2) && r2 == table[i2 - 1].duty;
      assert Cools(table, t1, duty, i2);
      assert i1 <= i2;
    }
  }

  /**
   * Monotonic heating needs non-decreasing duties: on a curve whose duties
   * fall from 50 to 30, the fan at 0% is asked for 50 at 25 degrees but
   * only for 30 at 35 degrees.
   */
  lemma NonMonotoneDutiesCounterexample()
    ensures var t := [Mapping(10, 0), Mapping(20, 50), Mapping(30, 30)];
      !DutiesNonDecreasing(t) && TargetDuty(25, 0, t) == 50 && TargetDuty(35, 0, t) == 30
  {
    var t := [Mapping(10, 0), Mapping(20, 50), Mapping(30, 30)];
    assert t[1].duty > t[2].duty;
    assert HighestReached(t, 25, 1);
    assert HighestReached(t, 35, 2);
  }

  /**
   * No oscillation after a step up: on a table with increasing
   * non-negative temperatures and non-decreasing duties, once the fan has
   * been raised to the heating target, the same reading asks for no change.
   */
  lemma NoChangeAfterHeating(table: Table, temp: int, duty: int)
    requires |table| >= 1 && TempsIncreasing(table) && DutiesNonDecreasing(table)
    requires 0 <= duty && TargetDuty(temp, duty, table) > duty
    ensures TargetDuty(temp, TargetDuty(temp, duty, table), table) == 0
  {
    var r := TargetDuty(temp, duty, table);
    var j :| HighestReached(table, temp, j) && r == table[j].duty;
    assert HeatingTarget(table, temp) == r;
    NothingCoolsAtReachedDuty(table, temp, j);
  }

  /**
   * At the duty of the highest reached breakpoint no pair lets the fan step
   * down: pairs at or below it have a midpoint under the reading, pairs
   * above it have a lower duty that is not below it.
   */
  lemma NothingCoolsAtReachedDuty(table: Table, temp: int, j: int)
    requires TempsIncreasing(table) && DutiesNonDecreasing(table) && HighestReached(table, temp, j)
    ensures CoolIndex(table, temp, table[j].duty, 1).None?
  {
    var r := table[j].duty;
    forall i | 1 <= i < |table|
      ensures !Cools(table, temp, r, i)
    {
      if i <= j {
        MidpointBelowUpper(table[i - 1].temp, table[i].temp);
        assert table[i].temp <= table[j].temp;
      } else {
        assert table[j].duty <= table[i - 1].duty;
      }
    }
  }

  /**
   * Saturation at the top: at or above the last breakpoint the curve asks
   * for the last duty once, and for nothing more when the fan already runs
   * at that duty.
   */
  lemma SaturatesAtTop(table: Table, temp: int, duty: int)
    requires |table| >= 2 && TempsIncreasing(table)
    requires temp >= table[|table| - 1].temp
    ensures table[|table| - 1].duty > duty ==> TargetDuty(temp, duty, table) == table[|table| - 1].duty
    ensures TargetDuty(temp, table[|table| - 1].duty, table) == 0
  {
    var n := |table|;
    assert HighestReached(table, temp, n - 1);
    forall i | 1 <= i < n
      ensures Midpoint(table[i - 1].temp, table[i].temp) < temp
    {
      MidpointBelowUpper(table[i - 1].temp, table[i].temp);
    }
  }

  /**
   * Saturation needs a second breakpoint: a one-entry curve never asks for
   * its only duty, however hot the reading, because the heating scan never
   * looks at index 0.
   */
  lemma SingleEntryNeverSaturates()
    ensures var t := [Mapping(10, 60)];
      100 >= t[0].temp && t[0].duty > 0 && TargetDuty(100, 0, t) == 0
  {
    SingleEntryNeverChanges([Mapping(10, 60)], 100, 0);
  }

  /**
   * Saturation needs non-negative temperatures: with breakpoints at -1 and
   * 0 degrees, C's truncating midpoint is 0, so at 0 degrees the curve
   * asks for the top duty 50 and then, at 50%, steps back down to 10.
   */
  lemma NegativeTempCounterexample()
    ensures var t := [Mapping(-1, 10), Mapping(0, 50)];
      !TempsIncreasing(t) && TargetDuty(0, 0, t) == 50 && TargetDuty(0, 50, t) == 10
  {
    var t := [Mapping(-1, 10), Mapping(0, 50)];
    assert HighestReached(t, 0, 1);
    assert Midpoint(-1, 0) == 0;
    assert FirstCooling(t, 0, 50, 1);
  }

  /** The hysteresis band of the built-in CPU curve between 30 and 40 degrees. */
  lemma DefaultCpuHysteresis()
    ensures TargetDuty(36, 35, DefaultCpuTable()) == 0
    ensures TargetDuty(34, 35, DefaultCpuTable()) == 25
  {
  }

  /** Both built-in curves satisfy the ordering the no-oscillation lemmas need. */
  lemma DefaultTablesOrdered()
    ensures TempsIncreasing(DefaultCpuTable()) && DutiesNonDecreasing(DefaultCpuTable())
    ensures TempsIncreasing(DefaultGpuTable()) && DutiesNonDecreasing(DefaultGpuTable())
  {
    OrderedFromNeighbours(DefaultCpuTable());
    OrderedFromNeighbours(DefaultGpuTable());
  }

  /** Checking each neighbouring pair of breakpoints is enough to order the whole table. */
  lemma {:induction false} OrderedFromNeighbours(table: Table)
    requires |table| > 0 ==> table[0].temp >= 0
    requires forall i :: 0 < i < |table| ==> table[i - 1].temp < table[i].temp && table[i - 1].duty <= table[i].duty
    ensures TempsIncreasing(table) && DutiesNonDecreasing(table)
    decreases |table|
  {
    if |table| > 1 {
      var rest := table[1..];
      assert forall i :: 0 < i < |rest| ==> rest[i - 1] == table[i] && rest[i] == table[i + 1];
      OrderedFromNeighbours(rest);
      forall i, j | 0 <= i < j < |table|
        ensures table[i].temp < table[j].temp && table[i].duty <= table[j].duty
      {
        if i > 0 {
          assert table[i] == rest[i - 1] && table[j] == rest[j - 1];
        } else if j > 1 {
          assert table[1] == rest[0] && table[j] == rest[j - 1];
        }
      }
    }
  }
}

/**
 The two batch runners: every start value from 1 to `maxValue` (inclusive)
 is driven down to 1, either from scratch each time or consulting a memo
 table of the step counts already found for smaller start values.

 Neither loop is known to terminate in general (that is the Collatz
 conjecture), so both runners require that every start value in the batch
 reaches 1, and the loops decrease the number of transitions still to go.
 */
module Runners {
  import opened CollatzSequence
  import opened Strategies

  /**
   One pass of an inner loop on a value that is not 1: halve an even value,
   advance an odd one with the selected multiplication strategy. The second
   component is the number of extra Collatz steps the pass took beyond one.
   */
  function Pass(m: Multiplication, d: Division, value: int): (r: (int, nat))
    ensures r.0 == Iterate(value, 1 + r.1)
    ensures r.1 <= 1
    ensures r.1 == 1 <==> value % 2 == 1 && m == MultiplyAndHalve
    ensures value >= 1 ==> r.0 >= 1
    ensures value >= 1 && r.1 == 1 ==> Step(value) != 1
  {
    if value % 2 == 0 then (Halve(d, value), 0) else Multiply(m, d, value)
  }

  /**
   A pass taken from the value reached after `steps` transitions (not yet 1)
   lands on the value reached after `steps + 1 + extra` transitions, and does
   not jump past the first 1: a fused pass never skips over the end.
   */
  lemma PassAdvances(m: Multiplication, d: Division, start: int, steps: nat)
    requires start >= 1 && Reaches(start)
    requires steps <= StepCount(start) && Iterate(start, steps) != 1
    ensures var r := Pass(m, d, Iterate(start, steps));
      && steps + 1 + r.1 <= StepCount(start)
      && r.0 == Iterate(start, steps + 1 + r.1)
      && r.0 >= 1
  {
    var value := Iterate(start, steps);
    var r := Pass(m, d, value);
    IteratePositive(start, steps);
    IterateAdd(start, steps, 1 + r.1);
    IterateAdd(start, steps, 1);
  }

  /**
   The inner loop of `collatz_no_memoization` for one start value. The
   source keeps nothing but the final value; `passes` counts the loop passes,
   which is the work the fused strategy saves.
   */
  method RunToOne(start: int, d: Division, m: Multiplication) returns (value: int, passes: nat)
    requires start >= 1 && Reaches(start)
    ensures value == 1
    ensures passes <= StepCount(start) <= 2 * passes
    ensures m == ThreeNPlusOne ==> passes == StepCount(start)
  {
    value := start;
    passes := 0;
    ghost var steps: nat := 0;
    while value != 1
      invariant value >= 1
      invariant value == Iterate(start, steps)
      invariant steps <= StepCount(start)
      invariant passes <= steps <= 2 * passes
      invariant m == ThreeNPlusOne ==> steps == passes
      decreases StepCount(start) - steps
    {
      ghost var extra := Pass(m, d, value).1;
      PassAdvances(m, d, start, steps);
      if value % 2 == 0 {
        value := Halve(d, value);
      } else {
        value := Multiply(m, d, value).0;
      }
      steps := steps + 1 + extra;
      passes := passes + 1;
    }
  }

  /**
   `collatz_no_memoization`: drive every start value 1..maxValue down to 1.
   The source returns nothing; here the pass count of each start value is
   returned, at index `start - 1`.
   */
  method CollatzNoMemoization(maxValue: int, d: Division, m: Multiplication) returns (passes: seq<nat>)
    requires forall i :: 1 <= i <= maxValue ==> Reaches(i)
    ensures |passes| == if maxValue < 1 then 0 else maxValue
    ensures forall j :: 0 <= j < |passes| ==> passes[j] <= StepCount(j + 1) <= 2 * passes[j]
    ensures m == ThreeNPlusOne ==> forall j :: 0 <= j < |passes| ==> passes[j] == StepCount(j + 1)
  {
    passes := [];
    var i := 1;
    while i <= maxValue
      invariant 1 <= i && (i <= maxValue + 1 || i == 1)
      invariant |passes| == i - 1
      invariant forall j :: 0 <= j < |passes| ==> passes[j] <= StepCount(j + 1) <= 2 * passes[j]
      invariant m == ThreeNPlusOne ==> forall j :: 0 <= j < |passes| ==> passes[j] == StepCount(j + 1)
      decreases maxValue - i
    {
      var value, n := RunToOne(i, d, m);
      passes := passes + [n];
      i := i + 1;
    }
  }

  /** The table the memoising runner should build: each start value's true step count. */
  ghost function CollatzTable(maxValue: int): (t: map<int, nat>)
    requires forall i :: 1 <= i <= maxValue ==> Reaches(i)
    ensures forall i :: i in t <==> 1 <= i <= maxValue
    ensures forall i :: i in t ==> StepsIs(i, t[i])
  {
    map i | 1 <= i <= maxValue :: StepCount(i)
  }

  /**
   `collatz_memoization`: the table from each start value 1..maxValue to its
   step count, built in increasing order of start value. A lookup hit on the
   current value adds its stored count and ends that start value's loop.
   The source keeps the table in a local variable; here it is returned.
   The table is the true one whichever strategies are chosen.
   */
  method CollatzMemoization(maxValue: int, d: Division, m: Multiplication) returns (lookup: map<int, nat>)
    requires forall i :: 1 <= i <= maxValue ==> Reaches(i)
    ensures lookup == CollatzTable(maxValue)
    ensures forall i :: i in lookup <==> 1 <= i <= maxValue
    ensures maxValue >= 1 ==> lookup[1] == 0
  {
    lookup := map[];
    var i := 1;
    while i <= maxValue
      invariant 1 <= i && (i <= maxValue + 1 || i == 1)
      invariant forall j :: j in lookup <==> 1 <= j < i
      invariant forall j :: j in lookup ==> lookup[j] == StepCount(j)
      decreases maxValue - i
    {
      var value := i;
      var steps: nat := 0;
      while value != 1
        invariant value >= 1
        invariant value == Iterate(i, steps)
        invariant steps <= StepCount(i)
        decreases StepCount(i) - steps
      {
        var lastVal := value;
        if value !in lookup {
          PassAdvances(m, d, i, steps);
          if value % 2 == 0 {
            value := Halve(d, value);
          } else {
            var (next, extraStep) := Multiply(m, d, value);
            value := next;
            steps := steps + extraStep;
          }
          steps := steps + 1;
        } else {
          StepCountSuffix(i, steps);
          steps := steps + lookup[lastVal];
          break;
        }
      }
      lookup := lookup[i := steps];
      i := i + 1;
    }
    StepCountOne();
  }
}

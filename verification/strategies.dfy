/**
 The interchangeable pieces the runners are built from: how an even value is
 halved (the division strategy) and how an odd value is advanced (the
 multiplication strategy, which may fold the following halving into the same
 loop pass).

 The command line picks one of each once, before the computation starts; here
 that choice is a pair of enumerations passed to the runners.
 */
module Strategies {
  import opened CollatzSequence

  /** `simple_division_by_2` (Python `/`, a float) or `bitwise_division_by_2` (`>> 1`). */
  datatype Division = Simple | Bitwise

  /**
   `default_multiply` (3n+1, no extra step) or
   `single_step_multiply_and_divide` (halve 3n+1 at once, one extra step).
   */
  datatype Multiplication = ThreeNPlusOne | MultiplyAndHalve

  /**
   Python `value / 2`: true division. The result is a float in the source;
   it is modelled as the exact real quotient (rounding is not modelled).
   */
  function SimpleDivisionBy2(value: int): (r: real)
    ensures 2.0 * r == value as real
  {
    value as real / 2.0
  }

  /**
   Python `value >> 1` on an unbounded int: an arithmetic shift, which rounds
   towards minus infinity. Dafny's `/` by a positive divisor rounds the same way.
   */
  function BitwiseDivisionBy2(value: int): (r: int)
    ensures 2 * r <= value < 2 * r + 2
    ensures value % 2 == 0 ==> 2 * r == value
  {
    value / 2
  }

  /** On even values the two division strategies agree, and both are Collatz steps. */
  lemma DivisionStrategiesAgree(value: int)
    requires value % 2 == 0
    ensures SimpleDivisionBy2(value) == BitwiseDivisionBy2(value) as real
    ensures BitwiseDivisionBy2(value) == Step(value)
  {
  }

  /**
   The integer model of a division strategy is exact where the strategy
   yields an integer: everywhere for the shift, on even values for `/`.
   */
  predicate Integral(d: Division, value: int) {
    d == Bitwise || value % 2 == 0
  }

  /** Calling the selected `division_method` on a value. */
  function Halve(d: Division, value: int): (r: int)
    requires Integral(d, value)
    ensures 2 * r <= value < 2 * r + 2
    ensures d == Simple ==> r as real == SimpleDivisionBy2(value)
    ensures value % 2 == 0 ==> r == Step(value)
  {
    match d
    case Simple => SimpleDivisionBy2(value).Floor
    case Bitwise => BitwiseDivisionBy2(value)
  }

  /**
   `default_multiply(value, _)`: 3n+1 with no extra step. On an odd value this
   is one Collatz step, and on a positive odd value it lands on an even value
   of at least 4, so it never ends the sequence.
   */
  function DefaultMultiply(value: int): (r: (int, nat))
    ensures r.1 == 0
    ensures r.0 % 2 == 0 <==> value % 2 == 1
    ensures value % 2 == 1 ==> r.0 == Step(value)
    ensures value >= 1 ==> r.0 >= 4
  {
    (3 * value + 1, 0)
  }

  /**
   `single_step_multiply_and_divide(value, division_method)`: 3n+1 halved in
   the same call, reporting one extra step. On an odd value that is two
   Collatz steps at once.
   */
  function SingleStepMultiplyAndDivide(d: Division, value: int): (r: (int, nat))
    requires Integral(d, 3 * value + 1)
    ensures r.1 == 1
    ensures value % 2 == 1 ==> r.0 == Iterate(value, 2)
    ensures value % 2 == 1 && value >= 1 ==> r.0 >= 2
  {
    (Halve(d, 3 * value + 1), 1)
  }

  /**
   The fused strategy is the default one followed by one halving step, and
   it counts one step more; which division strategy does the halving makes no
   difference.
   */
  lemma FusedIsMultiplyThenHalve(d: Division, value: int)
    requires value % 2 == 1
    ensures SingleStepMultiplyAndDivide(d, value).0 == Step(DefaultMultiply(value).0)
    ensures SingleStepMultiplyAndDivide(d, value).1 == DefaultMultiply(value).1 + 1
    ensures SingleStepMultiplyAndDivide(d, value) == SingleStepMultiplyAndDivide(Simple, value)
  {
  }

  /** Calling the selected `multiplication_method(value, division_method)`. */
  function Multiply(m: Multiplication, d: Division, value: int): (r: (int, nat))
    requires m == MultiplyAndHalve ==> Integral(d, 3 * value + 1)
    ensures r.1 <= 1
    ensures r.1 == 1 <==> m == MultiplyAndHalve
    ensures value % 2 == 1 ==> r.0 == Iterate(value, 1 + r.1)
  {
    match m
    case ThreeNPlusOne => DefaultMultiply(value)
    case MultiplyAndHalve => SingleStepMultiplyAndDivide(d, value)
  }
}

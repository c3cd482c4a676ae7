# Collatz engine, modelled in Dafny

This project models the computation engine of a small Collatz benchmark
(`collatz.py`). For every start value from 1 up to a bound, the engine follows
the Collatz sequence down to 1. It can be configured in three ways:

- **Division strategy.** An even value is halved either with Python true
  division `/` (`simple_division_by_2`) or with a right shift `>> 1`
  (`bitwise_division_by_2`).
- **Multiplication strategy.** An odd value becomes `3n+1` (`default_multiply`).
  Alternatively, `3n+1` is halved in the same loop pass and one extra step is
  reported (`single_step_multiply_and_divide`).
- **Runner.** `collatz_no_memoization` runs each start value from scratch.
  `collatz_memoization` builds a table from start value to step count, in
  increasing order of start value. Before each transformation it looks the
  current value up in the table. On a hit it adds the stored count and stops.

The main result is about the memoising runner. Under any choice of strategies,
the table it builds has exactly the keys `1..maxValue`. Each entry equals the
true Collatz step count of its key.

Files, one module each:

- `collatz_sequence.dfy` (`CollatzSequence`): the mathematics of the
  sequence. It defines the Collatz step, k-fold iteration (`Iterate`),
  `StepsIs(n, k)` ("after exactly k transitions n is 1, and not before"),
  `Reaches` and the ghost `StepCount`, with the lemmas the runners need. It
  also proves the two worked examples: 6 takes 8 transitions and 27 takes
  111 (`StepCountSix`, `StepCountTwentySeven`).
- `strategies.dfy` (`Strategies`): the two division strategies and the two
  multiplication strategies. The command-line choice becomes the enumerations
  `Division` and `Multiplication`, and `Halve` and `Multiply` dispatch on them.
- `runners.dfy` (`Runners`): one loop pass (`Pass`), the inner loop of the
  non-memoising runner (`RunToOne`), both batch runners, and the reference
  table `CollatzTable`.

Terminating on every start value is the Collatz conjecture. So both runners
take as a precondition that every start value in the batch reaches 1. Their
loops decrease the number of transitions still to go.

Both batch runners use the inclusive range `1..maxValue`, as `range(1,
max_value + 1)` does in the code. A bound below 1 gives an empty batch.

The source returns nothing from either runner. Here, `CollatzMemoization`
returns the table that the source keeps in the local variable `lookup`.
`CollatzNoMemoization` returns the number of inner-loop passes for each start
value. The source's loop computes these passes but never counts them. The
count is the work that the fused strategy saves.

## Model

| member | source | states |
|---|---|---|
| Strategies.SimpleDivisionBy2 | collatz.py:5-6 | true division by 2: twice the (real) result is the input |
| Strategies.BitwiseDivisionBy2 | collatz.py:9-10 | the shift rounds down: `2r <= v < 2r + 2` for every integer, and `2r == v` exactly when v is even |
| Strategies.DivisionStrategiesAgree | collatz.py:5-10 | on an even value, `/` and `>> 1` give the same number, and it is the Collatz step of that value |
| Strategies.Halve | collatz.py:25-26 | whichever division strategy is selected, the result is the floor of half the value; under `/` it equals the true quotient; on an even value it is the Collatz step |
| Strategies.DefaultMultiply | collatz.py:13-14 | returns 3n+1 with extra-step count 0; the result is even exactly when n is odd; on odd n it is one Collatz step; for n >= 1 it is at least 4, so never the terminal 1 |
| Strategies.SingleStepMultiplyAndDivide | collatz.py:17-18 | reports one extra step; on odd n the value returned is two Collatz steps ahead (`Iterate(n, 2)`), and at least 2 for positive odd n |
| Strategies.FusedIsMultiplyThenHalve | collatz.py:13-18 | the fused strategy equals the default one followed by one Collatz halving step, with one more step counted, and does not depend on the division strategy |
| Strategies.Multiply | collatz.py:42-44 | the selected multiplication strategy reports an extra step (exactly 1) iff it is the fused one, and on an odd value lands exactly `1 + extra` Collatz steps ahead |
| Runners.Pass | collatz.py:25-28 | one inner-loop pass advances exactly `1 + extra` Collatz steps; extra is 1 iff the value is odd and the fused strategy is selected; positive values stay positive; a fused pass skips a value that is not 1 |
| Runners.PassAdvances | collatz.py:40-45 | from the value after s transitions (not yet 1), one pass lands on the value after `s + 1 + extra` transitions, never past the step count |
| Runners.RunToOne | collatz.py:23-28 | the inner loop exits only with value 1; it takes exactly as many passes as the step count under `default_multiply`, and between half the step count and the step count under the fused strategy |
| Runners.CollatzNoMemoization | collatz.py:21-28 | covers start values 1..maxValue inclusive (one entry per start value, none when maxValue < 1), each run to 1 with the pass bounds above |
| Runners.CollatzTable | collatz.py:31-50 | the intended table: keys exactly 1..maxValue, each value the step count of its key |
| Runners.CollatzMemoization | collatz.py:31-50 | the returned `lookup` equals the true step-count table for 1..maxValue, whichever division and multiplication strategies are chosen; its keys are exactly 1..maxValue; `lookup[1] == 0` |
| CollatzSequence.StepCountOne | collatz.py:36-37 | 1 reaches itself in zero transitions, which is why the first start value is recorded with 0 steps |
| CollatzSequence.StepCountSuffix | collatz.py:46-48 | after s transitions (s at most the step count) the value reached has step count `StepCount(n) - s`: a memo hit adds exactly what is missing |
| CollatzSequence.StepCountRecurrence | collatz.py:40-45 | away from 1, n reaches 1 iff its Collatz step does, with one transition more: each plain pass adds one step |

## Left out

- `simple_division_by_2` returns a Python float. It is modelled as the exact
  real quotient, and `Halve` takes its integer value. Float rounding is not
  modelled: above 2^53 a float no longer holds every integer exactly.
- Strategies.Halve: requires an even value under true division, because an
  odd value would give a non-integer float. Neither runner ever halves an odd
  value.
- Strategies.SingleStepMultiplyAndDivide: for the same reason, requires
  `3n+1` to be even (that is, n odd) under true division.
- Termination of the inner loops is not proved. It is the Collatz conjecture.
  Both runners instead require every start value in the batch to reach 1.
- Runners.CollatzNoMemoization: the source returns nothing. The pass counts
  it returns here are an added observation.
- The command line (argument parsing, flag groups and the choice of
  functions, collatz.py:53-89) is configuration glue. The strategy choice is
  modelled as the `Division` and `Multiplication` parameters.
- The wall-clock timing and the final print (collatz.py:91-96) are I/O and a
  clock reading, and are not modelled.

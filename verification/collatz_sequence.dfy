/**
 The Collatz sequence as mathematics: one step, k-fold iteration, and the
 step count of a start value (the number of transitions until the value
 first becomes 1).

 Whether every positive start value reaches 1 is the Collatz conjecture, so
 the step count is only defined for values that are known to reach 1
 (`Reaches`). Everything that loops until 1 takes that as a precondition.
 */
module CollatzSequence {

  /** One Collatz transition: halve an even value, map an odd one to 3n+1. */
  function Step(n: int): int {
    if n % 2 == 0 then n / 2 else 3 * n + 1
  }

  /** `Step` applied k times. */
  function Iterate(n: int, k: nat): int
    decreases k
  {
    if k == 0 then n else Iterate(Step(n), k - 1)
  }

  /** After exactly k transitions n is 1, and not before. */
  ghost predicate StepsIs(n: int, k: nat) {
    && Iterate(n, k) == 1
    && forall j :: 0 <= j < k ==> Iterate(n, j) != 1
  }

  /** The sequence from n reaches 1. */
  ghost predicate Reaches(n: int) {
    exists k: nat :: StepsIs(n, k)
  }

  /** The true step count of a start value that reaches 1. */
  ghost function StepCount(n: int): (k: nat)
    requires Reaches(n)
    ensures StepsIs(n, k)
  {
    var k: nat :| StepsIs(n, k); k
  }

  /** At most one k is the step count: the first visit to 1 is unique. */
  lemma StepsIsUnique(n: int, k1: nat, k2: nat)
    requires StepsIs(n, k1) && StepsIs(n, k2)
    ensures k1 == k2
  {
  }

  /** Iterating a + b times is iterating a times, then b times. */
  lemma {:induction false} IterateAdd(n: int, a: nat, b: nat)
    ensures Iterate(n, a + b) == Iterate(Iterate(n, a), b)
    decreases a
  {
    if a > 0 {
      IterateAdd(Step(n), a - 1, b);
    }
  }

  /** The sequence from a positive value stays positive. */
  lemma {:induction false} IteratePositive(n: int, k: nat)
    requires n >= 1
    ensures Iterate(n, k) >= 1
    decreases k
  {
    if k > 0 {
      IteratePositive(Step(n), k - 1);
    }
  }

  /** 1 is the terminal value: it reaches itself in zero steps. */
  lemma StepCountOne()
    ensures Reaches(1) && StepCount(1) == 0
  {
    assert StepsIs(1, 0);
    StepsIsUnique(1, 0, StepCount(1));
  }

  /**
   What memoisation relies on: after s transitions (s no more than the step
   count) the value reached still reaches 1, and its own step count is what
   remains of the start value's.
   */
  lemma {:induction false} StepCountSuffix(n: int, s: nat)
    requires Reaches(n) && s <= StepCount(n)
    ensures Reaches(Iterate(n, s))
    ensures StepCount(Iterate(n, s)) == StepCount(n) - s
  {
    var k := StepCount(n);
    var v := Iterate(n, s);
    IterateAdd(n, s, k - s);
    forall j | 0 <= j < k - s
      ensures Iterate(v, j) != 1
    {
      IterateAdd(n, s, j);
    }
    assert StepsIs(v, k - s);
    StepsIsUnique(v, k - s, StepCount(v));
  }

  /** Prefixing a transition: if Step(n) reaches 1 in k steps and n is not 1, n does in k + 1. */
  lemma StepsIsPrefix(n: int, k: nat)
    requires n != 1 && StepsIs(Step(n), k)
    ensures StepsIs(n, k + 1)
  {
    forall j | 0 <= j < k + 1
      ensures Iterate(n, j) != 1
    {
      if j > 0 {
        assert Iterate(n, j) == Iterate(Step(n), j - 1);
      }
    }
  }

  /**
   The step-count recurrence: away from 1, n reaches 1 exactly when Step(n)
   does, and it takes one transition more.
   */
  lemma StepCountRecurrence(n: int)
    requires n != 1
    ensures Reaches(n) <==> Reaches(Step(n))
    ensures Reaches(n) ==> StepCount(n) == StepCount(Step(n)) + 1
  {
    if Reaches(n) {
      StepCountSuffix(n, 1);
    } else if Reaches(Step(n)) {
      StepsIsPrefix(n, StepCount(Step(n)));
      assert false;
    }
  }

  /** The first a values of the sequence from n (n itself included) are all different from 1. */
  function AvoidsOne(n: int, a: nat): bool
    decreases a
  {
    a == 0 || (n != 1 && AvoidsOne(Step(n), a - 1))
  }

  /**
   Walking a transitions that avoid 1 towards a value that reaches 1: the
   start reaches 1 too, a transitions later.
   */
  lemma {:induction false} StepCountAlong(n: int, a: nat)
    requires AvoidsOne(n, a) && Reaches(Iterate(n, a))
    ensures Reaches(n) && StepCount(n) == a + StepCount(Iterate(n, a))
    decreases a
  {
    if a > 0 {
      StepCountAlong(Step(n), a - 1);
      StepCountRecurrence(n);
    }
  }

  /** 6, 3, 10, 5, 16, 8, 4, 2, 1: eight transitions. */
  lemma StepCountSix()
    ensures Reaches(6) && StepCount(6) == 8
  {
    StepCountOne();
    assert AvoidsOne(16, 4) && Iterate(16, 4) == 1;
    StepCountAlong(16, 4);
    assert AvoidsOne(6, 4) && Iterate(6, 4) == 16;
    StepCountAlong(6, 4);
  }

  /*
   The sequence from 27, five transitions at a time: 27, 31, 214, 242, 274,
   310, 350, 395, 445, 502, 566, 638, 719, 4858, 911, 6154, 1154, 1300, 244,
   46, 53, 10, 2, and one more transition to 1. Each quarter of the way has
   one lemma that evaluates its stretches and one that counts along them,
   so that every proof stays small.
   */
  lemma StretchesFrom244()
    ensures AvoidsOne(244, 5) && Iterate(244, 5) == 46 &&
            AvoidsOne(46, 5) && Iterate(46, 5) == 53 &&
            AvoidsOne(53, 5) && Iterate(53, 5) == 10 &&
            AvoidsOne(10, 5) && Iterate(10, 5) == 2 &&
            AvoidsOne(2, 1) && Iterate(2, 1) == 1
  {
  }

  lemma StepCountOf244()
    ensures Reaches(244) && StepCount(244) == 21
  {
    StepCountOne();
    StretchesFrom244();
    StepCountAlong(2, 1);
    StepCountAlong(10, 5);
    StepCountAlong(53, 5);
    StepCountAlong(46, 5);
    StepCountAlong(244, 5);
  }

  lemma StretchesFrom719()
    ensures AvoidsOne(719, 5) && Iterate(719, 5) == 4858 &&
            AvoidsOne(4858, 5) && Iterate(4858, 5) == 911 &&
            AvoidsOne(911, 5) && Iterate(911, 5) == 6154 &&
            AvoidsOne(6154, 5) && Iterate(6154, 5) == 1154 &&
            AvoidsOne(1154, 5) && Iterate(1154, 5) == 1300 &&
            AvoidsOne(1300, 5) && Iterate(1300, 5) == 244
  {
  }

  lemma StepCountOf719()
    ensures Reaches(719) && StepCount(719) == 51
  {
    StepCountOf244();
    StretchesFrom719();
    StepCountAlong(1300, 5);
    StepCountAlong(1154, 5);
    StepCountAlong(6154, 5);
    StepCountAlong(911, 5);
    StepCountAlong(4858, 5);
    StepCountAlong(719, 5);
  }

  lemma StretchesFrom350()
    ensures AvoidsOne(350, 5) && Iterate(350, 5) == 395 &&
            AvoidsOne(395, 5) && Iterate(395, 5) == 445 &&
            AvoidsOne(445, 5) && Iterate(445, 5) == 502 &&
            AvoidsOne(502, 5) && Iterate(502, 5) == 566 &&
            AvoidsOne(566, 5) && Iterate(566, 5) == 638 &&
            AvoidsOne(638, 5) && Iterate(638, 5) == 719
  {
  }

  lemma StepCountOf350()
    ensures Reaches(350) && StepCount(350) == 81
  {
    StepCountOf719();
    StretchesFrom350();
    StepCountAlong(638, 5);
    StepCountAlong(566, 5);
    StepCountAlong(502, 5);
    StepCountAlong(445, 5);
    StepCountAlong(395, 5);
    StepCountAlong(350, 5);
  }

  lemma StretchesFrom27()
    ensures AvoidsOne(27, 5) && Iterate(27, 5) == 31 &&
            AvoidsOne(31, 5) && Iterate(31, 5) == 214 &&
            AvoidsOne(214, 5) && Iterate(214, 5) == 242 &&
            AvoidsOne(242, 5) && Iterate(242, 5) == 274 &&
            AvoidsOne(274, 5) && Iterate(274, 5) == 310 &&
            AvoidsOne(310, 5) && Iterate(310, 5) == 350
  {
  }

  /** The long-standing regression value: 27 takes 111 transitions. */
  lemma StepCountTwentySeven()
    ensures Reaches(27) && StepCount(27) == 111
  {
    StepCountOf350();
    StretchesFrom27();
    StepCountAlong(310, 5);
    StepCountAlong(274, 5);
    StepCountAlong(242, 5);
    StepCountAlong(214, 5);
    StepCountAlong(31, 5);
    StepCountAlong(27, 5);
  }
}

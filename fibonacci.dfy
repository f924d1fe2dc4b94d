/**
 * examples/fibonacci.rs: one stage, `FibonacciSequence`, that maps a pair
 * `(a, b)` of 32-bit unsigned numbers to `(b, a + b)`, driven by a loop that
 * pushes `(0, 1)`, then twelve times processes, pops the pair and pushes it
 * back, printing the numbers as it goes.
 */
module Fibonacci {
  import opened Wrappers
  import opened Stages

  newtype u32 = x: int | 0 <= x < 0x1_0000_0000

  type Pair = (u32, u32)

  /**
   * The body of `FibonacciSequence` on a received pair. The addition is
   * checked: a sum past the 32-bit range is the overflow panic and yields nothing.
   */
  function Next(pair: Pair): (r: Option<Pair>)
    ensures r.Some? <==> pair.0 as int + pair.1 as int < 0x1_0000_0000
    ensures r.Some? ==> r.value.0 == pair.1 && r.value.1 as int == pair.0 as int + pair.1 as int
  {
    var (a, b) := pair;
    if a as int + b as int < 0x1_0000_0000 then Some((b, a + b)) else None
  }

  /** `FibonacciSequence` as a transform: no configuration, nothing without a received pair. */
  function FibonacciSequence(): (t: Transform<(), Pair, Pair>)
    ensures forall c: () :: t(c, None) == (c, None)
    ensures forall c: (), pair: Pair :: t(c, Some(pair)) == (c, Next(pair))
  {
    (c: (), received: Option<Pair>) => (c, if received.Some? then Next(received.value) else None)
  }

  /** The Fibonacci numbers: 0, 1, 1, 2, 3, 5, … */
  function Fib(n: nat): nat
  {
    if n < 2 then n else Fib(n - 2) + Fib(n - 1)
  }

  /** The Fibonacci numbers never decrease. */
  lemma {:induction false} FibMonotone(n: nat, m: nat)
    requires n <= m
    ensures Fib(n) <= Fib(m)
    decreases m - n
  {
    if n < m {
      FibMonotone(n, m - 1);
      assert Fib(m - 1) <= Fib(m) by {
        if m >= 2 {
          assert Fib(m) == Fib(m - 2) + Fib(m - 1);
        }
      }
    }
  }

  /** Up to the fourteenth, every Fibonacci number is at most 377, far inside 32 bits. */
  lemma FibSmall(n: nat)
    requires n <= 14
    ensures Fib(n) <= 377
  {
    FibMonotone(n, 14);
    assert Fib(14) == 377;
  }

  /** The pair `(F(n), F(n + 1))`, for the `n` the example reaches. */
  function FibPair(n: nat): (p: Pair)
    requires n <= 13
    ensures p.0 as int == Fib(n) && p.1 as int == Fib(n + 1)
  {
    FibSmall(n);
    FibSmall(n + 1);
    (Fib(n) as u32, Fib(n + 1) as u32)
  }

  /** The step moves one place along the sequence: `(F(n), F(n + 1))` becomes `(F(n + 1), F(n + 2))`. */
  lemma NextFibPair(n: nat)
    requires n <= 12
    ensures Next(FibPair(n)) == Some(FibPair(n + 1))
  {
    FibSmall(n + 2);
    assert Fib(n + 2) == Fib(n) + Fib(n + 1);
  }

  /** One `process` of the stage with one pair queued: the pair is consumed and its successor output. */
  lemma ProcessOnePair(pair: Pair)
    requires Next(pair).Some?
    ensures Step(FibonacciSequence(), StageState((), [pair], [])) == (StageState((), [], [Next(pair).value]), true)
  {
    var t := FibonacciSequence();
    assert t((), None) == ((), None);
    assert t((), Some(pair)) == ((), Next(pair));
  }

  /** What `main` prints after `i` iterations: nothing at first, then F(1) up to F(i + 1). */
  function Printed(i: nat): (printed: seq<nat>)
    ensures |printed| == if i == 0 then 0 else i + 1
  {
    if i == 0 then [] else seq(i + 1, k requires 0 <= k => Fib(k + 1))
  }

  /**
   * `main`: push `(0, 1)`; twelve times process, pop `(a, b)`, print `a` on the
   * first round and `b` on every round, and push `(a, b)` back. Every pop
   * succeeds, the numbers printed are F(1) to F(13), and the stage is left
   * holding `(F(12), F(13))`.
   */
  method Run() returns (printed: seq<nat>, stage: Stage<(), Pair, Pair>)
    ensures printed == Printed(12) && printed == seq(13, k requires 0 <= k => Fib(k + 1))
    ensures stage.State() == StageState((), [FibPair(12)], [])
  {
    stage := new Stage<(), Pair, Pair>((), FibonacciSequence());
    stage.Push((0, 1));
    assert stage.inbox == [FibPair(0)];
    printed := [];
    for i := 0 to 12
      invariant stage.transform == FibonacciSequence()
      invariant stage.State() == StageState((), [FibPair(i)], [])
      invariant printed == Printed(i)
    {
      NextFibPair(i);
      ProcessOnePair(FibPair(i));
      var _ := stage.Process();
      var numbers := stage.TryPop();
      // The `if let Some(numbers)` of `main` always matches: the pop finds the pair just processed.
      assert numbers == Some(FibPair(i + 1));
      var (a, b) := numbers.value;
      if i == 0 {
        printed := printed + [a as nat];
      }
      printed := printed + [b as nat];
      stage.Push((a, b));
    }
  }
}

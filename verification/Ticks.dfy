/** The tick counter: a value of unknown width that wraps, read against unbounded time. */
module Ticks {

  import Modular

  /** The number of tick values; the largest of them stands for "no deadline". */
  type TickModulus = n: nat | 2 <= n witness 2
  const MODULUS: TickModulus
  const MAX_DELAY: nat := MODULUS - 1

  /** What the counter shows at an instant. */
  function Shown(time: nat): (tick: nat)
    ensures tick < MODULUS
  {
    time % MODULUS
  }

  function WrappingAdd(a: nat, b: nat): (r: nat)
    requires a < MODULUS && b < MODULUS
    ensures r < MODULUS
  {
    if a + b < MODULUS then a + b else a + b - MODULUS
  }

  function WrappingSub(a: nat, b: nat): (r: nat)
    requires a < MODULUS && b < MODULUS
    ensures r < MODULUS
  {
    if a >= b then a - b else a + MODULUS - b
  }

  predicate EpochStart(start: nat) { start % MODULUS == 0 }

  /** Within an epoch the counter shows the distance from its start, and one epoch on likewise. */
  lemma ShownIn(start: nat, time: nat)
    requires EpochStart(start) && start <= time < start + 2 * MODULUS
    ensures Shown(time) == if time < start + MODULUS then time - start else time - start - MODULUS
  {
    var q := start / MODULUS;
    assert start == q * MODULUS;
    if time < start + MODULUS {
      Modular.DivModUnique(time, MODULUS, q, time - start);
    } else {
      assert (q + 1) * MODULUS == q * MODULUS + MODULUS;
      Modular.DivModUnique(time, MODULUS, q + 1, time - start - MODULUS);
    }
  }

  /** Which epoch, counted from zero. */
  lemma EpochIndex(start: nat, time: nat)
    requires EpochStart(start) && start <= time < start + 2 * MODULUS
    ensures time / MODULUS == start / MODULUS + (if time < start + MODULUS then 0 else 1)
  {
    var q := start / MODULUS;
    assert start == q * MODULUS;
    if time < start + MODULUS {
      Modular.DivModUnique(time, MODULUS, q, time - start);
    } else {
      assert (q + 1) * MODULUS == q * MODULUS + MODULUS;
      Modular.DivModUnique(time, MODULUS, q + 1, time - start - MODULUS);
    }
  }

  /** Every instant is in an epoch. */
  lemma EpochOf(time: nat) returns (start: nat)
    ensures EpochStart(start) && start <= time < start + MODULUS && Shown(time) == time - start
  {
    var q := time / MODULUS;
    start := q * MODULUS;
    Modular.DivModUnique(start, MODULUS, q, 0);
    ShownIn(start, time);
  }

  lemma Multiples(k: int, d: int)
    requires d > 0
    ensures k >= 2 ==> k * d >= 2 * d
    ensures k <= -1 ==> k * d <= -d
    ensures k == 1 ==> k * d == d
  {}

  /** Instants less than a turn apart are in the same epoch or in neighbouring ones. */
  lemma EpochsApart(a: nat, b: nat, x: nat, y: nat)
    requires EpochStart(a) && EpochStart(b) && a <= x < a + MODULUS && b <= y < b + MODULUS && x <= y < x + MODULUS
    ensures b == a || b == a + MODULUS
  {
    var p, q := a / MODULUS, b / MODULUS;
    assert a == p * MODULUS && b == q * MODULUS;
    assert b - a == (q - p) * MODULUS;
    Multiples(q - p, MODULUS);
  }

  lemma NextEpochStart(start: nat)
    requires EpochStart(start)
    ensures EpochStart(start + MODULUS)
  {
    ShownIn(start, start + MODULUS);
  }

  /** Adding less than a turn to what the counter shows is what it shows later. */
  lemma ShownLater(time: nat, ticks: nat)
    requires ticks < MODULUS
    ensures Shown(time + ticks) == WrappingAdd(Shown(time), ticks)
  {
    var start := EpochOf(time);
    ShownIn(start, time + ticks);
  }

  /** Less than a turn apart, the difference shown is the difference. */
  lemma ShownApart(earlier: nat, later: nat)
    requires earlier <= later < earlier + MODULUS
    ensures WrappingSub(Shown(later), Shown(earlier)) == later - earlier
  {
    ShownLater(earlier, later - earlier);
  }
}

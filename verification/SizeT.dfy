/** The 64-bit size arithmetic the containers rely on: powers of two, the doubling loops of the
    ring buffer and the unsigned countdown index of the table sweeps. */
module SizeT {

  /** Number of values of a 64-bit size_t. */
  const LIMIT: nat := 0x1_0000_0000_0000_0000

  /** Number of values of the uint32_t through which a send size is passed. */
  const LIMIT32: nat := 0x1_0000_0000

  function Max(a: nat, b: nat): nat { if a > b then a else b }

  function Min(a: nat, b: nat): nat { if a > b then b else a }

  /** `--i` on a size_t: 0 becomes the largest size_t. */
  function Pred(i: nat): nat { if i == 0 then LIMIT - 1 else i - 1 }

  function Pow2(k: nat): (r: nat)
    ensures r >= 1
  {
    if k == 0 then 1 else 2 * Pow2(k - 1)
  }

  ghost predicate IsPow2(n: nat) {
    exists k: nat :: n == Pow2(k)
  }

  /** Doubling a size_t: the top bit is lost. */
  function Twice(c: nat): nat { (2 * c) % LIMIT }

  /** The value of the loop variable after k rounds of `c = c * 2`. */
  function Doubled(c: nat, k: nat): nat {
    if k == 0 then c else Twice(Doubled(c, k - 1))
  }

  /** The loop `while (c < target) c = c * 2` leaves after finitely many rounds. */
  ghost predicate DoublingStops(c: nat, target: nat) {
    exists k: nat :: Doubled(c, k) >= target
  }

  /** The value on which the doubling loop stops when no round overflows. */
  function Fit(c: nat, target: nat): (r: nat)
    requires c > 0
    ensures r >= target && r >= c
    ensures r == c || r < 2 * target
    decreases target - c
  {
    if c >= target then c else Fit(2 * c, target)
  }

  lemma {:induction false} Pow2Strict(j: nat, k: nat)
    requires j < k
    ensures 2 * Pow2(j) <= Pow2(k)
  {
    if j + 1 < k { Pow2Strict(j, k - 1); }
  }

  /** A power of two above another one is at least its double. */
  lemma Pow2Gap(a: nat, b: nat)
    requires IsPow2(a) && IsPow2(b) && a < b
    ensures 2 * a <= b
  {
    var j: nat :| a == Pow2(j);
    var k: nat :| b == Pow2(k);
    if k <= j {
      if k < j { Pow2Strict(k, j); }
      assert false;
    }
    Pow2Strict(j, k);
  }

  lemma Pow2Twice(a: nat)
    requires IsPow2(a)
    ensures IsPow2(2 * a)
  {
    var j: nat :| a == Pow2(j);
    assert 2 * a == Pow2(j + 1);
  }

  lemma Pow2One()
    ensures IsPow2(1)
  {
    assert 1 == Pow2(0);
  }

  lemma Half()
    ensures IsPow2(LIMIT / 2)
  {
    Pow2Seven(0); Pow2Seven(7); Pow2Seven(14); Pow2Seven(21); Pow2Seven(28);
    Pow2Seven(35); Pow2Seven(42); Pow2Seven(49); Pow2Seven(56);
    assert Pow2(63) == LIMIT / 2;
  }

  lemma Pow2Seven(k: nat)
    ensures Pow2(k + 7) == 128 * Pow2(k)
  {
    assert Pow2(k + 7) == 2 * Pow2(k + 6);
    assert Pow2(k + 6) == 2 * Pow2(k + 5);
    assert Pow2(k + 5) == 2 * Pow2(k + 4);
    assert Pow2(k + 4) == 2 * Pow2(k + 3);
    assert Pow2(k + 3) == 2 * Pow2(k + 2);
    assert Pow2(k + 2) == 2 * Pow2(k + 1);
  }

  /** Below 2^63 doubling a power of two is exact. */
  lemma TwiceExact(c: nat)
    requires IsPow2(c) && c < LIMIT / 2
    ensures Twice(c) == 2 * c <= LIMIT / 2 && IsPow2(2 * c)
  {
    Half();
    Pow2Gap(c, LIMIT / 2);
    Pow2Twice(c);
  }

  /** The doubling loop stops on the least power of two that reaches the target. */
  lemma {:induction false} FitLeast(c: nat, target: nat, m: nat)
    requires IsPow2(c) && IsPow2(m) && m >= c && m >= target
    ensures IsPow2(Fit(c, target)) && Fit(c, target) <= m
    decreases target - c
  {
    if c < target {
      Pow2Gap(c, m);
      Pow2Twice(c);
      FitLeast(2 * c, target, m);
    }
  }

  /** A power of two that fits a size_t has a double that either fits or is lost entirely. */
  lemma {:induction false} DoubledShape(c: nat, k: nat)
    requires IsPow2(c) && c <= LIMIT / 2
    ensures Doubled(c, k) == 0 || (IsPow2(Doubled(c, k)) && Doubled(c, k) <= LIMIT / 2)
  {
    if k > 0 {
      DoubledShape(c, k - 1);
      var d := Doubled(c, k - 1);
      if d != 0 && d < LIMIT / 2 { TwiceExact(d); }
    }
  }

  /** While no round overflows, the machine loop computes exactly Fit. */
  lemma {:induction false} DoubledReaches(c: nat, target: nat) returns (k: nat)
    requires IsPow2(c) && target <= LIMIT / 2 && c <= LIMIT / 2
    ensures Doubled(c, k) == Fit(c, target)
    ensures forall j: nat :: j < k ==> Doubled(c, j) < target
    decreases target - c
  {
    k := 0;
    if c < target {
      TwiceExact(c);
      var l := DoubledReaches(2 * c, target);
      forall j: nat ensures Doubled(2 * c, j) == Doubled(c, j + 1) { DoubledShift(c, j); }
      k := l + 1;
      forall j: nat | j < k ensures Doubled(c, j) < target {
        if j > 0 { assert Doubled(c, j) == Doubled(2 * c, j - 1); }
      }
    }
  }

  lemma {:induction false} DoubledShift(c: nat, j: nat)
    requires 2 * c < LIMIT
    ensures Doubled(2 * c, j) == Doubled(c, j + 1)
  {
    if j == 0 {
      assert Doubled(c, 1) == Twice(Doubled(c, 0));
    } else {
      DoubledShift(c, j - 1);
    }
  }

  /** The exact condition under which the capacity loops end: the wanted capacity is at most 2^63.
      Above it the counter wraps to zero and stays there. */
  lemma DoublingStopsIff(c: nat, target: nat)
    requires IsPow2(c) && c <= LIMIT / 2
    ensures DoublingStops(c, target) <==> target <= LIMIT / 2
  {
    if target <= LIMIT / 2 {
      var k := DoubledReaches(c, target);
      assert Doubled(c, k) >= target;
    } else {
      forall k: nat ensures Doubled(c, k) < target { DoubledShape(c, k); }
    }
  }
}

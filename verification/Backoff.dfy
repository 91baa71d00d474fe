/**
 Exponential backoff in 64-bit integers.  The jitter is a real between 0.8 and 1.2; floating-point
 rounding is not modelled.  Converting a product outside 64 bits back to an integer gives a value that
 depends on the platform: the parameter `outside` stands for it.
 */
module Backoff {
  import opened Numbers

  const MAX_DELAY: int := 300_000_000_000
  const TWO63: int := 0x8000_0000_0000_0000
  const TWO64: int := 0x1_0000_0000_0000_0000

  function Wrap64(x: int): int {
    (x + TWO63) % TWO64 - TWO63
  }

  /** 1 << k: all bits are shifted out from 64 on. */
  function Shift(k: nat): int {
    if k >= 64 then 0 else Wrap64(Pow2(k))
  }

  /** The backoff before jitter, for n >= 1 failures. */
  function Product(n: int): int
    requires n >= 1
  {
    Wrap64(Shift(n - 1) * SECOND)
  }

  function Truncate(x: real): int {
    if x >= 0.0 then x.Floor else -((-x).Floor)
  }

  function ToInt(x: real, outside: int): int {
    if -(TWO63 as real) <= x < TWO63 as real then Truncate(x) else outside
  }

  predicate Jitter(j: real) {
    0.8 <= j <= 1.2
  }

  function Jittered(n: int, jitter: real): real
    requires n >= 1
  {
    Times(Product(n) as real, jitter)
  }

  function Times(p: real, jitter: real): real {
    p * jitter
  }

  function Capped(x: real, outside: int): int {
    var jittered := ToInt(x, outside);
    if jittered > MAX_DELAY then MAX_DELAY else jittered
  }

  function CalculateBackoff(n: int, jitter: real, outside: int): int {
    if n <= 0 then 0 else Capped(Jittered(n, jitter), outside)
  }

  /** The shortest backoff that n failures are meant to have: 0.8 * 2^(n-1) seconds, at most five minutes. */
  function Least(n: int): int
    requires n >= 1
  {
    if 800_000_000 * Pow2(n - 1) <= MAX_DELAY then 800_000_000 * Pow2(n - 1) else MAX_DELAY
  }

  // ------------------------------------------------------------------------------------------
  // Wrap-around
  // ------------------------------------------------------------------------------------------

  lemma {:induction false} Pow2Grows(a: nat, b: nat)
    requires a <= b
    ensures Pow2(a) <= Pow2(b)
    decreases b - a
  {
    if a < b {
      Pow2Grows(a, b - 1);
    }
  }

  lemma {:induction false} Pow2Sum(a: nat, b: nat)
    ensures Pow2(a + b) == Pow2(a) * Pow2(b)
    decreases b
  {
    if b > 0 {
      Pow2Sum(a, b - 1);
      assert Pow2(a + b) == 2 * Pow2(a + (b - 1));
      assert Pow2(a) * (2 * Pow2(b - 1)) == 2 * (Pow2(a) * Pow2(b - 1));
    }
  }

  lemma {:induction false} Pow2Values()
    ensures Pow2(32) == 0x1_0000_0000 && Pow2(33) == 0x2_0000_0000 && Pow2(64) == TWO64
  {
    assert Pow2(2) == 4 && Pow2(4) == 16 && Pow2(8) == 256;
    Pow2Sum(8, 8);
    Pow2Sum(16, 16);
    Pow2Sum(32, 1);
    Pow2Sum(32, 32);
  }

  lemma {:induction false} WrapSmall(x: int)
    requires -TWO63 <= x < TWO63
    ensures Wrap64(x) == x
  {
  }

  lemma {:induction false} WrapTimes(x: int, c: int)
    ensures Wrap64(Wrap64(x) * c) == Wrap64(x * c)
  {
    var k := (x + TWO63) / TWO64;
    assert Wrap64(x) == x - k * TWO64;
    assert Wrap64(x) * c == x * c - k * c * TWO64;
    WrapShift(x * c, k * c);
  }

  lemma {:induction false} WrapShift(x: int, m: int)
    ensures Wrap64(x - m * TWO64) == Wrap64(x)
  {
    var y, q := x + TWO63, (x + TWO63) / TWO64;
    assert y - m * TWO64 == (q - m) * TWO64 + y % TWO64;
    assert (y - m * TWO64) / TWO64 == q - m;
  }

  lemma {:induction false} ShiftDoubles(k: nat)
    ensures Shift(k + 1) == Wrap64(2 * Shift(k))
  {
    if k < 64 {
      WrapTimes(Pow2(k), 2);
      Pow2Values();
    }
  }

  /** Each failure more doubles the product, up to wrap-around. */
  lemma {:induction false} ProductDoubles(n: int)
    requires n >= 1
    ensures Product(n + 1) == Wrap64(2 * Product(n))
  {
    var x := Shift(n - 1);
    ShiftDoubles(n - 1);
    WrapTimes(2 * x, SECOND);
    WrapTimes(x * SECOND, 2);
    assert 2 * x * SECOND == x * SECOND * 2;
  }

  /** Up to 34 failures nothing wraps. */
  lemma {:induction false} ProductExact(n: int)
    requires 1 <= n <= 34
    ensures Product(n) == Pow2(n - 1) * SECOND
    ensures n <= 33 ==> Pow2(n - 1) <= 0x1_0000_0000
  {
    Pow2Values();
    Pow2Grows(n - 1, 33);
    if n <= 33 {
      Pow2Grows(n - 1, 32);
    }
    WrapSmall(Pow2(n - 1));
    WrapSmall(Pow2(n - 1) * SECOND);
  }

  /** The product from 34 failures on. */
  function Listed(n: int): int {
    if n <= 34 then 8589934592000000000
    else if n == 35 then -1266874889709551616
    else if n == 36 then -2533749779419103232
    else if n == 37 then -5067499558838206464
    else if n == 38 then 8311744956033138688
    else if n == 39 then -1823254161643274240
    else if n == 40 then -3646508323286548480
    else if n == 41 then -7293016646573096960
    else if n == 42 then 3860710780563357696
    else if n == 43 then 7721421561126715392
    else if n == 44 then -3003900951456120832
    else if n == 45 then -6007801902912241664
    else if n == 46 then 6431140267885068288
    else if n == 47 then -5584463537939415040
    else if n == 48 then 7277816997830721536
    else if n == 49 then -3891110078048108544
    else if n == 50 then -7782220156096217088
    else if n == 51 then 2882303761517117440
    else if n == 52 then 5764607523034234880
    else if n == 53 then -6917529027641081856
    else if n == 54 then 4611686018427387904
    else if n == 55 then -9223372036854775808
    else 0
  }

  /** Wrap-around of a doubled 64-bit integer. */
  function Fold(x: int): int {
    if x >= TWO63 then x - TWO64 else if x < -TWO63 then x + TWO64 else x
  }

  lemma {:induction false} WrapFolds(x: int)
    requires -TWO64 <= x < TWO64
    ensures Wrap64(x) == Fold(x)
  {
    WrapShift(x, 1);
    WrapShift(x, -1);
    WrapSmall(Fold(x));
  }

  lemma {:induction false} ListedDoubles(n: int)
    requires n >= 34
    ensures Listed(n + 1) == Fold(2 * Listed(n)) && -TWO63 <= Listed(n) < TWO63
  {
  }

  lemma {:induction false} ProductListed(n: int)
    requires n >= 34
    ensures Product(n) == Listed(n)
    decreases n
  {
    if n == 34 {
      ProductExact(n);
      Pow2Values();
    } else {
      ProductListed(n - 1);
      ProductDoubles(n - 1);
      ListedDoubles(n - 1);
      WrapFolds(2 * Listed(n - 1));
    }
  }

  // ------------------------------------------------------------------------------------------
  // Which counts are safe
  // ------------------------------------------------------------------------------------------

  /** The counts whose product is positive and fits 64 bits under every jitter. */
  predicate Safe(n: int) {
    1 <= n <= 33 || n in {42, 46, 48, 51, 52, 54}
  }

  /** The counts whose product is positive and too large for some jitter. */
  predicate TooLarge(n: int) {
    n in {34, 38, 43}
  }

  /** The counts whose product is not positive and stays in 64 bits under every jitter. */
  predicate Powerless(n: int) {
    n in {35, 36, 37, 39, 40, 41, 44, 45, 47, 49, 53} || n >= 56
  }

  /** The counts whose product is negative and too small for some jitter. */
  predicate TooSmall(n: int) {
    n in {50, 55}
  }

  /** What the product is like from 34 failures on; the jitter 1.199 leaves 64 bits whenever some jitter does. */
  predicate Classified(n: int, p: int) {
    && (Safe(n) || TooLarge(n) || Powerless(n) || TooSmall(n))
    && (Safe(n) ==> 0 < p && 12 * p < 10 * TWO63)
    && (TooLarge(n) ==> 0 < p && 1199 * p >= 1000 * TWO63)
    && (Powerless(n) ==> p <= 0 && 12 * p >= -10 * TWO63)
    && (TooSmall(n) ==> p < 0 && 1199 * p < -1000 * TWO63)
    && (p > 0 ==> 4 * MAX_DELAY <= 3 * p) && (p < 0 ==> p < -10)
  }

  lemma {:induction false} Classify(n: int)
    requires n >= 34
    ensures Classified(n, Product(n))
  {
    ProductListed(n);
    ListIsClassified(n, Listed(n));
  }

  lemma {:induction false} ListIsClassified(n: int, p: int)
    requires n >= 34 && p == Listed(n)
    ensures Classified(n, p)
  {
  }

  lemma {:induction false} JitterBounds(n: int, jitter: real, p: real)
    requires n >= 1 && Jitter(jitter) && p == Product(n) as real
    ensures p >= 0.0 ==> 0.8 * p <= Jittered(n, jitter) <= 1.2 * p
    ensures p <= 0.0 ==> 1.2 * p <= Jittered(n, jitter) <= 0.8 * p
  {
    Scaled(p, jitter);
  }

  lemma {:induction false} Scaled(p: real, j: real)
    requires Jitter(j)
    ensures p >= 0.0 ==> 0.8 * p <= Times(p, j) <= 1.2 * p
    ensures p <= 0.0 ==> 1.2 * p <= Times(p, j) <= 0.8 * p
  {
  }

  /** An integer at most `x` is at most what is left of `x`, unless that is capped. */
  lemma {:induction false} CappedAtLeast(lo: int, x: real, outside: int)
    requires lo as real <= x < TWO63 as real && lo >= 0
    ensures (if lo <= MAX_DELAY then lo else MAX_DELAY) <= Capped(x, outside) <= MAX_DELAY
  {
    assert lo <= x.Floor;
  }

  lemma {:induction false} WithinRange(q: nat, p: real, x: real)
    requires q <= 0x1_0000_0000 && p == (q * SECOND) as real && 0.8 * p <= x <= 1.2 * p
    ensures (800_000_000 * q) as real <= x < TWO63 as real
  {
    assert (q * SECOND) as real == q as real * 1000000000.0;
    assert (800_000_000 * q) as real == q as real * 800000000.0;
  }

  /** Up to 33 failures the product is positive and fits 64 bits under every jitter. */
  lemma {:induction false} SmallFits(n: int, jitter: real)
    requires 1 <= n <= 33 && Jitter(jitter)
    ensures Product(n) > 0 && (800_000_000 * Pow2(n - 1)) as real <= Jittered(n, jitter) < TWO63 as real
  {
    var q, p, x := Pow2(n - 1), Product(n) as real, Jittered(n, jitter);
    assert p == (q * SECOND) as real && q <= 0x1_0000_0000 && Product(n) > 0 by {
      ProductExact(n);
      Pow2Grows(0, n - 1);
    }
    JitterBounds(n, jitter, p);
    WithinRange(q, p, x);
  }

  /** For 1 to 33 failures and every jitter the backoff is at least what is meant and at most five minutes. */
  lemma {:induction false} BackoffBounds(n: int, jitter: real, outside: int)
    requires 1 <= n <= 33 && Jitter(jitter)
    ensures Least(n) <= CalculateBackoff(n, jitter, outside) <= MAX_DELAY
  {
    SmallFits(n, jitter);
    CappedAtLeast(800_000_000 * Pow2(n - 1), Jittered(n, jitter), outside);
  }

  /** Up to 33 failures the backoff is what it is meant to be: 2^(n-1) seconds times the jitter, cut to five minutes. */
  lemma {:induction false} BackoffSays(n: int, jitter: real, outside: int)
    requires n <= 33 && Jitter(jitter)
    ensures n <= 0 ==> CalculateBackoff(n, jitter, outside) == 0
    ensures n >= 1 ==>
      var x := Times((Pow2(n - 1) * 1_000_000_000) as real, jitter);
      CalculateBackoff(n, jitter, outside) == if x.Floor > 300_000_000_000 then 300_000_000_000 else x.Floor
  {
    if n >= 1 {
      ProductExact(n);
      SmallFits(n, jitter);
    }
  }

  /** Below the cap, a backoff is shorter than any that one failure more gives. */
  lemma {:induction false} BackoffStepsUp(n: int, jitter: real, outside: int)
    requires 0 <= n <= 32 && Jitter(jitter)
    ensures var b := CalculateBackoff(n, jitter, outside); b <= MAX_DELAY && (b < MAX_DELAY ==> b < Least(n + 1))
  {
    if n > 0 {
      var q, p, x := Pow2(n - 1), Product(n) as real, Jittered(n, jitter);
      assert p == (q * SECOND) as real && q > 0 by {
        ProductExact(n);
        Pow2Grows(0, n - 1);
      }
      JitterBounds(n, jitter, p);
      SmallFits(n, jitter);
      BelowNext(q, p, x);
      assert Pow2(n) == 2 * q;
    }
  }

  lemma {:induction false} BelowNext(q: nat, p: real, x: real)
    requires q > 0 && p == (q * SECOND) as real && 0.0 <= x <= 1.2 * p
    ensures x.Floor < 1_600_000_000 * q
  {
    assert (q * SECOND) as real == q as real * 1000000000.0;
    assert (1_600_000_000 * q) as real == q as real * 1600000000.0;
  }

  /** The bounds hold, whatever the platform does with numbers outside 64 bits. */
  ghost predicate Bounded(n: int, jitter: real)
    requires n >= 1
  {
    forall outside :: Least(n) <= CalculateBackoff(n, jitter, outside) <= MAX_DELAY
  }

  lemma {:induction false} LeastIs(n: int)
    requires n >= 1
    ensures 0 < Least(n) <= MAX_DELAY && (n >= 34 ==> Least(n) == MAX_DELAY)
  {
    Pow2Grows(0, n - 1);
    if n >= 34 {
      Pow2Values();
      Pow2Grows(33, n - 1);
    }
  }

  /** A product that is not positive, or that the jitter takes out of 64 bits, misses the bounds on some platform. */
  lemma {:induction false} Misses(x: real, p: real)
    requires p <= 0.0 ==> x <= 0.0
    requires p <= 0.0 || x >= TWO63 as real
    ensures Capped(x, 0) <= 0
  {
    if x < 0.0 {
      assert (-x).Floor >= 0;
    }
  }

  /**
   For every count and every jitter: the backoff is at least what is meant and at most five minutes, on every
   platform, if and only if the product is positive and the jittered product fits 64 bits.
   */
  lemma {:induction false} BoundedIff(n: int, jitter: real)
    requires n >= 1 && Jitter(jitter)
    ensures Bounded(n, jitter) <==> Product(n) > 0 && Jittered(n, jitter) < TWO63 as real
  {
    var p, x := Product(n), Jittered(n, jitter);
    LeastIs(n);
    JitterBounds(n, jitter, p as real);
    if p > 0 && x < TWO63 as real {
      forall outside ensures Least(n) <= CalculateBackoff(n, jitter, outside) <= MAX_DELAY {
        if n <= 33 {
          BackoffBounds(n, jitter, outside);
        } else {
          LargeEnough(n, p, x);
          CappedAtLeast(MAX_DELAY, x, outside);
        }
      }
    } else {
      Misses(x, p as real);
      assert CalculateBackoff(n, jitter, 0) <= 0;
    }
  }

  lemma {:induction false} LargeEnough(n: int, p: int, x: real)
    requires n >= 34 && p == Product(n) > 0 && 0.8 * p as real <= x
    ensures MAX_DELAY as real <= x
  {
    Classify(n);
  }

  /** The bounds hold for every jitter exactly for the safe counts. */
  lemma {:induction false} SafeIff(n: int)
    requires n >= 1
    ensures (forall jitter :: Jitter(jitter) ==> Bounded(n, jitter)) <==> Safe(n)
  {
    if Safe(n) {
      forall jitter | Jitter(jitter) ensures Bounded(n, jitter) {
        SafeFits(n, jitter);
        BoundedIff(n, jitter);
      }
    } else {
      UnsafeMisses(n);
      BoundedIff(n, 1.199);
      assert Jitter(1.199);
    }
  }

  lemma {:induction false} SafeFits(n: int, jitter: real)
    requires Safe(n) && Jitter(jitter)
    ensures Product(n) > 0 && Jittered(n, jitter) < TWO63 as real
  {
    if n <= 33 {
      SmallFits(n, jitter);
    } else {
      Classify(n);
      JitterBounds(n, jitter, Product(n) as real);
      UnderLimit(Product(n), Jittered(n, jitter));
    }
  }

  lemma {:induction false} UnderLimit(p: int, x: real)
    requires 12 * p < 10 * TWO63 && x <= 1.2 * p as real
    ensures x < TWO63 as real
  {
    assert (12 * p) as real < (10 * TWO63) as real;
  }

  lemma {:induction false} UnsafeMisses(n: int)
    requires n >= 1 && !Safe(n)
    ensures Product(n) <= 0 || Jittered(n, 1.199) >= TWO63 as real
  {
    Classify(n);
    if TooLarge(n) {
      assert (1199 * Product(n)) as real >= (1000 * TWO63) as real;
    }
  }

  /** The backoff never holds anything back: it is not positive, for every jitter and on every platform. */
  ghost predicate Idle(n: int) {
    forall jitter, outside :: Jitter(jitter) ==> CalculateBackoff(n, jitter, outside) <= 0
  }

  /** That is so exactly for the powerless counts, and from 56 failures on the backoff is zero. */
  lemma {:induction false} PowerlessIff(n: int)
    requires n >= 1
    ensures Idle(n) <==> Powerless(n)
    ensures n >= 56 ==> forall jitter, outside :: CalculateBackoff(n, jitter, outside) == 0
  {
    if Powerless(n) {
      forall jitter, outside | Jitter(jitter) ensures CalculateBackoff(n, jitter, outside) <= 0 {
        PowerlessStays(n, jitter, outside);
      }
    } else if Safe(n) {
      SafeFits(n, 1.0);
      BoundedIff(n, 1.0);
      LeastIs(n);
      assert Jitter(1.0) && CalculateBackoff(n, 1.0, 0) > 0;
    } else {
      OutsideDecides(n, 1);
      assert Jitter(1.199) && CalculateBackoff(n, 1.199, 1) > 0;
    }
    if n >= 56 {
      ProductVanishes(n);
    }
  }

  lemma {:induction false} ProductVanishes(n: int)
    requires n >= 56
    ensures Product(n) == 0
    ensures forall jitter, outside :: CalculateBackoff(n, jitter, outside) == 0
  {
    ProductListed(n);
    forall jitter, outside ensures CalculateBackoff(n, jitter, outside) == 0 {
      assert Times(0.0, jitter) == 0.0;
    }
  }

  lemma {:induction false} PowerlessStays(n: int, jitter: real, outside: int)
    requires Powerless(n) && Jitter(jitter)
    ensures CalculateBackoff(n, jitter, outside) <= 0
  {
    var p, x := Product(n), Jittered(n, jitter);
    Classify(n);
    JitterBounds(n, jitter, p as real);
    assert (12 * p) as real >= (-10 * TWO63) as real;
    NotPositive(x, outside);
  }

  lemma {:induction false} NotPositive(x: real, outside: int)
    requires -(TWO63 as real) <= x <= 0.0
    ensures Capped(x, outside) <= 0
  {
    assert (-x).Floor >= 0;
  }

  /** For the other counts there is a jitter with which the platform decides. */
  lemma {:induction false} OutsideDecides(n: int, outside: int)
    requires TooLarge(n) || TooSmall(n)
    ensures CalculateBackoff(n, 1.199, outside) == if outside > MAX_DELAY then MAX_DELAY else outside
  {
    Classify(n);
    if TooLarge(n) {
      assert (1199 * Product(n)) as real >= (1000 * TWO63) as real;
    } else {
      assert (1199 * Product(n)) as real < (-1000 * TWO63) as real;
    }
  }
}

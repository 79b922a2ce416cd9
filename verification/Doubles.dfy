/**
 What happens to a JSON number on its way through the daemon.  cJSON stores
 every number as an IEEE 754 double; `render_number` prints `floor(v + 0.5)`,
 and `cJSON_PrintUnformatted` tries 15 significant digits first.  Both steps
 round, so neither is the identity on all integers a double can hold.

 Doubles are reals here.  Where a sum is not representable it is rounded to
 nearest, ties to even, exactly as the hardware does.
 */
module Doubles {

  const TWO31 := 2147483648
  const TWO51 := 2251799813685248
  const TWO52 := 4503599627370496
  const TWO53 := 9007199254740992
  const TEN15 := 1000000000000000

  function Abs(n: int): nat { if n < 0 then -n else n }

  function AbsReal(v: real): real { if v < 0.0 then -v else v }

  /** The multiple of `m` nearest to `x`, ties going to the even multiple. */
  function RoundEven(x: int, m: int): int
    requires m > 0
  {
    var below := x - x % m;
    if 2 * (x % m) < m || (2 * (x % m) == m && (x / m) % 2 == 0) then below else below + m
  }

  /** The gap between neighbouring doubles around `h` halves, in halves, for magnitudes below 2^54. */
  function Spacing(h: int): (m: int)
    ensures m > 0
  {
    if Abs(h) < 2 * TWO52 then 1 else if Abs(h) < 2 * TWO53 then 2 else 4
  }

  /**
   `v + 0.5` in double arithmetic.  Below 2^51 rounding cannot move the sum
   across an integer that `render_number` would accept; from 2^51 on every
   double is a whole number of halves.
   */
  function AddHalf(v: real): real {
    if AbsReal(v) < TWO51 as real then v + 0.5
    else
      var h := (2.0 * v).Floor + 1;
      RoundEven(h, Spacing(h)) as real / 2.0
  }

  /** `floor(val + 0.5)`. */
  function Rounded(v: real): int { AddHalf(v).Floor }

  /** The double that the literal `1e-9` denotes, a little above one billionth. */
  const TOLERANCE := NANO / TWO82 as real

  const NANO := 4835703278458517.0
  const TWO82 := TWO51 * TWO31

  /**
   Around one billionth doubles are the multiples of 2^-82 with factors from 2^52
   to 2^53; the tolerance is the nearest of them.
   */
  lemma ToleranceIsNearest(k: int)
    ensures TWO52 as real <= TOLERANCE * TWO82 as real < TWO53 as real
    ensures AbsReal(TOLERANCE - 0.000000001) <= AbsReal(k as real / TWO82 as real - 0.000000001)
  {
    var x := 0.000000001 * TWO82 as real;
    Scaled(NANO, x);
    Scaled(k as real, x);
    assert AbsReal(NANO - x) <= 0.5;
    assert k <= 4835703278458516 || k >= 4835703278458517;
  }

  lemma Scaled(a: real, x: real)
    ensures AbsReal(a / TWO82 as real - x / TWO82 as real) * TWO82 as real == AbsReal(a - x)
  {
  }

  /** `render_number` accepts `v`: `fabs(val - rounded) <= 1e-9`; the subtraction is exact. */
  predicate Renderable(v: real) { AbsReal(v - Rounded(v) as real) <= TOLERANCE }

  /** Below 2^51 a number is accepted exactly when it is within the tolerance of an integer, which is then printed. */
  lemma RenderSmall(v: real, k: int)
    requires AbsReal(v) < TWO51 as real
    ensures Renderable(v) && Rounded(v) == k <==> AbsReal(v - k as real) <= TOLERANCE
  {
    var r := (v + 0.5).Floor;
    assert r as real <= v + 0.5 < r as real + 1.0;
    if AbsReal(v - k as real) <= TOLERANCE {
      assert (k as real) - 1.0 < (r as real) < (k as real) + 1.0;
      assert k - 1 < r < k + 1;
    }
  }

  /**
   Integers up to 2^53 print as themselves exactly when they are at most 2^52
   or even.  An odd one in between is refused: adding one half lands on the
   next even integer.
   */
  lemma RenderInteger(n: int)
    requires Abs(n) <= TWO53
    ensures Renderable(n as real) <==> Abs(n) <= TWO52 || n % 2 == 0
    ensures Renderable(n as real) ==> Rounded(n as real) == n
  {
    if Abs(n) < TWO51 {
      RenderSmall(n as real, n);
    } else {
      HalfStep(n);
      HalfStepReal(n);
    }
  }

  lemma HalfStepReal(n: int)
    requires TWO51 <= Abs(n)
    ensures Rounded(n as real) == RoundEven(2 * n + 1, Spacing(2 * n + 1)) / 2
  {
    var h := 2 * n + 1;
    assert 2.0 * (n as real) == (2 * n) as real;
    HalfFloor(RoundEven(h, Spacing(h)));
  }

  lemma HalfFloor(r: int)
    ensures (r as real / 2.0).Floor == r / 2
  {
    var q := r / 2;
    assert r == 2 * q || r == 2 * q + 1;
    assert r as real / 2.0 == if r == 2 * q then q as real else q as real + 0.5;
  }

  /** The halves that `n + 0.5` is rounded to. */
  lemma HalfStep(n: int)
    requires TWO51 <= Abs(n) <= TWO53
    ensures var r := RoundEven(2 * n + 1, Spacing(2 * n + 1));
            r / 2 == if Abs(n) <= TWO52 || n % 2 == 0 then n else n + 1
  {
    var h := 2 * n + 1;
    var r := RoundEven(h, Spacing(h));
    if Spacing(h) == 2 {
      assert r == if n % 2 == 0 then 2 * n else 2 * n + 2;
    } else if Spacing(h) == 4 {
      assert Abs(n) == TWO53;
    }
  }

  /** `%1.15g`: an integer below 2^53 in magnitude has 15 digits, or 16 and loses the last one. */
  function FifteenDigits(n: int): int
    requires Abs(n) <= TWO53
  {
    if Abs(n) < TEN15 then n else RoundEven(n, 10)
  }

  /** `compare_double`: equal up to one part in 2^52 (`DBL_EPSILON`). */
  predicate CloseEnough(a: int, b: int) {
    Abs(a - b) * TWO52 <= if Abs(a) > Abs(b) then Abs(a) else Abs(b)
  }

  /** The integer that is read back after `print_number` wrote `n`. */
  function Reprint(n: int): int
    requires Abs(n) <= TWO53
  {
    if -TWO31 <= n < TWO31 then n
    else if CloseEnough(FifteenDigits(n), n) then FifteenDigits(n)
    else n
  }

  lemma Tens(q: int, d: int)
    requires 0 <= d < 10
    ensures (10 * q + d) % 10 == d && (10 * q + d) / 10 == q
  {
  }

  lemma EvenTens(q: int)
    ensures (10 * q) % 2 == 0
  {
    assert 10 * q == 2 * (5 * q);
  }

  predicate LastDigitOneOrNine(n: int) { Abs(n) % 10 == 1 || Abs(n) % 10 == 9 }

  lemma RoundTens(q: int, d: int)
    requires 0 <= d < 10
    ensures RoundEven(10 * q + d, 10) == if d < 5 || (d == 5 && q % 2 == 0) then 10 * q else 10 * q + 10
  {
    Tens(q, d);
  }

  lemma MultipleOfTen(q: int)
    ensures (10 * q) % 10 == 0 && (10 * q) % 2 == 0
  {
    Tens(q, 0);
    EvenTens(q);
  }

  /** How far the fifteen-digit form of a sixteen-digit integer is off, by its last digit. */
  lemma LastDigit(n: int)
    ensures var d := Abs(n) % 10;
            Abs(RoundEven(n, 10) - n) == if d <= 5 then d else 10 - d
    ensures RoundEven(n, 10) % 2 == 0 && RoundEven(n, 10) % 10 == 0
  {
    var q, d := Abs(n) / 10, Abs(n) % 10;
    var q', d' := if n >= 0 then q else if d == 0 then -q else -q - 1, if n >= 0 || d == 0 then d else 10 - d;
    assert n == 10 * q' + d';
    RoundTens(q', d');
    MultipleOfTen(q');
    MultipleOfTen(q' + 1);
    assert 10 * (q' + 1) == 10 * q' + 10;
  }

  /** Within 2^53, two integers at most 5 apart count as equal only in the top binade. */
  lemma CloseEnoughWhen(t: int, n: int)
    requires Abs(n) <= TWO53 && Abs(t - n) <= 5
    ensures t == n ==> CloseEnough(t, n)
    ensures Abs(t - n) == 1 && t % 10 == 0 ==> (CloseEnough(t, n) <==> Abs(n) >= TWO52)
    ensures Abs(t - n) == 2 && t % 10 == 0 ==> (CloseEnough(t, n) <==> Abs(n) == TWO53)
    ensures Abs(t - n) >= 3 ==> !CloseEnough(t, n)
  {
  }

  /**
   Printing loses the last digit exactly from 2^52 on when it is 1 or 9, and
   at 2^53 itself: there fifteen digits already count as close enough.
   */
  lemma ReprintInteger(n: int)
    requires Abs(n) <= TWO53
    ensures Reprint(n) == n <==> !(Abs(n) >= TWO52 && LastDigitOneOrNine(n)) && Abs(n) != TWO53
    ensures Reprint(n) != n ==> Reprint(n) % 2 == 0 && Abs(Reprint(n)) <= TWO53
  {
    if Abs(n) >= TEN15 {
      LastDigit(n);
      CloseEnoughTens(RoundEven(n, 10), n);
    }
  }

  lemma CloseEnoughTens(t: int, n: int)
    requires Abs(n) <= TWO53 && t % 10 == 0 && var d := Abs(n) % 10; Abs(t - n) == if d <= 5 then d else 10 - d
    ensures CloseEnough(t, n) <==> t == n || (Abs(n) >= TWO52 && LastDigitOneOrNine(n)) || Abs(n) == TWO53
    ensures CloseEnough(t, n) ==> Abs(t) <= TWO53
    ensures Abs(n) == TWO53 ==> t != n
  {
    CloseEnoughWhen(t, n);
  }

  /** The integers that survive reprinting and rendering with every digit intact. */
  predicate Safe(n: int) { Abs(n) <= TWO52 || (n % 2 == 0 && Abs(n) < TWO53) }

  lemma OddTens(q: int, d: int)
    requires d == 1 || d == 9
    ensures (10 * q + d) % 2 == 1
  {
    assert 10 * q + d == 2 * (5 * q + d / 2) + 1;
  }

  lemma OddLastDigit(n: int)
    requires Abs(n) % 10 == 1 || Abs(n) % 10 == 9
    ensures n % 2 == 1
  {
    var q, d := Abs(n) / 10, Abs(n) % 10;
    if n >= 0 {
      assert n == 10 * q + d;
      OddTens(q, d);
    } else {
      assert n == 10 * (-q - 1) + (10 - d);
      OddTens(-q - 1, 10 - d);
    }
  }

  /** The two roundings together print an integer as itself exactly when it is safe. */
  lemma DaemonInteger(n: int)
    requires Abs(n) <= TWO53
    ensures Renderable(Reprint(n) as real) && Rounded(Reprint(n) as real) == n <==> Safe(n)
  {
    ReprintInteger(n);
    if LastDigitOneOrNine(n) { OddLastDigit(n); }
    var m := Reprint(n);
    RenderInteger(m);
  }

  /** 2^52 + 1 cannot be rendered; 2^53 - 1 comes back from cJSON as a different integer. */
  lemma UnsafeIntegers()
    ensures !Renderable((TWO52 + 1) as real)
    ensures Reprint(TWO53 - 1) == TWO53 - 2
  {
    RenderInteger(TWO52 + 1);
    assert RoundEven(TWO53 - 1, 10) == TWO53 - 2;
  }
}

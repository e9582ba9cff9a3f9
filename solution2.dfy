/**
 * The optimised Java solver: solveHanoi prints the correct move list and
 * counts its moves in a static 32-bit int; main rejects non-positive input,
 * resets the counter, solves from A to C and compares the count with
 * calculateExpectedMoves, the (int) cast of the double 2^n - 1.
 */
module Solution2 {
  import opened Wrappers
  import opened Hanoi
  import Text

  const IntMin: int := -0x8000_0000
  const IntMax: int := 0x7fff_ffff

  /** Java int arithmetic: the value congruent to x modulo 2^32 in the int range. */
  function Wrap32(x: int): (r: int)
    ensures IntMin <= r <= IntMax
  {
    (x + 0x8000_0000) % 0x1_0000_0000 - 0x8000_0000
  }

  /** Wrapping changes a value by a multiple of 2^32 and keeps every int as it is. */
  lemma WrapCongruent(x: int)
    ensures (Wrap32(x) - x) % 0x1_0000_0000 == 0
    ensures IntMin <= x <= IntMax ==> Wrap32(x) == x
  {
  }

  const Modulus: int := 0x1_0000_0000

  /** Adding a multiple of 2^32 does not change a value modulo 2^32. */
  lemma {:induction false} ModShift(a: int, k: int)
    ensures (a + k * Modulus) % Modulus == a % Modulus
    decreases if k >= 0 then k else -k
  {
    if k > 0 {
      ModShift(a, k - 1);
      assert a + k * Modulus == (a + (k - 1) * Modulus) + Modulus;
    } else if k < 0 {
      ModShift(a, k + 1);
      assert a + k * Modulus == (a + (k + 1) * Modulus) - Modulus;
    }
  }

  /** Wrapping once after every addition is wrapping once at the end. */
  lemma WrapAdd(x: int, y: int)
    ensures Wrap32(Wrap32(x) + y) == Wrap32(x + y)
  {
    var w := Wrap32(x);
    WrapCongruent(x);
    var k := (w - x) / Modulus;
    assert w == x + k * Modulus;
    ModShift(x + y + 0x8000_0000, k);
    assert w + y + 0x8000_0000 == (x + y + 0x8000_0000) + k * Modulus;
  }

  lemma {:induction false} Pow2Grows(a: nat, b: nat)
    requires a <= b
    ensures Pow2(a) <= Pow2(b)
    decreases b
  {
    if a < b {
      Pow2Grows(a, b - 1);
    }
  }

  /** 2^k for an integer exponent, as Math.pow(2, k) computes it (exactly: see README). */
  function PowReal(k: int): (r: real)
    ensures r > 0.0
  {
    if k >= 0 then Pow2(k) as real else 1.0 / Pow2(-k) as real
  }

  /** Java's (int) cast of a double: rounds toward zero and saturates at the int range. */
  function IntCast(x: real): (r: int)
    ensures IntMin <= r <= IntMax
  {
    if x >= IntMax as real then IntMax
    else if x <= IntMin as real then IntMin
    else if x >= 0.0 then x.Floor
    else -((-x).Floor)
  }

  /**
   * The double Math.pow(2, n) - 1, as far as the (int) cast can tell. For
   * -53 <= n <= 53 the difference is exact: 2^n - 1 has at most 53
   * significant bits. From n = 54 on the double is rounded (and Infinity from
   * n = 1024 on); the exact value kept here lies above the int range like the
   * double, so the cast saturates both to the same int. For n = -54 the exact
   * value lies halfway between -1 + 2^-53 and -1.0 and rounds to the even
   * -1.0; below that it is nearer -1.0 still.
   */
  function PowMinusOne(n: int): (r: real)
    ensures n >= -53 ==> r == PowReal(n) - 1.0
    ensures n <= -54 ==> r == -1.0
  {
    if n <= -54 then -1.0 else PowReal(n) - 1.0
  }

  /**
   * calculateExpectedMoves: (int)(Math.pow(2, n) - 1). It is 2^n - 1 while
   * that fits an int, the largest int from n = 31 on (the cast saturates), 0
   * for -53 <= n <= 0, where 2^n - 1 lies in (-1, 0], and -1 below that.
   */
  function CalculateExpectedMoves(n: int): (r: int)
    ensures r == IntCast(PowMinusOne(n))
  {
    if n <= 0 then
      NegativeExponent(n);
      if n <= -54 then -1 else 0
    else if n <= 31 then
      Pow2Grows(n, 31);
      Pow2Value32();
      Pow2(n) - 1
    else
      Pow2Grows(32, n);
      Pow2Value32();
      IntMax
  }

  /** Without a positive exponent the formula is 0, or -1 once the double has rounded to -1.0. */
  lemma NegativeExponent(n: int)
    requires n <= 0
    ensures IntCast(PowMinusOne(n)) == if n <= -54 then -1 else 0
  {
    if n >= -53 {
      var p := Pow2(-n) as real;
      assert p >= 1.0;
      var x := 1.0 / p;
      assert 0.0 < x <= 1.0 by {
        assert x * p == 1.0;
      }
    }
  }

  /** The formula agrees with 2^n - 1 exactly when the count fits an int. */
  lemma ExpectedMatchesFormula(n: int)
    requires n >= 1
    ensures CalculateExpectedMoves(n) == Pow2(n) - 1 <==> n <= 31
  {
    if n >= 32 {
      Pow2Grows(32, n);
      Pow2Value32();
    }
  }

  /** From 32 disks on, 2^n - 1 steps wrap the int counter round to -1. */
  lemma {:induction false} WrappedCount(n: int)
    requires n >= 32
    ensures Wrap32(Pow2(n) - 1) == -1
    decreases n
  {
    if n == 32 {
      Pow2Value32();
    } else {
      WrappedCount(n - 1);
      var m := 0x1_0000_0000;
      var q := Pow2(n - 1);
      assert (q - 1 + 0x8000_0000) % m == 0x7fff_ffff;
      assert Pow2(n) - 1 + 0x8000_0000 == (q - 1 + 0x8000_0000) + q;
      assert q % m == 0 by {
        PowMultiple(n - 1);
      }
      ModShift(q - 1 + 0x8000_0000, q / m);
    }
  }

  lemma Pow2Value32()
    ensures Pow2(31) == 0x8000_0000 && Pow2(32) == 0x1_0000_0000
  {
    assert Pow2(8) == 256;
    assert Pow2(16) == 0x1_0000 by {
      Pow2Add(8, 8);
    }
    assert Pow2(15) == 0x8000 by {
      Pow2Add(8, 7);
      assert Pow2(7) == 128;
    }
    Pow2Add(16, 15);
  }

  lemma {:induction false} Pow2Add(a: nat, b: nat)
    ensures Pow2(a + b) == Pow2(a) * Pow2(b)
    decreases b
  {
    if b > 0 {
      Pow2Add(a, b - 1);
    }
  }

  lemma PowMultiple(k: nat)
    requires k >= 32
    ensures Pow2(k) % 0x1_0000_0000 == 0
  {
    Pow2Add(32, k - 32);
    Pow2Value32();
    ModShift(0, Pow2(k - 32));
  }

  /** A Java int. */
  newtype Int32 = x: int | -0x8000_0000 <= x < 0x8000_0000

  /** steps++ on a Java int: the largest int is followed by the smallest. */
  function Inc(x: Int32): (r: Int32)
    ensures r as int == Wrap32(x as int + 1)
  {
    if x == 0x7fff_ffff then -0x8000_0000 else x + 1
  }

  /** The counter after k increments. */
  function Advance(x: Int32, k: nat): (r: Int32)
    decreases k
  {
    if k == 0 then x else Inc(Advance(x, k - 1))
  }

  lemma {:induction false} AdvanceAdd(x: Int32, a: nat, b: nat)
    ensures Advance(Advance(x, a), b) == Advance(x, a + b)
    decreases b
  {
    if b > 0 {
      AdvanceAdd(x, a, b - 1);
    }
  }

  /** k increments are one addition of k with Java's wrap-around. */
  lemma {:induction false} AdvanceIsWrap(x: Int32, k: nat)
    ensures Advance(x, k) as int == Wrap32(x as int + k)
    decreases k
  {
    if k == 0 {
      WrapCongruent(x as int);
    } else {
      AdvanceIsWrap(x, k - 1);
      WrapAdd(x as int + k - 1, 1);
    }
  }

  /** What main reports: a rejected input, or the three final lines (count, formula, verdict). */
  datatype Outcome = Rejected | Report(total: int, expected: int, passed: bool)

  /** The static state of Solution2_Optimized: the step counter and what has been printed. */
  class Program {
    var steps: Int32
    var printed: seq<string>

    constructor ()
      ensures steps == 0 && printed == []
    {
      steps := 0;
      printed := [];
    }

    /**
     * solveHanoi: prints the correct move list for n disks and adds its
     * length to the int counter, with Java's wrap-around.
     */
    method SolveHanoi(n: int, source: char, helper: char, destination: char)
      requires n >= 1
      modifies this
      ensures steps == Advance(old(steps), Pow2(n) - 1)
      ensures printed == old(printed) + Lines(Solve(n, source, helper, destination))
      decreases n
    {
      if n == 1 {
        steps := Inc(steps);
        assert Pow2(1) == 2;
        printed := printed + [Text.Describe(1, source, destination)];
        LinesOne(Move(1, source, destination));
        return;
      }
      SolveHanoi(n - 1, source, destination, helper);
      ghost var s1 := steps;
      steps := Inc(steps);
      ghost var s2 := steps;
      printed := printed + [Text.Describe(n, source, destination)];
      SolveHanoi(n - 1, helper, source, destination);
      CounterAfterSolve(n, old(steps), s1, s2, steps);
      LinesAfterSolve(n, source, helper, destination, old(printed));
    }

    /**
     * main after reading n: a non-positive n is rejected and nothing is
     * solved; otherwise the counter is reset, the puzzle solved from A to C
     * and the count compared with the formula. The verdict is PASSED exactly
     * when n <= 31; from 32 disks on the counter has wrapped to -1.
     */
    method Run(n: int) returns (outcome: Outcome)
      modifies this
      ensures n <= 0 ==> outcome == Rejected && steps == old(steps) && printed == old(printed)
      ensures n >= 1 ==> printed == old(printed) + Lines(Solve(n, 'A', 'B', 'C'))
      ensures n >= 1 ==> outcome.Report? && outcome.total == steps as int && outcome.expected == CalculateExpectedMoves(n)
      ensures n >= 1 ==> (outcome.passed <==> n <= 31)
      ensures 1 <= n <= 31 ==> steps as int == Pow2(n) - 1
      ensures n >= 32 ==> steps == -1
    {
      if n <= 0 {
        return Rejected;
      }
      steps := 0;
      SolveHanoi(n, 'A', 'B', 'C');
      var expected := CalculateExpectedMoves(n);
      outcome := Report(steps as int, expected, steps as int == expected);
      AdvanceIsWrap(0, Pow2(n) - 1);
      if n <= 31 {
        Pow2Grows(n, 31);
        Pow2Value32();
        WrapCongruent(Pow2(n) - 1);
      } else {
        WrappedCount(n);
      }
    }
  }

  /** The printed line of every move, in order. */
  function Lines(ms: seq<Move>): (r: seq<string>)
  {
    seq(|ms|, i requires 0 <= i < |ms| => Text.Describe(ms[i].disk, ms[i].from, ms[i].to))
  }

  /** The counter after solveHanoi(n - 1), one step and solveHanoi(n - 1) again. */
  lemma CounterAfterSolve(n: int, s: Int32, s1: Int32, s2: Int32, s3: Int32)
    requires n >= 2
    requires s1 == Advance(s, Pow2(n - 1) - 1) && s2 == Inc(s1) && s3 == Advance(s2, Pow2(n - 1) - 1)
    ensures s3 == Advance(s, Pow2(n) - 1)
  {
    var q := Pow2(n - 1) - 1;
    assert s2 == Advance(s, q + 1);
    AdvanceAdd(s, q + 1, q);
  }

  /** The lines printed by the same three steps. */
  lemma LinesAfterSolve(n: int, source: char, helper: char, destination: char, before: seq<string>)
    requires n >= 2
    ensures before + Lines(Solve(n - 1, source, destination, helper)) + [Text.Describe(n, source, destination)] + Lines(Solve(n - 1, helper, source, destination))
         == before + Lines(Solve(n, source, helper, destination))
  {
    var left := Solve(n - 1, source, destination, helper);
    var right := Solve(n - 1, helper, source, destination);
    LinesConcat(left, Move(n, source, destination), right);
    assert Solve(n, source, helper, destination) == left + [Move(n, source, destination)] + right;
  }

  lemma LinesOne(m: Move)
    ensures Lines([m]) == [Text.Describe(m.disk, m.from, m.to)]
  {
  }

  lemma LinesConcat(a: seq<Move>, m: Move, b: seq<Move>)
    ensures Lines(a + [m] + b) == Lines(a) + [Text.Describe(m.disk, m.from, m.to)] + Lines(b)
  {
  }

  /** Every printed line reads back as the move of the correct solution at the same place. */
  lemma PrintedLinesParse(n: int, source: char, helper: char, destination: char, i: int)
    requires n >= 1 && 0 <= i < Pow2(n) - 1
    ensures Text.ParseDescription(Lines(Solve(n, source, helper, destination))[i]) == Some(Solve(n, source, helper, destination)[i])
  {
    var m := Solve(n, source, helper, destination)[i];
    Text.DescribeRoundTrip(m.disk, m.from, m.to);
  }
}

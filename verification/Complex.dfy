/** Complex numbers over exact reals, and powers of them. */
module Complex {
  datatype Complex = Complex(re: real, im: real)

  const ZERO := Complex(0.0, 0.0)
  const ONE := Complex(1.0, 0.0)

  function Add(a: Complex, b: Complex): Complex {
    Complex(a.re + b.re, a.im + b.im)
  }

  function Sub(a: Complex, b: Complex): Complex {
    Complex(a.re - b.re, a.im - b.im)
  }

  function Mul(a: Complex, b: Complex): Complex {
    Complex(a.re * b.re - a.im * b.im, a.re * b.im + a.im * b.re)
  }

  function Conj(a: Complex): Complex {
    Complex(a.re, -a.im)
  }

  /** The squared magnitude. */
  function Norm2(a: Complex): (r: real)
    ensures r >= 0.0
  {
    a.re * a.re + a.im * a.im
  }

  function Pow(w: Complex, k: nat): Complex {
    if k == 0 then ONE else Mul(Pow(w, k - 1), w)
  }

  // ---------------------------------------------------------- algebra

  lemma MulComm(a: Complex, b: Complex)
    ensures Mul(a, b) == Mul(b, a)
  {
  }

  lemma MulAssoc(a: Complex, b: Complex, c: Complex)
    ensures Mul(Mul(a, b), c) == Mul(a, Mul(b, c))
  {
  }

  lemma MulAdd(a: Complex, b: Complex, c: Complex)
    ensures Mul(a, Add(b, c)) == Add(Mul(a, b), Mul(a, c))
    ensures Mul(Add(b, c), a) == Add(Mul(b, a), Mul(c, a))
  {
  }

  lemma ConjMul(a: Complex, b: Complex)
    ensures Conj(Mul(a, b)) == Mul(Conj(a), Conj(b))
  {
  }

  lemma NormMul(a: Complex, b: Complex)
    ensures Norm2(Mul(a, b)) == Norm2(a) * Norm2(b)
  {
  }

  lemma NormIsProduct(a: Complex)
    ensures Mul(a, Conj(a)) == Complex(Norm2(a), 0.0)
  {
  }

  // Products of reals by name, so that their sign can be argued without their values.
  function Times(x: real, y: real): real {
    x * y
  }

  lemma TimesPositive(x: real, y: real)
    requires x > 0.0 && y > 0.0
    ensures Times(x, y) > 0.0
  {
  }

  lemma TimesNegative(x: real, y: real)
    requires x < 0.0 && y < 0.0
    ensures Times(x, y) > 0.0
  {
  }

  lemma TimesZero(x: real, y: real)
    requires x == 0.0 || y == 0.0
    ensures Times(x, y) == 0.0
  {
  }

  lemma SquareSign(x: real)
    ensures Times(x, x) >= 0.0
    ensures x != 0.0 ==> Times(x, x) > 0.0
  {
    hide Times;
    if x > 0.0 {
      TimesPositive(x, x);
    } else if x < 0.0 {
      TimesNegative(x, x);
    } else {
      TimesZero(x, x);
    }
  }

  lemma NormInTimes(a: Complex)
    ensures Norm2(a) == Times(a.re, a.re) + Times(a.im, a.im)
  {
  }

  lemma NormZero(a: Complex)
    requires Norm2(a) == 0.0
    ensures a == ZERO
  {
    hide Times, Norm2;
    NormInTimes(a);
    SquareSign(a.re);
    SquareSign(a.im);
  }

  lemma TimesIsZero(x: real, y: real)
    requires x >= 0.0 && y >= 0.0 && Times(x, y) == 0.0
    ensures x == 0.0 || y == 0.0
  {
    hide Times;
    if x > 0.0 && y > 0.0 {
      TimesPositive(x, y);
    }
  }

  lemma NormOfProduct(a: Complex, b: Complex)
    ensures Norm2(Mul(a, b)) == Times(Norm2(a), Norm2(b))
  {
    NormMul(a, b);
  }

  lemma NormOfZero()
    ensures Norm2(ZERO) == 0.0
  {
  }

  /** There are no zero divisors. */
  lemma ProductZero(a: Complex, b: Complex)
    requires Mul(a, b) == ZERO
    ensures a == ZERO || b == ZERO
  {
    hide Times, Mul, Norm2;
    NormOfProduct(a, b);
    NormOfZero();
    TimesIsZero(Norm2(a), Norm2(b));
    if Norm2(a) == 0.0 {
      NormZero(a);
    } else {
      NormZero(b);
    }
  }

  lemma MulOne(a: Complex)
    ensures Mul(a, ONE) == a && Mul(ONE, a) == a
  {
  }

  /** The squared magnitude of a sum. */
  lemma NormOfSum(a: Complex, b: Complex)
    ensures Norm2(Add(a, b)) == Norm2(a) + 2.0 * Mul(a, Conj(b)).re + Norm2(b)
  {
  }

  // ----------------------------------------------------------- powers

  lemma {:induction false} PowAdd(w: Complex, a: nat, b: nat)
    ensures Pow(w, a + b) == Mul(Pow(w, a), Pow(w, b))
  {
    hide Mul;
    MulOne(Pow(w, a));
    if b > 0 {
      PowAdd(w, a, b - 1);
      MulAssoc(Pow(w, a), Pow(w, b - 1), w);
    }
  }

  lemma {:induction false} PowMul(w: Complex, a: nat, b: nat)
    ensures a * b >= 0
    ensures Pow(w, a * b) == Pow(Pow(w, a), b)
  {
    if b > 0 {
      PowMul(w, a, b - 1);
      assert a * b == a * (b - 1) + a;
      PowAdd(w, a * (b - 1), a);
    } else {
      assert a * b == 0;
    }
  }

  lemma {:induction false} PowOfOne(k: nat)
    ensures Pow(ONE, k) == ONE
  {
    hide Mul;
    if k > 0 {
      PowOfOne(k - 1);
      MulOne(ONE);
    }
  }

  lemma {:induction false} PowConj(w: Complex, k: nat)
    ensures Pow(Conj(w), k) == Conj(Pow(w, k))
  {
    if k > 0 {
      PowConj(w, k - 1);
      ConjMul(Pow(w, k - 1), w);
    }
  }

  lemma {:induction false} PowNorm(w: Complex, k: nat)
    requires Norm2(w) == 1.0
    ensures Norm2(Pow(w, k)) == 1.0
  {
    if k > 0 {
      PowNorm(w, k - 1);
      NormMul(Pow(w, k - 1), w);
    }
  }

  lemma FourProduct(a: Complex, b: Complex, c: Complex, d: Complex)
    ensures Mul(Mul(a, b), Mul(c, d)) == Mul(Mul(a, c), Mul(b, d))
  {
    MulAssoc(Mul(a, b), c, d);
    MulAssoc(a, b, c);
    MulComm(b, c);
    MulAssoc(a, c, b);
    MulAssoc(Mul(a, c), b, d);
  }

  lemma {:induction false} PowProduct(a: Complex, b: Complex, k: nat)
    ensures Pow(Mul(a, b), k) == Mul(Pow(a, k), Pow(b, k))
  {
    hide Mul;
    if k == 0 {
      MulOne(ONE);
    } else {
      PowProduct(a, b, k - 1);
      FourProduct(Pow(a, k - 1), Pow(b, k - 1), a, b);
    }
  }

  /** A number of magnitude one can be cancelled. */
  lemma CancelUnit(a: Complex, b: Complex, c: Complex)
    requires Norm2(a) == 1.0 && Mul(a, b) == Mul(a, c)
    ensures b == c
  {
    hide Mul, Norm2;
    NormIsProduct(a);
    MulComm(a, Conj(a));
    MulAssoc(Conj(a), a, b);
    MulAssoc(Conj(a), a, c);
    MulOne(b);
    MulOne(c);
  }
}

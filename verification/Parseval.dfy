/**
 The unnormalised forward transform that FFTW computes, and Parseval's identity for it.
 The root of unity is any primitive one; exp(-2*pi*i/N) is not needed beyond that.
 */
module Parseval {
  import opened Complex

  predicate IsPrimitiveRoot(w: Complex, n: nat) {
    && n > 0 && Norm2(w) == 1.0 && Pow(w, n) == ONE
    && forall k :: 0 < k < n ==> Pow(w, k) != ONE
  }

  /** The first m terms of bin k. */
  function DftSum(w: Complex, x: seq<Complex>, k: nat, m: nat): Complex
    requires m <= |x|
  {
    if m == 0 then ZERO else Add(DftSum(w, x, k, m - 1), Mul(x[m - 1], Pow(Pow(w, m - 1), k)))
  }

  /** Bin k of the transform. */
  function DftBin(w: Complex, x: seq<Complex>, k: nat): Complex {
    DftSum(w, x, k, |x|)
  }

  function Energy(x: seq<Complex>, m: nat): real
    requires m <= |x|
  {
    if m == 0 then 0.0 else Energy(x, m - 1) + Norm2(x[m - 1])
  }

  // ------------------------------------------------------ orthogonality

  function Geometric(z: Complex, count: nat): Complex {
    if count == 0 then ZERO else Add(Geometric(z, count - 1), Pow(z, count - 1))
  }

  lemma GeometricStep(z: Complex, s: Complex, p: Complex)
    requires Mul(Sub(z, ONE), s) == Sub(p, ONE)
    ensures Mul(Sub(z, ONE), Add(s, p)) == Sub(Mul(p, z), ONE)
  {
    MulAdd(Sub(z, ONE), s, p);
    assert Mul(Sub(z, ONE), p) == Sub(Mul(p, z), p);
  }

  lemma {:induction false} GeometricSum(z: Complex, count: nat)
    ensures Mul(Sub(z, ONE), Geometric(z, count)) == Sub(Pow(z, count), ONE)
  {
    if count > 0 {
      GeometricSum(z, count - 1);
      hide Mul, Add, Sub;
      GeometricStep(z, Geometric(z, count - 1), Pow(z, count - 1));
    }
  }

  /** The sum over all bins of one frequency against another. */
  function Gram(w: Complex, i: nat, j: nat, count: nat): Complex {
    if count == 0 then ZERO
    else Add(Gram(w, i, j, count - 1), Mul(Pow(Pow(w, i), count - 1), Conj(Pow(Pow(w, j), count - 1))))
  }

  lemma {:induction false} GramIsGeometric(w: Complex, i: nat, j: nat, count: nat)
    ensures Gram(w, i, j, count) == Geometric(Mul(Pow(w, i), Conj(Pow(w, j))), count)
  {
    hide Mul, Add;
    if count > 0 {
      GramIsGeometric(w, i, j, count - 1);
      PowConj(Pow(w, j), count - 1);
      PowProduct(Pow(w, i), Conj(Pow(w, j)), count - 1);
    }
  }

  lemma RootPowerCycles(w: Complex, n: nat, i: nat)
    requires IsPrimitiveRoot(w, n)
    ensures Pow(Pow(w, i), n) == ONE
  {
    hide Mul;
    PowMul(w, i, n);
    PowMul(w, n, i);
    assert i * n == n * i;
    PowOfOne(i);
  }

  lemma DifferentPowersDiffer(w: Complex, n: nat, i: nat, j: nat)
    requires IsPrimitiveRoot(w, n) && i < j < n
    ensures Mul(Pow(w, i), Conj(Pow(w, j))) != ONE
  {
    hide Mul, Norm2, Conj;
    var a, b := Pow(w, i), Pow(w, j);
    PowNorm(w, i);
    PowNorm(w, j);
    if Mul(a, Conj(b)) == ONE {
      // Both are inverses of conj(b), so a == b, and then w^(j-i) == 1.
      NormIsProduct(b);
      MulComm(b, Conj(b));
      MulComm(a, Conj(b));
      ConjNorm(b);
      CancelUnit(Conj(b), a, b);
      PowAdd(w, i, j - i);
      MulOne(a);
      CancelUnit(a, Pow(w, j - i), ONE);
    }
  }

  lemma ConjNorm(a: Complex)
    ensures Norm2(Conj(a)) == Norm2(a)
  {
  }

  /** Different frequencies are orthogonal over the n bins. */
  lemma Orthogonal(w: Complex, n: nat, i: nat, j: nat)
    requires IsPrimitiveRoot(w, n) && i < j < n
    ensures Gram(w, i, j, n) == ZERO
  {
    hide Mul, Conj;
    var z := Mul(Pow(w, i), Conj(Pow(w, j)));
    GramIsGeometric(w, i, j, n);
    GeometricSum(z, n);
    DifferentPowersDiffer(w, n, i, j);
    PowProduct(Pow(w, i), Conj(Pow(w, j)), n);
    PowConj(Pow(w, j), n);
    RootPowerCycles(w, n, i);
    RootPowerCycles(w, n, j);
    ConjOfOne();
    MulOne(ONE);
    ProductZero(Sub(z, ONE), Geometric(z, n));
  }

  lemma ConjOfOne()
    ensures Conj(ONE) == ONE
  {
  }

  // ----------------------------------------------------------- Parseval

  /** The energy of the first m terms' transform, over the first `count` bins. */
  function BinEnergy(w: Complex, x: seq<Complex>, m: nat, count: nat): real
    requires m <= |x|
  {
    if count == 0 then 0.0 else BinEnergy(w, x, m, count - 1) + Norm2(DftSum(w, x, count - 1, m))
  }

  /** The first m terms' transform against frequency j, over the first `count` bins. */
  function Cross(w: Complex, x: seq<Complex>, m: nat, j: nat, count: nat): Complex
    requires m <= |x|
  {
    if count == 0 then ZERO
    else Add(Cross(w, x, m, j, count - 1), Mul(DftSum(w, x, count - 1, m), Conj(Pow(Pow(w, j), count - 1))))
  }

  lemma CrossTerm(a: Complex, c: Complex, g: Complex, p: Complex, e: Complex, f: Complex)
    ensures Add(Add(a, Mul(c, g)), Mul(Add(p, Mul(c, e)), f))
         == Add(Add(a, Mul(p, f)), Mul(c, Add(g, Mul(e, f))))
  {
    MulAdd(f, p, Mul(c, e));
    MulAssoc(c, e, f);
    MulAdd(c, g, Mul(e, f));
  }

  lemma {:induction false} CrossStep(w: Complex, x: seq<Complex>, m: nat, j: nat, count: nat)
    requires m < |x|
    ensures Cross(w, x, m + 1, j, count) == Add(Cross(w, x, m, j, count), Mul(x[m], Gram(w, m, j, count)))
  {
    hide Mul, Add, Pow, Norm2;
    AddZeroProduct(ZERO, x[m]);
    if count > 0 {
      CrossStep(w, x, m, j, count - 1);
      var k := count - 1;
      CrossTerm(Cross(w, x, m, j, k), x[m], Gram(w, m, j, k), DftSum(w, x, k, m), Pow(Pow(w, m), k), Conj(Pow(Pow(w, j), k)));
    }
  }

  lemma AddZeroProduct(a: Complex, c: Complex)
    ensures Add(a, Mul(c, ZERO)) == a
  {
  }

  /** Terms before j have nothing in common with frequency j. */
  lemma {:induction false} CrossIsZero(w: Complex, x: seq<Complex>, n: nat, m: nat, j: nat)
    requires IsPrimitiveRoot(w, n) && m <= |x| && m <= j < n
    ensures Cross(w, x, m, j, n) == ZERO
  {
    hide Mul, Pow, Norm2, Add, Gram, IsPrimitiveRoot;
    if m == 0 {
      CrossOfNothing(w, x, j, n);
    } else {
      CrossIsZero(w, x, n, m - 1, j);
      CrossStep(w, x, m - 1, j, n);
      Orthogonal(w, n, m - 1, j);
      AddZeroProduct(ZERO, x[m - 1]);
    }
  }

  lemma {:induction false} CrossOfNothing(w: Complex, x: seq<Complex>, j: nat, count: nat)
    ensures Cross(w, x, 0, j, count) == ZERO
  {
    if count > 0 {
      CrossOfNothing(w, x, j, count - 1);
      ZeroTimes(Conj(Pow(Pow(w, j), count - 1)));
      hide Mul;
    }
  }

  lemma ZeroTimes(a: Complex)
    ensures Mul(ZERO, a) == ZERO
  {
  }

  lemma EnergyTerm(p: Complex, c: Complex, e: Complex)
    requires Norm2(e) == 1.0
    ensures Norm2(Add(p, Mul(c, e))) == Norm2(p) + 2.0 * Mul(Conj(c), Mul(p, Conj(e))).re + Norm2(c)
  {
    NormOfSum(p, Mul(c, e));
    NormMul(c, e);
    ConjMul(c, e);
    MulAssoc(p, Conj(c), Conj(e));
    MulComm(p, Conj(c));
    MulAssoc(Conj(c), p, Conj(e));
    hide Mul, Norm2, Conj;
  }

  lemma RealPartAdd(a: Complex, b: Complex, c: Complex)
    ensures Mul(c, Add(a, b)).re == Mul(c, a).re + Mul(c, b).re
  {
  }

  lemma {:induction false} BinEnergyStep(w: Complex, x: seq<Complex>, m: nat, count: nat)
    requires m < |x| && Norm2(w) == 1.0
    ensures BinEnergy(w, x, m + 1, count)
         == BinEnergy(w, x, m, count) + 2.0 * Mul(Conj(x[m]), Cross(w, x, m, m, count)).re + count as real * Norm2(x[m])
  {
    hide Mul, Norm2, Add, Conj;
    if count == 0 {
      TimesZeroComplex(Conj(x[m]));
    } else {
      var k := count - 1;
      BinEnergyStep(w, x, m, k);
      var p, e := DftSum(w, x, k, m), Pow(Pow(w, m), k);
      PowNorm(w, m);
      PowNorm(Pow(w, m), k);
      EnergyTerm(p, x[m], e);
      RealPartAdd(Cross(w, x, m, m, k), Mul(p, Conj(e)), Conj(x[m]));
      assert count as real * Norm2(x[m]) == k as real * Norm2(x[m]) + Norm2(x[m]);
    }
  }

  lemma TimesZeroComplex(a: Complex)
    ensures Mul(a, ZERO).re == 0.0
  {
  }

  lemma RootNorm(w: Complex, n: nat)
    requires IsPrimitiveRoot(w, n)
    ensures Norm2(w) == 1.0
  {
  }

  lemma Distribute(a: real, b: real, c: real)
    ensures a * (b + c) == a * b + a * c
  {
  }

  lemma TimesNothing(a: real)
    ensures a * 0.0 == 0.0
  {
  }

  lemma {:induction false} PartialParseval(w: Complex, x: seq<Complex>, n: nat, m: nat)
    requires IsPrimitiveRoot(w, n) && m <= |x| && m <= n
    ensures BinEnergy(w, x, m, n) == n as real * Energy(x, m)
  {
    hide Mul, Pow, Norm2, Conj, Cross, DftSum, IsPrimitiveRoot;
    assert Norm2(w) == 1.0 by { RootNorm(w, n); }
    if m == 0 {
      NoBinEnergy(w, x, n);
      TimesNothing(n as real);
    } else {
      PartialParseval(w, x, n, m - 1);
      BinEnergyStep(w, x, m - 1, n);
      CrossIsZero(w, x, n, m - 1, m - 1);
      TimesZeroComplex(Conj(x[m - 1]));
      Distribute(n as real, Energy(x, m - 1), Norm2(x[m - 1]));
    }
  }

  lemma {:induction false} NoBinEnergy(w: Complex, x: seq<Complex>, count: nat)
    ensures BinEnergy(w, x, 0, count) == 0.0
  {
    hide Norm2, Pow, Mul, Add;
    if count > 0 {
      NoBinEnergy(w, x, count - 1);
      NormOfZero();
    }
  }

  /** Parseval's identity for the unnormalised transform. */
  lemma ParsevalIdentity(w: Complex, x: seq<Complex>)
    requires IsPrimitiveRoot(w, |x|)
    ensures BinEnergy(w, x, |x|, |x|) == |x| as real * Energy(x, |x|)
  {
    PartialParseval(w, x, |x|, |x|);
  }

  // --------------------------------------------------------- pure tones

  /** n samples of the tone that turns f times in them, against the direction in which w turns. */
  function Tone(w: Complex, n: nat, f: nat): (x: seq<Complex>)
    ensures |x| == n
  {
    seq(n, m requires 0 <= m < n => Conj(Pow(Pow(w, m), f)))
  }

  lemma PowSwap(w: Complex, a: nat, b: nat)
    ensures Pow(Pow(w, a), b) == Pow(Pow(w, b), a)
  {
    hide Pow;
    PowMul(w, a, b);
    PowMul(w, b, a);
    assert a * b == b * a;
  }

  lemma {:induction false} ToneSum(w: Complex, n: nat, f: nat, k: nat, m: nat)
    requires m <= n
    ensures DftSum(w, Tone(w, n, f), k, m) == Gram(w, k, f, m)
  {
    hide Mul, Add, Conj, Pow;
    if m > 0 {
      ToneSum(w, n, f, k, m - 1);
      PowSwap(w, m - 1, f);
      PowSwap(w, m - 1, k);
      MulComm(Tone(w, n, f)[m - 1], Pow(Pow(w, m - 1), k));
    }
  }

  lemma ConjAdd(a: Complex, b: Complex)
    ensures Conj(Add(a, b)) == Add(Conj(a), Conj(b))
    ensures Conj(Conj(a)) == a
  {
  }

  lemma {:induction false} GramReversed(w: Complex, i: nat, j: nat, count: nat)
    ensures Gram(w, i, j, count) == Conj(Gram(w, j, i, count))
  {
    if count > 0 {
      var p, q := Pow(Pow(w, i), count - 1), Pow(Pow(w, j), count - 1);
      GramReversed(w, i, j, count - 1);
      hide Mul, Add, Conj, Pow;
      ConjMul(q, Conj(p));
      ConjAdd(p, p);
      MulComm(Conj(q), p);
      ConjAdd(Gram(w, j, i, count - 1), Mul(q, Conj(p)));
    }
  }

  lemma {:induction false} GramWithItself(w: Complex, i: nat, count: nat)
    requires Norm2(w) == 1.0
    ensures Gram(w, i, i, count) == Complex(count as real, 0.0)
  {
    if count > 0 {
      GramWithItself(w, i, count - 1);
      PowNorm(w, i);
      PowNorm(Pow(w, i), count - 1);
      NormIsProduct(Pow(Pow(w, i), count - 1));
      hide Mul, Conj, Pow, Norm2;
    }
  }

  /** The transform puts a tone into its own bin and nothing of it into any other. */
  lemma ToneInItsBin(w: Complex, n: nat, f: nat, k: nat)
    requires IsPrimitiveRoot(w, n) && f < n && k < n
    ensures DftBin(w, Tone(w, n, f), k) == if k == f then Complex(n as real, 0.0) else ZERO
  {
    RootNorm(w, n);
    hide IsPrimitiveRoot, Mul, Pow, Norm2, Gram, Tone, DftSum;
    ToneSum(w, n, f, k, n);
    if k < f {
      Orthogonal(w, n, k, f);
    } else if f < k {
      Orthogonal(w, n, f, k);
      GramReversed(w, k, f, n);
    } else {
      GramWithItself(w, f, n);
    }
  }
}

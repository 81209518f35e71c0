/** The white-noise autocorrelation / power-spectral-density demo: a block of
    Gaussian noise is analysed by a sample autocorrelation and by the power
    spectrum of a recursive radix-2 FFT, and the power in a user-selected
    frequency band is compared with the total. */
module AutoPsd {
  import opened Sums

  /** Length of every generated noise block (a power of two, for the FFT). */
  const SignalLength: nat := 1024

  // ------------------------------------------------------------------
  // Autocorrelation (calculateAutocorrelation)
  // ------------------------------------------------------------------

  /** The lag product sum s[0] s[tau] + ... + s[m-1] s[m-1+tau]. */
  function LagSum(s: seq<real>, tau: nat, m: nat): real
    requires tau + m <= |s|
    decreases m
  {
    if m == 0 then 0.0 else LagSum(s, tau, m - 1) + s[m - 1] * s[m - 1 + tau]
  }

  /** The biased-by-count sample autocorrelation at lag tau: the lag product
      sum over the N - tau overlapping pairs divided by N - tau. */
  function Autocorrelation(s: seq<real>, tau: nat): (r: real)
    requires tau < |s|
    ensures r * ((|s| - tau) as real) == LagSum(s, tau, |s| - tau)
  {
    LagSum(s, tau, |s| - tau) / ((|s| - tau) as real)
  }

  /** The double loop: one accumulated sum per lag, written into a fresh
      array of N entries. */
  method CalculateAutocorrelation(signal: seq<real>) returns (acf: array<real>)
    ensures acf.Length == |signal|
    ensures forall tau :: 0 <= tau < |signal| ==> acf[tau] == Autocorrelation(signal, tau)
  {
    var n := |signal|;
    acf := new real[n];
    var tau := 0;
    while tau < n
      invariant 0 <= tau <= n
      invariant forall t :: 0 <= t < tau ==> acf[t] == Autocorrelation(signal, t)
    {
      var sum := 0.0;
      var i := 0;
      while i < n - tau
        invariant 0 <= i <= n - tau
        invariant sum == LagSum(signal, tau, i)
      {
        sum := sum + signal[i] * signal[i + tau];
        i := i + 1;
      }
      acf[tau] := sum / ((n - tau) as real);
      tau := tau + 1;
    }
  }

  lemma {:induction false} LagSumZeroLagNonNegative(s: seq<real>, m: nat)
    requires m <= |s|
    ensures LagSum(s, 0, m) >= 0.0
    decreases m
  {
    if m > 0 {
      LagSumZeroLagNonNegative(s, m - 1);
      SquareNonNegative(s[m - 1]);
    }
  }

  /** The zero-lag value, the mean of the squares, is never negative. */
  lemma ZeroLagNonNegative(s: seq<real>)
    requires |s| > 0
    ensures Autocorrelation(s, 0) >= 0.0
  {
    LagSumZeroLagNonNegative(s, |s|);
  }

  lemma {:induction false} LagSumOfZero(s: seq<real>, tau: nat, m: nat)
    requires tau + m <= |s|
    requires forall i :: 0 <= i < |s| ==> s[i] == 0.0
    ensures LagSum(s, tau, m) == 0.0
    decreases m
  {
    if m > 0 {
      LagSumOfZero(s, tau, m - 1);
    }
  }

  /** An all-zero signal has an all-zero autocorrelation. */
  lemma AutocorrelationOfZero(s: seq<real>, tau: nat)
    requires tau < |s|
    requires forall i :: 0 <= i < |s| ==> s[i] == 0.0
    ensures Autocorrelation(s, tau) == 0.0
  {
    LagSumOfZero(s, tau, |s| - tau);
  }

  /** The signal multiplied sample by sample by `c` (a change of noise
      standard deviation). */
  function Scale(c: real, s: seq<real>): (r: seq<real>)
    ensures |r| == |s|
    ensures forall i {:trigger r[i]} :: 0 <= i < |s| ==> r[i] == c * s[i]
  {
    seq(|s|, i requires 0 <= i < |s| => c * s[i])
  }

  /** The lag sum of the scaled signal is the lag sum times k = c^2. */
  lemma {:induction false} LagSumScales(k: real, c: real, s: seq<real>, tau: nat, m: nat)
    requires k == c * c
    requires tau + m <= |s|
    ensures LagSum(Scale(c, s), tau, m) == k * LagSum(s, tau, m)
    decreases m
  {
    if m > 0 {
      var cs := Scale(c, s);
      var a, b, x, y := s[m - 1], s[m - 1 + tau], cs[m - 1], cs[m - 1 + tau];
      var l, l', lc, lc' := LagSum(s, tau, m - 1), LagSum(s, tau, m), LagSum(cs, tau, m - 1), LagSum(cs, tau, m);
      LagSumScales(k, c, s, tau, m - 1);
      ScaledLagStep(k, c, a, b, x, y, l, l', lc, lc');
    }
  }

  /** One step of LagSumScales: if the sums before the step are in ratio k,
      so are the sums after it. */
  lemma ScaledLagStep(k: real, c: real, a: real, b: real, x: real, y: real,
                      l: real, l': real, lc: real, lc': real)
    requires k == c * c && x == c * a && y == c * b
    requires l' == l + a * b && lc == k * l && lc' == lc + x * y
    ensures lc' == k * l'
  {
  }

  lemma DivScale(k: real, x: real, d: real)
    requires d != 0.0
    ensures (k * x) / d == k * (x / d)
  {
  }

  /** Scaling the noise by c scales every autocorrelation value by c^2,
      i.e. by the change of noise power. */
  lemma AutocorrelationScales(c: real, s: seq<real>, tau: nat)
    requires tau < |s|
    ensures Autocorrelation(Scale(c, s), tau) == c * c * Autocorrelation(s, tau)
  {
    var cs, m := Scale(c, s), |s| - tau;
    var k, l, lc, d := c * c, LagSum(s, tau, m), LagSum(cs, tau, m), m as real;
    LagSumScales(k, c, s, tau, m);
    assert lc == k * l;
    assert Autocorrelation(cs, tau) == lc / d;
    assert Autocorrelation(s, tau) == l / d;
    DivScale(k, l, d);
  }

  // ------------------------------------------------------------------
  // Radix-2 recursive FFT (fft), with the twiddle factor abstract
  // ------------------------------------------------------------------

  datatype Complex = Complex(re: real, im: real)

  function Add(a: Complex, b: Complex): Complex { Complex(a.re + b.re, a.im + b.im) }
  function Sub(a: Complex, b: Complex): Complex { Complex(a.re - b.re, a.im - b.im) }
  /** Complex product (the `product` of one butterfly). */
  function Mul(a: Complex, b: Complex): (r: Complex)
    ensures b == Complex(1.0, 0.0) ==> r == a
    ensures a.im == 0.0 && b.im == 0.0 ==> r == Complex(a.re * b.re, 0.0)
  {
    Complex(a.re * b.re - a.im * b.im, a.re * b.im + a.im * b.re)
  }
  function ScaleC(c: real, a: Complex): Complex { Complex(c * a.re, c * a.im) }

  /** The twiddle factor for index k of a length-N stage; the source uses
      cos and sin of -2 pi k / N. */
  type Twiddle = (nat, nat) -> Complex

  predicate IsPowerOfTwo(n: nat)
    decreases n
  {
    n == 1 || (n >= 2 && n % 2 == 0 && IsPowerOfTwo(n / 2))
  }

  lemma SignalLengthIsPowerOfTwo()
    ensures IsPowerOfTwo(SignalLength)
  {
  }

  /** The samples at even positions (`filter((_, i) => i % 2 === 0)`). */
  function Evens(s: seq<real>): (r: seq<real>)
    ensures |r| == (|s| + 1) / 2
    ensures forall i {:trigger r[i]} :: 0 <= i < |r| ==> r[i] == s[2 * i]
  {
    seq((|s| + 1) / 2, i requires 0 <= i < (|s| + 1) / 2 => s[2 * i])
  }

  /** The samples at odd positions (`filter((_, i) => i % 2 !== 0)`). */
  function Odds(s: seq<real>): (r: seq<real>)
    ensures |r| == |s| / 2
    ensures forall i {:trigger r[i]} :: 0 <= i < |r| ==> r[i] == s[2 * i + 1]
  {
    seq(|s| / 2, i requires 0 <= i < |s| / 2 => s[2 * i + 1])
  }

  /** For an even length the two halves have N/2 samples each, and every
      sample of the signal is in exactly one of them: even positions j in
      Evens at j/2, odd positions in Odds at j/2. */
  lemma EvenOddSplit(s: seq<real>)
    requires |s| % 2 == 0
    ensures |Evens(s)| == |s| / 2 && |Odds(s)| == |s| / 2
    ensures forall j :: 0 <= j < |s| ==>
      s[j] == if j % 2 == 0 then Evens(s)[j / 2] else Odds(s)[j / 2]
  {
  }

  lemma HalvesArePowersOfTwo(s: seq<real>)
    requires IsPowerOfTwo(|s|) && |s| > 1
    ensures IsPowerOfTwo(|Evens(s)|) && IsPowerOfTwo(|Odds(s)|)
    ensures |Evens(s)| == |s| / 2 && |Odds(s)| == |s| / 2
  {
  }

  /** The combining step of one stage: entry k of the result is
      even[k] + w * odd[k] and entry N/2 + k is even[k] - w * odd[k], with
      w the twiddle factor for k at length N = 2 |even|. */
  function Butterflies(even: seq<Complex>, odd: seq<Complex>, tw: Twiddle): (r: seq<Complex>)
    requires |even| == |odd|
    ensures |r| == 2 * |even|
    ensures forall k {:trigger r[k]} :: 0 <= k < |even| ==>
      r[k] == Add(even[k], Mul(odd[k], tw(k, 2 * |even|)))
    ensures forall j {:trigger r[j]} :: |even| <= j < 2 * |even| ==>
      r[j] == Sub(even[j - |even|], Mul(odd[j - |even|], tw(j - |even|, 2 * |even|)))
  {
    var h := |even|;
    seq(2 * h, j requires 0 <= j < 2 * h =>
      if j < h then Add(even[j], Mul(odd[j], tw(j, 2 * h)))
      else Sub(even[j - h], Mul(odd[j - h], tw(j - h, 2 * h))))
  }

  /** The spectrum the recursion computes. A length-1 input is its own
      transform; a longer one combines the transforms of its even and odd
      halves, each of length N/2, by Butterflies. The result always has the
      input's length. */
  function FftSpec(s: seq<real>, tw: Twiddle): (r: seq<Complex>)
    requires IsPowerOfTwo(|s|)
    ensures |r| == |s|
    decreases |s|
  {
    if |s| == 1 then [Complex(s[0], 0.0)]
    else
      HalvesArePowersOfTwo(s);
      Butterflies(FftSpec(Evens(s), tw), FftSpec(Odds(s), tw), tw)
  }

  /** The butterfly structure: outputs k and k + N/2 are built from entry k of
      the transforms of the two halves, of length N/2 each. */
  lemma FftButterfly(s: seq<real>, tw: Twiddle, k: nat)
    requires IsPowerOfTwo(|s|) && |s| > 1 && k < |s| / 2
    ensures IsPowerOfTwo(|Evens(s)|) && IsPowerOfTwo(|Odds(s)|)
    ensures |FftSpec(Evens(s), tw)| == |s| / 2 && |FftSpec(Odds(s), tw)| == |s| / 2
    ensures var even, odd, w := FftSpec(Evens(s), tw)[k], FftSpec(Odds(s), tw)[k], tw(k, |s|);
      FftSpec(s, tw)[k] == Add(even, Mul(odd, w)) &&
      FftSpec(s, tw)[k + |s| / 2] == Sub(even, Mul(odd, w))
  {
    HalvesArePowersOfTwo(s);
    var even, odd := FftSpec(Evens(s), tw), FftSpec(Odds(s), tw);
    assert FftSpec(s, tw) == Butterflies(even, odd, tw);
    assert k + |s| / 2 == |even| + k;
  }

  /** The combining loop of `fft` over a fresh result array. */
  method Combine(even: seq<Complex>, odd: seq<Complex>, tw: Twiddle) returns (result: seq<Complex>)
    requires |even| == |odd|
    ensures result == Butterflies(even, odd, tw)
  {
    var h := |even|;
    var n := 2 * h;
    var res := new Complex[n];
    var k := 0;
    while k < h
      invariant 0 <= k <= h
      invariant forall j :: 0 <= j < k ==> res[j] == Add(even[j], Mul(odd[j], tw(j, n)))
      invariant forall j :: 0 <= j < k ==> res[h + j] == Sub(even[j], Mul(odd[j], tw(j, n)))
    {
      var t := odd[k];
      var c := tw(k, n);
      var product := Mul(t, c);
      res[k] := Add(even[k], product);
      res[k + h] := Sub(even[k], product);
      k := k + 1;
    }
    result := res[..];
    ghost var spec := Butterflies(even, odd, tw);
    forall j | 0 <= j < n
      ensures result[j] == spec[j]
    {
      if j >= h {
        assert res[h + (j - h)] == spec[h + (j - h)];
      }
    }
  }

  /** The recursive transform. */
  method Fft(signal: seq<real>, tw: Twiddle) returns (result: seq<Complex>)
    requires IsPowerOfTwo(|signal|)
    ensures result == FftSpec(signal, tw)
    decreases |signal|
  {
    var n := |signal|;
    if n <= 1 {
      return [Complex(signal[0], 0.0)];
    }
    HalvesArePowersOfTwo(signal);
    var even := Fft(Evens(signal), tw);
    var odd := Fft(Odds(signal), tw);
    result := Combine(even, odd, tw);
  }

  /** Removing the last two samples of an even-length signal removes the
      last entry of each half. */
  lemma HalvesOfPrefix(s: seq<real>)
    requires |s| >= 2 && |s| % 2 == 0
    ensures Evens(s) == Evens(s[..|s| - 2]) + [s[|s| - 2]]
    ensures Odds(s) == Odds(s[..|s| - 2]) + [s[|s| - 1]]
  {
  }

  /** The two halves together hold the whole signal's total. */
  lemma {:induction false} SumOfHalves(s: seq<real>)
    requires |s| % 2 == 0
    ensures Sum(Evens(s)) + Sum(Odds(s)) == Sum(s)
    decreases |s|
  {
    if |s| > 0 {
      var p := s[..|s| - 2];
      HalvesOfPrefix(s);
      SumOfHalves(p);
      SumConcat(Evens(p), [s[|s| - 2]]);
      SumConcat(Odds(p), [s[|s| - 1]]);
      assert s == p + [s[|s| - 2]] + [s[|s| - 1]];
      SumConcat(p + [s[|s| - 2]], [s[|s| - 1]]);
      SumConcat(p, [s[|s| - 2]]);
    }
  }

  /** With the true twiddle factor at k = 0 (cos 0 = 1, sin 0 = 0), bin 0
      of the spectrum is the plain sum of the samples: the DC component. */
  lemma {:induction false} FftDcBin(s: seq<real>, tw: Twiddle)
    requires IsPowerOfTwo(|s|)
    requires forall n :: tw(0, n) == Complex(1.0, 0.0)
    ensures FftSpec(s, tw)[0] == Complex(Sum(s), 0.0)
    decreases |s|
  {
    if |s| == 1 {
      assert s == [] + [s[0]];
      SumConcat([], [s[0]]);
    } else {
      HalvesArePowersOfTwo(s);
      FftDcBin(Evens(s), tw);
      FftDcBin(Odds(s), tw);
      SumOfHalves(s);
      FftButterfly(s, tw, 0);
    }
  }

  /** A spectrum multiplied bin by bin by `c`. */
  function ScaleSpectrum(c: real, z: seq<Complex>): (r: seq<Complex>)
    ensures |r| == |z|
    ensures forall k {:trigger r[k]} :: 0 <= k < |z| ==> r[k] == ScaleC(c, z[k])
  {
    seq(|z|, k requires 0 <= k < |z| => ScaleC(c, z[k]))
  }

  /** Two spectra added bin by bin. */
  function AddSpectra(a: seq<Complex>, b: seq<Complex>): (r: seq<Complex>)
    requires |a| == |b|
    ensures |r| == |a|
    ensures forall k {:trigger r[k]} :: 0 <= k < |a| ==> r[k] == Add(a[k], b[k])
  {
    seq(|a|, k requires 0 <= k < |a| => Add(a[k], b[k]))
  }

  /** Two signals added sample by sample. */
  function AddSignals(a: seq<real>, b: seq<real>): (r: seq<real>)
    requires |a| == |b|
    ensures |r| == |a|
    ensures forall i {:trigger r[i]} :: 0 <= i < |a| ==> r[i] == a[i] + b[i]
  {
    seq(|a|, i requires 0 <= i < |a| => a[i] + b[i])
  }

  lemma MulScale(c: real, a: Complex, w: Complex)
    ensures Mul(ScaleC(c, a), w) == ScaleC(c, Mul(a, w))
  {
  }

  lemma AddSubScale(c: real, a: Complex, b: Complex)
    ensures Add(ScaleC(c, a), ScaleC(c, b)) == ScaleC(c, Add(a, b))
    ensures Sub(ScaleC(c, a), ScaleC(c, b)) == ScaleC(c, Sub(a, b))
  {
  }

  lemma ButterflyScaleAt(c: real, even: seq<Complex>, odd: seq<Complex>, tw: Twiddle, k: nat)
    requires |even| == |odd| && k < |even|
    ensures var h := |even|;
      var l, r := Butterflies(ScaleSpectrum(c, even), ScaleSpectrum(c, odd), tw), ScaleSpectrum(c, Butterflies(even, odd, tw));
      l[k] == r[k] && l[h + k] == r[h + k]
  {
    var h := |even|;
    var l, r := Butterflies(ScaleSpectrum(c, even), ScaleSpectrum(c, odd), tw), ScaleSpectrum(c, Butterflies(even, odd, tw));
    var e, o, w := even[k], odd[k], tw(k, 2 * h);
    assert l[k] == Add(ScaleC(c, e), Mul(ScaleC(c, o), w));
    assert l[h + k] == Sub(ScaleC(c, e), Mul(ScaleC(c, o), w));
    assert r[k] == ScaleC(c, Add(e, Mul(o, w)));
    assert r[h + k] == ScaleC(c, Sub(e, Mul(o, w)));
    MulScale(c, o, w);
    AddSubScale(c, e, Mul(o, w));
  }

  lemma ButterfliesScale(c: real, even: seq<Complex>, odd: seq<Complex>, tw: Twiddle)
    requires |even| == |odd|
    ensures Butterflies(ScaleSpectrum(c, even), ScaleSpectrum(c, odd), tw)
         == ScaleSpectrum(c, Butterflies(even, odd, tw))
  {
    var h := |even|;
    var l := Butterflies(ScaleSpectrum(c, even), ScaleSpectrum(c, odd), tw);
    var r := ScaleSpectrum(c, Butterflies(even, odd, tw));
    forall j | 0 <= j < 2 * h
      ensures l[j] == r[j]
    {
      if j < h {
        ButterflyScaleAt(c, even, odd, tw, j);
      } else {
        ButterflyScaleAt(c, even, odd, tw, j - h);
        assert h + (j - h) == j;
      }
    }
  }

  lemma MulAdd(a: Complex, b: Complex, w: Complex)
    ensures Mul(Add(a, b), w) == Add(Mul(a, w), Mul(b, w))
  {
  }

  lemma ButterflyAddAt(ea: seq<Complex>, oa: seq<Complex>, eb: seq<Complex>, ob: seq<Complex>, tw: Twiddle, k: nat)
    requires |ea| == |oa| == |eb| == |ob| && k < |ea|
    ensures var h := |ea|;
      var l, r := Butterflies(AddSpectra(ea, eb), AddSpectra(oa, ob), tw),
                  AddSpectra(Butterflies(ea, oa, tw), Butterflies(eb, ob, tw));
      l[k] == r[k] && l[h + k] == r[h + k]
  {
    var h := |ea|;
    var l, r := Butterflies(AddSpectra(ea, eb), AddSpectra(oa, ob), tw),
                AddSpectra(Butterflies(ea, oa, tw), Butterflies(eb, ob, tw));
    var w := tw(k, 2 * h);
    assert l[k] == Add(Add(ea[k], eb[k]), Mul(Add(oa[k], ob[k]), w));
    assert l[h + k] == Sub(Add(ea[k], eb[k]), Mul(Add(oa[k], ob[k]), w));
    assert r[k] == Add(Add(ea[k], Mul(oa[k], w)), Add(eb[k], Mul(ob[k], w)));
    assert r[h + k] == Add(Sub(ea[k], Mul(oa[k], w)), Sub(eb[k], Mul(ob[k], w)));
    MulAdd(oa[k], ob[k], w);
  }

  lemma ButterfliesAdd(ea: seq<Complex>, oa: seq<Complex>, eb: seq<Complex>, ob: seq<Complex>, tw: Twiddle)
    requires |ea| == |oa| == |eb| == |ob|
    ensures Butterflies(AddSpectra(ea, eb), AddSpectra(oa, ob), tw)
         == AddSpectra(Butterflies(ea, oa, tw), Butterflies(eb, ob, tw))
  {
    var h := |ea|;
    var l := Butterflies(AddSpectra(ea, eb), AddSpectra(oa, ob), tw);
    var r := AddSpectra(Butterflies(ea, oa, tw), Butterflies(eb, ob, tw));
    forall j | 0 <= j < 2 * h
      ensures l[j] == r[j]
    {
      if j < h {
        ButterflyAddAt(ea, oa, eb, ob, tw, j);
      } else {
        ButterflyAddAt(ea, oa, eb, ob, tw, j - h);
        assert h + (j - h) == j;
      }
    }
  }

  /** The transform is homogeneous: the spectrum of c times a signal is c
      times its spectrum. */
  lemma {:induction false} FftScales(c: real, s: seq<real>, tw: Twiddle)
    requires IsPowerOfTwo(|s|)
    ensures FftSpec(Scale(c, s), tw) == ScaleSpectrum(c, FftSpec(s, tw))
    decreases |s|
  {
    var cs := Scale(c, s);
    if |s| == 1 {
      assert FftSpec(cs, tw)[0] == ScaleSpectrum(c, FftSpec(s, tw))[0];
    } else {
      HalvesArePowersOfTwo(s);
      HalvesArePowersOfTwo(cs);
      assert Evens(cs) == Scale(c, Evens(s)) by {
        forall i | 0 <= i < |Evens(cs)| ensures Evens(cs)[i] == Scale(c, Evens(s))[i] {
          assert Evens(cs)[i] == cs[2 * i];
        }
      }
      assert Odds(cs) == Scale(c, Odds(s)) by {
        forall i | 0 <= i < |Odds(cs)| ensures Odds(cs)[i] == Scale(c, Odds(s))[i] {
          assert Odds(cs)[i] == cs[2 * i + 1];
        }
      }
      FftScales(c, Evens(s), tw);
      FftScales(c, Odds(s), tw);
      ButterfliesScale(c, FftSpec(Evens(s), tw), FftSpec(Odds(s), tw), tw);
    }
  }

  /** The transform is additive: the spectrum of a sum of two signals is the
      sum of their spectra. */
  lemma {:induction false} FftAdds(a: seq<real>, b: seq<real>, tw: Twiddle)
    requires IsPowerOfTwo(|a|) && |b| == |a|
    ensures FftSpec(AddSignals(a, b), tw) == AddSpectra(FftSpec(a, tw), FftSpec(b, tw))
    decreases |a|
  {
    var ab := AddSignals(a, b);
    if |a| > 1 {
      HalvesArePowersOfTwo(a);
      HalvesArePowersOfTwo(b);
      HalvesArePowersOfTwo(ab);
      assert Evens(ab) == AddSignals(Evens(a), Evens(b)) by {
        forall i | 0 <= i < |Evens(ab)| ensures Evens(ab)[i] == AddSignals(Evens(a), Evens(b))[i] {
          assert Evens(ab)[i] == ab[2 * i];
        }
      }
      assert Odds(ab) == AddSignals(Odds(a), Odds(b)) by {
        forall i | 0 <= i < |Odds(ab)| ensures Odds(ab)[i] == AddSignals(Odds(a), Odds(b))[i] {
          assert Odds(ab)[i] == ab[2 * i + 1];
        }
      }
      FftAdds(Evens(a), Evens(b), tw);
      FftAdds(Odds(a), Odds(b), tw);
      ButterfliesAdd(FftSpec(Evens(a), tw), FftSpec(Odds(a), tw),
                     FftSpec(Evens(b), tw), FftSpec(Odds(b), tw), tw);
    }
  }

  // ------------------------------------------------------------------
  // Power spectrum and band power (runFullAnalysis, updateObservations)
  // ------------------------------------------------------------------

  /** Squared magnitude re^2 + im^2. */
  function Norm2(z: Complex): (r: real)
    ensures r >= 0.0
  {
    SquareNonNegative(z.re);
    SquareNonNegative(z.im);
    z.re * z.re + z.im * z.im
  }

  /** `(re^2 + im^2) / N` for each of the first N/2 bins. */
  function PowerSpectrum(spectrum: seq<Complex>, n: nat): (p: seq<real>)
    requires 0 < n && n / 2 <= |spectrum|
    ensures |p| == n / 2
    ensures forall k {:trigger p[k]} :: 0 <= k < |p| ==> p[k] >= 0.0
  {
    seq(n / 2, k requires 0 <= k < n / 2 => Norm2(spectrum[k]) / (n as real))
  }

  lemma Norm2Scales(c: real, z: Complex)
    ensures Norm2(ScaleC(c, z)) == c * c * Norm2(z)
  {
  }

  lemma PowerSpectrumOfScaled(c: real, z: seq<Complex>, n: nat)
    requires 0 < n && n / 2 <= |z|
    ensures PowerSpectrum(ScaleSpectrum(c, z), n) == Scale(c * c, PowerSpectrum(z, n))
  {
    var p, q, m := PowerSpectrum(ScaleSpectrum(c, z), n), PowerSpectrum(z, n), n as real;
    forall k | 0 <= k < |p|
      ensures p[k] == Scale(c * c, q)[k]
    {
      assert p[k] == Norm2(ScaleC(c, z[k])) / m;
      assert q[k] == Norm2(z[k]) / m;
      Norm2Scales(c, z[k]);
      DivScale(c * c, Norm2(z[k]), m);
    }
  }

  /** Scaling the noise by c multiplies every PSD bin by c^2. */
  lemma PowerSpectrumScales(c: real, s: seq<real>, tw: Twiddle)
    requires IsPowerOfTwo(|s|)
    ensures PowerSpectrum(FftSpec(Scale(c, s), tw), |s|) == Scale(c * c, PowerSpectrum(FftSpec(s, tw), |s|))
  {
    FftScales(c, s, tw);
    PowerSpectrumOfScaled(c, FftSpec(s, tw), |s|);
  }

  /** One press of "generate": autocorrelation and PSD of the drawn noise. */
  method RunFullAnalysis(noise: seq<real>, tw: Twiddle) returns (acf: array<real>, psd: seq<real>)
    requires |noise| == SignalLength
    ensures acf.Length == SignalLength
    ensures forall tau :: 0 <= tau < SignalLength ==> acf[tau] == Autocorrelation(noise, tau)
    ensures IsPowerOfTwo(|noise|) && psd == PowerSpectrum(FftSpec(noise, tw), SignalLength)
    ensures |psd| == SignalLength / 2 && forall k :: 0 <= k < |psd| ==> psd[k] >= 0.0
  {
    acf := CalculateAutocorrelation(noise);
    SignalLengthIsPowerOfTwo();
    var fftResult := Fft(noise, tw);
    psd := PowerSpectrum(fftResult, SignalLength);
  }

  /** JavaScript's `slice` index resolution: negative indices count from
      the end, and every index is clamped to [0, len]. */
  function SliceIndex(i: int, len: nat): (r: nat)
    ensures r <= len
    ensures 0 <= i <= len ==> r == i
    ensures i > len ==> r == len
    ensures i < 0 ==> r == if len + i >= 0 then len + i else 0
  {
    if i < 0 then (if len + i >= 0 then len + i else 0)
    else if i <= len then i else len
  }

  /** `s.slice(start, end)`. */
  function JsSlice(s: seq<real>, start: int, end: int): (r: seq<real>)
    ensures SliceIndex(start, |s|) < SliceIndex(end, |s|) ==>
      r == s[SliceIndex(start, |s|)..SliceIndex(end, |s|)]
    ensures SliceIndex(start, |s|) >= SliceIndex(end, |s|) ==> r == []
  {
    var a, b := SliceIndex(start, |s|), SliceIndex(end, |s|);
    if a < b then s[a..b] else []
  }

  /** Power in the band [start, end] (both ends inclusive). */
  function BandPower(psd: seq<real>, start: int, end: int): (p: real)
    ensures 0 <= start <= end < |psd| ==> p == Sum(psd[start..end + 1])
  {
    Sum(JsSlice(psd, start, end + 1))
  }

  /** With non-negative bins, the band power lies between 0 and the total
      power, whatever the slider values. */
  lemma BandPowerAtMostTotal(psd: seq<real>, start: int, end: int)
    requires forall k :: 0 <= k < |psd| ==> psd[k] >= 0.0
    ensures 0.0 <= BandPower(psd, start, end) <= Sum(psd)
  {
    var a, b := SliceIndex(start, |psd|), SliceIndex(end + 1, |psd|);
    if a < b {
      SumSliceAtMostTotal(psd, a, b);
    } else {
      SumNonNegative(psd);
    }
  }

  /** The two figures `updateObservations` reports. */
  datatype Observations = Observations(totalPower: real, bandPower: real)

  /** What `updateObservations` computes from the PSD and the two slider
      values: the total power and the power in the band. */
  function Observe(psd: seq<real>, start: int, end: int): (o: Observations)
    ensures o.totalPower == Sum(psd) && o.bandPower == BandPower(psd, start, end)
  {
    Observations(Sum(psd), BandPower(psd, start, end))
  }

  /** For a PSD of non-negative bins the band never reports more power than
      the whole spectrum, and never a negative power. */
  lemma ObserveBounded(psd: seq<real>, start: int, end: int)
    requires forall k :: 0 <= k < |psd| ==> psd[k] >= 0.0
    ensures 0.0 <= Observe(psd, start, end).bandPower <= Observe(psd, start, end).totalPower
  {
    BandPowerAtMostTotal(psd, start, end);
  }

  // ------------------------------------------------------------------
  // Band selection sliders (the two oninput handlers)
  // ------------------------------------------------------------------

  /** The start and end frequency sliders; each handler pushes the other
      slider so that start < end afterwards. */
  class BandSliders {
    var start: int
    var end: int

    constructor (start0: int, end0: int)
      ensures start == start0 && end == end0
    {
      start, end := start0, end0;
    }

    /** The start slider was moved to `v`: the end slider is pushed to
        v + 1 if it is not already above v. */
    method OnStartInput(v: int)
      modifies this
      ensures start == v
      ensures end == if old(end) <= v then v + 1 else old(end)
      ensures start < end
    {
      start := v;
      if end <= start {
        end := start + 1;
      }
    }

    /** The end slider was moved to `v`: the start slider is pushed to
        v - 1 if it is not already below v. */
    method OnEndInput(v: int)
      modifies this
      ensures end == v
      ensures start == if v <= old(start) then v - 1 else old(start)
      ensures start < end
    {
      end := v;
      if end <= start {
        start := end - 1;
      }
    }
  }
}

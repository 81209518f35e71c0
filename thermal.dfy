/** The Johnson-Nyquist thermal-noise demo: electrons jiggle inside a
    conductor, the sum of their horizontal velocities is sampled as a noise
    voltage, and the samples are summarised by a histogram, a sample mean and
    a sample variance. */
module Thermal {
  import opened Sums

  // ------------------------------------------------------------------
  // Sample statistics (calculateMeanAndStdDev)
  // ------------------------------------------------------------------

  /** Sample mean; fewer than two samples give 0. */
  function Mean(data: seq<real>): (m: real)
    ensures |data| < 2 ==> m == 0.0
  {
    if |data| < 2 then 0.0 else Sum(data) / (|data| as real)
  }

  /** With two or more samples, the mean times the count is the sum, and a
      mean of samples in [lo, hi] lies in [lo, hi]. */
  lemma MeanWithinBounds(data: seq<real>, lo: real, hi: real)
    requires |data| >= 2
    requires forall i :: 0 <= i < |data| ==> lo <= data[i] <= hi
    ensures Mean(data) * (|data| as real) == Sum(data)
    ensures lo <= Mean(data) <= hi
  {
    var n, t := |data| as real, Sum(data);
    SumBounds(data, lo, hi);
    assert Mean(data) == t / n;
    QuotientBounds(t, n, lo, hi);
  }

  lemma QuotientBounds(t: real, n: real, lo: real, hi: real)
    requires n > 0.0 && n * lo <= t <= n * hi
    ensures (t / n) * n == t
    ensures lo <= t / n <= hi
  {
    var m := t / n;
    assert m * n == t;
    assert n * lo <= m * n <= n * hi;
  }

  /** `Math.pow(x, 2)`. */
  function Square(x: real): (r: real)
    ensures r >= 0.0
  {
    SquareNonNegative(x);
    x * x
  }

  /** The squared distance of every sample from the mean, in sample order. */
  function SquaredDeviations(data: seq<real>, mean: real): (d: seq<real>)
    ensures |d| == |data|
    ensures forall i :: 0 <= i < |d| ==> d[i] >= 0.0
  {
    seq(|data|, i requires 0 <= i < |data| => Square(data[i] - mean))
  }

  /** The unbiased sample variance (the square of the returned stdDev);
      fewer than two samples give 0. */
  function SampleVariance(data: seq<real>): (v: real)
    ensures v >= 0.0
    ensures |data| < 2 ==> v == 0.0
  {
    if |data| < 2 then 0.0
    else
      var d := SquaredDeviations(data, Mean(data));
      SumNonNegative(d);
      Sum(d) / ((|data| - 1) as real)
  }

  /** Constant samples have that constant as mean and zero variance. */
  lemma ConstantSamples(data: seq<real>, c: real)
    requires |data| >= 2
    requires forall i :: 0 <= i < |data| ==> data[i] == c
    ensures Mean(data) == c
    ensures SampleVariance(data) == 0.0
  {
    MeanWithinBounds(data, c, c);
    var d := SquaredDeviations(data, c);
    SumBounds(d, 0.0, 0.0);
  }

  // ------------------------------------------------------------------
  // Histogram (updateHistogramChart, counts and densities)
  // ------------------------------------------------------------------

  const NumBins: nat := 50
  /** Fewer samples than this clear the histogram. */
  const MinSamples: nat := 20

  /** The histogram covers [-4 sigma, 4 sigma) of the theoretical deviation. */
  function StableMin(stdDev: real): real { -4.0 * stdDev }
  function StableMax(stdDev: real): real { 4.0 * stdDev }
  function BinWidth(stdDev: real): real { (StableMax(stdDev) - StableMin(stdDev)) / (NumBins as real) }

  /** `Math.floor((v - stableMin) / binWidth)`. */
  function BinIndex(v: real, stableMin: real, binWidth: real): (b: int)
    requires binWidth > 0.0
    ensures b as real <= (v - stableMin) / binWidth < b as real + 1.0
  {
    ((v - stableMin) / binWidth).Floor
  }

  /** A sample falls in one of the bins exactly when it lies in
      [stableMin, stableMax). */
  lemma InBinIffInRange(v: real, stableMin: real, stableMax: real)
    requires stableMin < stableMax
    ensures var w := (stableMax - stableMin) / (NumBins as real);
      0 <= BinIndex(v, stableMin, w) < NumBins <==> stableMin <= v < stableMax
  {
    var w := (stableMax - stableMin) / (NumBins as real);
    var q := (v - stableMin) / w;
    assert q * w == v - stableMin;
    assert stableMax - stableMin == (NumBins as real) * w;
    if v < stableMin {
      assert q < 0.0;
    } else if v >= stableMax {
      assert q >= NumBins as real;
    } else {
      assert 0.0 <= q < NumBins as real;
    }
  }

  predicate InSomeBin(v: real, stableMin: real, binWidth: real)
    requires binWidth > 0.0
  {
    0 <= BinIndex(v, stableMin, binWidth) < NumBins
  }

  /** How many of `samples` land in bin `b`. */
  function CountInBin(samples: seq<real>, stableMin: real, binWidth: real, b: int): nat
    requires binWidth > 0.0
    decreases |samples|
  {
    if samples == [] then 0
    else
      CountInBin(samples[..|samples| - 1], stableMin, binWidth, b)
      + (if BinIndex(samples[|samples| - 1], stableMin, binWidth) == b then 1 else 0)
  }

  /** How many of `samples` land in some bin. */
  function CountBinned(samples: seq<real>, stableMin: real, binWidth: real): (n: nat)
    requires binWidth > 0.0
    ensures n <= |samples|
    decreases |samples|
  {
    if samples == [] then 0
    else
      CountBinned(samples[..|samples| - 1], stableMin, binWidth)
      + (if InSomeBin(samples[|samples| - 1], stableMin, binWidth) then 1 else 0)
  }

  function SumCounts(s: seq<nat>): nat
    decreases |s|
  {
    if s == [] then 0 else SumCounts(s[..|s| - 1]) + s[|s| - 1]
  }

  /** Incrementing one counter raises the total by one. */
  lemma {:induction false} SumCountsIncrement(s: seq<nat>, j: nat)
    requires j < |s|
    ensures SumCounts(s[j := s[j] + 1]) == SumCounts(s) + 1
    decreases |s|
  {
    var t := s[j := s[j] + 1];
    assert t[..|t| - 1] == if j < |s| - 1 then s[..|s| - 1][j := s[j] + 1] else s[..|s| - 1];
    if j < |s| - 1 {
      SumCountsIncrement(s[..|s| - 1], j);
    }
  }

  lemma {:induction false} SumCountsZero(s: seq<nat>)
    requires forall i :: 0 <= i < |s| ==> s[i] == 0
    ensures SumCounts(s) == 0
    decreases |s|
  {
    if s != [] {
      SumCountsZero(s[..|s| - 1]);
    }
  }

  /** The binning loop over a fresh array of 50 zeroed counters. */
  method BinSamples(samples: seq<real>, stableMin: real, binWidth: real) returns (bins: array<nat>)
    requires binWidth > 0.0
    ensures bins.Length == NumBins
    ensures forall b :: 0 <= b < NumBins ==> bins[b] == CountInBin(samples, stableMin, binWidth, b)
    ensures SumCounts(bins[..]) == CountBinned(samples, stableMin, binWidth) <= |samples|
  {
    bins := new nat[NumBins](_ => 0);
    SumCountsZero(bins[..]);
    var i := 0;
    while i < |samples|
      invariant 0 <= i <= |samples|
      invariant bins.Length == NumBins
      invariant forall b :: 0 <= b < NumBins ==> bins[b] == CountInBin(samples[..i], stableMin, binWidth, b)
      invariant SumCounts(bins[..]) == CountBinned(samples[..i], stableMin, binWidth)
    {
      assert samples[..i + 1][..i] == samples[..i];
      var binIndex := BinIndex(samples[i], stableMin, binWidth);
      if 0 <= binIndex < NumBins {
        SumCountsIncrement(bins[..], binIndex);
        bins[binIndex] := bins[binIndex] + 1;
      }
      i := i + 1;
    }
    assert samples[..i] == samples;
  }

  /** Probability densities `count / (totalSamples * binWidth)`. */
  function Densities(bins: seq<nat>, total: nat, binWidth: real): (d: seq<real>)
    requires total > 0 && binWidth > 0.0
    ensures |d| == |bins|
    ensures forall b :: 0 <= b < |d| ==> d[b] >= 0.0
    ensures forall b :: 0 <= b < |d| ==> d[b] * ((total as real) * binWidth) == bins[b] as real
  {
    seq(|bins|, b requires 0 <= b < |bins| => (bins[b] as real) / ((total as real) * binWidth))
  }

  /** The densities integrate (sum times bin width) to the binned fraction:
      their sum times `total * binWidth` is the number of binned samples. */
  lemma {:induction false} DensityMass(bins: seq<nat>, total: nat, binWidth: real)
    requires total > 0 && binWidth > 0.0
    ensures Sum(Densities(bins, total, binWidth)) * ((total as real) * binWidth) == SumCounts(bins) as real
    decreases |bins|
  {
    var d := Densities(bins, total, binWidth);
    if bins != [] {
      var init := bins[..|bins| - 1];
      var c := (total as real) * binWidth;
      assert d[..|d| - 1] == Densities(init, total, binWidth);
      DensityMass(init, total, binWidth);
      assert Sum(d) == Sum(d[..|d| - 1]) + d[|d| - 1];
      DistributeStep(Sum(d), Sum(d[..|d| - 1]), d[|d| - 1], c);
    } else {
      assert d == [];
    }
  }

  lemma DistributeStep(t: real, t0: real, x: real, c: real)
    requires t == t0 + x
    ensures t * c == t0 * c + x * c
  {
  }

  /** Sum of densities times the bin width is at most 1 when no more
      samples were binned than were taken. */
  lemma DensityMassAtMostOne(bins: seq<nat>, total: nat, binWidth: real)
    requires total > 0 && binWidth > 0.0
    requires SumCounts(bins) <= total
    ensures Sum(Densities(bins, total, binWidth)) * binWidth <= 1.0
  {
    DensityMass(bins, total, binWidth);
    FractionAtMostOne(Sum(Densities(bins, total, binWidth)), binWidth, total as real, SumCounts(bins) as real);
  }

  lemma FractionAtMostOne(s: real, w: real, t: real, n: real)
    requires t > 0.0 && s * (t * w) == n && n <= t
    ensures s * w <= 1.0
  {
  }

  /** What the histogram chart shows after an update. */
  datatype Histogram =
    | Cleared                                       // too few samples: no labels, no data
    | Unchanged                                     // degenerate bin width: chart left as it was
    | Shown(counts: seq<nat>, densities: seq<real>)

  /** `updateHistogramChart` without the labels and the theoretical curve;
      `stdDev` is the theoretical standard deviation that fixes the range. */
  method UpdateHistogram(samples: seq<real>, stdDev: real) returns (h: Histogram)
    ensures h == Cleared <==> |samples| < MinSamples
    ensures h == Unchanged <==> |samples| >= MinSamples && BinWidth(stdDev) <= 0.0
    ensures h.Shown? ==>
      && BinWidth(stdDev) > 0.0
      && |h.counts| == NumBins
      && (forall b :: 0 <= b < NumBins ==> h.counts[b] == CountInBin(samples, StableMin(stdDev), BinWidth(stdDev), b))
      && SumCounts(h.counts) <= |samples|
      && h.densities == Densities(h.counts, |samples|, BinWidth(stdDev))
      && Sum(h.densities) * BinWidth(stdDev) <= 1.0
  {
    if |samples| < MinSamples {
      return Cleared;
    }
    var stableMin, stableMax := StableMin(stdDev), StableMax(stdDev);
    var binWidth := (stableMax - stableMin) / (NumBins as real);
    if binWidth <= 0.0 {
      return Unchanged;
    }
    var bins := BinSamples(samples, stableMin, binWidth);
    var totalSamples := |samples|;
    var densityData := Densities(bins[..], totalSamples, binWidth);
    DensityMassAtMostOne(bins[..], totalSamples, binWidth);
    h := Shown(bins[..], densityData);
  }

  // ------------------------------------------------------------------
  // Electrons (createElectrons, updateElectrons, collectVoltageSample)
  // ------------------------------------------------------------------

  /** `thermalKick`: a kick is `(Math.random() - 0.5) * thermalKick`. */
  const ThermalKick: real := 1.5
  /** Velocity damping per frame. */
  const Damping: real := 0.95
  /** The speed that damping and bounded kicks can never exceed:
      Damping * (MaxSpeed + ThermalKick / 2) == MaxSpeed. */
  const MaxSpeed: real := 14.25

  /** Position and velocity of one electron, in pixels and pixels per frame. */
  datatype Motion = Motion(x: real, y: real, vx: real, vy: real)

  function ConductorTop(h: real): real { h * 0.1 }
  function ConductorBottom(h: real): real { h * 0.9 }

  predicate InConductor(m: Motion, w: real, h: real) {
    0.0 <= m.x <= w && ConductorTop(h) <= m.y <= ConductorBottom(h)
  }

  predicate SpeedBounded(m: Motion) {
    -MaxSpeed <= m.vx <= MaxSpeed && -MaxSpeed <= m.vy <= MaxSpeed
  }

  function Max(a: real, b: real): real { if a >= b then a else b }
  function Min(a: real, b: real): real { if a <= b then a else b }

  /** One animation frame for one electron in a container of width `w` and
      height `h`; `rx`, `ry` are the two uniform draws of the frame. */
  function Step(m: Motion, rx: real, ry: real, w: real, h: real): (m': Motion)
    ensures m'.vx == (m.vx + (rx - 0.5) * ThermalKick) * Damping
    ensures var vy := (m.vy + (ry - 0.5) * ThermalKick) * Damping;
            var y := m.y + vy;
            m'.vy == if y < ConductorTop(h) || y > ConductorBottom(h) then -vy else vy
    ensures w >= 0.0 ==> 0.0 <= m'.x <= w
    ensures h >= 0.0 ==> ConductorTop(h) <= m'.y <= ConductorBottom(h)
  {
    var vx := (m.vx + (rx - 0.5) * ThermalKick) * Damping;
    var vy := (m.vy + (ry - 0.5) * ThermalKick) * Damping;
    var x := m.x + vx;
    var y := m.y + vy;
    // periodic horizontally
    var x := if x > w then 0.0 else x;
    var x := if x < 0.0 then w else x;
    // reflective vertically
    var top, bottom := ConductorTop(h), ConductorBottom(h);
    if y < top || y > bottom then Motion(x, Max(top, Min(y, bottom)), vx, -vy)
    else Motion(x, y, vx, vy)
  }

  /** Draws in [0, 1) keep every velocity component within MaxSpeed. */
  lemma StepKeepsSpeedBounded(m: Motion, rx: real, ry: real, w: real, h: real)
    requires SpeedBounded(m)
    requires 0.0 <= rx < 1.0 && 0.0 <= ry < 1.0
    ensures SpeedBounded(Step(m, rx, ry, w, h))
  {
  }

  /** Initial state of an electron from its four uniform draws: x uniform over
      80% of the width, y over 70% of the height from the conductor top, and
      each velocity component in [-1, 1). */
  function Spawn(draw: (real, real, real, real), w: real, h: real): (m: Motion)
    ensures m.x == draw.0 * w * 0.8 && m.y == ConductorTop(h) + draw.1 * (h * 0.7)
    ensures m.vx == (draw.2 - 0.5) * 2.0 && m.vy == (draw.3 - 0.5) * 2.0
  {
    Motion(draw.0 * w * 0.8, ConductorTop(h) + draw.1 * (h * 0.7),
           (draw.2 - 0.5) * 2.0, (draw.3 - 0.5) * 2.0)
  }

  lemma UnitScaling(a: real, b: real)
    requires 0.0 <= a <= 1.0 && b >= 0.0
    ensures 0.0 <= a * b <= b
  {
  }

  /** Electrons start inside the conductor and within the speed bound. */
  lemma SpawnInConductor(draw: (real, real, real, real), w: real, h: real)
    requires w >= 0.0 && h >= 0.0
    requires 0.0 <= draw.0 < 1.0 && 0.0 <= draw.1 < 1.0 && 0.0 <= draw.2 < 1.0 && 0.0 <= draw.3 < 1.0
    ensures InConductor(Spawn(draw, w, h), w, h)
    ensures SpeedBounded(Spawn(draw, w, h))
  {
    var m := Spawn(draw, w, h);
    UnitScaling(draw.0, w);
    var h7 := h * 0.7;
    UnitScaling(draw.1, h7);
    var ax, ay := draw.0 * w, draw.1 * h7;
    assert m.x == ax * 0.8 && m.y == ConductorTop(h) + ay;
    assert 0.0 <= m.x <= w;
    assert ConductorTop(h) <= m.y <= ConductorBottom(h);
  }

  /** An electron record (the image element it moves is left out). */
  class Electron {
    var x: real
    var y: real
    var vx: real
    var vy: real

    constructor (m: Motion)
      ensures State() == m
    {
      x, y, vx, vy := m.x, m.y, m.vx, m.vy;
    }

    function State(): Motion
      reads this
    {
      Motion(x, y, vx, vy)
    }
  }

  predicate Distinct(es: seq<Electron>) {
    forall i, j :: 0 <= i < j < |es| ==> es[i] != es[j]
  }

  /** Horizontal velocities of the electrons, in order. */
  function Velocities(es: seq<Electron>): (vs: seq<real>)
    reads es
    ensures |vs| == |es|
    ensures forall i :: 0 <= i < |es| ==> vs[i] == es[i].vx
  {
    seq(|es|, i reads es requires 0 <= i < |es| => es[i].vx)
  }

  /** The noise voltage read off the electrons: the sum of their horizontal
      velocities times `scale`, the factor that turns velocity into microvolts. */
  function VoltageSample(es: seq<Electron>, scale: real): (v: real)
    reads es
    ensures |es| == 0 ==> v == 0.0
    ensures |es| == 1 ==> v == es[0].vx * scale
  {
    var vs := Velocities(es);
    assert |es| == 0 ==> vs == [];
    assert |es| == 1 ==> vs[..0] == [] && Sum(vs) == Sum(vs[..0]) + vs[0];
    Sum(vs) * scale
  }

  /** The creation loop of `createElectrons`: one fresh electron per draw. */
  method SpawnElectrons(draws: seq<(real, real, real, real)>, w: real, h: real) returns (es: seq<Electron>)
    ensures |es| == |draws|
    ensures Distinct(es)
    ensures forall i :: 0 <= i < |es| ==> fresh(es[i]) && es[i].State() == Spawn(draws[i], w, h)
  {
    es := [];
    var i := 0;
    while i < |draws|
      invariant 0 <= i <= |draws|
      invariant |es| == i
      invariant Distinct(es)
      invariant forall k :: 0 <= k < i ==> fresh(es[k]) && es[k].State() == Spawn(draws[k], w, h)
    {
      var e := new Electron(Spawn(draws[i], w, h));
      es := es + [e];
      i := i + 1;
    }
  }

  /** The demo's mutable state: the electrons and the collected voltage samples. */
  class ThermalSim {
    var electrons: seq<Electron>
    var samples: seq<real>

    ghost predicate Valid()
      reads this
    {
      Distinct(electrons)
    }

    /** The reset handler: the sample list is emptied and the electrons are
        created anew from one draw quadruple each. */
    constructor Reset(draws: seq<(real, real, real, real)>, w: real, h: real)
      ensures Valid()
      ensures samples == []
      ensures |electrons| == |draws|
      ensures forall i :: 0 <= i < |draws| ==> fresh(electrons[i]) && electrons[i].State() == Spawn(draws[i], w, h)
    {
      var es := SpawnElectrons(draws, w, h);
      electrons := es;
      samples := [];
    }

    /** `createElectrons` on its own (the resize handler): samples are kept. */
    method CreateElectrons(draws: seq<(real, real, real, real)>, w: real, h: real)
      modifies this
      ensures Valid()
      ensures samples == old(samples)
      ensures |electrons| == |draws|
      ensures forall i :: 0 <= i < |draws| ==> fresh(electrons[i]) && electrons[i].State() == Spawn(draws[i], w, h)
    {
      electrons := SpawnElectrons(draws, w, h);
    }

    /** One animation frame: every electron takes one Step with its own pair
        of draws; no electron is added or removed. */
    method UpdateElectrons(draws: seq<(real, real)>, w: real, h: real)
      requires Valid()
      requires |draws| == |electrons|
      modifies set e | e in electrons
      ensures electrons == old(electrons) && samples == old(samples)
      ensures forall i :: 0 <= i < |electrons| ==>
        electrons[i].State() == Step(old(electrons[i].State()), draws[i].0, draws[i].1, w, h)
      ensures w >= 0.0 && h >= 0.0 ==> forall i :: 0 <= i < |electrons| ==> InConductor(electrons[i].State(), w, h)
    {
      var top, bottom := ConductorTop(h), ConductorBottom(h);
      var i := 0;
      while i < |electrons|
        invariant 0 <= i <= |electrons|
        invariant forall j :: 0 <= j < i ==>
          electrons[j].State() == Step(old(electrons[j].State()), draws[j].0, draws[j].1, w, h)
        invariant forall j :: i <= j < |electrons| ==> electrons[j].State() == old(electrons[j].State())
      {
        var e := electrons[i];
        ghost var before := e.State();
        e.vx := e.vx + (draws[i].0 - 0.5) * ThermalKick;
        e.vy := e.vy + (draws[i].1 - 0.5) * ThermalKick;
        e.vx := e.vx * Damping;
        e.vy := e.vy * Damping;
        e.x := e.x + e.vx;
        e.y := e.y + e.vy;
        if e.x > w { e.x := 0.0; }
        if e.x < 0.0 { e.x := w; }
        if e.y < top || e.y > bottom {
          e.vy := e.vy * -1.0;
          e.y := Max(top, Min(e.y, bottom));
        }
        assert e.State() == Step(before, draws[i].0, draws[i].1, w, h);
        i := i + 1;
      }
    }

    /** Appends one voltage sample when there are electrons; an empty
        conductor leaves the list as it is. */
    method CollectVoltageSample(scale: real)
      modifies this`samples
      ensures samples == if |electrons| == 0 then old(samples)
                         else old(samples) + [VoltageSample(electrons, scale)]
    {
      if |electrons| == 0 {
        return;
      }
      var voltageSample := VoltageSample(electrons, scale);
      samples := samples + [voltageSample];
    }
  }
}

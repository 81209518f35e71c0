/** The BPSK transmit/decide pipeline of the bit-stream demo: sanitise the
    typed bits, hold each bit's level for a block of samples, add channel
    noise, sample the middle of each block and decide on the sign. */
module Bpsk {

  /** Samples held per transmitted bit (SAMPLES_PER_BIT). */
  const SamplesPerBit: nat := 32

  predicate IsBit(c: char) {
    c == '0' || c == '1'
  }

  predicate IsBitString(s: string) {
    forall i :: 0 <= i < |s| ==> IsBit(s[i])
  }

  /** The antipodal level of a bit (BPSK_MAP): '0' is -1 V, '1' is +1 V. */
  function Level(b: char): (v: real)
    requires IsBit(b)
    ensures v == 1.0 || v == -1.0
    ensures v > 0.0 <==> b == '1'
  {
    if b == '1' then 1.0 else -1.0
  }

  /** The input with every character other than '0' and '1' removed
      (`replace(/[^01]/g, '')`). */
  function Sanitize(s: string): (r: string)
    ensures IsBitString(r)
    ensures |r| <= |s|
    ensures forall c :: IsBit(c) ==> multiset(r)[c] == multiset(s)[c]
    decreases |s|
  {
    if s == [] then []
    else
      var init, last := s[..|s| - 1], s[|s| - 1];
      assert s == init + [last];
      Sanitize(init) + (if IsBit(last) then [last] else [])
  }

  /** Filtering works piece by piece, so the kept bits stay in input order. */
  lemma {:induction false} SanitizeConcat(a: string, b: string)
    ensures Sanitize(a + b) == Sanitize(a) + Sanitize(b)
    decreases |b|
  {
    if b == [] {
      assert a + b == a;
    } else {
      var b' := b[..|b| - 1];
      assert (a + b)[..|a + b| - 1] == a + b';
      SanitizeConcat(a, b');
    }
  }

  /** A bit string passes through sanitising unchanged. */
  lemma {:induction false} SanitizeKeepsBits(s: string)
    requires IsBitString(s)
    ensures Sanitize(s) == s
    decreases |s|
  {
    if s != [] {
      var init, last := s[..|s| - 1], s[|s| - 1];
      assert s == init + [last];
      assert IsBit(last);
      assert forall i :: 0 <= i < |init| ==> init[i] == s[i];
      SanitizeKeepsBits(init);
      assert Sanitize(s) == Sanitize(init) + [last];
    }
  }

  /** Sanitising changes a string exactly when it holds a non-bit character. */
  lemma SanitizeFixedPoint(s: string)
    ensures Sanitize(s) == s <==> IsBitString(s)
  {
    if IsBitString(s) {
      SanitizeKeepsBits(s);
    } else {
      var i :| 0 <= i < |s| && !IsBit(s[i]);
      var r := Sanitize(s);
      assert IsBitString(r);
      if |r| == |s| {
        assert IsBit(r[i]) && r[i] != s[i];
      }
    }
  }

  /** Index of the sample the receiver looks at for bit `i`:
      `i * SAMPLES_PER_BIT + floor(SAMPLES_PER_BIT / 2)`. */
  function DecisionIndex(i: nat): (k: nat)
    ensures SamplesPerBit * i <= k < SamplesPerBit * (i + 1)
    ensures k / SamplesPerBit == i && k % SamplesPerBit == SamplesPerBit / 2
  {
    i * SamplesPerBit + SamplesPerBit / 2
  }

  /** The threshold detector: strictly positive decides '1'. */
  function Decide(x: real): (b: char)
    ensures IsBit(b)
    ensures b == '1' <==> x > 0.0
  {
    if x > 0.0 then '1' else '0'
  }

  /** A level disturbed by noise of magnitude below 1 is decided as the bit
      that was sent. */
  lemma DecideRecoversLevel(b: char, n: real)
    requires IsBit(b) && -1.0 < n < 1.0
    ensures Decide(Level(b) + n) == b
  {
  }

  /** Fills the clean baseband signal: bit i's level over samples
      [32 i, 32 i + 32). */
  method BuildCleanSignal(bits: string) returns (clean: array<real>)
    requires IsBitString(bits)
    ensures clean.Length == SamplesPerBit * |bits|
    ensures forall k :: 0 <= k < clean.Length ==> clean[k] == Level(bits[k / SamplesPerBit])
  {
    clean := new real[|bits| * SamplesPerBit];
    var i := 0;
    while i < |bits|
      invariant 0 <= i <= |bits|
      invariant forall k :: 0 <= k < i * SamplesPerBit ==> clean[k] == Level(bits[k / SamplesPerBit])
    {
      var level := Level(bits[i]);
      var j := 0;
      while j < SamplesPerBit
        invariant 0 <= j <= SamplesPerBit
        invariant forall k :: 0 <= k < i * SamplesPerBit + j ==> clean[k] == Level(bits[k / SamplesPerBit])
      {
        assert (i * SamplesPerBit + j) / SamplesPerBit == i;
        clean[i * SamplesPerBit + j] := level;
        j := j + 1;
      }
      i := i + 1;
    }
  }

  /** One received point per bit, taken from the middle of its block. */
  method PickDecisionPoints(noisy: seq<real>, n: nat) returns (received: seq<real>)
    requires |noisy| == SamplesPerBit * n
    ensures |received| == n
    ensures forall i :: 0 <= i < n ==> received[i] == noisy[DecisionIndex(i)]
  {
    received := [];
    var i := 0;
    while i < n
      invariant 0 <= i <= n
      invariant |received| == i
      invariant forall j :: 0 <= j < i ==> received[j] == noisy[DecisionIndex(j)]
    {
      var sampleIdx := DecisionIndex(i);
      received := received + [noisy[sampleIdx]];
      i := i + 1;
    }
  }

  /** Appends one decided bit per received point. */
  method Decode(received: seq<real>) returns (decoded: string)
    ensures |decoded| == |received|
    ensures IsBitString(decoded)
    ensures forall i :: 0 <= i < |received| ==> (decoded[i] == '1' <==> received[i] > 0.0)
  {
    decoded := "";
    var i := 0;
    while i < |received|
      invariant 0 <= i <= |received|
      invariant |decoded| == i
      invariant forall j :: 0 <= j < i ==> decoded[j] == Decide(received[j])
    {
      decoded := decoded + [Decide(received[i])];
      i := i + 1;
    }
  }

  /** Number of positions at which `a` and `b` differ. */
  function Mismatches(a: string, b: string): (n: nat)
    requires |a| == |b|
    ensures n <= |a|
    decreases |a|
  {
    if a == [] then 0
    else Mismatches(a[..|a| - 1], b[..|b| - 1]) + (if a[|a| - 1] != b[|b| - 1] then 1 else 0)
  }

  /** No mismatch exactly when the strings are equal. */
  lemma {:induction false} MismatchesZeroIffEqual(a: string, b: string)
    requires |a| == |b|
    ensures Mismatches(a, b) == 0 <==> a == b
    decreases |a|
  {
    if a != [] {
      MismatchesZeroIffEqual(a[..|a| - 1], b[..|b| - 1]);
      if a[..|a| - 1] == b[..|b| - 1] && a[|a| - 1] == b[|b| - 1] {
        assert a == a[..|a| - 1] + [a[|a| - 1]];
        assert b == b[..|b| - 1] + [b[|b| - 1]];
      }
    }
  }

  /** The comparison loop: counts the bits that were flipped. */
  method CountErrors(original: string, decoded: string) returns (errorCount: nat)
    requires |decoded| == |original|
    ensures errorCount == Mismatches(original, decoded)
  {
    errorCount := 0;
    var i := 0;
    while i < |original|
      invariant 0 <= i <= |original|
      invariant errorCount == Mismatches(original[..i], decoded[..i])
    {
      assert original[..i + 1][..i] == original[..i];
      assert decoded[..i + 1][..i] == decoded[..i];
      if original[i] != decoded[i] {
        errorCount := errorCount + 1;
      }
      i := i + 1;
    }
    assert original[..i] == original && decoded[..i] == decoded;
  }

  /** Bit error rate in percent. */
  function BitErrorRate(errorCount: nat, n: nat): (ber: real)
    requires 0 < n && errorCount <= n
    ensures 0.0 <= ber <= 100.0
    ensures ber == 0.0 <==> errorCount == 0
    ensures ber == 100.0 <==> errorCount == n
  {
    (errorCount as real) / (n as real) * 100.0
  }

  /** The observation shown below the plots. */
  datatype Verdict =
    | NoInput                          // nothing left after sanitising
    | NoErrors                         // the message was recovered perfectly
    | Errors(count: nat, ber: real)    // `count` bits flipped, BER in percent

  /** Everything one simulation run produces for the plots and the text. */
  datatype Run = Run(
    original: string,
    clean: seq<real>,
    noisy: seq<real>,
    received: seq<real>,
    decoded: string,
    errorCount: nat,
    verdict: Verdict)

  /** Every decision sample's noise is too weak to cross the 0 V boundary. */
  predicate SmallNoise(noise: seq<real>, n: nat)
    requires |noise| == SamplesPerBit * n
  {
    forall i :: 0 <= i < n ==> -1.0 < noise[DecisionIndex(i)] < 1.0
  }

  /** The computational body of the simulation. `noise` is the channel noise
      drawn for this run, one value per transmitted sample. */
  method RunSimulation(input: string, noise: seq<real>) returns (run: Run)
    requires |noise| == SamplesPerBit * |Sanitize(input)|
    ensures run.original == Sanitize(input)
    ensures run.original == [] ==>
      run.clean == [] && run.noisy == [] && run.received == [] && run.verdict == NoInput
    ensures |run.clean| == SamplesPerBit * |run.original|
    ensures forall k :: 0 <= k < |run.clean| ==> run.clean[k] == Level(run.original[k / SamplesPerBit])
    ensures |run.noisy| == |run.clean|
    ensures forall k :: 0 <= k < |run.noisy| ==> run.noisy[k] == run.clean[k] + noise[k]
    ensures |run.received| == |run.original|
    ensures forall i :: 0 <= i < |run.received| ==> run.received[i] == run.noisy[DecisionIndex(i)]
    ensures |run.decoded| == |run.original| && IsBitString(run.decoded)
    ensures forall i :: 0 <= i < |run.decoded| ==> (run.decoded[i] == '1' <==> run.received[i] > 0.0)
    ensures run.errorCount == Mismatches(run.original, run.decoded)
    ensures run.verdict == NoErrors <==> run.original != [] && run.errorCount == 0
    ensures run.verdict.Errors? <==> run.errorCount != 0
    ensures run.verdict.Errors? ==>
      run.verdict.count == run.errorCount && 0.0 < run.verdict.ber <= 100.0
    ensures SmallNoise(noise, |run.original|) ==> run.decoded == run.original && run.errorCount == 0
  {
    var bits := Sanitize(input);
    var n := |bits|;
    if n == 0 {
      run := Run(bits, [], [], [], "", 0, NoInput);
      return;
    }
    var cleanArray := BuildCleanSignal(bits);
    var clean := cleanArray[..];
    var noisy := seq(|clean|, k requires 0 <= k < |clean| => clean[k] + noise[k]);
    var received := PickDecisionPoints(noisy, n);
    var decoded := Decode(received);
    var errorCount := CountErrors(bits, decoded);
    var verdict := if errorCount == 0 then NoErrors else Errors(errorCount, BitErrorRate(errorCount, n));
    run := Run(bits, clean, noisy, received, decoded, errorCount, verdict);

    if SmallNoise(noise, n) {
      forall i | 0 <= i < n
        ensures decoded[i] == bits[i]
      {
        var d := DecisionIndex(i);
        assert received[i] == Level(bits[i]) + noise[d];
      }
      assert decoded == bits;
      MismatchesZeroIffEqual(bits, decoded);
    }
  }
}

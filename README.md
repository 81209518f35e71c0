# Noise and modulation teaching demos, modelled in Dafny

This project models the numerical core of three browser demos about noise in
communication systems:

- **BPSK over a noisy channel** (`script3.js`, module `Bpsk`). The typed
  bit string is stripped to `0`/`1` characters. Each bit is held at -1 V or
  +1 V for 32 samples, and channel noise is added sample by sample. The
  receiver reads the middle sample of each bit and decides `1` exactly when
  that sample is above 0 V. The flipped bits are then counted and reported
  as a bit error rate.
- **Johnson-Nyquist thermal noise** (`thermal.js`, module `Thermal`).
  Electrons in a conductor get random velocity kicks and are damped. They
  wrap around horizontally and are reflected and clamped vertically. The
  sum of their horizontal velocities is sampled as a noise voltage. The
  samples are binned into a 50-bin density histogram over +/-4 sigma and
  summarised by a sample mean and variance.
- **Autocorrelation and power spectral density of white noise**
  (`auto_psd.js`, module `AutoPsd`). This covers:
  - the sample autocorrelation, computed by a double loop;
  - a recursive radix-2 FFT;
  - the power spectrum of its first N/2 bins;
  - the total power and the power in a band chosen with two sliders; when
    one slider is moved onto or past the other, the handler moves the other
    one step beyond it.

Module `Sums` holds the left-to-right sum (`reduce((a, b) => a + b, 0)`)
that the thermal and PSD demos use, and its lemmas.

How the code is modelled:

- JavaScript numbers are Dafny `real`s.
- Every random quantity is a parameter. These are the noise vectors and the
  uniform draws behind the electron kicks and spawn positions.
- The FFT's twiddle factor is deterministic: `cos/sin(-2 pi k / N)`
  (`auto_psd.js:62-63`). Dafny's reals have no cosine or sine, so it is
  also a parameter, an uninterpreted function `(k, N) -> Complex`.
- Where the source mutates state, the model does too:
  - the clean signal and the histogram counters are arrays filled by loops;
  - electrons are objects whose fields one frame updates in place;
  - the sample list is a `seq` field that a method extends;
  - the sliders are an object with two handlers.
- Each loop is proved against a specification function. The
  properties the demos rely on are proved about those functions:
  - the noiseless round trip of BPSK;
  - bin accounting and the density mass of the histogram;
  - confinement and the velocity bound of the electrons;
  - the scaling of the autocorrelation with noise power;
  - linearity, the butterfly structure and the DC bin of the FFT;
  - non-negativity of the PSD and band power at most the total power.

In `createElectrons` (`thermal.js:113-115`) the comment says x is uniform
over the whole width, but the code draws it from the first 80% of the
width. The model follows the code (`Thermal.Spawn`).

## Model

| member | source | states |
|---|---|---|
| Bpsk.Level | experiment/simulation/js/script3.js:23 | the BPSK map: the level is -1 V or +1 V, and positive exactly for bit `1` |
| Bpsk.Sanitize | experiment/simulation/js/script3.js:45 | the result holds only `0`/`1`, is no longer than the input, and keeps each of `0` and `1` exactly as often as the input has it |
| Bpsk.SanitizeConcat | experiment/simulation/js/script3.js:45 | filtering one piece at a time, so the kept bits stay in input order |
| Bpsk.SanitizeKeepsBits | experiment/simulation/js/script3.js:45 | a string made only of `0` and `1` passes through sanitising unchanged |
| Bpsk.SanitizeFixedPoint | experiment/simulation/js/script3.js:45 | sanitising leaves a string unchanged exactly when it is already a bit string |
| Bpsk.DecisionIndex | experiment/simulation/js/script3.js:75 | the decision sample of bit i lies inside bit i's block [32i, 32i+32), 16 samples in |
| Bpsk.BuildCleanSignal | experiment/simulation/js/script3.js:58-66 | the clean signal has 32 samples per bit, and sample k is the level (-1 for `0`, +1 for `1`) of bit k/32 |
| Bpsk.PickDecisionPoints | experiment/simulation/js/script3.js:73-77 | one received point per bit, equal to the noisy sample at that bit's decision index |
| Bpsk.Decide | experiment/simulation/js/script3.js:81 | the decided character is a bit, and it is `1` exactly when the point is strictly above 0 |
| Bpsk.DecideRecoversLevel | experiment/simulation/js/script3.js:81 | a level disturbed by noise of magnitude below 1 is decided as the bit that was sent |
| Bpsk.Decode | experiment/simulation/js/script3.js:79-82 | one decoded bit per point; it is `1` if and only if the point is strictly positive, so exactly 0 decodes to `0` |
| Bpsk.Mismatches | experiment/simulation/js/script3.js:86-93 | the number of differing positions is at most the length |
| Bpsk.MismatchesZeroIffEqual | experiment/simulation/js/script3.js:86-98 | zero mismatches exactly when the two strings are equal |
| Bpsk.CountErrors | experiment/simulation/js/script3.js:84-93 | the error counter equals the number of positions where original and decoded bits differ |
| Bpsk.BitErrorRate | experiment/simulation/js/script3.js:101 | BER lies in [0, 100]; it is 0 exactly when there are no errors and 100 exactly when every bit is wrong |
| Bpsk.RunSimulation | experiment/simulation/js/script3.js:43-106 | the whole run: an empty sanitised input gives empty signals and the prompt verdict; otherwise each stage relates to the previous as above; the verdict is "no errors" iff the count is 0, else it carries the count and a BER in (0, 100]; if every decision-point noise value has magnitude below 1, the decoded bits equal the sent bits and the count is 0 |
| Sums.Sum | experiment/simulation/js/thermal.js:48 | the `reduce` total, accumulated from 0 front to back; its meaning is pinned by the four lemmas below |
| Sums.SquareNonNegative | experiment/simulation/js/thermal.js:49 | a square is never negative |
| Sums.SumConcat | experiment/simulation/js/auto_psd.js:139 | the sum of a concatenation is the sum of the parts |
| Sums.SumNonNegative | experiment/simulation/js/auto_psd.js:139 | a sum of non-negative terms is non-negative |
| Sums.SumBounds | experiment/simulation/js/thermal.js:48 | terms in [lo, hi] give a sum in [n lo, n hi] |
| Sums.SumSliceAtMostTotal | experiment/simulation/js/auto_psd.js:144 | for non-negative terms, a contiguous slice sums to between 0 and the whole sum |
| Thermal.Mean | experiment/simulation/js/thermal.js:47-48 | fewer than two samples give mean 0 |
| Thermal.MeanWithinBounds | experiment/simulation/js/thermal.js:48 | with two or more samples, mean times count is the sum, and the mean of samples in [lo, hi] lies in [lo, hi] |
| Thermal.SquaredDeviations | experiment/simulation/js/thermal.js:49 | one squared deviation per sample, each non-negative |
| Thermal.SampleVariance | experiment/simulation/js/thermal.js:47-49 | the square of the reported stdDev is never negative, and fewer than two samples give 0 |
| Thermal.ConstantSamples | experiment/simulation/js/thermal.js:47-49 | constant samples have that constant as their mean and zero variance |
| Thermal.BinIndex | experiment/simulation/js/thermal.js:223 | the floor: the index is the integer b with b <= (v - stableMin) / binWidth < b + 1 |
| Thermal.InBinIffInRange | experiment/simulation/js/thermal.js:215-224 | the floored bin index lies in [0, 50) exactly when stableMin <= v < stableMax |
| Thermal.CountBinned | experiment/simulation/js/thermal.js:222-225 | the number of samples that land in some bin is at most the number of samples |
| Thermal.BinSamples | experiment/simulation/js/thermal.js:220-225 | after the loop, counter b holds the number of samples whose index is b; out-of-range samples change no counter; the counters add up to the binned samples, at most all samples |
| Thermal.Densities | experiment/simulation/js/thermal.js:227-228 | one density per counter, each non-negative, and density times (total samples x bin width) is the count |
| Thermal.DensityMass | experiment/simulation/js/thermal.js:227-228 | the densities' sum times (total x bin width) is the total count |
| Thermal.DensityMassAtMostOne | experiment/simulation/js/thermal.js:227-228 | when no more samples were binned than taken, the sum of density times bin width is at most 1 |
| Thermal.UpdateHistogram | experiment/simulation/js/thermal.js:207-235 | cleared exactly when there are fewer than 20 samples; left unchanged exactly when the bin width is not positive; otherwise 50 counts as above, densities from them, and total mass at most 1 |
| Thermal.Step | experiment/simulation/js/thermal.js:133-147 | each velocity component becomes (v + kick) x 0.95; vy is negated exactly when the pre-clamp y lies outside [0.1h, 0.9h]; for w >= 0, x ends in [0, w]; for h >= 0, y ends in [0.1h, 0.9h] |
| Thermal.StepKeepsSpeedBounded | experiment/simulation/js/thermal.js:131-136 | with draws in [0, 1), a step keeps both velocity components within 14.25, the level that damping holds against the largest kick |
| Thermal.Spawn | experiment/simulation/js/thermal.js:111-119 | x is the first draw scaled to the first 80% of the width, y the second scaled over 70% of the height below the conductor top, and each velocity component a draw recentred and doubled to [-1, 1) |
| Thermal.SpawnInConductor | experiment/simulation/js/thermal.js:102-119 | with draws in [0, 1), a new electron starts inside the conductor and within the speed bound |
| Thermal.Electron.constructor | experiment/simulation/js/thermal.js:111-119 | the new record holds exactly the given position and velocity |
| Thermal.Velocities | experiment/simulation/js/thermal.js:156 | entry i is electron i's horizontal velocity |
| Thermal.VoltageSample | experiment/simulation/js/thermal.js:156-158 | no electrons read 0 V, and a single electron reads its own vx times the scale |
| Thermal.SpawnElectrons | experiment/simulation/js/thermal.js:98-126 | one new, distinct electron per draw quadruple, in order, each in its spawn state |
| Thermal.ThermalSim.Reset | experiment/simulation/js/thermal.js:187-196 | the sample list is emptied and the electrons are created anew, one per draw |
| Thermal.ThermalSim.CreateElectrons | experiment/simulation/js/thermal.js:98-126 | the electron list is replaced by fresh spawned electrons; the samples are kept |
| Thermal.ThermalSim.UpdateElectrons | experiment/simulation/js/thermal.js:128-152 | the electron list and the samples are unchanged as lists; every electron's new state is one Step of its old state with its own draws; with w, h >= 0 every electron ends inside the conductor |
| Thermal.ThermalSim.CollectVoltageSample | experiment/simulation/js/thermal.js:154-159 | with no electrons the list is unchanged; otherwise exactly one sample is appended: the sum of horizontal velocities times the scale factor |
| AutoPsd.Autocorrelation | experiment/simulation/js/auto_psd.js:42-46 | the value at lag tau times the pair count N - tau is the lag product sum |
| AutoPsd.CalculateAutocorrelation | experiment/simulation/js/auto_psd.js:38-49 | the output has the input's length N, and entry tau is the sum of s[i] s[i+tau] over the N - tau overlapping pairs divided by N - tau |
| AutoPsd.ZeroLagNonNegative | experiment/simulation/js/auto_psd.js:43-46 | the zero-lag value, the mean of the squares, is never negative |
| AutoPsd.AutocorrelationOfZero | experiment/simulation/js/auto_psd.js:41-47 | an all-zero signal has autocorrelation 0 at every lag |
| AutoPsd.Scale | experiment/simulation/js/auto_psd.js:33 | multiplying a signal by c multiplies every sample by c, as the noise standard deviation does |
| AutoPsd.LagSumScales | experiment/simulation/js/auto_psd.js:42-45 | scaling the signal by c scales every lag sum by c^2 |
| AutoPsd.AutocorrelationScales | experiment/simulation/js/auto_psd.js:41-47 | scaling the signal by c scales every autocorrelation value by c^2, the change in noise power |
| AutoPsd.SignalLengthIsPowerOfTwo | experiment/simulation/js/auto_psd.js:13 | the block length 1024 is a power of two, as the FFT needs |
| AutoPsd.Evens | experiment/simulation/js/auto_psd.js:56 | the even-indexed samples, in order: entry i is s[2i] |
| AutoPsd.Odds | experiment/simulation/js/auto_psd.js:57 | the odd-indexed samples, in order: entry i is s[2i+1] |
| AutoPsd.EvenOddSplit | experiment/simulation/js/auto_psd.js:56-57 | for an even length both halves have N/2 samples, and every sample appears in exactly one half at position j/2 |
| AutoPsd.Mul | experiment/simulation/js/auto_psd.js:64 | the complex product: multiplying by 1 + 0i changes nothing, and two real numbers multiply as reals |
| AutoPsd.Butterflies | experiment/simulation/js/auto_psd.js:59-68 | output k is even[k] + w odd[k] and output N/2 + k is even[k] - w odd[k], with w the twiddle factor for k at length N |
| AutoPsd.FftSpec | experiment/simulation/js/auto_psd.js:52-70 | for a power-of-two length the spectrum has the input's length |
| AutoPsd.FftButterfly | experiment/simulation/js/auto_psd.js:54-68 | for N > 1, the two halves have length N/2 and transforms of length N/2, and outputs k and k + N/2 are the butterfly of their entry k |
| AutoPsd.Combine | experiment/simulation/js/auto_psd.js:59-68 | the combining loop fills the result as Butterflies describes |
| AutoPsd.Fft | experiment/simulation/js/auto_psd.js:52-70 | the recursive procedure computes exactly FftSpec; a length-1 input gives the single element (s[0], 0) |
| AutoPsd.SumOfHalves | experiment/simulation/js/auto_psd.js:56-57 | the two halves together hold the signal's whole total |
| AutoPsd.FftDcBin | experiment/simulation/js/auto_psd.js:52-70 | with the twiddle factor 1 at k = 0 (cos 0 = 1, sin 0 = 0), bin 0 is the sum of all samples |
| AutoPsd.ButterfliesScale | experiment/simulation/js/auto_psd.js:59-68 | combining scaled halves gives the scaled combination |
| AutoPsd.ButterfliesAdd | experiment/simulation/js/auto_psd.js:59-68 | combining summed halves gives the sum of the combinations |
| AutoPsd.FftScales | experiment/simulation/js/auto_psd.js:52-70 | the transform of c times a signal is c times its transform, for any twiddle factor |
| AutoPsd.FftAdds | experiment/simulation/js/auto_psd.js:52-70 | the transform of a sum of two signals is the sum of their transforms, for any twiddle factor |
| AutoPsd.Norm2 | experiment/simulation/js/auto_psd.js:104 | re^2 + im^2 is never negative |
| AutoPsd.PowerSpectrum | experiment/simulation/js/auto_psd.js:104 | N/2 bins, each one non-negative |
| AutoPsd.PowerSpectrumOfScaled | experiment/simulation/js/auto_psd.js:104 | scaling a spectrum by c scales every PSD bin by c^2 |
| AutoPsd.PowerSpectrumScales | experiment/simulation/js/auto_psd.js:96-104 | scaling the noise by c scales every PSD bin by c^2 |
| AutoPsd.RunFullAnalysis | experiment/simulation/js/auto_psd.js:94-110 | for a 1024-sample block, the autocorrelation is as above at every lag, and the PSD is the power spectrum of the FFT: 512 non-negative bins |
| AutoPsd.SliceIndex | experiment/simulation/js/auto_psd.js:144 | `slice` index resolution: in-range indices are kept, indices past the end become the length, negative ones count from the end with a floor of 0 |
| AutoPsd.JsSlice | experiment/simulation/js/auto_psd.js:144 | the slice is the contiguous run between the resolved indices, or empty when they cross |
| AutoPsd.BandPower | experiment/simulation/js/auto_psd.js:142-144 | for 0 <= start <= end within the PSD, the band power is the sum of bins start to end inclusive |
| AutoPsd.BandPowerAtMostTotal | experiment/simulation/js/auto_psd.js:139-144 | with non-negative bins, and whatever the slider values, the band power lies between 0 and the total power |
| AutoPsd.Observe | experiment/simulation/js/auto_psd.js:137-150 | the reported total power is the sum of all bins, and the reported band power is the band's sum |
| AutoPsd.ObserveBounded | experiment/simulation/js/auto_psd.js:137-150 | for a PSD of non-negative bins, the reported band power is between 0 and the reported total power |
| AutoPsd.BandSliders.constructor | experiment/simulation/js/auto_psd.js:18 | the sliders start at the given values |
| AutoPsd.BandSliders.OnStartInput | experiment/simulation/js/auto_psd.js:157 | start takes the new value; end is pushed to start + 1 exactly when it was not above it; afterwards start < end |
| AutoPsd.BandSliders.OnEndInput | experiment/simulation/js/auto_psd.js:158 | end takes the new value; start is pushed to end - 1 exactly when it was not below it; afterwards start < end |

## Left out

- DOM access, Chart.js charts, canvas drawing, the electron image elements, and `innerHTML`, `textContent` and `toFixed` formatting are left out. This includes the per-bit comparison HTML, the histogram labels and the "Selected Bandwidth" text. They are presentation only.
- `requestAnimationFrame`, `setInterval`/`clearInterval`, the event-listener wiring and the start/stop buttons are left out. This is timer and event plumbing; the model's methods are the handlers' computations.
- Box-Muller noise generation (`generateGaussianNoise` in `script3.js` and `auto_psd.js`) and `Math.random` are left out. They need randomness, `log`, `cos` and `sqrt`, so the noise vector and the uniform draws are parameters.
- `gaussianPDF`, the theoretical curve, `THEORETICAL_STD_DEV`, the scaling factor of `collectVoltageSample` and the `sqrt(noisePower)` of `runFullAnalysis` are left out. They need `sqrt`/`exp` and physical constants, so the standard deviation and the scale factor are parameters.
- Thermal.SampleVariance: the square root in `calculateMeanAndStdDev` is left out. The model states the variance, the square of the returned stdDev, because Dafny's reals have no square root.
- Thermal.ThermalSim.CollectVoltageSample: the histogram and observation refresh it triggers is not part of the method. The histogram is `Thermal.UpdateHistogram`, and the observations are formatting.
- The FFT twiddle factor `cos/sin(-2 pi k / N)` is an uninterpreted function. Only `AutoPsd.FftDcBin` assumes its one exact value, at k = 0. No Parseval-type numeric claim is made.
- AutoPsd.Fft: it requires a power-of-two length. This is the block length the demo always uses (`auto_psd.js:13`). The source's answer for an empty array, an element whose `re` is `undefined`, is not modelled.
- Floating point is not modelled. This covers JavaScript double and `Float32Array` rounding, `NaN`, and the `NaN` behaviour of `Math.max`/`Math.min` and comparisons. All arithmetic is exact real arithmetic.
- Sums.Sum: the function carries no postcondition of its own. What it means is stated by the lemmas `Sums.SumConcat`, `Sums.SumNonNegative`, `Sums.SumBounds` and `Sums.SumSliceAtMostTotal`.
- AutoPsd.BandSliders.OnStartInput, AutoPsd.BandSliders.OnEndInput: the browser clamps a range input to its min and max. At the slider extremes the pushed slider cannot move, so start == end can remain; the model's handlers assign the pushed value unclamped and always end with start < end.
- `parseInt`/`parseFloat` of slider values is not modelled. The handlers take the parsed integer. The HTML page is not part of this model.
- `updateAutocorrelationChart` and `updatePsdChart` are not modelled. They select the lags and bins to plot, and the band highlight, for display only.

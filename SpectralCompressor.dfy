/** Model of `SpectralCompressor<FFT_SIZE, NUM_CHANNELS>` (source/DSP/SpectralCompressor.h): the
    per-frame spectral step that lowers every audible bin whose level exceeds a threshold curve
    to that curve. The threshold at a frequency is a sum of Gaussians over log-frequency, one per
    peak the user has drawn.

    The transform buffer holds `FFT_SIZE` real parts followed by `FFT_SIZE` imaginary parts: bin
    `b` lives in slots `b` and `b + FFT_SIZE`. Bins 0 and `FFT_SIZE / 2` are taken as real-only. */
module SpectralCompressors {
  import opened RealMath
  import opened Stft

  /** One peak of the response curve: its centre frequency in Hz, its height in dB and its width
      as a standard deviation in decades. */
  datatype GaussianPeak = GaussianPeak(frequency: real, gainDB: real, sigmaNorm: real)

  /** Every width is non-zero, so the Gaussian's exponent is defined. */
  predicate WellFormed(peaks: seq<GaussianPeak>)
  {
    forall peak <- peaks :: peak.sigmaNorm != 0.0
  }

  /** Magnitude that `processFFTBins` calls 0 dB. */
  const ZeroDbReference: real := 500.0

  /** Bins below this frequency (in Hz) are left alone. */
  const MinFrequency: real := 20.0

  // ----- The threshold curve: calculateGaussianSum ---------------------------------------------

  /** The Gaussian's exponent at distance `dx` (in decades) from its centre. */
  function Exponent(dx: real, sigmaNorm: real): real
    requires sigmaNorm != 0.0
  {
    -0.5 * (dx * dx) / (sigmaNorm * sigmaNorm)
  }

  /** One peak's contribution, in dB, at the frequency whose `log10` is `logFreq`. */
  function PeakDb(m: Math, logFreq: real, peak: GaussianPeak): (r: real)
    requires peak.sigmaNorm != 0.0
    ensures ExpLaws(m) && logFreq == m.log10(peak.frequency) ==> r == peak.gainDB
  {
    ExponentAtCentre(peak.sigmaNorm);
    peak.gainDB * m.exp(Exponent(logFreq - m.log10(peak.frequency), peak.sigmaNorm))
  }

  /** The sum over the peaks, accumulated in list order (the last peak is added last). Peaks
      whose heights are all 0 dB (in particular, no peaks) give a threshold of 0 dB. */
  function GaussianSum(m: Math, frequency: real, peaks: seq<GaussianPeak>): (r: real)
    requires WellFormed(peaks)
    ensures (forall i :: 0 <= i < |peaks| ==> peaks[i].gainDB == 0.0) ==> r == 0.0
    decreases |peaks|
  {
    if |peaks| == 0 then 0.0
    else GaussianSum(m, frequency, peaks[..|peaks| - 1]) + PeakDb(m, m.log10(frequency), peaks[|peaks| - 1])
  }

  /** `calculateGaussianSum(frequency, peaks)`: the loop that accumulates `sumDB`. */
  method CalculateGaussianSum(m: Math, frequency: real, peaks: seq<GaussianPeak>) returns (sumDB: real)
    requires WellFormed(peaks)
    ensures sumDB == GaussianSum(m, frequency, peaks)
  {
    var logFreq := m.log10(frequency);
    sumDB := 0.0;
    for i := 0 to |peaks|
      invariant sumDB == GaussianSum(m, frequency, peaks[..i])
    {
      var peak := peaks[i];
      var peakLogFreq := m.log10(peak.frequency);
      var dx := logFreq - peakLogFreq;
      var gaussianValue := m.exp(Exponent(dx, peak.sigmaNorm));
      assert peaks[..i + 1][..i] == peaks[..i];
      assert peak in peaks && peak.gainDB * gaussianValue == PeakDb(m, logFreq, peak);
      sumDB := sumDB + peak.gainDB * gaussianValue;
      assert WellFormed(peaks[..i + 1]) by {
        assert forall p <- peaks[..i + 1] :: p in peaks;
      }
    }
    assert peaks[..|peaks|] == peaks;
  }

  /** The sum over two lists one after the other is the sum of the two sums. */
  lemma {:induction false} GaussianSumAppend(m: Math, frequency: real, a: seq<GaussianPeak>, b: seq<GaussianPeak>)
    requires WellFormed(a) && WellFormed(b)
    ensures WellFormed(a + b)
    ensures GaussianSum(m, frequency, a + b) == GaussianSum(m, frequency, a) + GaussianSum(m, frequency, b)
    decreases |b|
  {
    if |b| == 0 {
      assert a + b == a;
    } else {
      var init := b[..|b| - 1];
      assert forall peak <- init :: peak in b;
      GaussianSumAppend(m, frequency, a, init);
      assert (a + b)[..|a + b| - 1] == a + init;
    }
  }

  /** Taking peak `j` out of a list lowers the sum by that peak's contribution. */
  lemma GaussianSumWithout(m: Math, frequency: real, q: seq<GaussianPeak>, j: nat)
    requires WellFormed(q) && j < |q|
    ensures WellFormed(q[..j] + q[j + 1..])
    ensures GaussianSum(m, frequency, q)
            == GaussianSum(m, frequency, q[..j] + q[j + 1..]) + PeakDb(m, m.log10(frequency), q[j])
  {
    var before, after := q[..j], q[j + 1..];
    assert q == before + [q[j]] + after;
    assert forall peak <- before :: peak in q;
    assert forall peak <- after :: peak in q;
    GaussianSumAppend(m, frequency, before, after);
    GaussianSumAppend(m, frequency, before, [q[j]]);
    GaussianSumAppend(m, frequency, before + [q[j]], after);
    assert [q[j]][..0] == [];
  }

  lemma MultisetWithout<T>(p: seq<T>, q: seq<T>, j: nat)
    requires 0 < |p| && j < |q| && multiset(p) == multiset(q) && q[j] == p[|p| - 1]
    ensures multiset(p[..|p| - 1]) == multiset(q[..j] + q[j + 1..])
  {
    var last := p[|p| - 1];
    assert p == p[..|p| - 1] + [last];
    assert q == q[..j] + [last] + q[j + 1..];
    assert multiset(p) == multiset(p[..|p| - 1]) + multiset{last};
    assert multiset(q) == multiset(q[..j] + q[j + 1..]) + multiset{last};
    var rest, others := multiset(p[..|p| - 1]), multiset(q[..j] + q[j + 1..]);
    forall y ensures rest[y] == others[y] {
      assert (rest + multiset{last})[y] == (others + multiset{last})[y];
    }
  }

  /** The threshold does not depend on the order in which the peaks are listed. */
  lemma {:induction false} GaussianSumIgnoresOrder(m: Math, frequency: real, p: seq<GaussianPeak>, q: seq<GaussianPeak>)
    requires WellFormed(p) && multiset(p) == multiset(q)
    ensures WellFormed(q)
    ensures GaussianSum(m, frequency, p) == GaussianSum(m, frequency, q)
    decreases |p|
  {
    assert forall peak <- q :: peak in multiset(p);
    if |p| > 0 {
      var last := p[|p| - 1];
      var init := p[..|p| - 1];
      assert last in multiset(q);
      var j :| 0 <= j < |q| && q[j] == last;
      MultisetWithout(p, q, j);
      assert forall peak <- init :: peak in p;
      GaussianSumIgnoresOrder(m, frequency, init, q[..j] + q[j + 1..]);
      GaussianSumWithout(m, frequency, q, j);
    } else {
      assert |q| == |multiset(q)| == 0;
    }
  }

  /** At its centre a Gaussian's exponent is 0. */
  lemma ExponentAtCentre(sigmaNorm: real)
    requires sigmaNorm != 0.0
    ensures Exponent(0.0, sigmaNorm) == 0.0
  {
    assert 0.0 / (sigmaNorm * sigmaNorm) == 0.0 by {
      if sigmaNorm < 0.0 {
        assert sigmaNorm * sigmaNorm == (-sigmaNorm) * (-sigmaNorm);
      }
      assert 0.0 < sigmaNorm * sigmaNorm;
    }
    assert -0.5 * (0.0 * 0.0) == 0.0;
  }

  /** A lone peak, read at its own frequency, gives exactly its height. */
  lemma LonePeakAtItsFrequency(m: Math, peak: GaussianPeak)
    requires ExpLaws(m) && peak.sigmaNorm != 0.0
    ensures GaussianSum(m, peak.frequency, [peak]) == peak.gainDB
  {
    assert [peak][..0] == [];
    ExponentAtCentre(peak.sigmaNorm);
    assert m.log10(peak.frequency) - m.log10(peak.frequency) == 0.0;
  }

  // ----- Which bins are touched -----------------------------------------------------------------

  /** The centre frequency of `bin` for a transform of `n` points. */
  function BinFrequency(bin: nat, n: nat, sampleRate: real): (f: real)
    requires 0 < n
    ensures f * n as real == bin as real * sampleRate
  {
    (bin as real / n as real) * sampleRate
  }

  /** The guard of lines 28-29: neither below 20 Hz nor above the Nyquist frequency. */
  predicate InBand(frequency: real, sampleRate: real): (b: bool)
    ensures b <==> MinFrequency <= frequency <= sampleRate / 2.0
  {
    !(frequency < MinFrequency || frequency > sampleRate * 0.5)
  }

  /** The two bins the source treats as real-only. */
  predicate RealOnly(bin: nat, n: nat)
  {
    bin == 0 || bin == n / 2
  }

  /** The DC bin is always skipped; with an even transform size, the Nyquist bin is processed
      exactly when the sample rate is at least 40 Hz (its frequency equals the Nyquist frequency,
      which the strict comparison lets through). */
  lemma EdgeBins(n: nat, sampleRate: real)
    requires 0 < n && n % 2 == 0
    ensures !InBand(BinFrequency(0, n, sampleRate), sampleRate)
    ensures BinFrequency(n / 2, n, sampleRate) == sampleRate * 0.5
    ensures InBand(BinFrequency(n / 2, n, sampleRate), sampleRate) <==> 2.0 * MinFrequency <= sampleRate
  {
    var half := (n / 2) as real;
    assert n as real == 2.0 * half;
    assert half / n as real == 0.5;
  }

  // ----- One bin --------------------------------------------------------------------------------

  /** Lines 32-40: magnitude and phase of a bin. A real-only bin has phase 0 or pi by sign. */
  function Polar(m: Math, realOnly: bool, re: real, im: real): (r: (real, real))
    ensures realOnly ==> 0.0 <= r.0 && (r.1 == 0.0 || r.1 == m.pi)
  {
    if realOnly then (Abs(re), if re >= 0.0 then 0.0 else m.pi)
    else (m.sqrt(re * re + im * im), m.atan2(im, re))
  }

  /** Lines 42-48: a magnitude above the threshold is lowered to the threshold's level. */
  function ClippedMagnitude(m: Math, magnitude: real, thresholdDB: real): (r: real)
    ensures r == magnitude || r == m.decibelsToGain(thresholdDB) * ZeroDbReference
    ensures r != magnitude ==> m.gainToDecibels(magnitude / ZeroDbReference) > thresholdDB
  {
    if m.gainToDecibels(magnitude / ZeroDbReference) > thresholdDB
    then m.decibelsToGain(thresholdDB) * ZeroDbReference
    else magnitude
  }

  /** Line 42: the threshold the curve gives `bin`. */
  function Threshold(m: Math, peaks: seq<GaussianPeak>, sampleRate: real, n: nat, bin: nat): (r: real)
    requires 0 < n && WellFormed(peaks)
    ensures (forall i :: 0 <= i < |peaks| ==> peaks[i].gainDB == 0.0) ==> r == 0.0
  {
    GaussianSum(m, BinFrequency(bin, n, sampleRate), peaks)
  }

  /** Lines 31-55 for one in-band bin with the given threshold: the new real and imaginary parts
      (a real-only bin keeps its imaginary slot). */
  function ClippedBin(m: Math, realOnly: bool, thresholdDB: real, re: real, im: real): (r: (real, real))
    ensures realOnly ==> r.1 == im
    ensures PolarLaws(m) && m.gainToDecibels(Polar(m, realOnly, re, im).0 / ZeroDbReference) <= thresholdDB ==>
      r == (re, im)
  {
    var polar := Polar(m, realOnly, re, im);
    var magnitude := ClippedMagnitude(m, polar.0, thresholdDB);
    assert PolarLaws(m) && m.gainToDecibels(polar.0 / ZeroDbReference) <= thresholdDB ==>
      magnitude * m.cos(polar.1) == re && (!realOnly ==> magnitude * m.sin(polar.1) == im);
    (magnitude * m.cos(polar.1), if realOnly then im else magnitude * m.sin(polar.1))
  }

  /** The bin whose real or imaginary part slot `j` holds, when it is one of the bins
      `0 ..= n / 2` the loop visits; otherwise `2 * n`. */
  function SlotBin(j: nat, n: nat): nat
  {
    if j <= n / 2 then j else if n <= j <= n + n / 2 then j - n else 2 * n
  }

  /** Slot `j` of the frame after `processFFTBins`. */
  function ClippedSlot(m: Math, peaks: seq<GaussianPeak>, sampleRate: real, n: nat, frame: seq<real>, j: nat): (r: real)
    requires 0 < n && |frame| == 2 * n && j < 2 * n && WellFormed(peaks)
    ensures n / 2 < SlotBin(j, n) ==> r == frame[j]
    ensures !InBand(BinFrequency(SlotBin(j, n), n, sampleRate), sampleRate) ==> r == frame[j]
  {
    var bin := SlotBin(j, n);
    if bin <= n / 2 && InBand(BinFrequency(bin, n, sampleRate), sampleRate) then
      var b := ClippedBin(m, RealOnly(bin, n), Threshold(m, peaks, sampleRate, n, bin), frame[bin], frame[bin + n]);
      if j == bin then b.0 else b.1
    else frame[j]
  }

  /** `processFFTBins(transformedBuffer)`: the whole frame, or the frame untouched when there are
      no peaks (lines 16-18). */
  function ClipFrame(m: Math, peaks: seq<GaussianPeak>, sampleRate: real, n: nat, frame: seq<real>): (r: seq<real>)
    requires 0 < n && |frame| == 2 * n && WellFormed(peaks)
    ensures |r| == |frame|
  {
    if |peaks| == 0 then frame
    else seq(2 * n, j requires 0 <= j < 2 * n => ClippedSlot(m, peaks, sampleRate, n, frame, j))
  }

  /** A clipped magnitude lies between 0 and the original magnitude. */
  lemma ClippedMagnitudeBounds(m: Math, magnitude: real, thresholdDB: real)
    requires DecibelLaws(m) && 0.0 <= magnitude
    ensures 0.0 <= ClippedMagnitude(m, magnitude, thresholdDB) <= magnitude
    ensures m.gainToDecibels(magnitude / ZeroDbReference) <= thresholdDB ==>
              ClippedMagnitude(m, magnitude, thresholdDB) == magnitude
  {
    var level := magnitude / ZeroDbReference;
    if m.gainToDecibels(level) > thresholdDB {
      assert m.decibelsToGain(thresholdDB) <= m.decibelsToGain(m.gainToDecibels(level)) <= level;
    }
  }

  /** The polar form of a bin gives the bin back: a non-negative magnitude whose product with
      the cosine (and, for a complex bin, the sine) of the phase is the real (imaginary) part. */
  lemma PolarRoundTrip(m: Math, realOnly: bool, re: real, im: real, magnitude: real, phase: real)
    requires PolarLaws(m) && (magnitude, phase) == Polar(m, realOnly, re, im)
    ensures 0.0 <= magnitude
    ensures magnitude * m.cos(phase) == re
    ensures !realOnly ==> magnitude * m.sin(phase) == im
  {
    if !realOnly {
      assert 0.0 <= re * re + im * im;
    }
  }

  /** `ClippedBin` spelled out for given magnitude, phase and clipped magnitude. */
  lemma ClippedBinIs(m: Math, realOnly: bool, thresholdDB: real, re: real, im: real,
                     magnitude: real, phase: real, lowered: real)
    requires (magnitude, phase) == Polar(m, realOnly, re, im)
    requires lowered == ClippedMagnitude(m, magnitude, thresholdDB)
    ensures ClippedBin(m, realOnly, thresholdDB, re, im).0 == lowered * m.cos(phase)
    ensures ClippedBin(m, realOnly, thresholdDB, re, im).1 == if realOnly then im else lowered * m.sin(phase)
  {
  }

  /** A magnitude lowered from `magnitude` to `lowered` is `magnitude` scaled by some `k` in
      [0, 1], and by 1 when it was not lowered: the factor `ClippedBinScales` returns. */
  lemma ScaleFactor(magnitude: real, lowered: real) returns (k: real)
    requires 0.0 <= lowered <= magnitude
    ensures 0.0 <= k <= 1.0 && lowered == k * magnitude
    ensures lowered == magnitude ==> k == 1.0
  {
    if lowered == magnitude {
      k := 1.0;
    } else {
      k := lowered / magnitude;
    }
  }

  /** If `lowered = k·a` and `a·c = x` then `lowered·c = k·x`: in `ClippedBinScales`, the step
      from the polar round trip of a bin to its scaled real and imaginary parts. Kept apart
      because the non-linear regrouping is cheap here and costly in the larger context. */
  lemma Regroup(k: real, a: real, c: real, lowered: real, x: real)
    requires lowered == k * a && a * c == x
    ensures lowered * c == k * x
  {
    assert lowered * c == (k * a) * c == k * (a * c);
  }

  /** Each processed bin is scaled by a factor `k` in [0, 1]: its phase is kept and its magnitude
      does not grow. The factor is 1 when the bin is at or below the threshold. A real-only bin
      keeps its sign and its imaginary slot. */
  lemma ClippedBinScales(m: Math, realOnly: bool, thresholdDB: real, re: real, im: real) returns (k: real)
    requires PolarLaws(m) && DecibelLaws(m)
    ensures 0.0 <= k <= 1.0
    ensures ClippedBin(m, realOnly, thresholdDB, re, im).0 == k * re
    ensures ClippedBin(m, realOnly, thresholdDB, re, im).1 == if realOnly then im else k * im
    ensures m.gainToDecibels(Polar(m, realOnly, re, im).0 / ZeroDbReference) <= thresholdDB ==> k == 1.0
  {
    var polar := Polar(m, realOnly, re, im);
    PolarRoundTrip(m, realOnly, re, im, polar.0, polar.1);
    ClippedMagnitudeBounds(m, polar.0, thresholdDB);
    k := ClippedBinScalesFrom(m, realOnly, thresholdDB, re, im, polar.0, polar.1);
  }

  /** `ClippedBinScales` once the laws of `Math` have given their facts about this bin, so that
      their quantifiers stay out of the non-linear steps. */
  lemma ClippedBinScalesFrom(m: Math, realOnly: bool, thresholdDB: real, re: real, im: real,
                             magnitude: real, phase: real) returns (k: real)
    requires (magnitude, phase) == Polar(m, realOnly, re, im)
    requires magnitude * m.cos(phase) == re && (!realOnly ==> magnitude * m.sin(phase) == im)
    requires 0.0 <= ClippedMagnitude(m, magnitude, thresholdDB) <= magnitude
    requires m.gainToDecibels(magnitude / ZeroDbReference) <= thresholdDB ==>
               ClippedMagnitude(m, magnitude, thresholdDB) == magnitude
    ensures 0.0 <= k <= 1.0
    ensures ClippedBin(m, realOnly, thresholdDB, re, im).0 == k * re
    ensures ClippedBin(m, realOnly, thresholdDB, re, im).1 == if realOnly then im else k * im
    ensures m.gainToDecibels(magnitude / ZeroDbReference) <= thresholdDB ==> k == 1.0
  {
    var lowered := ClippedMagnitude(m, magnitude, thresholdDB);
    ClippedBinIs(m, realOnly, thresholdDB, re, im, magnitude, phase, lowered);
    k := ScaledParts(realOnly, re, im, magnitude, m.cos(phase), m.sin(phase), lowered);
    assert ClippedBin(m, realOnly, thresholdDB, re, im).0 == lowered * m.cos(phase) == k * re;
    if !realOnly {
      assert ClippedBin(m, realOnly, thresholdDB, re, im).1 == lowered * m.sin(phase) == k * im;
    }
  }

  /** The arithmetic half of `ClippedBinScales`, stated without the laws of `Math` so that their
      quantifiers stay out of the non-linear steps: a magnitude that rebuilds `re` and `im` through
      a cosine and a sine, lowered to `lowered`, rebuilds them scaled by one factor. */
  lemma ScaledParts(realOnly: bool, re: real, im: real, magnitude: real, c: real, s: real, lowered: real)
    returns (k: real)
    requires 0.0 <= lowered <= magnitude && magnitude * c == re && (!realOnly ==> magnitude * s == im)
    ensures 0.0 <= k <= 1.0 && lowered * c == k * re && (!realOnly ==> lowered * s == k * im)
    ensures lowered == magnitude ==> k == 1.0
  {
    k := ScaleFactor(magnitude, lowered);
    Regroup(k, magnitude, c, lowered, re);
    if !realOnly {
      Regroup(k, magnitude, s, lowered, im);
    }
  }

  /** The squared magnitude of a complex bin. */
  function Energy(re: real, im: real): real
  {
    re * re + im * im
  }

  /** Consequently the squared magnitude of a processed complex bin never increases. */
  lemma ClippedBinNeverLouder(m: Math, thresholdDB: real, re: real, im: real)
    requires PolarLaws(m) && DecibelLaws(m)
    ensures var b := ClippedBin(m, false, thresholdDB, re, im);
            Energy(b.0, b.1) <= Energy(re, im)
  {
    var k := ClippedBinScales(m, false, thresholdDB, re, im);
    var b := ClippedBin(m, false, thresholdDB, re, im);
    ScaledEnergy(k, re, im, b.0, b.1);
  }

  lemma ScaledEnergy(k: real, re: real, im: real, x: real, y: real)
    requires 0.0 <= k <= 1.0 && x == k * re && y == k * im
    ensures Energy(x, y) <= Energy(re, im)
  {
    assert k * k <= 1.0 by {
      assert k * k <= k * 1.0;
    }
    assert x * x + y * y == (k * k) * (re * re + im * im);
    assert 0.0 <= re * re + im * im;
  }

  /** Only the slots of in-band bins `0 ..= n / 2` change, and nothing changes without peaks. An
      imaginary slot changes only for a bin that is not real-only. */
  lemma ClipFrameTouchesOnlyInBandBins(m: Math, peaks: seq<GaussianPeak>, sampleRate: real, n: nat, frame: seq<real>, j: nat)
    requires 0 < n && |frame| == 2 * n && WellFormed(peaks) && j < 2 * n
    requires ClipFrame(m, peaks, sampleRate, n, frame)[j] != frame[j]
    ensures 0 < |peaks|
    ensures j <= n / 2 ==> InBand(BinFrequency(j, n, sampleRate), sampleRate)
    ensures n / 2 < j ==> n <= j <= n + n / 2 && !RealOnly(j - n, n)
                          && InBand(BinFrequency(j - n, n, sampleRate), sampleRate)
  {
  }

  /** Lines 31-40: the bin's magnitude and phase, read from its slot(s). */
  method BinPolar(m: Math, n: nat, transformed: array<real>, bin: nat) returns (magnitude: real, phase: real)
    requires 0 < n && transformed.Length == 2 * n && bin <= n / 2
    ensures (magnitude, phase) == Polar(m, RealOnly(bin, n), transformed[bin], transformed[bin + n])
  {
    if bin == 0 || bin == n / 2 {
      magnitude := Abs(transformed[bin]);
      phase := if transformed[bin] >= 0.0 then 0.0 else m.pi;
    } else {
      var re := transformed[bin];
      var im := transformed[bin + n];
      assert re * re + im * im == transformed[bin] * transformed[bin] + transformed[bin + n] * transformed[bin + n];
      magnitude := m.sqrt(re * re + im * im);
      phase := m.atan2(im, re);
    }
  }

  /** Lines 44-48: the magnitude lowered to the threshold when its level exceeds it. */
  method ClipMagnitude(m: Math, magnitude: real, thresholdDB: real) returns (r: real)
    ensures r == ClippedMagnitude(m, magnitude, thresholdDB)
  {
    r := magnitude;
    var magnitudeDB := m.gainToDecibels(magnitude / ZeroDbReference);
    if magnitudeDB > thresholdDB {
      r := m.decibelsToGain(thresholdDB) * ZeroDbReference;
    }
  }

  /** The body of the loop for one bin `0 ..= n / 2`: an out-of-band bin is skipped, an in-band
      bin gets the clipped value in its slot(s). */
  method ProcessBin(m: Math, peaks: seq<GaussianPeak>, sampleRate: real, n: nat, transformed: array<real>, bin: nat)
    requires 0 < n && transformed.Length == 2 * n && WellFormed(peaks) && bin <= n / 2
    modifies transformed
    ensures var b := ClippedBin(m, RealOnly(bin, n), Threshold(m, peaks, sampleRate, n, bin),
                                old(transformed[bin]), old(transformed[bin + n]));
            if InBand(BinFrequency(bin, n, sampleRate), sampleRate)
            then transformed[bin] == b.0 && transformed[bin + n] == b.1
            else transformed[bin] == old(transformed[bin]) && transformed[bin + n] == old(transformed[bin + n])
    ensures forall j :: 0 <= j < 2 * n && j != bin && j != bin + n ==> transformed[j] == old(transformed[j])
  {
    var frequency, inBand := BinBand(n, sampleRate, bin);
    if !inBand {
      return;
    }
    var thresholdDB := CalculateGaussianSum(m, frequency, peaks);
    ClipBin(m, n, transformed, bin, thresholdDB);
  }

  /** Lines 20-29: the bin's frequency and whether it passes the band guard. */
  method BinBand(n: nat, sampleRate: real, bin: nat) returns (frequency: real, inBand: bool)
    requires 0 < n
    ensures frequency == BinFrequency(bin, n, sampleRate)
    ensures inBand == InBand(frequency, sampleRate)
  {
    frequency := (bin as real / n as real) * sampleRate;
    var nyquist := sampleRate * 0.5;
    inBand := !(frequency < MinFrequency || frequency > nyquist);
  }

  /** Lines 31-55 once the bin is known to be in band and its threshold is known. */
  method ClipBin(m: Math, n: nat, transformed: array<real>, bin: nat, thresholdDB: real)
    requires 0 < n && transformed.Length == 2 * n && bin <= n / 2
    modifies transformed
    ensures var b := ClippedBin(m, RealOnly(bin, n), thresholdDB, old(transformed[bin]), old(transformed[bin + n]));
            transformed[bin] == b.0 && transformed[bin + n] == b.1
    ensures forall j :: 0 <= j < 2 * n && j != bin && j != bin + n ==> transformed[j] == old(transformed[j])
  {
    var magnitude, phase := BinPolar(m, n, transformed, bin);
    ghost var unclipped := magnitude;
    magnitude := ClipMagnitude(m, magnitude, thresholdDB);
    ClippedBinIs(m, RealOnly(bin, n), thresholdDB, transformed[bin], transformed[bin + n], unclipped, phase, magnitude);
    if bin == 0 || bin == n / 2 {
      transformed[bin] := magnitude * m.cos(phase);
    } else {
      transformed[bin] := magnitude * m.cos(phase);
      transformed[bin + n] := magnitude * m.sin(phase);
    }
  }

  /** The two slots of `bin` in the clipped frame, and the only slots whose `SlotBin` is `bin`. */
  lemma ClipFrameAtBin(m: Math, peaks: seq<GaussianPeak>, sampleRate: real, n: nat, frame: seq<real>, bin: nat)
    requires 0 < n && |frame| == 2 * n && WellFormed(peaks) && 0 < |peaks| && bin <= n / 2
    ensures var b := ClippedBin(m, RealOnly(bin, n), Threshold(m, peaks, sampleRate, n, bin), frame[bin], frame[bin + n]);
            var r := ClipFrame(m, peaks, sampleRate, n, frame);
            if InBand(BinFrequency(bin, n, sampleRate), sampleRate)
            then r[bin] == b.0 && r[bin + n] == b.1
            else r[bin] == frame[bin] && r[bin + n] == frame[bin + n]
    ensures forall j :: 0 <= j < 2 * n && SlotBin(j, n) == bin ==> j == bin || j == bin + n
  {
    assert SlotBin(bin, n) == bin && SlotBin(bin + n, n) == bin;
  }

  /** The transform buffer after `processFFTBins`, written as the source's loop over the bins
      `0 ..= FFT_SIZE / 2`. */
  method ProcessFFTBins(m: Math, peaks: seq<GaussianPeak>, sampleRate: real, n: nat, transformed: array<real>)
    requires 0 < n && transformed.Length == 2 * n && WellFormed(peaks)
    modifies transformed
    ensures transformed[..] == ClipFrame(m, peaks, sampleRate, n, old(transformed[..]))
  {
    if |peaks| == 0 {
      return;
    }
    ghost var frame := transformed[..];
    ghost var target := ClipFrame(m, peaks, sampleRate, n, frame);
    for bin := 0 to n / 2 + 1
      invariant forall j :: 0 <= j < 2 * n ==>
                  transformed[j] == if SlotBin(j, n) < bin then target[j] else frame[j]
    {
      assert SlotBin(bin, n) == bin && SlotBin(bin + n, n) == bin;
      ProcessBin(m, peaks, sampleRate, n, transformed, bin);
      ClipFrameAtBin(m, peaks, sampleRate, n, frame, bin);
    }
    assert forall j :: 0 <= j < 2 * n ==> transformed[j] == target[j];
  }

  /** The compressor as the step a processor injects: frames of `2 * n` slots are clipped,
      anything else passes through. */
  function ClipStep(m: Math, peaks: seq<GaussianPeak>, n: nat): (step: BinStep)
    requires 0 < n && WellFormed(peaks)
    ensures forall sampleRate, frame :: |frame| != 2 * n ==> step(sampleRate, frame) == frame
    ensures |peaks| == 0 ==> forall sampleRate, frame :: step(sampleRate, frame) == frame
  {
    (sampleRate: real, frame: seq<real>) =>
      if |frame| == 2 * n then ClipFrame(m, peaks, sampleRate, n, frame) else frame
  }

  lemma ClipStepKeepsLength(m: Math, peaks: seq<GaussianPeak>, n: nat)
    requires 0 < n && WellFormed(peaks)
    ensures StepKeepsLength(ClipStep(m, peaks, n))
  {
  }
}

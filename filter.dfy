/*
 * The low-pass filter: the block is taken to the frequency domain, every
 * bin is normalised by the block length, the bins at or above the cutoff
 * are zeroed, and the block is taken back.  The two transforms are not
 * modelled; the model starts from the spectrum the forward transform
 * produces and ends with the spectrum handed to the inverse one.
 */
module Filter {
  import opened Numeric

  /** One frequency bin. */
  datatype Complex = Complex(re: real, im: real)

  const Zero := Complex(0.0, 0.0)

  /** The bin divided by `factor` (`Complex::unscale`). */
  function Unscale(c: Complex, factor: real): (r: Complex)
    requires factor != 0.0
    ensures r.re * factor == c.re && r.im * factor == c.im
  {
    Complex(c.re / factor, c.im / factor)
  }

  /** The bin multiplied by `factor` (`Complex::scale`). */
  function Scale(c: Complex, factor: real): (r: Complex)
    ensures factor == 0.0 ==> r == Zero
    ensures factor == 1.0 ==> r == c
  {
    Complex(c.re * factor, c.im * factor)
  }

  /** The filter: its cutoff in hertz and the sample rate. */
  datatype SimpleFilter = SimpleFilter(frequency: real, sampleRate: real)

  /**
   * A filter whose cutoff is `frequencyNorm` of the highest representable
   * frequency, half the sample rate.
   */
  function New(frequencyNorm: real, sampleRate: real): (f: SimpleFilter)
    ensures f.sampleRate == sampleRate
    ensures sampleRate != 0.0 ==> f.frequency / (f.sampleRate / 2.0) == frequencyNorm
  {
    SimpleFilter(frequencyNorm * (sampleRate / 2.0), sampleRate)
  }

  /** The number of bins the forward transform of `bufferSize` real samples yields. */
  function SpectrumSize(bufferSize: nat): (n: nat)
    ensures 1 <= n
  {
    bufferSize / 2 + 1
  }

  /** The width in hertz of one bin: the bins span zero to half the sample rate. */
  function BinWidth(f: SimpleFilter, spectrumSize: nat): (w: real)
    requires 0 < spectrumSize && 0.0 < f.sampleRate
    ensures 0.0 < w
  {
    (f.sampleRate / 2.0) / spectrumSize as real
  }

  /**
   * The first bin that is cut: the cutoff divided by the width of one bin.
   * For a non-negative cutoff it is the bin whose frequency range holds the
   * cutoff; a negative cutoff cuts from bin 0.
   */
  function CutoffBucket(f: SimpleFilter, spectrumSize: nat): (k: nat)
    requires 0 < spectrumSize && 0.0 < f.sampleRate
    ensures f.frequency <= 0.0 ==> k == 0
    ensures 0.0 <= f.frequency ==>
      k as real * BinWidth(f, spectrumSize) <= f.frequency < k as real * BinWidth(f, spectrumSize) + BinWidth(f, spectrumSize)
  {
    var frequencyPerBucket := BinWidth(f, spectrumSize);
    var q := f.frequency / frequencyPerBucket;
    BucketBounds(f.frequency, frequencyPerBucket, q, AsIndex(q));
    AsIndex(q)
  }

  /** A quotient's integer part `k` places the dividend in the `k`-th band of width `w`. */
  lemma BucketBounds(x: real, w: real, q: real, k: nat)
    requires 0.0 < w && q == x / w && k == AsIndex(q)
    ensures x <= 0.0 ==> k == 0
    ensures 0.0 <= x ==> k as real * w <= x < k as real * w + w
  {
    assert q * w == x;
    if x <= 0.0 && q < 0.0 {
    } else if x <= 0.0 {
      assert q == 0.0 by {
        if 0.0 < q {
          MulLeft(w, 0.0, q);
        }
      }
    }
    if 0.0 <= x {
      assert 0.0 <= q by {
        if q < 0.0 {
          MulLeft(w, q, 0.0);
        }
      }
      var next := k as real + 1.0;
      assert k as real <= q < next;
      MulLeft(w, k as real, q);
      MulLeft(w, q, next);
      assert next * w == k as real * w + w;
      assert x < k as real * w + w;
    }
  }

  /**
   * For a filter built from a normalised frequency, the cutoff bin is that
   * fraction of the spectrum, rounded down; 0 for a negative fraction.
   */
  lemma CutoffIsFractionOfSpectrum(frequencyNorm: real, sampleRate: real, spectrumSize: nat)
    requires 0.0 < sampleRate && 0 < spectrumSize
    ensures CutoffBucket(New(frequencyNorm, sampleRate), spectrumSize) == AsIndex(frequencyNorm * spectrumSize as real)
    ensures 0.0 <= frequencyNorm ==>
      CutoffBucket(New(frequencyNorm, sampleRate), spectrumSize) == (frequencyNorm * spectrumSize as real).Floor
  {
    var half := sampleRate / 2.0;
    var size := spectrumSize as real;
    var width := half / size;
    assert width * size == half;
    var cut := frequencyNorm * size;
    assert cut * width == frequencyNorm * half;
    Quotient(frequencyNorm * half, width, cut);
    var f := New(frequencyNorm, sampleRate);
    assert f.frequency == frequencyNorm * half && f.sampleRate / 2.0 == half;
    assert CutoffBucket(f, spectrumSize) == AsIndex(f.frequency / width);
  }

  /** Dividing a multiple of `w` by `w` recovers the multiplier. */
  lemma Quotient(a: real, w: real, b: real)
    requires 0.0 < w && a == b * w
    ensures a / w == b
  {
  }

  /**
   * The spectrum after the mask loop: every bin divided by the block length,
   * and every bin from `cutoff` on zeroed.
   */
  function Masked(spectrum: seq<Complex>, bufferSize: nat, cutoff: nat): (r: seq<Complex>)
    requires 0 < bufferSize
    ensures |r| == |spectrum|
    ensures forall i :: 0 <= i < |r| && cutoff <= i ==> r[i] == Zero
    ensures forall i :: 0 <= i < |r| && i < cutoff ==> r[i] == Unscale(spectrum[i], bufferSize as real)
  {
    seq(|spectrum|, i requires 0 <= i < |spectrum| =>
      var normalised := Unscale(spectrum[i], bufferSize as real);
      if i >= cutoff then Scale(normalised, 0.0) else normalised)
  }

  /** A cutoff of 0 silences every bin; a cutoff past the last bin only normalises. */
  lemma MaskExtremes(spectrum: seq<Complex>, bufferSize: nat)
    requires 0 < bufferSize
    ensures forall i :: 0 <= i < |spectrum| ==> Masked(spectrum, bufferSize, 0)[i] == Zero
    ensures forall i :: 0 <= i < |spectrum| ==>
      Masked(spectrum, bufferSize, |spectrum|)[i] == Unscale(spectrum[i], bufferSize as real)
  {
  }

  /**
   * A normalised cutoff of 0 or below cuts every bin; one of 1 or above cuts
   * none.
   */
  lemma NormExtremes(frequencyNorm: real, sampleRate: real, spectrumSize: nat)
    requires 0.0 < sampleRate && 0 < spectrumSize
    ensures frequencyNorm <= 0.0 ==> CutoffBucket(New(frequencyNorm, sampleRate), spectrumSize) == 0
    ensures 1.0 <= frequencyNorm ==> spectrumSize <= CutoffBucket(New(frequencyNorm, sampleRate), spectrumSize)
  {
    CutoffIsFractionOfSpectrum(frequencyNorm, sampleRate, spectrumSize);
    var size := spectrumSize as real;
    if frequencyNorm <= 0.0 {
      assert frequencyNorm * size <= 0.0 by {
        assert 0.0 <= (-frequencyNorm) * size;
      }
    }
    if 1.0 <= frequencyNorm {
      assert size <= frequencyNorm * size by {
        assert 0.0 <= (frequencyNorm - 1.0) * size;
      }
    }
  }

  /**
   * The mask loop of the filter, in place on the spectrum of a block of
   * `bufferSize` samples: each bin is visited once, normalised, and zeroed
   * when it lies at or above the cutoff bin.
   */
  method MaskSpectrum(f: SimpleFilter, spectrum: array<Complex>, bufferSize: nat)
    requires 0 < bufferSize && spectrum.Length == SpectrumSize(bufferSize)
    requires 0.0 < f.sampleRate
    modifies spectrum
    ensures spectrum[..] == Masked(old(spectrum[..]), bufferSize, CutoffBucket(f, spectrum.Length))
  {
    var spectrumSize := spectrum.Length;
    var frequencyPerBucket := (f.sampleRate / 2.0) / spectrumSize as real;
    var cutoffBucketIndex := AsIndex(f.frequency / frequencyPerBucket);
    ghost var expected := Masked(old(spectrum[..]), bufferSize, cutoffBucketIndex);
    var i := 0;
    while i < spectrumSize
      invariant 0 <= i <= spectrumSize
      invariant forall k :: 0 <= k < i ==> spectrum[k] == expected[k]
      invariant forall k :: i <= k < spectrumSize ==> spectrum[k] == old(spectrum[k])
    {
      spectrum[i] := Unscale(spectrum[i], bufferSize as real);
      if i >= cutoffBucketIndex {
        spectrum[i] := Scale(spectrum[i], 0.0);
      }
      i := i + 1;
    }
    assert spectrum[..] == expected;
  }
}

/** The frequency and wavenumber axes every mask designer builds as
    `np.fft.fftshift(np.fft.fftfreq(n, d))`. The arithmetic is exact over the reals. */
module FftAxes {
  /** `np.fft.fftfreq(n, d)`: the bins 0, 1, ..., (n-1) div 2, then -(n div 2), ..., -1,
      each multiplied by 1/(n*d). numpy divides by zero when n*d is zero. */
  function FftFreq(n: nat, d: real): (f: seq<real>)
    requires n >= 1 && d != 0.0
    ensures |f| == n
  {
    var val := 1.0 / (n as real * d);
    var positive := (n - 1) / 2 + 1;
    seq(n, i requires 0 <= i < n => (if i < positive then i else i - n) as real * val)
  }

  /** `np.fft.fftshift` of a 1-D array: `np.roll(x, n div 2)`, which moves the last n div 2
      entries to the front. */
  function FftShift(x: seq<real>): (y: seq<real>)
    ensures |y| == |x|
  {
    x[|x| - |x| / 2..] + x[..|x| - |x| / 2]
  }

  /** Where `np.roll` by h sends index i of an array of length n: (i + h) mod n. */
  function RollTarget(i: nat, n: nat, h: nat): (t: nat)
    requires i < n && h <= n
    ensures t < n && t == (i + h) % n
  {
    if i + h < n then ModOfSmall(i + h, n); i + h
    else ModShift(i + h - n, n); i + h - n
  }

  lemma ModOfSmall(a: int, n: int)
    requires 0 <= a < n
    ensures a % n == a
  {
  }

  lemma ModShift(a: int, n: int)
    requires 0 <= a < n
    ensures (a + n) % n == a
  {
    var q, r := (a + n) / n, (a + n) % n;
    assert a + n == n * q + r && 0 <= r < n;
  }

  /** The shift is `np.roll(x, n div 2)`: entry i moves to (i + n div 2) mod n, so the result is a
      rearrangement of x. */
  lemma FftShiftIsRoll(x: seq<real>)
    ensures multiset(FftShift(x)) == multiset(x)
    ensures forall i :: 0 <= i < |x| ==> FftShift(x)[RollTarget(i, |x|, |x| / 2)] == x[i]
  {
    var n, h := |x|, |x| / 2;
    assert x == x[..n - h] + x[n - h..];
  }

  /** Bin j of a zero-centred axis of length n and spacing d. */
  function Bin(n: nat, d: real, j: int): real
    requires n >= 1 && d != 0.0
  {
    (j - n / 2) as real / (n as real * d)
  }

  lemma ScaleByInverse(x: real, y: real)
    requires y != 0.0
    ensures x * (1.0 / y) == x / y
  {
  }

  lemma ProductNonZero(n: nat, d: real)
    requires n >= 1 && d != 0.0
    ensures n as real * d != 0.0
  {
  }

  /** Entry j of the roll: entries before n div 2 come from the tail, the rest from the head. */
  lemma ShiftAt(x: seq<real>, j: nat)
    requires j < |x|
    ensures FftShift(x)[j] == if j < |x| / 2 then x[|x| - |x| / 2 + j] else x[j - |x| / 2]
  {
  }

  /** Entry i of `fftfreq(n, d)`, with the signed bin spelled out. */
  lemma FftFreqAt(n: nat, d: real, i: nat)
    requires n >= 1 && d != 0.0 && i < n
    ensures FftFreq(n, d)[i] == (if i < (n - 1) / 2 + 1 then i else i - n) as real * (1.0 / (n as real * d))
  {
  }

  /** The shifted axis holds bin j - n div 2 at index j: the roll moves the negative bins,
      stored after the positive ones, in front of them. */
  lemma ShiftedBin(n: nat, d: real, j: nat)
    requires n >= 1 && d != 0.0 && j < n
    ensures FftShift(FftFreq(n, d))[j] == Bin(n, d, j)
  {
    var h := n / 2;
    var x := FftFreq(n, d);
    var i := if j < h then n - h + j else j - h;
    ShiftAt(x, j);
    FftFreqAt(n, d, i);
    assert (if i < (n - 1) / 2 + 1 then i else i - n) == j - h;
    ProductNonZero(n, d);
    ScaleByInverse((j - h) as real, n as real * d);
  }

  /** `fftshift(fftfreq(n, d))`. */
  function ShiftedFreqs(n: nat, d: real): (axis: seq<real>)
    requires n >= 1 && d != 0.0
    ensures |axis| == n
    ensures forall j :: 0 <= j < n ==> axis[j] == Bin(n, d, j)
    ensures axis[n / 2] == 0.0
  {
    var axis := FftShift(FftFreq(n, d));
    forall j | 0 <= j < n ensures axis[j] == Bin(n, d, j) {
      ShiftedBin(n, d, j);
    }
    axis
  }

  lemma DivideStrictlyMonotone(a: real, b: real, s: real)
    requires a < b && s > 0.0
    ensures a / s < b / s
  {
  }

  lemma DivideNegate(a: real, s: real)
    requires s != 0.0
    ensures (-a) / s == -(a / s)
  {
  }

  /** For d > 0 the axis is strictly increasing. */
  lemma ShiftedFreqsIncreasing(n: nat, d: real)
    requires n >= 1 && d > 0.0
    ensures forall i, j :: 0 <= i < j < n ==> ShiftedFreqs(n, d)[i] < ShiftedFreqs(n, d)[j]
  {
    var axis := ShiftedFreqs(n, d);
    var span := n as real * d;
    assert span > 0.0;
    forall i, j | 0 <= i < j < n ensures axis[i] < axis[j] {
      DivideStrictlyMonotone((i - n / 2) as real, (j - n / 2) as real, span);
    }
  }

  /** The index of the opposite bin: the bin at Mirror(n, j) is the negation of the bin at j. */
  function Mirror(n: nat, j: int): int {
    2 * (n / 2) - j
  }

  lemma ShiftedFreqsMirrorAt(n: nat, d: real, j: nat)
    requires n >= 1 && d != 0.0 && j < n && 0 <= Mirror(n, j) < n
    ensures ShiftedFreqs(n, d)[Mirror(n, j)] == -ShiftedFreqs(n, d)[j]
  {
    ProductNonZero(n, d);
    assert (Mirror(n, j) - n / 2) as real == -((j - n / 2) as real);
    DivideNegate((j - n / 2) as real, n as real * d);
  }

  lemma ShiftedFreqsMirror(n: nat, d: real)
    requires n >= 1 && d != 0.0
    ensures forall j :: 0 <= j < n && 0 <= Mirror(n, j) < n ==>
      ShiftedFreqs(n, d)[Mirror(n, j)] == -ShiftedFreqs(n, d)[j]
  {
    forall j | 0 <= j < n && 0 <= Mirror(n, j) < n
      ensures ShiftedFreqs(n, d)[Mirror(n, j)] == -ShiftedFreqs(n, d)[j]
    {
      ShiftedFreqsMirrorAt(n, d, j);
    }
  }

  lemma DivideSum(a: real, b: real, s: real)
    requires s != 0.0
    ensures (a + b) / s == a / s + b / s
  {
  }

  /** `fliplr`/`flipud` map index j to n-1-j. That is the opposite bin only for odd n; for even n
      it lands one bin further, at -axis[j] - 1/(n*d). */
  lemma FlippedIndexBin(n: nat, d: real)
    requires n >= 1 && d != 0.0
    ensures forall j :: 0 <= j < n ==>
      ShiftedFreqs(n, d)[n - 1 - j] ==
        -ShiftedFreqs(n, d)[j] - (if n % 2 == 0 then 1.0 / (n as real * d) else 0.0)
  {
    var axis := ShiftedFreqs(n, d);
    ProductNonZero(n, d);
    var span := n as real * d;
    forall j | 0 <= j < n
      ensures axis[n - 1 - j] == -axis[j] - (if n % 2 == 0 then 1.0 / span else 0.0)
    {
      var shift := if n % 2 == 0 then -1 else 0;
      var a := (j - n / 2) as real;
      assert ((n - 1 - j) - n / 2) as real == -a + shift as real;
      DivideSum(-a, shift as real, span);
      DivideNegate(a, span);
      if n % 2 == 0 {
        DivideNegate(1.0, span);
      }
    }
  }

  lemma RescaleBin(a: real, n: real, fs: real)
    requires n > 0.0 && fs != 0.0
    ensures a / (n * (1.0 / fs)) == a * fs / n
  {
    assert n * (1.0 / fs) == n / fs;
    assert a / (n / fs) == a * fs / n;
  }

  lemma FreqBin(nns: nat, fs: real, j: int)
    requires nns >= 1 && fs != 0.0
    ensures Bin(nns, 1.0 / fs, j) == (j - nns / 2) as real * fs / nns as real
  {
    RescaleBin((j - nns / 2) as real, nns as real, fs);
  }

  /** The frequency axis `fftshift(fftfreq(nns, d=1/fs))`: bin j is (j - nns div 2) * fs / nns. */
  function FreqAxis(nns: nat, fs: real): (freq: seq<real>)
    requires nns >= 1 && fs != 0.0
    ensures |freq| == nns
    ensures forall j :: 0 <= j < nns ==> freq[j] == (j - nns / 2) as real * fs / nns as real
  {
    var freq := ShiftedFreqs(nns, 1.0 / fs);
    forall j | 0 <= j < nns ensures freq[j] == (j - nns / 2) as real * fs / nns as real {
      FreqBin(nns, fs, j);
    }
    freq
  }

  /** The wavenumber axis `fftshift(fftfreq(nnx, d=step*dx))`. */
  function WavenumberAxis(nnx: nat, step: int, dx: real): (knum: seq<real>)
    requires nnx >= 1 && step != 0 && dx != 0.0
    ensures |knum| == nnx
  {
    ShiftedFreqs(nnx, step as real * dx)
  }

  /** For an even length the first bin is minus the Nyquist value 1/(2d): fs/2 for the frequency
      axis and 1/(2*step*dx) for the wavenumber axis. */
  lemma NyquistAtIndexZero(n: nat, d: real)
    requires n >= 2 && n % 2 == 0 && d != 0.0
    ensures ShiftedFreqs(n, d)[0] == -1.0 / (2.0 * d)
  {
    var h := n / 2;
    assert n as real == 2.0 * h as real;
    assert ShiftedFreqs(n, d)[0] == (-h) as real / (2.0 * h as real * d);
  }
}

/** `fk_filter_design`: the rectangular f-k mask over apparent propagation speed. */
module FkFilter {
  import opened Transcendental
  import opened Grids
  import opened FftAxes
  import opened Acquisition

  /** Rows whose wavenumber is below this magnitude are zeroed to avoid dividing by k. */
  const MinWavenumber: real := 0.005

  /** The four speeds (m/s) of the trapezoidal pass region. */
  datatype SpeedBand = SpeedBand(csMin: real, cpMin: real, cpMax: real, csMax: real) {
    /** The ramps divide by cp_min - cs_min and cs_max - cp_max, unguarded: an equal pair
        would give 0/0 at the speed where the ramp starts. */
    predicate RampsDefined() {
      csMin != cpMin && cpMax != csMax
    }

    /** The ordering the default speeds (1400, 1450, 3400, 3500) have. */
    predicate Ordered() {
      csMin < cpMin <= cpMax < csMax
    }
  }

  function Abs(x: real): real {
    if x < 0.0 then -x else x
  }

  lemma RatioInUnit(a: real, b: real)
    requires b > 0.0 && 0.0 <= a <= b
    ensures 0.0 <= a / b <= 1.0
  {
  }

  /** The gain of one entry at apparent speed `speed`: the masked assignments of a filter line
      (ones, ramp up on [cs_min, cp_min], ramp down on [cp_max, cs_max], zero at or above cs_max,
      zero below cs_min), a later assignment overriding an earlier one. */
  function SpeedGain(speed: real, band: SpeedBand, trig: Trig): (g: real)
    requires band.RampsDefined() && trig.Valid()
    ensures 0.0 <= g <= 1.0
    ensures speed < band.csMin || speed >= band.csMax ==> g == 0.0
    ensures band.Ordered() && band.cpMin < speed < band.cpMax ==> g == 1.0
    ensures 0.0 < g < 1.0 ==>
      band.csMin <= speed <= band.cpMin || band.cpMax <= speed < band.csMax
  {
    if speed < band.csMin then 0.0
    else if speed >= band.csMax then 0.0
    else if band.cpMax <= speed <= band.csMax then
      RatioInUnit(speed - band.cpMax, band.csMax - band.cpMax);
      1.0 - trig.sinHalfPi((speed - band.cpMax) / (band.csMax - band.cpMax))
    else if band.csMin <= speed <= band.cpMin then
      RatioInUnit(speed - band.csMin, band.cpMin - band.csMin);
      trig.sinHalfPi((speed - band.csMin) / (band.cpMin - band.csMin))
    else 1.0
  }

  /** One filter line: all zero when |k| < 0.005, otherwise the gain at speed |f / k| for every
      frequency f of the axis. */
  function FkRow(freq: seq<real>, k: real, band: SpeedBand, trig: Trig): (row: seq<real>)
    requires band.RampsDefined() && trig.Valid()
    ensures |row| == |freq|
    ensures forall j :: 0 <= j < |freq| ==> 0.0 <= row[j] <= 1.0
    ensures Abs(k) < MinWavenumber ==> forall j :: 0 <= j < |freq| ==> row[j] == 0.0
    ensures Abs(k) >= MinWavenumber ==>
      forall j :: 0 <= j < |freq| ==> row[j] == SpeedGain(Abs(freq[j] / k), band, trig)
  {
    if Abs(k) < MinWavenumber then seq(|freq|, _ => 0.0)
    else seq(|freq|, j requires 0 <= j < |freq| => SpeedGain(Abs(freq[j] / k), band, trig))
  }

  /** The mask as a matrix: one filter line per wavenumber. */
  function FkGrid(freq: seq<real>, knum: seq<real>, band: SpeedBand, trig: Trig): (g: Grid)
    requires band.RampsDefined() && trig.Valid()
    ensures IsGrid(g, |knum|, |freq|)
    ensures Bounded(g, |knum|, |freq|, 0.0, 1.0)
  {
    seq(|knum|, i requires 0 <= i < |knum| => FkRow(freq, knum[i], band, trig))
  }

  /** The mask `fk_filter_design` returns for a trace of nnx channels by nns samples. */
  function FkMask(nnx: nat, nns: nat, sel: ChannelSelection, dx: real, fs: real, band: SpeedBand, trig: Trig): (g: Grid)
    requires nnx >= 1 && nns >= 1 && fs != 0.0 && sel.step != 0 && dx != 0.0
    requires band.RampsDefined() && trig.Valid()
    ensures IsGrid(g, nnx, nns)
  {
    FkGrid(FreqAxis(nns, fs), WavenumberAxis(nnx, sel.step, dx), band, trig)
  }

  /** `fk_filter_design`: fills a preallocated matrix row by row over the wavenumber axis. */
  method FkFilterDesign(nnx: nat, nns: nat, sel: ChannelSelection, dx: real, fs: real, band: SpeedBand, trig: Trig)
    returns (m: array2<real>)
    requires nnx >= 1 && nns >= 1 && fs != 0.0 && sel.step != 0 && dx != 0.0
    requires band.RampsDefined() && trig.Valid()
    ensures fresh(m) && m.Length0 == nnx && m.Length1 == nns
    ensures Represents(m, FkMask(nnx, nns, sel, dx, fs, band, trig))
    ensures forall i, j :: 0 <= i < nnx && 0 <= j < nns ==> 0.0 <= m[i, j] <= 1.0
  {
    var freq := FreqAxis(nns, fs);
    var knum := WavenumberAxis(nnx, sel.step, dx);
    m := new real[|knum|, |freq|];
    ghost var mask := FkGrid(freq, knum, band, trig);
    var i := 0;
    while i < |knum|
      invariant 0 <= i <= |knum|
      invariant forall r, j :: 0 <= r < i && 0 <= j < |freq| ==> m[r, j] == mask[r][j]
    {
      if Abs(knum[i]) < MinWavenumber {
        SetRow(m, i, seq(|freq|, _ => 0.0));
      } else {
        var line := seq(|freq|, j requires 0 <= j < |freq| => SpeedGain(Abs(freq[j] / knum[i]), band, trig));
        SetRow(m, i, line);
      }
      assert forall j :: 0 <= j < |freq| ==> m[i, j] == mask[i][j];
      i := i + 1;
    }
  }

  lemma QuotientSign(a: real, s: real)
    requires 0.0 <= a && 0.0 < s
    ensures 0.0 <= a / s
  {
  }

  lemma NegateDenominator(a: real, s: real)
    requires s != 0.0
    ensures a / (-s) == -(a / s)
  {
  }

  /** |f / k| for a positive k. */
  lemma AbsOfQuotientPositive(f: real, k: real)
    requires 0.0 < k
    ensures Abs(f / k) == Abs(f) / k
  {
    if f >= 0.0 {
      QuotientSign(f, k);
    } else {
      DivideNegate(f, k);
      QuotientSign(-f, k);
    }
  }

  lemma AbsOfQuotient(f: real, k: real)
    requires k != 0.0
    ensures Abs(f / k) == Abs(f) / Abs(k)
  {
    if k > 0.0 {
      AbsOfQuotientPositive(f, k);
    } else {
      NegateDenominator(f, -k);
      AbsOfQuotientPositive(f, -k);
      assert Abs(f / k) == Abs(-(f / -k)) == Abs(f / -k);
    }
  }

  /** Apparent speed depends only on the magnitudes of f and k. */
  lemma SpeedOfMagnitudes(f1: real, k1: real, f2: real, k2: real)
    requires k1 != 0.0 && k2 != 0.0 && Abs(f1) == Abs(f2) && Abs(k1) == Abs(k2)
    ensures Abs(f1 / k1) == Abs(f2 / k2)
  {
    AbsOfQuotient(f1, k1);
    AbsOfQuotient(f2, k2);
  }

  /** Each entry depends only on |f| and |k|: two entries whose frequencies and wavenumbers have
      the same magnitudes are equal. */
  lemma FkRowMagnitudes(freq: seq<real>, k1: real, k2: real, j1: nat, j2: nat, band: SpeedBand, trig: Trig)
    requires band.RampsDefined() && trig.Valid()
    requires j1 < |freq| && j2 < |freq| && Abs(freq[j1]) == Abs(freq[j2]) && Abs(k1) == Abs(k2)
    ensures FkRow(freq, k1, band, trig)[j1] == FkRow(freq, k2, band, trig)[j2]
  {
    if Abs(k1) >= MinWavenumber {
      SpeedOfMagnitudes(freq[j1], k1, freq[j2], k2);
    }
  }

  /** One entry of the mask and its images under f -> -f, k -> -k and both. */
  lemma FkMaskMirrorAt(freq: seq<real>, knum: seq<real>, band: SpeedBand, trig: Trig, i: nat, j: nat, mi: nat, mj: nat)
    requires band.RampsDefined() && trig.Valid()
    requires i < |knum| && mi < |knum| && j < |freq| && mj < |freq|
    requires freq[mj] == -freq[j] && knum[mi] == -knum[i]
    ensures var g := FkGrid(freq, knum, band, trig);
      g[i][j] == g[mi][j] == g[i][mj] == g[mi][mj]
  {
    assert Abs(knum[mi]) == Abs(knum[i]);
    assert Abs(freq[mj]) == Abs(freq[j]);
    FkRowMagnitudes(freq, knum[i], knum[mi], j, j, band, trig);
    FkRowMagnitudes(freq, knum[i], knum[i], j, mj, band, trig);
    FkRowMagnitudes(freq, knum[i], knum[mi], j, mj, band, trig);
  }

  /** Axis `a` is zero-centred: the bin at Mirror(|a|, j) is the negation of the bin at j. */
  ghost predicate Antisymmetric(a: seq<real>) {
    forall j :: 0 <= j < |a| && 0 <= Mirror(|a|, j) < |a| ==> a[Mirror(|a|, j)] == -a[j]
  }

  /** Entry (i, j) equals its images under f -> -f, k -> -k and both. */
  ghost predicate MirrorSymmetric(g: Grid, rows: nat, cols: nat)
    requires IsGrid(g, rows, cols)
  {
    forall i, j :: 0 <= i < rows && 0 <= j < cols && 0 <= Mirror(rows, i) < rows && 0 <= Mirror(cols, j) < cols ==>
      g[i][j] == g[Mirror(rows, i)][j] == g[i][Mirror(cols, j)] == g[Mirror(rows, i)][Mirror(cols, j)]
  }

  lemma FkGridSymmetric(freq: seq<real>, knum: seq<real>, band: SpeedBand, trig: Trig)
    requires band.RampsDefined() && trig.Valid()
    requires Antisymmetric(freq) && Antisymmetric(knum)
    ensures MirrorSymmetric(FkGrid(freq, knum, band, trig), |knum|, |freq|)
  {
    var g := FkGrid(freq, knum, band, trig);
    forall i, j | 0 <= i < |knum| && 0 <= j < |freq| && 0 <= Mirror(|knum|, i) < |knum| && 0 <= Mirror(|freq|, j) < |freq|
      ensures g[i][j] == g[Mirror(|knum|, i)][j] == g[i][Mirror(|freq|, j)] == g[Mirror(|knum|, i)][Mirror(|freq|, j)]
    {
      FkMaskMirrorAt(freq, knum, band, trig, i, j, Mirror(|knum|, i), Mirror(|freq|, j));
    }
  }

  /** The mask is symmetric under f -> -f, under k -> -k and under both, with the opposite bin
      of a zero-centred axis at index Mirror(n, j) = 2 (n div 2) - j. */
  lemma FkMaskSymmetric(nnx: nat, nns: nat, sel: ChannelSelection, dx: real, fs: real, band: SpeedBand, trig: Trig)
    requires nnx >= 1 && nns >= 1 && fs != 0.0 && sel.step != 0 && dx != 0.0
    requires band.RampsDefined() && trig.Valid()
    ensures MirrorSymmetric(FkMask(nnx, nns, sel, dx, fs, band, trig), nnx, nns)
  {
    FreqAxisAntisymmetric(nns, fs);
    WavenumberAxisAntisymmetric(nnx, sel.step, dx);
    FkGridSymmetric(FreqAxis(nns, fs), WavenumberAxis(nnx, sel.step, dx), band, trig);
  }

  lemma FreqAxisAntisymmetric(nns: nat, fs: real)
    requires nns >= 1 && fs != 0.0
    ensures |FreqAxis(nns, fs)| == nns && Antisymmetric(FreqAxis(nns, fs))
  {
    ShiftedFreqsMirror(nns, 1.0 / fs);
  }

  lemma WavenumberAxisAntisymmetric(nnx: nat, step: int, dx: real)
    requires nnx >= 1 && step != 0 && dx != 0.0
    ensures |WavenumberAxis(nnx, step, dx)| == nnx && Antisymmetric(WavenumberAxis(nnx, step, dx))
  {
    ShiftedFreqsMirror(nnx, step as real * dx);
  }

  /** The stop and pass regions of a row with |k| >= 0.005, in terms of the speed |f / k|:
      zero below cs_min and at or above cs_max, one strictly between cp_min and cp_max, and a
      value strictly between 0 and 1 only inside a transition band. */
  lemma FkMaskRegions(nnx: nat, nns: nat, sel: ChannelSelection, dx: real, fs: real, band: SpeedBand, trig: Trig, i: nat, j: nat)
    requires nnx >= 1 && nns >= 1 && fs != 0.0 && sel.step != 0 && dx != 0.0
    requires band.RampsDefined() && trig.Valid() && i < nnx && j < nns
    ensures var freq, knum := FreqAxis(nns, fs), WavenumberAxis(nnx, sel.step, dx);
      var v := FkMask(nnx, nns, sel, dx, fs, band, trig)[i][j];
      && (Abs(knum[i]) < MinWavenumber ==> v == 0.0)
      && (Abs(knum[i]) >= MinWavenumber ==>
            var speed := Abs(freq[j] / knum[i]);
            && (speed < band.csMin || speed >= band.csMax ==> v == 0.0)
            && (band.Ordered() && band.cpMin < speed < band.cpMax ==> v == 1.0)
            && (0.0 < v < 1.0 ==> band.csMin <= speed <= band.cpMin || band.cpMax <= speed < band.csMax))
  {
  }
}

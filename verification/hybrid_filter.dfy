/** The hybrid f-k designers (`hybrid_filter_design`, `hybrid_ninf_filter_design` and their
    Gaussian-smoothed variants): a frequency bandpass H replicated over the wavenumber axis,
    each column of the band multiplied by a gain in wavenumber, then mirrored. */
module HybridFilter {
  import opened Transcendental
  import opened Grids
  import opened FftAxes
  import opened Acquisition
  import FkFilter

  /** Width (Hz) of the cosine tapers below fmin and above fmax. */
  const TaperWidth: real := 4.0

  lemma NegativeRatioInUnit(a: real, b: real)
    requires b < 0.0 && 0.0 <= a <= -b
    ensures -1.0 <= a / b <= 0.0
  {
  }

  lemma RatioOfNonPositives(a: real, b: real)
    requires b < 0.0 && b <= a <= 0.0
    ensures 0.0 <= a / b <= 1.0
  {
  }

  /** The bandpass response at frequency f: a ramp up on [fmin - 4, fmin], one on [fmin, fmax],
      a ramp down on [fmax, fmax + 4] and zero elsewhere, a later masked assignment overriding
      an earlier one. Without ramps (the Gaussian variants) only the passband is set. */
  function FrequencyTaper(f: real, fmin: real, fmax: real, ramps: bool, trig: Trig): (h: real)
    requires trig.Valid()
    ensures 0.0 <= h <= 1.0
    ensures fmin <= f <= fmax ==> h == 1.0
    ensures fmin <= fmax && (f < fmin - TaperWidth || f > fmax + TaperWidth) ==> h == 0.0
    ensures !ramps ==> (h == 0.0 || h == 1.0) && (h == 1.0 <==> fmin <= f <= fmax)
    ensures 0.0 < h < 1.0 ==>
      ramps && (fmin - TaperWidth <= f <= fmin || fmax <= f <= fmax + TaperWidth)
  {
    var fpmin, fpmax := fmin - TaperWidth, fmax + TaperWidth;
    if ramps && fmax <= f <= fpmax then
      NegativeRatioInUnit(f - fmax, fmax - fpmax);
      trig.cosHalfPi((f - fmax) / (fmax - fpmax))
    else if fmin <= f <= fmax then 1.0
    else if ramps && fpmin <= f <= fmin then
      FkFilter.RatioInUnit(f - fpmin, fmin - fpmin);
      trig.sinHalfPi((f - fpmin) / (fmin - fpmin))
    else 0.0
  }

  /** The vector H over the frequency axis. */
  function BandpassResponse(freq: seq<real>, fmin: real, fmax: real, ramps: bool, trig: Trig): (h: seq<real>)
    requires trig.Valid()
    ensures |h| == |freq|
  {
    seq(|freq|, j requires 0 <= j < |freq| => FrequencyTaper(freq[j], fmin, fmax, ramps, trig))
  }

  /** The first index at or after `from` whose entry is at least x, or |s| when there is none. */
  function FirstFrom(s: seq<real>, x: real, from: nat): (i: nat)
    requires from <= |s|
    ensures from <= i <= |s|
    ensures i < |s| ==> s[i] >= x
    ensures forall j :: from <= j < i ==> s[j] < x
    decreases |s| - from
  {
    if from == |s| then |s|
    else if s[from] >= x then from
    else FirstFrom(s, x, from + 1)
  }

  /** `np.argmax(s >= x)`: the first index whose entry is at least x, and 0 when no entry is. */
  function FirstAtLeast(s: seq<real>, x: real): (i: nat)
    requires |s| >= 1
    ensures i < |s|
    ensures (exists j :: 0 <= j < |s| && s[j] >= x) ==> s[i] >= x && forall j :: 0 <= j < i ==> s[j] < x
    ensures (forall j :: 0 <= j < |s| ==> s[j] < x) ==> i == 0
  {
    var i := FirstFrom(s, x, 0);
    if i == |s| then 0 else i
  }

  /** The speed rule a column of the band is multiplied by: one-sided (speeds above cs_min kept,
      both signs of k) or two-sided (speeds in [cs_min, cs_max] kept, on the k < 0 side). */
  datatype ColumnRule =
    | SingleSided(csMin: real, cpMin: real)
    | DoubleSided(csMin: real, cpMin: real, cpMax: real, csMax: real)
  {
    /** Every speed divides the column's frequency. */
    predicate NonZero() {
      csMin != 0.0 && cpMin != 0.0 && (DoubleSided? ==> cpMax != 0.0 && csMax != 0.0)
    }

    /** The ordering the defaults (1400, 1450, 3400, 3500 m/s) have. */
    predicate Ordered() {
      0.0 < csMin <= cpMin && (DoubleSided? ==> cpMin <= cpMax <= csMax)
    }
  }

  /** The gain of one-sided column entries at wavenumber k, with thresholds ks = f / cs_min and
      kp = f / cp_min: ramps on [-ks, -kp] and [kp, ks] when ks != kp, then ones on (-kp, kp). */
  function SingleSidedGain(k: real, ks: real, kp: real, ramps: bool, trig: Trig): (g: real)
    requires trig.Valid()
    ensures 0.0 <= g <= 1.0
    ensures -kp < k < kp ==> g == 1.0
    ensures 0.0 <= kp <= ks && (k < -ks || ks < k) ==> g == 0.0
    ensures ks <= kp <= 0.0 ==> g == 0.0
    ensures !ramps ==> (g == 0.0 || g == 1.0) && (g == 1.0 <==> -kp < k < kp)
    ensures 0.0 <= kp && 0.0 < g < 1.0 ==> ramps && kp <= FkFilter.Abs(k) <= ks
  {
    if -kp < k < kp then 1.0
    else if ramps && ks != kp && -ks <= -k <= -kp then
      RatioOfNonPositives(k - ks, kp - ks);
      trig.sinHalfPi((k - ks) / (kp - ks))
    else if ramps && ks != kp && -ks <= k <= -kp then
      NegativeRatioInUnit(k + ks, kp - ks);
      -trig.sinHalfPi((k + ks) / (kp - ks))
    else 0.0
  }

  /** The gain of two-sided column entries, with thresholds ksMin, kpMin, kpMax, ksMax (f over
      each speed): a ramp on [-ksMin, -kpMin], a ramp on [-kpMax, -ksMax], then ones on
      (-kpMin, -kpMax). */
  function DoubleSidedGain(k: real, ksMin: real, kpMin: real, kpMax: real, ksMax: real, ramps: bool, trig: Trig): (g: real)
    requires trig.Valid()
    ensures 0.0 <= g <= 1.0
    ensures -kpMin < k < -kpMax ==> g == 1.0
    ensures 0.0 <= ksMax <= kpMax <= kpMin <= ksMin && (k < -ksMin || -ksMax < k) ==> g == 0.0
    ensures ksMin <= kpMin <= kpMax <= ksMax <= 0.0 ==> g == 0.0
    ensures !ramps ==> (g == 0.0 || g == 1.0) && (g == 1.0 <==> -kpMin < k < -kpMax)
    ensures 0.0 <= ksMax <= kpMax <= kpMin <= ksMin && 0.0 < g < 1.0 ==>
      ramps && (-ksMin <= k <= -kpMin || -kpMax <= k <= -ksMax)
  {
    if -kpMin < k < -kpMax then 1.0
    else if ramps && ksMax != kpMax && -kpMax <= k <= -ksMax then
      NegativeRatioInUnit(k + kpMax, ksMax - kpMax);
      trig.cosHalfPi((k + kpMax) / (ksMax - kpMax))
    else if ramps && ksMin != kpMin && -ksMin <= k <= -kpMin then
      NegativeRatioInUnit(k + ksMin, kpMin - ksMin);
      -trig.sinHalfPi((k + ksMin) / (kpMin - ksMin))
    else 0.0
  }

  /** The gain at wavenumber k of the column at frequency f. */
  function ColumnGain(k: real, f: real, rule: ColumnRule, ramps: bool, trig: Trig): (g: real)
    requires rule.NonZero() && trig.Valid()
    ensures 0.0 <= g <= 1.0
    ensures !ramps ==> g == 0.0 || g == 1.0
  {
    match rule
    case SingleSided(csMin, cpMin) => SingleSidedGain(k, f / csMin, f / cpMin, ramps, trig)
    case DoubleSided(csMin, cpMin, cpMax, csMax) =>
      DoubleSidedGain(k, f / csMin, f / cpMin, f / cpMax, f / csMax, ramps, trig)
  }

  /** Dividing by the larger of two positive speeds gives the threshold nearer zero. */
  lemma ThresholdsOrdered(f: real, a: real, b: real)
    requires 0.0 < a <= b
    ensures f >= 0.0 ==> 0.0 <= f / b <= f / a
    ensures f <= 0.0 ==> f / a <= f / b <= 0.0
  {
    assert f / b == (f / a) * (a / b);
    assert 0.0 < a / b <= 1.0;
  }

  /** With ordered speeds no column passes anything at a frequency f <= 0. */
  lemma ColumnGainNonPositiveFrequency(k: real, f: real, rule: ColumnRule, ramps: bool, trig: Trig)
    requires rule.NonZero() && rule.Ordered() && trig.Valid() && f <= 0.0
    ensures ColumnGain(k, f, rule, ramps, trig) == 0.0
  {
    ThresholdsOrdered(f, rule.csMin, rule.cpMin);
    if rule.DoubleSided? {
      ThresholdsOrdered(f, rule.cpMin, rule.cpMax);
      ThresholdsOrdered(f, rule.cpMax, rule.csMax);
    }
  }

  /** The regions of a column at a frequency f > 0 with ordered speeds: a one-sided column passes
      |k| < f / cp_min and stops |k| > f / cs_min; a two-sided column passes
      -f / cp_min < k < -f / cp_max and stops k outside [-f / cs_min, -f / cs_max]. */
  lemma ColumnGainRegions(k: real, f: real, rule: ColumnRule, ramps: bool, trig: Trig)
    requires rule.NonZero() && rule.Ordered() && trig.Valid() && f > 0.0
    ensures rule.SingleSided? && FkFilter.Abs(k) < f / rule.cpMin ==> ColumnGain(k, f, rule, ramps, trig) == 1.0
    ensures rule.SingleSided? && FkFilter.Abs(k) > f / rule.csMin ==> ColumnGain(k, f, rule, ramps, trig) == 0.0
    ensures rule.DoubleSided? && -f / rule.cpMin < k < -f / rule.cpMax ==> ColumnGain(k, f, rule, ramps, trig) == 1.0
    ensures rule.DoubleSided? && (k < -f / rule.csMin || -f / rule.csMax < k) ==> ColumnGain(k, f, rule, ramps, trig) == 0.0
  {
    ThresholdsOrdered(f, rule.csMin, rule.cpMin);
    if rule.DoubleSided? {
      ThresholdsOrdered(f, rule.cpMin, rule.cpMax);
      ThresholdsOrdered(f, rule.cpMax, rule.csMax);
      DivideNegate(f, rule.cpMin);
      DivideNegate(f, rule.cpMax);
      DivideNegate(f, rule.csMin);
      DivideNegate(f, rule.csMax);
    }
  }

  /** The filter column at frequency f over the wavenumber axis. */
  function Column(knum: seq<real>, f: real, rule: ColumnRule, ramps: bool, trig: Trig): (col: seq<real>)
    requires rule.NonZero() && trig.Valid()
    ensures |col| == |knum|
  {
    seq(|knum|, i requires 0 <= i < |knum| => ColumnGain(knum[i], f, rule, ramps, trig))
  }

  /** An entry of H scaled by a column gain (the `*=` of the column loop). The product is a named
      function so that the verifier handles it as one term per grid entry instead of reasoning
      about a nonlinear product for every entry it meets. */
  function Attenuate(h: real, gain: real): real {
    h * gain
  }

  /** The matrix before it is mirrored: H on every row, and on the columns from the first index
      with f >= fmin - 4 up to (excluding) the first with f >= fmax + 4, H times the column gain. */
  function PreMirror(freq: seq<real>, knum: seq<real>, fmin: real, fmax: real, rule: ColumnRule, ramps: bool, trig: Trig): (g: Grid)
    requires |freq| >= 1 && rule.NonZero() && trig.Valid()
    ensures IsGrid(g, |knum|, |freq|)
  {
    var h := BandpassResponse(freq, fmin, fmax, ramps, trig);
    var lo, hi := FirstAtLeast(freq, fmin - TaperWidth), FirstAtLeast(freq, fmax + TaperWidth);
    seq(|knum|, i requires 0 <= i < |knum| =>
      seq(|freq|, j requires 0 <= j < |freq| =>
        if lo <= j < hi then Attenuate(h[j], ColumnGain(knum[i], freq[j], rule, ramps, trig)) else h[j]))
  }

  /** One entry of the matrix before mirroring. */
  lemma PreMirrorAt(freq: seq<real>, knum: seq<real>, fmin: real, fmax: real, rule: ColumnRule, ramps: bool, trig: Trig, i: nat, j: nat)
    requires |freq| >= 1 && rule.NonZero() && trig.Valid() && i < |knum| && j < |freq|
    ensures var h := FrequencyTaper(freq[j], fmin, fmax, ramps, trig);
      PreMirror(freq, knum, fmin, fmax, rule, ramps, trig)[i][j]
      == if FirstAtLeast(freq, fmin - TaperWidth) <= j < FirstAtLeast(freq, fmax + TaperWidth)
         then Attenuate(h, ColumnGain(knum[i], freq[j], rule, ramps, trig)) else h
  {
  }

  lemma NonNegativeProduct(x: real, y: real)
    requires 0.0 <= x && 0.0 <= y
    ensures 0.0 <= x * y
  {
  }

  lemma ProductInUnit(a: real, b: real)
    requires 0.0 <= a <= 1.0 && 0.0 <= b <= 1.0
    ensures 0.0 <= Attenuate(a, b) <= 1.0
  {
    NonNegativeProduct(a, b);
    NonNegativeProduct(1.0 - a, b);
    assert (1.0 - a) * b == b - a * b;
  }

  /** One entry before mirroring is a gain in [0, 1]; without ramps it is exactly 0 or 1. */
  lemma PreMirrorEntryBounds(freq: seq<real>, knum: seq<real>, fmin: real, fmax: real, rule: ColumnRule, ramps: bool, trig: Trig, i: nat, j: nat)
    requires |freq| >= 1 && rule.NonZero() && trig.Valid() && i < |knum| && j < |freq|
    ensures var e := PreMirror(freq, knum, fmin, fmax, rule, ramps, trig)[i][j];
      0.0 <= e <= 1.0 && (!ramps ==> e == 0.0 || e == 1.0)
  {
    var h, gain := FrequencyTaper(freq[j], fmin, fmax, ramps, trig), ColumnGain(knum[i], freq[j], rule, ramps, trig);
    PreMirrorAt(freq, knum, fmin, fmax, rule, ramps, trig, i, j);
    ProductInUnit(h, gain);
  }

  /** Every entry before mirroring is a gain in [0, 1]; without ramps it is exactly 0 or 1. */
  lemma PreMirrorBounds(freq: seq<real>, knum: seq<real>, fmin: real, fmax: real, rule: ColumnRule, ramps: bool, trig: Trig)
    requires |freq| >= 1 && rule.NonZero() && trig.Valid()
    ensures Bounded(PreMirror(freq, knum, fmin, fmax, rule, ramps, trig), |knum|, |freq|, 0.0, 1.0)
    ensures !ramps ==> forall i, j :: 0 <= i < |knum| && 0 <= j < |freq| ==>
      PreMirror(freq, knum, fmin, fmax, rule, ramps, trig)[i][j] == 0.0 ||
      PreMirror(freq, knum, fmin, fmax, rule, ramps, trig)[i][j] == 1.0
  {
    forall i, j | 0 <= i < |knum| && 0 <= j < |freq| {
      PreMirrorEntryBounds(freq, knum, fmin, fmax, rule, ramps, trig, i, j);
    }
  }

  /** Scaling by a gain of 0 clears an entry and scaling by 1 keeps it. */
  lemma AttenuateByUnitGains(h: real)
    ensures Attenuate(h, 0.0) == 0.0 && Attenuate(h, 1.0) == h
  {
  }

  /** Outside the loop range a column keeps H in every row; inside it, a zero-frequency column is
      all zero, because ks == kp skips the ramps and the passband is empty. */
  lemma PreMirrorOutsideAndZeroColumns(freq: seq<real>, knum: seq<real>, fmin: real, fmax: real, rule: ColumnRule, ramps: bool, trig: Trig, i: nat, j: nat)
    requires |freq| >= 1 && rule.NonZero() && trig.Valid() && i < |knum| && j < |freq|
    ensures var inLoop := FirstAtLeast(freq, fmin - TaperWidth) <= j < FirstAtLeast(freq, fmax + TaperWidth);
      && (!inLoop ==> PreMirror(freq, knum, fmin, fmax, rule, ramps, trig)[i][j] == FrequencyTaper(freq[j], fmin, fmax, ramps, trig))
      && (inLoop && freq[j] == 0.0 ==> PreMirror(freq, knum, fmin, fmax, rule, ramps, trig)[i][j] == 0.0)
  {
    PreMirrorAt(freq, knum, fmin, fmax, rule, ramps, trig, i, j);
    AttenuateByUnitGains(FrequencyTaper(freq[j], fmin, fmax, ramps, trig));
    if freq[j] == 0.0 {
      assert ColumnGain(knum[i], freq[j], rule, ramps, trig) == 0.0;
    }
  }

  /** Inside the loop range a passband entry keeps H: |k| < f / cp_min for a one-sided column,
      -f / cp_min < k < -f / cp_max for a two-sided one. */
  lemma PreMirrorPassband(freq: seq<real>, knum: seq<real>, fmin: real, fmax: real, rule: ColumnRule, ramps: bool, trig: Trig, i: nat, j: nat)
    requires |freq| >= 1 && rule.NonZero() && trig.Valid() && i < |knum| && j < |freq|
    requires FirstAtLeast(freq, fmin - TaperWidth) <= j < FirstAtLeast(freq, fmax + TaperWidth)
    requires if rule.SingleSided? then -(freq[j] / rule.cpMin) < knum[i] < freq[j] / rule.cpMin
             else -(freq[j] / rule.cpMin) < knum[i] < -(freq[j] / rule.cpMax)
    ensures PreMirror(freq, knum, fmin, fmax, rule, ramps, trig)[i][j] == FrequencyTaper(freq[j], fmin, fmax, ramps, trig)
  {
    PreMirrorAt(freq, knum, fmin, fmax, rule, ramps, trig, i, j);
    AttenuateByUnitGains(FrequencyTaper(freq[j], fmin, fmax, ramps, trig));
    DivideNegate(freq[j], rule.cpMin);
    if rule.DoubleSided? {
      DivideNegate(freq[j], rule.cpMax);
    }
  }

  /** Inside the loop range, at f > 0 with ordered speeds, the stop region is zero: |k| > f / cs_min
      for a one-sided column, k outside [-f / cs_min, -f / cs_max] for a two-sided one. */
  lemma PreMirrorStopRegion(freq: seq<real>, knum: seq<real>, fmin: real, fmax: real, rule: ColumnRule, ramps: bool, trig: Trig, i: nat, j: nat)
    requires |freq| >= 1 && rule.NonZero() && rule.Ordered() && trig.Valid() && i < |knum| && j < |freq|
    requires FirstAtLeast(freq, fmin - TaperWidth) <= j < FirstAtLeast(freq, fmax + TaperWidth)
    requires freq[j] > 0.0
    requires if rule.SingleSided? then FkFilter.Abs(knum[i]) > freq[j] / rule.csMin
             else knum[i] < -(freq[j] / rule.csMin) || -(freq[j] / rule.csMax) < knum[i]
    ensures PreMirror(freq, knum, fmin, fmax, rule, ramps, trig)[i][j] == 0.0
  {
    PreMirrorAt(freq, knum, fmin, fmax, rule, ramps, trig, i, j);
    AttenuateByUnitGains(FrequencyTaper(freq[j], fmin, fmax, ramps, trig));
    ColumnGainRegions(knum[i], freq[j], rule, ramps, trig);
    if rule.DoubleSided? {
      DivideNegate(freq[j], rule.csMin);
      DivideNegate(freq[j], rule.csMax);
    }
  }

  /** On a sorted axis with some frequency at or above fmax + 4, the columns the loop visits are
      exactly those whose frequency lies in [fmin - 4, fmax + 4). */
  lemma LoopColumnsInBand(freq: seq<real>, fmin: real, fmax: real, c: nat)
    requires |freq| >= 1 && c < |freq| && fmin <= fmax
    requires forall i, j :: 0 <= i < j < |freq| ==> freq[i] <= freq[j]
    requires exists j :: 0 <= j < |freq| && freq[j] >= fmax + TaperWidth
    ensures (FirstAtLeast(freq, fmin - TaperWidth) <= c < FirstAtLeast(freq, fmax + TaperWidth))
      <==> (fmin - TaperWidth <= freq[c] < fmax + TaperWidth)
  {
    var lo, hi := FirstAtLeast(freq, fmin - TaperWidth), FirstAtLeast(freq, fmax + TaperWidth);
    var w :| 0 <= w < |freq| && freq[w] >= fmax + TaperWidth;
    assert freq[w] >= fmin - TaperWidth;
    if lo <= c < hi {
      assert freq[lo] <= freq[c];
    }
  }

  /** When every frequency lies below fmax + 4 the argmax falls back to 0 and the loop visits no
      column: the matrix is H on every row, with no speed filtering at all. */
  lemma NoColumnsBelowTopBand(freq: seq<real>, knum: seq<real>, fmin: real, fmax: real, rule: ColumnRule, ramps: bool, trig: Trig)
    requires |freq| >= 1 && rule.NonZero() && trig.Valid()
    requires forall j :: 0 <= j < |freq| ==> freq[j] < fmax + TaperWidth
    ensures PreMirror(freq, knum, fmin, fmax, rule, ramps, trig) == Tile(BandpassResponse(freq, fmin, fmax, ramps, trig), |knum|)
  {
    var g := PreMirror(freq, knum, fmin, fmax, rule, ramps, trig);
    var t := Tile(BandpassResponse(freq, fmin, fmax, ramps, trig), |knum|);
    assert FirstAtLeast(freq, fmax + TaperWidth) == 0;
    forall i | 0 <= i < |knum| ensures g[i] == t[i] {
    }
  }

  /** With ordered speeds and fmin > 4, nothing at a frequency f <= 0 survives before mirroring:
      either H is zero there or the column gain is. */
  lemma PreMirrorVanishesAtNonPositiveFrequency(freq: seq<real>, knum: seq<real>, fmin: real, fmax: real, rule: ColumnRule, ramps: bool, trig: Trig)
    requires |freq| >= 1 && rule.NonZero() && trig.Valid()
    requires TaperWidth < fmin <= fmax
    ensures forall i, j :: 0 <= i < |knum| && 0 <= j < |freq| && freq[j] <= 0.0 ==>
      PreMirror(freq, knum, fmin, fmax, rule, ramps, trig)[i][j] == 0.0
  {
    var g := PreMirror(freq, knum, fmin, fmax, rule, ramps, trig);
    var h := BandpassResponse(freq, fmin, fmax, ramps, trig);
    forall i, j | 0 <= i < |knum| && 0 <= j < |freq| && freq[j] <= 0.0
      ensures g[i][j] == 0.0
    {
      assert h[j] == 0.0;
    }
  }

  /** The frequency and wavenumber axes the designers build from the trace shape. */
  ghost predicate AxesDefined(nnx: nat, nns: nat, sel: ChannelSelection, dx: real, fs: real) {
    nnx >= 1 && nns >= 1 && fs != 0.0 && sel.step != 0 && dx != 0.0
  }

  /** The matrix before mirroring, on the designers' own axes. */
  function DesignPreMirror(nnx: nat, nns: nat, sel: ChannelSelection, dx: real, fs: real, fmin: real, fmax: real, rule: ColumnRule, ramps: bool, trig: Trig): (g: Grid)
    requires AxesDefined(nnx, nns, sel, dx, fs) && rule.NonZero() && trig.Valid()
    ensures IsGrid(g, nnx, nns)
  {
    PreMirror(FreqAxis(nns, fs), WavenumberAxis(nnx, sel.step, dx), fmin, fmax, rule, ramps, trig)
  }

  /** `hybrid_filter_design`: one-sided columns with ramps, then `+= fliplr`. The result is
      left-right symmetric and within [0, 2]. */
  function HybridMask(nnx: nat, nns: nat, sel: ChannelSelection, dx: real, fs: real, csMin: real, cpMin: real, fmin: real, fmax: real, trig: Trig): (g: Grid)
    requires AxesDefined(nnx, nns, sel, dx, fs) && csMin != 0.0 && cpMin != 0.0 && trig.Valid()
    ensures IsGrid(g, nnx, nns) && LRSymmetric(g, nnx, nns)
    ensures Bounded(g, nnx, nns, 0.0, 2.0)
  {
    var pre := DesignPreMirror(nnx, nns, sel, dx, fs, fmin, fmax, SingleSided(csMin, cpMin), true, trig);
    PreMirrorBounds(FreqAxis(nns, fs), WavenumberAxis(nnx, sel.step, dx), fmin, fmax, SingleSided(csMin, cpMin), true, trig);
    AddFlipBounds(pre, nnx, nns, 1.0);
    AddFlipLR(pre, nnx, nns)
  }

  /** `hybrid_ninf_filter_design`: two-sided columns with ramps, then `+= fliplr` and `+= flipud`.
      The result is symmetric both ways and within [0, 4]. */
  function HybridNinfMask(nnx: nat, nns: nat, sel: ChannelSelection, dx: real, fs: real, csMin: real, cpMin: real, cpMax: real, csMax: real, fmin: real, fmax: real, trig: Trig): (g: Grid)
    requires AxesDefined(nnx, nns, sel, dx, fs) && DoubleSided(csMin, cpMin, cpMax, csMax).NonZero() && trig.Valid()
    ensures IsGrid(g, nnx, nns) && LRSymmetric(g, nnx, nns)
    ensures forall i, j {:trigger g[i][j]} :: 0 <= i < nnx && 0 <= j < nns ==> g[i][j] == g[nnx - 1 - i][j]
    ensures Bounded(g, nnx, nns, 0.0, 4.0)
  {
    var pre := DesignPreMirror(nnx, nns, sel, dx, fs, fmin, fmax, DoubleSided(csMin, cpMin, cpMax, csMax), true, trig);
    PreMirrorBounds(FreqAxis(nns, fs), WavenumberAxis(nnx, sel.step, dx), fmin, fmax, DoubleSided(csMin, cpMin, cpMax, csMax), true, trig);
    var lr := AddFlipLR(pre, nnx, nns);
    AddFlipBounds(pre, nnx, nns, 1.0);
    AddFlipBounds(lr, nnx, nns, 2.0);
    AddFlipUD(lr, nnx, nns)
  }

  /** `hybrid_gs_filter_design`: one-sided columns without ramps, `+= fliplr`, then the blur. */
  function HybridGsMask(nnx: nat, nns: nat, sel: ChannelSelection, dx: real, fs: real, csMin: real, cpMin: real, fmin: real, fmax: real, trig: Trig, blur: Grid -> Grid): (g: Grid)
    requires AxesDefined(nnx, nns, sel, dx, fs) && csMin != 0.0 && cpMin != 0.0 && trig.Valid()
    requires PreservesShape(blur, nnx, nns)
    ensures IsGrid(g, nnx, nns)
  {
    blur(AddFlipLR(DesignPreMirror(nnx, nns, sel, dx, fs, fmin, fmax, SingleSided(csMin, cpMin), false, trig), nnx, nns))
  }

  /** `hybrid_ninf_gs_filter_design`: two-sided columns without ramps, the blur, then `+= fliplr`
      and `+= flipud`. Whatever the blur does, the result is symmetric both ways. */
  function HybridNinfGsMask(nnx: nat, nns: nat, sel: ChannelSelection, dx: real, fs: real, csMin: real, cpMin: real, cpMax: real, csMax: real, fmin: real, fmax: real, trig: Trig, blur: Grid -> Grid): (g: Grid)
    requires AxesDefined(nnx, nns, sel, dx, fs) && DoubleSided(csMin, cpMin, cpMax, csMax).NonZero() && trig.Valid()
    requires PreservesShape(blur, nnx, nns)
    ensures IsGrid(g, nnx, nns) && LRSymmetric(g, nnx, nns)
    ensures forall i, j {:trigger g[i][j]} :: 0 <= i < nnx && 0 <= j < nns ==> g[i][j] == g[nnx - 1 - i][j]
  {
    var pre := DesignPreMirror(nnx, nns, sel, dx, fs, fmin, fmax, DoubleSided(csMin, cpMin, cpMax, csMax), false, trig);
    AddFlipUD(AddFlipLR(blur(pre), nnx, nns), nnx, nns)
  }

  /** A blur that maps matrices within [lo, hi] to matrices within [lo, hi], as a normalised
      Gaussian kernel does. */
  ghost predicate KeepsRange(blur: Grid -> Grid, rows: nat, cols: nat, lo: real, hi: real) {
    forall g :: IsGrid(g, rows, cols) && Bounded(g, rows, cols, lo, hi) ==>
      IsGrid(blur(g), rows, cols) && Bounded(blur(g), rows, cols, lo, hi)
  }

  /** With a range-keeping blur the smoothed masks keep the bounds of the sharp ones: [0, 2] for
      the one-sided design and [0, 4] for the two-sided one. */
  lemma SmoothedMaskBounds(nnx: nat, nns: nat, sel: ChannelSelection, dx: real, fs: real, rule: ColumnRule, fmin: real, fmax: real, trig: Trig, blur: Grid -> Grid)
    requires AxesDefined(nnx, nns, sel, dx, fs) && rule.NonZero() && trig.Valid()
    requires PreservesShape(blur, nnx, nns)
    requires KeepsRange(blur, nnx, nns, 0.0, 1.0) && KeepsRange(blur, nnx, nns, 0.0, 2.0)
    ensures rule.SingleSided? ==>
      Bounded(HybridGsMask(nnx, nns, sel, dx, fs, rule.csMin, rule.cpMin, fmin, fmax, trig, blur), nnx, nns, 0.0, 2.0)
    ensures rule.DoubleSided? ==>
      Bounded(HybridNinfGsMask(nnx, nns, sel, dx, fs, rule.csMin, rule.cpMin, rule.cpMax, rule.csMax, fmin, fmax, trig, blur), nnx, nns, 0.0, 4.0)
  {
    var pre := DesignPreMirror(nnx, nns, sel, dx, fs, fmin, fmax, rule, false, trig);
    PreMirrorBounds(FreqAxis(nns, fs), WavenumberAxis(nnx, sel.step, dx), fmin, fmax, rule, false, trig);
    if rule.SingleSided? {
      AddFlipBounds(pre, nnx, nns, 1.0);
    } else {
      var b := blur(pre);
      AddFlipBounds(b, nnx, nns, 1.0);
      AddFlipBounds(AddFlipLR(b, nnx, nns), nnx, nns, 2.0);
    }
  }

  /** The frequency axis of a positive sampling rate is sorted, so the loop columns are the
      band [fmin - 4, fmax + 4) whenever the axis reaches fmax + 4. */
  lemma DesignLoopColumns(nns: nat, fs: real, fmin: real, fmax: real, c: nat)
    requires nns >= 1 && fs > 0.0 && c < nns && fmin <= fmax
    requires exists j :: 0 <= j < nns && FreqAxis(nns, fs)[j] >= fmax + TaperWidth
    ensures var freq := FreqAxis(nns, fs);
      (FirstAtLeast(freq, fmin - TaperWidth) <= c < FirstAtLeast(freq, fmax + TaperWidth))
      <==> (fmin - TaperWidth <= freq[c] < fmax + TaperWidth)
  {
    ShiftedFreqsIncreasing(nns, 1.0 / fs);
    LoopColumnsInBand(FreqAxis(nns, fs), fmin, fmax, c);
  }

  /** Outside [fmin - 4, fmax + 4] an entry before mirroring is 0: H is 0 there and a column gain
      only multiplies it. */
  lemma PreMirrorOutsideTaperBand(freq: seq<real>, knum: seq<real>, fmin: real, fmax: real, rule: ColumnRule, ramps: bool, trig: Trig, i: nat, j: nat)
    requires |freq| >= 1 && rule.NonZero() && trig.Valid() && i < |knum| && j < |freq|
    requires fmin <= fmax && (freq[j] < fmin - TaperWidth || freq[j] > fmax + TaperWidth)
    ensures PreMirror(freq, knum, fmin, fmax, rule, ramps, trig)[i][j] == 0.0
  {
    PreMirrorAt(freq, knum, fmin, fmax, rule, ramps, trig, i, j);
    assert FrequencyTaper(freq[j], fmin, fmax, ramps, trig) == 0.0;
  }

  /** The column `+= fliplr` adds to column j of the designers' frequency axis: for odd nns it
      holds -freq[j], the opposite frequency; for even nns it holds less, one bin short of it. */
  lemma FlippedFrequency(nns: nat, fs: real, j: nat)
    requires nns >= 1 && fs > 0.0 && j < nns
    ensures nns % 2 == 1 ==> FreqAxis(nns, fs)[nns - 1 - j] == -FreqAxis(nns, fs)[j]
    ensures nns % 2 == 0 ==> FreqAxis(nns, fs)[nns - 1 - j] < -FreqAxis(nns, fs)[j]
  {
    var d := 1.0 / fs;
    FlippedIndexBin(nns, d);
    assert ShiftedFreqs(nns, d)[nns - 1 - j] ==
      -ShiftedFreqs(nns, d)[j] - (if nns % 2 == 0 then 1.0 / (nns as real * d) else 0.0);
    assert 0.0 < d;
    PositiveProduct(nns as real, d);
  }

  lemma PositiveProduct(a: real, b: real)
    requires 0.0 < a && 0.0 < b
    ensures 0.0 < a * b && 0.0 < 1.0 / (a * b)
  {
  }

  /** Two columns whose frequencies both lie outside [fmin - 4, fmax + 4] are zero before
      mirroring. */
  lemma ColumnsVanish(freq: seq<real>, knum: seq<real>, fmin: real, fmax: real, rule: ColumnRule, ramps: bool, trig: Trig, j: nat, p: nat)
    requires |freq| >= 1 && rule.NonZero() && trig.Valid() && j < |freq| && p < |freq| && fmin <= fmax
    requires freq[j] < fmin - TaperWidth || freq[j] > fmax + TaperWidth
    requires freq[p] < fmin - TaperWidth || freq[p] > fmax + TaperWidth
    ensures forall i :: 0 <= i < |knum| ==>
      PreMirror(freq, knum, fmin, fmax, rule, ramps, trig)[i][j] == 0.0 &&
      PreMirror(freq, knum, fmin, fmax, rule, ramps, trig)[i][p] == 0.0
  {
    forall i | 0 <= i < |knum|
      ensures PreMirror(freq, knum, fmin, fmax, rule, ramps, trig)[i][j] == 0.0
      ensures PreMirror(freq, knum, fmin, fmax, rule, ramps, trig)[i][p] == 0.0
    {
      PreMirrorOutsideTaperBand(freq, knum, fmin, fmax, rule, ramps, trig, i, j);
      PreMirrorOutsideTaperBand(freq, knum, fmin, fmax, rule, ramps, trig, i, p);
    }
  }

  /** Column j and its fliplr partner are both zero before mirroring when freq[j] lies above
      fmax + 4, or, for odd nns, below -(fmax + 4). */
  lemma PartnerColumnsVanish(nnx: nat, nns: nat, sel: ChannelSelection, dx: real, fs: real, fmin: real, fmax: real, rule: ColumnRule, ramps: bool, trig: Trig, j: nat)
    requires AxesDefined(nnx, nns, sel, dx, fs) && rule.NonZero() && trig.Valid() && j < nns
    requires fs > 0.0 && fmin <= fmax && 0.0 <= fmin + fmax
    requires FreqAxis(nns, fs)[j] > fmax + TaperWidth || (nns % 2 == 1 && FreqAxis(nns, fs)[j] < -(fmax + TaperWidth))
    ensures var pre := DesignPreMirror(nnx, nns, sel, dx, fs, fmin, fmax, rule, ramps, trig);
      forall i :: 0 <= i < nnx ==> pre[i][j] == 0.0 && pre[i][nns - 1 - j] == 0.0
  {
    var freq, knum := FreqAxis(nns, fs), WavenumberAxis(nnx, sel.step, dx);
    FlippedFrequency(nns, fs, j);
    PartnerOutsideTaperBand(freq[j], freq[nns - 1 - j], fmin, fmax, nns % 2 == 1);
    ColumnsVanish(freq, knum, fmin, fmax, rule, ramps, trig, j, nns - 1 - j);
    assert DesignPreMirror(nnx, nns, sel, dx, fs, fmin, fmax, rule, ramps, trig)
      == PreMirror(freq, knum, fmin, fmax, rule, ramps, trig);
  }

  /** If f lies above fmax + 4, or (for an exact partner) below -(fmax + 4), then f and a partner
      at or below -f both lie outside [fmin - 4, fmax + 4] when fmin + fmax >= 0. */
  lemma PartnerOutsideTaperBand(f: real, partner: real, fmin: real, fmax: real, exact: bool)
    requires fmin <= fmax && 0.0 <= fmin + fmax
    requires if exact then partner == -f else partner < -f
    requires f > fmax + TaperWidth || (exact && f < -(fmax + TaperWidth))
    ensures f < fmin - TaperWidth || f > fmax + TaperWidth
    ensures partner < fmin - TaperWidth || partner > fmax + TaperWidth
  {
  }

  /** Every column of the `hybrid_filter_design` mask above fmax + 4 is zero, and for odd nns so
      is every column below -(fmax + 4). For even nns the negative side leaks: see
      HybridMaskEvenLengthLeak. */
  lemma HybridMaskOutsideBand(nnx: nat, nns: nat, sel: ChannelSelection, dx: real, fs: real, csMin: real, cpMin: real, fmin: real, fmax: real, trig: Trig)
    requires AxesDefined(nnx, nns, sel, dx, fs) && csMin != 0.0 && cpMin != 0.0 && trig.Valid()
    requires fs > 0.0 && fmin <= fmax && 0.0 <= fmin + fmax
    ensures forall i, j :: 0 <= i < nnx && 0 <= j < nns && FreqAxis(nns, fs)[j] > fmax + TaperWidth ==>
      HybridMask(nnx, nns, sel, dx, fs, csMin, cpMin, fmin, fmax, trig)[i][j] == 0.0
    ensures nns % 2 == 1 ==>
      forall i, j :: 0 <= i < nnx && 0 <= j < nns && FreqAxis(nns, fs)[j] < -(fmax + TaperWidth) ==>
        HybridMask(nnx, nns, sel, dx, fs, csMin, cpMin, fmin, fmax, trig)[i][j] == 0.0
  {
    var freq := FreqAxis(nns, fs);
    var pre := DesignPreMirror(nnx, nns, sel, dx, fs, fmin, fmax, SingleSided(csMin, cpMin), true, trig);
    assert HybridMask(nnx, nns, sel, dx, fs, csMin, cpMin, fmin, fmax, trig) == AddFlipLR(pre, nnx, nns);
    forall j | 0 <= j < nns && (freq[j] > fmax + TaperWidth || (nns % 2 == 1 && freq[j] < -(fmax + TaperWidth)))
      ensures forall i :: 0 <= i < nnx ==> AddFlipLR(pre, nnx, nns)[i][j] == 0.0
    {
      PartnerColumnsVanish(nnx, nns, sel, dx, fs, fmin, fmax, SingleSided(csMin, cpMin), true, trig, j);
      FlipSumsKeepZeroColumn(pre, nnx, nns, j);
    }
  }

  /** The same for the `hybrid_ninf_filter_design` mask, whose `+= flipud` only adds rows of the
      same column. */
  lemma HybridNinfMaskOutsideBand(nnx: nat, nns: nat, sel: ChannelSelection, dx: real, fs: real, csMin: real, cpMin: real, cpMax: real, csMax: real, fmin: real, fmax: real, trig: Trig)
    requires AxesDefined(nnx, nns, sel, dx, fs) && DoubleSided(csMin, cpMin, cpMax, csMax).NonZero() && trig.Valid()
    requires fs > 0.0 && fmin <= fmax && 0.0 <= fmin + fmax
    ensures forall i, j :: 0 <= i < nnx && 0 <= j < nns && FreqAxis(nns, fs)[j] > fmax + TaperWidth ==>
      HybridNinfMask(nnx, nns, sel, dx, fs, csMin, cpMin, cpMax, csMax, fmin, fmax, trig)[i][j] == 0.0
    ensures nns % 2 == 1 ==>
      forall i, j :: 0 <= i < nnx && 0 <= j < nns && FreqAxis(nns, fs)[j] < -(fmax + TaperWidth) ==>
        HybridNinfMask(nnx, nns, sel, dx, fs, csMin, cpMin, cpMax, csMax, fmin, fmax, trig)[i][j] == 0.0
  {
    var freq := FreqAxis(nns, fs);
    var rule := DoubleSided(csMin, cpMin, cpMax, csMax);
    var pre := DesignPreMirror(nnx, nns, sel, dx, fs, fmin, fmax, rule, true, trig);
    var g := AddFlipUD(AddFlipLR(pre, nnx, nns), nnx, nns);
    assert HybridNinfMask(nnx, nns, sel, dx, fs, csMin, cpMin, cpMax, csMax, fmin, fmax, trig) == g;
    forall j | 0 <= j < nns && (freq[j] > fmax + TaperWidth || (nns % 2 == 1 && freq[j] < -(fmax + TaperWidth)))
      ensures forall i :: 0 <= i < nnx ==> g[i][j] == 0.0
    {
      PartnerColumnsVanish(nnx, nns, sel, dx, fs, fmin, fmax, rule, true, trig, j);
      FlipSumsKeepZeroColumn(pre, nnx, nns, j);
    }
  }

  /** A frequency in the low gap (-(fmin - 4), fmin - 4) and a partner at or below its negation
      both lie below fmin - 4. */
  lemma PartnerBelowTaperBand(f: real, partner: real, fmin: real)
    requires -(fmin - TaperWidth) < f < fmin - TaperWidth && partner <= -f
    ensures f < fmin - TaperWidth && partner < fmin - TaperWidth
  {
  }

  /** Column j and its fliplr partner are both zero before mirroring when freq[j] lies in the low
      gap (-(fmin - 4), fmin - 4), whatever the parity of nns. */
  lemma LowGapColumnsVanish(nnx: nat, nns: nat, sel: ChannelSelection, dx: real, fs: real, fmin: real, fmax: real, rule: ColumnRule, ramps: bool, trig: Trig, j: nat)
    requires AxesDefined(nnx, nns, sel, dx, fs) && rule.NonZero() && trig.Valid() && j < nns
    requires fs > 0.0 && fmin <= fmax
    requires -(fmin - TaperWidth) < FreqAxis(nns, fs)[j] < fmin - TaperWidth
    ensures var pre := DesignPreMirror(nnx, nns, sel, dx, fs, fmin, fmax, rule, ramps, trig);
      forall i :: 0 <= i < nnx ==> pre[i][j] == 0.0 && pre[i][nns - 1 - j] == 0.0
  {
    var freq, knum := FreqAxis(nns, fs), WavenumberAxis(nnx, sel.step, dx);
    FlippedFrequency(nns, fs, j);
    assert freq[nns - 1 - j] <= -freq[j];
    PartnerBelowTaperBand(freq[j], freq[nns - 1 - j], fmin);
    ColumnsVanish(freq, knum, fmin, fmax, rule, ramps, trig, j, nns - 1 - j);
    assert DesignPreMirror(nnx, nns, sel, dx, fs, fmin, fmax, rule, ramps, trig)
      == PreMirror(freq, knum, fmin, fmax, rule, ramps, trig);
  }

  /** Every column of the `hybrid_filter_design` mask whose frequency lies strictly between
      -(fmin - 4) and fmin - 4 is zero, the zero-frequency column included when fmin > 4. */
  lemma HybridMaskLowGap(nnx: nat, nns: nat, sel: ChannelSelection, dx: real, fs: real, csMin: real, cpMin: real, fmin: real, fmax: real, trig: Trig)
    requires AxesDefined(nnx, nns, sel, dx, fs) && csMin != 0.0 && cpMin != 0.0 && trig.Valid()
    requires fs > 0.0 && fmin <= fmax
    ensures forall i, j :: 0 <= i < nnx && 0 <= j < nns && -(fmin - TaperWidth) < FreqAxis(nns, fs)[j] < fmin - TaperWidth ==>
      HybridMask(nnx, nns, sel, dx, fs, csMin, cpMin, fmin, fmax, trig)[i][j] == 0.0
  {
    var freq := FreqAxis(nns, fs);
    var pre := DesignPreMirror(nnx, nns, sel, dx, fs, fmin, fmax, SingleSided(csMin, cpMin), true, trig);
    assert HybridMask(nnx, nns, sel, dx, fs, csMin, cpMin, fmin, fmax, trig) == AddFlipLR(pre, nnx, nns);
    forall j | 0 <= j < nns && -(fmin - TaperWidth) < freq[j] < fmin - TaperWidth
      ensures forall i :: 0 <= i < nnx ==> AddFlipLR(pre, nnx, nns)[i][j] == 0.0
    {
      LowGapColumnsVanish(nnx, nns, sel, dx, fs, fmin, fmax, SingleSided(csMin, cpMin), true, trig, j);
      FlipSumsKeepZeroColumn(pre, nnx, nns, j);
    }
  }

  /** The same low gap for the `hybrid_ninf_filter_design` mask. */
  lemma HybridNinfMaskLowGap(nnx: nat, nns: nat, sel: ChannelSelection, dx: real, fs: real, csMin: real, cpMin: real, cpMax: real, csMax: real, fmin: real, fmax: real, trig: Trig)
    requires AxesDefined(nnx, nns, sel, dx, fs) && DoubleSided(csMin, cpMin, cpMax, csMax).NonZero() && trig.Valid()
    requires fs > 0.0 && fmin <= fmax
    ensures forall i, j :: 0 <= i < nnx && 0 <= j < nns && -(fmin - TaperWidth) < FreqAxis(nns, fs)[j] < fmin - TaperWidth ==>
      HybridNinfMask(nnx, nns, sel, dx, fs, csMin, cpMin, cpMax, csMax, fmin, fmax, trig)[i][j] == 0.0
  {
    var freq := FreqAxis(nns, fs);
    var rule := DoubleSided(csMin, cpMin, cpMax, csMax);
    var pre := DesignPreMirror(nnx, nns, sel, dx, fs, fmin, fmax, rule, true, trig);
    var g := AddFlipUD(AddFlipLR(pre, nnx, nns), nnx, nns);
    assert HybridNinfMask(nnx, nns, sel, dx, fs, csMin, cpMin, cpMax, csMax, fmin, fmax, trig) == g;
    forall j | 0 <= j < nns && -(fmin - TaperWidth) < freq[j] < fmin - TaperWidth
      ensures forall i :: 0 <= i < nnx ==> g[i][j] == 0.0
    {
      LowGapColumnsVanish(nnx, nns, sel, dx, fs, fmin, fmax, rule, true, trig, j);
      FlipSumsKeepZeroColumn(pre, nnx, nns, j);
    }
  }

  /** For even nns the mask leaks outside the band. With 8 samples at 100 Hz, a band of 15-25 Hz,
      one channel and the default speeds, column 1 sits at -37.5 Hz, beyond -(25 + 4), yet holds 1:
      fliplr adds column 6, at 25 Hz, instead of the -37.5 Hz partner 37.5 Hz. */
  lemma HybridMaskEvenLengthLeak(trig: Trig)
    requires trig.Valid()
    ensures FreqAxis(8, 100.0)[1] == -37.5 && FreqAxis(8, 100.0)[6] == 25.0
    ensures HybridMask(1, 8, ChannelSelection(0, 1, 1), 1.0, 100.0, 1400.0, 1450.0, 15.0, 25.0, trig)[0][1] == 1.0
  {
    var freq, knum := FreqAxis(8, 100.0), WavenumberAxis(1, 1, 1.0);
    var rule := SingleSided(1400.0, 1450.0);
    var pre := DesignPreMirror(1, 8, ChannelSelection(0, 1, 1), 1.0, 100.0, 15.0, 25.0, rule, true, trig);
    EightBinFrequencies();
    assert knum[0] == 0.0;
    PreMirrorPassband(freq, knum, 15.0, 25.0, rule, true, trig, 0, 6);
    PreMirrorOutsideTaperBand(freq, knum, 15.0, 25.0, rule, true, trig, 0, 1);
    assert HybridMask(1, 8, ChannelSelection(0, 1, 1), 1.0, 100.0, 1400.0, 1450.0, 15.0, 25.0, trig)
      == AddFlipLR(pre, 1, 8);
    assert AddFlipLR(pre, 1, 8)[0][1] == pre[0][1] + pre[0][6];
  }

  /** The 8-bin axis at 100 Hz used by HybridMaskEvenLengthLeak; column 6 lies in the loop's
      range for the band [15, 25]. */
  lemma EightBinFrequencies()
    ensures FreqAxis(8, 100.0)[1] == -37.5 && FreqAxis(8, 100.0)[6] == 25.0
    ensures var freq := FreqAxis(8, 100.0);
      FirstAtLeast(freq, 15.0 - TaperWidth) <= 6 < FirstAtLeast(freq, 25.0 + TaperWidth)
  {
    var freq := FreqAxis(8, 100.0);
    assert freq[1] == -37.5 && freq[6] == 25.0 && freq[7] == 37.5;
    DesignLoopColumns(8, 100.0, 15.0, 25.0, 6);
  }

  /** An entry of a visited column: H at its frequency times the column gain. It is the same value
      as `Attenuate(h, ColumnGain(...))`; the name exists so that the loop invariant of
      ShapeColumns mentions one term per entry and the solver does not unfold the gain's match
      inside the invariant. */
  ghost function Shaped(h: real, k: real, f: real, rule: ColumnRule, ramps: bool, trig: Trig): real
    requires rule.NonZero() && trig.Valid()
  {
    Attenuate(h, ColumnGain(k, f, rule, ramps, trig))
  }

  /** The matrix before mirroring, entry by entry, in terms of H: PreMirrorAt for every entry at
      once, written with Shaped so that it matches the invariant ShapeColumns ends its loop with. */
  lemma PreMirrorShaped(freq: seq<real>, knum: seq<real>, fmin: real, fmax: real, rule: ColumnRule, ramps: bool, trig: Trig)
    requires |freq| >= 1 && rule.NonZero() && trig.Valid()
    ensures var h := BandpassResponse(freq, fmin, fmax, ramps, trig);
      var lo, hi := FirstAtLeast(freq, fmin - TaperWidth), FirstAtLeast(freq, fmax + TaperWidth);
      forall i, j :: 0 <= i < |knum| && 0 <= j < |freq| ==>
        PreMirror(freq, knum, fmin, fmax, rule, ramps, trig)[i][j]
        == if lo <= j < hi then Shaped(h[j], knum[i], freq[j], rule, ramps, trig) else h[j]
  {
    forall i, j | 0 <= i < |knum| && 0 <= j < |freq| {
      PreMirrorAt(freq, knum, fmin, fmax, rule, ramps, trig, i, j);
    }
  }

  /** `m[:, c] *= col`: column c multiplied entrywise by `col`, every other column unchanged. */
  method ScaleColumn(m: array2<real>, c: nat, col: seq<real>)
    requires c < m.Length1 && |col| == m.Length0
    modifies m
    ensures forall i, j :: 0 <= i < m.Length0 && 0 <= j < m.Length1 ==>
      m[i, j] == if j == c then Attenuate(old(m[i, j]), col[i]) else old(m[i, j])
  {
    forall i | 0 <= i < m.Length0 {
      m[i, c] := Attenuate(m[i, c], col[i]);
    }
  }

  /** Builds the matrix before mirroring: `np.tile(H, (len(knum), 1))`, then the column loop
      `for i in range(fmin_idx, fmax_idx): fk_filter_matrix[:, i] *= filter_col`. */
  method ShapeColumns(freq: seq<real>, knum: seq<real>, fmin: real, fmax: real, rule: ColumnRule, ramps: bool, trig: Trig)
    returns (m: array2<real>)
    requires |freq| >= 1 && rule.NonZero() && trig.Valid()
    ensures fresh(m) && m.Length0 == |knum| && m.Length1 == |freq|
    ensures Represents(m, PreMirror(freq, knum, fmin, fmax, rule, ramps, trig))
  {
    var h := BandpassResponse(freq, fmin, fmax, ramps, trig);
    m := TileRows(h, |knum|);
    var lo := FirstAtLeast(freq, fmin - TaperWidth);
    var hi := FirstAtLeast(freq, fmax + TaperWidth);
    var c := lo;
    while c < hi
      invariant lo <= c && (c == lo || c <= hi)
      invariant forall i, j :: 0 <= i < |knum| && 0 <= j < |freq| ==>
        m[i, j] == if lo <= j < c then Shaped(h[j], knum[i], freq[j], rule, ramps, trig) else h[j]
    {
      ScaleColumn(m, c, Column(knum, freq[c], rule, ramps, trig));
      c := c + 1;
    }
    PreMirrorShaped(freq, knum, fmin, fmax, rule, ramps, trig);
  }

  /** `hybrid_filter_design`, as a dense matrix. */
  method HybridFilterDesign(nnx: nat, nns: nat, sel: ChannelSelection, dx: real, fs: real, csMin: real, cpMin: real, fmin: real, fmax: real, trig: Trig)
    returns (m: array2<real>)
    requires AxesDefined(nnx, nns, sel, dx, fs) && csMin != 0.0 && cpMin != 0.0 && trig.Valid()
    ensures fresh(m) && m.Length0 == nnx && m.Length1 == nns
    ensures Represents(m, HybridMask(nnx, nns, sel, dx, fs, csMin, cpMin, fmin, fmax, trig))
  {
    var freq := FreqAxis(nns, fs);
    var knum := WavenumberAxis(nnx, sel.step, dx);
    m := ShapeColumns(freq, knum, fmin, fmax, SingleSided(csMin, cpMin), true, trig);
    AddFlipLRInPlace(m, PreMirror(freq, knum, fmin, fmax, SingleSided(csMin, cpMin), true, trig));
  }

  /** `hybrid_ninf_filter_design`, as a dense matrix. */
  method HybridNinfFilterDesign(nnx: nat, nns: nat, sel: ChannelSelection, dx: real, fs: real, csMin: real, cpMin: real, cpMax: real, csMax: real, fmin: real, fmax: real, trig: Trig)
    returns (m: array2<real>)
    requires AxesDefined(nnx, nns, sel, dx, fs) && DoubleSided(csMin, cpMin, cpMax, csMax).NonZero() && trig.Valid()
    ensures fresh(m) && m.Length0 == nnx && m.Length1 == nns
    ensures Represents(m, HybridNinfMask(nnx, nns, sel, dx, fs, csMin, cpMin, cpMax, csMax, fmin, fmax, trig))
  {
    var freq := FreqAxis(nns, fs);
    var knum := WavenumberAxis(nnx, sel.step, dx);
    var rule := DoubleSided(csMin, cpMin, cpMax, csMax);
    m := ShapeColumns(freq, knum, fmin, fmax, rule, true, trig);
    ghost var pre := PreMirror(freq, knum, fmin, fmax, rule, true, trig);
    AddFlipLRInPlace(m, pre);
    AddFlipUDInPlace(m, AddFlipLR(pre, nnx, nns));
  }

  /** `hybrid_gs_filter_design`, as a dense matrix. */
  method HybridGsFilterDesign(nnx: nat, nns: nat, sel: ChannelSelection, dx: real, fs: real, csMin: real, cpMin: real, fmin: real, fmax: real, trig: Trig, blur: Grid -> Grid)
    returns (m: array2<real>)
    requires AxesDefined(nnx, nns, sel, dx, fs) && csMin != 0.0 && cpMin != 0.0 && trig.Valid()
    requires PreservesShape(blur, nnx, nns)
    ensures fresh(m)
    ensures Represents(m, HybridGsMask(nnx, nns, sel, dx, fs, csMin, cpMin, fmin, fmax, trig, blur))
  {
    var freq := FreqAxis(nns, fs);
    var knum := WavenumberAxis(nnx, sel.step, dx);
    var sharp := ShapeColumns(freq, knum, fmin, fmax, SingleSided(csMin, cpMin), false, trig);
    AddFlipLRInPlace(sharp, PreMirror(freq, knum, fmin, fmax, SingleSided(csMin, cpMin), false, trig));
    m := GaussianFilter(sharp, AddFlipLR(PreMirror(freq, knum, fmin, fmax, SingleSided(csMin, cpMin), false, trig), nnx, nns), blur);
  }

  /** `hybrid_ninf_gs_filter_design`, as a dense matrix. */
  method HybridNinfGsFilterDesign(nnx: nat, nns: nat, sel: ChannelSelection, dx: real, fs: real, csMin: real, cpMin: real, cpMax: real, csMax: real, fmin: real, fmax: real, trig: Trig, blur: Grid -> Grid)
    returns (m: array2<real>)
    requires AxesDefined(nnx, nns, sel, dx, fs) && DoubleSided(csMin, cpMin, cpMax, csMax).NonZero() && trig.Valid()
    requires PreservesShape(blur, nnx, nns)
    ensures fresh(m) && m.Length0 == nnx && m.Length1 == nns
    ensures Represents(m, HybridNinfGsMask(nnx, nns, sel, dx, fs, csMin, cpMin, cpMax, csMax, fmin, fmax, trig, blur))
  {
    var freq := FreqAxis(nns, fs);
    var knum := WavenumberAxis(nnx, sel.step, dx);
    var rule := DoubleSided(csMin, cpMin, cpMax, csMax);
    var sharp := ShapeColumns(freq, knum, fmin, fmax, rule, false, trig);
    m := GaussianFilter(sharp, PreMirror(freq, knum, fmin, fmax, rule, false, trig), blur);
    ghost var blurred := blur(PreMirror(freq, knum, fmin, fmax, rule, false, trig));
    AddFlipLRInPlace(m, blurred);
    AddFlipUDInPlace(m, AddFlipLR(blurred, nnx, nns));
  }
}

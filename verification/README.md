# DAS4Whales f-k masks and data loading, in Dafny

DAS4Whales processes Distributed Acoustic Sensing (DAS) recordings from fibre-optic cables so that
whale calls can be detected. A recording is a strain matrix: one row per channel (a position along
the cable) and one column per time sample. This project models the part of the package that
builds the frequency-wavenumber (f-k) masks and tapers the traces, and proves properties of that
model.

- **Axes** (`FftAxes`). Every designer builds its frequency and wavenumber axes as
  `fftshift(fftfreq(n, d))`. The model writes both numpy functions out as numpy documents them. It
  proves the closed form of bin j, (j - n div 2)/(n d). It also proves that the axis increases
  and where the zero and the Nyquist bins lie. One lemma states exactly where a left-right flip
  of the axis lands.
- **Rectangular speed mask** (`FkFilter`). `fk_filter_design` fills a preallocated matrix row by
  row. Rows whose wavenumber has |k| below 0.005 are zeroed. Every other entry is a trapezoidal gain
  in the apparent speed |f/k|.
- **Hybrid designers** (`HybridFilter`). There are four of them: `hybrid_filter_design`,
  `hybrid_ninf_filter_design` and their Gaussian-smoothed `_gs` variants. Each one:
  - builds a bandpass H over frequency;
  - tiles H over the wavenumber axis;
  - multiplies each column between the two `argmax` indices by a gain in wavenumber;
  - adds the left-right mirror (the two `ninf` designers also add the up-down mirror).

  The two plain designers give H 4 Hz cosine tapers on both band edges and give the column gains
  sine and cosine ramps between the speed thresholds. The `_gs` variants set only the flat
  passband of H, use plain step gains with no ramps, and blur the matrix with a Gaussian filter.
- **Grids** (`Grids`). These are the matrix operations the designers share: `np.tile`, the in-place
  `+= fliplr` and `+= flipud`, and the blur. Arrays (`array2<real>`) are tied to their
  mathematical contents (`seq<seq<real>>`) by `Represents`.
- **Tapering** (`Tapering`). `taper_data` multiplies every channel in place by one Tukey
  window.
- **Loading** (`DataHandle`). This module covers:
  - the interrogator check of `get_acquisition_parameters`;
  - `raw2strain`, which demeans each channel and scales it;
  - the channel slice `raw[start:stop:step]` of `load_das_data`;
  - the time and distance axes `tx` and `dist` of `load_das_data`.

Some functions the code calls are not part of this model, so they enter as parameters:
- `sin(pi/2 t)` and `cos(pi/2 t)` (the `Trig` record, with the range facts used in the proofs);
- the Tukey window;
- `gaussian_filter`;
- the OptaSense metadata reader.

Reals are exact. Python slices and numpy's masked assignments are modelled with their numpy
meaning: a later masked assignment overrides an earlier one, and `argmax` of an all-false mask
gives 0.

## Model

| member | source | states |
|---|---|---|
| FftAxes.FftShift | src/das4whales/dsp.py:100-101 | `fftshift` keeps the length of its input |
| FftAxes.FftShiftIsRoll | src/das4whales/dsp.py:100-101 | `fftshift` is `np.roll` by n div 2: entry i lands at (i + n div 2) mod n, and the result is a rearrangement (same multiset) of the input |
| FftAxes.FftFreq | src/das4whales/dsp.py:100-101 | `fftfreq(n, d)` has n entries |
| FftAxes.ShiftedBin | src/das4whales/dsp.py:100-101 | after the shift, index j of `fftshift(fftfreq(n, d))` holds (j - n div 2)/(n d): the roll puts the negative bins before the positive ones |
| FftAxes.ShiftedFreqs | src/das4whales/dsp.py:100-101 | the shifted axis has length n, entry j equals bin (j - n div 2)/(n d), and index n div 2 holds frequency 0 |
| FftAxes.ShiftedFreqsIncreasing | src/das4whales/dsp.py:100-101 | for a positive spacing the shifted axis is strictly increasing |
| FftAxes.ShiftedFreqsMirror | src/das4whales/dsp.py:100-101 | the entry at 2 (n div 2) - j is the negation of the entry at j |
| FftAxes.FlippedIndexBin | src/das4whales/dsp.py:235 | the flip j -> n-1-j sends bin f to -f for odd n, but to -f - 1/(n d) for even n |
| FftAxes.NyquistAtIndexZero | src/das4whales/dsp.py:100-101 | for even n the first entry is -1/(2d): -fs/2 on the frequency axis |
| FftAxes.FreqAxis | src/das4whales/dsp.py:100 | the frequency axis has nns entries and entry j is (j - nns div 2) fs / nns |
| FftAxes.WavenumberAxis | src/das4whales/dsp.py:101 | the wavenumber axis uses spacing step*dx and has nnx entries |
| FkFilter.SpeedGain | src/das4whales/dsp.py:116-129 | the gain lies in [0,1]; it is 0 below cs_min and at or above cs_max; it is 1 strictly between cp_min and cp_max for ordered speeds; a value strictly between 0 and 1 occurs only in a transition band |
| FkFilter.FkRow | src/das4whales/dsp.py:111-132 | if \|k\| < 0.005 the row is all zero; otherwise entry j is the speed gain at \|f_j / k\|; every entry lies in [0,1] |
| FkFilter.FkGrid | src/das4whales/dsp.py:108-132 | the mask has one row per wavenumber and one column per frequency, and every entry lies in [0,1] |
| FkFilter.FkMask | src/das4whales/dsp.py:97-132 | the mask for an nnx-by-nns trace is nnx by nns |
| FkFilter.FkFilterDesign | src/das4whales/dsp.py:108-132 | the row loop fills a fresh nnx-by-nns array with exactly the mask, and every entry lies in [0,1] |
| Grids.SetRow | src/das4whales/dsp.py:113-132 | the row write `m[i, :] = row` replaces row i and leaves every other row unchanged |
| FkFilter.FkRowMagnitudes | src/das4whales/dsp.py:117 | an entry depends only on \|f\| and \|k\| |
| FkFilter.FkGridSymmetric | src/das4whales/dsp.py:111-132 | on antisymmetric axes the mask is unchanged under f -> -f, under k -> -k, and under both |
| FkFilter.FreqAxisAntisymmetric | src/das4whales/dsp.py:100 | the frequency axis is antisymmetric about index nns div 2 |
| FkFilter.WavenumberAxisAntisymmetric | src/das4whales/dsp.py:101 | the wavenumber axis is antisymmetric about index nnx div 2 |
| FkFilter.FkMaskSymmetric | src/das4whales/dsp.py:100-132 | the designed mask is symmetric under the opposite-bin map in frequency, in wavenumber, and in both |
| FkFilter.FkMaskRegions | src/das4whales/dsp.py:113-129 | for one entry of the designed mask: it is 0 when \|k\| < 0.005; otherwise it is 0 below cs_min and at or above cs_max, 1 strictly between cp_min and cp_max, and strictly between 0 and 1 only in a transition band |
| HybridFilter.FrequencyTaper | src/das4whales/dsp.py:185-202 | H lies in [0,1] and is 1 on [fmin, fmax]; it is 0 more than 4 Hz outside the band; without ramps (the `_gs` variants, src/das4whales/dsp.py:462) H is 1 exactly on the band and 0 elsewhere; a value strictly between 0 and 1 occurs only in a taper |
| HybridFilter.BandpassResponse | src/das4whales/dsp.py:185-202 | H has one entry per frequency |
| HybridFilter.FirstFrom | src/das4whales/dsp.py:192-193 | returns the first index from `from` on whose entry is at least x, with every earlier entry below x, or \|s\| when there is none |
| HybridFilter.FirstAtLeast | src/das4whales/dsp.py:192-193 | `argmax(freq >= x)` is the first index whose entry is at least x, and 0 when no entry is |
| HybridFilter.SingleSidedGain | src/das4whales/dsp.py:213-229 | the gain lies in [0,1]; it is 1 for -kp < k < kp; it is 0 outside [-ks, ks], and everywhere when the thresholds are not positive; without ramps it is 1 exactly on the passband and 0 elsewhere; a fractional gain occurs only with ramps and kp <= \|k\| <= ks |
| HybridFilter.DoubleSidedGain | src/das4whales/dsp.py:344-363 | the gain lies in [0,1]; it is 1 for -kp_min < k < -kp_max; it is 0 outside [-ks_min, -ks_max], and everywhere when the thresholds are not positive; without ramps it is 1 exactly on the passband; a fractional gain occurs only with ramps inside a transition band |
| HybridFilter.ColumnGain | src/das4whales/dsp.py:211-229 | the gain of a column entry lies in [0,1], and is 0 or 1 without ramps |
| HybridFilter.ColumnGainNonPositiveFrequency | src/das4whales/dsp.py:214-229 | with ordered speeds, every column gain at a frequency <= 0 is 0 |
| HybridFilter.ColumnGainRegions | src/das4whales/dsp.py:209-232 | at f > 0 (the two-sided loop, dsp.py lines 340-366, has the same shape): the one-sided gain is 1 for \|k\| < f/cp_min and 0 for \|k\| > f/cs_min; the two-sided gain is 1 for -f/cp_min < k < -f/cp_max and 0 outside [-f/cs_min, -f/cs_max] |
| HybridFilter.Column | src/das4whales/dsp.py:211-229 | a column has one gain per wavenumber |
| HybridFilter.PreMirror | src/das4whales/dsp.py:204-232 | the matrix before mirroring is \|knum\| by \|freq\| |
| HybridFilter.PreMirrorBounds | src/das4whales/dsp.py:204-232 | every entry before mirroring lies in [0,1], and is 0 or 1 without ramps |
| HybridFilter.PreMirrorOutsideAndZeroColumns | src/das4whales/dsp.py:205-232 | outside the argmax loop range a column equals H; inside it, a column at frequency 0 is all zero |
| HybridFilter.PreMirrorPassband | src/das4whales/dsp.py:229 | inside the loop range and the speed passband, an entry keeps its value H(f) |
| HybridFilter.PreMirrorStopRegion | src/das4whales/dsp.py:209-232 | (and the two-sided loop, dsp.py lines 340-366) inside the loop range at f > 0 with ordered speeds, an entry in the speed stopband is 0 |
| HybridFilter.LoopColumnsInBand | src/das4whales/dsp.py:192-193 | on a sorted axis that reaches fmax + 4, column c is visited by `range(fmin_idx, fmax_idx)` iff fmin - 4 <= freq[c] < fmax + 4 |
| HybridFilter.DesignLoopColumns | src/das4whales/dsp.py:181-209 | the same holds on the designers' own frequency axis for fs > 0 |
| HybridFilter.NoColumnsBelowTopBand | src/das4whales/dsp.py:193-209 | when no frequency reaches fmax + 4, `argmax` is 0 for the upper bound, the loop is empty and the matrix is H tiled |
| HybridFilter.PreMirrorVanishesAtNonPositiveFrequency | src/das4whales/dsp.py:185-232 | for any nonzero speeds and 4 < fmin <= fmax, every entry at a frequency <= 0 is 0 before mirroring |
| HybridFilter.DesignPreMirror | src/das4whales/dsp.py:178-232 | for an nnx-by-nns trace, the matrix before mirroring is nnx by nns |
| HybridFilter.HybridMask | src/das4whales/dsp.py:181-235 | the `hybrid_filter_design` mask is left-right symmetric with entries in [0,2] |
| HybridFilter.HybridNinfMask | src/das4whales/dsp.py:309-370 | the `hybrid_ninf_filter_design` mask is symmetric left-right and up-down with entries in [0,4] |
| Grids.FlipSumsKeepZeroColumn | src/das4whales/dsp.py:369-370 | a column that is 0 together with its left-right partner stays 0 after `+= fliplr` and then `+= flipud` |
| HybridFilter.PreMirrorOutsideTaperBand | src/das4whales/dsp.py:185-232 | before mirroring, an entry whose frequency lies below fmin - 4 or above fmax + 4 is 0 |
| HybridFilter.FlippedFrequency | src/das4whales/dsp.py:181-235 | the column `+= fliplr` adds to column j sits at -freq[j] for odd nns and strictly below -freq[j] for even nns |
| HybridFilter.ColumnsVanish | src/das4whales/dsp.py:185-232 | two columns whose frequencies both lie outside [fmin - 4, fmax + 4] are 0 in every row before mirroring |
| HybridFilter.PartnerColumnsVanish | src/das4whales/dsp.py:181-235 | a column above fmax + 4 (or, for odd nns, below -(fmax + 4)) and its fliplr partner are both 0 before mirroring |
| HybridFilter.HybridMaskOutsideBand | src/das4whales/dsp.py:181-235 | every column of the final `hybrid_filter_design` mask above fmax + 4 is 0; for odd nns so is every column below -(fmax + 4) |
| HybridFilter.HybridNinfMaskOutsideBand | src/das4whales/dsp.py:312-370 | the same for the final `hybrid_ninf_filter_design` mask |
| HybridFilter.HybridMaskLowGap | src/das4whales/dsp.py:181-235 | every column of the final `hybrid_filter_design` mask whose frequency lies strictly between -(fmin - 4) and fmin - 4 is 0, for either parity of nns (the zero-frequency column when fmin > 4) |
| HybridFilter.HybridNinfMaskLowGap | src/das4whales/dsp.py:312-370 | the same low gap is 0 in the final `hybrid_ninf_filter_design` mask |
| HybridFilter.LowGapColumnsVanish | src/das4whales/dsp.py:181-235 | a column in the low gap and its fliplr partner are both 0 before mirroring |
| HybridFilter.HybridMaskEvenLengthLeak | src/das4whales/dsp.py:181-235 | for nns = 8, fs = 100, band [15, 25], the final mask is 1 at -37.5 Hz, below -(fmax + 4), because fliplr copies the 25 Hz column there |
| HybridFilter.EightBinFrequencies | src/das4whales/dsp.py:181 | the 8-bin axis at 100 Hz holds -37.5 at index 1 and 25 at index 6, and index 6 lies in the column loop's range for [15, 25] |
| HybridFilter.HybridGsMask | src/das4whales/dsp.py:444-494 | the `hybrid_gs_filter_design` mask (left-right mirror, then blur) is nnx by nns |
| HybridFilter.HybridNinfGsMask | src/das4whales/dsp.py:568-614 | the `hybrid_ninf_gs_filter_design` mask blurs first and mirrors after, so it is symmetric both ways whatever the blur does |
| HybridFilter.SmoothedMaskBounds | src/das4whales/dsp.py:493-494 | if the blur keeps [0,1] and [0,2], the one-sided `_gs` mask lies in [0,2] and the two-sided one in [0,4] |
| HybridFilter.ShapeColumns | src/das4whales/dsp.py:204-232 | the tile-then-multiply loop over columns leaves a fresh array holding exactly the matrix before mirroring |
| HybridFilter.ScaleColumn | src/das4whales/dsp.py:232 | `m[:, i] *= filter_col` multiplies column i entrywise by the gains and leaves every other column unchanged |
| HybridFilter.HybridFilterDesign | src/das4whales/dsp.py:178-235 | returns a fresh nnx-by-nns array holding the hybrid mask |
| HybridFilter.HybridNinfFilterDesign | src/das4whales/dsp.py:309-370 | returns a fresh nnx-by-nns array holding the two-sided mask mirrored both ways |
| HybridFilter.HybridGsFilterDesign | src/das4whales/dsp.py:444-494 | returns a fresh array holding the blurred, left-right mirrored mask |
| HybridFilter.HybridNinfGsFilterDesign | src/das4whales/dsp.py:568-614 | returns a fresh nnx-by-nns array holding the blurred, then doubly mirrored mask |
| Grids.Tile | src/das4whales/dsp.py:205 | `np.tile(H, (rows, 1))` is rows by \|H\| |
| Grids.AddFlipLR | src/das4whales/dsp.py:235 | `M + fliplr(M)` keeps the shape and is left-right symmetric |
| Grids.AddFlipUD | src/das4whales/dsp.py:370 | `M + flipud(M)` keeps the shape, is up-down symmetric and keeps left-right symmetry |
| Grids.AddFlipBounds | src/das4whales/dsp.py:369-370 | adding a mirror image to a matrix in [0, hi] gives one in [0, 2 hi] |
| Grids.TileRows | src/das4whales/dsp.py:205 | the tiled array is fresh, rows by \|H\|, and every row is H |
| Grids.AddFlipLRInPlace | src/das4whales/dsp.py:235 | the in-place `+= fliplr` leaves M + fliplr(M) of the old contents |
| Grids.AddFlipUDInPlace | src/das4whales/dsp.py:370 | the in-place `+= flipud` leaves M + flipud(M) of the old contents |
| Grids.GaussianFilter | src/das4whales/dsp.py:494 | the blur returns a fresh array of the same shape holding the blur of the contents |
| Tapering.Windowed | src/das4whales/dsp.py:665-667 | the tapered matrix keeps its shape |
| Tapering.WindowedKeepsBound | src/das4whales/dsp.py:667 | a window with weights in [0,1] never amplifies: a trace within [-b, b] stays within it |
| Tapering.WindowedColumns | src/das4whales/dsp.py:667 | a sample with weight 0 is silenced in every channel, and one with weight 1 is kept |
| Tapering.TaperData | src/das4whales/dsp.py:665-668 | the caller's own array is returned, with every row multiplied entrywise by the Tukey window of its length (alpha 0.03) |
| DataHandle.Name | das4whales/data_handle.py:38 | every interrogator's name is in the known list |
| DataHandle.ParseInterrogator | das4whales/data_handle.py:38-54 | a name parses iff it is in the list `optasense, silixa, mars, alcatel`; parsing round-trips with Name; any other name gives the "interrogator name incorrect" error |
| DataHandle.ParseName | das4whales/data_handle.py:38-54 | parsing an interrogator's name gives that interrogator back |
| DataHandle.GetAcquisitionParameters | das4whales/data_handle.py:38-56 | an unknown name is an error; `optasense` gives whatever the OptaSense reader gives; the other three names fail because their readers are undefined |
| DataHandle.ShiftScale | das4whales/data_handle.py:119-120 | a demeaned and scaled channel has as many samples as before |
| DataHandle.SumShiftScale | das4whales/data_handle.py:119-120 | the sum of (x - c) a over a channel is (sum - n c) a |
| DataHandle.Strain | das4whales/data_handle.py:119-120 | the strain matrix keeps the shape of the raw one |
| DataHandle.StrainRowsSumToZero | das4whales/data_handle.py:119-120 | after demeaning and scaling, every channel sums to zero |
| DataHandle.Mean | das4whales/data_handle.py:119 | the mean of a nonempty row times its length is the row's sum |
| DataHandle.SubtractRowMeans | das4whales/data_handle.py:119 | each entry of row i is lowered by that row's mean, in place |
| DataHandle.ScaleAll | das4whales/data_handle.py:120 | each entry is multiplied by the scale factor, in place |
| DataHandle.Raw2Strain | das4whales/data_handle.py:101-121 | works in place and returns the caller's array; entry (i, j) becomes (x_ij - mean of row i) * scale_factor |
| DataHandle.ClipIndex | das4whales/data_handle.py:147 | a slice bound is clipped into [0, n] as Python does: left alone inside, a negative bound counts from the end, anything further out goes to 0 or n |
| DataHandle.Range | das4whales/data_handle.py:147 | `range(start, stop, step)` is empty exactly when stop <= start, starts at start otherwise, and every element lies in [start, stop) |
| DataHandle.RangeElements | das4whales/data_handle.py:147 | position i of `range(start, stop, step)` holds start + i step |
| DataHandle.RangeCount | das4whales/data_handle.py:147 | `range(start, stop, step)` has ceil((stop - start)/step) elements when start < stop |
| DataHandle.RangeFacts | das4whales/data_handle.py:147 | `range(start, stop, step)` holds start + i step at position i, every element lies in [start, stop), and the count is ceil((stop - start)/step) |
| DataHandle.SliceIndices | das4whales/data_handle.py:147 | the slice is an error iff step < 1; otherwise it reads only existing channels |
| DataHandle.SliceShape | das4whales/data_handle.py:147 | for any start and stop, with lo and hi their clipped values: row i is raw channel lo + i step, and the row count is ceil((hi - lo)/step), or 0 when hi <= lo |
| DataHandle.SelectRows | das4whales/data_handle.py:147 | the selected matrix has one row per selected channel and keeps the sample count |
| DataHandle.TimeAxis | das4whales/data_handle.py:161 | `tx` has one entry per sample |
| DataHandle.TimeAxisSpacing | das4whales/data_handle.py:161 | `tx` starts at 0, is strictly increasing, and consecutive entries are 1/fs apart |
| DataHandle.DistanceAxis | das4whales/data_handle.py:162 | `dist` has one entry per selected channel |
| DataHandle.DistanceAxisSpacing | das4whales/data_handle.py:162 | consecutive entries of `dist` are step * dx apart |
| DataHandle.DistanceAxisMatchesChannels | das4whales/data_handle.py:147-162 | for 0 <= start, `dist[i]` is the position of the raw channel that row i was read from |
| DataHandle.LoadDasData | das4whales/data_handle.py:140-166 | a missing file gives "file not found"; a step below 1 is an error; on success the trace is rows by ns, with a time axis of ns entries and a distance axis of one entry per row |
| DataHandle.LoadedRowsSumToZero | das4whales/data_handle.py:147-148 | every channel of a loaded trace sums to zero |

## Left out

- Applying a mask is not modelled: the FFT, `fk_filter_filt`, `fk_filter_sparsefilt` and the other wrappers in src/das4whales/dsp.py. Floating-point FFTs are outside an exact-real model.
- Plotting and display are not modelled: the `display_filter` branches, the commented-out matplotlib code and `np.seterr`. They do not affect the mask.
- DataHandle.GetAcquisitionParameters: Python's default argument `interrogator='optasense'` (das4whales/data_handle.py:14) is not a default here, because Dafny functions have no default arguments. Callers pass the name explicitly, and DataHandle.DefaultInterrogator holds "optasense", the value the default supplies.
- The blur is not modelled beyond its shape. `ndimage.gaussian_filter(..., 20)` is a parameter that keeps the shape.
- The conversion of the mask to a sparse COO matrix is modelled as the identity. It changes the storage, not the values.
- The Tukey window is a parameter that gives a window of the requested length. Its cosine formula is not modelled.
- `sin` and `cos` are parameters, together with the range facts the proofs need. Their values are not computed.
- Floating-point NaN and infinity are not modelled.
  - `fk_filter_design` requires cs_min != cp_min and cp_max != cs_max; otherwise its ramps divide 0 by 0.
  - The hybrid designers require nonzero speeds.
  - The designers require nonzero fs, dx and channel step.
- The symmetrisation `M += fliplr(M)` mirrors indices, not frequencies. For even nns, column j is added to the column one bin past -f (FftAxes.FlippedIndexBin). The model keeps that behaviour as written. The exact f -> -f symmetry is proved only for the rectangular mask (FkFilter.FkMaskSymmetric).
- HybridFilter.HybridMask and HybridFilter.HybridNinfMask: the zero columns below -(fmax + 4) are proved only for odd nns (HybridFilter.HybridMaskOutsideBand, HybridFilter.HybridNinfMaskOutsideBand). For even nns the fliplr partner is one bin short of the opposite frequency, so a column just below -(fmax + 4) can receive a passband column. HybridFilter.HybridMaskEvenLengthLeak exhibits one such column. The model keeps the code's behaviour.
- File access and HDF5 are parameters: whether the file exists, the raw matrix, and the OptaSense metadata reader `get_metadata_optasense`. The reader's scale-factor formula (das4whales/data_handle.py:92) is not modelled.
- `get_metadata_silixa`, `get_metadata_mars` and `get_metadata_alcatel` are not part of this model. The module calls them but does not define them, so those names give a ReaderNotDefined error.
- `file_begin_time_utc` (das4whales/data_handle.py:151-154) is not modelled. It is a timestamp conversion.
- `load_das_data_dask` and the download helper `dl_file` are not modelled. They are I/O.
- DataHandle.DistanceAxisMatchesChannels is stated for 0 <= start only. With a negative start, h5py applies Python's slice rules, so the rows are counted from the end (DataHandle.SliceShape covers this). But `dist` keeps the raw negative start, so the two disagree. The model computes that case but states no property about it.
- h5py's slicing is modelled as Python's slice clipping plus its refusal of steps below 1. Its other checks are not modelled.
- DataHandle.Raw2Strain: the mean of a channel with no samples is taken as 0. numpy gives NaN there, and a channel with no samples has no entries to change.
- The float64 conversion `astype(np.float64)` is not modelled; values are exact reals.

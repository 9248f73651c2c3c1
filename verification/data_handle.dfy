/** Data conditioning in the ingestion layer: the interrogator check, the conversion of raw
    strain rate to strain, the channel selection and the time and distance axes of a loaded file. */
module DataHandle {
  import opened Wrappers
  import opened Acquisition
  import opened Grids

  /** The interrogators the package knows. */
  datatype Interrogator = OptaSense | Silixa | Mars | Alcatel

  /** What the ingestion layer raises. */
  datatype LoadError =
    | InterrogatorNameIncorrect
    | ReaderNotDefined(name: string)
    | FileNotFound
    | StepBelowOne(step: int)

  /** The accepted interrogator names, in the order `get_acquisition_parameters` lists them. */
  const InterrogatorList: seq<string> := ["optasense", "silixa", "mars", "alcatel"]

  /** The interrogator used when none is named. */
  const DefaultInterrogator: string := "optasense"

  function Name(i: Interrogator): (name: string)
    ensures name in InterrogatorList
  {
    match i
    case OptaSense => "optasense"
    case Silixa => "silixa"
    case Mars => "mars"
    case Alcatel => "alcatel"
  }

  /** The name check: a name is accepted exactly when it is in the list, and then it names the
      interrogator returned. */
  function ParseInterrogator(name: string): (r: Result<Interrogator, LoadError>)
    ensures r.Ok? <==> name in InterrogatorList
    ensures r.Ok? ==> Name(r.value) == name
    ensures r.Err? ==> r.error == InterrogatorNameIncorrect
  {
    if name == "optasense" then Ok(OptaSense)
    else if name == "silixa" then Ok(Silixa)
    else if name == "mars" then Ok(Mars)
    else if name == "alcatel" then Ok(Alcatel)
    else Err(InterrogatorNameIncorrect)
  }

  /** Every interrogator's name parses back to it. */
  lemma ParseName(i: Interrogator)
    ensures ParseInterrogator(Name(i)) == Ok(i)
  {
  }

  /** `get_acquisition_parameters`: rejects an unknown name, reads the OptaSense metadata with the
      HDF5 reader given as a parameter, and fails for the other three names, whose readers the
      module calls but does not define. */
  function GetAcquisitionParameters(filepath: string, interrogator: string,
                                    readOptaSense: string -> Result<Metadata, LoadError>): (r: Result<Metadata, LoadError>)
    ensures interrogator !in InterrogatorList ==> r == Err(InterrogatorNameIncorrect)
    ensures interrogator == DefaultInterrogator ==> r == readOptaSense(filepath)
    ensures interrogator in InterrogatorList && interrogator != DefaultInterrogator ==>
      r == Err(ReaderNotDefined(interrogator))
  {
    match ParseInterrogator(interrogator)
    case Err(e) => Err(e)
    case Ok(OptaSense) => readOptaSense(filepath)
    case Ok(other) => Err(ReaderNotDefined(Name(other)))
  }

  // ---------------------------------------------------------------------------------------
  // raw2strain

  function Sum(s: seq<real>): real {
    if |s| == 0 then 0.0 else s[0] + Sum(s[1..])
  }

  /** `np.mean` of a row. An empty row has no entries to shift, so its mean is never used. */
  function Mean(s: seq<real>): (m: real)
    ensures |s| > 0 ==> m * |s| as real == Sum(s)
    ensures |s| == 0 ==> m == 0.0
  {
    if |s| == 0 then 0.0 else Sum(s) / |s| as real
  }

  /** One sample converted: its channel mean removed, then scaled (the per-sample form the
      array code and the lemmas about Strain share). */
  function ToStrain(x: real, mean: real, scale: real): real {
    Scale(x - mean, scale)
  }

  /** One sample multiplied by the scale factor. A named function, like ToStrain, so that the
      verifier sees one term per sample rather than a nonlinear product. */
  function Scale(x: real, scale: real): real {
    x * scale
  }

  /** A row with its mean removed and scaled, entrywise. */
  function ShiftScale(s: seq<real>, c: real, a: real): (r: seq<real>)
    ensures |r| == |s|
  {
    seq(|s|, j requires 0 <= j < |s| => ToStrain(s[j], c, a))
  }

  lemma Distribute(p: real, q: real, a: real)
    ensures p * a + q * a == (p + q) * a
  {
  }

  lemma {:induction false} SumShiftScale(s: seq<real>, c: real, a: real)
    ensures Sum(ShiftScale(s, c, a)) == (Sum(s) - |s| as real * c) * a
    decreases |s|
  {
    if |s| > 0 {
      var r := ShiftScale(s, c, a);
      assert r[1..] == ShiftScale(s[1..], c, a) by {
        forall k | 0 <= k < |s| - 1 ensures r[1..][k] == ShiftScale(s[1..], c, a)[k] {
          assert r[1..][k] == r[k + 1] == ToStrain(s[k + 1], c, a);
        }
      }
      SumShiftScale(s[1..], c, a);
      assert r[0] == (s[0] - c) * a;
      SumStep(s[0], Sum(s[1..]), |s| as real, c, a);
    }
  }

  /** The arithmetic of one step of SumShiftScale: the head's term joins the tail's sum. */
  lemma SumStep(head: real, rest: real, n: real, c: real, a: real)
    ensures (head - c) * a + (rest - (n - 1.0) * c) * a == (head + rest - n * c) * a
  {
    Distribute(n - 1.0, 1.0, c);
    Distribute(head - c, rest - (n - 1.0) * c, a);
  }

  /** The strain matrix: every row demeaned and scaled by the metadata's scale factor. */
  function Strain(g: Grid, rows: nat, cols: nat, scale: real): (r: Grid)
    requires IsGrid(g, rows, cols)
    ensures IsGrid(r, rows, cols)
  {
    seq(rows, i requires 0 <= i < rows => ShiftScale(g[i], Mean(g[i]), scale))
  }

  lemma StrainAt(g: Grid, rows: nat, cols: nat, scale: real, i: nat, j: nat)
    requires IsGrid(g, rows, cols) && i < rows && j < cols
    ensures Strain(g, rows, cols, scale)[i][j] == ToStrain(g[i][j], Mean(g[i]), scale)
  {
  }

  /** After the conversion every channel sums to zero. */
  lemma StrainRowsSumToZero(g: Grid, rows: nat, cols: nat, scale: real)
    requires IsGrid(g, rows, cols)
    ensures forall i :: 0 <= i < rows ==> Sum(Strain(g, rows, cols, scale)[i]) == 0.0
  {
    forall i | 0 <= i < rows ensures Sum(Strain(g, rows, cols, scale)[i]) == 0.0 {
      SumShiftScale(g[i], Mean(g[i]), scale);
      if cols > 0 {
        assert |g[i]| as real * Mean(g[i]) == Sum(g[i]);
      }
    }
  }

  /** `trace -= means[:, np.newaxis]`: every entry of row i lowered by means[i]. */
  method SubtractRowMeans(trace: array2<real>, means: seq<real>)
    requires |means| == trace.Length0
    modifies trace
    ensures forall i, j :: 0 <= i < trace.Length0 && 0 <= j < trace.Length1 ==>
      trace[i, j] == old(trace[i, j]) - means[i]
  {
    forall i, j | 0 <= i < trace.Length0 && 0 <= j < trace.Length1 {
      trace[i, j] := trace[i, j] - means[i];
    }
  }

  /** `trace *= scale`: every entry scaled. */
  method ScaleAll(trace: array2<real>, scale: real)
    modifies trace
    ensures forall i, j :: 0 <= i < trace.Length0 && 0 <= j < trace.Length1 ==>
      trace[i, j] == Scale(old(trace[i, j]), scale)
  {
    forall i, j | 0 <= i < trace.Length0 && 0 <= j < trace.Length1 {
      trace[i, j] := Scale(trace[i, j], scale);
    }
  }

  /** `raw2strain`: `trace -= np.mean(trace, axis=1, keepdims=True)`, then
      `trace *= scale_factor`, returning the caller's own array. */
  method Raw2Strain(trace: array2<real>, metadata: Metadata) returns (r: array2<real>)
    modifies trace
    ensures r == trace
    ensures Represents(trace, Strain(old(Contents(trace)), trace.Length0, trace.Length1, metadata.scaleFactor))
  {
    var before := Contents(trace);
    var means := seq(trace.Length0, i requires 0 <= i < trace.Length0 => Mean(before[i]));
    SubtractRowMeans(trace, means);
    label demeaned:
    ScaleAll(trace, metadata.scaleFactor);
    forall i, j | 0 <= i < trace.Length0 && 0 <= j < trace.Length1
      ensures trace[i, j] == Strain(before, trace.Length0, trace.Length1, metadata.scaleFactor)[i][j]
    {
      assert old@demeaned(trace[i, j]) == before[i][j] - Mean(before[i]);
      StrainAt(before, trace.Length0, trace.Length1, metadata.scaleFactor, i, j);
    }
    r := trace;
  }

  // ---------------------------------------------------------------------------------------
  // Channel selection and axes of `load_das_data`

  /** A slice bound clipped the way a Python slice with a positive step clips it. */
  function ClipIndex(x: int, n: nat): (c: nat)
    ensures c <= n
    ensures 0 <= x <= n ==> c == x
    ensures -(n as int) <= x < 0 ==> c == x + n
    ensures (x < -(n as int) ==> c == 0) && (x > n ==> c == n)
  {
    if x < 0 then (if x + n < 0 then 0 else x + n)
    else if x > n then n
    else x
  }

  /** `range(start, stop, step)` for a positive step. */
  function Range(start: int, stop: int, step: nat): (r: seq<int>)
    requires step >= 1
    ensures |r| == 0 <==> stop <= start
    ensures |r| > 0 ==> r[0] == start
    ensures forall i :: 0 <= i < |r| ==> start <= r[i] < stop
    decreases stop - start
  {
    if start >= stop then [] else [start] + Range(start + step, stop, step)
  }

  /** The entries of `range(start, stop, step)` are start, start + step, ... below stop, and their
      number is the least count with count * step >= stop - start. */
  lemma RangeFacts(start: int, stop: int, step: nat)
    requires step >= 1
    ensures var r := Range(start, stop, step);
      && (forall i :: 0 <= i < |r| ==> start <= r[i] < stop && r[i] == start + i * step)
      && (stop <= start ==> |r| == 0)
      && (start < stop ==> (|r| - 1) * step < stop - start <= |r| * step)
  {
    RangeElements(start, stop, step);
    RangeCount(start, stop, step);
  }

  /** Entry i of `range(start, stop, step)` is start + i * step. */
  lemma {:induction false} RangeElements(start: int, stop: int, step: nat)
    requires step >= 1
    ensures forall i :: 0 <= i < |Range(start, stop, step)| ==> Range(start, stop, step)[i] == start + i * step
    decreases stop - start
  {
    if start < stop {
      var r, rest := Range(start, stop, step), Range(start + step, stop, step);
      RangeElements(start + step, stop, step);
      assert r == [start] + rest;
      forall i | 0 < i < |r| ensures r[i] == start + i * step {
        assert r[i] == rest[i - 1] == start + step + (i - 1) * step;
        NextMultiple(i - 1, step);
      }
    }
  }

  /** The length of `range(start, stop, step)` is the least count whose multiple of step reaches
      stop - start. */
  lemma {:induction false} RangeCount(start: int, stop: int, step: nat)
    requires step >= 1
    ensures var r := Range(start, stop, step);
      start < stop ==> (|r| - 1) * step < stop - start <= |r| * step
    decreases stop - start
  {
    if start < stop {
      var r, rest := Range(start, stop, step), Range(start + step, stop, step);
      RangeCount(start + step, stop, step);
      assert |r| == |rest| + 1;
      NextMultiple(|rest|, step);
    }
  }

  lemma NextMultiple(k: int, step: int)
    ensures (k + 1) * step == k * step + step
  {
  }

  /** The raw channel indices `raw[start:stop:step]` reads from n rows: start and stop clipped as
      a Python slice clips them, then `range`; a step below one raises. */
  function SliceIndices(sel: ChannelSelection, n: nat): (r: Result<seq<int>, LoadError>)
    ensures r.Err? <==> sel.step < 1
    ensures r.Err? ==> r.error == StepBelowOne(sel.step)
    ensures r.Ok? ==> forall i :: 0 <= i < |r.value| ==> 0 <= r.value[i] < n
  {
    if sel.step < 1 then Err(StepBelowOne(sel.step))
    else
      var start, stop := ClipIndex(sel.start, n), ClipIndex(sel.stop, n);
      RangeFacts(start, stop, sel.step);
      Ok(Range(start, stop, sel.step))
  }

  /** With a positive step and lo, hi the start and stop clipped to [0, n] (a negative bound
      counts from the end), the selection has ceil((hi - lo) / step) rows (none when hi <= lo),
      and row i is raw channel lo + i * step. */
  lemma SliceShape(sel: ChannelSelection, n: nat)
    requires sel.step >= 1
    ensures var idx := SliceIndices(sel, n).value;
      var lo, hi := ClipIndex(sel.start, n), ClipIndex(sel.stop, n);
      && (hi <= lo ==> |idx| == 0)
      && (lo < hi ==> (|idx| - 1) * sel.step < hi - lo <= |idx| * sel.step)
      && (forall i :: 0 <= i < |idx| ==> idx[i] == lo + i * sel.step)
  {
    RangeFacts(ClipIndex(sel.start, n), ClipIndex(sel.stop, n), sel.step);
  }

  /** The rows of the raw matrix the slice selects. */
  function SelectRows(raw: Grid, nx: nat, ns: nat, idx: seq<int>): (g: Grid)
    requires IsGrid(raw, nx, ns) && forall i :: 0 <= i < |idx| ==> 0 <= idx[i] < nx
    ensures IsGrid(g, |idx|, ns)
  {
    seq(|idx|, i requires 0 <= i < |idx| => raw[idx[i]])
  }

  /** The time axis `np.arange(nns) / fs`. */
  function TimeAxis(nns: nat, fs: real): (tx: seq<real>)
    requires fs != 0.0
    ensures |tx| == nns
  {
    seq(nns, j requires 0 <= j < nns => j as real / fs)
  }

  /** Samples are 1 / fs apart, starting at 0, so the axis increases for fs > 0. */
  lemma TimeAxisSpacing(nns: nat, fs: real)
    requires fs > 0.0
    ensures nns > 0 ==> TimeAxis(nns, fs)[0] == 0.0
    ensures forall j :: 0 <= j < nns - 1 ==> TimeAxis(nns, fs)[j + 1] - TimeAxis(nns, fs)[j] == 1.0 / fs
    ensures forall i, j :: 0 <= i < j < nns ==> TimeAxis(nns, fs)[i] < TimeAxis(nns, fs)[j]
  {
    var tx := TimeAxis(nns, fs);
    forall j | 0 <= j < nns - 1 ensures tx[j + 1] - tx[j] == 1.0 / fs {
      assert (j + 1) as real / fs - j as real / fs == ((j + 1) as real - j as real) / fs;
    }
    forall i, j | 0 <= i < j < nns ensures tx[i] < tx[j] {
      assert tx[j] - tx[i] == (j - i) as real / fs;
    }
  }

  /** The distance axis `(np.arange(nnx) * step + start) * dx`. */
  function DistanceAxis(nnx: nat, sel: ChannelSelection, dx: real): (dist: seq<real>)
    ensures |dist| == nnx
  {
    seq(nnx, i requires 0 <= i < nnx => Position(i * sel.step + sel.start, dx))
  }

  /** The distance of raw channel c along the cable; named so that spacing proofs compare two
      products as terms. */
  function Position(c: int, dx: real): real {
    c as real * dx
  }

  lemma PositionDifference(p: int, step: int, dx: real)
    ensures Position(p + step, dx) - Position(p, dx) == step as real * dx
  {
    assert (p + step) as real == p as real + step as real;
    Distribute(p as real, step as real, dx);
  }

  /** Consecutive entries of the distance axis are step * dx apart. */
  lemma DistanceAxisSpacing(nnx: nat, sel: ChannelSelection, dx: real)
    ensures forall i :: 0 <= i < nnx - 1 ==>
      DistanceAxis(nnx, sel, dx)[i + 1] - DistanceAxis(nnx, sel, dx)[i] == sel.step as real * dx
  {
    var dist := DistanceAxis(nnx, sel, dx);
    forall i | 0 <= i < nnx - 1 ensures dist[i + 1] - dist[i] == sel.step as real * dx {
      var p := i * sel.step + sel.start;
      assert (i + 1) * sel.step + sel.start == p + sel.step;
      PositionDifference(p, sel.step, dx);
    }
  }

  /** When 0 <= start, the distance of selected row i is the position of the raw channel the
      slice read for it (a start beyond n selects nothing). */
  lemma DistanceAxisMatchesChannels(sel: ChannelSelection, n: nat, dx: real)
    requires sel.step >= 1 && 0 <= sel.start
    ensures var idx := SliceIndices(sel, n).value;
      forall i :: 0 <= i < |idx| ==> DistanceAxis(|idx|, sel, dx)[i] == Position(idx[i], dx)
  {
    RangeFacts(ClipIndex(sel.start, n), ClipIndex(sel.stop, n), sel.step);
  }

  /** A loaded file: the strain matrix, its time axis and its distance axis. */
  datatype Loaded = Loaded(trace: Grid, tx: seq<real>, dist: seq<real>)

  /** `load_das_data` on a file given by whether it exists and its raw nx-by-ns matrix. */
  function LoadDasData(fileExists: bool, raw: Grid, nx: nat, ns: nat, sel: ChannelSelection, metadata: Metadata): (r: Result<Loaded, LoadError>)
    requires IsGrid(raw, nx, ns) && metadata.fs != 0.0
    ensures !fileExists ==> r == Err(FileNotFound)
    ensures fileExists && sel.step < 1 ==> r == Err(StepBelowOne(sel.step))
    ensures r.Ok? ==> fileExists && sel.step >= 1
    ensures r.Ok? ==> var rows := |SliceIndices(sel, nx).value|;
      && IsGrid(r.value.trace, rows, ns)
      && |r.value.tx| == ns && |r.value.dist| == rows
  {
    if !fileExists then Err(FileNotFound)
    else
      match SliceIndices(sel, nx)
      case Err(e) => Err(e)
      case Ok(idx) =>
        var trace := Strain(SelectRows(raw, nx, ns, idx), |idx|, ns, metadata.scaleFactor);
        Ok(Loaded(trace, TimeAxis(ns, metadata.fs), DistanceAxis(|idx|, sel, metadata.dx)))
  }

  /** Every channel of a loaded trace sums to zero. */
  lemma LoadedRowsSumToZero(fileExists: bool, raw: Grid, nx: nat, ns: nat, sel: ChannelSelection, metadata: Metadata)
    requires IsGrid(raw, nx, ns) && metadata.fs != 0.0
    requires LoadDasData(fileExists, raw, nx, ns, sel, metadata).Ok?
    ensures var t := LoadDasData(fileExists, raw, nx, ns, sel, metadata).value.trace;
      forall i :: 0 <= i < |t| ==> Sum(t[i]) == 0.0
  {
    var idx := SliceIndices(sel, nx).value;
    StrainRowsSumToZero(SelectRows(raw, nx, ns, idx), |idx|, ns, metadata.scaleFactor);
  }
}

/** `taper_data`: every time series of a trace multiplied, in place, by one Tukey window. */
module Tapering {
  import opened Grids

  /** The tapering ratio of the Tukey window. */
  const TukeyAlpha: real := 0.03

  /** Every row of `g` multiplied entrywise by the window `w`, the same window for each row. */
  function Windowed(g: Grid, w: seq<real>, rows: nat): (r: Grid)
    requires IsGrid(g, rows, |w|)
    ensures IsGrid(r, rows, |w|)
  {
    seq(rows, i requires 0 <= i < rows =>
      seq(|w|, j requires 0 <= j < |w| => g[i][j] * w[j]))
  }

  /** The range of a Tukey window: every weight in [0, 1]. */
  ghost predicate IsWindow(w: seq<real>) {
    forall j :: 0 <= j < |w| ==> 0.0 <= w[j] <= 1.0
  }

  lemma ScaledMagnitude(x: real, weight: real, bound: real)
    requires 0.0 <= weight <= 1.0 && -bound <= x <= bound
    ensures -bound <= x * weight <= bound
  {
    if x >= 0.0 {
      assert x * weight <= x * 1.0;
    } else {
      assert x * weight >= x * 1.0;
    }
  }

  /** A window with weights in [0, 1] never amplifies: a trace within [-bound, bound] stays within
      it after tapering. */
  lemma WindowedKeepsBound(g: Grid, w: seq<real>, rows: nat, bound: real)
    requires IsGrid(g, rows, |w|) && IsWindow(w) && Bounded(g, rows, |w|, -bound, bound)
    ensures Bounded(Windowed(g, w, rows), rows, |w|, -bound, bound)
  {
    var r := Windowed(g, w, rows);
    forall i, j | 0 <= i < rows && 0 <= j < |w| ensures -bound <= r[i][j] <= bound {
      ScaledMagnitude(g[i][j], w[j], bound);
    }
  }

  /** A column whose weight is 0 is silenced in every row, and one whose weight is 1 is kept. */
  lemma WindowedColumns(g: Grid, w: seq<real>, rows: nat, j: nat)
    requires IsGrid(g, rows, |w|) && j < |w|
    ensures w[j] == 0.0 ==> forall i :: 0 <= i < rows ==> Windowed(g, w, rows)[i][j] == 0.0
    ensures w[j] == 1.0 ==> forall i :: 0 <= i < rows ==> Windowed(g, w, rows)[i][j] == g[i][j]
  {
    var r := Windowed(g, w, rows);
    forall i | 0 <= i < rows ensures r[i][j] == g[i][j] * w[j] {
    }
  }

  /** `taper_data`: `trace *= tukey(nt, alpha=0.03)[np.newaxis, :]`, returning the caller's own
      array. The window function is a parameter that gives a window of the requested length. */
  method TaperData(trace: array2<real>, tukey: (nat, real) -> seq<real>) returns (r: array2<real>)
    requires |tukey(trace.Length1, TukeyAlpha)| == trace.Length1
    modifies trace
    ensures r == trace
    ensures Represents(trace, Windowed(old(Contents(trace)), tukey(trace.Length1, TukeyAlpha), trace.Length0))
  {
    var w := tukey(trace.Length1, TukeyAlpha);
    forall i, j | 0 <= i < trace.Length0 && 0 <= j < trace.Length1 {
      trace[i, j] := trace[i, j] * w[j];
    }
    r := trace;
  }
}

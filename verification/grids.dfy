/** Dense real matrices: the numpy operations the mask designers apply to whole arrays. */
module Grids {
  /** A matrix given by its rows. */
  type Grid = seq<seq<real>>

  ghost predicate IsGrid(g: Grid, rows: nat, cols: nat) {
    |g| == rows && forall i :: 0 <= i < rows ==> |g[i]| == cols
  }

  /** The array `m` holds the matrix `g`, entry by entry. */
  ghost predicate Represents(m: array2<real>, g: Grid)
    reads m
  {
    && IsGrid(g, m.Length0, m.Length1)
    && forall i, j :: 0 <= i < m.Length0 && 0 <= j < m.Length1 ==> m[i, j] == g[i][j]
  }

  /** The current contents of `m` as a value. */
  function Contents(m: array2<real>): (g: Grid)
    reads m
    ensures Represents(m, g)
  {
    seq(m.Length0, i requires 0 <= i < m.Length0 reads m =>
      seq(m.Length1, j requires 0 <= j < m.Length1 reads m => m[i, j]))
  }

  /** `np.tile(h, (rows, 1))`: every row is `h`. */
  function Tile(h: seq<real>, rows: nat): (g: Grid)
    ensures IsGrid(g, rows, |h|)
  {
    seq(rows, _ => h)
  }

  /** `g + np.fliplr(g)`. */
  function AddFlipLR(g: Grid, rows: nat, cols: nat): (r: Grid)
    requires IsGrid(g, rows, cols)
    ensures IsGrid(r, rows, cols)
    ensures forall i, j :: 0 <= i < rows && 0 <= j < cols ==> r[i][j] == r[i][cols - 1 - j]
  {
    seq(rows, i requires 0 <= i < rows =>
      seq(cols, j requires 0 <= j < cols => g[i][j] + g[i][cols - 1 - j]))
  }

  /** `g + np.flipud(g)`. It makes the rows symmetric and keeps a left-right symmetry. */
  function AddFlipUD(g: Grid, rows: nat, cols: nat): (r: Grid)
    requires IsGrid(g, rows, cols)
    ensures IsGrid(r, rows, cols)
    ensures forall i, j {:trigger r[i][j]} :: 0 <= i < rows && 0 <= j < cols ==> r[i][j] == r[rows - 1 - i][j]
    ensures LRSymmetric(g, rows, cols) ==> LRSymmetric(r, rows, cols)
  {
    seq(rows, i requires 0 <= i < rows =>
      seq(cols, j requires 0 <= j < cols => g[i][j] + g[rows - 1 - i][j]))
  }

  /** A column that is zero together with its left-right partner stays zero under `+= fliplr`
      and then `+= flipud`. */
  lemma FlipSumsKeepZeroColumn(g: Grid, rows: nat, cols: nat, j: nat)
    requires IsGrid(g, rows, cols) && j < cols
    requires forall i :: 0 <= i < rows ==> g[i][j] == 0.0 && g[i][cols - 1 - j] == 0.0
    ensures forall i :: 0 <= i < rows ==> AddFlipLR(g, rows, cols)[i][j] == 0.0
    ensures forall i :: 0 <= i < rows ==> AddFlipUD(AddFlipLR(g, rows, cols), rows, cols)[i][j] == 0.0
  {
    var lr := AddFlipLR(g, rows, cols);
    forall i | 0 <= i < rows
      ensures lr[i][j] == 0.0 && AddFlipUD(lr, rows, cols)[i][j] == 0.0
    {
      assert lr[i][j] == g[i][j] + g[i][cols - 1 - j];
      assert lr[rows - 1 - i][j] == g[rows - 1 - i][j] + g[rows - 1 - i][cols - 1 - j];
      assert AddFlipUD(lr, rows, cols)[i][j] == lr[i][j] + lr[rows - 1 - i][j];
    }
  }

  ghost predicate LRSymmetric(g: Grid, rows: nat, cols: nat)
    requires IsGrid(g, rows, cols)
  {
    forall i, j :: 0 <= i < rows && 0 <= j < cols ==> g[i][j] == g[i][cols - 1 - j]
  }

  ghost predicate Bounded(g: Grid, rows: nat, cols: nat, lo: real, hi: real)
    requires IsGrid(g, rows, cols)
  {
    forall i, j :: 0 <= i < rows && 0 <= j < cols ==> lo <= g[i][j] <= hi
  }

  /** Adding a mirror image at most doubles the range of a non-negative matrix. */
  lemma AddFlipBounds(g: Grid, rows: nat, cols: nat, hi: real)
    requires IsGrid(g, rows, cols) && Bounded(g, rows, cols, 0.0, hi)
    ensures Bounded(AddFlipLR(g, rows, cols), rows, cols, 0.0, 2.0 * hi)
    ensures Bounded(AddFlipUD(g, rows, cols), rows, cols, 0.0, 2.0 * hi)
  {
    var lr, ud := AddFlipLR(g, rows, cols), AddFlipUD(g, rows, cols);
    forall i, j | 0 <= i < rows && 0 <= j < cols
      ensures 0.0 <= lr[i][j] <= 2.0 * hi && 0.0 <= ud[i][j] <= 2.0 * hi
    {
      assert 0.0 <= g[i][cols - 1 - j] <= hi;
      assert 0.0 <= g[rows - 1 - i][j] <= hi;
    }
  }

  /** The blur only has to keep the shape of the matrix it is given. */
  ghost predicate PreservesShape(blur: Grid -> Grid, rows: nat, cols: nat) {
    forall g :: IsGrid(g, rows, cols) ==> IsGrid(blur(g), rows, cols)
  }

  /** `np.tile(h, (rows, 1))` into a new array. */
  method TileRows(h: seq<real>, rows: nat) returns (m: array2<real>)
    ensures fresh(m)
    ensures m.Length0 == rows && m.Length1 == |h|
    ensures Represents(m, Tile(h, rows))
  {
    m := new real[rows, |h|];
    forall i, j | 0 <= i < rows && 0 <= j < |h| {
      m[i, j] := h[j];
    }
  }

  /** `m[i, :] = row`: row i replaced, every other row unchanged. */
  method SetRow(m: array2<real>, i: nat, row: seq<real>)
    requires i < m.Length0 && |row| == m.Length1
    modifies m
    ensures forall r, j :: 0 <= r < m.Length0 && 0 <= j < m.Length1 ==>
      m[r, j] == if r == i then row[j] else old(m[r, j])
  {
    forall j | 0 <= j < m.Length1 {
      m[i, j] := row[j];
    }
  }

  /** `m += np.fliplr(m)`. numpy evaluates an in-place ufunc whose operands overlap as if the
      flipped view had been copied first; the simultaneous `forall` assignment does the same. */
  method AddFlipLRInPlace(m: array2<real>, ghost g: Grid)
    requires Represents(m, g)
    modifies m
    ensures Represents(m, AddFlipLR(g, m.Length0, m.Length1))
  {
    forall i, j | 0 <= i < m.Length0 && 0 <= j < m.Length1 {
      m[i, j] := m[i, j] + m[i, m.Length1 - 1 - j];
    }
  }

  /** `m += np.flipud(m)`, with the same overlap semantics. */
  method AddFlipUDInPlace(m: array2<real>, ghost g: Grid)
    requires Represents(m, g)
    modifies m
    ensures Represents(m, AddFlipUD(g, m.Length0, m.Length1))
  {
    forall i, j | 0 <= i < m.Length0 && 0 <= j < m.Length1 {
      m[i, j] := m[i, j] + m[m.Length0 - 1 - i, j];
    }
    RepresentsFlipUD(m, g);
  }

  /** An array holding g[i][j] + g[rows - 1 - i][j] at every (i, j) represents `g + np.flipud(g)`. */
  lemma RepresentsFlipUD(m: array2<real>, g: Grid)
    requires IsGrid(g, m.Length0, m.Length1)
    requires forall i, j :: 0 <= i < m.Length0 && 0 <= j < m.Length1 ==>
      m[i, j] == g[i][j] + g[m.Length0 - 1 - i][j]
    ensures Represents(m, AddFlipUD(g, m.Length0, m.Length1))
  {
  }

  /** An array represents exactly one matrix: its contents. */
  lemma RepresentsUnique(m: array2<real>, g: Grid)
    requires Represents(m, g)
    ensures Contents(m) == g
  {
    var c := Contents(m);
    forall i | 0 <= i < m.Length0 ensures c[i] == g[i] {
      assert |c[i]| == |g[i]| == m.Length1;
    }
  }

  /** `ndimage.gaussian_filter(m, 20)`: a new array holding `blur` of the matrix in `m`. */
  method GaussianFilter(m: array2<real>, ghost g: Grid, blur: Grid -> Grid) returns (b: array2<real>)
    requires Represents(m, g) && PreservesShape(blur, m.Length0, m.Length1)
    ensures fresh(b)
    ensures b.Length0 == m.Length0 && b.Length1 == m.Length1
    ensures Represents(b, blur(g))
  {
    RepresentsUnique(m, g);
    var blurred := blur(Contents(m));
    b := new real[m.Length0, m.Length1];
    forall i, j | 0 <= i < m.Length0 && 0 <= j < m.Length1 {
      b[i, j] := blurred[i][j];
    }
  }
}

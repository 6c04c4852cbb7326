/** A sheet and the per-sheet quality check `calc`: the flat thickness field is
    copied row by row into a Length x Width grid, and every query's result field
    is overwritten with the answer of the (external, uninterpreted) solver. */
module Sheets {

  /** The answer to one query: a rectangle of the sheet. The core only stores it. */
  datatype Rect = Rect(x: int, y: int, width: int, length: int)

  /** The parameter of a min/max-band query. */
  datatype MinMax = MinMax(lo: int, hi: int)

  /** A thickness grid: `length` rows of `width` values each. */
  type Grid = seq<seq<int>>

  /** The three solvers as opaque function values, each called with the grid, its
      width, its length and the query's parameter (for min/max, its two bounds). */
  datatype Solvers = Solvers(
    relDev: (Grid, nat, nat, real) -> Rect,
    volume: (Grid, nat, nat, int) -> Rect,
    minMax: (Grid, nat, nat, int, int) -> Rect)

  /** A sheet fetched from a production line. Its dimensions and thickness field
      are never changed by the core; its three query lists are, in place. */
  class Sheet {
    const width: nat
    const length: nat
    const thickness: seq<int>
    var relDev: seq<(real, Rect)>
    var volume: seq<(int, Rect)>
    var minMax: seq<(MinMax, Rect)>

    /** The thickness field holds (at least) one value per grid cell. */
    predicate WellFormed()
    {
      width * length <= |thickness|
    }

    constructor (width: nat, length: nat, thickness: seq<int>,
                 relDev: seq<(real, Rect)>, volume: seq<(int, Rect)>, minMax: seq<(MinMax, Rect)>)
      ensures this.width == width && this.length == length && this.thickness == thickness
      ensures this.relDev == relDev && this.volume == volume && this.minMax == minMax
    {
      this.width, this.length, this.thickness := width, length, thickness;
      this.relDev, this.volume, this.minMax := relDev, volume, minMax;
    }
  }

  /** Row-major reading of a flat field: row `i` is `t[width * i .. width * i + width]`
      (cell by cell, `ReshapeAt`). */
  function Reshape(t: seq<int>, width: nat, length: nat): (g: Grid)
    requires width * length <= |t|
    ensures |g| == length
    ensures forall i :: 0 <= i < length ==> |g[i]| == width
    decreases length
  {
    if length == 0 then [] else [t[..width]] + Reshape(t[width..], width, length - 1)
  }

  /** Concatenation of the rows of a grid: the row-major flat layout. */
  function Flatten(g: Grid): (f: seq<int>)
  {
    if g == [] then [] else g[0] + Flatten(g[1..])
  }

  /** The row-major position of cell `(i, j)` in the flat field of a grid `width` wide. */
  function Offset(width: nat, i: nat, j: nat): (n: nat)
  {
    width * i + j
  }

  /** `width * i + j` is a cell index of a `length x width` grid. */
  lemma RowMajorInBounds(width: nat, length: nat, i: nat, j: nat)
    requires i < length && j < width
    ensures width * i + j < width * length
  {
    assert width * i + width == width * (i + 1) <= width * length;
  }

  /** The grid cell `(i, j)` is the flat field's entry `width * i + j`. */
  lemma {:induction false} ReshapeAt(t: seq<int>, width: nat, length: nat, i: nat, j: nat)
    requires width * length <= |t|
    requires i < length && j < width
    ensures Offset(width, i, j) < |t|
    ensures Reshape(t, width, length)[i][j] == t[Offset(width, i, j)]
    decreases i
  {
    RowMajorInBounds(width, length, i, j);
    if i > 0 {
      ReshapeAt(t[width..], width, length - 1, i - 1, j);
      assert width * (i - 1) + j + width == width * i + j;
    }
  }

  /** Flattening a grid of `length` rows of `width` values gives `width * length` values. */
  lemma {:induction false} FlattenLength(g: Grid, width: nat)
    requires forall i :: 0 <= i < |g| ==> |g[i]| == width
    ensures |Flatten(g)| == width * |g|
  {
    if g != [] {
      FlattenLength(g[1..], width);
    }
  }

  /** Reshaping then flattening gives back the part of the field the grid covers:
      the copy neither loses nor reorders any cell. */
  lemma {:induction false} FlattenReshape(t: seq<int>, width: nat, length: nat)
    requires width * length <= |t|
    ensures Flatten(Reshape(t, width, length)) == t[..width * length]
    decreases length
  {
    if length > 0 {
      FlattenReshape(t[width..], width, length - 1);
      assert t[width..][..width * (length - 1)] == t[width..width * length];
    }
  }

  /** Flattening then reshaping a rectangular grid gives the grid back. */
  lemma {:induction false} ReshapeFlatten(g: Grid, width: nat)
    requires forall i :: 0 <= i < |g| ==> |g[i]| == width
    ensures width * |g| <= |Flatten(g)|
    ensures Reshape(Flatten(g), width, |g|) == g
  {
    FlattenLength(g, width);
    if g != [] {
      ReshapeFlatten(g[1..], width);
      assert Flatten(g)[..width] == g[0];
      assert Flatten(g)[width..] == Flatten(g[1..]);
    }
  }

  /** The contents of a two-dimensional array as a grid value. */
  function Rows(a: array2<int>): (g: Grid)
    reads a
  {
    seq(a.Length0, i requires 0 <= i < a.Length0 reads a =>
      seq(a.Length1, j requires 0 <= j < a.Length1 reads a => a[i, j]))
  }

  /** The first loop nest of `calc`: copy the flat field row-major into a new
      `length x width` array. */
  method BuildGrid(t: seq<int>, width: nat, length: nat) returns (grid: array2<int>)
    requires width * length <= |t|
    ensures fresh(grid)
    ensures grid.Length0 == length && grid.Length1 == width
    ensures forall i, j :: 0 <= i < length && 0 <= j < width ==>
              Offset(width, i, j) < |t| && grid[i, j] == t[Offset(width, i, j)]
    ensures Rows(grid) == Reshape(t, width, length)
  {
    ghost var g := Reshape(t, width, length);
    grid := new int[length, width];
    for i := 0 to length
      invariant forall i', j :: 0 <= i' < i && 0 <= j < width ==> grid[i', j] == g[i'][j]
    {
      for j := 0 to width
        invariant forall i', j' :: 0 <= i' < i && 0 <= j' < width ==> grid[i', j'] == g[i'][j']
        invariant forall j' :: 0 <= j' < j ==> grid[i, j'] == g[i][j']
      {
        ReshapeAt(t, width, length, i, j);
        grid[i, j] := t[Offset(width, i, j)];
      }
    }
    forall i, j | 0 <= i < length && 0 <= j < width
      ensures Offset(width, i, j) < |t| && grid[i, j] == t[Offset(width, i, j)]
    {
      ReshapeAt(t, width, length, i, j);
    }
    assert forall i :: 0 <= i < length ==> Rows(grid)[i] == g[i];
  }

  /** One of the three query loops of `calc`: overwrite each query's result with
      the solver's answer for that query's parameter. */
  method AnswerAll<Q>(queries: seq<(Q, Rect)>, solve: Q -> Rect)
    returns (answered: seq<(Q, Rect)>)
    ensures |answered| == |queries|
    ensures forall k :: 0 <= k < |queries| ==> answered[k] == (queries[k].0, solve(queries[k].0))
  {
    answered := queries;
    for k := 0 to |queries|
      invariant |answered| == |queries|
      invariant forall m :: 0 <= m < k ==> answered[m] == (queries[m].0, solve(queries[m].0))
      invariant forall m :: k <= m < |queries| ==> answered[m] == queries[m]
    {
      answered := answered[k := (answered[k].0, solve(answered[k].0))];
    }
  }

  /** What `calc` leaves behind: every query keeps its parameter and its place, and
      its result is the solver's answer on the sheet's reshaped grid. */
  twostate predicate Calculated(sheet: Sheet, solvers: Solvers)
    requires sheet.WellFormed()
    reads sheet
  {
    var g, w, l := Reshape(sheet.thickness, sheet.width, sheet.length), sheet.width, sheet.length;
    && |sheet.relDev| == |old(sheet.relDev)|
    && (forall k :: 0 <= k < |sheet.relDev| ==>
          sheet.relDev[k] == (old(sheet.relDev[k].0), solvers.relDev(g, w, l, old(sheet.relDev[k].0))))
    && |sheet.volume| == |old(sheet.volume)|
    && (forall k :: 0 <= k < |sheet.volume| ==>
          sheet.volume[k] == (old(sheet.volume[k].0), solvers.volume(g, w, l, old(sheet.volume[k].0))))
    && |sheet.minMax| == |old(sheet.minMax)|
    && (forall k :: 0 <= k < |sheet.minMax| ==>
          sheet.minMax[k] == (old(sheet.minMax[k].0),
                              solvers.minMax(g, w, l, old(sheet.minMax[k].0).lo, old(sheet.minMax[k].0).hi)))
  }

  /** `calc`: build the grid, then answer every relative-deviation, volume and
      min/max query of the sheet in place. */
  method Calc(sheet: Sheet, solvers: Solvers)
    requires sheet.WellFormed()
    modifies sheet
    ensures Calculated(sheet, solvers)
  {
    var w, l := sheet.width, sheet.length;
    var grid := BuildGrid(sheet.thickness, w, l);
    var g := Rows(grid);
    sheet.relDev := AnswerAll(sheet.relDev, p => solvers.relDev(g, w, l, p));
    sheet.volume := AnswerAll(sheet.volume, p => solvers.volume(g, w, l, p));
    sheet.minMax := AnswerAll(sheet.minMax, (p: MinMax) => solvers.minMax(g, w, l, p.lo, p.hi));
  }
}

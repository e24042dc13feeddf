/** The tabulate benchmark's grid: how many rows and columns it gets, and how its source rows fill it. */
module GridSeeding {
  import opened Arithmetic
  import opened Common

  /** `factor` divides `value`. */
  predicate Divides(factor: nat, value: nat)
    requires factor > 0
  {
    value % factor == 0
  }

  /** The floor of the square root. */
  ghost predicate IsRoot(root: nat, value: nat) {
    root * root <= value < (root + 1) * (root + 1)
  }

  /** `(value as f64).sqrt() as usize`, taken to be exact. */
  method IntegerRoot(value: nat) returns (root: nat)
    ensures IsRoot(root, value)
  {
    root := 0;
    while (root + 1) * (root + 1) <= value
      invariant root * root <= value
      decreases value - root * root
    {
      root := root + 1;
    }
  }

  /** `balanced_factor`: the largest divisor that is not above the root, or 1 when the value is zero. */
  method BalancedFactor(value: nat) returns (factor: nat)
    ensures factor >= 1 && Divides(factor, value)
    ensures value == 0 ==> factor == 1
    ensures value > 0 ==> factor * factor <= value
    ensures value > 0 ==> forall d: nat | d > factor && d * d <= value :: !Divides(d, value)
  {
    var root := IntegerRoot(value);
    factor := root;
    while factor > 1 && value % factor != 0
      invariant factor <= root && (value > 0 ==> factor >= 1)
      invariant forall d: nat | factor < d <= root :: !Divides(d, value)
    {
      factor := factor - 1;
    }
    if value > 0 {
      Below(factor, root, value);
      forall d: nat | d > factor && d * d <= value ensures !Divides(d, value) {
        NotAboveRoot(d, root, value);
      }
    }
    factor := Max(factor, 1);
  }

  lemma NotAboveRoot(d: nat, root: nat, value: nat)
    requires IsRoot(root, value) && d * d <= value
    ensures d <= root
  {
    if d > root { Squares(root + 1, d); }
  }

  lemma Below(d: nat, root: nat, value: nat)
    requires IsRoot(root, value) && d <= root
    ensures d * d <= value
  {
    Squares(d, root);
  }

  lemma Squares(a: nat, b: nat)
    requires a <= b
    ensures a * a <= b * b
  {
    Scale(a, b, a);
    Scale(a, b, b);
  }

  lemma ProductDivides(a: nat, b: nat)
    requires a > 0
    ensures Divides(a, a * b)
  {
    Divided(a * b, a, b, 0);
  }

  /** Of all factorisations into two numbers, the grid's is the closest to a square. */
  lemma MostSquare(value: nat, factor: nat, a: nat, b: nat)
    requires value > 0 && factor >= 1 && factor * factor <= value && Divides(factor, value)
    requires forall d: nat | d > factor && d * d <= value :: !Divides(d, value)
    requires a * b == value && a <= b
    ensures factor * (value / factor) == value
    ensures a <= factor <= value / factor <= b
  {
    ProductDivides(a, b);
    Scale(a, b, a);
    Cofactors(value, factor, value / factor, a, b);
  }

  lemma Cofactors(value: nat, factor: nat, q: nat, a: nat, b: nat)
    requires factor >= 1 && value == q * factor == a * b && factor * factor <= value && a <= factor
    ensures factor <= q <= b
  {
    if q < factor { Scale(q + 1, factor, factor); }
    if b < q { Scale(b + 1, q, factor); Scale(a, factor, b); }
  }

  // ---- Seeding

  /** The cell, by row and column group, that source row i falls into. */
  function Cell(i: nat, rows: nat, columns: nat): (nat, nat)
    requires rows > 0 && columns > 0
  {
    ((i / columns) % rows, i % columns)
  }

  /** Within a round, a source row falls into the cell with its number, read row by row. */
  lemma CellInRound(i: nat, rows: nat, columns: nat, cells: nat, round: nat, x: nat, y: nat)
    requires rows > 0 && columns > 0 && cells == rows * columns
    requires i == round * cells + (x * columns + y) && x < rows && y < columns
    ensures Cell(i, rows, columns) == (x, y)
  {
    Regroup(round, rows, columns, x);
    Divided(i, columns, round * rows + x, y);
    Divided(round * rows + x, rows, round, x);
  }

  lemma PlaceInRound(t: nat, rows: nat, columns: nat) returns (x: nat, y: nat)
    requires rows > 0 && columns > 0 && t < rows * columns
    ensures t == x * columns + y && x < rows && y < columns
  {
    x, y := t / columns, t % columns;
    if x >= rows { Scale(rows, x, columns); }
  }

  lemma PlacesDiffer(u: nat, v: nat, x: nat, y: nat, columns: nat)
    requires columns > 0 && v < columns && y < columns
    ensures u * columns + v == x * columns + y <==> u == x && v == y
  {
    if u * columns + v == x * columns + y {
      Divided(u * columns + v, columns, u, v);
      Divided(u * columns + v, columns, x, y);
    }
  }

  /** Source rows go through the cells in reading order, over and over. */
  lemma CellsInOrder(i: nat, rows: nat, columns: nat, cells: nat, u: nat, v: nat)
    requires rows > 0 && columns > 0 && cells == rows * columns > 0 && u < rows && v < columns
    ensures Cell(i, rows, columns) == (u, v) <==> i % cells == u * columns + v
  {
    var round, t := Divide(i, cells);
    var x, y := PlaceInRound(t, rows, columns);
    CellInRound(i, rows, columns, cells, round, x, y);
    PlacesDiffer(u, v, x, y, columns);
  }

  lemma PlaceIsACell(rows: nat, columns: nat, cells: nat, u: nat, v: nat)
    requires cells == rows * columns && u < rows && v < columns
    ensures u * columns + v < cells
  {
    Scale(u + 1, rows, columns);
    assert (u + 1) * columns == u * columns + columns;
  }

  lemma Regroup(round: nat, rows: nat, columns: nat, x: nat)
    ensures round * (rows * columns) + x * columns == (round * rows + x) * columns
  {
  }

  /** How many of the first `total` source rows fall into a cell. */
  function Hits(total: nat, rows: nat, columns: nat, cell: (nat, nat)): nat
    requires rows > 0 && columns > 0
  {
    if total == 0 then 0
    else Hits(total - 1, rows, columns, cell) + if Cell(total - 1, rows, columns) == cell then 1 else 0
  }

  lemma NextOf(n: nat, k: nat)
    requires k > 0
    ensures if n % k == k - 1 then (n + 1) / k == n / k + 1 && (n + 1) % k == 0
            else (n + 1) / k == n / k && (n + 1) % k == n % k + 1
  {
    var (q, r) := (n / k, n % k);
    assert n == q * k + r;
    if r == k - 1 {
      assert (q + 1) * k == q * k + k;
      Divided(n + 1, k, q + 1, 0);
    } else {
      Divided(n + 1, k, q, r + 1);
    }
  }

  /** One source row from every full round, and one more when the last round gets to place p. */
  function Share(total: nat, cells: nat, p: nat): nat
    requires cells > 0
  {
    total / cells + if p < total % cells then 1 else 0
  }

  lemma ShareGrows(n: nat, cells: nat, p: nat)
    requires p < cells
    ensures Share(n + 1, cells, p) == Share(n, cells, p) + if n % cells == p then 1 else 0
  {
    NextOf(n, cells);
  }

  /** A cell that every round gets to at place p gets its share of the source rows. */
  lemma {:induction false} HitsAre(total: nat, rows: nat, columns: nat, cells: nat, cell: (nat, nat), p: nat)
    requires rows > 0 && columns > 0 && p < cells
    requires forall i: nat :: Cell(i, rows, columns) == cell <==> i % cells == p
    ensures Hits(total, rows, columns, cell) == Share(total, cells, p)
  {
    if total == 0 {
      Divided(0, cells, 0, 0);
    } else {
      HitsAre(total - 1, rows, columns, cells, cell, p);
      ShareGrows(total - 1, cells, p);
    }
  }

  /** A cell gets one source row from every full round, and one more when the last round gets to it. */
  lemma HitsPerRound(total: nat, rows: nat, columns: nat, cells: nat, u: nat, v: nat)
    requires rows > 0 && columns > 0 && cells == rows * columns > 0 && u < rows && v < columns
    ensures Hits(total, rows, columns, (u, v)) == Share(total, cells, u * columns + v)
  {
    PlaceIsACell(rows, columns, cells, u, v);
    forall i: nat ensures Cell(i, rows, columns) == (u, v) <==> i % cells == u * columns + v {
      CellsInOrder(i, rows, columns, cells, u, v);
    }
    HitsAre(total, rows, columns, cells, (u, v), u * columns + v);
  }

  /**
   With at least as many source rows as cells, every cell is hit, and no cell more than once more often than another.
   */
  lemma CoversEvenly(total: nat, rows: nat, columns: nat, u: nat, v: nat, x: nat, y: nat)
    requires rows > 0 && columns > 0 && total >= rows * columns > 0
    requires u < rows && v < columns && x < rows && y < columns
    ensures Hits(total, rows, columns, (u, v)) >= 1
    ensures -1 <= Hits(total, rows, columns, (u, v)) - Hits(total, rows, columns, (x, y)) <= 1
  {
    var cells := rows * columns;
    OneRound(total, cells);
    HitsPerRound(total, rows, columns, cells, u, v);
    HitsPerRound(total, rows, columns, cells, x, y);
  }

  lemma OneRound(total: nat, cells: nat)
    requires 0 < cells <= total
    ensures total / cells >= 1
  {
    assert total == total / cells * cells + total % cells;
  }

  /** The start of `execute_tabulate`: the grid for that many cells, refused when the source rows cannot cover it. */
  method SeedGrid(sourceRows: nat, cells: nat) returns (grid: Option<(nat, nat)>)
    requires cells > 0
    ensures grid.None? <==> sourceRows < cells
    ensures grid.Some? ==>
              var (rows, columns) := grid.value;
              && rows * columns == cells && 1 <= rows <= columns
              && (forall a: nat, b: nat | a * b == cells && a <= b :: a <= rows && columns <= b)
              && (forall u: nat, v: nat | u < rows && v < columns :: Hits(sourceRows, rows, columns, (u, v)) >= 1)
              && (forall u: nat, v: nat, x: nat, y: nat | u < rows && v < columns && x < rows && y < columns ::
                    Hits(sourceRows, rows, columns, (u, v)) <= Hits(sourceRows, rows, columns, (x, y)) + 1)
  {
    if sourceRows < cells { return None; }
    var rows := BalancedFactor(cells);
    var columns := cells / rows;
    MostSquare(cells, rows, 1, cells);
    assert rows * columns == cells;
    forall a: nat, b: nat | a * b == cells && a <= b ensures a <= rows && columns <= b {
      MostSquare(cells, rows, a, b);
    }
    forall u: nat, v: nat | u < rows && v < columns ensures Hits(sourceRows, rows, columns, (u, v)) >= 1 {
      CoversEvenly(sourceRows, rows, columns, u, v, u, v);
    }
    forall u: nat, v: nat, x: nat, y: nat | u < rows && v < columns && x < rows && y < columns
      ensures Hits(sourceRows, rows, columns, (u, v)) <= Hits(sourceRows, rows, columns, (x, y)) + 1
    {
      CoversEvenly(sourceRows, rows, columns, u, v, x, y);
    }
    grid := Some((rows, columns));
  }
}

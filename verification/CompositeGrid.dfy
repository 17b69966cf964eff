/** The composite grid: how many columns and rows, and where each tile goes. */
module CompositeGrid {

  datatype Rect = Rect(left: int, top: int, width: int, height: int)

  predicate Inside(r: Rect, width: int, height: int) {
    0 <= r.left && r.left + r.width <= width && 0 <= r.top && r.top + r.height <= height
  }

  predicate Apart(a: Rect, b: Rect) {
    || a.left + a.width <= b.left || b.left + b.width <= a.left
    || a.top + a.height <= b.top || b.top + b.height <= a.top
  }

  // ---- Products and quotients ----

  lemma ProductGrows(a: nat, b: nat, c: nat)
    requires a <= b
    ensures a * c <= b * c
  {
  }

  lemma FactorBelow(a: nat, b: nat, c: nat)
    requires a * c < b * c
    ensures a < b
  {
    if b <= a {
      ProductGrows(b, a, c);
    }
  }

  lemma Quotient(x: nat, d: nat)
    requires d > 0
    ensures x == (x / d) * d + x % d && 0 <= x / d && 0 <= x % d < d
  {
    assert (x / d) * d == d * (x / d);
  }

  // ---- Columns and rows ----

  lemma NextSquare(n: nat, c: nat)
    requires c * c == n
    ensures n + 1 <= (c + 1) * (c + 1)
  {
    assert (c + 1) * (c + 1) == c * c + c + c + 1;
  }

  /** The square root of n, rounded up. */
  function Columns(n: nat): (c: nat)
    ensures n <= c * c
    ensures n > 0 ==> c > 0 && (c - 1) * (c - 1) < n
  {
    if n == 0 then 0
    else
      var c := Columns(n - 1);
      if n <= c * c then c
      else
        NextSquare(n - 1, c);
        c + 1
  }

  lemma SquareBelow(a: nat, b: nat)
    requires a * a < b * b
    ensures a < b
  {
    if b <= a {
      ProductGrows(b, a, b);
      ProductGrows(b, a, a);
    }
  }

  /** No smaller square holds n. */
  lemma ColumnsAreLeast(n: nat, d: nat)
    requires n <= d * d
    ensures Columns(n) <= d
  {
    if n > 0 {
      SquareBelow(Columns(n) - 1, d);
    }
  }

  lemma CeilingDivision(n: nat, c: nat)
    requires c > 0
    ensures var r := (n + c - 1) / c;
            (r - 1) * c < n <= r * c && 0 <= r
  {
    Quotient(n + c - 1, c);
    var r := (n + c - 1) / c;
    assert (r - 1) * c == r * c - c;
  }

  /** n divided by the columns, rounded up. */
  function Rows(n: nat): (r: nat)
    requires n > 0
    ensures r > 0
  {
    CeilingDivision(n, Columns(n));
    FactorBelow(0, (n + Columns(n) - 1) / Columns(n), Columns(n));
    (n + Columns(n) - 1) / Columns(n)
  }

  /** Rows never outnumber columns, and the last row is the first one that n does not
      overflow. */
  lemma GridFits(n: nat)
    requires n > 0
    ensures 0 < Columns(n) && 0 < Rows(n) <= Columns(n)
    ensures (Rows(n) - 1) * Columns(n) < n <= Rows(n) * Columns(n)
  {
    var c, r := Columns(n), Rows(n);
    CeilingDivision(n, c);
    FactorBelow(r - 1, c, c);
  }

  // ---- Tiles ----

  /** The i-th of count equal shares of a side; what does not divide is left over. */
  function Share(i: nat, count: nat, size: nat): (start: nat)
    requires count > 0
    ensures i < count ==> start + size / count <= size
  {
    Quotient(size, count);
    if i < count then
      ProductGrows(i + 1, count, size / count);
      assert (i + 1) * (size / count) == i * (size / count) + size / count;
      i * (size / count)
    else i * (size / count)
  }

  lemma SharesApart(i: nat, j: nat, count: nat, size: nat)
    requires count > 0 && i < j
    ensures Share(i, count, size) + size / count <= Share(j, count, size)
  {
    ProductGrows(i + 1, j, size / count);
    assert (i + 1) * (size / count) == i * (size / count) + size / count;
  }

  /** The tile of the k-th input, counting along the rows. */
  function Tile(n: nat, width: nat, height: nat, k: nat): Rect
    requires n > 0
  {
    var c, r := Columns(n), Rows(n);
    Quotient(k, c);
    Rect(Share(k % c, c, width), Share(k / c, r, height), width / c, height / r)
  }

  lemma CellOf(n: nat, k: nat)
    requires k < n
    ensures Columns(n) > 0 && Rows(n) > 0
    ensures 0 <= k % Columns(n) < Columns(n) && 0 <= k / Columns(n) < Rows(n)
  {
    GridFits(n);
    Quotient(k, Columns(n));
    FactorBelow(k / Columns(n), Rows(n), Columns(n));
  }

  /** Each of the first n tiles is inside the output. */
  lemma TileInside(n: nat, width: nat, height: nat, k: nat)
    requires k < n
    ensures Inside(Tile(n, width, height, k), width, height)
  {
    CellOf(n, k);
  }

  /** Different tiles do not overlap. */
  lemma TilesApart(n: nat, width: nat, height: nat, j: nat, k: nat)
    requires n > 0 && j != k
    ensures Apart(Tile(n, width, height, j), Tile(n, width, height, k))
  {
    GridFits(n);
    var c, r := Columns(n), Rows(n);
    Quotient(j, c);
    Quotient(k, c);
    if j % c < k % c {
      SharesApart(j % c, k % c, c, width);
    } else if k % c < j % c {
      SharesApart(k % c, j % c, c, width);
    } else if j / c < k / c {
      SharesApart(j / c, k / c, r, height);
    } else if k / c < j / c {
      SharesApart(k / c, j / c, r, height);
    }
  }

  lemma ShareIsVisible(count: nat, size: nat)
    requires count > 0
    ensures size / count > 0 <==> count <= size
  {
    Quotient(size, count);
    if size / count > 0 {
      ProductGrows(1, size / count, count);
    }
  }

  /** Tiles show anything at all if and only if the output has a pixel per column and row. */
  lemma TilesAreVisible(n: nat, width: nat, height: nat, k: nat)
    requires n > 0
    ensures var t := Tile(n, width, height, k);
            t.width > 0 && t.height > 0 <==> Columns(n) <= width && Rows(n) <= height
  {
    GridFits(n);
    ShareIsVisible(Columns(n), width);
    ShareIsVisible(Rows(n), height);
  }
}

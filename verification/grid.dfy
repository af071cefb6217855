/** The cell grid of source/maze.cpp (class Maze) and source/grid.cpp (class Grid, the same
    code under another name): `hcells * vcells` unsigned cells stored row by row. */
module Grids {
  import opened Base

  /** Cell values of source/maze.hpp: the two reserved values at the top of the range. */
  const PATH: u32 := 0xFFFF_FFFE
  const WALL: u32 := 0xFFFF_FFFF
  /** The colours the solvers paint cells with. */
  const ACTIVE: u32 := 0xcc241d
  const FOUND: u32 := 0x076678
  const DEAD: u32 := 0xfabd2f

  /** What ClearPaths makes of one cell. */
  function ClearCell(c: u32): u32
  {
    if c == WALL then WALL else PATH
  }

  /** The cell contents after ClearPaths, as a function of the contents before. */
  function Cleared(s: seq<u32>): (r: seq<u32>)
    ensures |r| == |s|
  {
    seq(|s|, i requires 0 <= i < |s| => ClearCell(s[i]))
  }

  /** A second ClearPaths changes nothing. */
  lemma ClearedIdempotent(s: seq<u32>)
    ensures Cleared(Cleared(s)) == Cleared(s)
  {
  }

  /** ClearPaths keeps exactly the walls, and every other cell becomes PATH. */
  lemma ClearedKeepsExactlyWalls(s: seq<u32>)
    ensures forall i :: 0 <= i < |s| ==> (Cleared(s)[i] == WALL <==> s[i] == WALL)
    ensures forall i :: 0 <= i < |s| ==> (Cleared(s)[i] == PATH <==> s[i] != WALL)
  {
  }

  /** The offset of the first cell of row `y` when rows are `h` cells long. Counting rows
      one at a time keeps offsets free of multiplication; RowStartIsProduct relates it to
      the product `y * h` the code computes. */
  function RowStart(y: nat, h: nat): nat
  {
    if y == 0 then 0 else RowStart(y - 1, h) + h
  }

  lemma {:induction false} RowStartIsProduct(y: nat, h: nat)
    ensures RowStart(y, h) == y * h
  {
    if y > 0 {
      RowStartIsProduct(y - 1, h);
      assert (y - 1) * h + h == y * h;
    }
  }

  /** A later row starts at least one full row further on. */
  lemma {:induction false} RowStartGrows(y0: nat, y1: nat, h: nat)
    requires y0 < y1
    ensures RowStart(y0, h) + h <= RowStart(y1, h)
    decreases y1
  {
    if y0 + 1 < y1 {
      RowStartGrows(y0, y1 - 1, h);
    }
  }

  /** A product with a positive factor of at least one is at least the other factor. */
  lemma {:induction false} ProductAtLeast(d: int, h: nat)
    requires d >= 1
    ensures d * h >= h
  {
    var e: nat := d - 1;
    assert d * h == e * h + h;
  }

  /** Division facts for row-major indexing: `y * h + x` with `x < h` splits back into
      quotient `y` and remainder `x`. */
  lemma {:induction false} DivModOfRowMajor(x: nat, y: nat, h: nat)
    requires x < h
    ensures (y * h + x) / h == y && (y * h + x) % h == x
  {
    var i := y * h + x;
    var q, r := i / h, i % h;
    assert i == q * h + r && 0 <= r < h;
    var d := q - y;
    assert d * h == q * h - y * h;
    assert d * h == x - r;
    if d >= 1 {
      ProductAtLeast(d, h);
      assert false;
    } else if d <= -1 {
      ProductAtLeast(-d, h);
      assert false;
    }
  }

  class Grid {
    const hcells: nat
    const vcells: nat
    const cells: array<u32>

    /** The cell buffer holds exactly `hcells * vcells` cells, and that count fits the
        unsigned loop counters of Fill and ClearPaths. */
    ghost predicate Valid()
    {
      cells.Length == hcells * vcells <= UINT_MAX
    }

    /** The constructor allocates `h * v` cells and fills them with PATH. */
    constructor (h: nat, v: nat)
      requires h * v <= UINT_MAX
      ensures hcells == h && vcells == v && Valid()
      ensures fresh(cells)
      ensures forall i :: 0 <= i < cells.Length ==> cells[i] == PATH
    {
      hcells, vcells := h, v;
      cells := new u32[h * v];
      new;
      Fill(PATH);
    }

    /** Both coordinates in range; the unsigned comparison only runs once the coordinate is
        known to be non-negative. */
    predicate PointInBounds(x: int, y: int)
    {
      x >= 0 && y >= 0 && x < hcells && y < vcells
    }

    /** The offset `operator()` addresses, row `y` then column `x`. */
    function Index(x: int, y: int): (i: nat)
      requires PointInBounds(x, y)
      ensures i < hcells * vcells
    {
      RowStartGrows(y, vcells, hcells);
      RowStartIsProduct(vcells, hcells);
      RowStart(y, hcells) + x
    }

    /** The offset is `y * hcells + x`, and it splits back into the point: column
        `i % hcells`, row `i / hcells`. */
    lemma IndexIsRowMajor(x: int, y: int)
      requires PointInBounds(x, y)
      ensures Index(x, y) == y * hcells + x
      ensures Index(x, y) % hcells == x && Index(x, y) / hcells == y
    {
      RowStartIsProduct(y, hcells);
      DivModOfRowMajor(x, y, hcells);
    }

    /** Distinct points have distinct offsets. */
    lemma IndexInjective(x0: int, y0: int, x1: int, y1: int)
      requires PointInBounds(x0, y0) && PointInBounds(x1, y1)
      ensures Index(x0, y0) == Index(x1, y1) <==> x0 == x1 && y0 == y1
    {
      if y0 < y1 {
        RowStartGrows(y0, y1, hcells);
      } else if y1 < y0 {
        RowStartGrows(y1, y0, hcells);
      }
    }

    /** Reading through `operator()`. */
    function Cell(x: int, y: int): u32
      requires Valid() && PointInBounds(x, y)
      reads cells
    {
      cells[Index(x, y)]
    }

    /** Writing through `operator()`: only the addressed cell changes. */
    method Set(x: int, y: int, v: u32)
      requires Valid() && PointInBounds(x, y)
      modifies cells
      ensures cells[..] == old(cells[..])[Index(x, y) := v]
      ensures Cell(x, y) == v
    {
      cells[Index(x, y)] := v;
    }

    /** Fill writes `v` to every cell, first to last. */
    method Fill(v: u32)
      requires cells.Length == hcells * vcells
      modifies cells
      ensures forall i :: 0 <= i < cells.Length ==> cells[i] == v
    {
      var i := 0;
      while i < hcells * vcells
        invariant 0 <= i <= cells.Length
        invariant forall k :: 0 <= k < i ==> cells[k] == v
      {
        cells[i] := v;
        i := i + 1;
      }
    }

    /** ClearPaths turns every non-wall cell back into PATH. */
    method ClearPaths()
      requires Valid()
      modifies cells
      ensures cells[..] == Cleared(old(cells[..]))
    {
      var i := 0;
      while i < hcells * vcells
        invariant 0 <= i <= cells.Length
        invariant forall k :: 0 <= k < i ==> cells[k] == ClearCell(old(cells[k]))
        invariant forall k :: i <= k < cells.Length ==> cells[k] == old(cells[k])
      {
        cells[i] := if cells[i] == WALL then WALL else PATH;
        i := i + 1;
      }
      assert cells[..] == Cleared(old(cells[..]));
    }
  }
}

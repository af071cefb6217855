/** The earlier revision's grid of grid.cpp (struct grid_t): one byte per cell, stored row by
    row, drawn inside a border on screen, with the pixel arithmetic between screen points and
    cells. */
module LegacyGrids {
  import Grids

  /** C `unsigned char`. */
  newtype u8 = x: int | 0 <= x < 0x100

  /** cell_state_t of source/grid.hpp: a zero-filled grid is all walls. */
  const WALL: u8 := 0
  const PATH: u8 := 1
  const VISITED: u8 := 2
  const CORRECT: u8 := 3

  function Abs(a: int): nat
  {
    if a < 0 then -a else a
  }

  /** C integer division on `int`, which truncates toward zero. */
  function CDiv(a: int, b: int): int
    requires b != 0
  {
    var q := Abs(a) / Abs(b);
    if (a < 0) != (b < 0) then -q else q
  }

  /** The C quotient leaves a remainder smaller than the divisor in magnitude that takes the
      sign of the dividend, as C requires; Dafny's own `/` rounds down instead, so the two
      differ on a negative dividend that the divisor does not divide. */
  lemma {:induction false} CDivTruncates(a: int, b: int)
    requires b != 0
    ensures var r := a - b * CDiv(a, b);
            Abs(r) < Abs(b) && (r == 0 || (r < 0) == (a < 0))
    ensures CDiv(-1, 2) == 0 && -1 / 2 == -1
  {
    var q := Abs(a) / Abs(b);
    var m := Abs(a) % Abs(b);
    assert Abs(a) == Abs(b) * q + m && 0 <= m < Abs(b);
    var r := a - b * CDiv(a, b);
    if a >= 0 && b > 0 {
      assert r == m;
    } else if a >= 0 {
      assert b * CDiv(a, b) == Abs(b) * q;
      assert r == m;
    } else if b > 0 {
      assert b * CDiv(a, b) == -(Abs(b) * q);
      assert r == -m;
    } else {
      assert b * CDiv(a, b) == -(Abs(b) * q);
      assert r == -m;
    }
  }

  /** Dividing an exact multiple gives the factor back, whatever the signs. */
  lemma {:induction false} CDivExact(k: int, b: int)
    requires b != 0
    ensures CDiv(k * b, b) == k
  {
    var p := Abs(k) * Abs(b);
    assert Abs(k * b) == p && (k == 0 || ((k * b < 0) != (b < 0) <==> k < 0)) by {
      if k < 0 && b < 0 {
        assert k * b == p;
      } else if k < 0 {
        assert k * b == -p;
      } else if b < 0 {
        assert k * b == -p;
      } else {
        assert k * b == p;
      }
    }
    assert p / Abs(b) == Abs(k) by {
      Grids.DivModOfRowMajor(0, Abs(k), Abs(b));
    }
  }

  /** A quotient by a positive divisor of a value below `n` times it is below `n`. */
  lemma {:induction false} QuotientBelow(d: int, c: int, n: int)
    requires 0 <= d < n * c && c > 0
    ensures 0 <= d / c < n
  {
    var q := d / c;
    assert d == c * q + d % c && 0 <= d % c < c;
  }

  /** SDL_Rect. */
  datatype Rect = Rect(x: int, y: int, w: int, h: int)

  class GridT {
    var cellRect: Rect
    var border: int
    const hcells: int
    const vcells: int
    var boundary: Rect
    const cells: array<u8>

    /** The boundary frames the cells and both borders, and the buffer holds a byte per cell. */
    ghost predicate Valid()
      reads this
    {
      hcells >= 0 && vcells >= 0 && cells.Length == hcells * vcells &&
      boundary.w == hcells * cellRect.w + 2 * border && boundary.h == vcells * cellRect.h + 2 * border
    }

    /** The constructor: cell size, counts and border as given, the boundary at the origin and
        sized to the cells plus both borders, and every cell zero, that is WALL. */
    constructor (cw: int, ch: int, hc: int, vc: int, bo: int)
      requires hc >= 0 && vc >= 0
      ensures cellRect.w == cw && cellRect.h == ch && border == bo && hcells == hc && vcells == vc
      ensures boundary == Rect(0, 0, hc * cw + 2 * bo, vc * ch + 2 * bo)
      ensures fresh(cells) && Valid()
      ensures forall i :: 0 <= i < cells.Length ==> cells[i] == WALL
    {
      cellRect := Rect(0, 0, cw, ch);
      border := bo;
      hcells := hc;
      vcells := vc;
      boundary := Rect(0, 0, hc * cw + 2 * bo, vc * ch + 2 * bo);
      cells := new u8[hc * vc](_ => WALL);
    }

    predicate InBounds(x: int, y: int)
    {
      0 <= x < hcells && 0 <= y < vcells
    }

    /** The offset `y * hcells + x` of the cell lambdas. */
    function Index(x: int, y: int): (i: nat)
      requires InBounds(x, y)
      ensures i < hcells * vcells && i == y * hcells + x
    {
      Grids.RowStartGrows(y, vcells, hcells);
      Grids.RowStartIsProduct(vcells, hcells);
      Grids.RowStartIsProduct(y, hcells);
      Grids.RowStart(y, hcells) + x
    }

    /** Distinct cells have distinct offsets. */
    lemma IndexInjective(x0: int, y0: int, x1: int, y1: int)
      requires InBounds(x0, y0) && InBounds(x1, y1)
      ensures Index(x0, y0) == Index(x1, y1) <==> x0 == x1 && y0 == y1
    {
      if y0 < y1 {
        Grids.RowStartGrows(y0, y1, hcells);
      } else if y1 < y0 {
        Grids.RowStartGrows(y1, y0, hcells);
      }
    }

    /** `center`: the boundary is placed so that it is centred in a w by h window, with C
        division; nothing else changes. */
    method Center(w: int, h: int)
      requires Valid()
      modifies this
      ensures boundary == old(boundary).(x := CDiv(w - old(boundary).w, 2), y := CDiv(h - old(boundary).h, 2))
      ensures cellRect == old(cellRect) && border == old(border) && Valid()
    {
      boundary := boundary.(x := CDiv(w - boundary.w, 2));
      boundary := boundary.(y := CDiv(h - boundary.h, 2));
    }

    /** `screen_to_grid`: the cell a screen point falls in, and whether the point lies strictly
        inside the area within the border. */
    function ScreenToGrid(sx: int, sy: int): (bool, int, int)
      reads this
      requires cellRect.w != 0 && cellRect.h != 0
    {
      (sx > boundary.x + border && sx < boundary.x + boundary.w - border &&
       sy > boundary.y + border && sy < boundary.y + boundary.h - border,
       CDiv(sx - boundary.x - border, cellRect.w),
       CDiv(sy - boundary.y - border, cellRect.h))
    }

    /** `grid_to_screen`: the top-left pixel of a cell, and whether the cell is on the grid. */
    function GridToScreen(gx: int, gy: int): (bool, int, int)
      reads this
    {
      (gx >= 0 && gx < hcells && gy >= 0 && gy < vcells,
       boundary.x + border + gx * cellRect.w,
       boundary.y + border + gy * cellRect.h)
    }

    /** With non-zero cell sizes, the point grid_to_screen gives for any cell maps back to that
        cell, and grid_to_screen reports exactly the cells on the grid. */
    lemma ScreenRoundTrip(gx: int, gy: int)
      requires cellRect.w != 0 && cellRect.h != 0
      ensures var (_, sx, sy) := GridToScreen(gx, gy);
              ScreenToGrid(sx, sy).1 == gx && ScreenToGrid(sx, sy).2 == gy
      ensures GridToScreen(gx, gy).0 <==> InBounds(gx, gy)
    {
      CDivExact(gx, cellRect.w);
      CDivExact(gy, cellRect.h);
    }

    /** A point screen_to_grid accepts falls in a cell on the grid, given the boundary the
        constructor sets up and positive cell sizes. */
    lemma ScreenToGridInBounds(sx: int, sy: int)
      requires Valid() && cellRect.w > 0 && cellRect.h > 0 && ScreenToGrid(sx, sy).0
      ensures InBounds(ScreenToGrid(sx, sy).1, ScreenToGrid(sx, sy).2)
    {
      QuotientBelow(sx - boundary.x - border, cellRect.w, hcells);
      QuotientBelow(sy - boundary.y - border, cellRect.h, vcells);
    }

    /** The comparisons are strict: the top-left pixel of cell (0, 0), which grid_to_screen
        returns for it, maps to that cell but is reported as outside the grid. */
    lemma ScreenToGridRejectsFirstPixel()
      requires Valid() && cellRect.w > 0 && cellRect.h > 0 && hcells >= 1 && vcells >= 1
      ensures var (ok, sx, sy) := GridToScreen(0, 0);
              ok && !ScreenToGrid(sx, sy).0 && ScreenToGrid(sx, sy).1 == 0 && ScreenToGrid(sx, sy).2 == 0
    {
    }
  }

  /** The margins `center` leaves: with C division the odd pixel of an odd surplus goes to
      the right (or bottom) margin, and an oversized grid overhangs by at most one pixel more
      on that side. */
  lemma CenterSplitsMargins(window: int, size: int)
    ensures var left := CDiv(window - size, 2);
            var right := window - size - left;
            (window >= size ==> 0 <= left <= right <= left + 1) &&
            (window < size ==> right + 1 >= left >= right && left <= 0)
  {
  }
}

/** The maze generators of source/generator.cpp. A Generator owns a frame stack and an
    edge graph and works on a maze it is given; each Step does a bounded amount of work
    and returns false once the maze is finished, after which the generator resets. */
module Generators {
  import opened Base
  import opened Grids
  import opened Stacks
  import opened Rng
  import opened Choices
  import opened Lattice
  import opened Prims

  datatype Kind = Random | RandomizedDFS | RecursiveDivision | RandomizedKruskal | RandomizedPrim

  /** The stack item `Sitem`, a union of the depth-first frame and the division frame. */
  datatype Frame =
    | DfsFrame(x: int, y: int, at: int, choice: seq<Direction>)
    | DivFrame(x: int, y: int, w: int, h: int, vertical: bool)

  /** The step a depth-first frame takes for each direction: two cells left, right, down
      (towards row 0) or up. */
  function DX(d: Direction): int
  {
    match d
    case L => -2
    case R => 2
    case B => 0
    case T => 0
  }

  function DY(d: Direction): int
  {
    match d
    case L => 0
    case R => 0
    case B => -2
    case T => 2
  }

  /** A step moves along exactly one axis, by two cells, so it keeps the parity of both
      coordinates and never stays in place. */
  lemma StepKeepsParity(x: int, y: int, d: Direction)
    ensures (x + DX(d)) % 2 == x % 2 && (y + DY(d)) % 2 == y % 2
    ensures (DX(d) == 0) != (DY(d) == 0)
    ensures x + DX(d) / 2 == x || y + DY(d) / 2 == y
  {
  }

  /** The value Random gives a cell for a draw: WALL when `draw & 3` is zero (one draw in
      four), PATH otherwise. `& 3` on an unsigned value is its remainder modulo 4. */
  function RandomCell(d: u32): (c: u32)
    ensures c == WALL || c == PATH
    ensures c == WALL <==> d as int % 4 == 0
  {
    if d as int % 4 == 0 then WALL else PATH
  }

  /** `r | 1` on a non-negative value: the odd number r or r + 1. */
  function OrOne(r: nat): (o: nat)
    ensures o % 2 == 1 && r <= o <= r + 1
  {
    if r % 2 == 0 then r + 1 else r
  }

  /** `r & ~1` on a non-negative value: the even number r - 1 or r. */
  function AndNotOne(r: nat): (o: nat)
    ensures o % 2 == 0 && r - 1 <= o <= r
  {
    r - r % 2
  }

  /** setnext of the depth-first generator: the cell two steps away in direction d can be
      carved into when it lies in the maze and is not PATH yet. */
  predicate Carvable(g: Grid, x0: int, y0: int, d: Direction)
    requires g.Valid()
    reads g.cells
  {
    g.PointInBounds(x0 + DX(d), y0 + DY(d)) && g.Cell(x0 + DX(d), y0 + DY(d)) != PATH
  }

  /** Carvable on the cells `s` instead of the grid's current ones. */
  predicate CarvableIn(g: Grid, s: seq<u32>, x0: int, y0: int, d: Direction)
    requires |s| == g.hcells * g.vcells
  {
    g.PointInBounds(x0 + DX(d), y0 + DY(d)) && s[g.Index(x0 + DX(d), y0 + DY(d))] != PATH
  }

  /** One step of the depth-first generator on the top frame of `st0`, taking the cells
      from `s0` to `s1` and the stack to `st1`. The frame's cell becomes PATH. Either the
      frame is popped, and every direction from its cursor on is closed on the new cells;
      or the first carvable direction d from the cursor is taken: every direction passed
      over was closed, the cursor is written back past d, and a frame with cursor 0 and
      four different directions is pushed on the cell two steps along d, which was not
      PATH. The cell in between becomes PATH too, and no other cell changes. */
  ghost predicate DfsStepped(g: Grid, s0: seq<u32>, s1: seq<u32>, st0: seq<Frame>, st1: seq<Frame>)
    requires |s0| == |s1| == g.hcells * g.vcells
    requires st0 != [] && DfsFramePlaced(st0[|st0| - 1], g.hcells, g.vcells)
  {
    var n := |st0|;
    var f := st0[n - 1];
    (|st1| == n - 1 || |st1| == n + 1) && st1[..n - 1] == st0[..n - 1] &&
    s1[g.Index(f.x, f.y)] == PATH &&
    (|st1| == n - 1 ==>
       s1 == s0[g.Index(f.x, f.y) := PATH] &&
       forall k :: f.at <= k < 4 ==> !CarvableIn(g, s1, f.x, f.y, f.choice[k])) &&
    (|st1| == n + 1 ==>
       var top, nf := st1[n - 1], st1[n];
       top.DfsFrame? && f.at < top.at <= 4 && top == f.(at := top.at) &&
       (forall k :: f.at <= k < top.at - 1 ==> !CarvableIn(g, s0, f.x, f.y, f.choice[k])) &&
       var d := f.choice[top.at - 1];
       nf.DfsFrame? && nf.x == f.x + DX(d) && nf.y == f.y + DY(d) && nf.at == 0 && Distinct4(nf.choice) &&
       g.PointInBounds(nf.x, nf.y) && s0[g.Index(nf.x, nf.y)] != PATH &&
       g.PointInBounds(f.x + DX(d) / 2, f.y + DY(d) / 2) &&
       s1 == s0[g.Index(f.x, f.y) := PATH][g.Index(f.x + DX(d) / 2, f.y + DY(d) / 2) := PATH])
  }

  /** The carve and the stack update of a depth-first step, each as its own method states
      it, together make a DfsStepped step. */
  lemma DfsSteppedFrom(g: Grid, s0: seq<u32>, s1: seq<u32>, st0: seq<Frame>, st1: seq<Frame>, f: Frame,
                       next: bool, cursor: int, d: Direction)
    requires |s0| == |s1| == g.hcells * g.vcells
    requires st0 != [] && f == st0[|st0| - 1] && DfsFramePlaced(f, g.hcells, g.vcells)
    requires DfsCarved(g, s0, s1, f, next, cursor, d)
    requires |st1| == if next then |st0| + 1 else |st0| - 1
    requires st1[..|st0| - 1] == st0[..|st0| - 1]
    requires next ==> st1[|st0| - 1] == f.(at := cursor) &&
                      var nf := st1[|st0|];
                      nf.DfsFrame? && nf.x == f.x + DX(d) && nf.y == f.y + DY(d) && nf.at == 0 && Distinct4(nf.choice)
    ensures DfsStepped(g, s0, s1, st0, st1)
  {
  }

  /** A depth-first frame sits on an even cell of an h by v maze, its cursor is within
      0..4 and its choice list holds four directions. */
  ghost predicate DfsFramePlaced(f: Frame, h: nat, v: nat)
  {
    f.DfsFrame? && 0 <= f.x < h && 0 <= f.y < v && f.x % 2 == 0 && f.y % 2 == 0 &&
    0 <= f.at <= 4 && |f.choice| == 4
  }

  /** A placed depth-first frame whose choice list names four different directions, so
      each of them once (DistinctCovers). */
  ghost predicate DfsFrameOk(f: Frame, h: nat, v: nat)
  {
    DfsFramePlaced(f, h, v) && Distinct4(f.choice)
  }

  /** Every frame of the stack is DfsFrameOk. The distinctness half is its own quantifier,
      which only a term naming a frame's list brings in. */
  ghost predicate DfsFramesOk(s: seq<Frame>, h: nat, v: nat)
  {
    (forall i :: 0 <= i < |s| ==> DfsFramePlaced(s[i], h, v)) &&
    forall i {:trigger Distinct4(s[i].choice)} :: 0 <= i < |s| && s[i].DfsFrame? ==> Distinct4(s[i].choice)
  }

  /** The setnext lambda of _stepRandomizedDFS: when the target qualifies, carve the cell
      between (x0, y0) and it, and report the target. */
  method SetNext(g: Grid, x0: int, y0: int, d: Direction) returns (ok: bool, x: int, y: int)
    requires g.Valid() && g.PointInBounds(x0, y0)
    modifies g.cells
    ensures x == x0 + DX(d) && y == y0 + DY(d)
    ensures ok == old(Carvable(g, x0, y0, d))
    ensures ok ==> g.cells[..] == old(g.cells[..])[g.Index(x0 + DX(d) / 2, y0 + DY(d) / 2) := PATH]
    ensures !ok ==> g.cells[..] == old(g.cells[..])
  {
    x, y := x0 + DX(d), y0 + DY(d);
    if !g.PointInBounds(x, y) || g.Cell(x, y) == PATH {
      return false, x, y;
    }
    g.Set(x0 + DX(d) / 2, y0 + DY(d) / 2, PATH);
    ok := true;
  }

  /** The loop of _stepRandomizedDFS: from the frame's cursor on, try each direction of
      its choice list until one can be carved or the list is exhausted; `cursor` is where
      the frame's cursor ends up and `d` the direction carved. */
  method ProbeChoices(g: Grid, f: Frame) returns (next: bool, nx: int, ny: int, cursor: int, d: Direction)
    requires g.Valid() && f.DfsFrame? && g.PointInBounds(f.x, f.y) && 0 <= f.at <= 4 && |f.choice| == 4
    modifies g.cells
    ensures f.at <= cursor <= 4
    ensures forall k :: f.at <= k < cursor - 1 ==> !CarvableIn(g, old(g.cells[..]), f.x, f.y, f.choice[k])
    ensures !next ==> cursor == 4 && g.cells[..] == old(g.cells[..])
    ensures !next && f.at < 4 ==> !CarvableIn(g, old(g.cells[..]), f.x, f.y, f.choice[3])
    ensures next ==> f.at < cursor && d == f.choice[cursor - 1]
    ensures next ==> nx == f.x + DX(d) && ny == f.y + DY(d) && CarvableIn(g, old(g.cells[..]), f.x, f.y, d)
    ensures next ==> g.cells[..] == old(g.cells[..])[g.Index(f.x + DX(d) / 2, f.y + DY(d) / 2) := PATH]
  {
    next, nx, ny, d := false, 0, 0, L;
    cursor := f.at;
    ghost var start := g.cells[..];
    while !next && cursor < 4
      invariant f.at <= cursor <= 4
      invariant forall k :: f.at <= k < cursor - 1 ==> !CarvableIn(g, start, f.x, f.y, f.choice[k])
      invariant !next ==> g.cells[..] == start
      invariant !next && f.at < cursor ==> !CarvableIn(g, start, f.x, f.y, f.choice[cursor - 1])
      invariant next ==> f.at < cursor && d == f.choice[cursor - 1]
      invariant next ==> nx == f.x + DX(d) && ny == f.y + DY(d) && CarvableIn(g, start, f.x, f.y, d)
      invariant next ==> g.cells[..] == start[g.Index(f.x + DX(d) / 2, f.y + DY(d) / 2) := PATH]
      decreases 4 - cursor
    {
      d := f.choice[cursor];
      assert Carvable(g, f.x, f.y, d) == CarvableIn(g, start, f.x, f.y, d);
      next, nx, ny := SetNext(g, f.x, f.y, d);
      cursor := cursor + 1;
    }
  }

  /** What the grid half of a depth-first step does to frame f, taking the cells from `s0`
      to `s1`: the frame's cell becomes PATH and the cursor only advances. Either no
      direction from the cursor on can be carved on the new cells, and no other cell
      changes; or `d`, the last direction tried, leads to an even cell in the maze that was
      not PATH, every direction passed over before it was closed, and exactly the cell
      between becomes PATH as well. */
  ghost predicate DfsCarved(g: Grid, s0: seq<u32>, s1: seq<u32>, f: Frame, next: bool, cursor: int, d: Direction)
    requires |s0| == |s1| == g.hcells * g.vcells && f.DfsFrame? && g.PointInBounds(f.x, f.y) && |f.choice| == 4
  {
    0 <= f.at <= cursor <= 4 && s1[g.Index(f.x, f.y)] == PATH &&
    (!next ==>
       cursor == 4 && s1 == s0[g.Index(f.x, f.y) := PATH] &&
       forall k :: f.at <= k < 4 ==> !CarvableIn(g, s1, f.x, f.y, f.choice[k])) &&
    (next ==>
       0 <= f.at < cursor && d == f.choice[cursor - 1] &&
       g.PointInBounds(f.x + DX(d), f.y + DY(d)) && (f.x + DX(d)) % 2 == f.x % 2 && (f.y + DY(d)) % 2 == f.y % 2 &&
       s0[g.Index(f.x + DX(d), f.y + DY(d))] != PATH &&
       (forall k :: f.at <= k < cursor - 1 ==> !CarvableIn(g, s0, f.x, f.y, f.choice[k])) &&
       g.PointInBounds(f.x + DX(d) / 2, f.y + DY(d) / 2) &&
       s1 == s0[g.Index(f.x, f.y) := PATH][g.Index(f.x + DX(d) / 2, f.y + DY(d) / 2) := PATH])
  }

  /** The grid half of _stepRandomizedDFS for frame f: mark the frame's cell PATH, then
      probe its remaining directions. */
  method DfsCarve(g: Grid, f: Frame) returns (next: bool, nx: int, ny: int, cursor: int, d: Direction)
    requires g.Valid() && f.DfsFrame? && g.PointInBounds(f.x, f.y)
    requires 0 <= f.at <= 4 && |f.choice| == 4
    modifies g.cells
    ensures DfsCarved(g, old(g.cells[..]), g.cells[..], f, next, cursor, d)
    ensures next ==> nx == f.x + DX(d) && ny == f.y + DY(d)
  {
    ghost var s0 := g.cells[..];
    g.Set(f.x, f.y, PATH);
    ghost var marked := g.cells[..];
    next, nx, ny, cursor, d := ProbeChoices(g, f);
    if next {
      forall k | f.at <= k < cursor - 1
        ensures !CarvableIn(g, s0, f.x, f.y, f.choice[k])
      {
        var e := f.choice[k];
        assert !CarvableIn(g, marked, f.x, f.y, e);
        if g.PointInBounds(f.x + DX(e), f.y + DY(e)) {
          g.IndexInjective(f.x, f.y, f.x + DX(e), f.y + DY(e));
        }
      }
      StepKeepsParity(f.x, f.y, d);
      g.IndexInjective(f.x, f.y, nx, ny);
    } else {
      forall k | f.at <= k < 4
        ensures !CarvableIn(g, g.cells[..], f.x, f.y, f.choice[k])
      {
        if k < 3 {
          assert k < cursor - 1;
        }
      }
    }
  }

  /** A point on a division line: for a vertical line `a` is its column and `b` runs along
      it; for a horizontal one `a` is its row. */
  function Px(vertical: bool, a: int, b: int): int { if vertical then a else b }
  function Py(vertical: bool, a: int, b: int): int { if vertical then b else a }

  /** The `next` lambda of _stepRecursiveDivision: the sub-region [x, w] x [y, h] becomes a
      frame only when both extents exceed 1, split across its longer side. */
  function SubRegion(x: int, w: int, y: int, h: int): (r: seq<Frame>)
    ensures |r| <= 1
    ensures r != [] <==> w - x > 1 && h - y > 1
    ensures r != [] ==> r[0] == DivFrame(x, y, w, h, w - x > h - y)
  {
    if w - x <= 1 || h - y <= 1 then [] else [DivFrame(x, y, w, h, w - x > h - y)]
  }

  /** A positive divisor no larger than the dividend leaves a positive quotient. */
  lemma QuotientPositive(a: int, b: int)
    requires 1 <= b <= a
    ensures a / b >= 1
  {
  }

  /** The regions on either side of the split `line` of region f, in push order. */
  function Children(f: Frame, line: int): seq<Frame>
    requires f.DivFrame?
  {
    if f.vertical then SubRegion(f.x, line - 1, f.y, f.h) + SubRegion(line + 1, f.w, f.y, f.h)
    else SubRegion(f.x, f.w, f.y, line - 1) + SubRegion(f.x, f.w, line + 1, f.h)
  }

  /** The regions pushed for an odd split line inside a valid region are valid regions
      inside it, and each is strictly smaller. */
  lemma ChildrenOk(f: Frame, line: int, h: nat, v: nat)
    requires DivFrameOk(f, h, v) && line % 2 == 1
    requires if f.vertical then f.x <= line <= f.w else f.y <= line <= f.h
    ensures |Children(f, line)| <= 2 && DivFramesOk(Children(f, line), h, v)
    ensures forall i :: 0 <= i < |Children(f, line)| ==>
              var c := Children(f, line)[i];
              f.x <= c.x && c.w <= f.w && f.y <= c.y && c.h <= f.h &&
              (c.w - c.x < f.w - f.x || c.h - c.y < f.h - f.y)
  {
  }

  ghost predicate DivFramesOk(s: seq<Frame>, h: nat, v: nat)
  {
    forall i :: 0 <= i < |s| ==> DivFrameOk(s[i], h, v)
  }

  /** Popping a valid stack and pushing valid frames keeps it valid. */
  lemma DivFramesReplaceTop(s: seq<Frame>, kids: seq<Frame>, h: nat, v: nat)
    requires s != [] && DivFramesOk(s, h, v) && DivFramesOk(kids, h, v)
    ensures DivFrameOk(s[|s| - 1], h, v) && DivFramesOk(s[..|s| - 1] + kids, h, v)
  {
    var t := s[..|s| - 1] + kids;
    forall i | 0 <= i < |t|
      ensures DivFrameOk(t[i], h, v)
    {
      if i < |s| - 1 {
        assert t[i] == s[i];
      } else {
        assert t[i] == kids[i - (|s| - 1)];
      }
    }
  }

  /** A draw as the division steps use it: `RNG::Get(l, h)` on two in-range bounds with
      `l <= h` gives a value between them; which one it is does not matter to them. */
  method DrawBetween(rng: Pcg32, l: int, h: int) returns (r: int)
    requires 0 <= l <= h < UINT_MAX
    modifies rng
    ensures rng.inc == old(rng.inc) && l <= r <= h
  {
    var d := GetRange(rng, l as u32, h as u32);
    r := d as int;
  }

  /** `RNG::Get()` as the division steps use it: some unsigned value. */
  method Draw(rng: Pcg32) returns (d: nat)
    modifies rng
    ensures rng.inc == old(rng.inc) && d <= UINT_MAX
  {
    var r := Get(rng);
    d := r as nat;
  }

  /** A division frame of an h by v maze: a region of at least two columns and two rows
      starting on an even column and an even row; when both dimensions are odd its far
      bounds are even too. */
  ghost predicate DivFrameOk(f: Frame, h: nat, v: nat)
  {
    f.DivFrame? && 0 <= f.x < f.w < h && 0 <= f.y < f.h < v && f.x % 2 == 0 && f.y % 2 == 0 &&
    (h % 2 == 1 && v % 2 == 1 ==> f.w % 2 == 0 && f.h % 2 == 0)
  }

  /** The point (x, y) lies in the region of division frame f. */
  predicate InRegion(f: Frame, x: int, y: int)
    requires f.DivFrame?
  {
    f.x <= x <= f.w && f.y <= y <= f.h
  }

  /** The point (x, y) lies on line `a` between positions lo and hi. */
  predicate OnLine(vertical: bool, a: int, lo: int, hi: int, x: int, y: int)
  {
    if vertical then x == a && lo <= y <= hi else y == a && lo <= x <= hi
  }

  /** Every position lo..hi of line `a` is a cell of g. */
  predicate LineInBounds(g: Grid, vertical: bool, a: int, lo: int, hi: int)
  {
    0 <= lo &&
    (lo <= hi ==>
       g.PointInBounds(Px(vertical, a, lo), Py(vertical, a, lo)) &&
       g.PointInBounds(Px(vertical, a, hi), Py(vertical, a, hi)))
  }

  /** The cells `s` with positions lo..hi of line `a` made WALL. */
  function LineWalled(g: Grid, s: seq<u32>, vertical: bool, a: int, lo: int, hi: int): (r: seq<u32>)
    requires |s| == g.hcells * g.vcells && LineInBounds(g, vertical, a, lo, hi)
    ensures |r| == |s|
    decreases hi - lo
  {
    if hi < lo then s
    else LineWalled(g, s, vertical, a, lo, hi - 1)[g.Index(Px(vertical, a, hi), Py(vertical, a, hi)) := WALL]
  }

  /** LineWalled makes the segment WALL and keeps every cell off it. */
  lemma {:induction false} LineWalledCells(g: Grid, s: seq<u32>, vertical: bool, a: int, lo: int, hi: int)
    requires |s| == g.hcells * g.vcells && LineInBounds(g, vertical, a, lo, hi)
    ensures forall k :: lo <= k <= hi ==>
              LineWalled(g, s, vertical, a, lo, hi)[g.Index(Px(vertical, a, k), Py(vertical, a, k))] == WALL
    ensures forall x, y :: g.PointInBounds(x, y) && !OnLine(vertical, a, lo, hi, x, y) ==>
              LineWalled(g, s, vertical, a, lo, hi)[g.Index(x, y)] == s[g.Index(x, y)]
    decreases hi - lo
  {
    if lo <= hi {
      LineWalledCells(g, s, vertical, a, lo, hi - 1);
      var xh, yh := Px(vertical, a, hi), Py(vertical, a, hi);
      forall k | lo <= k <= hi
        ensures LineWalled(g, s, vertical, a, lo, hi)[g.Index(Px(vertical, a, k), Py(vertical, a, k))] == WALL
      {
        g.IndexInjective(Px(vertical, a, k), Py(vertical, a, k), xh, yh);
      }
      forall x, y | g.PointInBounds(x, y) && !OnLine(vertical, a, lo, hi, x, y)
        ensures LineWalled(g, s, vertical, a, lo, hi)[g.Index(x, y)] == s[g.Index(x, y)]
      {
        g.IndexInjective(x, y, xh, yh);
      }
    }
  }

  /** The wall loop of _stepRecursiveDivision: cells lo..hi of line `a` become WALL. */
  method WallLine(g: Grid, vertical: bool, a: int, lo: int, hi: int)
    requires g.Valid() && lo <= hi && LineInBounds(g, vertical, a, lo, hi)
    modifies g.cells
    ensures g.cells[..] == LineWalled(g, old(g.cells[..]), vertical, a, lo, hi)
  {
    var i := lo;
    while i <= hi
      invariant lo <= i <= hi + 1
      invariant g.cells[..] == LineWalled(g, old(g.cells[..]), vertical, a, lo, i - 1)
    {
      g.Set(Px(vertical, a, i), Py(vertical, a, i), WALL);
      i := i + 1;
    }
  }

  /** Where the passage draws of a wall along lo..hi land: even positions, rounded down from
      a draw in lo..hi; with `two`, the first from the lower half and the second from the
      upper half, and otherwise one position, p1 and p2 alike. */
  predicate PassagesAt(lo: int, hi: int, two: bool, p1: int, p2: int)
  {
    var mid := lo + (hi - lo) / 2;
    p1 % 2 == 0 && p2 % 2 == 0 && lo - lo % 2 <= p1 <= hi && lo - lo % 2 <= p2 <= hi &&
    if two then p1 <= mid && mid - mid % 2 <= p2 else p1 == p2
  }

  /** The cells a division leaves when `s` was there before: line `a` walled along lo..hi,
      then passages p1 and p2 opened. */
  function DividedCells(g: Grid, s: seq<u32>, vertical: bool, a: int, lo: int, hi: int, p1: int, p2: int): (r: seq<u32>)
    requires |s| == g.hcells * g.vcells && lo <= hi && LineInBounds(g, vertical, a, lo - lo % 2, hi)
    requires lo - lo % 2 <= p1 <= hi && lo - lo % 2 <= p2 <= hi
    ensures |r| == |s|
  {
    LineWalled(g, s, vertical, a, lo, hi)[g.Index(Px(vertical, a, p1), Py(vertical, a, p1)) := PATH]
                                         [g.Index(Px(vertical, a, p2), Py(vertical, a, p2)) := PATH]
  }

  /** A division leaves a wall with one or two passages: the passages are PATH, every other
      position lo..hi of the line is WALL, and every cell off that segment that is not a
      passage keeps its value. */
  lemma DividedCellsMeaning(g: Grid, s: seq<u32>, vertical: bool, a: int, lo: int, hi: int, p1: int, p2: int)
    requires |s| == g.hcells * g.vcells && lo <= hi && LineInBounds(g, vertical, a, lo - lo % 2, hi)
    requires lo - lo % 2 <= p1 <= hi && lo - lo % 2 <= p2 <= hi
    ensures var r := DividedCells(g, s, vertical, a, lo, hi, p1, p2);
            r[g.Index(Px(vertical, a, p1), Py(vertical, a, p1))] == PATH &&
            r[g.Index(Px(vertical, a, p2), Py(vertical, a, p2))] == PATH
    ensures forall k :: lo <= k <= hi && k != p1 && k != p2 ==>
              DividedCells(g, s, vertical, a, lo, hi, p1, p2)[g.Index(Px(vertical, a, k), Py(vertical, a, k))] == WALL
    ensures forall x, y ::
              (g.PointInBounds(x, y) && !OnLine(vertical, a, lo, hi, x, y) &&
               !OnLine(vertical, a, p1, p1, x, y) && !OnLine(vertical, a, p2, p2, x, y)) ==>
              DividedCells(g, s, vertical, a, lo, hi, p1, p2)[g.Index(x, y)] == s[g.Index(x, y)]
  {
    LineWalledCells(g, s, vertical, a, lo, hi);
    DividedWall(g, s, vertical, a, lo, hi, p1, p2);
    DividedKeeps(g, s, vertical, a, lo, hi, p1, p2);
  }

  /** The wall half of DividedCellsMeaning: a position of the segment that is no passage. */
  lemma DividedWall(g: Grid, s: seq<u32>, vertical: bool, a: int, lo: int, hi: int, p1: int, p2: int)
    requires |s| == g.hcells * g.vcells && lo <= hi && LineInBounds(g, vertical, a, lo - lo % 2, hi)
    requires lo - lo % 2 <= p1 <= hi && lo - lo % 2 <= p2 <= hi
    requires forall k :: lo <= k <= hi ==>
               LineWalled(g, s, vertical, a, lo, hi)[g.Index(Px(vertical, a, k), Py(vertical, a, k))] == WALL
    ensures forall k :: lo <= k <= hi && k != p1 && k != p2 ==>
              DividedCells(g, s, vertical, a, lo, hi, p1, p2)[g.Index(Px(vertical, a, k), Py(vertical, a, k))] == WALL
  {
    var x1, y1 := Px(vertical, a, p1), Py(vertical, a, p1);
    var x2, y2 := Px(vertical, a, p2), Py(vertical, a, p2);
    forall k | lo <= k <= hi && k != p1 && k != p2
      ensures DividedCells(g, s, vertical, a, lo, hi, p1, p2)[g.Index(Px(vertical, a, k), Py(vertical, a, k))] == WALL
    {
      g.IndexInjective(Px(vertical, a, k), Py(vertical, a, k), x1, y1);
      g.IndexInjective(Px(vertical, a, k), Py(vertical, a, k), x2, y2);
    }
  }

  /** The frame half of DividedCellsMeaning: a cell off the segment and off both passages. */
  lemma DividedKeeps(g: Grid, s: seq<u32>, vertical: bool, a: int, lo: int, hi: int, p1: int, p2: int)
    requires |s| == g.hcells * g.vcells && lo <= hi && LineInBounds(g, vertical, a, lo - lo % 2, hi)
    requires lo - lo % 2 <= p1 <= hi && lo - lo % 2 <= p2 <= hi
    requires forall x, y :: g.PointInBounds(x, y) && !OnLine(vertical, a, lo, hi, x, y) ==>
               LineWalled(g, s, vertical, a, lo, hi)[g.Index(x, y)] == s[g.Index(x, y)]
    ensures forall x, y ::
              (g.PointInBounds(x, y) && !OnLine(vertical, a, lo, hi, x, y) &&
               !OnLine(vertical, a, p1, p1, x, y) && !OnLine(vertical, a, p2, p2, x, y)) ==>
              DividedCells(g, s, vertical, a, lo, hi, p1, p2)[g.Index(x, y)] == s[g.Index(x, y)]
  {
    var x1, y1 := Px(vertical, a, p1), Py(vertical, a, p1);
    var x2, y2 := Px(vertical, a, p2), Py(vertical, a, p2);
    forall x, y | g.PointInBounds(x, y) && !OnLine(vertical, a, lo, hi, x, y) &&
                  !OnLine(vertical, a, p1, p1, x, y) && !OnLine(vertical, a, p2, p2, x, y)
      ensures DividedCells(g, s, vertical, a, lo, hi, p1, p2)[g.Index(x, y)] == s[g.Index(x, y)]
    {
      g.IndexInjective(x, y, x1, y1);
      g.IndexInjective(x, y, x2, y2);
    }
  }

  /** The positions along a division frame's line: its rows for a vertical split, its
      columns otherwise. */
  function LineStart(f: Frame): int
    requires f.DivFrame?
  {
    if f.vertical then f.y else f.x
  }

  function LineEnd(f: Frame): int
    requires f.DivFrame?
  {
    if f.vertical then f.h else f.w
  }

  /** What a division step does to region f when the cells were `s`: the odd line `line`
      lies across the region, and the cells are exactly `s` with that line walled from one
      side of the region to the other and then opened at p1 and p2, two distinct draws only
      when the region is more than 5 cells along the line. */
  ghost predicate Divided(g: Grid, s: seq<u32>, f: Frame, line: int, two: bool, p1: int, p2: int)
    requires g.Valid() && DivFrameOk(f, g.hcells, g.vcells) && |s| == g.cells.Length
    reads g.cells
  {
    line % 2 == 1 && (if f.vertical then f.x <= line <= f.w else f.y <= line <= f.h) &&
    PassagesAt(LineStart(f), LineEnd(f), two, p1, p2) && (two ==> LineEnd(f) - LineStart(f) > 5) &&
    g.cells[..] == DividedCells(g, s, f.vertical, line, LineStart(f), LineEnd(f), p1, p2)
  }

  /** A division stays inside its region: both passages lie on the walled segment, and
      every cell outside the region keeps its value. */
  lemma DividedStaysInRegion(g: Grid, s: seq<u32>, f: Frame, line: int, two: bool, p1: int, p2: int)
    requires g.Valid() && DivFrameOk(f, g.hcells, g.vcells) && |s| == g.cells.Length
    requires Divided(g, s, f, line, two, p1, p2)
    ensures LineStart(f) <= p1 <= LineEnd(f) && LineStart(f) <= p2 <= LineEnd(f)
    ensures forall x, y :: g.PointInBounds(x, y) && !InRegion(f, x, y) ==> g.cells[g.Index(x, y)] == s[g.Index(x, y)]
  {
    var lo, hi := LineStart(f), LineEnd(f);
    DividedCellsMeaning(g, s, f.vertical, line, lo, hi, p1, p2);
    forall x, y | g.PointInBounds(x, y) && !InRegion(f, x, y)
      ensures g.cells[g.Index(x, y)] == s[g.Index(x, y)]
    {
      assert !OnLine(f.vertical, line, lo, hi, x, y);
      assert !OnLine(f.vertical, line, p1, p1, x, y) && !OnLine(f.vertical, line, p2, p2, x, y);
    }
  }

  /** The grid half of _stepRecursiveDivision for region f, with its draws in program
      order: the two split draws, the wall, the draw `th` that decides between one passage
      and two, and the passage draws. (The source pushes the sub-regions between the wall and
      `th`; the stack and the grid are independent, so they are pushed after this returns.) */
  method DivideRegion(g: Grid, rng: Pcg32, f: Frame) returns (line: int, two: bool, p1: int, p2: int)
    requires g.Valid() && g.hcells < UINT_MAX && g.vcells < UINT_MAX && DivFrameOk(f, g.hcells, g.vcells)
    modifies g.cells, rng
    ensures rng.inc == old(rng.inc)
    ensures Divided(g, old(g.cells[..]), f, line, two, p1, p2)
    ensures forall x, y :: g.PointInBounds(x, y) && !InRegion(f, x, y) ==> g.cells[g.Index(x, y)] == old(g.cells[g.Index(x, y)])
  {
    var v := f.vertical;
    line := SplitLine(rng, f, g.hcells, g.vcells);
    var lo, hi := if v then f.y else f.x, if v then f.h else f.w;
    var size := if v then g.vcells else g.hcells;
    assert lo == LineStart(f) && hi == LineEnd(f) && 0 <= lo < hi < size;
    assert LineInBounds(g, v, line, lo - lo % 2, hi);
    ghost var start := g.cells[..];
    WallLine(g, v, line, lo, hi);
    ghost var walled := g.cells[..];
    two := TwoPassages(rng, hi - lo, size);
    p1, p2 := Passages(g, rng, v, line, lo, hi, two);
    assert walled == LineWalled(g, start, v, line, lo, hi);
    assert g.cells[..] == DividedCells(g, start, v, line, lo, hi, p1, p2);
    DividedStaysInRegion(g, start, f, line, two, p1, p2);
  }

  /** The draw `th` of _stepRecursiveDivision, taken modulo `(size - 1) / span` for a line
      `span` positions long across a maze `size` cells wide: a line longer than five
      positions gets two passages when `th` is 0. */
  method TwoPassages(rng: Pcg32, span: int, size: int) returns (two: bool)
    requires 1 <= span < size
    modifies rng
    ensures rng.inc == old(rng.inc)
    ensures two ==> span > 5
  {
    var t := Draw(rng);
    QuotientPositive(size - 1, span);
    var th := t % ((size - 1) / span);
    two := span > 5 && th == 0;
  }

  /** The two split draws of _stepRecursiveDivision, each made odd by `| 1`; the wall goes on
      the column drawn for a vertical split and on the row drawn otherwise. */
  method SplitLine(rng: Pcg32, f: Frame, hc: nat, vc: nat) returns (line: int)
    requires hc < UINT_MAX && vc < UINT_MAX && DivFrameOk(f, hc, vc)
    modifies rng
    ensures rng.inc == old(rng.inc)
    ensures line % 2 == 1 && if f.vertical then f.x <= line <= f.w else f.y <= line <= f.h
  {
    var wr := DrawBetween(rng, f.x, f.w - 1);
    var hr := DrawBetween(rng, f.y, f.h - 1);
    var wmid, hmid := OrOne(wr), OrOne(hr);
    line := if f.vertical then wmid else hmid;
  }

  /** The passage draws of _stepRecursiveDivision: one even position of the line drawn from
      all of lo..hi or, when `two` holds, one from each half. */
  method Passages(g: Grid, rng: Pcg32, vertical: bool, a: int, lo: int, hi: int, two: bool) returns (p1: int, p2: int)
    requires g.Valid() && 0 <= lo <= hi < UINT_MAX && LineInBounds(g, vertical, a, lo - lo % 2, hi)
    modifies g.cells, rng
    ensures rng.inc == old(rng.inc) && PassagesAt(lo, hi, two, p1, p2)
    ensures g.cells[..] == old(g.cells[..])[g.Index(Px(vertical, a, p1), Py(vertical, a, p1)) := PATH]
                                           [g.Index(Px(vertical, a, p2), Py(vertical, a, p2)) := PATH]
  {
    var mid := lo + (hi - lo) / 2;
    if two {
      p1 := OnePassage(g, rng, vertical, a, lo, mid);
      p2 := OnePassage(g, rng, vertical, a, mid, hi);
    } else {
      p1 := OnePassage(g, rng, vertical, a, lo, hi);
      p2 := p1;
    }
  }

  /** One passage `RNG::Get(l, r) & ~1`: the even position at or just below the draw is
      opened, and no other cell changes. */
  method OnePassage(g: Grid, rng: Pcg32, vertical: bool, a: int, l: int, r: int) returns (p: int)
    requires g.Valid() && 0 <= l <= r < UINT_MAX && LineInBounds(g, vertical, a, l - l % 2, r)
    modifies g.cells, rng
    ensures rng.inc == old(rng.inc)
    ensures p % 2 == 0 && l - l % 2 <= p <= r
    ensures g.cells[..] == old(g.cells[..])[g.Index(Px(vertical, a, p), Py(vertical, a, p)) := PATH]
  {
    var d := DrawBetween(rng, l, r);
    p := AndNotOne(d);
    g.Set(Px(vertical, a, p), Py(vertical, a, p), PATH);
  }

  /** The inner loop of the first enumeration: the rightward edges out of column x,
      written from slot i0 on. */
  method EnumerateColumn(edges: array<Edge>, i0: nat, x: int, v: nat) returns (i: nat)
    requires i0 + Evens(v) <= edges.Length
    modifies edges
    ensures i == i0 + Evens(v) && edges[..i] == old(edges[..i0]) + Column(x, v)
  {
    i := i0;
    var y, j := 0, 0;
    while y < v
      invariant y == 2 * j && j <= Evens(v) && i == i0 + j
      invariant edges[..i] == old(edges[..i0]) + Column(x, v)[..j]
      decreases v - y
    {
      edges[i] := Edge(x, y, x + 2, y);
      assert Column(x, v)[..j + 1] == Column(x, v)[..j] + [Edge(x, y, x + 2, y)];
      i, y, j := i + 1, y + 2, j + 1;
    }
    assert Column(x, v)[..j] == Column(x, v);
  }

  /** The inner loop of the second enumeration: the upward edges out of row y. */
  method EnumerateRow(edges: array<Edge>, i0: nat, y: int, h: nat) returns (i: nat)
    requires i0 + Evens(h) <= edges.Length
    modifies edges
    ensures i == i0 + Evens(h) && edges[..i] == old(edges[..i0]) + Row(y, h)
  {
    i := i0;
    var x, j := 0, 0;
    while x < h
      invariant x == 2 * j && j <= Evens(h) && i == i0 + j
      invariant edges[..i] == old(edges[..i0]) + Row(y, h)[..j]
      decreases h - x
    {
      edges[i] := Edge(x, y, x, y + 2);
      assert Row(y, h)[..j + 1] == Row(y, h)[..j] + [Edge(x, y, x, y + 2)];
      i, x, j := i + 1, x + 2, j + 1;
    }
    assert Row(y, h)[..j] == Row(y, h);
  }

  /** The first loop of _initRandomizedKruskal: the rightward edges, column by column. */
  method EnumerateRightward(edges: array<Edge>, h: nat, v: nat) returns (i: nat)
    requires |Rightward(Spans(h), v)| <= edges.Length
    modifies edges
    ensures i == |Rightward(Spans(h), v)| && edges[..i] == Rightward(Spans(h), v)
  {
    i := 0;
    var x, k := 0, 0;
    while x < h - 2
      invariant x == 2 * k && k <= Spans(h)
      invariant i == |Rightward(k, v)| <= edges.Length && edges[..i] == Rightward(k, v)
      decreases h - x
    {
      RowStartMono(k + 1, Spans(h), Evens(v));
      i := EnumerateColumn(edges, i, x, v);
      assert Rightward(k + 1, v) == Rightward(k, v) + Column(x, v);
      x, k := x + 2, k + 1;
    }
  }

  /** The second loop of _initRandomizedKruskal: the upward edges, row by row, written
      from slot i0 on. */
  method EnumerateUpward(edges: array<Edge>, i0: nat, h: nat, v: nat) returns (i: nat)
    requires i0 + |Upward(Spans(v), h)| <= edges.Length
    modifies edges
    ensures i == i0 + |Upward(Spans(v), h)|
    ensures edges[..i] == old(edges[..i0]) + Upward(Spans(v), h)
  {
    i := i0;
    var y, k := 0, 0;
    while y < v - 2
      invariant y == 2 * k && k <= Spans(v)
      invariant i == i0 + |Upward(k, h)| <= edges.Length
      invariant edges[..i] == old(edges[..i0]) + Upward(k, h)
      decreases v - y
    {
      RowStartMono(k + 1, Spans(v), Evens(h));
      ghost var done := edges[..i];
      i := EnumerateRow(edges, i, y, h);
      assert Upward(k + 1, h) == Upward(k, h) + Row(y, h);
      assert edges[..i] == done + Row(y, h);
      y, k := y + 2, k + 1;
    }
  }

  /** The last loop of _initRandomizedKruskal: every vertex starts in a set of its own. */
  method SingletonSets(verts: array<u32>)
    requires verts.Length <= UINT_MAX + 1
    modifies verts
    ensures forall i :: 0 <= i < verts.Length ==> verts[i] as int == i
  {
    var i := 0;
    while i < verts.Length
      invariant 0 <= i <= verts.Length
      invariant forall k :: 0 <= k < i ==> verts[k] as int == k
    {
      verts[i] := i as u32;
      i := i + 1;
    }
  }

  /** The relabel loop of _stepRandomizedKruskal. */
  method RelabelAll(verts: array<u32>, from: u32, to: u32)
    modifies verts
    ensures verts[..] == Relabel(old(verts[..]), from, to)
  {
    var i := 0;
    while i < verts.Length
      invariant 0 <= i <= verts.Length
      invariant forall k :: 0 <= k < i ==> verts[k] == Relabel(old(verts[..]), from, to)[k]
      invariant forall k :: i <= k < verts.Length ==> verts[k] == old(verts[k])
    {
      if verts[i] == from {
        verts[i] := to;
      }
      i := i + 1;
    }
  }

  /** The two enumeration loops of _initRandomizedKruskal into a fresh edge list of
      `nedges` slots. */
  method EnumerateLattice(h: nat, v: nat) returns (es: array<Edge>)
    requires h % 2 == 1 && v % 2 == 1
    ensures fresh(es) && es[..] == Enumerated(h, v)
    ensures es.Length == (v / 2) * (h / 2) * 2 + h / 2 + v / 2
  {
    EnumeratedCount(h, v);
    es := new Edge[(v / 2) * (h / 2) * 2 + h / 2 + v / 2];
    var i := EnumerateRightward(es, h, v);
    i := EnumerateUpward(es, i, h, v);
    assert es[..] == es[..i];
  }

  /** The union-find buffer as source/generator.cpp:219 allocates it: `nedges` slots
      rather than `nverts`. For odd dimensions that is one slot per lattice edge. */
  function KruskalVertsSlotsAsWritten(h: nat, v: nat): nat
  {
    (v / 2) * (h / 2) * 2 + h / 2 + v / 2
  }

  /** For odd dimensions the `nedges`-slot buffer holds every union-find slot exactly when
      both dimensions are at least 3; a one-cell-wide maze needs one slot more than it has. */
  lemma {:induction false} KruskalVertsFitAsWritten(h: nat, v: nat)
    requires h % 2 == 1 && v % 2 == 1
    ensures VertexCount(h, v) <= KruskalVertsSlotsAsWritten(h, v) <==> h >= 3 && v >= 3
    ensures h == 1 || v == 1 ==> VertexCount(h, v) == KruskalVertsSlotsAsWritten(h, v) + 1
  {
    var hh, hv := h / 2, v / 2;
    VertexCountIsProduct(h, v);
    assert VertexCount(h, v) == hh * hv + hh + hv + 1;
    if hh >= 1 && hv >= 1 {
      ProductAtLeast(hh, hv);
    } else {
      assert hh * hv == 0;
    }
  }

  /** The smallest instance: a 1 by 3 maze has one edge and two lattice cells, so the
      initialisation loop writes slot 1 of a one-slot buffer. */
  lemma KruskalVertsOverflowAsWritten()
    ensures KruskalVertsSlotsAsWritten(1, 3) == 1 && VertexCount(1, 3) == 2
  {
    KruskalVertsFitAsWritten(1, 3);
  }

  /** The graph _initRandomizedKruskal builds for an h by v maze of odd dimensions: the
      shuffled edge list and a union-find array of `nverts` singleton sets. */
  method KruskalGraph(rng: Pcg32, h: nat, v: nat) returns (nv: nat, ne: nat, es: array<Edge>, vs: array<u32>)
    requires h % 2 == 1 && v % 2 == 1 && (h >= 3 || v >= 3) && h * v <= UINT_MAX
    modifies rng
    ensures fresh(es) && fresh(vs) && es.Length == ne && vs.Length == nv == VertexCount(h, v)
    ensures ne == (v / 2) * (h / 2) * 2 + h / 2 + v / 2 && nv == (h / 2 + 1) * (v / 2 + 1)
    ensures multiset(es[..]) == multiset(Enumerated(h, v))
    ensures forall i :: 0 <= i < es.Length ==> LatticeEdge(es[i], h, v)
    ensures forall i :: 0 <= i < vs.Length ==> vs[i] as int == i
  {
    var hh, hv := h / 2, v / 2;
    VertexCountIsProduct(h, v);
    VertexCountAtMostCells(h, v);
    nv := (hh + 1) * (hv + 1);
    ne := hv * hh * 2 + hh + hv;
    assert ne >= 1 by {
      assert hv * hh * 2 >= 0;
      assert hh + hv >= 1;
    }
    es := EnumerateLattice(h, v);
    vs := new u32[nv];
    SingletonSets(vs);
    ShuffleEdges(rng, es, h, v);
  }

  /** `RNG::Shuffle(nedges, edges)` on the enumerated edge list. */
  method ShuffleEdges(rng: Pcg32, es: array<Edge>, h: nat, v: nat)
    requires es.Length >= 1 && es[..] == Enumerated(h, v)
    modifies rng, es
    ensures multiset(es[..]) == multiset(Enumerated(h, v))
    ensures forall i :: 0 <= i < es.Length ==> LatticeEdge(es[i], h, v)
  {
    ghost var s0, st0, inc0 := es[..], rng.state, rng.inc;
    Shuffle(rng, es.Length, es);
    ShuffledEnumeration(s0, es[..], st0, inc0, h, v);
  }

  /** The shuffle loop run on the enumeration gives a permutation of it, all lattice edges. */
  lemma ShuffledEnumeration(s: seq<Edge>, t: seq<Edge>, state: bv64, inc: bv64, h: nat, v: nat)
    requires 1 <= |s| && s == Enumerated(h, v) && t == ShuffleRun(s, |s| - 1, state, inc).0
    ensures multiset(t) == multiset(Enumerated(h, v))
    ensures forall i :: 0 <= i < |t| ==> LatticeEdge(t[i], h, v)
  {
    ShuffleRunPermutes(s, |s| - 1, state, inc);
    EnumerationPermuted(t, h, v);
  }

  /** The edge-drawing part of _stepRandomizedKruskal, from slot `at0` on: consume edges
      until one joins two different sets; `at` is where the cursor ends up. Every edge
      skipped joined cells already in one set. */
  method NextUnjoined(edges: array<Edge>, verts: array<u32>, at0: nat, h: nat, v: nat)
      returns (found: bool, at: nat, e: Edge, f0: u32, f1: u32)
    requires at0 <= edges.Length && verts.Length == VertexCount(h, v)
    requires forall i :: 0 <= i < edges.Length ==> LatticeEdge(edges[i], h, v)
    ensures at0 <= at <= edges.Length
    ensures forall k :: at0 <= k < at - (if found then 1 else 0) ==> Joined(verts[..], edges[k], h / 2)
    ensures !found ==> at == edges.Length
    ensures found ==> at0 < at && e == edges[at - 1] && f0 != f1
    ensures found ==> f0 == verts[NearSlot(e, h, v)] && f1 == verts[FarSlot(e, h, v)]
  {
    at := at0;
    if at >= edges.Length {
      return false, at, Edge(0, 0, 0, 0), 0, 0;
    }
    e := edges[at];
    at := at + 1;
    f0, f1 := verts[NearSlot(e, h, v)], verts[FarSlot(e, h, v)];
    while f0 == f1
      invariant at0 < at <= edges.Length && e == edges[at - 1]
      invariant f0 == verts[NearSlot(e, h, v)] && f1 == verts[FarSlot(e, h, v)]
      invariant forall k :: at0 <= k < at - 1 ==> Joined(verts[..], edges[k], h / 2)
      decreases edges.Length - at
    {
      SameLabelJoined(verts[..], e, h, v);
      if at >= edges.Length {
        return false, at, e, f0, f1;
      }
      e := edges[at];
      at := at + 1;
      f0, f1 := verts[NearSlot(e, h, v)], verts[FarSlot(e, h, v)];
    }
    found := true;
  }

  /** An edge whose two slots carry one label joins cells already in one set. */
  lemma SameLabelJoined(s: seq<u32>, e: Edge, h: nat, v: nat)
    requires LatticeEdge(e, h, v) && |s| == VertexCount(h, v)
    requires s[NearSlot(e, h, v)] == s[FarSlot(e, h, v)]
    ensures Joined(s, e, h / 2)
  {
  }

  /** The cells after carving lattice edge `e` into `s`: both ends and the cell between
      them become PATH. */
  ghost function Carved(g: Grid, s: seq<u32>, e: Edge): (r: seq<u32>)
    requires |s| == g.hcells * g.vcells && LatticeEdge(e, g.hcells, g.vcells)
    ensures |r| == |s|
  {
    s[g.Index(e.x0, e.y0) := PATH][g.Index(e.x1, e.y1) := PATH][g.Index(MidX(e), MidY(e)) := PATH]
  }

  /** `after` is the union-find array `before` once the sets of the two ends of `e` are
      merged: the ends were in different sets and now share one, every slot of the far
      end's set took the near end's label, and one label is gone. */
  ghost predicate Merged(before: seq<u32>, after: seq<u32>, e: Edge, h: nat, v: nat)
    requires LatticeEdge(e, h, v) && |before| == VertexCount(h, v)
  {
    !Joined(before, e, h / 2) && Joined(after, e, h / 2) &&
    after == Relabel(before, before[FarSlot(e, h, v)], before[NearSlot(e, h, v)]) &&
    |Labels(after)| == |Labels(before)| - 1
  }

  /** The three writes that end a Kruskal merge: both ends of e and the cell between them
      become PATH. */
  method CarveEdge(g: Grid, e: Edge)
    requires g.Valid() && LatticeEdge(e, g.hcells, g.vcells)
    modifies g.cells
    ensures g.cells[..] == old(g.cells[..])[g.Index(e.x0, e.y0) := PATH][g.Index(e.x1, e.y1) := PATH]
                                          [g.Index(MidX(e), MidY(e)) := PATH]
  {
    g.Set(e.x0, e.y0, PATH);
    g.Set(e.x1, e.y1, PATH);
    g.Set(MidX(e), MidY(e), PATH);
  }

  /** The merge of _stepRandomizedKruskal: every slot labelled f1, the far end's set, is
      relabelled f0, the near end's; the two sets become one and one set name disappears. */
  method MergeSets(verts: array<u32>, e: Edge, f0: u32, f1: u32, h: nat, v: nat)
    requires LatticeEdge(e, h, v) && verts.Length == VertexCount(h, v)
    requires f0 != f1 && f0 == verts[NearSlot(e, h, v)] && f1 == verts[FarSlot(e, h, v)]
    modifies verts
    ensures verts[..] == Relabel(old(verts[..]), f1, f0)
    ensures !Joined(old(verts[..]), e, h / 2) && Joined(verts[..], e, h / 2)
    ensures |Labels(verts[..])| == |Labels(old(verts[..]))| - 1
  {
    ghost var before := verts[..];
    assert before[NearSlot(e, h, v)] == f0 && before[FarSlot(e, h, v)] == f1;
    RelabelAll(verts, f1, f0);
    RelabelMerges(before, f1, f0);
    RelabelDropsOneLabel(before, f1, f0);
  }

  /** One step of _stepRandomizedKruskal on the maze `g`, the edge list and the union-find
      array, from cursor `at0`: the cursor moves past the edges whose ends already share a
      set; the first edge joining two sets merges them and is carved. */
  method KruskalStep(g: Grid, edges: array<Edge>, verts: array<u32>, at0: nat) returns (more: bool, at: nat)
    requires g.Valid() && verts != g.cells && at0 <= edges.Length
    requires verts.Length == VertexCount(g.hcells, g.vcells)
    requires forall i :: 0 <= i < edges.Length ==> LatticeEdge(edges[i], g.hcells, g.vcells)
    modifies verts, g.cells
    ensures at0 <= at <= edges.Length
    ensures forall k :: at0 <= k < at - (if more then 1 else 0) ==> Joined(old(verts[..]), edges[k], g.hcells / 2)
    ensures !more ==> at == edges.Length && verts[..] == old(verts[..]) && g.cells[..] == old(g.cells[..])
    ensures more ==> at0 < at
    ensures more ==> Merged(old(verts[..]), verts[..], edges[at - 1], g.hcells, g.vcells)
    ensures more ==> g.cells[..] == Carved(g, old(g.cells[..]), edges[at - 1])
  {
    var found, e, f0, f1;
    found, at, e, f0, f1 := NextUnjoined(edges, verts, at0, g.hcells, g.vcells);
    if !found {
      return false, at;
    }
    MergeSets(verts, e, f0, f1, g.hcells, g.vcells);
    CarveEdge(g, e);
    more := true;
  }

  class Generator {
    var finished: bool
    var maze: Grid?
    const stack: Stack<Frame>
    /** The process-wide RNG every draw comes from. */
    const rng: Pcg32
    /** The `_step` member pointer: which algorithm Init selected. */
    var kind: Option<Kind>
    /** `m_graph`. */
    var nverts: nat
    var nedges: nat
    var verts: array?<u32>
    var edges: array?<Edge>
    var at: nat
    /** The lattice cells Prim's algorithm has carved, in half coordinates. */
    ghost var carved: set<(int, int)>
    /** Every buffer `_reset` has released, in order. */
    ghost var freed: seq<object>

    constructor (r: Pcg32)
      ensures rng == r && maze == null && kind == None && !finished
      ensures edges == null && verts == null && nverts == 0 && nedges == 0 && at == 0
      ensures freed == [] && fresh(stack) && stack.items == []
    {
      finished, maze, rng, kind := false, null, r, None;
      nverts, nedges, verts, edges, at := 0, 0, null, null, 0;
      freed := [];
      stack := new Stack<Frame>();
    }

    /** The two owned buffers are live and not yet released, and nothing is released twice. */
    ghost predicate Owns()
      reads this
    {
      (forall i, j :: 0 <= i < j < |freed| ==> freed[i] != freed[j]) &&
      (edges != null ==> edges !in freed) &&
      (verts != null ==> verts !in freed)
    }

    ghost predicate MazeOk()
      reads this
    {
      maze != null && maze.Valid()
    }

    /** Both maze dimensions odd: the case the lattice arguments are exact for. */
    ghost predicate OddDims()
      reads this
      requires maze != null
    {
      maze.hcells % 2 == 1 && maze.vcells % 2 == 1
    }

    /** What Init demands of the maze for each algorithm: a cell at all for Random (its
        loop bound `hcells * vcells - 1` is unsigned), a lattice cell for DFS, two cells
        each way for Recursive Division, odd dimensions with an edge for Kruskal, and the
        two starting edges in range for Prim. */
    static predicate Fits(m: Grid, k: Kind)
    {
      match k
      case Random => m.hcells * m.vcells >= 1
      case RandomizedDFS => m.hcells >= 1 && m.vcells >= 1
      case RecursiveDivision => m.hcells >= 2 && m.vcells >= 2
      case RandomizedKruskal => m.hcells % 2 == 1 && m.vcells % 2 == 1 && (m.hcells >= 3 || m.vcells >= 3)
      case RandomizedPrim => m.hcells >= 3 && m.vcells >= 3
    }

    /** Between Init and the step that returns false: the selected algorithm's invariant. */
    ghost predicate Ready()
      reads this, stack, edges, maze, if maze != null then {maze.cells} else {}
    {
      Owns() && kind.Some? &&
      match kind.value
      case Random => MazeOk() && maze.cells.Length >= 1
      case RandomizedDFS => DfsInv()
      case RecursiveDivision => DivInv()
      case RandomizedKruskal => KruskalInv()
      case RandomizedPrim => PrimInv()
    }

    /** The buffers a release of `e` and `v` hands back, edges first. */
    static function Released(e: array?<Edge>, v: array?<u32>): (r: seq<object>)
      ensures e != null ==> e in r
      ensures v != null ==> v in r
      ensures |r| <= 2
    {
      (if e != null then [e as object] else []) + (if v != null then [v as object] else [])
    }

    /** _reset: forget the maze, release both buffers, empty the graph record and the
        stack. Whatever was live is released once; a second reset releases nothing. */
    method Reset()
      requires Owns()
      modifies this, stack
      ensures Owns() && maze == null && !finished && kind == old(kind)
      ensures edges == null && verts == null && nverts == 0 && nedges == 0 && at == 0 && carved == {}
      ensures freed == old(freed) + Released(old(edges), old(verts))
      ensures stack.items == []
    {
      maze := null;
      finished := false;
      freed := freed + Released(edges, verts);
      nverts, nedges, verts, edges, at := 0, 0, null, null, 0;
      carved := {};
      stack.Clear();
    }

    /** Init: reset, then run the selected algorithm's initialisation on `m`. */
    method Init(m: Grid, k: Kind)
      requires Owns() && m.Valid() && Fits(m, k)
      modifies this, stack, m.cells, rng
      ensures Ready() && maze == m && kind == Some(k)
      ensures freed == old(freed) + Released(old(edges), old(verts))
    {
      Reset();
      maze := m;
      match k {
        case Random =>
        case RandomizedDFS => InitRandomizedDFS();
        case RecursiveDivision => InitRecursiveDivision();
        case RandomizedKruskal => InitRandomizedKruskal();
        case RandomizedPrim => InitRandomizedPrim();
      }
      kind := Some(k);
    }

    /** Step: one step of the selected algorithm; once it reports false, reset. */
    method Step() returns (more: bool)
      requires Ready()
      modifies this, stack, rng, maze.cells, edges, verts
      ensures more ==> Ready() && maze == old(maze) && kind == old(kind) && freed == old(freed)
      ensures !more ==> Owns() && maze == null && edges == null && verts == null && stack.items == []
      ensures !more ==> freed == old(freed) + Released(old(edges), old(verts))
    {
      more := StepSelected();
      if !more {
        Reset();
      }
    }

    /** The `_step` member pointer's target for the selected algorithm. Only the cursor, the
        carved set, the stack, the generator and buffer contents change. */
    method StepSelected() returns (more: bool)
      requires Ready()
      modifies this`at, this`carved, stack, rng, maze.cells, edges, verts
      ensures Owns()
      ensures more ==> Ready()
    {
      if kind.value.RandomizedKruskal? || kind.value.RandomizedPrim? {
        more := StepOnGraph();
      } else {
        more := StepOnStack();
      }
    }

    /** The algorithms whose state lives in `m_stack` (Random keeps none). */
    method StepOnStack() returns (more: bool)
      requires Ready() && !kind.value.RandomizedKruskal? && !kind.value.RandomizedPrim?
      modifies stack, rng, maze.cells
      ensures Owns()
      ensures more ==> Ready()
    {
      match kind.value {
        case Random => more := StepRandom();
        case RandomizedDFS => more := StepRandomizedDFS();
        case RecursiveDivision =>
          ghost var split, two, p1, p2;
          more, split, two, p1, p2 := StepRecursiveDivision();
      }
    }

    /** The algorithms whose state lives in `m_graph`. */
    method StepOnGraph() returns (more: bool)
      requires Ready() && (kind.value.RandomizedKruskal? || kind.value.RandomizedPrim?)
      modifies this`at, this`carved, rng, maze.cells, edges, verts
      ensures Owns()
      ensures more ==> Ready()
    {
      if kind.value.RandomizedKruskal? {
        more := StepRandomizedKruskal();
      } else {
        ghost var e, skipped;
        more, e, skipped := StepRandomizedPrim();
      }
    }

    ////////////////////////////////
    // Random
    ////////////////////////////////

    /** _stepRandom: one draw per cell, then the first and the last cell are forced to
        PATH; it finishes on its first step. */
    method StepRandom() returns (more: bool)
      requires MazeOk() && maze.cells.Length >= 1
      modifies maze.cells, rng
      ensures !more
      ensures rng.inc == old(rng.inc) && rng.state == Advance(old(rng.state), rng.inc, maze.cells.Length)
      ensures maze.cells[0] == PATH && maze.cells[maze.cells.Length - 1] == PATH
      ensures forall i :: 0 < i < maze.cells.Length - 1 ==>
                maze.cells[i] == RandomCell(Output(Advance(old(rng.state), rng.inc, i)))
      ensures forall i :: 0 <= i < maze.cells.Length ==> maze.cells[i] == WALL || maze.cells[i] == PATH
    {
      var cells := maze.cells;
      var m := maze.hcells * maze.vcells - 1;
      ghost var s0 := rng.state;
      var i := 0;
      while i <= m
        invariant 0 <= i <= m + 1 == cells.Length
        invariant rng.inc == old(rng.inc) && rng.state == Advance(s0, rng.inc, i)
        invariant forall k :: 0 <= k < i ==> cells[k] == RandomCell(Output(Advance(s0, rng.inc, k)))
      {
        AdvanceStep(s0, rng.inc, i);
        var d := Get(rng);
        cells[i] := RandomCell(d);
        i := i + 1;
      }
      cells[0] := PATH;
      cells[m] := PATH;
      more := false;
    }

    ////////////////////////////////
    // Randomized DFS
    ////////////////////////////////

    ghost predicate DfsInv()
      reads this, stack
    {
      MazeOk() && DfsFramesOk(stack.items, maze.hcells, maze.vcells)
    }

    /** _initRandomizedDFS: an all-WALL maze and the single frame (0, 0) with a shuffled
        choice list. */
    method InitRandomizedDFS()
      requires MazeOk() && maze.hcells >= 1 && maze.vcells >= 1 && stack.items == []
      modifies maze.cells, stack, rng
      ensures DfsInv() && |stack.items| == 1
      ensures var f := stack.items[0]; f.x == 0 && f.y == 0 && f.at == 0 && IsChoice(f.choice)
      ensures forall i :: 0 <= i < maze.cells.Length ==> maze.cells[i] == WALL
    {
      maze.Fill(WALL);
      var c := ShuffledChoice(rng);
      ChoiceNamesNoneTwice(c);
      stack.Push(DfsFrame(0, 0, 0, c));
    }

    /** _stepRandomizedDFS: mark the top cell PATH, then try its remaining directions in
        order; the first one that qualifies carves the cell in between and pushes a fresh
        frame for the target, and when none does the frame is popped. The cursor the loop
        advances is written back into the top frame. */
    method StepRandomizedDFS() returns (more: bool)
      requires DfsInv()
      modifies maze.cells, stack, rng
      ensures DfsInv()
      ensures more == (old(stack.items) != [])
      ensures !more ==> stack.items == old(stack.items) && maze.cells[..] == old(maze.cells[..])
      ensures more ==> DfsStepped(maze, old(maze.cells[..]), maze.cells[..], old(stack.items), stack.items)
    {
      if stack.IsEmpty() {
        return false;
      }
      var g := maze;
      var f := stack.Peek();
      ghost var s0, st0 := g.cells[..], stack.items;
      var next, nx, ny, cursor, d := DfsCarve(g, f);
      ghost var s1 := g.cells[..];
      DfsUpdateStack(f, next, nx, ny, cursor);
      assert maze.cells[..] == s1;
      DfsSteppedFrom(g, s0, s1, st0, stack.items, f, next, cursor, d);
      more := true;
    }

    /** The stack half of _stepRandomizedDFS: the advanced cursor is written back into the
        top frame, then a fresh frame with a shuffled choice list is pushed for the carved
        target, or the top frame is popped. */
    method DfsUpdateStack(f: Frame, next: bool, nx: int, ny: int, cursor: int)
      requires DfsInv() && stack.items != [] && f == stack.Peek() && f.at <= cursor <= 4
      requires next ==> 0 <= nx < maze.hcells && 0 <= ny < maze.vcells && nx % 2 == 0 && ny % 2 == 0
      modifies stack, rng
      ensures DfsInv()
      ensures |stack.items| == if next then |old(stack.items)| + 1 else |old(stack.items)| - 1
      ensures var n := |old(stack.items)|;
              stack.items == if next then old(stack.items)[..n - 1] + [f.(at := cursor)] + [stack.items[n]]
                             else old(stack.items)[..n - 1]
      ensures next ==> var nf := stack.items[|stack.items| - 1];
                nf.x == nx && nf.y == ny && nf.at == 0 && IsChoice(nf.choice) && Distinct4(nf.choice)
      ensures stack.items[..|old(stack.items)| - 1] == old(stack.items)[..|old(stack.items)| - 1]
      ensures next ==> stack.items[|old(stack.items)| - 1] == f.(at := cursor)
    {
      ghost var n := |stack.items|;
      ghost var rest := stack.items[..n - 1];
      stack.SetTop(f.(at := cursor));
      if next {
        var c := ShuffledChoice(rng);
        ChoiceNamesNoneTwice(c);
        stack.Push(DfsFrame(nx, ny, 0, c));
        assert stack.items == rest + [f.(at := cursor)] + [DfsFrame(nx, ny, 0, c)];
      } else {
        var _ := stack.Pop();
        assert stack.items == rest;
      }
      forall i | 0 <= i < |stack.items|
        ensures DfsFrameOk(stack.items[i], maze.hcells, maze.vcells)
      {
        if i < n - 1 {
          assert stack.items[i] == old(stack.items)[i];
        }
      }
    }

    ////////////////////////////////
    // Recursive Division
    ////////////////////////////////

    ghost predicate DivInv()
      reads this, stack
    {
      MazeOk() && maze.hcells >= 2 && maze.vcells >= 2 &&
      DivFramesOk(stack.items, maze.hcells, maze.vcells)
    }

    /** A dimension of a valid maze with at least two cells along the other fits an unsigned
        value with room to spare. */
    lemma DimensionsFit()
      requires MazeOk() && maze.hcells >= 2 && maze.vcells >= 2
      ensures maze.hcells < UINT_MAX && maze.vcells < UINT_MAX
    {
      ProductAtLeast(maze.vcells, maze.hcells);
      ProductAtLeast(maze.hcells, maze.vcells);
      ProductAtLeast(2, maze.hcells);
      ProductAtLeast(2, maze.vcells);
      assert maze.vcells * maze.hcells == maze.hcells * maze.vcells;
    }

    /** _initRecursiveDivision: an all-PATH maze and one frame covering all of it, split
        vertically when the draw is odd. */
    method InitRecursiveDivision()
      requires MazeOk() && maze.hcells >= 2 && maze.vcells >= 2 && stack.items == []
      modifies maze.cells, stack, rng
      ensures DivInv() && |stack.items| == 1
      ensures stack.items[0] == DivFrame(0, 0, maze.hcells - 1, maze.vcells - 1, Output(old(rng.state)) as int % 2 == 1)
      ensures rng.inc == old(rng.inc) && rng.state == NextState(old(rng.state), rng.inc)
      ensures forall i :: 0 <= i < maze.cells.Length ==> maze.cells[i] == PATH
    {
      maze.Fill(PATH);
      var d := Get(rng);
      stack.Push(DivFrame(0, 0, maze.hcells - 1, maze.vcells - 1, d as int % 2 == 1));
    }

    /** _stepRecursiveDivision: pop a region, raise a wall across it at an odd line `split`
        drawn inside it, push the regions on either side, and open the wall again at one or
        two even positions, `p1` and `p2`. No other cell changes. */
    method StepRecursiveDivision() returns (more: bool, ghost split: int, ghost two: bool, ghost p1: int, ghost p2: int)
      requires DivInv()
      modifies maze.cells, stack, rng
      ensures DivInv()
      ensures more == (old(stack.items) != [])
      ensures !more ==> stack.items == old(stack.items) && maze.cells[..] == old(maze.cells[..])
      ensures more ==> var n := |old(stack.items)|; var f := old(stack.items)[n - 1];
                stack.items == old(stack.items)[..n - 1] + Children(f, split) &&
                DivFrameOk(f, maze.hcells, maze.vcells) && Divided(maze, old(maze.cells[..]), f, split, two, p1, p2) &&
                forall x, y :: maze.PointInBounds(x, y) && !InRegion(f, x, y) ==>
                  maze.cells[maze.Index(x, y)] == old(maze.cells[maze.Index(x, y)])
    {
      split, two, p1, p2 := 0, false, 0, 0;
      if stack.IsEmpty() {
        return false, split, two, p1, p2;
      }
      split, two, p1, p2 := DivideTop();
      more := true;
    }

    /** The body of _stepRecursiveDivision once the stack is known not to be empty. */
    method DivideTop() returns (ghost split: int, ghost two: bool, ghost p1: int, ghost p2: int)
      requires DivInv() && stack.items != []
      modifies maze.cells, stack, rng
      ensures DivInv()
      ensures var n := |old(stack.items)|; var f := old(stack.items)[n - 1];
                stack.items == old(stack.items)[..n - 1] + Children(f, split) &&
                DivFrameOk(f, maze.hcells, maze.vcells) && Divided(maze, old(maze.cells[..]), f, split, two, p1, p2) &&
                forall x, y :: maze.PointInBounds(x, y) && !InRegion(f, x, y) ==>
                  maze.cells[maze.Index(x, y)] == old(maze.cells[maze.Index(x, y)])
    {
      DimensionsFit();
      DivFramesReplaceTop(stack.items, [], maze.hcells, maze.vcells);
      var f := stack.Pop();
      var line, t, q1, q2 := DivideRegion(maze, rng, f);
      PushChildren(f, line, maze.hcells, maze.vcells);
      split, two, p1, p2 := line, t, q1, q2;
    }

    /** The two `next` calls of _stepRecursiveDivision for the split `line` of region f. */
    method PushChildren(f: Frame, line: int, h: nat, v: nat)
      requires DivFrameOk(f, h, v) && line % 2 == 1
      requires if f.vertical then f.x <= line <= f.w else f.y <= line <= f.h
      requires DivFramesOk(stack.items, h, v)
      modifies stack
      ensures stack.items == old(stack.items) + Children(f, line) && DivFramesOk(stack.items, h, v)
    {
      var lx, lw, ly, lh := f.x, if f.vertical then line - 1 else f.w, f.y, if f.vertical then f.h else line - 1;
      var rx, rw, ry, rh := if f.vertical then line + 1 else f.x, f.w, if f.vertical then f.y else line + 1, f.h;
      PushRegion(lx, lw, ly, lh);
      PushRegion(rx, rw, ry, rh);
      assert stack.items == old(stack.items) + Children(f, line);
      ChildrenOk(f, line, h, v);
      DivFramesReplaceTop(old(stack.items) + [f], Children(f, line), h, v);
    }

    /** The `next` lambda: push the region when both extents exceed 1. */
    method PushRegion(x: int, w: int, y: int, h: int)
      modifies stack
      ensures stack.items == old(stack.items) + SubRegion(x, w, y, h)
    {
      if w - x <= 1 || h - y <= 1 {
        return;
      }
      stack.Push(DivFrame(x, y, w, h, w - x > h - y));
    }

    ////////////////////////////////
    // Randomized Kruskal's
    ////////////////////////////////

    /** The edge list holds `nedges` lattice edges, `at` of which have been consumed, and
        the union-find array has one slot per lattice cell. */
    ghost predicate KruskalInv()
      reads this, edges
    {
      MazeOk() && OddDims() && edges != null && verts != null &&
      edges.Length == nedges && verts.Length == nverts == VertexCount(maze.hcells, maze.vcells) &&
      verts != maze.cells &&
      at <= nedges && forall i :: 0 <= i < edges.Length ==> LatticeEdge(edges[i], maze.hcells, maze.vcells)
    }

    /** _initRandomizedKruskal with the union-find array allocated at `nverts` slots: an
        all-WALL maze, every lattice edge once in shuffled order, and every lattice cell in
        a set of its own. Needs odd dimensions (for even ones the enumeration leaves slots of
        the edge list unwritten) and at least one edge (Shuffle needs n >= 1). */
    method InitRandomizedKruskal()
      requires MazeOk() && OddDims() && (maze.hcells >= 3 || maze.vcells >= 3)
      requires edges == null && verts == null
      modifies this, maze.cells, rng
      ensures KruskalInv() && at == 0 && fresh(edges) && fresh(verts)
      ensures maze == old(maze) && kind == old(kind) && finished == old(finished) && freed == old(freed)
      ensures nedges == (maze.vcells / 2) * (maze.hcells / 2) * 2 + maze.hcells / 2 + maze.vcells / 2
      ensures nverts == (maze.hcells / 2 + 1) * (maze.vcells / 2 + 1)
      ensures multiset(edges[..]) == multiset(Enumerated(maze.hcells, maze.vcells))
      ensures forall i :: 0 <= i < verts.Length ==> verts[i] as int == i
      ensures forall i :: 0 <= i < maze.cells.Length ==> maze.cells[i] == WALL
    {
      maze.Fill(WALL);
      nverts, nedges, edges, verts := KruskalGraph(rng, maze.hcells, maze.vcells);
      at := 0;
    }


    /** _stepRandomizedKruskal: skip the edges whose ends are already in one set; for the
        first edge that joins two sets, merge them by relabelling and carve the edge. It
        returns false once the edge list is used up. */
    method StepRandomizedKruskal() returns (more: bool)
      requires KruskalInv()
      modifies this`at, verts, maze.cells
      ensures KruskalInv() && old(at) <= at
      ensures forall k :: old(at) <= k < at - (if more then 1 else 0) ==>
                Joined(old(verts[..]), edges[k], maze.hcells / 2)
      ensures !more ==> at == nedges && verts[..] == old(verts[..]) && maze.cells[..] == old(maze.cells[..])
      ensures more ==> old(at) < at
      ensures more ==> Merged(old(verts[..]), verts[..], edges[at - 1], maze.hcells, maze.vcells)
      ensures more ==> maze.cells[..] == Carved(maze, old(maze.cells[..]), edges[at - 1])
    {
      more, at := KruskalStep(maze, edges, verts, at);
    }
  
    ////////////////////////////////
    // Randomized Prim's
    ////////////////////////////////

    /** The worklist holds `at` worklist edges within the corrected capacity, and every
        carved lattice cell is PATH. */
    ghost predicate PrimInv()
      reads this, edges, maze, if maze != null then {maze.cells} else {}
    {
      MazeOk() && edges != null && PrimOk(maze, edges, at, carved)
    }

    /** _initRandomizedPrim with the worklist allocated at PrimSlots: an all-WALL maze with
        cell (0, 0) carved, and the two edges out of it. */
    method InitRandomizedPrim()
      requires MazeOk() && maze.hcells >= 3 && maze.vcells >= 3 && edges == null
      modifies this, maze.cells
      ensures PrimInv() && fresh(edges) && at == 2 && carved == {(0, 0)}
      ensures maze == old(maze) && kind == old(kind) && finished == old(finished) && freed == old(freed)
      ensures verts == old(verts)
      ensures edges[..2] == [Edge(0, 0, 2, 0), Edge(0, 0, 0, 2)]
      ensures forall i :: 0 <= i < maze.cells.Length ==> maze.cells[i] == if i == 0 then PATH else WALL
    {
      edges := PrimStart(maze);
      at := 2;
      carved := {(0, 0)};
    }

    /** _stepRandomizedPrim: the step of PrimStep on the maze and the worklist; `e` is the
        edge carved and `skipped` the entries dropped because they led to PATH cells. */
    method StepRandomizedPrim() returns (more: bool, ghost e: Edge, ghost skipped: seq<Edge>)
      requires PrimInv()
      modifies this`at, this`carved, edges, maze.cells, rng
      ensures PrimInv() && rng.inc == old(rng.inc) && old(AllVisited(maze, skipped))
      ensures !more ==> at == 0 && carved == old(carved) && maze.cells[..] == old(maze.cells[..])
      ensures !more ==> multiset(old(edges[..at])) == multiset(skipped)
      ensures more ==> WorkEdge(e, maze.hcells, maze.vcells) && old(maze.Cell(e.x1, e.y1)) != PATH
      ensures more ==> carved == old(carved) + {(e.x1 / 2, e.y1 / 2)} && |carved| == |old(carved)| + 1
      ensures more ==> maze.cells[..] == PrimCarved(maze, old(maze.cells[..]), e)
      ensures more ==> Appended(old(edges[..at]), edges[..at], skipped, e, maze.hcells, maze.vcells)
    {
      ghost var c0 := carved;
      var e', at';
      more, e', at', skipped := PrimStep(maze, rng, edges, at, c0);
      e := e';
      at := at';
      if more {
        assert (e.x1 / 2, e.y1 / 2) !in c0;
        carved := c0 + {(e.x1 / 2, e.y1 / 2)};
      }
    }
  }
}

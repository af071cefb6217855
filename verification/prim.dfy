/** The swap-remove worklist of _initRandomizedPrim/_stepRandomizedPrim in
    source/generator.cpp: directed edges between lattice cells two apart, drawn at random
    and removed by moving the last entry into the hole. */
module Prims {
  import opened Base
  import opened Grids
  import opened Rng
  import opened Lattice

  /** A lattice cell of an h by v maze: both coordinates even and in range. */
  predicate OnLattice(x: int, y: int, h: nat, v: nat)
  {
    0 <= x < h && 0 <= y < v && x % 2 == 0 && y % 2 == 0
  }

  /** A worklist edge: from a lattice cell to one two cells away in one of the four
      directions, both ends in range. */
  predicate WorkEdge(e: Edge, h: nat, v: nat)
  {
    OnLattice(e.x0, e.y0, h, v) && OnLattice(e.x1, e.y1, h, v) &&
    ((e.x1 == e.x0 && (e.y1 == e.y0 + 2 || e.y1 == e.y0 - 2)) ||
     (e.y1 == e.y0 && (e.x1 == e.x0 + 2 || e.x1 == e.x0 - 2)))
  }

  /** Every entry of `w` is a worklist edge. */
  ghost predicate AllWork(w: seq<Edge>, h: nat, v: nat)
  {
    forall k :: 0 <= k < |w| ==> WorkEdge(w[k], h, v)
  }

  /** The cell a worklist edge passes over lies in range. */
  lemma WorkEdgeMidInRange(e: Edge, h: nat, v: nat)
    requires WorkEdge(e, h, v)
    ensures 0 <= MidX(e) < h && 0 <= MidY(e) < v
    ensures MidX(e) % 2 == 1 || MidY(e) % 2 == 1
  {
    if e.x1 == e.x0 {
      assert MidX(e) == e.x0;
      if e.y1 == e.y0 + 2 { assert MidY(e) == e.y0 + 1; } else { assert MidY(e) == e.y0 - 1; }
    } else {
      assert MidY(e) == e.y0;
      if e.x1 == e.x0 + 2 { assert MidX(e) == e.x0 + 1; } else { assert MidX(e) == e.x0 - 1; }
    }
  }

  ////////////////////////////////
  // Counting lattice cells
  ////////////////////////////////

  /** Lattice cells are counted in half coordinates: cell (x, y) is (x / 2, y / 2). */
  predicate HalfInRange(p: (int, int), h: nat, v: nat)
  {
    0 <= p.0 < Evens(h) && 0 <= p.1 < Evens(v)
  }

  /** Half coordinates (0, b), (1, b), ..., (n - 1, b). */
  ghost function RowPoints(b: int, n: nat): (r: set<(int, int)>)
    ensures forall p :: p in r <==> p.1 == b && 0 <= p.0 < n
    ensures |r| == n
  {
    if n == 0 then {} else RowPoints(b, n - 1) + {(n - 1, b)}
  }

  /** Half coordinates of rows 0 .. m - 1, n per row. */
  ghost function GridPoints(m: nat, n: nat): (r: set<(int, int)>)
    ensures forall p :: p in r <==> 0 <= p.1 < m && 0 <= p.0 < n
    ensures |r| == RowStart(m, n)
  {
    if m == 0 then {}
    else
      var a, b := GridPoints(m - 1, n), RowPoints(m - 1, n);
      assert a * b == {};
      a + b
  }

  /** The number of lattice cells of an h by v maze. */
  function LatticeSize(h: nat, v: nat): nat
  {
    RowStart(Evens(v), Evens(h))
  }

  /** Every set of lattice cells of an h by v maze has at most LatticeSize(h, v) members. */
  lemma LatticeSetBound(c: set<(int, int)>, h: nat, v: nat)
    requires forall p :: p in c ==> HalfInRange(p, h, v)
    ensures |c| <= LatticeSize(h, v)
  {
    var all := GridPoints(Evens(v), Evens(h));
    assert c <= all;
    assert all == c + (all - c);
  }

  /** There are no more lattice cells than union-find slots of the Kruskal graph. */
  lemma LatticeSizeAtMostVertexCount(h: nat, v: nat)
    ensures LatticeSize(h, v) <= VertexCount(h, v)
  {
    RowStartMonoBoth(Evens(v), v / 2 + 1, Evens(h), h / 2 + 1);
  }

  ////////////////////////////////
  // Worklist operations
  ////////////////////////////////

  /** Removing entry i by moving the last entry into its place. */
  function SwapRemove(w: seq<Edge>, i: nat): (r: seq<Edge>)
    requires i < |w|
  {
    w[i := w[|w| - 1]][..|w| - 1]
  }

  /** Swap-remove drops exactly the one entry w[i]. */
  lemma SwapRemoveDropsOne(w: seq<Edge>, i: nat)
    requires i < |w|
    ensures multiset(SwapRemove(w, i)) + multiset{w[i]} == multiset(w)
  {
    var n := |w|;
    var r := SwapRemove(w, i);
    assert w == w[..n - 1] + [w[n - 1]];
    if i < n - 1 {
      var u := w[..n - 1][i := w[n - 1]];
      assert r == u;
      assert multiset(u) == multiset(w[..n - 1]) - multiset{w[i]} + multiset{w[n - 1]};
    } else {
      assert r == w[..n - 1];
    }
  }

  /** Every entry but the last keeps its position, and the last moves into the hole. */
  lemma SwapRemovePositions(w: seq<Edge>, i: nat)
    requires i < |w|
    ensures |SwapRemove(w, i)| == |w| - 1
    ensures forall k :: 0 <= k < |w| - 1 && k != i ==> SwapRemove(w, i)[k] == w[k]
    ensures i < |w| - 1 ==> SwapRemove(w, i)[i] == w[|w| - 1]
  {
  }

  /** The edge the addEdge lambda appends for offset (dx, dy), if its far end is in range. */
  function Toward(e: Edge, dx: int, dy: int, h: nat, v: nat): seq<Edge>
  {
    var x2, y2 := e.x1 + dx, e.y1 + dy;
    if 0 <= x2 < h && 0 <= y2 < v then [Edge(e.x1, e.y1, x2, y2)] else []
  }

  /** The edges appended after carving e, in the order +y, -y, +x, -x. */
  function Frontier(e: Edge, h: nat, v: nat): (r: seq<Edge>)
    ensures |r| <= 4
  {
    Toward(e, 0, 2, h, v) + Toward(e, 0, -2, h, v) + Toward(e, 2, 0, h, v) + Toward(e, -2, 0, h, v)
  }

  /** The appended edges are exactly the in-range edges from the far end of e to a cell two
      away. */
  lemma {:induction false} FrontierIsNeighbours(e: Edge, h: nat, v: nat)
    ensures forall f :: f in Frontier(e, h, v) <==>
      f.x0 == e.x1 && f.y0 == e.y1 && 0 <= f.x1 < h && 0 <= f.y1 < v &&
      ((f.x1 == f.x0 && (f.y1 == f.y0 + 2 || f.y1 == f.y0 - 2)) ||
       (f.y1 == f.y0 && (f.x1 == f.x0 + 2 || f.x1 == f.x0 - 2)))
  {
    var a, b, c, d := Toward(e, 0, 2, h, v), Toward(e, 0, -2, h, v), Toward(e, 2, 0, h, v), Toward(e, -2, 0, h, v);
    assert Frontier(e, h, v) == a + b + c + d;
  }

  /** From a lattice cell, a step of two in one direction is a worklist edge if it stays in
      range. */
  lemma TowardIsWork(e: Edge, dx: int, dy: int, h: nat, v: nat)
    requires OnLattice(e.x1, e.y1, h, v)
    requires (dx == 0 && (dy == 2 || dy == -2)) || (dy == 0 && (dx == 2 || dx == -2))
    ensures AllWork(Toward(e, dx, dy, h, v), h, v)
  {
  }

  /** From a lattice cell every appended edge is a worklist edge. */
  lemma {:induction false} FrontierAreWorkEdges(e: Edge, h: nat, v: nat)
    requires OnLattice(e.x1, e.y1, h, v)
    ensures AllWork(Frontier(e, h, v), h, v)
  {
    var a, b, c, d := Toward(e, 0, 2, h, v), Toward(e, 0, -2, h, v), Toward(e, 2, 0, h, v), Toward(e, -2, 0, h, v);
    TowardIsWork(e, 0, 2, h, v);
    TowardIsWork(e, 0, -2, h, v);
    TowardIsWork(e, 2, 0, h, v);
    TowardIsWork(e, -2, 0, h, v);
    AllWorkConcat(a, b, h, v);
    AllWorkConcat(a + b, c, h, v);
    AllWorkConcat(a + b + c, d, h, v);
  }

  /** No edge is appended twice. */
  lemma {:induction false} FrontierDistinct(e: Edge, h: nat, v: nat)
    ensures forall j, k :: 0 <= j < k < |Frontier(e, h, v)| ==> Frontier(e, h, v)[j] != Frontier(e, h, v)[k]
  {
    var a, b, c, d := Toward(e, 0, 2, h, v), Toward(e, 0, -2, h, v), Toward(e, 2, 0, h, v), Toward(e, -2, 0, h, v);
    assert Frontier(e, h, v) == a + b + c + d;
  }

  lemma AllWorkConcat(a: seq<Edge>, b: seq<Edge>, h: nat, v: nat)
    requires AllWork(a, h, v) && AllWork(b, h, v)
    ensures AllWork(a + b, h, v)
  {
  }

  /** The worklist's slots as _initRandomizedPrim allocates them: `nedges` of the Kruskal
      graph, the number of undirected lattice edges. */
  function PrimSlotsAsWritten(h: nat, v: nat): nat
  {
    (v / 2) * (h / 2) * 2 + h / 2 + v / 2
  }

  /** A 3 by 3 maze run whose third carve appends a fifth worklist entry to a four-slot
      buffer: the picks are (0,0)->(2,0) at index 0, (2,0)->(2,2) at index 1 and
      (2,2)->(0,2) at index 3, three distinct cells other than the start, each still WALL
      when picked. */
  lemma PrimOverflowAsWritten()
    ensures var w0 := [Edge(0, 0, 2, 0), Edge(0, 0, 0, 2)];
            var w1 := SwapRemove(w0, 0) + Frontier(w0[0], 3, 3);
            var w2 := SwapRemove(w1, 1) + Frontier(w1[1], 3, 3);
            var w3 := SwapRemove(w2, 3) + Frontier(w2[3], 3, 3);
            w0[0] == Edge(0, 0, 2, 0) && w1[1] == Edge(2, 0, 2, 2) && w2[3] == Edge(2, 2, 0, 2) &&
            |w2| == PrimSlotsAsWritten(3, 3) == 4 && |w3| == 5
  {
    var w0 := [Edge(0, 0, 2, 0), Edge(0, 0, 0, 2)];
    var w1 := [Edge(0, 0, 0, 2), Edge(2, 0, 2, 2), Edge(2, 0, 0, 0)];
    var w2 := [Edge(0, 0, 0, 2), Edge(2, 0, 0, 0), Edge(2, 2, 2, 0), Edge(2, 2, 0, 2)];
    assert SwapRemove(w0, 0) == [Edge(0, 0, 0, 2)];
    assert SwapRemove(w1, 1) == [Edge(0, 0, 0, 2), Edge(2, 0, 0, 0)];
    OverflowFirstCarve();
    OverflowSecondCarve();
    OverflowThirdCarve();
    assert |SwapRemove(w2, 3)| == 3;
    assert PrimSlotsAsWritten(3, 3) == 4;
  }

  /** The frontiers of the three carves of PrimOverflowAsWritten. */
  lemma OverflowFirstCarve()
    ensures Frontier(Edge(0, 0, 2, 0), 3, 3) == [Edge(2, 0, 2, 2), Edge(2, 0, 0, 0)]
  {
    assert Toward(Edge(0, 0, 2, 0), 0, -2, 3, 3) == [] && Toward(Edge(0, 0, 2, 0), 2, 0, 3, 3) == [];
  }

  lemma OverflowSecondCarve()
    ensures Frontier(Edge(2, 0, 2, 2), 3, 3) == [Edge(2, 2, 2, 0), Edge(2, 2, 0, 2)]
  {
    assert Toward(Edge(2, 0, 2, 2), 0, 2, 3, 3) == [] && Toward(Edge(2, 0, 2, 2), 2, 0, 3, 3) == [];
  }

  lemma OverflowThirdCarve()
    ensures Frontier(Edge(2, 2, 0, 2), 3, 3) == [Edge(0, 2, 0, 0), Edge(0, 2, 2, 2)]
  {
    assert Toward(Edge(2, 2, 0, 2), 0, 2, 3, 3) == [] && Toward(Edge(2, 2, 0, 2), -2, 0, 3, 3) == [];
  }

  /** The worklist's slots with the capacity corrected: three per lattice cell, as many as
      the budget argument of PrimOk needs. */
  function PrimSlots(h: nat, v: nat): (r: nat)
    ensures r >= 3 * LatticeSize(h, v)
  {
    LatticeSizeAtMostVertexCount(h, v);
    3 * VertexCount(h, v)
  }

  /** Every carved lattice cell, in half coordinates, is PATH in the cells `s` of g. */
  ghost predicate CarvedPath(g: Grid, s: seq<u32>, carved: set<(int, int)>)
    requires |s| == g.hcells * g.vcells
  {
    forall p :: p in carved ==> HalfInRange(p, g.hcells, g.vcells) && s[g.Index(2 * p.0, 2 * p.1)] == PATH
  }

  /** The worklist state between steps, for a maze `g` with the `carved` lattice cells:
      every entry is a worklist edge, every carved cell is PATH, and the entries plus three
      per lattice cell still to be carved stay below the corrected capacity. Each carve
      removes at least one entry and appends at most four, so the budget never runs out. */
  ghost predicate PrimOk(g: Grid, edges: array<Edge>, at: nat, carved: set<(int, int)>)
    reads g.cells, edges
  {
    g.Valid() && g.hcells >= 3 && g.vcells >= 3 &&
    edges.Length == PrimSlots(g.hcells, g.vcells) && at <= edges.Length &&
    AllWork(edges[..at], g.hcells, g.vcells) && CarvedPath(g, g.cells[..], carved) &&
    at + 3 * (LatticeSize(g.hcells, g.vcells) - |carved|) <= 3 * LatticeSize(g.hcells, g.vcells) - 1
  }

  /** `RNG::Get() % n`: some index below n. */
  method DrawBelow(rng: Pcg32, n: nat) returns (i: nat)
    requires n >= 1
    modifies rng
    ensures rng.inc == old(rng.inc) && i < n
  {
    var r := Get(rng);
    i := (r as nat) % n;
  }

  /** One draw of _stepRandomizedPrim: pick entry i of the first `at0`, shrink the worklist
      by one and move its last entry into the hole. */
  method PickEdge(rng: Pcg32, edges: array<Edge>, at0: nat, ghost h: nat, ghost v: nat) returns (i: nat, e: Edge, at: nat)
    requires 1 <= at0 <= edges.Length
    modifies rng, edges
    ensures rng.inc == old(rng.inc) && at == at0 - 1 && i < at0 && e == old(edges[i])
    ensures edges[..] == old(edges[..])[i := old(edges[at0 - 1])]
    ensures edges[..at] == SwapRemove(old(edges[..at0]), i)
    ensures multiset(old(edges[..at0])) == multiset(edges[..at]) + multiset{e}
    ensures AllWork(old(edges[..at0]), h, v) ==> AllWork(edges[..at], h, v) && WorkEdge(e, h, v)
  {
    i := DrawBelow(rng, at0);
    at := at0 - 1;
    e := edges[i];
    edges[i] := edges[at];
    assert edges[..at] == SwapRemove(old(edges[..at0]), i);
    SwapRemoveDropsOne(old(edges[..at0]), i);
    if AllWork(old(edges[..at0]), h, v) {
      SwapRemoveKeepsWork(old(edges[..at0]), i, h, v);
    }
  }

  /** Every entry of `w` is a worklist edge leading to a cell of g that is PATH. */
  ghost predicate AllVisited(g: Grid, w: seq<Edge>)
    reads g.cells
  {
    g.Valid() && AllWork(w, g.hcells, g.vcells) && forall k :: 0 <= k < |w| ==> g.Cell(w[k].x1, w[k].y1) == PATH
  }

  lemma AllVisitedSnoc(g: Grid, w: seq<Edge>, e: Edge)
    requires AllVisited(g, w) && WorkEdge(e, g.hcells, g.vcells) && g.Cell(e.x1, e.y1) == PATH
    ensures AllVisited(g, w + [e])
  {
  }

  lemma SwapRemoveKeepsWork(w: seq<Edge>, i: nat, h: nat, v: nat)
    requires i < |w| && AllWork(w, h, v)
    ensures AllWork(SwapRemove(w, i), h, v) && WorkEdge(w[i], h, v)
  {
    SwapRemovePositions(w, i);
  }

  /** Part way through the picking loop: the worklist `w0` has become `w`, the `skipped`
      entries, which all led to PATH cells, and the current candidate `e`. */
  ghost predicate Picking(g: Grid, w0: seq<Edge>, w: seq<Edge>, skipped: seq<Edge>, e: Edge)
    reads g.cells
  {
    AllWork(w, g.hcells, g.vcells) && WorkEdge(e, g.hcells, g.vcells) && AllVisited(g, skipped) &&
    multiset(w0) == multiset(w) + multiset(skipped) + multiset{e}
  }

  /** Skipping the candidate and drawing the next one keeps Picking. */
  lemma PickingNext(g: Grid, w0: seq<Edge>, w: seq<Edge>, skipped: seq<Edge>, e: Edge, w1: seq<Edge>, e1: Edge)
    requires Picking(g, w0, w, skipped, e) && g.Cell(e.x1, e.y1) == PATH
    requires multiset(w) == multiset(w1) + multiset{e1}
    requires AllWork(w, g.hcells, g.vcells) ==> AllWork(w1, g.hcells, g.vcells) && WorkEdge(e1, g.hcells, g.vcells)
    ensures Picking(g, w0, w1, skipped + [e], e1)
  {
    AllVisitedSnoc(g, skipped, e);
  }

  /** The picking loop of _stepRandomizedPrim: draw entries until one leads to a cell that is
      not yet PATH. Every entry skipped led to a PATH cell; when the worklist runs dry there
      is no such entry. */
  method PickUncarved(g: Grid, rng: Pcg32, edges: array<Edge>, at0: nat)
      returns (found: bool, e: Edge, at: nat, ghost skipped: seq<Edge>)
    requires g.Valid() && at0 <= edges.Length && AllWork(edges[..at0], g.hcells, g.vcells)
    modifies rng, edges
    ensures rng.inc == old(rng.inc) && at <= at0
    ensures AllWork(edges[..at], g.hcells, g.vcells) && AllVisited(g, skipped)
    ensures !found ==> at == 0 && multiset(old(edges[..at0])) == multiset(skipped)
    ensures found ==> at < at0 && WorkEdge(e, g.hcells, g.vcells) && g.Cell(e.x1, e.y1) != PATH
    ensures found ==> multiset(old(edges[..at0])) == multiset(edges[..at]) + multiset(skipped) + multiset{e}
  {
    skipped := [];
    at := at0;
    if at == 0 {
      return false, Edge(0, 0, 0, 0), at, skipped;
    }
    ghost var w0 := edges[..at0];
    var i;
    i, e, at := PickEdge(rng, edges, at, g.hcells, g.vcells);
    while g.Cell(e.x1, e.y1) == PATH
      invariant at < at0 && rng.inc == old(rng.inc)
      invariant Picking(g, w0, edges[..at], skipped, e)
      decreases at
    {
      if at == 0 {
        AllVisitedSnoc(g, skipped, e);
        return false, e, at, skipped + [e];
      }
      ghost var w := edges[..at];
      ghost var e0 := e;
      i, e, at := PickEdge(rng, edges, at, g.hcells, g.vcells);
      PickingNext(g, w0, w, skipped, e0, edges[..at], e);
      skipped := skipped + [e0];
    }
    found := true;
  }

  /** The addEdge lambda: append the edge from e's far end by (dx, dy) when that cell is in
      range. */
  method AddEdge(g: Grid, edges: array<Edge>, at0: nat, e: Edge, dx: int, dy: int) returns (at: nat)
    requires at0 + |Toward(e, dx, dy, g.hcells, g.vcells)| <= edges.Length
    modifies edges
    ensures at == at0 + |Toward(e, dx, dy, g.hcells, g.vcells)|
    ensures edges[..at] == old(edges[..at0]) + Toward(e, dx, dy, g.hcells, g.vcells)
    ensures edges[at..] == old(edges[at..])
  {
    at := at0;
    var x2, y2 := e.x1 + dx, e.y1 + dy;
    if g.PointInBounds(x2, y2) {
      edges[at] := Edge(e.x1, e.y1, x2, y2);
      at := at + 1;
    }
  }

  /** The four addEdge calls, in the source's order. */
  method AddFrontier(g: Grid, edges: array<Edge>, at0: nat, e: Edge) returns (at: nat)
    requires at0 + |Frontier(e, g.hcells, g.vcells)| <= edges.Length
    modifies edges
    ensures at == at0 + |Frontier(e, g.hcells, g.vcells)|
    ensures edges[..at] == old(edges[..at0]) + Frontier(e, g.hcells, g.vcells)
  {
    var h, v := g.hcells, g.vcells;
    at := AddEdge(g, edges, at0, e, 0, 2);
    at := AddEdge(g, edges, at, e, 0, -2);
    at := AddEdge(g, edges, at, e, 2, 0);
    at := AddEdge(g, edges, at, e, -2, 0);
    assert edges[..at] == old(edges[..at0]) + Toward(e, 0, 2, h, v) + Toward(e, 0, -2, h, v)
                          + Toward(e, 2, 0, h, v) + Toward(e, -2, 0, h, v);
  }

  /** The two writes of a Prim carve: the far end of e and the cell between its ends. */
  ghost function PrimCarved(g: Grid, s: seq<u32>, e: Edge): (r: seq<u32>)
    requires |s| == g.hcells * g.vcells && WorkEdge(e, g.hcells, g.vcells)
    ensures |r| == |s|
  {
    WorkEdgeMidInRange(e, g.hcells, g.vcells);
    s[g.Index(e.x1, e.y1) := PATH][g.Index(MidX(e), MidY(e)) := PATH]
  }

  /** Carving only turns cells into PATH, so carved cells stay PATH. */
  lemma CarvedPathKept(g: Grid, s: seq<u32>, e: Edge, carved: set<(int, int)>)
    requires |s| == g.hcells * g.vcells && WorkEdge(e, g.hcells, g.vcells) && CarvedPath(g, s, carved)
    ensures CarvedPath(g, PrimCarved(g, s, e), carved)
  {
  }

  /** Carving e's far end adds it to the carved cells; it was not among them when it was
      not PATH. */
  lemma CarvedPathGrows(g: Grid, s: seq<u32>, e: Edge, carved: set<(int, int)>)
    requires |s| == g.hcells * g.vcells && WorkEdge(e, g.hcells, g.vcells) && CarvedPath(g, s, carved)
    requires s[g.Index(e.x1, e.y1)] != PATH
    ensures (e.x1 / 2, e.y1 / 2) !in carved
    ensures CarvedPath(g, PrimCarved(g, s, e), carved + {(e.x1 / 2, e.y1 / 2)})
  {
    CarvedPathKept(g, s, e, carved);
    WorkEdgeMidInRange(e, g.hcells, g.vcells);
    assert 2 * (e.x1 / 2) == e.x1 && 2 * (e.y1 / 2) == e.y1;
    var q := (e.x1 / 2, e.y1 / 2);
    assert HalfInRange(q, g.hcells, g.vcells);
  }

  /** The two writes of a Prim carve. */
  method CarveFar(g: Grid, e: Edge)
    requires g.Valid() && WorkEdge(e, g.hcells, g.vcells)
    modifies g.cells
    ensures g.cells[..] == PrimCarved(g, old(g.cells[..]), e)
  {
    WorkEdgeMidInRange(e, g.hcells, g.vcells);
    g.Set(e.x1, e.y1, PATH);
    g.Set(MidX(e), MidY(e), PATH);
  }

  /** One _stepRandomizedPrim on maze g, worklist `edges[..at0]` and the `carved` lattice
      cells. When the worklist runs dry every entry was skipped and the grid is unchanged;
      otherwise the first entry leading to a non-PATH cell is removed, its far end and
      midpoint are carved, the far end's in-range edges are appended, and the worklist
      state holds again with one more carved cell. */
  method PrimStep(g: Grid, rng: Pcg32, edges: array<Edge>, at0: nat, ghost carved: set<(int, int)>)
      returns (more: bool, e: Edge, at: nat, ghost skipped: seq<Edge>)
    requires PrimOk(g, edges, at0, carved)
    modifies rng, edges, g.cells
    ensures rng.inc == old(rng.inc) && old(AllVisited(g, skipped))
    ensures !more ==> at == 0 && PrimOk(g, edges, at, carved) && g.cells[..] == old(g.cells[..])
    ensures !more ==> multiset(old(edges[..at0])) == multiset(skipped)
    ensures more ==> WorkEdge(e, g.hcells, g.vcells) && old(g.Cell(e.x1, e.y1)) != PATH
    ensures more ==> (e.x1 / 2, e.y1 / 2) !in carved && PrimOk(g, edges, at, carved + {(e.x1 / 2, e.y1 / 2)})
    ensures more ==> g.cells[..] == PrimCarved(g, old(g.cells[..]), e)
    ensures more ==> Appended(old(edges[..at0]), edges[..at], skipped, e, g.hcells, g.vcells)
  {
    var h, v := g.hcells, g.vcells;
    var found;
    found, e, at, skipped := PickUncarved(g, rng, edges, at0);
    if !found {
      return false, e, at, skipped;
    }
    ghost var rest := edges[..at];
    ghost var before := g.cells[..];
    CarveFar(g, e);
    CarvedPathGrows(g, before, e, carved);
    LatticeSetBound(carved + {(e.x1 / 2, e.y1 / 2)}, h, v);
    FrontierAreWorkEdges(e, h, v);
    at := AddFrontier(g, edges, at, e);
    AllWorkConcat(rest, Frontier(e, h, v), h, v);
    more := true;
  }

  /** The worklist after a carving step: what remains of `w0` once e and the skipped
      entries are gone, followed by e's frontier. */
  ghost predicate Appended(w0: seq<Edge>, w1: seq<Edge>, skipped: seq<Edge>, e: Edge, h: nat, v: nat)
  {
    var f := Frontier(e, h, v);
    |w1| >= |f| && w1[|w1| - |f|..] == f &&
    multiset(w0) == multiset(w1[..|w1| - |f|]) + multiset(skipped) + multiset{e}
  }

  /** _initRandomizedPrim's buffer, with the capacity corrected: an all-WALL maze but for
      cell (0, 0), and the two edges out of it. */
  method PrimStart(g: Grid) returns (edges: array<Edge>)
    requires g.Valid() && g.hcells >= 3 && g.vcells >= 3
    modifies g.cells
    ensures fresh(edges) && PrimOk(g, edges, 2, {(0, 0)})
    ensures edges[..2] == [Edge(0, 0, 2, 0), Edge(0, 0, 0, 2)]
    ensures forall i :: 0 <= i < g.cells.Length ==> g.cells[i] == if i == 0 then PATH else WALL
  {
    var hh, hv := g.hcells / 2, g.vcells / 2;
    g.Fill(WALL);
    VertexCountIsProduct(g.hcells, g.vcells);
    edges := new Edge[3 * ((hh + 1) * (hv + 1))];
    g.Set(0, 0, PATH);
    edges[0] := Edge(0, 0, 2, 0);
    edges[1] := Edge(0, 0, 0, 2);
    assert g.Index(0, 0) == 0;
    assert |{(0, 0)}| == 1;
    LatticeSetBound({(0, 0)}, g.hcells, g.vcells);
  }
}

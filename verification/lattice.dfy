/** The even-cell lattice the Kruskal and Prim generators of source/generator.cpp work on:
    cells with two even coordinates are the vertices, and an edge joins two of them two
    cells apart along a row or a column, passing over the odd cell between them. */
module Lattice {
  import opened Base
  import opened Grids

  /** `Generator::Edge`: from (x0, y0) to (x1, y1). */
  datatype Edge = Edge(x0: int, y0: int, x1: int, y1: int)

  /** An edge of the lattice of an h by v maze: both ends are in range and even, and the far
      end is two cells right of or above the near end. */
  predicate LatticeEdge(e: Edge, h: int, v: int)
  {
    0 <= e.x0 && 0 <= e.y0 && e.x0 % 2 == 0 && e.y0 % 2 == 0 && e.x1 < h && e.y1 < v &&
    ((e.x1 == e.x0 + 2 && e.y1 == e.y0) || (e.x1 == e.x0 && e.y1 == e.y0 + 2))
  }

  /** The number of even values below n. */
  function Evens(n: nat): nat
  {
    (n + 1) / 2
  }

  /** The number of even x with `x < n - 2`: how many columns of rightward edges the first
      loop of _initRandomizedKruskal enumerates for n columns of cells. */
  function Spans(n: nat): nat
  {
    if n <= 2 then 0 else (n - 1) / 2
  }

  /** The rightward edges out of column x, bottom to top. */
  function Column(x: int, v: nat): (r: seq<Edge>)
    ensures |r| == Evens(v)
  {
    seq(Evens(v), j requires 0 <= j < Evens(v) => Edge(x, 2 * j, x + 2, 2 * j))
  }

  /** The upward edges out of row y, left to right. */
  function Row(y: int, h: nat): (r: seq<Edge>)
    ensures |r| == Evens(h)
  {
    seq(Evens(h), j requires 0 <= j < Evens(h) => Edge(2 * j, y, 2 * j, y + 2))
  }

  /** The rightward edges out of the first k even columns. */
  function Rightward(k: nat, v: nat): (r: seq<Edge>)
    ensures |r| == RowStart(k, Evens(v))
  {
    if k == 0 then [] else Rightward(k - 1, v) + Column(2 * (k - 1), v)
  }

  /** The upward edges out of the first k even rows. */
  function Upward(k: nat, h: nat): (r: seq<Edge>)
    ensures |r| == RowStart(k, Evens(h))
  {
    if k == 0 then [] else Upward(k - 1, h) + Row(2 * (k - 1), h)
  }

  /** The edge list of _initRandomizedKruskal before the shuffle, in enumeration order. */
  function Enumerated(h: nat, v: nat): seq<Edge>
  {
    Rightward(Spans(h), v) + Upward(Spans(v), h)
  }

  /** For odd dimensions the enumeration yields exactly the `nedges` the code allocates:
      `hh * hv * 2 + hh + hv` with `hh = h >> 1` and `hv = v >> 1`. */
  lemma {:induction false} EnumeratedCount(h: nat, v: nat)
    requires h % 2 == 1 && v % 2 == 1
    ensures |Enumerated(h, v)| == (v / 2) * (h / 2) * 2 + h / 2 + v / 2
  {
    var hh, hv := h / 2, v / 2;
    assert Spans(h) == hh && Spans(v) == hv && Evens(v) == hv + 1 && Evens(h) == hh + 1;
    RowStartIsProduct(hh, hv + 1);
    RowStartIsProduct(hv, hh + 1);
    assert hh * (hv + 1) + hv * (hh + 1) == hv * hh * 2 + hh + hv;
  }

  lemma {:induction false} RightwardAreLatticeEdges(k: nat, h: nat, v: nat)
    requires k <= Spans(h)
    ensures forall i :: 0 <= i < |Rightward(k, v)| ==> LatticeEdge(Rightward(k, v)[i], h, v)
  {
    if k > 0 {
      RightwardAreLatticeEdges(k - 1, h, v);
      var c := Column(2 * (k - 1), v);
      forall i | 0 <= i < |Rightward(k, v)|
        ensures LatticeEdge(Rightward(k, v)[i], h, v)
      {
        if i >= |Rightward(k - 1, v)| {
          var j := i - |Rightward(k - 1, v)|;
          assert Rightward(k, v)[i] == c[j];
        }
      }
    }
  }

  lemma {:induction false} UpwardAreLatticeEdges(k: nat, h: nat, v: nat)
    requires k <= Spans(v)
    ensures forall i :: 0 <= i < |Upward(k, h)| ==> LatticeEdge(Upward(k, h)[i], h, v)
  {
    if k > 0 {
      UpwardAreLatticeEdges(k - 1, h, v);
      var r := Row(2 * (k - 1), h);
      forall i | 0 <= i < |Upward(k, h)|
        ensures LatticeEdge(Upward(k, h)[i], h, v)
      {
        if i >= |Upward(k - 1, h)| {
          var j := i - |Upward(k - 1, h)|;
          assert Upward(k, h)[i] == r[j];
        }
      }
    }
  }

  /** Every enumerated edge is an edge of the lattice. */
  lemma EnumeratedAreLatticeEdges(h: nat, v: nat)
    ensures forall i :: 0 <= i < |Enumerated(h, v)| ==> LatticeEdge(Enumerated(h, v)[i], h, v)
  {
    RightwardAreLatticeEdges(Spans(h), h, v);
    UpwardAreLatticeEdges(Spans(v), h, v);
    var a, b := Rightward(Spans(h), v), Upward(Spans(v), h);
    forall i | 0 <= i < |a + b|
      ensures LatticeEdge((a + b)[i], h, v)
    {
      if i >= |a| {
        assert (a + b)[i] == b[i - |a|];
      }
    }
  }

  /** The union-find slot of the even cell (x, y): `(y / 2) * (hh + 1) + x / 2`, counting
      lattice rows one at a time. */
  function VertexOf(x: nat, y: nat, hh: nat): nat
  {
    RowStart(y / 2, hh + 1) + x / 2
  }

  lemma VertexOfIsRowMajor(x: nat, y: nat, hh: nat)
    ensures VertexOf(x, y, hh) == (y / 2) * (hh + 1) + x / 2
  {
    RowStartIsProduct(y / 2, hh + 1);
  }

  /** `nverts`: the number of lattice cells, `(hh + 1) * (hv + 1)`. */
  function VertexCount(h: nat, v: nat): nat
  {
    RowStart(v / 2 + 1, h / 2 + 1)
  }

  lemma VertexCountIsProduct(h: nat, v: nat)
    ensures VertexCount(h, v) == (h / 2 + 1) * (v / 2 + 1)
  {
    RowStartIsProduct(v / 2 + 1, h / 2 + 1);
  }

  /** Both ends of a lattice edge have slots below `nverts`. */
  lemma VertexOfInRange(e: Edge, h: nat, v: nat)
    requires LatticeEdge(e, h, v)
    ensures VertexOf(e.x0, e.y0, h / 2) < VertexCount(h, v)
    ensures VertexOf(e.x1, e.y1, h / 2) < VertexCount(h, v)
  {
    RowStartGrows(e.y0 / 2, v / 2 + 1, h / 2 + 1);
    RowStartGrows(e.y1 / 2, v / 2 + 1, h / 2 + 1);
  }

  /** The union-find slots `v0` and `v1` of _stepRandomizedKruskal for a lattice edge. */
  function NearSlot(e: Edge, h: nat, v: nat): (i: nat)
    requires LatticeEdge(e, h, v)
    ensures i < VertexCount(h, v)
  {
    VertexOfInRange(e, h, v);
    VertexOf(e.x0, e.y0, h / 2)
  }

  function FarSlot(e: Edge, h: nat, v: nat): (i: nat)
    requires LatticeEdge(e, h, v)
    ensures i < VertexCount(h, v)
  {
    VertexOfInRange(e, h, v);
    VertexOf(e.x1, e.y1, h / 2)
  }

  /** The odd cell a lattice edge passes over: `x0 + (x1 - x0) / 2`, `y0 + (y1 - y0) / 2`. */
  function MidX(e: Edge): int { e.x0 + (e.x1 - e.x0) / 2 }
  function MidY(e: Edge): int { e.y0 + (e.y1 - e.y0) / 2 }

  /** Every reordering of the enumeration holds only lattice edges. */
  lemma EnumerationPermuted(a: seq<Edge>, h: nat, v: nat)
    requires multiset(a) == multiset(Enumerated(h, v))
    ensures forall i :: 0 <= i < |a| ==> LatticeEdge(a[i], h, v)
  {
    EnumeratedAreLatticeEdges(h, v);
    PermutedLatticeEdges(a, Enumerated(h, v), h, v);
  }

  lemma PermutedLatticeEdges(a: seq<Edge>, b: seq<Edge>, h: nat, v: nat)
    requires multiset(a) == multiset(b)
    requires forall i :: 0 <= i < |b| ==> LatticeEdge(b[i], h, v)
    ensures forall i :: 0 <= i < |a| ==> LatticeEdge(a[i], h, v)
  {
    forall i | 0 <= i < |a|
      ensures LatticeEdge(a[i], h, v)
    {
      assert a[i] in multiset(b);
      var j :| 0 <= j < |b| && b[j] == a[i];
    }
  }

  /** A later row start is at least as far on for rows at least as long. */
  lemma {:induction false} RowStartMonoBoth(y0: nat, y1: nat, n0: nat, n1: nat)
    requires y0 <= y1 && n0 <= n1
    ensures RowStart(y0, n0) <= RowStart(y1, n1)
    decreases y1
  {
    if y1 > 0 && y0 > 0 {
      RowStartMonoBoth(y0 - 1, y1 - 1, n0, n1);
    } else if y1 > 0 {
      RowStartMonoBoth(0, y1 - 1, n0, n1);
    }
  }

  /** There are no more lattice cells than cells. */
  lemma VertexCountAtMostCells(h: nat, v: nat)
    requires h >= 1 && v >= 1
    ensures VertexCount(h, v) <= h * v
  {
    RowStartMonoBoth(v / 2 + 1, v, h / 2 + 1, h);
    RowStartIsProduct(v, h);
    assert v * h == h * v;
  }

  /** Both ends of e carry the same set name in the union-find array s. */
  predicate Joined(s: seq<u32>, e: Edge, hh: nat)
  {
    e.x0 >= 0 && e.y0 >= 0 && e.x1 >= 0 && e.y1 >= 0 &&
    VertexOf(e.x0, e.y0, hh) < |s| && VertexOf(e.x1, e.y1, hh) < |s| &&
    s[VertexOf(e.x0, e.y0, hh)] == s[VertexOf(e.x1, e.y1, hh)]
  }

  /** Adding k more rows of n cells never moves a row start back. */
  lemma RowStartMono(y0: nat, y1: nat, n: nat)
    requires y0 <= y1
    ensures RowStart(y0, n) <= RowStart(y1, n)
  {
    if y0 < y1 {
      RowStartGrows(y0, y1, n);
    }
  }

  /** The relabel loop of _stepRandomizedKruskal: every `from` becomes `to`. */
  function Relabel(s: seq<u32>, from: u32, to: u32): (r: seq<u32>)
    ensures |r| == |s|
  {
    seq(|s|, i requires 0 <= i < |s| => if s[i] == from then to else s[i])
  }

  /** The set names present in the union-find array. */
  function Labels(s: seq<u32>): set<u32>
  {
    set i | 0 <= i < |s| :: s[i]
  }

  /** Relabelling merges the two sets: slots that shared a label still do, and the slots
      labelled `from` and `to` now share `to`. */
  lemma RelabelMerges(s: seq<u32>, from: u32, to: u32)
    ensures forall i, j :: 0 <= i < |s| && 0 <= j < |s| && s[i] == s[j] ==>
              Relabel(s, from, to)[i] == Relabel(s, from, to)[j]
    ensures forall i :: 0 <= i < |s| && (s[i] == from || s[i] == to) ==> Relabel(s, from, to)[i] == to
    ensures forall i :: 0 <= i < |s| && s[i] != from ==> Relabel(s, from, to)[i] == s[i]
  {
  }

  /** Merging two different sets removes exactly one set name. */
  lemma RelabelDropsOneLabel(s: seq<u32>, from: u32, to: u32)
    requires from != to && from in Labels(s) && to in Labels(s)
    ensures Labels(Relabel(s, from, to)) == Labels(s) - {from}
    ensures |Labels(Relabel(s, from, to))| == |Labels(s)| - 1
  {
    var r := Relabel(s, from, to);
    forall l | l in Labels(s) - {from}
      ensures l in Labels(r)
    {
      var i :| 0 <= i < |s| && s[i] == l;
      assert r[i] == l;
    }
  }
}

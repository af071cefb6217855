/** The earlier revision's depth-first solver, solver.cpp's `solver::dfs`: it walks the
    maze one cell at a time in the fixed order L, R, B, T, reads any cell off the grid as a
    WALL sentinel, and on reaching the far corner unwinds the stack marking the path
    CORRECT. */
module LegacySolvers {
  import opened Stacks
  import opened Choices
  import opened LegacyGrids
  import opened LegacyGenerators
  import Generators

  /** A solver frame: on the grid, with a cursor in 0..4 and four choices. */
  ghost predicate SolveFrameOk(g: GridT, f: State)
  {
    g.InBounds(f.x, f.y) && 0 <= f.at <= 4 && |f.choice| == 4
  }

  ghost predicate SolveFramesOk(g: GridT, fs: seq<State>)
  {
    forall i :: 0 <= i < |fs| ==> SolveFrameOk(g, fs[i])
  }

  /** Reading through the `cell` lambda: the cell when (x, y) is on the grid, and the
      local `wall` sentinel, which holds WALL, otherwise. */
  function Read(g: GridT, s: seq<u8>, x: int, y: int): u8
    requires |s| == g.hcells * g.vcells
  {
    if g.InBounds(x, y) then s[g.Index(x, y)] else WALL
  }

  /** Writing through the `cell` lambda: off the grid the write lands in the local sentinel
      and the cells are untouched. */
  function Write(g: GridT, s: seq<u8>, x: int, y: int, v: u8): (r: seq<u8>)
    requires |s| == g.hcells * g.vcells
    ensures |r| == |s|
    ensures g.InBounds(x, y) ==> Read(g, r, x, y) == v
    ensures forall i :: 0 <= i < |s| && (!g.InBounds(x, y) || i != g.Index(x, y)) ==> r[i] == s[i]
  {
    if g.InBounds(x, y) then s[g.Index(x, y) := v] else s
  }

  /** A cell the search may enter: neither WALL nor VISITED. */
  predicate Open(g: GridT, s: seq<u8>, x: int, y: int)
    requires |s| == g.hcells * g.vcells
  {
    Read(g, s, x, y) != WALL && Read(g, s, x, y) != VISITED
  }

  /** The sentinel keeps the search on the grid: any cell it may enter is on the grid and is
      neither WALL nor VISITED there. */
  lemma OpenIsOnGrid(g: GridT, s: seq<u8>, x: int, y: int)
    requires |s| == g.hcells * g.vcells && Open(g, s, x, y)
    ensures g.InBounds(x, y) && s[g.Index(x, y)] != WALL && s[g.Index(x, y)] != VISITED
  {
  }

  /** The far corner the search looks for. */
  predicate AtGoal(g: GridT, f: State)
  {
    f.x == g.hcells - 1 && f.y == g.vcells - 1
  }

  /** The frames after a finished frame is popped: its parent, if any, is popped, flagged
      finished and pushed back. */
  function FlagParent(below: seq<State>): (r: seq<State>)
    ensures |r| == |below|
  {
    if below == [] then [] else below[..|below| - 1] + [below[|below| - 1].(finished := true)]
  }

  /** The switch on the frame's current direction and the pushes after it: the frame goes
      back with its cursor advanced, and above it a fresh frame on the neighbour in that
      direction when the neighbour is open. */
  function Probe(g: GridT, s: seq<u8>, below: seq<State>, f: State): (r: (seq<u8>, seq<State>))
    requires |s| == g.hcells * g.vcells && 0 <= f.at < 4 && |f.choice| == 4
  {
    var d := f.choice[f.at];
    var nx, ny := f.x + Generators.DX(d) / 2, f.y + Generators.DY(d) / 2;
    var back := below + [f.(at := f.at + 1)];
    if Open(g, s, nx, ny) then (s, back + [Zeroed.(x := nx, y := ny)]) else (s, back)
  }

  /** One call of solver::dfs on cells `s` and frames `fs` (top last): the cells and frames
      afterwards. An empty stack starts from the zeroed frame at (0, 0). */
  function SolveStep(g: GridT, s: seq<u8>, fs: seq<State>): (r: (seq<u8>, seq<State>))
    requires |s| == g.hcells * g.vcells && SolveFramesOk(g, fs)
  {
    var f := Current(fs);
    if f.finished || AtGoal(g, f) then (Write(g, s, f.x, f.y, CORRECT), FlagParent(Below(fs)))
    else if f.at == 4 then (s, Below(fs))
    else if f.at == 0 then Probe(g, Write(g, s, f.x, f.y, VISITED), Below(fs), f.(choice := Unshuffled))
    else
      assert SolveFrameOk(g, fs[|fs| - 1]);
      Probe(g, s, Below(fs), f)
  }

  lemma SolveFramesOkPush(g: GridT, fs: seq<State>, f: State)
    requires SolveFramesOk(g, fs) && SolveFrameOk(g, f)
    ensures SolveFramesOk(g, fs + [f])
  {
    assert forall i :: 0 <= i < |fs| ==> (fs + [f])[i] == fs[i];
  }

  lemma ProbeKeepsFrames(g: GridT, s: seq<u8>, below: seq<State>, f: State)
    requires |s| == g.hcells * g.vcells && SolveFramesOk(g, below) && SolveFrameOk(g, f) && f.at < 4
    ensures SolveFramesOk(g, Probe(g, s, below, f).1)
  {
    SolveFramesOkPush(g, below, f.(at := f.at + 1));
    var d := f.choice[f.at];
    var nx, ny := f.x + Generators.DX(d) / 2, f.y + Generators.DY(d) / 2;
    if Open(g, s, nx, ny) {
      OpenIsOnGrid(g, s, nx, ny);
      SolveFramesOkPush(g, below + [f.(at := f.at + 1)], Zeroed.(x := nx, y := ny));
    }
  }

  /** Every call keeps all frames on the grid, given a grid with at least one cell: the
      sentinel turns every step off the grid away. */
  lemma SolveStepKeepsFrames(g: GridT, s: seq<u8>, fs: seq<State>)
    requires |s| == g.hcells * g.vcells && g.hcells >= 1 && g.vcells >= 1 && SolveFramesOk(g, fs)
    ensures SolveFramesOk(g, SolveStep(g, s, fs).1)
  {
    var f := Current(fs);
    assert SolveFrameOk(g, f);
    var below := Below(fs);
    assert SolveFramesOk(g, below);
    if f.finished || AtGoal(g, f) {
      if below != [] {
        SolveFramesOkPush(g, below[..|below| - 1], below[|below| - 1].(finished := true));
      }
    } else if f.at == 0 {
      ProbeKeepsFrames(g, Write(g, s, f.x, f.y, VISITED), below, f.(choice := Unshuffled));
    } else if f.at != 4 {
      ProbeKeepsFrames(g, s, below, f);
    }
  }

  /** With the frames on the grid, the only cell a call can change is the cell of the
      frame it works on; the sentinel is never written. */
  lemma SolveStepWritesOwnCell(g: GridT, s: seq<u8>, fs: seq<State>)
    requires |s| == g.hcells * g.vcells && g.hcells >= 1 && g.vcells >= 1 && SolveFramesOk(g, fs)
    ensures var f := Current(fs);
            g.InBounds(f.x, f.y) &&
            forall i :: 0 <= i < |s| && i != g.Index(f.x, f.y) ==> SolveStep(g, s, fs).0[i] == s[i]
  {
    assert SolveFrameOk(g, Current(fs));
  }

  /** A finished frame, or one at the far corner, is marked CORRECT and popped, and its
      parent is flagged finished in place: the stack shrinks by exactly one (an empty stack
      stays empty), so successive calls unwind the whole path. */
  lemma SolveStepUnwinds(g: GridT, s: seq<u8>, fs: seq<State>)
    requires |s| == g.hcells * g.vcells && g.hcells >= 1 && g.vcells >= 1 && SolveFramesOk(g, fs)
    requires Current(fs).finished || AtGoal(g, Current(fs))
    ensures var (s', fs') := SolveStep(g, s, fs);
            var f := Current(fs);
            |fs'| == if fs == [] then 0 else |fs| - 1
    ensures var (s', fs') := SolveStep(g, s, fs);
            var f := Current(fs);
            g.InBounds(f.x, f.y) && s'[g.Index(f.x, f.y)] == CORRECT
    ensures var fs' := SolveStep(g, s, fs).1;
            |fs| >= 2 ==> fs'[..|fs'| - 1] == fs[..|fs| - 2] && fs'[|fs'| - 1] == fs[|fs| - 2].(finished := true)
  {
    assert SolveFrameOk(g, Current(fs));
  }

  /** A call that pushes a second frame moves one cell in the frame's current direction of
      the fixed order L, R, B, T, onto a cell of the grid that was neither WALL nor VISITED
      before the call, and keeps the advanced frame under it. */
  lemma SolveStepMoves(g: GridT, s: seq<u8>, fs: seq<State>)
    requires |s| == g.hcells * g.vcells && g.hcells >= 1 && g.vcells >= 1 && SolveFramesOk(g, fs)
    requires |SolveStep(g, s, fs).1| == |Below(fs)| + 2
    ensures var fs' := SolveStep(g, s, fs).1;
            var f := Current(fs);
            var f1 := if f.at == 0 then f.(choice := Unshuffled) else f;
            var d := f1.choice[f.at];
            var n := fs'[|fs'| - 1];
            fs'[..|fs'| - 1] == Below(fs) + [f1.(at := f.at + 1)] &&
            n == Zeroed.(x := f.x + Generators.DX(d) / 2, y := f.y + Generators.DY(d) / 2) &&
            g.InBounds(n.x, n.y) && s[g.Index(n.x, n.y)] != WALL && s[g.Index(n.x, n.y)] != VISITED
  {
    var f := Current(fs);
    assert SolveFrameOk(g, f);
    assert !(f.finished || AtGoal(g, f)) && f.at != 4;
    var f1 := if f.at == 0 then f.(choice := Unshuffled) else f;
    var d := f1.choice[f.at];
    var nx, ny := f.x + Generators.DX(d) / 2, f.y + Generators.DY(d) / 2;
    var s1 := if f.at == 0 then Write(g, s, f.x, f.y, VISITED) else s;
    assert Open(g, s1, nx, ny);
    OpenIsOnGrid(g, s1, nx, ny);
    g.IndexInjective(nx, ny, f.x, f.y);
  }

  /** The first call on an empty stack of a grid larger than one cell marks (0, 0) VISITED
      and does not move: its first direction is L, whose neighbour (-1, 0) reads as the WALL
      sentinel. */
  lemma SolveStepFirstCall(g: GridT, s: seq<u8>)
    requires |s| == g.hcells * g.vcells && g.hcells >= 1 && g.vcells >= 1
    requires g.hcells > 1 || g.vcells > 1
    ensures SolveStep(g, s, []) == (s[g.Index(0, 0) := VISITED], [State(1, 0, 0, Unshuffled, false)])
  {
    assert !AtGoal(g, Zeroed);
    var s1 := Write(g, s, 0, 0, VISITED);
    assert Unshuffled[0] == L && Generators.DX(L) / 2 == -1 && Generators.DY(L) / 2 == 0;
    assert !Open(g, s1, -1, 0);
    var f1 := Zeroed.(choice := Unshuffled);
    assert Probe(g, s1, [], f1) == (s1, [] + [f1.(at := 1)]);
    assert [] + [f1.(at := 1)] == [State(1, 0, 0, Unshuffled, false)];
  }

  /** Writing through the `cell` lambda. */
  method WriteCell(g: GridT, x: int, y: int, v: u8)
    requires g.Valid()
    modifies g.cells
    ensures g.cells[..] == Write(g, old(g.cells[..]), x, y, v)
  {
    if g.InBounds(x, y) {
      g.cells[g.Index(x, y)] := v;
    }
  }

  /** The switch and the pushes of solver::dfs, on the popped frame with its order set. */
  method ProbeStep(g: GridT, stack: Stack<State>, f: State)
    requires g.Valid() && 0 <= f.at < 4 && |f.choice| == 4
    modifies stack
    ensures (g.cells[..], stack.items) == Probe(g, g.cells[..], old(stack.items), f)
  {
    var d := f.choice[f.at];
    var nx, ny := f.x + Generators.DX(d) / 2, f.y + Generators.DY(d) / 2;
    var next := Open(g, g.cells[..], nx, ny);
    stack.Push(f.(at := f.at + 1));
    if next {
      stack.Push(Zeroed.(x := nx, y := ny));
    }
  }

  /** `solver::dfs(grid, stack)`: one step of the depth-first search. */
  method Dfs(g: GridT, stack: Stack<State>)
    requires g.Valid() && g.hcells >= 1 && g.vcells >= 1 && SolveFramesOk(g, stack.items)
    modifies g.cells, stack
    ensures (g.cells[..], stack.items) == SolveStep(g, old(g.cells[..]), old(stack.items))
    ensures SolveFramesOk(g, stack.items)
  {
    ghost var s, fs := g.cells[..], stack.items;
    SolveStepKeepsFrames(g, s, fs);
    var f := Zeroed;
    if !stack.IsEmpty() {
      f := stack.Pop();
    }
    assert f == Current(fs) && stack.items == Below(fs);
    if f.finished || AtGoal(g, f) {
      WriteCell(g, f.x, f.y, CORRECT);
      if !stack.IsEmpty() {
        var p := stack.Pop();
        stack.Push(p.(finished := true));
      }
      return;
    }
    if f.at == 4 {
      return;
    }
    assert SolveFrameOk(g, f);
    if f.at == 0 {
      f := f.(choice := Unshuffled);
      WriteCell(g, f.x, f.y, VISITED);
    }
    ProbeStep(g, stack, f);
  }
}

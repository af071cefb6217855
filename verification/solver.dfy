/** The stepwise maze solvers of source/solver.cpp: a depth-first search over a stack of
    frames, and breadth-first, Dijkstra and A* searches over a per-cell `Vertex` array and the
    frontier queue. Every solver paints cells ACTIVE when it reaches them, DEAD when it is done
    with them and FOUND along the path it reports, and keeps its continuation in the stack and
    queue the host owns; the host steps while the stack is non-empty. */
module Solvers {
  import opened Base
  import opened Grids
  import opened Stacks
  import opened Queues
  import opened Rng
  import opened Choices

  /** A per-cell search record: `cost` is -1 until the cell is reached, `dir` the code of
      the enqueue call that reached it, `inQueue` whether it waits in the queue. */
  datatype Vertex = Vertex(cost: int, heuristic: int, dir: int, inQueue: bool)

  /** A vertex as `new Vertex[n]` leaves it: cost -1 and not queued. The heuristic and the
      direction have no initialiser; they are taken as 0 and never read before written. */
  const Undiscovered: Vertex := Vertex(-1, 0, 0, false)

  /** A queue item: a cell and the index of its vertex (-1 for the null pointer BFS leaves). */
  datatype Qitem = Qitem(x: int, y: int, v: int)

  /** The solver's stack frame is a union: the `dfs` member for depth-first search, and the
      shared layout of `bfs`, `dij` and `astr` for the others. Each solver only ever reads
      its own member, so each family gets its own frame type. */
  datatype DfsFrame = DfsFrame(x: int, y: int, at: int, choice: seq<Direction>, found: bool)
  datatype SearchFrame = SearchFrame(vertices: array<Vertex>, found: bool, x: int, y: int, dir: int)

  /** Only the two values a generator leaves: what ClearPaths makes of any grid. */
  ghost predicate Unpainted(s: seq<u32>)
  {
    forall i :: 0 <= i < |s| ==> s[i] == PATH || s[i] == WALL
  }

  /** ClearPaths, which the host runs before every solver init, leaves a grid unpainted. */
  lemma ClearedIsUnpainted(s: seq<u32>)
    ensures Unpainted(Cleared(s))
  {
    forall i | 0 <= i < |s|
      ensures Cleared(s)[i] == PATH || Cleared(s)[i] == WALL
    {
    }
  }

  /** A cell a solver has reached: painted with one of its colours. */
  predicate Discovered(c: u32)
  {
    c != PATH && c != WALL
  }

  /** The solver colours are neither of the generator's values. */
  lemma ColoursAreDiscovered()
    ensures Discovered(ACTIVE) && Discovered(DEAD) && Discovered(FOUND)
    ensures ACTIVE != DEAD && ACTIVE != FOUND && DEAD != FOUND
  {
  }

  predicate Adjacent(x0: int, y0: int, x1: int, y1: int)
  {
    (x0 == x1 && (y1 == y0 + 1 || y1 == y0 - 1)) || (y0 == y1 && (x1 == x0 + 1 || x1 == x0 - 1))
  }

  // ---------------------------------------------------------------------------------------
  // Depth-first search (StepDFS)
  // ---------------------------------------------------------------------------------------

  /** The `setnext` offsets of the four choices. */
  function DX(d: Direction): int
  {
    match d
    case L => -1
    case R => 1
    case B => 0
    case T => 0
  }

  function DY(d: Direction): int
  {
    match d
    case L => 0
    case R => 0
    case B => -1
    case T => 1
  }

  /** `setnext` succeeds: the neighbour along `d` is in range and still PATH in `s`. */
  predicate Opens(g: Grid, s: seq<u32>, x: int, y: int, d: Direction)
    requires |s| == g.hcells * g.vcells
  {
    g.PointInBounds(x + DX(d), y + DY(d)) && s[g.Index(x + DX(d), y + DY(d))] == PATH
  }

  /** No choice of `f` with index in [lo, hi) opens. */
  ghost predicate ClosedBetween(g: Grid, s: seq<u32>, f: DfsFrame, lo: int, hi: int)
    requires |s| == g.hcells * g.vcells && |f.choice| == 4 && 0 <= lo && hi <= 4
  {
    forall k :: lo <= k < hi ==> !Opens(g, s, f.x, f.y, f.choice[k])
  }

  lemma ClosedBetweenGrows(g: Grid, s: seq<u32>, f: DfsFrame, lo: int, hi: int)
    requires |s| == g.hcells * g.vcells && |f.choice| == 4 && 0 <= lo <= hi < 4
    requires ClosedBetween(g, s, f, lo, hi) && !Opens(g, s, f.x, f.y, f.choice[hi])
    ensures ClosedBetween(g, s, f, lo, hi + 1)
  {
  }

  /** A depth-first frame on a cell of the grid, its cursor within the four choices. */
  ghost predicate FrameOk(g: Grid, f: DfsFrame)
  {
    g.PointInBounds(f.x, f.y) && 0 <= f.at <= 4 && IsChoice(f.choice)
  }

  ghost predicate FramesOk(g: Grid, fs: seq<DfsFrame>)
  {
    forall i :: 0 <= i < |fs| ==> FrameOk(g, fs[i])
  }

  /** Every frame's cell is painted ACTIVE. */
  ghost predicate FramesActive(g: Grid, s: seq<u32>, fs: seq<DfsFrame>)
    requires |s| == g.hcells * g.vcells && FramesOk(g, fs)
  {
    forall i :: 0 <= i < |fs| ==> s[g.Index(fs[i].x, fs[i].y)] == ACTIVE
  }

  /** No two frames stand on the same cell. */
  ghost predicate FramesDistinct(fs: seq<DfsFrame>)
  {
    forall i, j :: 0 <= i < j < |fs| ==> fs[i].x != fs[j].x || fs[i].y != fs[j].y
  }

  /** Each frame stands on a neighbour of the frame below it. */
  ghost predicate FramesChained(fs: seq<DfsFrame>)
  {
    forall i :: 0 < i < |fs| ==> Adjacent(fs[i - 1].x, fs[i - 1].y, fs[i].x, fs[i].y)
  }

  /** Only the top frame may carry the found flag. */
  ghost predicate OnlyTopFound(fs: seq<DfsFrame>)
  {
    forall i :: 0 <= i < |fs| - 1 ==> !fs[i].found
  }

  /** The depth-first solver's stack over cell contents `s`: well-formed frames on ACTIVE,
      pairwise distinct cells, each a neighbour of the frame below it, and only the top one
      flagged found. */
  ghost predicate DfsInv(g: Grid, s: seq<u32>, fs: seq<DfsFrame>)
  {
    g.Valid() && |s| == g.hcells * g.vcells &&
    FramesOk(g, fs) && FramesActive(g, s, fs) && FramesDistinct(fs) && FramesChained(fs) && OnlyTopFound(fs)
  }

  /** The frame popped is the goal or has been told that the goal lies above it. */
  predicate DfsDone(g: Grid, f: DfsFrame)
  {
    f.found || (f.x == g.hcells - 1 && f.y == g.vcells - 1)
  }

  /** The stack after the top frame is popped and the new top, if any, is flagged found. */
  function Unwound(fs: seq<DfsFrame>): (r: seq<DfsFrame>)
    requires fs != []
    ensures |r| == |fs| - 1
    ensures forall i :: 0 <= i < |r| ==> r[i] == fs[i].(found := r[i].found)
    ensures forall i :: 0 <= i < |r| ==> r[i].found == (fs[i].found || i == |r| - 1)
  {
    var rest := fs[..|fs| - 1];
    if rest == [] then [] else rest[..|rest| - 1] + [rest[|rest| - 1].(found := true)]
  }

  /** One step that found an open neighbour: the top frame's cursor passed the closed
      choices and the open one, and a fresh frame on the neighbour, now ACTIVE, is pushed. */
  ghost predicate Advanced(g: Grid, s0: seq<u32>, s1: seq<u32>, fs0: seq<DfsFrame>, fs1: seq<DfsFrame>)
    requires |s0| == g.hcells * g.vcells && fs0 != [] && FrameOk(g, fs0[|fs0| - 1])
  {
    var n, top := |fs0|, fs0[|fs0| - 1];
    |fs1| == n + 1 && fs1[..n - 1] == fs0[..n - 1] &&
    var at, next := fs1[n - 1].at, fs1[n];
    fs1[n - 1] == top.(at := at) && top.at < at <= 4 &&
    ClosedBetween(g, s0, top, top.at, at - 1) &&
    Opens(g, s0, top.x, top.y, top.choice[at - 1]) &&
    next.x == top.x + DX(top.choice[at - 1]) && next.y == top.y + DY(top.choice[at - 1]) &&
    next.at == 0 && !next.found && IsChoice(next.choice) &&
    s1 == s0[g.Index(next.x, next.y) := ACTIVE]
  }

  /** One step that found every remaining choice closed: the top cell turns DEAD and the
      frame is popped. */
  ghost predicate Backtracked(g: Grid, s0: seq<u32>, s1: seq<u32>, fs0: seq<DfsFrame>, fs1: seq<DfsFrame>)
    requires |s0| == g.hcells * g.vcells && fs0 != [] && FrameOk(g, fs0[|fs0| - 1])
  {
    var top := fs0[|fs0| - 1];
    ClosedBetween(g, s0, top, top.at, 4) &&
    fs1 == fs0[..|fs0| - 1] && s1 == s0[g.Index(top.x, top.y) := DEAD]
  }

  /** Repainting a cell no frame stands on keeps every frame ACTIVE. */
  lemma RepaintKeepsActive(g: Grid, s: seq<u32>, fs: seq<DfsFrame>, x: int, y: int, c: u32)
    requires |s| == g.hcells * g.vcells && FramesOk(g, fs) && FramesActive(g, s, fs)
    requires g.PointInBounds(x, y)
    requires forall i :: 0 <= i < |fs| ==> fs[i].x != x || fs[i].y != y
    ensures FramesActive(g, s[g.Index(x, y) := c], fs)
  {
    forall i | 0 <= i < |fs|
      ensures s[g.Index(x, y) := c][g.Index(fs[i].x, fs[i].y)] == ACTIVE
    {
      g.IndexInjective(fs[i].x, fs[i].y, x, y);
    }
  }

  /** Two stacks whose frames stand on the same cells. */
  ghost predicate SameCells(fs: seq<DfsFrame>, r: seq<DfsFrame>)
  {
    |fs| == |r| && forall i :: 0 <= i < |r| ==> r[i].x == fs[i].x && r[i].y == fs[i].y
  }

  lemma SameCellsActive(g: Grid, s: seq<u32>, fs: seq<DfsFrame>, r: seq<DfsFrame>)
    requires SameCells(fs, r) && |s| == g.hcells * g.vcells && FramesOk(g, fs) && FramesOk(g, r)
    requires FramesActive(g, s, fs)
    ensures FramesActive(g, s, r)
  {
  }

  lemma SameCellsShape(fs: seq<DfsFrame>, r: seq<DfsFrame>)
    requires SameCells(fs, r) && FramesDistinct(fs) && FramesChained(fs)
    ensures FramesDistinct(r) && FramesChained(r)
  {
  }

  /** A prefix of a well-formed stack is well formed. */
  lemma PrefixFramesOk(g: Grid, s: seq<u32>, fs: seq<DfsFrame>, n: nat)
    requires n <= |fs| && |s| == g.hcells * g.vcells && FramesOk(g, fs) && FramesActive(g, s, fs)
    ensures FramesOk(g, fs[..n]) && FramesActive(g, s, fs[..n])
  {
    assert forall i :: 0 <= i < n ==> fs[..n][i] == fs[i];
  }

  lemma PrefixFramesShape(fs: seq<DfsFrame>, n: nat)
    requires n <= |fs| && FramesDistinct(fs) && FramesChained(fs) && OnlyTopFound(fs)
    ensures FramesDistinct(fs[..n]) && FramesChained(fs[..n]) && OnlyTopFound(fs[..n])
  {
    assert forall i :: 0 <= i < n ==> fs[..n][i] == fs[i];
  }

  /** Pushing a frame on a cell no frame stands on, next to the top frame. */
  lemma PushFrames(g: Grid, s: seq<u32>, fs: seq<DfsFrame>, next: DfsFrame)
    requires |s| == g.hcells * g.vcells && FramesOk(g, fs) && FramesDistinct(fs) && FramesChained(fs)
    requires FrameOk(g, next) && forall i :: 0 <= i < |fs| ==> fs[i].x != next.x || fs[i].y != next.y
    requires fs != [] ==> Adjacent(fs[|fs| - 1].x, fs[|fs| - 1].y, next.x, next.y)
    ensures FramesOk(g, fs + [next]) && FramesDistinct(fs + [next]) && FramesChained(fs + [next])
  {
  }

  /** Flagging the top frame found keeps a stack well formed. */
  lemma FlagTopKeeps(g: Grid, s: seq<u32>, rest: seq<DfsFrame>, r: seq<DfsFrame>)
    requires DfsInv(g, s, rest)
    requires |r| == |rest|
    requires forall i :: 0 <= i < |r| ==> r[i] == rest[i].(found := r[i].found)
    requires forall i :: 0 <= i < |r| ==> r[i].found == (rest[i].found || i == |r| - 1)
    ensures DfsInv(g, s, r)
  {
    assert SameCells(rest, r);
    assert FramesOk(g, r) by {
      forall i | 0 <= i < |r| ensures FrameOk(g, r[i]) {
        assert FrameOk(g, rest[i]);
      }
    }
    SameCellsActive(g, s, rest, r);
    SameCellsShape(rest, r);
  }

  /** Popping the done top frame, painting its cell FOUND and flagging the frame below keeps
      the invariant. */
  lemma DfsUnwindKeeps(g: Grid, s: seq<u32>, fs: seq<DfsFrame>)
    requires fs != [] && DfsInv(g, s, fs)
    ensures DfsInv(g, s[g.Index(fs[|fs| - 1].x, fs[|fs| - 1].y) := FOUND], Unwound(fs))
  {
    var top, rest := fs[|fs| - 1], fs[..|fs| - 1];
    DfsPopKeeps(g, s, fs, FOUND);
    assert forall i :: 0 <= i < |rest| ==> rest[i] == fs[i];
    FlagTopKeeps(g, s[g.Index(top.x, top.y) := FOUND], rest, Unwound(fs));
  }

  /** Pushing a frame on a PATH neighbour of the top, now ACTIVE, keeps the invariant. */
  lemma DfsAdvanceKeeps(g: Grid, s: seq<u32>, fs: seq<DfsFrame>, at: int, next: DfsFrame)
    requires fs != [] && DfsInv(g, s, fs) && !fs[|fs| - 1].found
    requires fs[|fs| - 1].at <= at <= 4 && FrameOk(g, next) && !next.found
    requires Adjacent(fs[|fs| - 1].x, fs[|fs| - 1].y, next.x, next.y)
    requires s[g.Index(next.x, next.y)] == PATH
    ensures DfsInv(g, s[g.Index(next.x, next.y) := ACTIVE], fs[..|fs| - 1] + [fs[|fs| - 1].(at := at)] + [next])
  {
    var n, top := |fs|, fs[|fs| - 1];
    var moved := fs[..n - 1] + [top.(at := at)];
    var s1 := s[g.Index(next.x, next.y) := ACTIVE];
    assert SameCells(fs, moved);
    assert FramesOk(g, moved) by {
      assert forall i :: 0 <= i < n - 1 ==> moved[i] == fs[i];
    }
    SameCellsActive(g, s, fs, moved);
    SameCellsShape(fs, moved);
    forall i | 0 <= i < n
      ensures moved[i].x != next.x || moved[i].y != next.y
    {
      assert s[g.Index(moved[i].x, moved[i].y)] == ACTIVE;
    }
    PushFrames(g, s, moved, next);
    RepaintKeepsActive(g, s, moved, next.x, next.y, ACTIVE);
    assert FramesActive(g, s1, moved + [next]) by {
      assert forall i :: 0 <= i < n ==> (moved + [next])[i] == moved[i];
    }
  }

  /** Repainting the top frame's cell with any colour and popping the frame keeps the
      invariant: the backtrack paints it DEAD, the unwind FOUND. */
  lemma DfsPopKeeps(g: Grid, s: seq<u32>, fs: seq<DfsFrame>, c: u32)
    requires fs != [] && DfsInv(g, s, fs)
    ensures DfsInv(g, s[g.Index(fs[|fs| - 1].x, fs[|fs| - 1].y) := c], fs[..|fs| - 1])
  {
    var top, r := fs[|fs| - 1], fs[..|fs| - 1];
    PrefixFramesOk(g, s, fs, |fs| - 1);
    PrefixFramesShape(fs, |fs| - 1);
    RepaintKeepsActive(g, s, r, top.x, top.y, c);
  }

  /** A lone frame on an ACTIVE cell that is not flagged found is a well-formed stack. */
  lemma SingleFrameInv(g: Grid, s: seq<u32>, f: DfsFrame)
    requires g.Valid() && |s| == g.hcells * g.vcells && FrameOk(g, f) && !f.found
    requires s[g.Index(f.x, f.y)] == ACTIVE
    ensures DfsInv(g, s, [f])
  {
  }

  /** InitDFS: one frame on (0, 0) with a shuffled choice list, and (0, 0) painted ACTIVE. */
  method InitDFS(g: Grid, stack: Stack<DfsFrame>, rng: Pcg32)
    requires g.Valid() && g.hcells >= 1 && g.vcells >= 1
    modifies g.cells, stack, rng
    ensures |stack.items| == |old(stack.items)| + 1 && stack.items[..|old(stack.items)|] == old(stack.items)
    ensures var f := stack.Peek(); f.x == 0 && f.y == 0 && f.at == 0 && !f.found && IsChoice(f.choice)
    ensures g.cells[..] == old(g.cells[..])[g.Index(0, 0) := ACTIVE]
    ensures old(stack.items) == [] ==> DfsInv(g, g.cells[..], stack.items)
  {
    ghost var before := stack.items;
    var c := ShuffledChoice(rng);
    var f := DfsFrame(0, 0, 0, c, false);
    assert FrameOk(g, f);
    stack.Push(f);
    assert stack.items == before + [f] && stack.Peek() == f;
    g.Set(0, 0, ACTIVE);
    if before == [] {
      SingleFrameInv(g, g.cells[..], f);
    }
  }

  /** The `while (!next && at < 4)` loop: advances the cursor past closed choices and past
      the first open one, if any. */
  method ScanChoices(g: Grid, f: DfsFrame) returns (at: int, next: bool, nx: int, ny: int)
    requires g.Valid() && FrameOk(g, f)
    ensures f.at <= at <= 4
    ensures next ==> f.at < at && ClosedBetween(g, g.cells[..], f, f.at, at - 1) &&
                     Opens(g, g.cells[..], f.x, f.y, f.choice[at - 1]) &&
                     nx == f.x + DX(f.choice[at - 1]) && ny == f.y + DY(f.choice[at - 1])
    ensures !next ==> at == 4 && ClosedBetween(g, g.cells[..], f, f.at, 4)
  {
    ghost var s := g.cells[..];
    at, next, nx, ny := f.at, false, 0, 0;
    while !next && at < 4
      invariant f.at <= at <= 4
      invariant next ==> f.at < at && ClosedBetween(g, s, f, f.at, at - 1) && Opens(g, s, f.x, f.y, f.choice[at - 1]) &&
                         nx == f.x + DX(f.choice[at - 1]) && ny == f.y + DY(f.choice[at - 1])
      invariant !next ==> ClosedBetween(g, s, f, f.at, at)
    {
      var x, y := f.x + DX(f.choice[at]), f.y + DY(f.choice[at]);
      var open := g.PointInBounds(x, y) && g.Cell(x, y) == PATH;
      assert open == Opens(g, s, f.x, f.y, f.choice[at]);
      if open {
        nx, ny, next := x, y, true;
      } else {
        ClosedBetweenGrows(g, s, f, f.at, at);
      }
      at := at + 1;
    }
  }

  /** The first branch of StepDFS: the done top frame is painted FOUND and popped, and the
      frame below, if any, is flagged found. */
  method UnwindDFS(g: Grid, stack: Stack<DfsFrame>)
    requires stack.items != [] && DfsInv(g, g.cells[..], stack.items)
    modifies g.cells, stack
    ensures DfsInv(g, g.cells[..], stack.items)
    ensures stack.items == Unwound(old(stack.items))
    ensures g.cells[..] == old(g.cells[..])[g.Index(old(stack.Peek()).x, old(stack.Peek()).y) := FOUND]
  {
    var top := stack.Peek();
    DfsUnwindKeeps(g, g.cells[..], stack.items);
    g.Set(top.x, top.y, FOUND);
    var _ := stack.Pop();
    if !stack.IsEmpty() {
      var t := stack.Peek();
      stack.SetTop(t.(found := true));
    }
  }

  /** The push the scan leads to is the step Advanced describes. */
  lemma AdvancedByPush(g: Grid, s: seq<u32>, fs: seq<DfsFrame>, at: int, next: DfsFrame)
    requires |s| == g.hcells * g.vcells && fs != [] && FrameOk(g, fs[|fs| - 1])
    requires var top := fs[|fs| - 1];
             top.at < at <= 4 && ClosedBetween(g, s, top, top.at, at - 1) &&
             Opens(g, s, top.x, top.y, top.choice[at - 1]) &&
             next.x == top.x + DX(top.choice[at - 1]) && next.y == top.y + DY(top.choice[at - 1]) &&
             next.at == 0 && !next.found && IsChoice(next.choice)
    ensures Advanced(g, s, s[g.Index(next.x, next.y) := ACTIVE], fs, fs[..|fs| - 1] + [fs[|fs| - 1].(at := at)] + [next])
  {
    var n := |fs|;
    var r := fs[..n - 1] + [fs[n - 1].(at := at)] + [next];
    assert r[..n - 1] == fs[..n - 1];
  }

  /** The scan found the open choice `at - 1`: the top frame keeps cursor `at`, the
      neighbour is painted ACTIVE and a frame on it with a shuffled choice list is pushed. */
  method PushDFS(g: Grid, stack: Stack<DfsFrame>, rng: Pcg32, at: int, nx: int, ny: int)
    requires stack.items != [] && DfsInv(g, g.cells[..], stack.items)
    requires var top := stack.Peek();
             !top.found && top.at < at <= 4 && ClosedBetween(g, g.cells[..], top, top.at, at - 1) &&
             Opens(g, g.cells[..], top.x, top.y, top.choice[at - 1]) &&
             nx == top.x + DX(top.choice[at - 1]) && ny == top.y + DY(top.choice[at - 1])
    modifies g.cells, stack, rng
    ensures DfsInv(g, g.cells[..], stack.items)
    ensures Advanced(g, old(g.cells[..]), g.cells[..], old(stack.items), stack.items)
  {
    ghost var s0, fs0 := g.cells[..], stack.items;
    var top := stack.Peek();
    stack.SetTop(top.(at := at));
    var c := ShuffledChoice(rng);
    var next := DfsFrame(nx, ny, 0, c, false);
    DfsAdvanceKeeps(g, s0, fs0, at, next);
    AdvancedByPush(g, s0, fs0, at, next);
    g.Set(nx, ny, ACTIVE);
    stack.Push(next);
    assert stack.items == fs0[..|fs0| - 1] + [top.(at := at)] + [next];
  }

  /** The scan found every remaining choice closed: the cell is painted DEAD and its frame,
      cursor at 4, is popped. */
  method BacktrackDFS(g: Grid, stack: Stack<DfsFrame>)
    requires stack.items != [] && DfsInv(g, g.cells[..], stack.items)
    requires var top := stack.Peek(); ClosedBetween(g, g.cells[..], top, top.at, 4)
    modifies g.cells, stack
    ensures DfsInv(g, g.cells[..], stack.items)
    ensures Backtracked(g, old(g.cells[..]), g.cells[..], old(stack.items), stack.items)
  {
    var top := stack.Peek();
    stack.SetTop(top.(at := 4));
    DfsPopKeeps(g, g.cells[..], old(stack.items), DEAD);
    g.Set(top.x, top.y, DEAD);
    var _ := stack.Pop();
  }

  /** The rest of StepDFS: the `while (!next && at < 4)` scan, then a push or a pop. */
  method AdvanceDFS(g: Grid, stack: Stack<DfsFrame>, rng: Pcg32)
    requires stack.items != [] && DfsInv(g, g.cells[..], stack.items) && !stack.Peek().found
    modifies g.cells, stack, rng
    ensures DfsInv(g, g.cells[..], stack.items)
    ensures Advanced(g, old(g.cells[..]), g.cells[..], old(stack.items), stack.items) ||
            Backtracked(g, old(g.cells[..]), g.cells[..], old(stack.items), stack.items)
  {
    var top := stack.Peek();
    var at, next, nx, ny := ScanChoices(g, top);
    if next {
      PushDFS(g, stack, rng, at, nx, ny);
    } else {
      BacktrackDFS(g, stack);
    }
  }

  /** StepDFS: a done top frame is unwound; any other frame advances or backtracks. */
  method StepDFS(g: Grid, stack: Stack<DfsFrame>, rng: Pcg32)
    requires stack.items != [] && DfsInv(g, g.cells[..], stack.items)
    modifies g.cells, stack, rng
    ensures DfsInv(g, g.cells[..], stack.items)
    ensures var top := old(stack.Peek());
            DfsDone(g, top) ==> stack.items == Unwound(old(stack.items)) &&
                                g.cells[..] == old(g.cells[..])[g.Index(top.x, top.y) := FOUND]
    ensures !DfsDone(g, old(stack.Peek())) ==>
              Advanced(g, old(g.cells[..]), g.cells[..], old(stack.items), stack.items) ||
              Backtracked(g, old(g.cells[..]), g.cells[..], old(stack.items), stack.items)
  {
    var top := stack.Peek();
    if top.found || (top.x == g.hcells - 1 && top.y == g.vcells - 1) {
      UnwindDFS(g, stack);
    } else {
      AdvanceDFS(g, stack, rng);
    }
  }

  // ---------------------------------------------------------------------------------------
  // Breadth-first, Dijkstra and A*: the pieces they share
  // ---------------------------------------------------------------------------------------

  /** The cell the enqueue call with code `c` is made for, from the dequeued cell (x, y):
      codes 0..3 go to the left, right, lower and upper neighbour. */
  function Neighbour(x: int, y: int, c: int): (int, int)
    requires 0 <= c <= 3
  {
    if c == 0 then (x - 1, y) else if c == 1 then (x + 1, y) else if c == 2 then (x, y - 1) else (x, y + 1)
  }

  /** One move of the trace switch on a direction code; any other code leaves the cursor. */
  function TraceMove(x: int, y: int, d: int): (int, int)
  {
    if d == 0 then (x + 1, y)
    else if d == 1 then (x - 1, y)
    else if d == 2 then (x, y + 1)
    else if d == 3 then (x, y - 1)
    else (x, y)
  }

  /** The trace switch inverts the enqueue offsets: a trace move on the code recorded at a
      neighbour leads back to the cell it was reached from, and no other code does. */
  lemma TraceUndoesEnqueue(x: int, y: int, c: int)
    requires 0 <= c <= 3
    ensures var (nx, ny) := Neighbour(x, y, c);
            Adjacent(x, y, nx, ny) &&
            forall d :: 0 <= d <= 3 ==> (TraceMove(nx, ny, d) == (x, y) <==> d == c)
  {
  }

  /** A code outside 0..3 matches no case of the trace switch. */
  lemma TraceStaysOnOtherCodes(x: int, y: int, d: int)
    requires !(0 <= d <= 3)
    ensures TraceMove(x, y, d) == (x, y)
  {
  }

  /** The search state the step functions change, as values: cell contents, the vertex
      array's contents and the queue's items. */
  datatype Snapshot = Snapshot(s: seq<u32>, vs: seq<Vertex>, q: seq<Qitem>)

  /** A search frame whose vertex array has one vertex per cell of a non-empty grid. */
  ghost predicate SearchShape(g: Grid, f: SearchFrame)
  {
    g.Valid() && g.hcells >= 1 && g.vcells >= 1 && f.vertices.Length == g.hcells * g.vcells
  }

  /** A run ends: the queue ran dry before the goal was reached, or the trace is back at
      the start. */
  predicate SearchEnds(f: SearchFrame, q: seq<Qitem>)
  {
    (!f.found && q == []) || (f.found && f.x == 0 && f.y == 0)
  }

  predicate IsGoal(g: Grid, x: int, y: int)
  {
    x == g.hcells - 1 && y == g.vcells - 1
  }

  /** Two stacks of the same depth that differ at most in the top frame. */
  predicate SameBelowTop(fs0: seq<SearchFrame>, fs1: seq<SearchFrame>)
  {
    |fs0| == |fs1| && fs0 != [] && fs1[..|fs1| - 1] == fs0[..|fs0| - 1]
  }

  /** The end of a run: the frame, which owns the vertex array, is popped and the queue is
      cleared. */
  method EndSearch(stack: Stack<SearchFrame>, queue: Queue<Qitem, seq<Vertex>>)
    requires stack.items != []
    modifies stack, queue
    ensures stack.items == old(stack.items)[..|old(stack.items)| - 1]
    ensures queue.items == [] && queue.cmp == None
  {
    var _ := stack.Pop();
    queue.Clear();
  }

  /** One trace step: the cursor moves along `dir`, loads the direction recorded at its new
      cell and paints that cell FOUND. */
  method TraceStep(g: Grid, stack: Stack<SearchFrame>)
    requires stack.items != [] && SearchShape(g, stack.Peek())
    requires var f := stack.Peek(); g.PointInBounds(TraceMove(f.x, f.y, f.dir).0, TraceMove(f.x, f.y, f.dir).1)
    modifies g.cells, stack
    ensures var f, n := old(stack.Peek()), |old(stack.items)|;
            var (x, y) := TraceMove(f.x, f.y, f.dir);
            stack.items == old(stack.items)[..n - 1] + [f.(x := x, y := y, dir := f.vertices[g.Index(x, y)].dir)] &&
            g.cells[..] == old(g.cells[..])[g.Index(x, y) := FOUND]
  {
    var f := stack.Peek();
    var (x, y) := TraceMove(f.x, f.y, f.dir);
    var d := f.vertices[g.Index(x, y)].dir;
    stack.SetTop(f.(x := x, y := y, dir := d));
    g.Set(x, y, FOUND);
  }

  /** The goal is taken off the queue: the frame is flagged found, the cursor set on the goal
      with direction `d`, and the goal painted FOUND. */
  method MarkGoal(g: Grid, stack: Stack<SearchFrame>, d: int)
    requires stack.items != [] && SearchShape(g, stack.Peek())
    modifies g.cells, stack
    ensures var f, n := old(stack.Peek()), |old(stack.items)|;
            stack.items == old(stack.items)[..n - 1] + [f.(found := true, x := g.hcells - 1, y := g.vcells - 1, dir := d)] &&
            g.cells[..] == old(g.cells[..])[g.Index(g.hcells - 1, g.vcells - 1) := FOUND]
  {
    var f := stack.Peek();
    stack.SetTop(f.(found := true, x := g.hcells - 1, y := g.vcells - 1, dir := d));
    g.Set(g.hcells - 1, g.vcells - 1, FOUND);
  }

  // ---------------------------------------------------------------------------------------
  // Breadth-first search (StepBFS)
  // ---------------------------------------------------------------------------------------

  /** The cell at (x, y) is discovered, and a trace move on `d` from it stays on the grid and
      lands on a discovered cell. */
  ghost predicate ParentOk(g: Grid, s: seq<u32>, x: int, y: int, d: int)
    requires |s| == g.hcells * g.vcells
  {
    0 <= d <= 3 && g.PointInBounds(TraceMove(x, y, d).0, TraceMove(x, y, d).1) &&
    Discovered(s[g.Index(TraceMove(x, y, d).0, TraceMove(x, y, d).1)])
  }

  /** Every discovered cell other than the start records the code of the enqueue call that
      reached it from a discovered neighbour, so trace moves never leave the discovered cells. */
  ghost predicate ParentsOk(g: Grid, s: seq<u32>, vs: seq<Vertex>)
    requires |s| == |vs| == g.hcells * g.vcells
  {
    forall x, y :: g.PointInBounds(x, y) && (x != 0 || y != 0) && Discovered(s[g.Index(x, y)]) ==>
      ParentOk(g, s, x, y, vs[g.Index(x, y)].dir)
  }

  /** The breadth-first queue: cells on the grid, painted ACTIVE, and no cell twice. */
  ghost predicate BfsQueueOk(g: Grid, s: seq<u32>, q: seq<Qitem>)
    requires |s| == g.hcells * g.vcells
  {
    (forall k :: 0 <= k < |q| ==> g.PointInBounds(q[k].x, q[k].y) && s[g.Index(q[k].x, q[k].y)] == ACTIVE) &&
    (forall j, k :: 0 <= j < k < |q| ==> q[j].x != q[k].x || q[j].y != q[k].y)
  }

  /** The trace cursor stands on a discovered cell, and its direction is the one recorded
      there or a code that does not move. */
  ghost predicate TraceOk(g: Grid, s: seq<u32>, vs: seq<Vertex>, f: SearchFrame)
    requires |s| == |vs| == g.hcells * g.vcells
  {
    g.PointInBounds(f.x, f.y) && Discovered(s[g.Index(f.x, f.y)]) &&
    (f.dir == vs[g.Index(f.x, f.y)].dir || !(0 <= f.dir <= 3))
  }

  /** What breadth-first search keeps between steps, over the snapshot `t` of cells,
      vertices and queue: the start is discovered, parent codes lead through discovered
      cells, and the queue is well formed while searching, the cursor while tracing. */
  ghost predicate BfsInv(g: Grid, t: Snapshot, f: SearchFrame)
  {
    g.Valid() && g.hcells >= 1 && g.vcells >= 1 && |t.s| == |t.vs| == g.hcells * g.vcells &&
    Discovered(t.s[g.Index(0, 0)]) && ParentsOk(g, t.s, t.vs) &&
    (if f.found then TraceOk(g, t.s, t.vs, f) else BfsQueueOk(g, t.s, t.q))
  }

  /** The snapshot of a breadth-first run's live state. */
  function Live(g: Grid, f: SearchFrame, queue: Queue<Qitem, seq<Vertex>>): Snapshot
    reads g.cells, f.vertices, queue
  {
    Snapshot(g.cells[..], f.vertices[..], queue.items)
  }

  /** Repainting a discovered cell with a solver colour keeps the parent codes valid. */
  lemma RepaintKeepsParents(g: Grid, s: seq<u32>, vs: seq<Vertex>, x: int, y: int, c: u32)
    requires |s| == |vs| == g.hcells * g.vcells && ParentsOk(g, s, vs)
    requires g.PointInBounds(x, y) && Discovered(s[g.Index(x, y)]) && Discovered(c)
    ensures ParentsOk(g, s[g.Index(x, y) := c], vs)
  {
    var s1 := s[g.Index(x, y) := c];
    forall i | 0 <= i < |s|
      ensures Discovered(s1[i]) == Discovered(s[i])
    {
    }
  }

  /** The enqueue lambda of StepBFS on a snapshot: a PATH neighbour records code `c`, turns
      ACTIVE and joins the rear of the queue; anything else is left alone. */
  function BfsVisit(g: Grid, t: Snapshot, x: int, y: int, c: int): (r: Snapshot)
    requires |t.s| == |t.vs| == g.hcells * g.vcells
    ensures |r.s| == |r.vs| == |t.s|
  {
    if g.PointInBounds(x, y) && t.s[g.Index(x, y)] == PATH then
      var k := g.Index(x, y);
      Snapshot(t.s[k := ACTIVE], t.vs[k := t.vs[k].(dir := c)], t.q + [Qitem(x, y, -1)])
    else t
  }

  /** Visiting a neighbour of a discovered cell keeps the start discovered, the parent codes
      valid and the queue well formed. */
  lemma BfsVisitKeeps(g: Grid, t: Snapshot, px: int, py: int, c: int)
    requires g.Valid() && g.hcells >= 1 && g.vcells >= 1 && |t.s| == |t.vs| == g.hcells * g.vcells
    requires Discovered(t.s[g.Index(0, 0)]) && ParentsOk(g, t.s, t.vs) && BfsQueueOk(g, t.s, t.q)
    requires g.PointInBounds(px, py) && Discovered(t.s[g.Index(px, py)]) && 0 <= c <= 3
    ensures var r := BfsVisit(g, t, Neighbour(px, py, c).0, Neighbour(px, py, c).1, c);
            Discovered(r.s[g.Index(0, 0)]) && ParentsOk(g, r.s, r.vs) && BfsQueueOk(g, r.s, r.q) &&
            Discovered(r.s[g.Index(px, py)])
  {
    var (x, y) := Neighbour(px, py, c);
    if g.PointInBounds(x, y) && t.s[g.Index(x, y)] == PATH {
      var k := g.Index(x, y);
      var r := BfsVisit(g, t, x, y, c);
      TraceUndoesEnqueue(px, py, c);
      forall i | 0 <= i < |t.s| && i != k
        ensures r.s[i] == t.s[i]
      {
      }
      assert ParentsOk(g, r.s, r.vs) by {
        forall qx, qy | g.PointInBounds(qx, qy) && (qx != 0 || qy != 0) && Discovered(r.s[g.Index(qx, qy)])
          ensures ParentOk(g, r.s, qx, qy, r.vs[g.Index(qx, qy)].dir)
        {
          g.IndexInjective(qx, qy, x, y);
          if g.Index(qx, qy) != k {
            assert ParentOk(g, t.s, qx, qy, t.vs[g.Index(qx, qy)].dir);
          }
        }
      }
      assert BfsQueueOk(g, r.s, r.q) by {
        forall j | 0 <= j < |t.q|
          ensures t.q[j].x != x || t.q[j].y != y
        {
          g.IndexInjective(t.q[j].x, t.q[j].y, x, y);
        }
      }
    }
  }

  /** The enqueue call with code `c` made from the dequeued cell (px, py). */
  function BfsVisitFrom(g: Grid, t: Snapshot, px: int, py: int, c: int): (r: Snapshot)
    requires |t.s| == |t.vs| == g.hcells * g.vcells && 0 <= c <= 3
    ensures |r.s| == |r.vs| == |t.s|
  {
    BfsVisit(g, t, Neighbour(px, py, c).0, Neighbour(px, py, c).1, c)
  }

  /** The rest of StepBFS after a dequeue of a cell other than the goal: the cell is painted
      DEAD and its four neighbours are visited in the order left, right, lower, upper. */
  function BfsExpand(g: Grid, t: Snapshot, x: int, y: int): (r: Snapshot)
    requires |t.s| == |t.vs| == g.hcells * g.vcells && g.PointInBounds(x, y)
    ensures |r.s| == |r.vs| == |t.s|
  {
    var t0 := Snapshot(t.s[g.Index(x, y) := DEAD], t.vs, t.q);
    BfsVisitFrom(g, BfsVisitFrom(g, BfsVisitFrom(g, BfsVisitFrom(g, t0, x, y, 0), x, y, 1), x, y, 2), x, y, 3)
  }

  /** Painting the dequeued cell DEAD keeps the cells still queued ACTIVE. */
  lemma DequeuedDeadKeeps(g: Grid, s: seq<u32>, i: Qitem, q: seq<Qitem>)
    requires |s| == g.hcells * g.vcells && BfsQueueOk(g, s, [i] + q)
    ensures g.PointInBounds(i.x, i.y) && s[g.Index(i.x, i.y)] == ACTIVE
    ensures BfsQueueOk(g, s[g.Index(i.x, i.y) := DEAD], q)
  {
    var q1, x, y := [i] + q, i.x, i.y;
    assert q1[0] == i;
    forall j | 0 <= j < |q|
      ensures g.PointInBounds(q[j].x, q[j].y) && s[g.Index(x, y) := DEAD][g.Index(q[j].x, q[j].y)] == ACTIVE
    {
      assert q1[j + 1] == q[j];
      g.IndexInjective(q[j].x, q[j].y, x, y);
    }
    forall i, j | 0 <= i < j < |q|
      ensures q[i].x != q[j].x || q[i].y != q[j].y
    {
      assert q1[i + 1] == q[i] && q1[j + 1] == q[j];
    }
  }

  /** Expanding a dequeued ACTIVE cell that no longer waits in the queue keeps the invariant
      of the search phase. */
  lemma BfsExpandKeeps(g: Grid, t: Snapshot, i: Qitem)
    requires g.Valid() && g.hcells >= 1 && g.vcells >= 1 && |t.s| == |t.vs| == g.hcells * g.vcells
    requires Discovered(t.s[g.Index(0, 0)]) && ParentsOk(g, t.s, t.vs)
    requires BfsQueueOk(g, t.s, [i] + t.q)
    ensures g.PointInBounds(i.x, i.y)
    ensures var r := BfsExpand(g, t, i.x, i.y);
            Discovered(r.s[g.Index(0, 0)]) && ParentsOk(g, r.s, r.vs) && BfsQueueOk(g, r.s, r.q)
  {
    var x, y := i.x, i.y;
    DequeuedDeadKeeps(g, t.s, i, t.q);
    var t0 := Snapshot(t.s[g.Index(x, y) := DEAD], t.vs, t.q);
    RepaintKeepsParents(g, t.s, t.vs, x, y, DEAD);
    BfsVisitKeeps(g, t0, x, y, 0);
    var t1 := BfsVisitFrom(g, t0, x, y, 0);
    BfsVisitKeeps(g, t1, x, y, 1);
    var t2 := BfsVisitFrom(g, t1, x, y, 1);
    BfsVisitKeeps(g, t2, x, y, 2);
    var t3 := BfsVisitFrom(g, t2, x, y, 2);
    BfsVisitKeeps(g, t3, x, y, 3);
  }

  /** A grid unpainted but for the start cell has no discovered cell a parent code is
      needed for. */
  lemma StartOnlyParents(g: Grid, s: seq<u32>, vs: seq<Vertex>, c: u32)
    requires g.hcells >= 1 && g.vcells >= 1 && |s| == |vs| == g.hcells * g.vcells && Unpainted(s)
    ensures ParentsOk(g, s[g.Index(0, 0) := c], vs)
  {
    forall x, y | g.PointInBounds(x, y) && (x != 0 || y != 0)
      ensures !Discovered(s[g.Index(0, 0) := c][g.Index(x, y)])
    {
      g.IndexInjective(x, y, 0, 0);
    }
  }

  /** InitBFS: a frame owning a fresh vertex array, the start painted ACTIVE and queued. */
  method InitBFS(g: Grid, stack: Stack<SearchFrame>, queue: Queue<Qitem, seq<Vertex>>)
    requires g.Valid() && g.hcells >= 1 && g.vcells >= 1
    modifies g.cells, stack, queue
    ensures |stack.items| == |old(stack.items)| + 1 && stack.items[..|old(stack.items)|] == old(stack.items)
    ensures var f := stack.Peek();
            fresh(f.vertices) && f == SearchFrame(f.vertices, false, 0, 0, 0) &&
            f.vertices.Length == g.hcells * g.vcells &&
            forall k :: 0 <= k < f.vertices.Length ==> f.vertices[k] == Undiscovered
    ensures g.cells[..] == old(g.cells[..])[g.Index(0, 0) := ACTIVE]
    ensures queue.items == old(queue.items) + [Qitem(0, 0, -1)] && queue.cmp == old(queue.cmp)
    ensures old(queue.items) == [] && Unpainted(old(g.cells[..])) ==>
              BfsInv(g, Live(g, stack.Peek(), queue), stack.Peek())
  {
    var vs := new Vertex[g.hcells * g.vcells](_ => Undiscovered);
    stack.Push(SearchFrame(vs, false, 0, 0, 0));
    if Unpainted(g.cells[..]) {
      StartOnlyParents(g, g.cells[..], vs[..], ACTIVE);
    }
    g.Set(0, 0, ACTIVE);
    queue.Enqueue(Qitem(0, 0, -1));
  }

  /** The enqueue lambda of StepBFS. */
  method VisitBFS(g: Grid, vs: array<Vertex>, queue: Queue<Qitem, seq<Vertex>>, x: int, y: int, c: int)
    requires g.Valid() && vs.Length == g.hcells * g.vcells
    modifies g.cells, vs, queue
    ensures Snapshot(g.cells[..], vs[..], queue.items) == BfsVisit(g, old(Snapshot(g.cells[..], vs[..], queue.items)), x, y, c)
    ensures queue.cmp == old(queue.cmp)
  {
    if !g.PointInBounds(x, y) || g.Cell(x, y) != PATH {
      return;
    }
    var k := g.Index(x, y);
    vs[k] := vs[k].(dir := c);
    g.Set(x, y, ACTIVE);
    queue.Enqueue(Qitem(x, y, -1));
  }

  /** The expansion of a dequeued cell other than the goal. */
  method ExpandBFS(g: Grid, vs: array<Vertex>, queue: Queue<Qitem, seq<Vertex>>, i: Qitem)
    requires g.Valid() && vs.Length == g.hcells * g.vcells && g.PointInBounds(i.x, i.y)
    modifies g.cells, vs, queue
    ensures Snapshot(g.cells[..], vs[..], queue.items) ==
            BfsExpand(g, old(Snapshot(g.cells[..], vs[..], queue.items)), i.x, i.y)
    ensures queue.cmp == old(queue.cmp)
  {
    g.Set(i.x, i.y, DEAD);
    VisitBFS(g, vs, queue, i.x - 1, i.y, 0);
    VisitBFS(g, vs, queue, i.x + 1, i.y, 1);
    VisitBFS(g, vs, queue, i.x, i.y - 1, 2);
    VisitBFS(g, vs, queue, i.x, i.y + 1, 3);
  }

  /** The goal direction as written: the goal cell's value plus 0x50 in unsigned arithmetic,
      where the vertex's recorded direction was meant. */
  function GoalDirAsWritten(c: u32): int
  {
    (c as int + 0x50) % 0x1_0000_0000
  }

  /** One trace step as the step functions take it. */
  ghost predicate Traced(g: Grid, t0: Snapshot, t1: Snapshot, f0: SearchFrame, f1: SearchFrame)
    requires |t0.s| == |t0.vs| == g.hcells * g.vcells
  {
    var (x, y) := TraceMove(f0.x, f0.y, f0.dir);
    g.PointInBounds(x, y) &&
    f1 == f0.(x := x, y := y, dir := t0.vs[g.Index(x, y)].dir) &&
    t1 == Snapshot(t0.s[g.Index(x, y) := FOUND], t0.vs, t0.q)
  }

  /** The goal came off the queue: the frame is flagged found with the cursor on the goal and
      direction `d`, and the goal is painted FOUND. */
  ghost predicate GoalMarked(g: Grid, t0: Snapshot, t1: Snapshot, f0: SearchFrame, f1: SearchFrame, d: int)
    requires |t0.s| == |t0.vs| == g.hcells * g.vcells && g.hcells >= 1 && g.vcells >= 1 && t0.q != []
  {
    f1 == f0.(found := true, x := g.hcells - 1, y := g.vcells - 1, dir := d) &&
    t1 == Snapshot(t0.s[g.Index(g.hcells - 1, g.vcells - 1) := FOUND], t0.vs, t0.q[1..])
  }

  /** One breadth-first step that does not end the run, given the direction `goalDir` the
      goal branch loads. */
  ghost predicate BfsStepped(g: Grid, t0: Snapshot, t1: Snapshot, f0: SearchFrame, f1: SearchFrame, goalDir: int)
    requires |t0.s| == |t0.vs| == g.hcells * g.vcells && g.hcells >= 1 && g.vcells >= 1
  {
    if f0.found then Traced(g, t0, t1, f0, f1)
    else
      t0.q != [] &&
      if IsGoal(g, t0.q[0].x, t0.q[0].y) then GoalMarked(g, t0, t1, f0, f1, goalDir)
      else f1 == f0 && g.PointInBounds(t0.q[0].x, t0.q[0].y) &&
           t1 == BfsExpand(g, Snapshot(t0.s, t0.vs, t0.q[1..]), t0.q[0].x, t0.q[0].y)
  }

  /** While tracing, the move from any cell but the start stays on discovered cells. */
  lemma TraceLands(g: Grid, t: Snapshot, f: SearchFrame)
    requires BfsInv(g, t, f) && f.found && (f.x != 0 || f.y != 0)
    ensures var (x, y) := TraceMove(f.x, f.y, f.dir);
            g.PointInBounds(x, y) && Discovered(t.s[g.Index(x, y)])
  {
    if 0 <= f.dir <= 3 {
      assert ParentOk(g, t.s, f.x, f.y, t.vs[g.Index(f.x, f.y)].dir);
    }
  }

  /** The trace branch of StepBFS. */
  method TraceBFS(g: Grid, stack: Stack<SearchFrame>, queue: Queue<Qitem, seq<Vertex>>)
    requires stack.items != [] && BfsInv(g, Live(g, stack.Peek(), queue), stack.Peek())
    requires stack.Peek().found && !SearchEnds(stack.Peek(), queue.items)
    modifies g.cells, stack
    ensures SameBelowTop(old(stack.items), stack.items)
    ensures stack.Peek().vertices == old(stack.Peek()).vertices
    ensures Traced(g, old(Live(g, stack.Peek(), queue)), Live(g, stack.Peek(), queue), old(stack.Peek()), stack.Peek())
    ensures BfsInv(g, Live(g, stack.Peek(), queue), stack.Peek())
  {
    var f := stack.Peek();
    ghost var t := Live(g, f, queue);
    TraceLands(g, t, f);
    var (x, y) := TraceMove(f.x, f.y, f.dir);
    RepaintKeepsParents(g, t.s, t.vs, x, y, FOUND);
    TraceStep(g, stack);
  }

  /** The goal branch of StepBFS and StepBFSFixed: with a direction that is either the one
      recorded at the goal or a code that does not move, the invariant holds. */
  method GoalBFS(g: Grid, stack: Stack<SearchFrame>, queue: Queue<Qitem, seq<Vertex>>, i: Qitem, d: int)
    requires stack.items != [] && !stack.Peek().found && IsGoal(g, i.x, i.y)
    requires var f := stack.Peek(); var t := Live(g, f, queue);
             BfsInv(g, Snapshot(t.s, t.vs, [i] + t.q), f) &&
             (!(0 <= d <= 3) || d == t.vs[g.Index(i.x, i.y)].dir)
    modifies g.cells, stack
    ensures SameBelowTop(old(stack.items), stack.items)
    ensures stack.Peek().vertices == old(stack.Peek()).vertices
    ensures var f0, t0 := old(stack.Peek()), old(Live(g, stack.Peek(), queue));
            GoalMarked(g, Snapshot(t0.s, t0.vs, [i] + t0.q), Live(g, stack.Peek(), queue), f0, stack.Peek(), d)
    ensures BfsInv(g, Live(g, stack.Peek(), queue), stack.Peek())
  {
    var f := stack.Peek();
    ghost var t := Live(g, f, queue);
    DequeuedDeadKeeps(g, t.s, i, t.q);
    RepaintKeepsParents(g, t.s, t.vs, i.x, i.y, FOUND);
    MarkGoal(g, stack, d);
    assert ([i] + t.q)[1..] == t.q;
  }
  /** The expansion branch of StepBFS and StepBFSFixed, after the dequeue of `i`. */
  method ExpandStepBFS(g: Grid, stack: Stack<SearchFrame>, queue: Queue<Qitem, seq<Vertex>>, i: Qitem)
    requires stack.items != [] && !stack.Peek().found && !IsGoal(g, i.x, i.y)
    requires var f := stack.Peek(); var t := Live(g, f, queue);
             BfsInv(g, Snapshot(t.s, t.vs, [i] + t.q), f)
    modifies g.cells, queue, stack.Peek().vertices
    ensures stack.items == old(stack.items) && queue.cmp == old(queue.cmp)
    ensures g.PointInBounds(i.x, i.y)
    ensures Live(g, stack.Peek(), queue) == BfsExpand(g, old(Live(g, stack.Peek(), queue)), i.x, i.y)
    ensures BfsInv(g, Live(g, stack.Peek(), queue), stack.Peek())
  {
    var f := stack.Peek();
    BfsExpandKeeps(g, Live(g, f, queue), i);
    ExpandBFS(g, f.vertices, queue, i);
  }

  /** StepBFS as written: a run that ends pops the frame and clears the queue; a found frame
      takes one trace step; otherwise the front cell is dequeued, and the goal is marked with
      its cell value plus 0x50 as direction, while any other cell is expanded. */
  method StepBFS(g: Grid, stack: Stack<SearchFrame>, queue: Queue<Qitem, seq<Vertex>>)
    requires stack.items != [] && BfsInv(g, Live(g, stack.Peek(), queue), stack.Peek())
    modifies g.cells, stack, queue, stack.Peek().vertices
    ensures var f0, t0, n := old(stack.Peek()), old(Live(g, stack.Peek(), queue)), |old(stack.items)|;
            SearchEnds(f0, t0.q) ==>
              stack.items == old(stack.items)[..n - 1] && queue.items == [] && queue.cmp == None && g.cells[..] == t0.s
    ensures var f0, t0, n := old(stack.Peek()), old(Live(g, stack.Peek(), queue)), |old(stack.items)|;
            !SearchEnds(f0, t0.q) ==>
              SameBelowTop(old(stack.items), stack.items) &&
              stack.Peek().vertices == f0.vertices && queue.cmp == old(queue.cmp) &&
              BfsInv(g, Live(g, stack.Peek(), queue), stack.Peek()) &&
              BfsStepped(g, t0, Live(g, stack.Peek(), queue), f0, stack.Peek(), GoalDirAsWritten(t0.s[g.Index(g.hcells - 1, g.vcells - 1)]))
  {
    var f := stack.Peek();
    if (!f.found && queue.IsEmpty()) || (f.found && f.x == 0 && f.y == 0) {
      EndSearch(stack, queue);
      return;
    }
    if f.found {
      TraceBFS(g, stack, queue);
      return;
    }
    ghost var t := Live(g, f, queue);
    var i := queue.Dequeue();
    assert t.q == [i] + queue.items;
    assert t.q[0] == i && t.q[1..] == queue.items;
    if i.x == g.hcells - 1 && i.y == g.vcells - 1 {
      DequeuedDeadKeeps(g, t.s, i, queue.items);
      var d := GoalDirAsWritten(g.Cell(i.x, i.y));
      GoalBFS(g, stack, queue, i, d);
      assert GoalMarked(g, t, Live(g, stack.Peek(), queue), f, stack.Peek(), d);
      return;
    }
    ExpandStepBFS(g, stack, queue, i);
    assert Live(g, stack.Peek(), queue) == BfsExpand(g, Snapshot(t.s, t.vs, t.q[1..]), i.x, i.y);
  }

  /** StepBFS with the goal branch loading the direction recorded at the goal, as the
      Dijkstra and A* steps do. */
  method StepBFSFixed(g: Grid, stack: Stack<SearchFrame>, queue: Queue<Qitem, seq<Vertex>>)
    requires stack.items != [] && BfsInv(g, Live(g, stack.Peek(), queue), stack.Peek())
    modifies g.cells, stack, queue, stack.Peek().vertices
    ensures var f0, t0, n := old(stack.Peek()), old(Live(g, stack.Peek(), queue)), |old(stack.items)|;
            SearchEnds(f0, t0.q) ==>
              stack.items == old(stack.items)[..n - 1] && queue.items == [] && queue.cmp == None && g.cells[..] == t0.s
    ensures var f0, t0, n := old(stack.Peek()), old(Live(g, stack.Peek(), queue)), |old(stack.items)|;
            !SearchEnds(f0, t0.q) ==>
              SameBelowTop(old(stack.items), stack.items) &&
              stack.Peek().vertices == f0.vertices && queue.cmp == old(queue.cmp) &&
              BfsInv(g, Live(g, stack.Peek(), queue), stack.Peek()) &&
              BfsStepped(g, t0, Live(g, stack.Peek(), queue), f0, stack.Peek(), t0.vs[g.Index(g.hcells - 1, g.vcells - 1)].dir)
  {
    var f := stack.Peek();
    if (!f.found && queue.IsEmpty()) || (f.found && f.x == 0 && f.y == 0) {
      EndSearch(stack, queue);
      return;
    }
    if f.found {
      TraceBFS(g, stack, queue);
      return;
    }
    ghost var t := Live(g, f, queue);
    var i := queue.Dequeue();
    assert t.q == [i] + queue.items;
    assert t.q[0] == i && t.q[1..] == queue.items;
    if i.x == g.hcells - 1 && i.y == g.vcells - 1 {
      DequeuedDeadKeeps(g, t.s, i, queue.items);
      var d := f.vertices[g.Index(i.x, i.y)].dir;
      GoalBFS(g, stack, queue, i, d);
      assert GoalMarked(g, t, Live(g, stack.Peek(), queue), f, stack.Peek(), d);
      return;
    }
    ExpandStepBFS(g, stack, queue, i);
    assert Live(g, stack.Peek(), queue) == BfsExpand(g, Snapshot(t.s, t.vs, t.q[1..]), i.x, i.y);
  }

  /** As written, the direction loaded at the goal is outside 0..3 for any solver colour, so
      the trace step that follows the goal step leaves the cursor on the goal and repaints it:
      the first trace step does not move. */
  lemma BfsFirstTraceStepStays(g: Grid, t0: Snapshot, t1: Snapshot, t2: Snapshot, f0: SearchFrame, f1: SearchFrame, f2: SearchFrame)
    requires g.hcells >= 1 && g.vcells >= 1 && |t0.s| == |t0.vs| == g.hcells * g.vcells && t0.q != []
    requires t0.s[g.Index(g.hcells - 1, g.vcells - 1)] == ACTIVE
    requires GoalMarked(g, t0, t1, f0, f1, GoalDirAsWritten(t0.s[g.Index(g.hcells - 1, g.vcells - 1)]))
    requires Traced(g, t1, t2, f1, f2)
    ensures f1.x == f2.x == g.hcells - 1 && f1.y == f2.y == g.vcells - 1
    ensures t2.s == t1.s
  {
    TraceStaysOnOtherCodes(f1.x, f1.y, f1.dir);
  }

  /** With the recorded direction, the trace step that follows the goal step moves to the
      neighbour the goal was reached from, a discovered cell, unless the goal is the start. */
  lemma BfsFixedTraceStepMoves(g: Grid, t1: Snapshot, t2: Snapshot, f1: SearchFrame, f2: SearchFrame)
    requires BfsInv(g, t1, f1) && f1.found && (f1.x != 0 || f1.y != 0)
    requires f1.dir == t1.vs[g.Index(f1.x, f1.y)].dir
    requires Traced(g, t1, t2, f1, f2)
    ensures Adjacent(f1.x, f1.y, f2.x, f2.y) && Discovered(t1.s[g.Index(f2.x, f2.y)])
  {
    assert ParentOk(g, t1.s, f1.x, f1.y, t1.vs[g.Index(f1.x, f1.y)].dir);
  }

  // ---------------------------------------------------------------------------------------
  // Dijkstra and A* (StepDijkstra, StepAStar)
  // ---------------------------------------------------------------------------------------

  /** The A* heuristic of a cell on the grid: its Manhattan distance to the goal. The code
      computes it in unsigned arithmetic, which cannot wrap for a point on the grid. */
  function Heuristic(g: Grid, x: int, y: int): (r: nat)
    requires g.PointInBounds(x, y)
    ensures r == 0 <==> IsGoal(g, x, y)
  {
    (g.hcells - 1 - x) + (g.vcells - 1 - y)
  }

  /** The heuristic InitAStar stores at the start, `hcells + vcells - 2`, is the start's
      Manhattan distance, and a move to a neighbour changes the heuristic by exactly one, so
      it never overestimates the remaining number of moves. */
  lemma HeuristicConsistent(g: Grid, x: int, y: int, c: int)
    requires g.PointInBounds(x, y) && 0 <= c <= 3
    requires g.PointInBounds(Neighbour(x, y, c).0, Neighbour(x, y, c).1)
    ensures g.hcells >= 1 && g.vcells >= 1 && Heuristic(g, 0, 0) == g.hcells + g.vcells - 2
    ensures var (nx, ny) := Neighbour(x, y, c);
            Heuristic(g, nx, ny) == Heuristic(g, x, y) + 1 || Heuristic(g, nx, ny) == Heuristic(g, x, y) - 1
  {
  }

  /** The priority of a queue item: its vertex's cost for Dijkstra, cost plus heuristic for
      A*. An item whose vertex index is off the array has key 0; no such item is queued. */
  function Key(vs: seq<Vertex>, astar: bool, i: Qitem): int
  {
    if 0 <= i.v < |vs| then
      if astar then vs[i.v].cost + vs[i.v].heuristic else vs[i.v].cost
    else 0
  }

  /** The comparators InitDijkstra and InitAStar install: strictly smaller key first. */
  const ByCost: Compare<seq<Vertex>, Qitem> := (vs: seq<Vertex>, a: Qitem, b: Qitem) => Key(vs, false, a) < Key(vs, false, b)
  const ByEstimate: Compare<seq<Vertex>, Qitem> := (vs: seq<Vertex>, a: Qitem, b: Qitem) => Key(vs, true, a) < Key(vs, true, b)

  function Order(astar: bool): Compare<seq<Vertex>, Qitem>
  {
    if astar then ByEstimate else ByCost
  }

  /** The position PriorityDequeue takes from the queue `q`, its comparator reading `vs`. */
  function Chosen(q: seq<Qitem>, vs: seq<Vertex>, astar: bool): (m: nat)
    requires q != []
    ensures m < |q|
  {
    RunningMin(q, Order(astar), vs, 0, 0, -1).0
  }

  /** The item taken has the least key in the queue, and every item ahead of it a strictly
      larger one: ties go to the item queued first. */
  lemma ChosenIsFirstMinimum(q: seq<Qitem>, vs: seq<Vertex>, astar: bool)
    requires q != []
    ensures var m := Chosen(q, vs, astar);
            (forall j :: 0 <= j < |q| ==> Key(vs, astar, q[m]) <= Key(vs, astar, q[j])) &&
            (forall j :: 0 <= j < m ==> Key(vs, astar, q[m]) < Key(vs, astar, q[j]))
  {
    var key := (i: Qitem) => Key(vs, astar, i);
    assert forall a, b :: Order(astar)(vs, a, b) == (key(a) < key(b));
    SelectsFirstMinimum(q, Order(astar), vs, key);
  }

  /** The vertex at (x, y) was reached from a neighbour: its code is one of 0..3, and the
      trace move on it lands on the grid, on a vertex reached with a smaller cost. */
  ghost predicate CostParentOk(g: Grid, vs: seq<Vertex>, x: int, y: int)
    requires |vs| == g.hcells * g.vcells && g.PointInBounds(x, y)
  {
    var k := g.Index(x, y);
    var (px, py) := TraceMove(x, y, vs[k].dir);
    0 <= vs[k].dir <= 3 && g.PointInBounds(px, py) && 0 <= vs[g.Index(px, py)].cost < vs[k].cost
  }

  /** The cost records: the start costs 0, unreached vertices -1, every reached vertex is a
      painted cell, and every reached vertex but the start records a parent of smaller cost. */
  ghost predicate CostsOk(g: Grid, s: seq<u32>, vs: seq<Vertex>)
    requires g.hcells >= 1 && g.vcells >= 1 && |s| == |vs| == g.hcells * g.vcells
  {
    vs[g.Index(0, 0)].cost == 0 &&
    (forall k :: 0 <= k < |vs| ==> vs[k].cost >= -1 && (vs[k].cost >= 0 ==> Discovered(s[k]))) &&
    (forall x, y :: g.PointInBounds(x, y) && (x != 0 || y != 0) && vs[g.Index(x, y)].cost >= 0 ==>
      CostParentOk(g, vs, x, y))
  }

  /** A* stores the Manhattan distance to the goal at every reached vertex. */
  ghost predicate HeuristicsOk(g: Grid, vs: seq<Vertex>)
    requires |vs| == g.hcells * g.vcells
  {
    forall x, y :: g.PointInBounds(x, y) && vs[g.Index(x, y)].cost >= 0 ==>
      vs[g.Index(x, y)].heuristic == Heuristic(g, x, y)
  }

  /** Each queued item names a reached cell on the grid, painted ACTIVE, through the index of
      its own vertex, which is flagged in the queue (InitDijkstra leaves the start's flag
      clear); no vertex is queued twice, and a flagged vertex's cell is ACTIVE. */
  ghost predicate WeightedQueueOk(g: Grid, s: seq<u32>, vs: seq<Vertex>, q: seq<Qitem>)
    requires |s| == |vs| == g.hcells * g.vcells
  {
    (forall j :: 0 <= j < |q| ==>
      g.PointInBounds(q[j].x, q[j].y) && q[j].v == g.Index(q[j].x, q[j].y) &&
      s[q[j].v] == ACTIVE && vs[q[j].v].cost >= 0 && (q[j].v == 0 || vs[q[j].v].inQueue)) &&
    (forall i, j :: 0 <= i < j < |q| ==> q[i].v != q[j].v) &&
    FlaggedActive(s, vs)
  }

  /** A vertex flagged as queued has its cell painted ACTIVE. */
  ghost predicate FlaggedActive(s: seq<u32>, vs: seq<Vertex>)
    requires |s| == |vs|
  {
    forall k :: 0 <= k < |vs| && vs[k].inQueue ==> s[k] == ACTIVE
  }

  /** The trace cursor stands on a reached vertex and carries the code recorded there. */
  ghost predicate WeightedTraceOk(g: Grid, vs: seq<Vertex>, f: SearchFrame)
    requires |vs| == g.hcells * g.vcells
  {
    g.PointInBounds(f.x, f.y) && vs[g.Index(f.x, f.y)].cost >= 0 && f.dir == vs[g.Index(f.x, f.y)].dir
  }

  /** What Dijkstra (`astar` false) and A* (`astar` true) keep between steps. */
  ghost predicate WeightedInv(g: Grid, t: Snapshot, f: SearchFrame, astar: bool)
  {
    g.Valid() && g.hcells >= 1 && g.vcells >= 1 && |t.s| == |t.vs| == g.hcells * g.vcells &&
    CostsOk(g, t.s, t.vs) && (astar ==> HeuristicsOk(g, t.vs)) &&
    (if f.found then WeightedTraceOk(g, t.vs, f) else WeightedQueueOk(g, t.s, t.vs, t.q))
  }

  /** The test of the enqueue lambda: the neighbour is on the grid, not a wall, and either
      unreached or reached at a cost larger than the dequeued vertex's plus one. */
  predicate Improves(g: Grid, t: Snapshot, i: Qitem, x: int, y: int)
    requires |t.s| == |t.vs| == g.hcells * g.vcells && 0 <= i.v < |t.vs|
  {
    g.PointInBounds(x, y) && t.s[g.Index(x, y)] != WALL &&
    (t.vs[g.Index(x, y)].cost == -1 || t.vs[g.Index(x, y)].cost > t.vs[i.v].cost + 1)
  }

  /** The enqueue lambda of StepDijkstra and StepAStar on a snapshot: an improvable
      neighbour records the new cost and code `c` (and, for A*, its heuristic); if it is not
      already queued it is flagged, painted ACTIVE and queued with its vertex index. */
  function Relaxed(g: Grid, t: Snapshot, i: Qitem, x: int, y: int, c: int, astar: bool): (r: Snapshot)
    requires |t.s| == |t.vs| == g.hcells * g.vcells && 0 <= i.v < |t.vs|
    ensures |r.s| == |r.vs| == |t.s|
  {
    if !Improves(g, t, i, x, y) then t
    else
      var k := g.Index(x, y);
      var w := t.vs[k].(cost := t.vs[i.v].cost + 1, dir := c,
                        heuristic := if astar then Heuristic(g, x, y) else t.vs[k].heuristic);
      if w.inQueue then Snapshot(t.s, t.vs[k := w], t.q)
      else Snapshot(t.s[k := ACTIVE], t.vs[k := w.(inQueue := true)], t.q + [Qitem(x, y, k)])
  }

  /** The enqueue call with code `c` made from the dequeued item `i`. */
  function RelaxedFrom(g: Grid, t: Snapshot, i: Qitem, c: int, astar: bool): (r: Snapshot)
    requires |t.s| == |t.vs| == g.hcells * g.vcells && 0 <= i.v < |t.vs| && 0 <= c <= 3
    ensures |r.s| == |r.vs| == |t.s|
  {
    Relaxed(g, t, i, Neighbour(i.x, i.y, c).0, Neighbour(i.x, i.y, c).1, c, astar)
  }

  /** The rest of a weighted step after a dequeue of a cell other than the goal: the cell is
      painted DEAD and its neighbours relaxed in the order left, right, lower, upper. */
  function WeightedExpand(g: Grid, t: Snapshot, i: Qitem, astar: bool): (r: Snapshot)
    requires |t.s| == |t.vs| == g.hcells * g.vcells && 0 <= i.v < |t.vs| && g.PointInBounds(i.x, i.y)
    ensures |r.s| == |r.vs| == |t.s|
  {
    var t0 := Snapshot(t.s[g.Index(i.x, i.y) := DEAD], t.vs, t.q);
    RelaxedFrom(g, RelaxedFrom(g, RelaxedFrom(g, RelaxedFrom(g, t0, i, 0, astar), i, 1, astar), i, 2, astar), i, 3, astar)
  }

  /** PriorityDequeue followed by clearing the taken vertex's queue flag. */
  function Taken(t: Snapshot, astar: bool): (r: Snapshot)
    requires t.q != [] && 0 <= t.q[Chosen(t.q, t.vs, astar)].v < |t.vs|
  {
    var m := Chosen(t.q, t.vs, astar);
    var v := t.q[m].v;
    Snapshot(t.s, t.vs[v := t.vs[v].(inQueue := false)], RemoveAt(t.q, m))
  }

  /** PriorityDequeue as written followed by clearing the taken vertex's queue flag: the
      queue loses, besides the minimum, every item the as-written unlink drops. */
  function TakenAsWritten(t: Snapshot, astar: bool): (r: Snapshot)
    requires t.q != [] && 0 <= t.q[Chosen(t.q, t.vs, astar)].v < |t.vs|
    ensures var m := Chosen(t.q, t.vs, astar);
            r.s == t.s && r.vs == t.vs[t.q[m].v := t.vs[t.q[m].v].(inQueue := false)] &&
            r.q == UnlinkAsWritten(t.q, m, RunningMin(t.q, Order(astar), t.vs, 0, 0, -1).1)
  {
    var (m, p) := RunningMin(t.q, Order(astar), t.vs, 0, 0, -1);
    var v := t.q[m].v;
    Snapshot(t.s, t.vs[v := t.vs[v].(inQueue := false)], UnlinkAsWritten(t.q, m, p))
  }

  /** The as-written take is the corrected one when the minimum is the front or the only
      item, or when it comes right after the previous running minimum. */
  lemma TakenAsWrittenAgrees(t: Snapshot, astar: bool)
    requires t.q != [] && 0 <= t.q[Chosen(t.q, t.vs, astar)].v < |t.vs|
    requires var (m, p) := RunningMin(t.q, Order(astar), t.vs, 0, 0, -1); |t.q| == 1 || m == 0 || p == m - 1
    ensures TakenAsWritten(t, astar) == Taken(t, astar)
  {
    var (m, p) := RunningMin(t.q, Order(astar), t.vs, 0, 0, -1);
    UnlinkAsWrittenCorrectCases(t.q, m, p);
  }

  /** A weighted search that has not found the goal, run on a snapshot one dequeue at a time
      with the corrected removal, or with the source's (`asWritten`): it stops with `true`
      when the goal is dequeued and with `false` when the queue is empty or `fuel` dequeues
      are done. An item that does not name a cell stops it too; no snapshot that keeps
      WeightedInv holds one. */
  function Search(g: Grid, t: Snapshot, astar: bool, asWritten: bool, fuel: nat): (r: (Snapshot, bool))
    requires |t.s| == |t.vs| == g.hcells * g.vcells
    ensures !r.1 && fuel > 0 && t.q == [] ==> r.0 == t
    decreases fuel
  {
    if fuel == 0 || t.q == [] then (t, false)
    else
      var i := t.q[Chosen(t.q, t.vs, astar)];
      if !(0 <= i.v < |t.vs| && g.PointInBounds(i.x, i.y)) then (t, false)
      else
        var mid := if asWritten then TakenAsWritten(t, astar) else Taken(t, astar);
        if IsGoal(g, i.x, i.y) then (mid, true)
        else Search(g, WeightedExpand(g, mid, i, astar), astar, asWritten, fuel - 1)
  }

  /** A step of StepDijkstra or StepAStar that neither starts nor ends the trace is one
      dequeue of the corrected Search. */
  lemma SearchFollowsStep(g: Grid, t0: Snapshot, t1: Snapshot, f0: SearchFrame, f1: SearchFrame, astar: bool, fuel: nat)
    requires |t0.s| == |t0.vs| == g.hcells * g.vcells && g.hcells >= 1 && g.vcells >= 1
    requires WeightedStepped(g, t0, t1, f0, f1, astar) && !f0.found && !f1.found
    ensures |t1.s| == |t1.vs| == |t0.s|
    ensures Search(g, t0, astar, false, fuel + 1) == Search(g, t1, astar, false, fuel)
  {
  }

  /** One weighted step that does not end the run. */
  ghost predicate WeightedStepped(g: Grid, t0: Snapshot, t1: Snapshot, f0: SearchFrame, f1: SearchFrame, astar: bool)
    requires |t0.s| == |t0.vs| == g.hcells * g.vcells && g.hcells >= 1 && g.vcells >= 1
  {
    if f0.found then Traced(g, t0, t1, f0, f1)
    else
      t0.q != [] &&
      var i := t0.q[Chosen(t0.q, t0.vs, astar)];
      0 <= i.v < |t0.vs| && g.PointInBounds(i.x, i.y) &&
      var mid := Taken(t0, astar);
      if IsGoal(g, i.x, i.y) then
        f1 == f0.(found := true, x := i.x, y := i.y, dir := t0.vs[g.Index(i.x, i.y)].dir) &&
        t1 == Snapshot(mid.s[g.Index(i.x, i.y) := FOUND], mid.vs, mid.q)
      else f1 == f0 && t1 == WeightedExpand(g, mid, i, astar)
  }

  /** What a relaxation from the dequeued item `i` with code `c` needs: `i` names its own
      reached cell on a non-empty grid. */
  ghost predicate RelaxReady(g: Grid, t: Snapshot, i: Qitem, c: int)
  {
    g.Valid() && g.hcells >= 1 && g.vcells >= 1 && |t.s| == |t.vs| == g.hcells * g.vcells &&
    g.PointInBounds(i.x, i.y) && i.v == g.Index(i.x, i.y) && t.vs[i.v].cost >= 0 && 0 <= c <= 3
  }

  /** An improving relaxation writes only the neighbour's vertex and cell, which is neither the
      start nor the dequeued cell, and the trace move on its new code leads back to `i`. */
  lemma RelaxFacts(g: Grid, t: Snapshot, i: Qitem, c: int, astar: bool)
    requires RelaxReady(g, t, i, c) && t.vs[g.Index(0, 0)].cost == 0
    ensures var (x, y) := Neighbour(i.x, i.y, c);
            var r := RelaxedFrom(g, t, i, c, astar);
            Improves(g, t, i, x, y) ==>
              var k := g.Index(x, y);
              k != i.v && k != g.Index(0, 0) && (x != 0 || y != 0) &&
              r.vs[k].cost == t.vs[i.v].cost + 1 && r.vs[k].dir == c && TraceMove(x, y, c) == (i.x, i.y) &&
              (forall j :: 0 <= j < |t.s| && j != k ==> r.vs[j] == t.vs[j] && r.s[j] == t.s[j])
  {
    var (x, y) := Neighbour(i.x, i.y, c);
    if Improves(g, t, i, x, y) {
      TraceUndoesEnqueue(i.x, i.y, c);
      g.IndexInjective(x, y, i.x, i.y);
      g.IndexInjective(x, y, 0, 0);
    }
  }

  /** Repainting a cell with a solver colour keeps the cost records. */
  lemma RepaintKeepsCosts(g: Grid, s: seq<u32>, vs: seq<Vertex>, k: nat, c: u32)
    requires g.hcells >= 1 && g.vcells >= 1 && |s| == |vs| == g.hcells * g.vcells && k < |s|
    requires CostsOk(g, s, vs) && Discovered(c)
    ensures CostsOk(g, s[k := c], vs)
  {
    forall j | 0 <= j < |vs| && vs[j].cost >= 0
      ensures Discovered(s[k := c][j])
    {
    }
  }

  /** A relaxation keeps the start's cost, the cost range and the painted reached cells. */
  lemma RelaxKeepsLinks(g: Grid, t: Snapshot, i: Qitem, c: int, astar: bool)
    requires RelaxReady(g, t, i, c) && CostsOk(g, t.s, t.vs) && FlaggedActive(t.s, t.vs)
    ensures var r := RelaxedFrom(g, t, i, c, astar);
            r.vs[g.Index(0, 0)].cost == 0 &&
            forall k :: 0 <= k < |r.vs| ==> r.vs[k].cost >= -1 && (r.vs[k].cost >= 0 ==> Discovered(r.s[k]))
  {
    RelaxFacts(g, t, i, c, astar);
  }

  /** A relaxation keeps every reached vertex's parent valid: the relaxed vertex gets the
      dequeued one as parent, and a vertex whose parent it is sees that parent's cost drop. */
  lemma RelaxKeepsParents(g: Grid, t: Snapshot, i: Qitem, c: int, astar: bool)
    requires RelaxReady(g, t, i, c) && CostsOk(g, t.s, t.vs)
    ensures var r := RelaxedFrom(g, t, i, c, astar);
            forall x, y :: g.PointInBounds(x, y) && (x != 0 || y != 0) && r.vs[g.Index(x, y)].cost >= 0 ==>
              CostParentOk(g, r.vs, x, y)
  {
    RelaxFacts(g, t, i, c, astar);
    var (x, y) := Neighbour(i.x, i.y, c);
    var r := RelaxedFrom(g, t, i, c, astar);
    if Improves(g, t, i, x, y) {
      var k := g.Index(x, y);
      forall qx, qy | g.PointInBounds(qx, qy) && (qx != 0 || qy != 0) && r.vs[g.Index(qx, qy)].cost >= 0
        ensures CostParentOk(g, r.vs, qx, qy)
      {
        if g.Index(qx, qy) != k {
          assert CostParentOk(g, t.vs, qx, qy);
        } else {
          g.IndexInjective(qx, qy, x, y);
        }
      }
    }
  }

  /** A relaxation by A* stores the Manhattan distance at the relaxed vertex. */
  lemma RelaxKeepsHeuristics(g: Grid, t: Snapshot, i: Qitem, c: int)
    requires RelaxReady(g, t, i, c) && t.vs[g.Index(0, 0)].cost == 0 && HeuristicsOk(g, t.vs)
    ensures HeuristicsOk(g, RelaxedFrom(g, t, i, c, true).vs)
  {
    RelaxFacts(g, t, i, c, true);
    var (x, y) := Neighbour(i.x, i.y, c);
    var r := RelaxedFrom(g, t, i, c, true);
    if Improves(g, t, i, x, y) {
      forall qx, qy | g.PointInBounds(qx, qy) && r.vs[g.Index(qx, qy)].cost >= 0
        ensures r.vs[g.Index(qx, qy)].heuristic == Heuristic(g, qx, qy)
      {
        g.IndexInjective(qx, qy, x, y);
      }
    }
  }

  /** A relaxation keeps the queue well formed: a vertex is queued only when not flagged,
      and then with its own index. */
  lemma RelaxKeepsQueue(g: Grid, t: Snapshot, i: Qitem, c: int, astar: bool)
    requires RelaxReady(g, t, i, c) && CostsOk(g, t.s, t.vs) && WeightedQueueOk(g, t.s, t.vs, t.q)
    ensures var r := RelaxedFrom(g, t, i, c, astar);
            WeightedQueueOk(g, r.s, r.vs, r.q)
  {
    RelaxFacts(g, t, i, c, astar);
    var (x, y) := Neighbour(i.x, i.y, c);
    var r := RelaxedFrom(g, t, i, c, astar);
    if Improves(g, t, i, x, y) {
      var k := g.Index(x, y);
      if !t.vs[k].inQueue {
        forall j | 0 <= j < |t.q|
          ensures t.q[j].v != k
        {
        }
      }
    }
  }

  /** The search-phase part of WeightedInv. */
  ghost predicate WeightedSearchOk(g: Grid, t: Snapshot, astar: bool)
    requires g.hcells >= 1 && g.vcells >= 1 && |t.s| == |t.vs| == g.hcells * g.vcells
  {
    CostsOk(g, t.s, t.vs) && (astar ==> HeuristicsOk(g, t.vs)) && WeightedQueueOk(g, t.s, t.vs, t.q)
  }

  /** One relaxation keeps the search-phase invariant and leaves the dequeued vertex alone. */
  lemma RelaxKeeps(g: Grid, t: Snapshot, i: Qitem, c: int, astar: bool)
    requires RelaxReady(g, t, i, c) && WeightedSearchOk(g, t, astar)
    ensures var r := RelaxedFrom(g, t, i, c, astar);
            WeightedSearchOk(g, r, astar) && r.vs[i.v] == t.vs[i.v]
  {
    RelaxFacts(g, t, i, c, astar);
    RelaxKeepsLinks(g, t, i, c, astar);
    RelaxKeepsParents(g, t, i, c, astar);
    if astar {
      RelaxKeepsHeuristics(g, t, i, c);
    }
    RelaxKeepsQueue(g, t, i, c, astar);
  }

  /** The state right after the dequeue: the taken item `i` names its own reached cell, its
      flag is clear, and with that cell painted DEAD the rest of the queue is well formed. */
  ghost predicate TakenOk(g: Grid, t: Snapshot, i: Qitem, astar: bool)
  {
    g.Valid() && g.hcells >= 1 && g.vcells >= 1 && |t.s| == |t.vs| == g.hcells * g.vcells &&
    g.PointInBounds(i.x, i.y) && i.v == g.Index(i.x, i.y) && t.vs[i.v].cost >= 0 && !t.vs[i.v].inQueue &&
    CostsOk(g, t.s, t.vs) && (astar ==> HeuristicsOk(g, t.vs)) &&
    WeightedQueueOk(g, t.s[i.v := DEAD], t.vs, t.q)
  }

  /** Clearing one vertex's queue flag keeps the cost and heuristic records. */
  lemma TakenKeepsCosts(g: Grid, t: Snapshot, v: nat, astar: bool)
    requires g.hcells >= 1 && g.vcells >= 1 && |t.s| == |t.vs| == g.hcells * g.vcells && v < |t.vs|
    requires CostsOk(g, t.s, t.vs) && (astar ==> HeuristicsOk(g, t.vs))
    ensures var vs := t.vs[v := t.vs[v].(inQueue := false)];
            CostsOk(g, t.s, vs) && (astar ==> HeuristicsOk(g, vs))
  {
    var vs := t.vs[v := t.vs[v].(inQueue := false)];
    forall x, y | g.PointInBounds(x, y) && (x != 0 || y != 0) && vs[g.Index(x, y)].cost >= 0
      ensures CostParentOk(g, vs, x, y)
    {
      assert CostParentOk(g, t.vs, x, y);
    }
  }

  /** Taking the chosen item off a well-formed queue and clearing its flag gives TakenOk. */
  lemma TakenKeeps(g: Grid, t: Snapshot, astar: bool)
    requires g.Valid() && g.hcells >= 1 && g.vcells >= 1 && |t.s| == |t.vs| == g.hcells * g.vcells
    requires t.q != [] && WeightedSearchOk(g, t, astar)
    ensures var i := t.q[Chosen(t.q, t.vs, astar)];
            0 <= i.v < |t.vs| && TakenOk(g, Taken(t, astar), i, astar)
  {
    var m := Chosen(t.q, t.vs, astar);
    var i := t.q[m];
    var r := Taken(t, astar);
    var s1 := r.s[i.v := DEAD];
    TakenKeepsCosts(g, t, i.v, astar);
    forall j | 0 <= j < |r.q|
      ensures r.q[j].v != i.v && r.q[j] == t.q[if j < m then j else j + 1]
    {
    }
    forall k | 0 <= k < |r.vs| && r.vs[k].inQueue
      ensures s1[k] == ACTIVE
    {
    }
  }

  /** Expanding the taken item keeps the search-phase invariant. */
  lemma WeightedExpandKeeps(g: Grid, t: Snapshot, i: Qitem, astar: bool)
    requires TakenOk(g, t, i, astar)
    ensures WeightedSearchOk(g, WeightedExpand(g, t, i, astar), astar)
  {
    RepaintKeepsCosts(g, t.s, t.vs, i.v, DEAD);
    var t0 := Snapshot(t.s[g.Index(i.x, i.y) := DEAD], t.vs, t.q);
    RelaxKeeps(g, t0, i, 0, astar);
    var t1 := RelaxedFrom(g, t0, i, 0, astar);
    RelaxKeeps(g, t1, i, 1, astar);
    var t2 := RelaxedFrom(g, t1, i, 1, astar);
    RelaxKeeps(g, t2, i, 2, astar);
    var t3 := RelaxedFrom(g, t2, i, 2, astar);
    RelaxKeeps(g, t3, i, 3, astar);
  }

  /** While tracing, every move from a cell other than the start lands on the grid at a
      reached vertex of strictly smaller cost, so the trace reaches the start after at most
      the goal's cost many moves. */
  lemma WeightedTraceDescends(g: Grid, t: Snapshot, f: SearchFrame, astar: bool)
    requires WeightedInv(g, t, f, astar) && f.found && (f.x != 0 || f.y != 0)
    ensures var (x, y) := TraceMove(f.x, f.y, f.dir);
            g.PointInBounds(x, y) && 0 <= t.vs[g.Index(x, y)].cost < t.vs[g.Index(f.x, f.y)].cost
  {
    assert CostParentOk(g, t.vs, f.x, f.y);
  }

  /** The state both inits leave: only the start reached, at cost 0 (and, for A*, with the
      start's heuristic), and queued alone. */
  lemma StartWeighted(g: Grid, s: seq<u32>, vs: seq<Vertex>, f: SearchFrame, astar: bool)
    requires g.Valid() && g.hcells >= 1 && g.vcells >= 1 && |s| == |vs| == g.hcells * g.vcells && !f.found
    requires vs[0].cost == 0 && (astar ==> vs[0].heuristic == g.hcells + g.vcells - 2)
    requires forall k :: 1 <= k < |vs| ==> vs[k].cost == -1 && !vs[k].inQueue
    ensures WeightedInv(g, Snapshot(s[g.Index(0, 0) := ACTIVE], vs, [Qitem(0, 0, 0)]), f, astar)
  {
    var s1 := s[g.Index(0, 0) := ACTIVE];
    assert g.Index(0, 0) == 0;
    forall x, y | g.PointInBounds(x, y) && (x != 0 || y != 0)
      ensures vs[g.Index(x, y)].cost == -1
    {
      g.IndexInjective(x, y, 0, 0);
    }
  }

  /** InitDijkstra: a frame owning a fresh vertex array whose start vertex costs 0, the start
      queued (its queue flag left clear) and painted ACTIVE, and the queue ordered by cost. */
  method InitDijkstra(g: Grid, stack: Stack<SearchFrame>, queue: Queue<Qitem, seq<Vertex>>)
    requires g.Valid() && g.hcells >= 1 && g.vcells >= 1
    modifies g.cells, stack, queue
    ensures |stack.items| == |old(stack.items)| + 1 && stack.items[..|old(stack.items)|] == old(stack.items)
    ensures var f := stack.Peek();
            fresh(f.vertices) && f == SearchFrame(f.vertices, false, 0, 0, 0) &&
            f.vertices.Length == g.hcells * g.vcells && f.vertices[0] == Undiscovered.(cost := 0) &&
            forall k :: 1 <= k < f.vertices.Length ==> f.vertices[k] == Undiscovered
    ensures g.cells[..] == old(g.cells[..])[g.Index(0, 0) := ACTIVE]
    ensures queue.items == old(queue.items) + [Qitem(0, 0, 0)] && queue.cmp == Some(ByCost)
    ensures old(queue.items) == [] ==> WeightedInv(g, Live(g, stack.Peek(), queue), stack.Peek(), false)
  {
    assert g.Index(0, 0) == 0;
    var vs := new Vertex[g.hcells * g.vcells](_ => Undiscovered);
    vs[0] := vs[0].(cost := 0);
    var f := SearchFrame(vs, false, 0, 0, 0);
    stack.Push(f);
    ghost var s := g.cells[..];
    ghost var q := queue.items;
    queue.Enqueue(Qitem(0, 0, 0));
    g.Set(0, 0, ACTIVE);
    queue.SetCompareFunc(ByCost);
    if q == [] {
      StartWeighted(g, s, vs[..], f, false);
    }
  }

  /** InitAStar: as InitDijkstra, but the start vertex also stores its heuristic
      `hcells + vcells - 2` and its queue flag, and the queue is ordered by cost plus heuristic. */
  method InitAStar(g: Grid, stack: Stack<SearchFrame>, queue: Queue<Qitem, seq<Vertex>>)
    requires g.Valid() && g.hcells >= 1 && g.vcells >= 1
    modifies g.cells, stack, queue
    ensures |stack.items| == |old(stack.items)| + 1 && stack.items[..|old(stack.items)|] == old(stack.items)
    ensures var f := stack.Peek();
            fresh(f.vertices) && f == SearchFrame(f.vertices, false, 0, 0, 0) &&
            f.vertices.Length == g.hcells * g.vcells && f.vertices[0] == Undiscovered.(cost := 0, heuristic := g.hcells + g.vcells - 2, inQueue := true) &&
            forall k :: 1 <= k < f.vertices.Length ==> f.vertices[k] == Undiscovered
    ensures g.cells[..] == old(g.cells[..])[g.Index(0, 0) := ACTIVE]
    ensures queue.items == old(queue.items) + [Qitem(0, 0, 0)] && queue.cmp == Some(ByEstimate)
    ensures old(queue.items) == [] ==> WeightedInv(g, Live(g, stack.Peek(), queue), stack.Peek(), true)
  {
    assert g.Index(0, 0) == 0;
    var vs := new Vertex[g.hcells * g.vcells](_ => Undiscovered);
    vs[0] := vs[0].(cost := 0, heuristic := g.hcells + g.vcells - 2);
    vs[0] := vs[0].(inQueue := true);
    var f := SearchFrame(vs, false, 0, 0, 0);
    stack.Push(f);
    ghost var s := g.cells[..];
    ghost var q := queue.items;
    queue.Enqueue(Qitem(0, 0, 0));
    g.Set(0, 0, ACTIVE);
    queue.SetCompareFunc(ByEstimate);
    if q == [] {
      StartWeighted(g, s, vs[..], f, true);
    }
  }

  /** The enqueue lambda of StepDijkstra and StepAStar. */
  method RelaxVertex(g: Grid, vs: array<Vertex>, queue: Queue<Qitem, seq<Vertex>>, i: Qitem, x: int, y: int, c: int, astar: bool)
    requires g.Valid() && vs.Length == g.hcells * g.vcells && 0 <= i.v < vs.Length
    modifies g.cells, vs, queue
    ensures Snapshot(g.cells[..], vs[..], queue.items) ==
            Relaxed(g, old(Snapshot(g.cells[..], vs[..], queue.items)), i, x, y, c, astar)
    ensures queue.cmp == old(queue.cmp)
  {
    if !g.PointInBounds(x, y) || g.Cell(x, y) == WALL {
      return;
    }
    var k := g.Index(x, y);
    if vs[k].cost != -1 && vs[k].cost <= vs[i.v].cost + 1 {
      return;
    }
    vs[k] := vs[k].(cost := vs[i.v].cost + 1, dir := c);
    if astar {
      vs[k] := vs[k].(heuristic := Heuristic(g, x, y));
    }
    if !vs[k].inQueue {
      vs[k] := vs[k].(inQueue := true);
      g.Set(x, y, ACTIVE);
      queue.Enqueue(Qitem(x, y, k));
    }
  }

  /** The expansion of a taken cell other than the goal. */
  method ExpandWeighted(g: Grid, vs: array<Vertex>, queue: Queue<Qitem, seq<Vertex>>, i: Qitem, astar: bool)
    requires g.Valid() && vs.Length == g.hcells * g.vcells && 0 <= i.v < vs.Length && g.PointInBounds(i.x, i.y)
    modifies g.cells, vs, queue
    ensures Snapshot(g.cells[..], vs[..], queue.items) ==
            WeightedExpand(g, old(Snapshot(g.cells[..], vs[..], queue.items)), i, astar)
    ensures queue.cmp == old(queue.cmp)
  {
    g.Set(i.x, i.y, DEAD);
    RelaxVertex(g, vs, queue, i, i.x - 1, i.y, 0, astar);
    RelaxVertex(g, vs, queue, i, i.x + 1, i.y, 1, astar);
    RelaxVertex(g, vs, queue, i, i.x, i.y - 1, 2, astar);
    RelaxVertex(g, vs, queue, i, i.x, i.y + 1, 3, astar);
  }

  /** The priority dequeue and the clearing of the taken vertex's queue flag. */
  method TakeWeighted(g: Grid, vs: array<Vertex>, queue: Queue<Qitem, seq<Vertex>>, astar: bool) returns (i: Qitem)
    requires g.Valid() && g.hcells >= 1 && g.vcells >= 1 && vs.Length == g.hcells * g.vcells
    requires queue.items != [] && queue.cmp == Some(Order(astar))
    requires WeightedSearchOk(g, Snapshot(g.cells[..], vs[..], queue.items), astar)
    modifies vs, queue
    ensures var t := old(Snapshot(g.cells[..], vs[..], queue.items));
            i == t.q[Chosen(t.q, t.vs, astar)] && 0 <= i.v < |t.vs| &&
            Snapshot(g.cells[..], vs[..], queue.items) == Taken(t, astar)
    ensures TakenOk(g, Snapshot(g.cells[..], vs[..], queue.items), i, astar)
    ensures queue.cmp == old(queue.cmp)
  {
    TakenKeeps(g, Snapshot(g.cells[..], vs[..], queue.items), astar);
    i := queue.PriorityDequeueFixed(vs[..]);
    vs[i.v] := vs[i.v].(inQueue := false);
  }

  /** The dequeue of StepAStar as the source writes it: PriorityDequeue with its lossy
      unlink, then the taken vertex's flag cleared. */
  method TakeWeightedAsWritten(g: Grid, vs: array<Vertex>, queue: Queue<Qitem, seq<Vertex>>, astar: bool) returns (i: Qitem)
    requires g.Valid() && g.hcells >= 1 && g.vcells >= 1 && vs.Length == g.hcells * g.vcells
    requires queue.items != [] && queue.cmp == Some(Order(astar))
    requires WeightedSearchOk(g, Snapshot(g.cells[..], vs[..], queue.items), astar)
    modifies vs, queue
    ensures var t := old(Snapshot(g.cells[..], vs[..], queue.items));
            i == t.q[Chosen(t.q, t.vs, astar)] && 0 <= i.v < |t.vs| &&
            Snapshot(g.cells[..], vs[..], queue.items) == TakenAsWritten(t, astar)
    ensures queue.cmp == old(queue.cmp)
  {
    TakenKeeps(g, Snapshot(g.cells[..], vs[..], queue.items), astar);
    i := queue.PriorityDequeue(vs[..]);
    vs[i.v] := vs[i.v].(inQueue := false);
  }

  /** The trace branch of StepDijkstra and StepAStar. */
  method TraceWeighted(g: Grid, stack: Stack<SearchFrame>, queue: Queue<Qitem, seq<Vertex>>, astar: bool)
    requires stack.items != [] && WeightedInv(g, Live(g, stack.Peek(), queue), stack.Peek(), astar)
    requires stack.Peek().found && !SearchEnds(stack.Peek(), queue.items)
    modifies g.cells, stack
    ensures SameBelowTop(old(stack.items), stack.items)
    ensures stack.Peek().vertices == old(stack.Peek()).vertices
    ensures Traced(g, old(Live(g, stack.Peek(), queue)), Live(g, stack.Peek(), queue), old(stack.Peek()), stack.Peek())
    ensures WeightedInv(g, Live(g, stack.Peek(), queue), stack.Peek(), astar)
  {
    var f := stack.Peek();
    ghost var t := Live(g, f, queue);
    WeightedTraceDescends(g, t, f, astar);
    var (x, y) := TraceMove(f.x, f.y, f.dir);
    RepaintKeepsCosts(g, t.s, t.vs, g.Index(x, y), FOUND);
    TraceStep(g, stack);
  }

  /** The goal branch of StepDijkstra and StepAStar: the cursor starts with the direction
      recorded at the goal. */
  method GoalWeighted(g: Grid, stack: Stack<SearchFrame>, queue: Queue<Qitem, seq<Vertex>>, i: Qitem, astar: bool)
    requires stack.items != [] && IsGoal(g, i.x, i.y)
    requires TakenOk(g, Live(g, stack.Peek(), queue), i, astar) && stack.Peek().vertices.Length == g.hcells * g.vcells
    modifies g.cells, stack
    ensures SameBelowTop(old(stack.items), stack.items)
    ensures stack.Peek().vertices == old(stack.Peek()).vertices
    ensures var f0, t0 := old(stack.Peek()), old(Live(g, stack.Peek(), queue));
            stack.Peek() == f0.(found := true, x := i.x, y := i.y, dir := t0.vs[g.Index(i.x, i.y)].dir) &&
            Live(g, stack.Peek(), queue) == Snapshot(t0.s[g.Index(i.x, i.y) := FOUND], t0.vs, t0.q)
    ensures WeightedInv(g, Live(g, stack.Peek(), queue), stack.Peek(), astar)
  {
    var f := stack.Peek();
    ghost var t := Live(g, f, queue);
    RepaintKeepsCosts(g, t.s, t.vs, i.v, FOUND);
    MarkGoal(g, stack, f.vertices[g.Index(i.x, i.y)].dir);
  }

  /** The expansion branch of StepDijkstra and StepAStar, after the taking of `i`. */
  method ExpandStepWeighted(g: Grid, stack: Stack<SearchFrame>, queue: Queue<Qitem, seq<Vertex>>, i: Qitem, astar: bool)
    requires stack.items != [] && !stack.Peek().found && stack.Peek().vertices.Length == g.hcells * g.vcells
    requires TakenOk(g, Live(g, stack.Peek(), queue), i, astar)
    modifies g.cells, queue, stack.Peek().vertices
    ensures stack.items == old(stack.items) && queue.cmp == old(queue.cmp)
    ensures Live(g, stack.Peek(), queue) == WeightedExpand(g, old(Live(g, stack.Peek(), queue)), i, astar)
    ensures WeightedInv(g, Live(g, stack.Peek(), queue), stack.Peek(), astar)
  {
    var f := stack.Peek();
    WeightedExpandKeeps(g, Live(g, f, queue), i, astar);
    ExpandWeighted(g, f.vertices, queue, i, astar);
  }

  /** StepDijkstra: a run that ends pops the frame and clears the queue; a found frame takes
      one trace step; otherwise the queued cell of least cost is taken, and the goal is marked
      with its recorded direction while any other cell is expanded. */
  method StepDijkstra(g: Grid, stack: Stack<SearchFrame>, queue: Queue<Qitem, seq<Vertex>>)
    requires stack.items != [] && WeightedInv(g, Live(g, stack.Peek(), queue), stack.Peek(), false)
    requires stack.Peek().found || queue.cmp == Some(ByCost)
    modifies g.cells, stack, queue, stack.Peek().vertices
    ensures var f0, t0, n := old(stack.Peek()), old(Live(g, stack.Peek(), queue)), |old(stack.items)|;
            SearchEnds(f0, t0.q) ==>
              stack.items == old(stack.items)[..n - 1] && queue.items == [] && queue.cmp == None && g.cells[..] == t0.s
    ensures var f0, t0 := old(stack.Peek()), old(Live(g, stack.Peek(), queue));
            !SearchEnds(f0, t0.q) ==>
              SameBelowTop(old(stack.items), stack.items) &&
              stack.Peek().vertices == f0.vertices && queue.cmp == old(queue.cmp) &&
              WeightedInv(g, Live(g, stack.Peek(), queue), stack.Peek(), false) &&
              WeightedStepped(g, t0, Live(g, stack.Peek(), queue), f0, stack.Peek(), false)
  {
    var f := stack.Peek();
    if (!f.found && queue.IsEmpty()) || (f.found && f.x == 0 && f.y == 0) {
      EndSearch(stack, queue);
      return;
    }
    if f.found {
      TraceWeighted(g, stack, queue, false);
      return;
    }
    ghost var t := Live(g, f, queue);
    var i := TakeWeighted(g, f.vertices, queue, false);
    ghost var mid := Taken(t, false);
    assert Live(g, f, queue) == mid;
    if i.x == g.hcells - 1 && i.y == g.vcells - 1 {
      GoalWeighted(g, stack, queue, i, false);
      return;
    }
    ExpandStepWeighted(g, stack, queue, i, false);
    assert Live(g, stack.Peek(), queue) == WeightedExpand(g, mid, i, false);
  }

  /** StepAStar: StepDijkstra with the queue ordered by cost plus heuristic and the
      heuristic stored at every relaxed vertex. */
  method StepAStar(g: Grid, stack: Stack<SearchFrame>, queue: Queue<Qitem, seq<Vertex>>)
    requires stack.items != [] && WeightedInv(g, Live(g, stack.Peek(), queue), stack.Peek(), true)
    requires stack.Peek().found || queue.cmp == Some(ByEstimate)
    modifies g.cells, stack, queue, stack.Peek().vertices
    ensures var f0, t0, n := old(stack.Peek()), old(Live(g, stack.Peek(), queue)), |old(stack.items)|;
            SearchEnds(f0, t0.q) ==>
              stack.items == old(stack.items)[..n - 1] && queue.items == [] && queue.cmp == None && g.cells[..] == t0.s
    ensures var f0, t0 := old(stack.Peek()), old(Live(g, stack.Peek(), queue));
            !SearchEnds(f0, t0.q) ==>
              SameBelowTop(old(stack.items), stack.items) &&
              stack.Peek().vertices == f0.vertices && queue.cmp == old(queue.cmp) &&
              WeightedInv(g, Live(g, stack.Peek(), queue), stack.Peek(), true) &&
              WeightedStepped(g, t0, Live(g, stack.Peek(), queue), f0, stack.Peek(), true)
  {
    var f := stack.Peek();
    if (!f.found && queue.IsEmpty()) || (f.found && f.x == 0 && f.y == 0) {
      EndSearch(stack, queue);
      return;
    }
    if f.found {
      TraceWeighted(g, stack, queue, true);
      return;
    }
    ghost var t := Live(g, f, queue);
    var i := TakeWeighted(g, f.vertices, queue, true);
    ghost var mid := Taken(t, true);
    assert Live(g, f, queue) == mid;
    if i.x == g.hcells - 1 && i.y == g.vcells - 1 {
      GoalWeighted(g, stack, queue, i, true);
      return;
    }
    ExpandStepWeighted(g, stack, queue, i, true);
    assert Live(g, stack.Peek(), queue) == WeightedExpand(g, mid, i, true);
  }
}

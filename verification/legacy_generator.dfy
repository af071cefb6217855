/** The earlier revision's maze generator: main.cpp's `shuffle` and the depth-first
    `randomized_dfs` of main.cpp and generator.cpp (the same step in both files), which carves
    passages two cells at a time into a zero-filled grid_t. */
module LegacyGenerators {
  import opened Rng
  import opened Stacks
  import opened Choices
  import opened LegacyGrids
  import Generators

  /** state_t: a depth-first frame with its cursor, position, choice order and, for the
      solver, a finished flag. */
  datatype State = State(at: int, x: int, y: int, choice: seq<Direction>, finished: bool)

  /** A value-initialised state_t (`{}`): at (0, 0), cursor 0, every choice 0, which is L. */
  const Zeroed: State := State(0, 0, 0, [L, L, L, L], false)

  /** main.cpp's `shuffle(n, a)`: for i from n - 1 down to 2 swap a[i] with a[random_int() % i].
      The counter is a signed int, so every n <= 2, zero and negative included, leaves the
      array and the generator as they were. */
  method ShuffleInts(rng: Pcg32, n: int, a: array<int>)
    requires n <= 2 || n <= a.Length
    modifies rng, a
    ensures n <= 2 ==> a[..] == old(a[..]) && rng.state == old(rng.state)
    ensures n >= 3 ==> (a[..], rng.state) == ShuffleRun(old(a[..]), n - 1, old(rng.state), old(rng.inc))
    ensures multiset(a[..]) == multiset(old(a[..])) && rng.inc == old(rng.inc)
  {
    ghost var s, state := a[..], rng.state;
    if n >= 3 {
      Shuffle(rng, n, a);
      ShuffleRunPermutes(s, n - 1, state, rng.inc);
    }
  }

  /** A generator frame: even coordinates on the grid, a cursor in 0..4 and four choices. */
  ghost predicate FrameOk(g: GridT, f: State)
  {
    g.InBounds(f.x, f.y) && f.x % 2 == 0 && f.y % 2 == 0 && 0 <= f.at <= 4 && |f.choice| == 4
  }

  ghost predicate FramesOk(g: GridT, fs: seq<State>)
  {
    forall i :: 0 <= i < |fs| ==> FrameOk(g, fs[i])
  }

  /** The test of one switch case: the cell two away in direction d is in range by that
      case's own comparison (x != 0 for L, x <= hcells - 3 for R, likewise for B and T) and
      is still WALL. */
  predicate CanCarve(g: GridT, s: seq<u8>, x: int, y: int, d: Direction)
    requires |s| == g.hcells * g.vcells && g.InBounds(x, y) && x % 2 == 0 && y % 2 == 0
  {
    match d
    case L => x != 0 && s[g.Index(x - 2, y)] == WALL
    case R => x <= g.hcells - 3 && s[g.Index(x + 2, y)] == WALL
    case B => y != 0 && s[g.Index(x, y - 2)] == WALL
    case T => y <= g.vcells - 3 && s[g.Index(x, y + 2)] == WALL
  }

  /** The frame a call works on: a fresh one at (0, 0) on an empty stack, else the top. */
  function Current(fs: seq<State>): State
  {
    if fs == [] then Zeroed else fs[|fs| - 1]
  }

  /** The frames under the one a call works on. */
  function Below(fs: seq<State>): seq<State>
  {
    if fs == [] then [] else fs[..|fs| - 1]
  }

  /** The cells once an empty stack has had the grid refilled with WALL. */
  function Reset(s: seq<u8>, fs: seq<State>): (r: seq<u8>)
    ensures |r| == |s|
  {
    if fs == [] then seq(|s|, _ => WALL) else s
  }

  /** A frame with cursor 0 takes the shuffled order `c`; any other keeps its own. */
  function Ready(f: State, c: seq<Direction>): State
  {
    if f.at == 0 then f.(choice := c) else f
  }

  /** A frame with cursor 0 marks its own cell PATH. */
  function Marked(g: GridT, s: seq<u8>, f: State): (r: seq<u8>)
    requires |s| == g.hcells * g.vcells && g.InBounds(f.x, f.y)
    ensures |r| == |s|
  {
    if f.at == 0 then s[g.Index(f.x, f.y) := PATH] else s
  }

  /** The switch on the frame's current direction and the pushes after it: the frame goes
      back with its cursor advanced, and above it the frame two cells on when that cell
      could be carved, the cell between having become PATH. */
  function Explore(g: GridT, s: seq<u8>, below: seq<State>, f: State): (r: (seq<u8>, seq<State>))
    requires |s| == g.hcells * g.vcells && FrameOk(g, f) && f.at < 4
    ensures |r.0| == |s|
  {
    var d := f.choice[f.at];
    var back := below + [f.(at := f.at + 1)];
    if CanCarve(g, s, f.x, f.y, d) then
      CarveInRange(g, s, f.x, f.y, d);
      (s[g.Index(f.x + Generators.DX(d) / 2, f.y + Generators.DY(d) / 2) := PATH],
       back + [Zeroed.(x := f.x + Generators.DX(d), y := f.y + Generators.DY(d))])
    else (s, back)
  }

  /** One call of randomized_dfs on cells `s` and frames `fs` (top last), where `c` is the
      order the shuffle gives a fresh frame: the cells and frames afterwards. */
  function GenStep(g: GridT, s: seq<u8>, fs: seq<State>, c: seq<Direction>): (r: (seq<u8>, seq<State>))
    requires |s| == g.hcells * g.vcells && g.hcells >= 1 && g.vcells >= 1
    requires FramesOk(g, fs) && |c| == 4
    ensures |r.0| == |s|
  {
    var f := Current(fs);
    assert FrameOk(g, f);
    if f.at == 4 then (Reset(s, fs), Below(fs))
    else Explore(g, Marked(g, Reset(s, fs), f), Below(fs), Ready(f, c))
  }

  /** The guard keeps the cell two away, and the one between, on the grid. */
  lemma CarveInRange(g: GridT, s: seq<u8>, x: int, y: int, d: Direction)
    requires |s| == g.hcells * g.vcells && g.InBounds(x, y) && x % 2 == 0 && y % 2 == 0
    requires CanCarve(g, s, x, y, d)
    ensures g.InBounds(x + Generators.DX(d), y + Generators.DY(d))
    ensures g.InBounds(x + Generators.DX(d) / 2, y + Generators.DY(d) / 2)
    ensures (x + Generators.DX(d)) % 2 == 0 && (y + Generators.DY(d)) % 2 == 0
  {
    Generators.StepKeepsParity(x, y, d);
  }

  /** Good frames stay good under a push. */
  lemma FramesOkPush(g: GridT, fs: seq<State>, f: State)
    requires FramesOk(g, fs) && FrameOk(g, f)
    ensures FramesOk(g, fs + [f])
  {
    assert forall i :: 0 <= i < |fs| ==> (fs + [f])[i] == fs[i];
  }

  lemma ExploreKeepsFrames(g: GridT, s: seq<u8>, below: seq<State>, f: State)
    requires |s| == g.hcells * g.vcells && FramesOk(g, below) && FrameOk(g, f) && f.at < 4
    ensures FramesOk(g, Explore(g, s, below, f).1)
  {
    var d := f.choice[f.at];
    FramesOkPush(g, below, f.(at := f.at + 1));
    if CanCarve(g, s, f.x, f.y, d) {
      CarveInRange(g, s, f.x, f.y, d);
      FramesOkPush(g, below + [f.(at := f.at + 1)], Zeroed.(x := f.x + Generators.DX(d), y := f.y + Generators.DY(d)));
    }
  }

  /** Every call keeps the frames on even cells of the grid with cursors in 0..4, starting
      from the frame an empty stack creates at (0, 0). */
  lemma GenStepKeepsFrames(g: GridT, s: seq<u8>, fs: seq<State>, c: seq<Direction>)
    requires |s| == g.hcells * g.vcells && g.hcells >= 1 && g.vcells >= 1
    requires FramesOk(g, fs) && IsChoice(c)
    ensures FramesOk(g, GenStep(g, s, fs, c).1)
  {
    var f := Current(fs);
    assert FrameOk(g, f);
    assert FramesOk(g, Below(fs));
    if f.at != 4 {
      ExploreKeepsFrames(g, Marked(g, Reset(s, fs), f), Below(fs), Ready(f, c));
    }
  }

  /** The switch pushes a second frame only when it carves: the frame two cells on, whose
      cell was WALL, above the advanced frame, with the cell between now PATH. */
  lemma ExploreCarves(g: GridT, s: seq<u8>, below: seq<State>, f: State)
    requires |s| == g.hcells * g.vcells && FrameOk(g, f) && f.at < 4
    requires |Explore(g, s, below, f).1| == |below| + 2
    ensures var (s', fs') := Explore(g, s, below, f);
            var d := f.choice[f.at];
            var n := fs'[|fs'| - 1];
            fs'[..|fs'| - 1] == below + [f.(at := f.at + 1)] &&
            n == Zeroed.(x := f.x + Generators.DX(d), y := f.y + Generators.DY(d)) &&
            g.InBounds(n.x, n.y) && s[g.Index(n.x, n.y)] == WALL && n != f &&
            s'[g.Index(f.x + Generators.DX(d) / 2, f.y + Generators.DY(d) / 2)] == PATH
  {
    var d := f.choice[f.at];
    assert CanCarve(g, s, f.x, f.y, d);
    CarveInRange(g, s, f.x, f.y, d);
    Generators.StepKeepsParity(f.x, f.y, d);
  }

  /** A call pushes a new frame only by carving: the new frame is two cells from the frame
      re-pushed under it with its cursor advanced, its cell was WALL before the call (after
      the refill on an empty stack), and the cell between them is now PATH. */
  lemma GenStepCarvesIntoWall(g: GridT, s: seq<u8>, fs: seq<State>, c: seq<Direction>)
    requires |s| == g.hcells * g.vcells && g.hcells >= 1 && g.vcells >= 1
    requires FramesOk(g, fs) && IsChoice(c)
    requires |GenStep(g, s, fs, c).1| == |Below(fs)| + 2
    ensures var (s', fs') := GenStep(g, s, fs, c);
            var f := Ready(Current(fs), c);
            var n := fs'[|fs'| - 1];
            var d := f.choice[f.at];
            fs'[..|fs'| - 1] == Below(fs) + [f.(at := f.at + 1)] &&
            n == Zeroed.(x := f.x + Generators.DX(d), y := f.y + Generators.DY(d)) &&
            g.InBounds(n.x, n.y) && Reset(s, fs)[g.Index(n.x, n.y)] == WALL &&
            s'[g.Index(f.x + Generators.DX(d) / 2, f.y + Generators.DY(d) / 2)] == PATH
  {
    var f := Current(fs);
    assert FrameOk(g, f);
    var s1 := Marked(g, Reset(s, fs), f);
    var f1 := Ready(f, c);
    assert f.at != 4;
    ExploreCarves(g, s1, Below(fs), f1);
    var d := f1.choice[f.at];
    Generators.StepKeepsParity(f.x, f.y, d);
    var nx, ny := f.x + Generators.DX(d), f.y + Generators.DY(d);
    g.IndexInjective(nx, ny, f.x, f.y);
  }

  /** On a non-empty stack a call only ever turns cells into PATH: a PATH cell stays PATH
      and every other cell either keeps its value or becomes PATH. */
  lemma GenStepOnlyCarves(g: GridT, s: seq<u8>, fs: seq<State>, c: seq<Direction>)
    requires |s| == g.hcells * g.vcells && g.hcells >= 1 && g.vcells >= 1
    requires FramesOk(g, fs) && IsChoice(c) && fs != []
    ensures forall i :: 0 <= i < |s| ==> GenStep(g, s, fs, c).0[i] in {s[i], PATH}
  {
    var f := Current(fs);
    assert FrameOk(g, f);
  }

  /** On an empty stack a call wipes the grid: it restarts at (0, 0) with the shuffled
      choice, leaves that frame with cursor 1 at the bottom, and every cell more than two
      steps from (0, 0) is WALL. */
  lemma GenStepRestarts(g: GridT, s: seq<u8>, c: seq<Direction>)
    requires |s| == g.hcells * g.vcells && g.hcells >= 1 && g.vcells >= 1 && IsChoice(c)
    ensures var (s', fs') := GenStep(g, s, [], c);
            fs' != [] && fs'[0] == State(1, 0, 0, c, false) && s'[g.Index(0, 0)] == PATH &&
            forall x, y :: g.InBounds(x, y) && x + y > 2 ==> s'[g.Index(x, y)] == WALL
  {
    var d := c[0];
    var s1 := Marked(g, Reset(s, []), Zeroed);
    var (s', fs') := GenStep(g, s, [], c);
    forall x, y | g.InBounds(x, y) && x + y > 2
      ensures s'[g.Index(x, y)] == WALL
    {
      g.IndexInjective(x, y, 0, 0);
      if CanCarve(g, s1, 0, 0, d) {
        CarveInRange(g, s1, 0, 0, d);
        g.IndexInjective(x, y, Generators.DX(d) / 2, Generators.DY(d) / 2);
      }
    }
  }

  /** The switch and the pushes of randomized_dfs, on the popped frame with its order set. */
  method ExploreStep(g: GridT, stack: Stack<State>, f: State)
    requires g.Valid() && FrameOk(g, f) && f.at < 4
    modifies g.cells, stack
    ensures (g.cells[..], stack.items) == Explore(g, old(g.cells[..]), old(stack.items), f)
  {
    var x, y := f.x, f.y;
    var d := f.choice[f.at];
    var next := CanCarve(g, g.cells[..], x, y, d);
    if next {
      CarveInRange(g, g.cells[..], x, y, d);
      g.cells[g.Index(x + Generators.DX(d) / 2, y + Generators.DY(d) / 2)] := PATH;
    }
    stack.Push(f.(at := f.at + 1));
    if next {
      stack.Push(Zeroed.(x := x + Generators.DX(d), y := y + Generators.DY(d)));
    }
  }

  /** `randomized_dfs(grid, stack)`: one depth-first carving step. The ghost result is the
      choice order a fresh frame receives (any order when the frame already has one). */
  method RandomizedDfs(g: GridT, stack: Stack<State>, rng: Pcg32) returns (ghost c: seq<Direction>)
    requires g.Valid() && g.hcells >= 1 && g.vcells >= 1 && FramesOk(g, stack.items)
    modifies g.cells, stack, rng
    ensures rng.inc == old(rng.inc) && IsChoice(c)
    ensures (g.cells[..], stack.items) == GenStep(g, old(g.cells[..]), old(stack.items), c)
    ensures FramesOk(g, stack.items)
  {
    ghost var s, fs := g.cells[..], stack.items;
    c := Unshuffled;
    var f: State;
    if stack.IsEmpty() {
      forall i | 0 <= i < g.cells.Length {
        g.cells[i] := WALL;
      }
      assert g.cells[..] == Reset(s, fs);
      f := Zeroed;
    } else {
      f := stack.Pop();
    }
    assert f == Current(fs) && stack.items == Below(fs) && FrameOk(g, f);
    GenStepKeepsFrames(g, s, fs, c);
    if f.at == 4 {
      return;
    }
    if f.at == 0 {
      var order := ShuffledChoice(rng);
      c := order;
      f := f.(choice := order);
      g.cells[g.Index(f.x, f.y)] := PATH;
    }
    GenStepKeepsFrames(g, s, fs, c);
    ExploreStep(g, stack, f);
  }
}

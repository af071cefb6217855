# Stepwise maze generators and solvers

This project models, in Dafny, a maze program. The program builds a maze in a flat `hcells × vcells` array of unsigned cells and then solves it. Every algorithm is a resumable state machine: one call of its step does a bounded amount of work. The continuation lives in containers that the caller owns:

- a linked-list stack of frames;
- a linked-list queue, which serves as a FIFO or as a selection queue under a comparator.

A PCG32 generator and an in-place shuffle supply every random choice.

The current revision (`source/`) is modelled as follows:

- **Containers.** `Stacks.Stack` (source/stack.hpp) and `Queues.Queue` (source/queue.hpp) are classes. The node chain of each is a `seq` field that the methods reassign.
- **RNG.** `Rng` (source/rng.cpp, source/rng.hpp) models:
  - the PCG32 step on `bv64`/`bv32`;
  - the process-wide seeded generator;
  - the ranged draw;
  - `RNG::Shuffle`, working in place on an `array`.
- **Grid.** `Grids.Grid` models the cell grid. source/maze.cpp (class Maze) and source/grid.cpp (class Grid) are the same code, so this one class stands for both. The cell values PATH = UINT_MAX − 1 and WALL = UINT_MAX are those of source/maze.hpp.
- **Generator.** `Generators.Generator` models the generator engine of source/generator.cpp: `Init`, `Step`, `_reset`, and the five algorithms Random, Randomized DFS, Recursive Division, Randomized Kruskal and Randomized Prim. Supporting modules:
  - `Lattice` holds the even-cell lattice and the Kruskal edge enumeration;
  - `Prims` holds the swap-remove worklist of Prim's algorithm;
  - `Choices` holds the shuffled direction lists.
- **Solvers.** `Solvers` models the solvers of source/solver.cpp: depth-first search over a stack of frames, and breadth-first search, Dijkstra and A* over a per-cell `Vertex` array and the frontier queue, each with its stepwise back-trace. Each step method requires what the host guarantees: a non-empty stack. Each step keeps an invariant of the search, stated as a ghost predicate over the cells, the vertex array, the queue and the frame.
- **A* run.** `AStarWitness` follows the A* search on one 6 by 3 maze, dequeue by dequeue, once with PriorityDequeue as written and once with the corrected removal.

Draws are kept honest in two ways. The generators and solvers take every random draw from the modelled `Rng.Pcg32` object. Their contracts hold for whatever values those draws produce; the only exceptions are the exact-replay statements of `StepRandom`, `InitRecursiveDivision` and `Shuffle`.

The earlier revision (top-level files) is modelled beside the current one:

- **`LegacyGrids.GridT`** is `grid_t` of grid.cpp: byte cells, the constructor, `center`, and the pixel-to-cell arithmetic, with C's truncating division written out.
- **`LegacyGenerators`** holds `randomized_dfs` of main.cpp and generator.cpp (the same step in both files) and main.cpp's `shuffle`.
- **`LegacySolvers`** holds `solver::dfs` of solver.cpp, with its out-of-range WALL sentinel.
- **Shared code.** main.cpp's `stack_t`, `pcg32_random_r` and `random_int` are the same operations as the current revision's, so `Stacks.Stack` and `Rng` model them too.

Each legacy step is a method proved equal to a specification function of the old state. Lemmas about that function state what the step promises.

## Model

| member | source | states |
|---|---|---|
| Stacks.Stack.constructor | source/stack.hpp:8 | A new stack holds no frames. |
| Stacks.Stack.Push | source/stack.hpp:11-16 | The pushed value becomes the top. Peek returns it, and the values below are exactly the previous contents. main.cpp:71-76 (`stack_t::push`) is the same operation. |
| Stacks.Stack.Pop | source/stack.hpp:18-25 | Requires a non-empty stack. Returns the most recently pushed value still on the stack and removes only that value. main.cpp:78-84 (`stack_t::pop`) is the same operation. |
| Stacks.Stack.Peek | source/stack.hpp:27-30 | Requires a non-empty stack. Returns the top value, the last one pushed and not yet popped. |
| Stacks.Stack.SetTop | source/stack.hpp:27-30 | A write through the reference Peek hands out replaces the top value and nothing else. The depth is unchanged. |
| Stacks.Stack.Clear | source/stack.hpp:36-39 | After Clear the stack is empty. |
| Stacks.PushPopRestores | source/stack.hpp:11-25 | A Push followed by a Pop gives back the pushed value and restores the prior contents. |
| Queues.Queue.constructor | source/queue.hpp:10 | A new queue is empty and has no comparator. |
| Queues.Queue.Enqueue | source/queue.hpp:13-18 | Appends at the rear and keeps the order of the items already queued. On an empty queue the new item is the only one. The comparator is unchanged. |
| Queues.Queue.Dequeue | source/queue.hpp:53-65 | Requires a non-empty queue. Returns the front, the oldest item, and leaves the rest in order. |
| Queues.Queue.ScanForMin | source/queue.hpp:24-34 | The pointer loop over `t`, `m` and `p` ends where the running-minimum scan ends. `p` is a running minimum that `m` replaced, or none when `m` is the front. |
| Queues.SelectsFirstMinimum | source/queue.hpp:24-34 | Take a comparator that orders by a key. The item the scan selects is undercut by no item, and it undercuts every item queued before it: it is the first minimum in queue order. |
| Queues.RunningMinIsFirstMin | source/queue.hpp:24-34 | The scan from any point keeps "first minimum of the prefix seen so far" and ends on the first minimum of the whole list. |
| Queues.Queue.PriorityDequeue | source/queue.hpp:20-51 | As written. Requires a non-empty queue and a comparator. Returns the scan's minimum and leaves the list as the unlink after `p` leaves it. |
| Queues.RemoveAt | source/queue.hpp:38-47 | The intended removal: exactly the chosen item goes, and every other item keeps its place in order. |
| Queues.UnlinkAsWrittenCorrectCases | source/queue.hpp:38-47 | The as-written unlink removes exactly the minimum when the minimum is the front or the only node, or when `p` is its list predecessor. |
| Queues.UnlinkAsWrittenDropsBetween | source/queue.hpp:43-46 | In every other case the nodes strictly between `p` and the minimum are lost too. The queue shrinks by more than one. |
| Queues.PriorityDequeueLosesNine | source/queue.hpp:29-31 | For priorities [5, 3, 9, 1] under `<`, the call returns 1 and leaves [5, 3]; the intended removal leaves [5, 3, 9]. |
| Queues.Queue.PriorityDequeueFixed | source/queue.hpp:20-51 | Corrected. Returns the scan's minimum and removes exactly that item. The remaining items together with the returned one are the items before the call. |
| Queues.Queue.SetCompareFunc | source/queue.hpp:67-69 | Installs the comparator and leaves the items alone. |
| Queues.Queue.Clear | source/queue.hpp:75-79 | The queue is empty and the comparator unset. |
| Rng.OddIncrementIsOr | source/rng.cpp:13 | The increment `inc \| 1` is odd and differs from `inc` at most in the low bit. |
| Rng.Pcg32Random | source/rng.cpp:9-18 | The state becomes `old * 6364136223846793005 + (inc \| 1)` modulo 2^64. `inc` is untouched, and the result is the XSH-RR output of the old state. The same state therefore always gives the same output and the same next state. main.cpp:26-35 (`pcg32_random_r`) is the same step. |
| Rng.Rotation | source/rng.cpp:16 | The rotation `old >> 59` lies in 0..31. |
| Rng.RotateByRotatesRight | source/rng.cpp:17 | The idiom `(x >> r) \| (x << ((-r) & 31))` is a right rotation by `r` for every `r` in 0..31, including 0. |
| Rng.OutputRotatesRight | source/rng.cpp:15-17 | The output is `((old >> 18) ^ old) >> 27`, truncated to 32 bits and rotated right by the top five bits of the old state: a function of the old state alone. |
| Rng.Pcg32.Seeded | source/rng.cpp:21 | The process-wide generator starts at state 123456789 and increment 987654321. |
| Rng.Get | source/rng.cpp:24-26 | One call on the process-wide generator: the next state, and the output of the old state. main.cpp:37-40 (`random_int`) is the same call, on a generator that starts at the same seed (Rng.Pcg32.Seeded). |
| Rng.RangeDraw | source/rng.cpp:28-31 | Swaps the bounds when `l > h`. The result lies between the smaller and the larger bound and is offset from the smaller by the draw modulo the span. The full range [0, UINT_MAX], whose span wraps to 0, is excluded. |
| Rng.GetRange | source/rng.cpp:28-31 | One draw: the generator advances once, and the result is RangeDraw of that draw. It requires a span that does not wrap to 0. |
| Rng.AdvanceAdd | source/rng.cpp:9-18 | Runs of calls compose: `a` calls followed by `b` calls leave the state of `a + b` calls. |
| Rng.AdvanceStep | source/rng.cpp:13 | The state after `k + 1` calls is one LCG step from the state after `k` calls. |
| Rng.DrawsSplit | source/rng.cpp:9-18 | Replay splits. The next `a + b` outputs are the next `a` outputs followed by the `b` outputs of the generator `a` calls further on. |
| Rng.DrawsAt | source/rng.cpp:9-18 | Call number `j` returns the output of the state after `j` calls. |
| Rng.SwapPermutes | source/rng.hpp:12-14 | A swap exchanges the two entries, keeps every other entry, and is a permutation. |
| Rng.ShuffleWithPermutes | source/rng.hpp:8-16 | Whatever the draws, the shuffle loop permutes its input and leaves the entries above its starting index in place. |
| Rng.ShuffleShortIsIdentity | source/rng.hpp:10 | For n = 1 or 2 the loop never runs and nothing moves. |
| Rng.ShuffleMovesLast | source/rng.hpp:10-15 | For n ≥ 3, entry n − 1 always receives an entry from below it, since every swap partner is below `i`. |
| Rng.ShuffleRunDraws | source/rng.hpp:10-11 | The loop from index i ≥ 1 makes i − 1 draws, uses them in the order they are made, and leaves the generator that many calls further on. |
| Rng.ShuffleRunPermutes | source/rng.hpp:8-16 | From any generator state, the loop from index i ≥ 1 permutes its input, keeps the entries above i in place, and advances the generator i − 1 calls. |
| Rng.ShuffleIteration | source/rng.hpp:11-14 | One iteration is the loop invariant's step. The loop from i − 1 on the new array and state ends where the loop from i ends on the old ones, and the increment is unchanged. |
| Rng.Shuffle | source/rng.hpp:8-16 | Requires n ≥ 1, since `n - 1` wraps for n = 0. The array and the generator state afterwards are those of the shuffle loop run on the old array and state. |
| Choices.ShuffledChoice | source/generator.cpp:73-78 | A fresh choice list `{L, R, B, T}` after `RNG::Shuffle(4, …)` names each direction exactly once. The increment of the generator is untouched. |
| Choices.ChoiceNamesNoneTwice | source/generator.cpp:117-122 | A list that is a permutation of L, R, B, T has four pairwise different entries. |
| Choices.DistinctCovers | source/generator.cpp:106-114 | A list of four different directions names every direction, so a frame whose cursor reached 4 has tried all four neighbours. |
| Grids.Grid.constructor | source/maze.cpp:25-29 | The constructor yields an `h * v`-cell grid that is all PATH. source/grid.cpp:25-29 is the same code under the class name Grid. |
| Grids.Grid.Index | source/maze.cpp:10-13 | `operator()` on an in-bounds point addresses an offset below `hcells * vcells`. source/grid.cpp:10-13 is the same code. |
| Grids.Grid.IndexIsRowMajor | source/maze.cpp:12 | The offset is `y * hcells + x`, and it splits back into column `x` and row `y`. |
| Grids.Grid.IndexInjective | source/maze.cpp:12 | Distinct in-bounds points have distinct offsets. |
| Grids.Grid.Set | source/maze.cpp:10-13 | A write through `operator()` changes the addressed cell and no other. |
| Grids.Grid.Fill | source/maze.cpp:15-18 | Every cell becomes `v`. source/grid.cpp:15-18 is the same code. |
| Grids.Grid.ClearPaths | source/maze.cpp:20-23 | The cells afterwards are Cleared of the cells before. Walls stay, and everything else becomes PATH. source/grid.cpp:20-23 is the same code. |
| Grids.ClearedKeepsExactlyWalls | source/maze.cpp:20-23 | ClearPaths keeps exactly the WALL cells, and every other value becomes PATH. |
| Grids.ClearedIdempotent | source/maze.cpp:20-23 | A second ClearPaths changes nothing. |
| Lattice.EnumeratedCount | source/generator.cpp:212-228 | For odd dimensions the two enumeration loops produce exactly `nedges = hh * hv * 2 + hh + hv` edges. |
| Lattice.EnumeratedAreLatticeEdges | source/generator.cpp:222-228 | Every enumerated edge joins two in-range even cells two apart, rightward or upward. |
| Lattice.VertexOfIsRowMajor | source/generator.cpp:243-244 | A lattice cell's union-find slot is `(y / 2) * (hh + 1) + x / 2`. |
| Lattice.VertexCountIsProduct | source/generator.cpp:214 | `nverts` is `(hh + 1) * (hv + 1)`. |
| Lattice.VertexOfInRange | source/generator.cpp:243-244 | Both ends of a lattice edge have union-find slots below `nverts`. |
| Lattice.NearSlot | source/generator.cpp:243 | `v0` of a lattice edge is below `nverts`. |
| Lattice.FarSlot | source/generator.cpp:244 | `v1` of a lattice edge is below `nverts`. |
| Lattice.EnumerationPermuted | source/generator.cpp:233 | Any reordering of the enumeration, such as the one the shuffle makes, still holds only lattice edges. |
| Lattice.VertexCountAtMostCells | source/generator.cpp:214 | There are no more lattice cells than cells. |
| Lattice.RelabelMerges | source/generator.cpp:259-261 | After relabelling `from` to `to`, slots that shared a label still share one. Slots labelled `from` or `to` now share `to`, and every other slot is unchanged. |
| Lattice.RelabelDropsOneLabel | source/generator.cpp:259-261 | Merging two different sets removes exactly the label `from`, so the number of distinct labels drops by one. |
| Prims.WorkEdgeMidInRange | source/generator.cpp:305-307 | The cell a worklist edge passes over is in range and has an odd coordinate. |
| Prims.SwapRemoveDropsOne | source/generator.cpp:292-294 | Moving the last entry into the hole removes exactly the drawn entry. |
| Prims.SwapRemovePositions | source/generator.cpp:292-294 | Every entry but the last keeps its position, and the last moves into the hole. |
| Prims.FrontierIsNeighbours | source/generator.cpp:309-322 | The four addEdge calls append exactly the in-range edges from the carved cell to a cell two away. |
| Prims.FrontierAreWorkEdges | source/generator.cpp:309-322 | From a lattice cell every appended edge is a worklist edge. |
| Prims.FrontierDistinct | source/generator.cpp:319-322 | No edge is appended twice in one step. |
| Prims.PrimOverflowAsWritten | source/generator.cpp:309-322 | On a 3 by 3 maze, three picks fill the 4-slot worklist and append a fifth entry: the write at line 315 goes past the buffer. |
| Prims.PrimSlots | source/generator.cpp:279 | Corrected capacity: at least three slots per lattice cell. |
| Prims.LatticeSetBound | source/generator.cpp:279 | No set of carved lattice cells outnumbers the lattice cells, which bounds the number of carves. |
| Prims.DrawBelow | source/generator.cpp:292 | `RNG::Get() % at` is an index below `at`. |
| Prims.PickEdge | source/generator.cpp:292-294 | One draw. The worklist shrinks by one, the drawn entry is returned, and the last entry moves into its slot; the worklist stays made of worklist edges. |
| Prims.PickingNext | source/generator.cpp:296-303 | Skipping a candidate that leads to a PATH cell and drawing again keeps the loop invariant. |
| Prims.PickUncarved | source/generator.cpp:296-303 | Every skipped entry led to a PATH cell. When the worklist runs dry, all of it was skipped. Otherwise the entry found leads to a non-PATH cell, and the worklist, the skipped entries and that entry partition the old worklist. |
| Prims.AddEdge | source/generator.cpp:309-317 | Appends the edge from the carved cell by (dx, dy) exactly when its far end is in range. |
| Prims.AddFrontier | source/generator.cpp:319-322 | The four calls append the carved cell's frontier in the order +y, −y, +x, −x. |
| Prims.CarveFar | source/generator.cpp:305-307 | The far end and the middle cell become PATH; nothing else changes. |
| Prims.CarvedPathGrows | source/generator.cpp:305-307 | A carved far end that was not PATH was not yet carved, and afterwards it joins the carved cells, all PATH. |
| Prims.CarvedPathKept | source/generator.cpp:305-307 | Carving only turns cells into PATH, so cells carved earlier stay PATH. |
| Prims.PrimStep | source/generator.cpp:287-324 | With the corrected capacity the worklist invariant is kept. On an empty worklist every entry was skipped and the grid is unchanged. Otherwise exactly one new lattice cell is carved, and the worklist loses it and the skipped entries and gains its frontier. |
| Prims.PrimStart | source/generator.cpp:273-285 | An all-WALL maze but for (0, 0), and the two edges out of (0, 0); the worklist invariant holds. |
| Generators.StepKeepsParity | source/generator.cpp:108-111 | A step of two along one axis keeps the parity of both coordinates and moves exactly one of them. |
| Generators.RandomCell | source/generator.cpp:58 | A cell becomes WALL exactly when `draw & 3` is 0, and PATH otherwise. |
| Generators.OrOne | source/generator.cpp:158-159 | `r \| 1` is odd and is `r` or `r + 1`. |
| Generators.AndNotOne | source/generator.cpp:181-198 | `r & ~1` is even and is `r − 1` or `r`. |
| Generators.SetNext | source/generator.cpp:95-104 | Succeeds exactly when the cell two away is in range and not PATH, and then makes the cell between PATH. On failure nothing changes. |
| Generators.ProbeChoices | source/generator.cpp:106-114 | The cursor only advances, up to 4, and every direction it passes over could not be carved. When none can be carved the cursor ends at 4 and the grid is unchanged. Otherwise the direction carved is the last one tried, its target two cells on was carvable, and exactly the cell between became PATH. |
| Generators.DfsCarve | source/generator.cpp:93-114 | The frame's cell becomes PATH. Either every remaining direction was closed and no other cell changes, or the first carvable direction from the cursor on is taken. Its target is an in-range even cell that was not PATH, and only the frame's cell and the cell between change. |
| Generators.SubRegion | source/generator.cpp:161-170 | A sub-region is pushed exactly when both of its extents exceed 1, and is split across its longer side. |
| Generators.ChildrenOk | source/generator.cpp:172-199 | The regions on either side of an odd split line are valid regions inside the popped one, each strictly smaller. |
| Generators.DrawBetween | source/generator.cpp:158-159 | `RNG::Get(l, h)` on in-range bounds with `l <= h` lies between them. |
| Generators.WallLine | source/generator.cpp:172-174 | The cells are exactly the old ones with positions lo..hi of the line made WALL (LineWalled). |
| Generators.LineWalledCells | source/generator.cpp:186-188 | Walling positions lo..hi of a line makes each of them WALL and keeps every cell off that segment. The vertical loop at lines 172-174 is the same with the axes swapped. |
| Generators.OnePassage | source/generator.cpp:184 | `RNG::Get(l, r) & ~1` opens one even position between l rounded down to even and r, and changes no other cell. |
| Generators.Passages | source/generator.cpp:180-185 | Opens p1 and p2 and changes no other cell. With `two`, p1 lies in the lower half of the line and p2 in the upper half. Otherwise one passage is opened and p1 = p2. Both are even positions of the line. |
| Generators.DivideRegion | source/generator.cpp:158-199 | An odd line lies across the region. The new cells are exactly the old ones with that line walled from one side of the region to the other and then reopened at one passage, or at two when the region spans more than 5 cells along the line. The region starts on an even column and row, so every passage lies on the walled segment, and no cell outside the region changes. |
| Generators.DividedStaysInRegion | source/generator.cpp:172-199 | A division of a valid region opens its passages on the walled segment, and every cell outside the region keeps its value. |
| Generators.DividedCellsMeaning | source/generator.cpp:172-199 | After a division the passages are PATH, every other position of the wall is WALL, and every cell off the wall keeps its value. |
| Generators.SplitLine | source/generator.cpp:158-159 | Both split draws are made odd. The wall goes on an odd column inside the region for a vertical split, and on an odd row inside it otherwise. |
| Generators.TwoPassages | source/generator.cpp:178-180 | The divisor `(vcells − 1) / (h − y)` is positive, so the `th` draw is defined, and two passages are chosen only when the line spans more than 5 cells. Lines 192-194 are the same for a horizontal split. |
| Generators.EnumerateColumn | source/generator.cpp:223-224 | The inner loop writes the rightward edges out of column x, bottom to top. |
| Generators.EnumerateRow | source/generator.cpp:227-228 | The inner loop writes the upward edges out of row y, left to right. |
| Generators.EnumerateRightward | source/generator.cpp:222-224 | The first loop writes every rightward lattice edge, column by column. |
| Generators.EnumerateUpward | source/generator.cpp:226-228 | The second loop appends every upward lattice edge, row by row. |
| Generators.EnumerateLattice | source/generator.cpp:218-228 | For odd dimensions the fresh `nedges`-slot list holds exactly the enumeration. |
| Generators.SingletonSets | source/generator.cpp:230-231 | Every union-find slot starts in a set of its own. |
| Generators.RelabelAll | source/generator.cpp:259-261 | The loop relabels every `from` to `to` and nothing else. |
| Generators.KruskalVertsFitAsWritten | source/generator.cpp:219 | For odd dimensions the `nedges`-slot union-find buffer is large enough exactly when both dimensions are at least 3. A one-cell-wide maze needs one more slot. |
| Generators.KruskalVertsOverflowAsWritten | source/generator.cpp:219 | A 1 by 3 maze gets a one-slot buffer for two lattice cells. |
| Generators.KruskalGraph | source/generator.cpp:209-234 | Corrected. The union-find array has `nverts` slots, each in a set of its own. The edge list is a permutation of the enumeration, and all its entries are lattice edges. |
| Generators.ShuffleEdges | source/generator.cpp:233 | Shuffling keeps the list a permutation of the enumeration, all lattice edges. |
| Generators.ShuffledEnumeration | source/generator.cpp:233 | The shuffle loop run on the enumeration, whatever its draws, gives a permutation of it whose entries are all lattice edges. |
| Generators.NextUnjoined | source/generator.cpp:242-257 | The cursor only advances. Every edge skipped joined cells already in one set. When one is found, its two ends carry different labels. |
| Generators.CarveEdge | source/generator.cpp:263-265 | Both ends of the edge and the cell between them become PATH; nothing else changes. |
| Generators.MergeSets | source/generator.cpp:259-261 | The edge's ends were in different sets and now share one. Every slot of the far end's set took the near end's label, and one label is gone. |
| Generators.KruskalStep | source/generator.cpp:236-267 | Edges whose ends share a set are skipped without touching the grid or the sets. The first edge joining two sets merges them and is carved. At the end of the list nothing changes. |
| Generators.Generator.constructor | source/generator.cpp:5 | A new generator has no maze, no algorithm, no buffers and an empty stack. |
| Generators.Generator.Reset | source/generator.cpp:34-44 | Forgets the maze, releases each live buffer exactly once (a second reset releases nothing), zeroes the graph record and clears the stack. |
| Generators.Generator.Init | source/generator.cpp:8-22 | Resets first, releasing whatever was live. Then it runs the selected initialisation, after which the algorithm's invariant holds. |
| Generators.Generator.Step | source/generator.cpp:24-32 | While the step returns true the algorithm's invariant holds and no buffer is released. Once it returns false the generator has reset, and the buffers are released exactly once. |
| Generators.Generator.StepSelected | source/generator.cpp:26 | The step of the selected algorithm keeps ownership sound and, while it returns true, the algorithm's invariant. |
| Generators.Generator.StepRandom | source/generator.cpp:54-63 | Every cell gets WALL or PATH from its own draw, one draw per cell in order. The first and last cells are PATH, and the step reports done at once. |
| Generators.Generator.InitRandomizedDFS | source/generator.cpp:69-80 | An all-WALL maze and one frame at (0, 0), cursor 0, whose choice list is a permutation of the four directions. |
| Generators.Generator.StepRandomizedDFS | source/generator.cpp:82-129 | Returns false exactly on an empty stack, changing nothing. Otherwise the top cell becomes PATH, and one of two things happens. Either every remaining direction was closed, the frame is popped and no other cell changes. Or the first carvable direction from the cursor is taken: every direction passed over was closed, the cursor advances past the carved one, and a frame is pushed on an in-range cell two cells on that was not PATH, with cursor 0 and a choice list naming four different directions. Only the cell between also changes. Every frame on the stack keeps a list of four different directions. |
| Generators.Generator.DfsUpdateStack | source/generator.cpp:113-126 | The advanced cursor is written back into the top frame. Then a fresh frame is pushed for the target, or the top frame is popped. The pushed frame has cursor 0 and a choice list that is a permutation of the four directions. Every frame keeps a list of four different directions. |
| Generators.Generator.InitRecursiveDivision | source/generator.cpp:135-144 | An all-PATH maze and one frame covering it all, split vertically when the first draw is odd. |
| Generators.Generator.StepRecursiveDivision | source/generator.cpp:146-203 | Returns false exactly on an empty stack, changing nothing. Otherwise it pops a valid region, walls an odd line across it from side to side, and reopens the wall at one passage, or two when the region spans more than 5 cells. The passages lie on the wall, and no other cell changes, in particular none outside the region. It pushes exactly the sub-regions on either side of the line, which are valid and strictly smaller. |
| Generators.Generator.DivideTop | source/generator.cpp:151-199 | The body of a division step on a non-empty stack. It gives the exact new cells and stack, as StepRecursiveDivision states them, and keeps every cell outside the popped region. |
| Generators.Generator.PushChildren | source/generator.cpp:176-191 | The two `next` calls push exactly the sub-regions on either side of the line, and the stack stays valid. |
| Generators.Generator.PushRegion | source/generator.cpp:161-170 | The `next` lambda pushes the region exactly when both extents exceed 1. |
| Generators.Generator.InitRandomizedKruskal | source/generator.cpp:209-234 | Corrected. It gives an all-WALL maze, `nedges` and `nverts` as the code computes them, the edge list as a permutation of the enumeration, and every lattice cell in its own set. |
| Generators.Generator.StepRandomizedKruskal | source/generator.cpp:236-267 | The edges skipped joined cells already in one set. Once the list is used up the step returns false and nothing changes. Otherwise two sets are merged and the edge is carved. |
| Generators.Generator.InitRandomizedPrim | source/generator.cpp:273-285 | Corrected capacity. It gives an all-WALL maze but for (0, 0), and the two edges out of (0, 0) with the cursor at 2. |
| Generators.Generator.StepRandomizedPrim | source/generator.cpp:287-324 | Every entry skipped led to a PATH cell. On an empty worklist it returns false with the grid unchanged. Otherwise it carves one new lattice cell that was not PATH and replaces the consumed entries with that cell's frontier. |
| Solvers.ClearedIsUnpainted | source/maze.cpp:20-23 | After ClearPaths, which the host runs before every solver init, only WALL and PATH remain. |
| Solvers.ColoursAreDiscovered | source/solver.cpp:7-9 | ACTIVE, DEAD and FOUND are pairwise distinct and differ from PATH and WALL. |
| Solvers.Unwound | source/solver.cpp:31-33 | Popping a done frame removes exactly the top frame, and it flags the new top found and leaves every other frame as it was. |
| Solvers.DfsUnwindKeeps | source/solver.cpp:29-35 | Painting the done top FOUND, popping it and flagging the frame below keeps the depth-first invariant. |
| Solvers.DfsAdvanceKeeps | source/solver.cpp:60-68 | Pushing a frame on a PATH neighbour of the top, now ACTIVE, keeps the invariant: distinct cells, consecutive frames adjacent, all ACTIVE. |
| Solvers.DfsPopKeeps | source/solver.cpp:69-72 | Repainting the top frame's cell and popping the frame keeps the invariant, whatever the colour. The backtrack paints DEAD, and the unwind paints FOUND. |
| Solvers.InitDFS | source/solver.cpp:11-21 | Pushes one frame on (0, 0), cursor 0, with a permutation of the four directions, and paints (0, 0) ACTIVE. On an empty stack the invariant holds. |
| Solvers.ScanChoices | source/solver.cpp:50-58 | The cursor passes the closed choices and the first open one. If none opens, it stops at 4 with every remaining choice closed. |
| Solvers.UnwindDFS | source/solver.cpp:29-35 | The done top is painted FOUND and popped, and the frame below, if any, is flagged found. |
| Solvers.PushDFS | source/solver.cpp:60-68 | The open neighbour is painted ACTIVE, and a frame on it is pushed above the top frame, which keeps its advanced cursor. |
| Solvers.BacktrackDFS | source/solver.cpp:69-72 | With every remaining choice closed, the cell is painted DEAD and its frame popped. |
| Solvers.AdvanceDFS | source/solver.cpp:37-72 | The step either pushes an ACTIVE neighbour that was PATH or backtracks, keeping the invariant. |
| Solvers.StepDFS | source/solver.cpp:23-73 | Requires a non-empty stack. A done frame, flagged or at the goal, is unwound. Any other frame advances onto a PATH neighbour or backtracks, painting its cell DEAD. The invariant is kept. |
| Solvers.TraceUndoesEnqueue | source/solver.cpp:100-139 | A trace move on the code the enqueue call with that code records leads back to the cell the neighbour was reached from, and no other code does. |
| Solvers.TraceStaysOnOtherCodes | source/solver.cpp:100-105 | A code outside 0..3 matches no case of the trace switch, so the cursor stays put. |
| Solvers.EndSearch | source/solver.cpp:92-96 | The frame that owns the vertex array is popped, and the queue is emptied with its comparator unset. |
| Solvers.TraceStep | source/solver.cpp:99-108 | The cursor moves along its direction, loads the direction recorded at the new cell, and paints that cell FOUND. |
| Solvers.MarkGoal | source/solver.cpp:113-119 | The frame is flagged found, its cursor is set on the goal with the given direction, and the goal is painted FOUND. |
| Solvers.BfsVisitKeeps | source/solver.cpp:122-133 | Visiting a neighbour keeps the start discovered, every parent code leading to a discovered cell, and the queue a duplicate-free list of ACTIVE cells. |
| Solvers.DequeuedDeadKeeps | source/solver.cpp:135 | The dequeued cell was ACTIVE, and painting it DEAD keeps the rest of the queue well formed. |
| Solvers.BfsExpandKeeps | source/solver.cpp:135-139 | Expanding a dequeued cell keeps the invariant of the search phase. |
| Solvers.InitBFS | source/solver.cpp:75-87 | Pushes a frame owning a fresh all-undiscovered vertex array, paints the start ACTIVE and queues it. On an empty queue and a cleared grid the invariant holds. |
| Solvers.VisitBFS | source/solver.cpp:122-133 | Only a PATH neighbour on the grid is touched: it records its code, turns ACTIVE and joins the rear of the queue. |
| Solvers.ExpandBFS | source/solver.cpp:135-139 | The cell is painted DEAD and its neighbours are visited left, right, lower, upper. |
| Solvers.TraceLands | source/solver.cpp:99-106 | While tracing, a move from any cell but the start stays on the grid and lands on a discovered cell. |
| Solvers.TraceBFS | source/solver.cpp:99-108 | One trace step, keeping the invariant. |
| Solvers.GoalBFS | source/solver.cpp:113-119 | Marks the goal, keeping the invariant for a direction that is the recorded one or a code that does not move. |
| Solvers.ExpandStepBFS | source/solver.cpp:111-139 | After dequeuing a cell other than the goal, it expands that cell and keeps the invariant. |
| Solvers.StepBFS | source/solver.cpp:89-140 | As written. A run that ends pops the frame, clears the queue and leaves the grid alone. A found frame takes one trace step. Otherwise the front cell is dequeued: the goal is marked with direction `cell + 0x50`, and any other cell is expanded. The invariant is kept. |
| Solvers.StepBFSFixed | source/solver.cpp:89-140 | Corrected. The same step, except that the goal takes the direction recorded in its Vertex, as Dijkstra and A* do. |
| Solvers.BfsFirstTraceStepStays | source/solver.cpp:117 | As written, the trace step after the goal step leaves the cursor on the goal and only repaints it. |
| Solvers.BfsFixedTraceStepMoves | source/solver.cpp:99-106 | With the recorded direction, the trace step after the goal step moves to the neighbour the goal was reached from, a discovered cell. |
| Solvers.Heuristic | source/solver.cpp:286 | The Manhattan distance to the goal is 0 exactly at the goal. |
| Solvers.HeuristicConsistent | source/solver.cpp:226 | The start's stored heuristic `hcells + vcells − 2` is its distance to the goal, and one move changes the heuristic by exactly one. |
| Solvers.ChosenIsFirstMinimum | source/solver.cpp:180 | PriorityDequeue takes an item of least key (cost, or cost plus heuristic), and every item ahead of it has a strictly larger key. |
| Solvers.RelaxFacts | source/solver.cpp:192-212 | An improving relaxation gives the neighbour cost parent + 1 and the enqueue code. The trace move on that code leads back to the dequeued cell, and no other vertex or cell changes. |
| Solvers.RelaxKeepsLinks | source/solver.cpp:192-212 | The start keeps cost 0, costs stay ≥ −1, and every reached vertex stays painted. |
| Solvers.RelaxKeepsParents | source/solver.cpp:192-212 | Every reached vertex but the start still records a parent of strictly smaller cost. |
| Solvers.RelaxKeepsHeuristics | source/solver.cpp:276-297 | A* stores the Manhattan distance at every relaxed vertex. |
| Solvers.RelaxKeepsQueue | source/solver.cpp:203-211 | A vertex is queued only when not already flagged. The queue stays duplicate-free and ACTIVE. |
| Solvers.RelaxKeeps | source/solver.cpp:192-212 | One relaxation keeps the search-phase invariant and leaves the dequeued vertex alone. |
| Solvers.TakenKeeps | source/solver.cpp:180-181 | Taking the chosen item and clearing its flag leaves a well-formed state, the item naming its own reached cell. |
| Solvers.WeightedExpandKeeps | source/solver.cpp:214-218 | Expanding the taken cell keeps the search-phase invariant. |
| Solvers.WeightedTraceDescends | source/solver.cpp:168-178 | Every trace move from a cell other than the start lands on a reached vertex of strictly smaller cost, so the trace reaches the start. |
| Solvers.StartWeighted | source/solver.cpp:142-156 | Only the start reached, at cost 0, and queued alone: the weighted invariant holds. |
| Solvers.InitDijkstra | source/solver.cpp:142-156 | A fresh vertex array whose start costs 0 and whose queue flag stays clear. The start is queued and painted ACTIVE, and the queue is ordered by cost. On an empty queue the invariant holds. |
| Solvers.InitAStar | source/solver.cpp:221-237 | As InitDijkstra, but the start also stores heuristic `hcells + vcells − 2` and its queue flag, and the queue is ordered by cost plus heuristic. |
| Solvers.RelaxVertex | source/solver.cpp:192-212 | The enqueue lambda: a non-WALL neighbour on the grid that is unreached, or reached at a larger cost, takes the new cost and code and is queued if not already queued. |
| Solvers.ExpandWeighted | source/solver.cpp:214-218 | The cell is painted DEAD and its neighbours relaxed left, right, lower, upper. |
| Solvers.TakeWeighted | source/solver.cpp:264-265 | Corrected. Takes the first least-key item, removes exactly that item, and clears its queue flag. The resulting state keeps the search well formed. |
| Solvers.TakeWeightedAsWritten | source/solver.cpp:264-265 | As written. Takes the same item, but the queue is left as the unlink of source/queue.hpp:38-47 leaves it. |
| Solvers.TakenAsWrittenAgrees | source/queue.hpp:38-47 | When the minimum is the front or the only item, or comes right after the previous running minimum, the as-written take equals the corrected one. |
| Solvers.TraceWeighted | source/solver.cpp:168-178 | One trace step, keeping the invariant. |
| Solvers.GoalWeighted | source/solver.cpp:183-190 | The frame is flagged found on the goal with the direction recorded in its Vertex, and the goal is painted FOUND. |
| Solvers.ExpandStepWeighted | source/solver.cpp:192-218 | Expanding the taken cell keeps the invariant. |
| Solvers.StepDijkstra | source/solver.cpp:158-219 | Requires a non-empty stack. A run that ends pops the frame and clears the queue. A found frame takes one trace step. Otherwise the least-cost item is taken: the goal is marked, and any other cell is expanded. The invariant is kept. |
| Solvers.StepAStar | source/solver.cpp:242-304 | StepDijkstra with the queue ordered by cost plus heuristic and the heuristic stored at every relaxed vertex. |
| Solvers.SearchFollowsStep | source/solver.cpp:264-303 | A weighted step that neither starts nor ends the trace is one dequeue of the corrected search, so the search describes runs of StepDijkstra and StepAStar. |
| AStarWitness.Start | source/solver.cpp:221-237 | What InitAStar leaves on the 6 by 3 maze: the start ACTIVE with cost 0, heuristic 7 and its queue flag set, every other vertex unreached, and the start alone queued. |
| AStarWitness.AStarMissesGoalAsWritten | source/solver.cpp:264 | With PriorityDequeue as written, the A* search on the 6 by 3 maze with walls at (1, 0), (4, 1) and (4, 2) never dequeues the goal, however many dequeues it runs. After 10 dequeues its queue is empty. |
| AStarWitness.AStarFindsGoalFixed | source/solver.cpp:242-304 | With the corrected removal the same search dequeues the goal within 15 dequeues. |
| LegacyGrids.GridT.constructor | grid.cpp:5-17 | Stores the cell size, counts and border. The boundary sits at the origin with `w = hcells * cw + 2 * border` (and likewise `h`), and every cell is zero, that is WALL. |
| LegacyGrids.CDivTruncates | grid.cpp:24-25 | The C quotient leaves a remainder smaller than the divisor in magnitude, with the sign of the dividend. Dafny's `/` differs for negative operands. |
| LegacyGrids.CDivExact | grid.cpp:49-50 | Dividing an exact multiple returns the factor, whatever the signs. |
| LegacyGrids.GridT.Center | grid.cpp:23-26 | The boundary is placed at `(w − boundary.w) / 2` and `(h − boundary.h) / 2` with C truncation; nothing else changes. |
| LegacyGrids.CenterSplitsMargins | grid.cpp:24-25 | With C division the odd pixel of the surplus goes to the right or bottom margin. An oversized grid overhangs by at most one pixel more on that side. |
| LegacyGrids.GridT.Index | generator.cpp:21-23 | The cell lambdas address `y * hcells + x`, an offset below `hcells * vcells`. |
| LegacyGrids.GridT.IndexInjective | generator.cpp:21-23 | Distinct cells have distinct offsets. |
| LegacyGrids.GridT.ScreenRoundTrip | grid.cpp:48-57 | With non-zero cell sizes, `screen_to_grid` applied to the point `grid_to_screen` gives recovers the cell. `grid_to_screen` reports exactly the cells on the grid. |
| LegacyGrids.GridT.ScreenToGridInBounds | grid.cpp:48-53 | A point `screen_to_grid` accepts falls in a cell on the grid, given the constructor's boundary and positive cell sizes. |
| LegacyGrids.GridT.ScreenToGridRejectsFirstPixel | grid.cpp:51-52 | The comparisons are strict. The top-left pixel of cell (0, 0) maps to (0, 0) but is reported as outside the grid. |
| LegacyGenerators.ShuffleInts | main.cpp:42-49 | main.cpp's `shuffle` is a permutation. For n ≥ 3 it is the shuffle loop from n − 1, each swap partner below `i`. For any n ≤ 2, zero and negative included, the array and the generator are unchanged. |
| LegacyGenerators.RandomizedDfs | main.cpp:97-158 | One call leaves exactly the cells and frames GenStep gives for some permutation of the four directions, and the frames stay on even in-range cells. generator.cpp:9-68 (`randomized_dfs`) is the same step. |
| LegacyGenerators.ExploreStep | main.cpp:128-157 | The switch and the pushes, equal to Explore of the popped frame. |
| LegacyGenerators.GenStepRestarts | main.cpp:99-104 | On an empty stack the grid is refilled with WALL and the search restarts at (0, 0). That frame ends up at the bottom with cursor 1; (0, 0) is PATH, and every cell more than two steps away is WALL. |
| LegacyGenerators.GenStepKeepsFrames | main.cpp:115-157 | Every call keeps all frames on even in-range cells with cursors in 0..4 and four choices. |
| LegacyGenerators.GenStepOnlyCarves | main.cpp:123-153 | On a non-empty stack a call only turns cells into PATH; a PATH cell stays PATH. |
| LegacyGenerators.GenStepCarvesIntoWall | main.cpp:128-157 | A new frame is pushed only by carving. It sits two cells from the re-pushed frame, whose cursor advanced, on a cell that was WALL, and the cell between is now PATH. |
| LegacyGenerators.ExploreCarves | generator.cpp:38-67 | The switch pushes a second frame only when it carves into a WALL cell two away in range, above the frame re-pushed with its cursor advanced. |
| LegacyGenerators.CarveInRange | generator.cpp:40-58 | Each case's guard (`x != 0` for L, `x <= hcells − 3` for R, likewise for B and T) keeps the target and the cell between on the grid, with even coordinates. |
| LegacySolvers.OpenIsOnGrid | solver.cpp:15-20 | Thanks to the WALL sentinel, any cell the search may enter is on the grid and is neither WALL nor VISITED there. |
| LegacySolvers.Write | solver.cpp:15-20 | A write on the grid is read back by the `cell` lambda. Every other cell is untouched, and a write off the grid lands in the sentinel and changes no cell. |
| LegacySolvers.WriteCell | solver.cpp:16-20 | Writing through the `cell` lambda is Write of the old cells. |
| LegacySolvers.SolveStepFirstCall | solver.cpp:8-10 | On an empty stack the search starts at (0, 0). With more than one cell, the first call marks (0, 0) VISITED and pushes only the advanced start frame, since L reads the sentinel. |
| LegacySolvers.SolveStepUnwinds | solver.cpp:22-30 | A finished frame, or one at the far corner, is marked CORRECT. Its parent is flagged finished in place, and the stack shrinks by exactly one. |
| LegacySolvers.SolveStepKeepsFrames | solver.cpp:32-74 | Every call keeps all frames on the grid with cursors in 0..4. |
| LegacySolvers.SolveStepWritesOwnCell | solver.cpp:22-40 | The frame a call works on stands on the grid, and the call changes no cell but that frame's. |
| LegacySolvers.SolveStepMoves | solver.cpp:45-74 | A push moves one cell in the current direction of the fixed order L, R, B, T, with no shuffle, onto a cell that was neither WALL nor VISITED. It keeps the advanced frame under the new one. |
| LegacySolvers.Dfs | solver.cpp:7-75 | One call of `solver::dfs` leaves exactly the cells and frames SolveStep gives, and the frames stay on the grid. |

## Findings

| source | as written | input that shows it | evidently intended | confidence | as-written member | corrected member |
|---|---|---|---|---|---|---|
| source/queue.hpp:43-46 | PriorityDequeue unlinks the minimum after `p`, the previous running minimum, not its list predecessor | priorities [5, 3, 9, 1] under `<`: returns 1 and leaves [5, 3], losing 9 | remove exactly the minimum, keeping every other item | not executed | Queues.PriorityDequeueLosesNine | Queues.Queue.PriorityDequeueFixed |
| source/generator.cpp:279 | Prim's worklist gets `nedges` slots, the undirected edge count, but each carve appends every in-range directed edge | a 3 by 3 maze picking (0,0)→(2,0), (2,0)→(2,2), (2,2)→(0,2) writes a fifth entry into 4 slots | a capacity that bounds the appends | not executed | Prims.PrimOverflowAsWritten | Prims.PrimStep |
| source/generator.cpp:219 | Kruskal's union-find array is allocated with `nedges` slots but initialised and indexed up to `nverts` | a 1 by 3 maze: one slot, two lattice cells | `nverts` slots | not executed | Generators.KruskalVertsOverflowAsWritten | Generators.KruskalGraph |
| source/solver.cpp:264 | StepAStar takes items with PriorityDequeue, whose unlink drops every item between the previous running minimum and a minimum at the rear | a 6 by 3 maze with walls at (1, 0), (4, 1) and (4, 2): on the ninth dequeue the queued estimates are [9, 9, 7], cell (3, 0) is dropped, and the search ends without reaching the goal | remove only the minimum, so that A* reaches every reachable goal | not executed | AStarWitness.AStarMissesGoalAsWritten | AStarWitness.AStarFindsGoalFixed |
| source/solver.cpp:117 | BFS sets the trace direction at the goal from the goal cell's value plus 0x50 | any maze where the goal is reached, e.g. a 2 by 1 grid of PATH: the first trace step stays on the goal | the direction recorded in the goal's Vertex, as source/solver.cpp:187 and 271 do | not executed | Solvers.BfsFirstTraceStepStays | Solvers.BfsFixedTraceStepMoves |

## Left out

- Rendering, the SDL/ImGui host loop and timing of source/main.cpp, main.c and the application and renderer files are not modelled. The host's "step while the stack is non-empty" contract is a precondition of each solver step.
- `new`/`delete` and list nodes are not modelled. Linked lists are sequences. The generator's buffer release is a ghost log, `freed`, which states "released exactly once" as a property of the state. The solvers' release of their vertex arrays (`delete[] vertices` when a run ends) is not modelled: Solvers.EndSearch only pops the frame and clears the queue.
- Choices.ShuffledChoice: states only that the list is a permutation of the four directions, not which one the draws produce. The exact order is stated for `Rng.Shuffle` itself; the frame invariants carry only the permutation.
- Generators.Generator.InitRandomizedKruskal: requires odd dimensions and at least one lattice edge. For even dimensions the enumeration leaves slots of the edge list unwritten, and the later reads of those slots are undefined in C++. A 1 by 1 maze would pass 0 to `RNG::Shuffle`, whose `n - 1` wraps. The union-find array is allocated at the corrected `nverts` size, as recorded under Findings.
- Grids.Grid.constructor: requires `h * v <= UINT_MAX`. The unsigned product `hcells * vcells` of source/maze.cpp:27 wraps beyond that, and the short allocation that follows is not modelled.
- Generators.Generator.Init: requires the maze to fit the selected algorithm. Random needs one cell. DFS needs one cell each way. Division needs two cells each way. Kruskal needs odd dimensions with a lattice edge. Prim needs three cells each way, so that its two starting edges lie on the maze. Runs on smaller mazes read or write outside the cell array or a buffer in C++ and are not modelled.
- Generators.Generator.InitRandomizedPrim: allocates the worklist at the corrected capacity, as recorded under Findings. The set of carved lattice cells that the capacity argument uses is ghost state.
- Generators.Generator.StepRecursiveDivision: pushes the two sub-regions after the passage draws rather than between the wall and the `th` draw. The stack and the grid are independent, so only the moment of the pushes differs.
- Generators.Generator.StepRandomizedDFS: promises nothing about the order in which choices are tried beyond the cursor order.
- The `State` union of source/generator.hpp is split into one frame family per algorithm: depth-first, division and search frames. Each algorithm reads only its own member of the union.
- The `Vertex` declaration is not part of this model. A vertex nobody has written is taken to have cost −1, heuristic 0, direction 0 and a clear queue flag.
- The null vertex pointer of a breadth-first queue item is modelled as index −1.
- Solvers.TakeWeighted: removes with PriorityDequeueFixed, the corrected removal, as recorded under Findings. StepDijkstra and StepAStar dequeue through it. The source's removal is TakeWeightedAsWritten, and Search runs it dequeue by dequeue, but no step method uses it.
- Solvers.StepDijkstra: uses the corrected removal. The source's removal agrees whenever the minimum is the front or follows the previous running minimum (TakenAsWrittenAgrees). That Dijkstra's queue stays ordered by cost, so that the two agree on every run, is not proved.
- Solvers.StepAStar: uses the corrected removal. The source's A* loses queued cells and can end without a path to a reachable goal; AStarWitness.AStarMissesGoalAsWritten shows one maze where it does.
- The `int` overflow of costs and heuristics is not modelled. The queue can hold at most one item per cell, so a cost never exceeds the cell count.
- Solvers.StepBFS: its goal direction is the cell value plus 0x50 modulo 2^32, the unsigned sum of source/solver.cpp:117 (`Solvers.GoalDirAsWritten`). For every solver colour that sum lies outside 0..3.
- source/solver.hpp's `Solver` class is not part of this model: GreedyBestFirst, float costs and function-pointer heuristics.
- state.hpp, the top-level stack.hpp and the top-level rng.hpp are not part of this model. The fields of the earlier revision's `state_t` are taken from their use.
- `rng::shuffle`, which the earlier revision's generator.cpp calls, is modelled like `RNG::Shuffle`: a permutation of the four directions.
- LegacyGenerators.RandomizedDfs: the choice order a fresh frame receives is a ghost result, stated to be a permutation and otherwise free.
- LegacyGrids.GridT.Center: the `int` overflow of the pixel arithmetic is not modelled.
- LegacyGrids.GridT.ScreenToGrid: the `int` overflow of the pixel arithmetic is not modelled.
- LegacyGrids.GridT.GridToScreen: the `int` overflow of the pixel arithmetic is not modelled.
- Statistical quality and modulo bias of the generator are not modelled. Only determinism and ranges are stated.

/** A run of the A* solver of source/solver.cpp on a 6 by 3 maze whose only walls are the
    cells (1, 0), (4, 1) and (4, 2). With PriorityDequeue's unlink as written in
    source/queue.hpp, the ninth dequeue takes the last of three queued items whose estimates
    are [9, 9, 7] and drops the middle one, cell (3, 0), the only way on to the goal; the
    queue then runs dry and the search ends without a path. With the corrected unlink the
    same search dequeues the goal. Cells and vertices are listed row by row; U is an
    undiscovered vertex. Each dequeue is taken apart into the take, the DEAD paint and the
    four enqueue calls, each a snapshot written as the writes it makes.

    How the names read:
    - Snapshots: `Start` is the state before the first dequeue, and `Written<k>` the state
      after k dequeues. The two removals agree up to `Written8`, so the corrected run shares
      those snapshots and continues with `Fixed9` .. `Fixed15`.
    - Dequeues: `WrittenStep<k>` and `FixedStep<k>` take snapshot k to snapshot k + 1, that
      is dequeue number k + 1 (`WrittenStep0` and `FixedStep0` start from `Start`).
      `WrittenStep8`, from `Written8` to `Written9`, is the ninth dequeue, the one that drops
      cell (3, 0). `WrittenStep9` empties the queue, and `FixedStep14` dequeues the goal.
    - Stages of one dequeue from snapshot P: `<P>Taken` is the snapshot after the take and
      `<P>TakenIs` proves it. `<P>Dead` paints the taken cell. `<P>Relax0` .. `<P>Relax3`
      handle the neighbours left, right, lower and upper, with `<P>Enqueue<j>` the snapshot when
      neighbour j is queued. `<P>Expanded` and `<P>Expand` put the four together.
    - `<P>Misses` and `<P>Finds` carry the final claims back from the last snapshot to
      `Start`. */
module AStarWitness {
  import opened Base
  import opened Grids
  import opened Solvers

  const U: Vertex := Undiscovered

  /** The maze: PATH everywhere but the three walls. */
  function Maze(): (s: seq<u32>)
    ensures |s| == 18
  {
    [PATH, WALL, PATH, PATH, PATH, PATH,
     PATH, PATH, PATH, PATH, WALL, PATH,
     PATH, PATH, PATH, PATH, WALL, PATH]
  }

  /** What InitAStar leaves on the maze: the start painted ACTIVE with cost 0, heuristic 7 and
      its queue flag, every other vertex undiscovered, and the start queued. */
  function Start(): (t: Snapshot)
    ensures t.s == Maze()[0 := ACTIVE] && |t.vs| == 18 && t.q == [Qitem(0, 0, 0)]
    ensures t.vs[0] == U.(cost := 0, heuristic := 7, inQueue := true)
    ensures forall k :: 1 <= k < 18 ==> t.vs[k] == U
  {
    Snapshot([ACTIVE, WALL, PATH, PATH, PATH, PATH,
              PATH, PATH, PATH, PATH, WALL, PATH,
              PATH, PATH, PATH, PATH, WALL, PATH],
             [Vertex(0, 7, 0, true), U, U, U, U, U,
              U, U, U, U, U, U,
              U, U, U, U, U, U],
             [Qitem(0, 0, 0)])
  }

  /** On this maze `operator()` addresses `y * 6 + x`. */
  lemma At(g: Grid, x: int, y: int)
    requires g.hcells == 6 && g.vcells == 3 && 0 <= x < 6 && 0 <= y < 3
    ensures g.PointInBounds(x, y) && g.Index(x, y) == y * 6 + x
  {
    g.IndexIsRowMajor(x, y);
  }

  /** After 1 dequeue with either unlink. */
  function Written1(): Snapshot
  {
    Snapshot([DEAD, WALL, PATH, PATH, PATH, PATH,
              ACTIVE, PATH, PATH, PATH, WALL, PATH,
              PATH, PATH, PATH, PATH, WALL, PATH],
             [Vertex(0, 7, 0, false), U, U, U, U, U,
              Vertex(1, 6, 3, true), U, U, U, U, U,
              U, U, U, U, U, U],
             [Qitem(0, 1, 6)])
  }

  /** After 2 dequeues with either unlink. */
  function Written2(): Snapshot
  {
    Snapshot([DEAD, WALL, PATH, PATH, PATH, PATH,
              DEAD, ACTIVE, PATH, PATH, WALL, PATH,
              ACTIVE, PATH, PATH, PATH, WALL, PATH],
             [Vertex(0, 7, 0, false), U, U, U, U, U,
              Vertex(1, 6, 3, false), Vertex(2, 5, 1, true), U, U, U, U,
              Vertex(2, 5, 3, true), U, U, U, U, U],
             [Qitem(1, 1, 7), Qitem(0, 2, 12)])
  }

  /** After 3 dequeues with either unlink. */
  function Written3(): Snapshot
  {
    Snapshot([DEAD, WALL, PATH, PATH, PATH, PATH,
              DEAD, DEAD, ACTIVE, PATH, WALL, PATH,
              ACTIVE, ACTIVE, PATH, PATH, WALL, PATH],
             [Vertex(0, 7, 0, false), U, U, U, U, U,
              Vertex(1, 6, 3, false), Vertex(2, 5, 1, false), Vertex(3, 4, 1, true), U, U, U,
              Vertex(2, 5, 3, true), Vertex(3, 4, 3, true), U, U, U, U],
             [Qitem(0, 2, 12), Qitem(2, 1, 8), Qitem(1, 2, 13)])
  }

  /** After 4 dequeues with either unlink. */
  function Written4(): Snapshot
  {
    Snapshot([DEAD, WALL, PATH, PATH, PATH, PATH,
              DEAD, DEAD, ACTIVE, PATH, WALL, PATH,
              DEAD, ACTIVE, PATH, PATH, WALL, PATH],
             [Vertex(0, 7, 0, false), U, U, U, U, U,
              Vertex(1, 6, 3, false), Vertex(2, 5, 1, false), Vertex(3, 4, 1, true), U, U, U,
              Vertex(2, 5, 3, false), Vertex(3, 4, 3, true), U, U, U, U],
             [Qitem(2, 1, 8), Qitem(1, 2, 13)])
  }

  /** After 5 dequeues with either unlink. */
  function Written5(): Snapshot
  {
    Snapshot([DEAD, WALL, ACTIVE, PATH, PATH, PATH,
              DEAD, DEAD, DEAD, ACTIVE, WALL, PATH,
              DEAD, ACTIVE, ACTIVE, PATH, WALL, PATH],
             [Vertex(0, 7, 0, false), U, Vertex(4, 5, 2, true), U, U, U,
              Vertex(1, 6, 3, false), Vertex(2, 5, 1, false), Vertex(3, 4, 1, false), Vertex(4, 3, 1, true), U, U,
              Vertex(2, 5, 3, false), Vertex(3, 4, 3, true), Vertex(4, 3, 3, true), U, U, U],
             [Qitem(1, 2, 13), Qitem(3, 1, 9), Qitem(2, 0, 2), Qitem(2, 2, 14)])
  }

  /** After 6 dequeues with either unlink. */
  function Written6(): Snapshot
  {
    Snapshot([DEAD, WALL, ACTIVE, PATH, PATH, PATH,
              DEAD, DEAD, DEAD, ACTIVE, WALL, PATH,
              DEAD, DEAD, ACTIVE, PATH, WALL, PATH],
             [Vertex(0, 7, 0, false), U, Vertex(4, 5, 2, true), U, U, U,
              Vertex(1, 6, 3, false), Vertex(2, 5, 1, false), Vertex(3, 4, 1, false), Vertex(4, 3, 1, true), U, U,
              Vertex(2, 5, 3, false), Vertex(3, 4, 3, false), Vertex(4, 3, 3, true), U, U, U],
             [Qitem(3, 1, 9), Qitem(2, 0, 2), Qitem(2, 2, 14)])
  }

  /** After 7 dequeues with either unlink. */
  function Written7(): Snapshot
  {
    Snapshot([DEAD, WALL, ACTIVE, ACTIVE, PATH, PATH,
              DEAD, DEAD, DEAD, DEAD, WALL, PATH,
              DEAD, DEAD, ACTIVE, ACTIVE, WALL, PATH],
             [Vertex(0, 7, 0, false), U, Vertex(4, 5, 2, true), Vertex(5, 4, 2, true), U, U,
              Vertex(1, 6, 3, false), Vertex(2, 5, 1, false), Vertex(3, 4, 1, false), Vertex(4, 3, 1, false), U, U,
              Vertex(2, 5, 3, false), Vertex(3, 4, 3, false), Vertex(4, 3, 3, true), Vertex(5, 2, 3, true), U, U],
             [Qitem(2, 0, 2), Qitem(2, 2, 14), Qitem(3, 0, 3), Qitem(3, 2, 15)])
  }

  /** After 8 dequeues with either unlink. */
  function Written8(): Snapshot
  {
    Snapshot([DEAD, WALL, ACTIVE, ACTIVE, PATH, PATH,
              DEAD, DEAD, DEAD, DEAD, WALL, PATH,
              DEAD, DEAD, DEAD, ACTIVE, WALL, PATH],
             [Vertex(0, 7, 0, false), U, Vertex(4, 5, 2, true), Vertex(5, 4, 2, true), U, U,
              Vertex(1, 6, 3, false), Vertex(2, 5, 1, false), Vertex(3, 4, 1, false), Vertex(4, 3, 1, false), U, U,
              Vertex(2, 5, 3, false), Vertex(3, 4, 3, false), Vertex(4, 3, 3, false), Vertex(5, 2, 3, true), U, U],
             [Qitem(2, 0, 2), Qitem(3, 0, 3), Qitem(3, 2, 15)])
  }

  /** After 9 dequeues with the unlink as written. */
  function Written9(): Snapshot
  {
    Snapshot([DEAD, WALL, ACTIVE, ACTIVE, PATH, PATH,
              DEAD, DEAD, DEAD, DEAD, WALL, PATH,
              DEAD, DEAD, DEAD, DEAD, WALL, PATH],
             [Vertex(0, 7, 0, false), U, Vertex(4, 5, 2, true), Vertex(5, 4, 2, true), U, U,
              Vertex(1, 6, 3, false), Vertex(2, 5, 1, false), Vertex(3, 4, 1, false), Vertex(4, 3, 1, false), U, U,
              Vertex(2, 5, 3, false), Vertex(3, 4, 3, false), Vertex(4, 3, 3, false), Vertex(5, 2, 3, false), U, U],
             [Qitem(2, 0, 2)])
  }

  /** After 10 dequeues with the unlink as written. */
  function Written10(): Snapshot
  {
    Snapshot([DEAD, WALL, DEAD, ACTIVE, PATH, PATH,
              DEAD, DEAD, DEAD, DEAD, WALL, PATH,
              DEAD, DEAD, DEAD, DEAD, WALL, PATH],
             [Vertex(0, 7, 0, false), U, Vertex(4, 5, 2, false), Vertex(5, 4, 2, true), U, U,
              Vertex(1, 6, 3, false), Vertex(2, 5, 1, false), Vertex(3, 4, 1, false), Vertex(4, 3, 1, false), U, U,
              Vertex(2, 5, 3, false), Vertex(3, 4, 3, false), Vertex(4, 3, 3, false), Vertex(5, 2, 3, false), U, U],
             [])
  }

  /** After 9 dequeues with the corrected unlink. */
  function Fixed9(): Snapshot
  {
    Snapshot([DEAD, WALL, ACTIVE, ACTIVE, PATH, PATH,
              DEAD, DEAD, DEAD, DEAD, WALL, PATH,
              DEAD, DEAD, DEAD, DEAD, WALL, PATH],
             [Vertex(0, 7, 0, false), U, Vertex(4, 5, 2, true), Vertex(5, 4, 2, true), U, U,
              Vertex(1, 6, 3, false), Vertex(2, 5, 1, false), Vertex(3, 4, 1, false), Vertex(4, 3, 1, false), U, U,
              Vertex(2, 5, 3, false), Vertex(3, 4, 3, false), Vertex(4, 3, 3, false), Vertex(5, 2, 3, false), U, U],
             [Qitem(2, 0, 2), Qitem(3, 0, 3)])
  }

  /** After 10 dequeues with the corrected unlink. */
  function Fixed10(): Snapshot
  {
    Snapshot([DEAD, WALL, DEAD, ACTIVE, PATH, PATH,
              DEAD, DEAD, DEAD, DEAD, WALL, PATH,
              DEAD, DEAD, DEAD, DEAD, WALL, PATH],
             [Vertex(0, 7, 0, false), U, Vertex(4, 5, 2, false), Vertex(5, 4, 2, true), U, U,
              Vertex(1, 6, 3, false), Vertex(2, 5, 1, false), Vertex(3, 4, 1, false), Vertex(4, 3, 1, false), U, U,
              Vertex(2, 5, 3, false), Vertex(3, 4, 3, false), Vertex(4, 3, 3, false), Vertex(5, 2, 3, false), U, U],
             [Qitem(3, 0, 3)])
  }

  /** After 11 dequeues with the corrected unlink. */
  function Fixed11(): Snapshot
  {
    Snapshot([DEAD, WALL, DEAD, DEAD, ACTIVE, PATH,
              DEAD, DEAD, DEAD, DEAD, WALL, PATH,
              DEAD, DEAD, DEAD, DEAD, WALL, PATH],
             [Vertex(0, 7, 0, false), U, Vertex(4, 5, 2, false), Vertex(5, 4, 2, false), Vertex(6, 3, 1, true), U,
              Vertex(1, 6, 3, false), Vertex(2, 5, 1, false), Vertex(3, 4, 1, false), Vertex(4, 3, 1, false), U, U,
              Vertex(2, 5, 3, false), Vertex(3, 4, 3, false), Vertex(4, 3, 3, false), Vertex(5, 2, 3, false), U, U],
             [Qitem(4, 0, 4)])
  }

  /** After 12 dequeues with the corrected unlink. */
  function Fixed12(): Snapshot
  {
    Snapshot([DEAD, WALL, DEAD, DEAD, DEAD, ACTIVE,
              DEAD, DEAD, DEAD, DEAD, WALL, PATH,
              DEAD, DEAD, DEAD, DEAD, WALL, PATH],
             [Vertex(0, 7, 0, false), U, Vertex(4, 5, 2, false), Vertex(5, 4, 2, false), Vertex(6, 3, 1, false), Vertex(7, 2, 1, true),
              Vertex(1, 6, 3, false), Vertex(2, 5, 1, false), Vertex(3, 4, 1, false), Vertex(4, 3, 1, false), U, U,
              Vertex(2, 5, 3, false), Vertex(3, 4, 3, false), Vertex(4, 3, 3, false), Vertex(5, 2, 3, false), U, U],
             [Qitem(5, 0, 5)])
  }

  /** After 13 dequeues with the corrected unlink. */
  function Fixed13(): Snapshot
  {
    Snapshot([DEAD, WALL, DEAD, DEAD, DEAD, DEAD,
              DEAD, DEAD, DEAD, DEAD, WALL, ACTIVE,
              DEAD, DEAD, DEAD, DEAD, WALL, PATH],
             [Vertex(0, 7, 0, false), U, Vertex(4, 5, 2, false), Vertex(5, 4, 2, false), Vertex(6, 3, 1, false), Vertex(7, 2, 1, false),
              Vertex(1, 6, 3, false), Vertex(2, 5, 1, false), Vertex(3, 4, 1, false), Vertex(4, 3, 1, false), U, Vertex(8, 1, 3, true),
              Vertex(2, 5, 3, false), Vertex(3, 4, 3, false), Vertex(4, 3, 3, false), Vertex(5, 2, 3, false), U, U],
             [Qitem(5, 1, 11)])
  }

  /** After 14 dequeues with the corrected unlink. */
  function Fixed14(): Snapshot
  {
    Snapshot([DEAD, WALL, DEAD, DEAD, DEAD, DEAD,
              DEAD, DEAD, DEAD, DEAD, WALL, DEAD,
              DEAD, DEAD, DEAD, DEAD, WALL, ACTIVE],
             [Vertex(0, 7, 0, false), U, Vertex(4, 5, 2, false), Vertex(5, 4, 2, false), Vertex(6, 3, 1, false), Vertex(7, 2, 1, false),
              Vertex(1, 6, 3, false), Vertex(2, 5, 1, false), Vertex(3, 4, 1, false), Vertex(4, 3, 1, false), U, Vertex(8, 1, 3, false),
              Vertex(2, 5, 3, false), Vertex(3, 4, 3, false), Vertex(4, 3, 3, false), Vertex(5, 2, 3, false), U, Vertex(9, 0, 3, true)],
             [Qitem(5, 2, 17)])
  }

  /** After 15 dequeues with the corrected unlink. */
  function Fixed15(): Snapshot
  {
    Snapshot([DEAD, WALL, DEAD, DEAD, DEAD, DEAD,
              DEAD, DEAD, DEAD, DEAD, WALL, DEAD,
              DEAD, DEAD, DEAD, DEAD, WALL, ACTIVE],
             [Vertex(0, 7, 0, false), U, Vertex(4, 5, 2, false), Vertex(5, 4, 2, false), Vertex(6, 3, 1, false), Vertex(7, 2, 1, false),
              Vertex(1, 6, 3, false), Vertex(2, 5, 1, false), Vertex(3, 4, 1, false), Vertex(4, 3, 1, false), U, Vertex(8, 1, 3, false),
              Vertex(2, 5, 3, false), Vertex(3, 4, 3, false), Vertex(4, 3, 3, false), Vertex(5, 2, 3, false), U, Vertex(9, 0, 3, false)],
             [])
  }

  /** The take of dequeue 1: item 0, cell (0, 0), leaves the queue as written. */
  function StartTaken(): Snapshot
  {
    var t := Start();
    Snapshot(t.s, t.vs[0 := Vertex(0, 7, 0, false)], [])
  }

  lemma StartTakenIs(g: Grid)
    requires g.hcells == 6 && g.vcells == 3
    ensures TakenAsWritten(Start(), true) == StartTaken()
  {
    assert Chosen(Start().q, Start().vs, true) == 0;
  }

  /** Dequeue 1 paints cell (0, 0) DEAD. */
  function StartDead(): Snapshot
  {
    var t := StartTaken();
    Snapshot(t.s[0 := DEAD], t.vs, t.q)
  }

  lemma StartRelax0(g: Grid)
    requires g.hcells == 6 && g.vcells == 3
    ensures RelaxedFrom(g, StartDead(), Qitem(0, 0, 0), 0, true) == StartDead()
  {
  }

  lemma StartRelax1(g: Grid)
    requires g.hcells == 6 && g.vcells == 3
    ensures RelaxedFrom(g, StartDead(), Qitem(0, 0, 0), 1, true) == StartDead()
  {
    At(g, 1, 0);
  }

  lemma StartRelax2(g: Grid)
    requires g.hcells == 6 && g.vcells == 3
    ensures RelaxedFrom(g, StartDead(), Qitem(0, 0, 0), 2, true) == StartDead()
  {
  }

  /** Enqueue call 3 of dequeue 1 discovers cell (0, 1). */
  function StartEnqueue3(): Snapshot
  {
    var t := StartDead();
    Snapshot(t.s[6 := ACTIVE], t.vs[6 := Vertex(1, 6, 3, true)], t.q + [Qitem(0, 1, 6)])
  }

  lemma StartRelax3(g: Grid)
    requires g.hcells == 6 && g.vcells == 3
    ensures RelaxedFrom(g, StartDead(), Qitem(0, 0, 0), 3, true) == StartEnqueue3()
  {
    At(g, 0, 1);
  }

  lemma StartExpanded(g: Grid)
    requires g.hcells == 6 && g.vcells == 3
    ensures StartEnqueue3() == Written1()
  {
  }

  /** Dequeue 1 after its take: the DEAD paint and the four enqueue calls. */
  lemma StartExpand(g: Grid)
    requires g.hcells == 6 && g.vcells == 3
    ensures WeightedExpand(g, StartTaken(), Qitem(0, 0, 0), true) == Written1()
  {
    At(g, 0, 0);
    StartRelax0(g);
    StartRelax1(g);
    StartRelax2(g);
    StartRelax3(g);
    StartExpanded(g);
  }

  /** Dequeue 1 with the unlink as written. */
  lemma WrittenStep0(g: Grid)
    requires g.hcells == 6 && g.vcells == 3
    ensures Advances(g, Start(), Written1(), true)
  {
    assert Chosen(Start().q, Start().vs, true) == 0;
    At(g, 0, 0);
    StartTakenIs(g);
    StartExpand(g);
    forall n: nat | n > 0
      ensures Search(g, Start(), true, true, n) == Search(g, Written1(), true, true, n - 1)
    {
    }
  }

  /** The take of dequeue 2: item 0, cell (0, 1), leaves the queue as written. */
  function Written1Taken(): Snapshot
  {
    var t := Written1();
    Snapshot(t.s, t.vs[6 := Vertex(1, 6, 3, false)], [])
  }

  lemma Written1TakenIs(g: Grid)
    requires g.hcells == 6 && g.vcells == 3
    ensures TakenAsWritten(Written1(), true) == Written1Taken()
  {
    assert Chosen(Written1().q, Written1().vs, true) == 0;
  }

  /** Dequeue 2 paints cell (0, 1) DEAD. */
  function Written1Dead(): Snapshot
  {
    var t := Written1Taken();
    Snapshot(t.s[6 := DEAD], t.vs, t.q)
  }

  lemma Written1Relax0(g: Grid)
    requires g.hcells == 6 && g.vcells == 3
    ensures RelaxedFrom(g, Written1Dead(), Qitem(0, 1, 6), 0, true) == Written1Dead()
  {
  }

  /** Enqueue call 1 of dequeue 2 discovers cell (1, 1). */
  function Written1Enqueue1(): Snapshot
  {
    var t := Written1Dead();
    Snapshot(t.s[7 := ACTIVE], t.vs[7 := Vertex(2, 5, 1, true)], t.q + [Qitem(1, 1, 7)])
  }

  lemma Written1Relax1(g: Grid)
    requires g.hcells == 6 && g.vcells == 3
    ensures RelaxedFrom(g, Written1Dead(), Qitem(0, 1, 6), 1, true) == Written1Enqueue1()
  {
    At(g, 1, 1);
  }

  lemma Written1Relax2(g: Grid)
    requires g.hcells == 6 && g.vcells == 3
    ensures RelaxedFrom(g, Written1Enqueue1(), Qitem(0, 1, 6), 2, true) == Written1Enqueue1()
  {
    At(g, 0, 0);
  }

  /** Enqueue call 3 of dequeue 2 discovers cell (0, 2). */
  function Written1Enqueue3(): Snapshot
  {
    var t := Written1Enqueue1();
    Snapshot(t.s[12 := ACTIVE], t.vs[12 := Vertex(2, 5, 3, true)], t.q + [Qitem(0, 2, 12)])
  }

  lemma Written1Relax3(g: Grid)
    requires g.hcells == 6 && g.vcells == 3
    ensures RelaxedFrom(g, Written1Enqueue1(), Qitem(0, 1, 6), 3, true) == Written1Enqueue3()
  {
    At(g, 0, 2);
  }

  lemma Written1Expanded(g: Grid)
    requires g.hcells == 6 && g.vcells == 3
    ensures Written1Enqueue3() == Written2()
  {
  }

  /** Dequeue 2 after its take: the DEAD paint and the four enqueue calls. */
  lemma Written1Expand(g: Grid)
    requires g.hcells == 6 && g.vcells == 3
    ensures WeightedExpand(g, Written1Taken(), Qitem(0, 1, 6), true) == Written2()
  {
    At(g, 0, 1);
    Written1Relax0(g);
    Written1Relax1(g);
    Written1Relax2(g);
    Written1Relax3(g);
    Written1Expanded(g);
  }

  /** Dequeue 2 with the unlink as written. */
  lemma WrittenStep1(g: Grid)
    requires g.hcells == 6 && g.vcells == 3
    ensures Advances(g, Written1(), Written2(), true)
  {
    assert Chosen(Written1().q, Written1().vs, true) == 0;
    At(g, 0, 1);
    Written1TakenIs(g);
    Written1Expand(g);
    forall n: nat | n > 0
      ensures Search(g, Written1(), true, true, n) == Search(g, Written2(), true, true, n - 1)
    {
    }
  }

  /** The take of dequeue 3: item 0, cell (1, 1), leaves the queue as written. */
  function Written2Taken(): Snapshot
  {
    var t := Written2();
    Snapshot(t.s, t.vs[7 := Vertex(2, 5, 1, false)], [Qitem(0, 2, 12)])
  }

  lemma Written2TakenIs(g: Grid)
    requires g.hcells == 6 && g.vcells == 3
    ensures TakenAsWritten(Written2(), true) == Written2Taken()
  {
    assert Chosen(Written2().q, Written2().vs, true) == 0;
  }

  /** Dequeue 3 paints cell (1, 1) DEAD. */
  function Written2Dead(): Snapshot
  {
    var t := Written2Taken();
    Snapshot(t.s[7 := DEAD], t.vs, t.q)
  }

  lemma Written2Relax0(g: Grid)
    requires g.hcells == 6 && g.vcells == 3
    ensures RelaxedFrom(g, Written2Dead(), Qitem(1, 1, 7), 0, true) == Written2Dead()
  {
    At(g, 0, 1);
  }

  /** Enqueue call 1 of dequeue 3 discovers cell (2, 1). */
  function Written2Enqueue1(): Snapshot
  {
    var t := Written2Dead();
    Snapshot(t.s[8 := ACTIVE], t.vs[8 := Vertex(3, 4, 1, true)], t.q + [Qitem(2, 1, 8)])
  }

  lemma Written2Relax1(g: Grid)
    requires g.hcells == 6 && g.vcells == 3
    ensures RelaxedFrom(g, Written2Dead(), Qitem(1, 1, 7), 1, true) == Written2Enqueue1()
  {
    At(g, 2, 1);
  }

  lemma Written2Relax2(g: Grid)
    requires g.hcells == 6 && g.vcells == 3
    ensures RelaxedFrom(g, Written2Enqueue1(), Qitem(1, 1, 7), 2, true) == Written2Enqueue1()
  {
    At(g, 1, 0);
  }

  /** Enqueue call 3 of dequeue 3 discovers cell (1, 2). */
  function Written2Enqueue3(): Snapshot
  {
    var t := Written2Enqueue1();
    Snapshot(t.s[13 := ACTIVE], t.vs[13 := Vertex(3, 4, 3, true)], t.q + [Qitem(1, 2, 13)])
  }

  lemma Written2Relax3(g: Grid)
    requires g.hcells == 6 && g.vcells == 3
    ensures RelaxedFrom(g, Written2Enqueue1(), Qitem(1, 1, 7), 3, true) == Written2Enqueue3()
  {
    At(g, 1, 2);
  }

  lemma Written2Expanded(g: Grid)
    requires g.hcells == 6 && g.vcells == 3
    ensures Written2Enqueue3() == Written3()
  {
  }

  /** Dequeue 3 after its take: the DEAD paint and the four enqueue calls. */
  lemma Written2Expand(g: Grid)
    requires g.hcells == 6 && g.vcells == 3
    ensures WeightedExpand(g, Written2Taken(), Qitem(1, 1, 7), true) == Written3()
  {
    At(g, 1, 1);
    Written2Relax0(g);
    Written2Relax1(g);
    Written2Relax2(g);
    Written2Relax3(g);
    Written2Expanded(g);
  }

  /** Dequeue 3 with the unlink as written. */
  lemma WrittenStep2(g: Grid)
    requires g.hcells == 6 && g.vcells == 3
    ensures Advances(g, Written2(), Written3(), true)
  {
    assert Chosen(Written2().q, Written2().vs, true) == 0;
    At(g, 1, 1);
    Written2TakenIs(g);
    Written2Expand(g);
    forall n: nat | n > 0
      ensures Search(g, Written2(), true, true, n) == Search(g, Written3(), true, true, n - 1)
    {
    }
  }

  /** The take of dequeue 4: item 0, cell (0, 2), leaves the queue as written. */
  function Written3Taken(): Snapshot
  {
    var t := Written3();
    Snapshot(t.s, t.vs[12 := Vertex(2, 5, 3, false)], [Qitem(2, 1, 8), Qitem(1, 2, 13)])
  }

  lemma Written3TakenIs(g: Grid)
    requires g.hcells == 6 && g.vcells == 3
    ensures TakenAsWritten(Written3(), true) == Written3Taken()
  {
    assert Chosen(Written3().q, Written3().vs, true) == 0;
  }

  /** Dequeue 4 paints cell (0, 2) DEAD. */
  function Written3Dead(): Snapshot
  {
    var t := Written3Taken();
    Snapshot(t.s[12 := DEAD], t.vs, t.q)
  }

  lemma Written3Relax0(g: Grid)
    requires g.hcells == 6 && g.vcells == 3
    ensures RelaxedFrom(g, Written3Dead(), Qitem(0, 2, 12), 0, true) == Written3Dead()
  {
  }

  lemma Written3Relax1(g: Grid)
    requires g.hcells == 6 && g.vcells == 3
    ensures RelaxedFrom(g, Written3Dead(), Qitem(0, 2, 12), 1, true) == Written3Dead()
  {
    At(g, 1, 2);
  }

  lemma Written3Relax2(g: Grid)
    requires g.hcells == 6 && g.vcells == 3
    ensures RelaxedFrom(g, Written3Dead(), Qitem(0, 2, 12), 2, true) == Written3Dead()
  {
    At(g, 0, 1);
  }

  lemma Written3Relax3(g: Grid)
    requires g.hcells == 6 && g.vcells == 3
    ensures RelaxedFrom(g, Written3Dead(), Qitem(0, 2, 12), 3, true) == Written3Dead()
  {
  }

  lemma Written3Expanded(g: Grid)
    requires g.hcells == 6 && g.vcells == 3
    ensures Written3Dead() == Written4()
  {
  }

  /** Dequeue 4 after its take: the DEAD paint and the four enqueue calls. */
  lemma Written3Expand(g: Grid)
    requires g.hcells == 6 && g.vcells == 3
    ensures WeightedExpand(g, Written3Taken(), Qitem(0, 2, 12), true) == Written4()
  {
    At(g, 0, 2);
    Written3Relax0(g);
    Written3Relax1(g);
    Written3Relax2(g);
    Written3Relax3(g);
    Written3Expanded(g);
  }

  /** Dequeue 4 with the unlink as written. */
  lemma WrittenStep3(g: Grid)
    requires g.hcells == 6 && g.vcells == 3
    ensures Advances(g, Written3(), Written4(), true)
  {
    assert Chosen(Written3().q, Written3().vs, true) == 0;
    At(g, 0, 2);
    Written3TakenIs(g);
    Written3Expand(g);
    forall n: nat | n > 0
      ensures Search(g, Written3(), true, true, n) == Search(g, Written4(), true, true, n - 1)
    {
    }
  }

  /** The take of dequeue 5: item 0, cell (2, 1), leaves the queue as written. */
  function Written4Taken(): Snapshot
  {
    var t := Written4();
    Snapshot(t.s, t.vs[8 := Vertex(3, 4, 1, false)], [Qitem(1, 2, 13)])
  }

  lemma Written4TakenIs(g: Grid)
    requires g.hcells == 6 && g.vcells == 3
    ensures TakenAsWritten(Written4(), true) == Written4Taken()
  {
    assert Chosen(Written4().q, Written4().vs, true) == 0;
  }

  /** Dequeue 5 paints cell (2, 1) DEAD. */
  function Written4Dead(): Snapshot
  {
    var t := Written4Taken();
    Snapshot(t.s[8 := DEAD], t.vs, t.q)
  }

  lemma Written4Relax0(g: Grid)
    requires g.hcells == 6 && g.vcells == 3
    ensures RelaxedFrom(g, Written4Dead(), Qitem(2, 1, 8), 0, true) == Written4Dead()
  {
    At(g, 1, 1);
  }

  /** Enqueue call 1 of dequeue 5 discovers cell (3, 1). */
  function Written4Enqueue1(): Snapshot
  {
    var t := Written4Dead();
    Snapshot(t.s[9 := ACTIVE], t.vs[9 := Vertex(4, 3, 1, true)], t.q + [Qitem(3, 1, 9)])
  }

  lemma Written4Relax1(g: Grid)
    requires g.hcells == 6 && g.vcells == 3
    ensures RelaxedFrom(g, Written4Dead(), Qitem(2, 1, 8), 1, true) == Written4Enqueue1()
  {
    At(g, 3, 1);
  }

  /** Enqueue call 2 of dequeue 5 discovers cell (2, 0). */
  function Written4Enqueue2(): Snapshot
  {
    var t := Written4Enqueue1();
    Snapshot(t.s[2 := ACTIVE], t.vs[2 := Vertex(4, 5, 2, true)], t.q + [Qitem(2, 0, 2)])
  }

  lemma Written4Relax2(g: Grid)
    requires g.hcells == 6 && g.vcells == 3
    ensures RelaxedFrom(g, Written4Enqueue1(), Qitem(2, 1, 8), 2, true) == Written4Enqueue2()
  {
    At(g, 2, 0);
  }

  /** Enqueue call 3 of dequeue 5 discovers cell (2, 2). */
  function Written4Enqueue3(): Snapshot
  {
    var t := Written4Enqueue2();
    Snapshot(t.s[14 := ACTIVE], t.vs[14 := Vertex(4, 3, 3, true)], t.q + [Qitem(2, 2, 14)])
  }

  lemma Written4Relax3(g: Grid)
    requires g.hcells == 6 && g.vcells == 3
    ensures RelaxedFrom(g, Written4Enqueue2(), Qitem(2, 1, 8), 3, true) == Written4Enqueue3()
  {
    At(g, 2, 2);
  }

  lemma Written4Expanded(g: Grid)
    requires g.hcells == 6 && g.vcells == 3
    ensures Written4Enqueue3() == Written5()
  {
  }

  /** Dequeue 5 after its take: the DEAD paint and the four enqueue calls. */
  lemma Written4Expand(g: Grid)
    requires g.hcells == 6 && g.vcells == 3
    ensures WeightedExpand(g, Written4Taken(), Qitem(2, 1, 8), true) == Written5()
  {
    At(g, 2, 1);
    Written4Relax0(g);
    Written4Relax1(g);
    Written4Relax2(g);
    Written4Relax3(g);
    Written4Expanded(g);
  }

  /** Dequeue 5 with the unlink as written. */
  lemma WrittenStep4(g: Grid)
    requires g.hcells == 6 && g.vcells == 3
    ensures Advances(g, Written4(), Written5(), true)
  {
    assert Chosen(Written4().q, Written4().vs, true) == 0;
    At(g, 2, 1);
    Written4TakenIs(g);
    Written4Expand(g);
    forall n: nat | n > 0
      ensures Search(g, Written4(), true, true, n) == Search(g, Written5(), true, true, n - 1)
    {
    }
  }

  /** The take of dequeue 6: item 0, cell (1, 2), leaves the queue as written. */
  function Written5Taken(): Snapshot
  {
    var t := Written5();
    Snapshot(t.s, t.vs[13 := Vertex(3, 4, 3, false)], [Qitem(3, 1, 9), Qitem(2, 0, 2), Qitem(2, 2, 14)])
  }

  lemma Written5TakenIs(g: Grid)
    requires g.hcells == 6 && g.vcells == 3
    ensures TakenAsWritten(Written5(), true) == Written5Taken()
  {
    assert Chosen(Written5().q, Written5().vs, true) == 0;
  }

  /** Dequeue 6 paints cell (1, 2) DEAD. */
  function Written5Dead(): Snapshot
  {
    var t := Written5Taken();
    Snapshot(t.s[13 := DEAD], t.vs, t.q)
  }

  lemma Written5Relax0(g: Grid)
    requires g.hcells == 6 && g.vcells == 3
    ensures RelaxedFrom(g, Written5Dead(), Qitem(1, 2, 13), 0, true) == Written5Dead()
  {
    At(g, 0, 2);
  }

  lemma Written5Relax1(g: Grid)
    requires g.hcells == 6 && g.vcells == 3
    ensures RelaxedFrom(g, Written5Dead(), Qitem(1, 2, 13), 1, true) == Written5Dead()
  {
    At(g, 2, 2);
  }

  lemma Written5Relax2(g: Grid)
    requires g.hcells == 6 && g.vcells == 3
    ensures RelaxedFrom(g, Written5Dead(), Qitem(1, 2, 13), 2, true) == Written5Dead()
  {
    At(g, 1, 1);
  }

  lemma Written5Relax3(g: Grid)
    requires g.hcells == 6 && g.vcells == 3
    ensures RelaxedFrom(g, Written5Dead(), Qitem(1, 2, 13), 3, true) == Written5Dead()
  {
  }

  lemma Written5Expanded(g: Grid)
    requires g.hcells == 6 && g.vcells == 3
    ensures Written5Dead() == Written6()
  {
  }

  /** Dequeue 6 after its take: the DEAD paint and the four enqueue calls. */
  lemma Written5Expand(g: Grid)
    requires g.hcells == 6 && g.vcells == 3
    ensures WeightedExpand(g, Written5Taken(), Qitem(1, 2, 13), true) == Written6()
  {
    At(g, 1, 2);
    Written5Relax0(g);
    Written5Relax1(g);
    Written5Relax2(g);
    Written5Relax3(g);
    Written5Expanded(g);
  }

  /** Dequeue 6 with the unlink as written. */
  lemma WrittenStep5(g: Grid)
    requires g.hcells == 6 && g.vcells == 3
    ensures Advances(g, Written5(), Written6(), true)
  {
    assert Chosen(Written5().q, Written5().vs, true) == 0;
    At(g, 1, 2);
    Written5TakenIs(g);
    Written5Expand(g);
    forall n: nat | n > 0
      ensures Search(g, Written5(), true, true, n) == Search(g, Written6(), true, true, n - 1)
    {
    }
  }

  /** The take of dequeue 7: item 0, cell (3, 1), leaves the queue as written. */
  function Written6Taken(): Snapshot
  {
    var t := Written6();
    Snapshot(t.s, t.vs[9 := Vertex(4, 3, 1, false)], [Qitem(2, 0, 2), Qitem(2, 2, 14)])
  }

  lemma Written6TakenIs(g: Grid)
    requires g.hcells == 6 && g.vcells == 3
    ensures TakenAsWritten(Written6(), true) == Written6Taken()
  {
    assert Chosen(Written6().q, Written6().vs, true) == 0;
  }

  /** Dequeue 7 paints cell (3, 1) DEAD. */
  function Written6Dead(): Snapshot
  {
    var t := Written6Taken();
    Snapshot(t.s[9 := DEAD], t.vs, t.q)
  }

  lemma Written6Relax0(g: Grid)
    requires g.hcells == 6 && g.vcells == 3
    ensures RelaxedFrom(g, Written6Dead(), Qitem(3, 1, 9), 0, true) == Written6Dead()
  {
    At(g, 2, 1);
  }

  lemma Written6Relax1(g: Grid)
    requires g.hcells == 6 && g.vcells == 3
    ensures RelaxedFrom(g, Written6Dead(), Qitem(3, 1, 9), 1, true) == Written6Dead()
  {
    At(g, 4, 1);
  }

  /** Enqueue call 2 of dequeue 7 discovers cell (3, 0). */
  function Written6Enqueue2(): Snapshot
  {
    var t := Written6Dead();
    Snapshot(t.s[3 := ACTIVE], t.vs[3 := Vertex(5, 4, 2, true)], t.q + [Qitem(3, 0, 3)])
  }

  lemma Written6Relax2(g: Grid)
    requires g.hcells == 6 && g.vcells == 3
    ensures RelaxedFrom(g, Written6Dead(), Qitem(3, 1, 9), 2, true) == Written6Enqueue2()
  {
    At(g, 3, 0);
  }

  /** Enqueue call 3 of dequeue 7 discovers cell (3, 2). */
  function Written6Enqueue3(): Snapshot
  {
    var t := Written6Enqueue2();
    Snapshot(t.s[15 := ACTIVE], t.vs[15 := Vertex(5, 2, 3, true)], t.q + [Qitem(3, 2, 15)])
  }

  lemma Written6Relax3(g: Grid)
    requires g.hcells == 6 && g.vcells == 3
    ensures RelaxedFrom(g, Written6Enqueue2(), Qitem(3, 1, 9), 3, true) == Written6Enqueue3()
  {
    At(g, 3, 2);
  }

  lemma Written6Expanded(g: Grid)
    requires g.hcells == 6 && g.vcells == 3
    ensures Written6Enqueue3() == Written7()
  {
  }

  /** Dequeue 7 after its take: the DEAD paint and the four enqueue calls. */
  lemma Written6Expand(g: Grid)
    requires g.hcells == 6 && g.vcells == 3
    ensures WeightedExpand(g, Written6Taken(), Qitem(3, 1, 9), true) == Written7()
  {
    At(g, 3, 1);
    Written6Relax0(g);
    Written6Relax1(g);
    Written6Relax2(g);
    Written6Relax3(g);
    Written6Expanded(g);
  }

  /** Dequeue 7 with the unlink as written. */
  lemma WrittenStep6(g: Grid)
    requires g.hcells == 6 && g.vcells == 3
    ensures Advances(g, Written6(), Written7(), true)
  {
    assert Chosen(Written6().q, Written6().vs, true) == 0;
    At(g, 3, 1);
    Written6TakenIs(g);
    Written6Expand(g);
    forall n: nat | n > 0
      ensures Search(g, Written6(), true, true, n) == Search(g, Written7(), true, true, n - 1)
    {
    }
  }

  /** The take of dequeue 8: item 1, cell (2, 2), leaves the queue as written. */
  function Written7Taken(): Snapshot
  {
    var t := Written7();
    Snapshot(t.s, t.vs[14 := Vertex(4, 3, 3, false)], [Qitem(2, 0, 2), Qitem(3, 0, 3), Qitem(3, 2, 15)])
  }

  lemma Written7TakenIs(g: Grid)
    requires g.hcells == 6 && g.vcells == 3
    ensures TakenAsWritten(Written7(), true) == Written7Taken()
  {
    assert Chosen(Written7().q, Written7().vs, true) == 1;
  }

  /** Dequeue 8 paints cell (2, 2) DEAD. */
  function Written7Dead(): Snapshot
  {
    var t := Written7Taken();
    Snapshot(t.s[14 := DEAD], t.vs, t.q)
  }

  lemma Written7Relax0(g: Grid)
    requires g.hcells == 6 && g.vcells == 3
    ensures RelaxedFrom(g, Written7Dead(), Qitem(2, 2, 14), 0, true) == Written7Dead()
  {
    At(g, 1, 2);
  }

  lemma Written7Relax1(g: Grid)
    requires g.hcells == 6 && g.vcells == 3
    ensures RelaxedFrom(g, Written7Dead(), Qitem(2, 2, 14), 1, true) == Written7Dead()
  {
    At(g, 3, 2);
  }

  lemma Written7Relax2(g: Grid)
    requires g.hcells == 6 && g.vcells == 3
    ensures RelaxedFrom(g, Written7Dead(), Qitem(2, 2, 14), 2, true) == Written7Dead()
  {
    At(g, 2, 1);
  }

  lemma Written7Relax3(g: Grid)
    requires g.hcells == 6 && g.vcells == 3
    ensures RelaxedFrom(g, Written7Dead(), Qitem(2, 2, 14), 3, true) == Written7Dead()
  {
  }

  lemma Written7Expanded(g: Grid)
    requires g.hcells == 6 && g.vcells == 3
    ensures Written7Dead() == Written8()
  {
  }

  /** Dequeue 8 after its take: the DEAD paint and the four enqueue calls. */
  lemma Written7Expand(g: Grid)
    requires g.hcells == 6 && g.vcells == 3
    ensures WeightedExpand(g, Written7Taken(), Qitem(2, 2, 14), true) == Written8()
  {
    At(g, 2, 2);
    Written7Relax0(g);
    Written7Relax1(g);
    Written7Relax2(g);
    Written7Relax3(g);
    Written7Expanded(g);
  }

  /** Dequeue 8 with the unlink as written. */
  lemma WrittenStep7(g: Grid)
    requires g.hcells == 6 && g.vcells == 3
    ensures Advances(g, Written7(), Written8(), true)
  {
    assert Chosen(Written7().q, Written7().vs, true) == 1;
    At(g, 2, 2);
    Written7TakenIs(g);
    Written7Expand(g);
    forall n: nat | n > 0
      ensures Search(g, Written7(), true, true, n) == Search(g, Written8(), true, true, n - 1)
    {
    }
  }

  /** The take of dequeue 9: item 2, cell (3, 2), leaves the queue as written. */
  function Written8Taken(): Snapshot
  {
    var t := Written8();
    Snapshot(t.s, t.vs[15 := Vertex(5, 2, 3, false)], [Qitem(2, 0, 2)])
  }

  lemma Written8TakenIs(g: Grid)
    requires g.hcells == 6 && g.vcells == 3
    ensures TakenAsWritten(Written8(), true) == Written8Taken()
  {
    assert Chosen(Written8().q, Written8().vs, true) == 2;
  }

  /** Dequeue 9 paints cell (3, 2) DEAD. */
  function Written8Dead(): Snapshot
  {
    var t := Written8Taken();
    Snapshot(t.s[15 := DEAD], t.vs, t.q)
  }

  lemma Written8Relax0(g: Grid)
    requires g.hcells == 6 && g.vcells == 3
    ensures RelaxedFrom(g, Written8Dead(), Qitem(3, 2, 15), 0, true) == Written8Dead()
  {
    At(g, 2, 2);
  }

  lemma Written8Relax1(g: Grid)
    requires g.hcells == 6 && g.vcells == 3
    ensures RelaxedFrom(g, Written8Dead(), Qitem(3, 2, 15), 1, true) == Written8Dead()
  {
    At(g, 4, 2);
  }

  lemma Written8Relax2(g: Grid)
    requires g.hcells == 6 && g.vcells == 3
    ensures RelaxedFrom(g, Written8Dead(), Qitem(3, 2, 15), 2, true) == Written8Dead()
  {
    At(g, 3, 1);
  }

  lemma Written8Relax3(g: Grid)
    requires g.hcells == 6 && g.vcells == 3
    ensures RelaxedFrom(g, Written8Dead(), Qitem(3, 2, 15), 3, true) == Written8Dead()
  {
  }

  lemma Written8Expanded(g: Grid)
    requires g.hcells == 6 && g.vcells == 3
    ensures Written8Dead() == Written9()
  {
  }

  /** Dequeue 9 after its take: the DEAD paint and the four enqueue calls. */
  lemma Written8Expand(g: Grid)
    requires g.hcells == 6 && g.vcells == 3
    ensures WeightedExpand(g, Written8Taken(), Qitem(3, 2, 15), true) == Written9()
  {
    At(g, 3, 2);
    Written8Relax0(g);
    Written8Relax1(g);
    Written8Relax2(g);
    Written8Relax3(g);
    Written8Expanded(g);
  }

  /** Dequeue 9 with the unlink as written. */
  lemma WrittenStep8(g: Grid)
    requires g.hcells == 6 && g.vcells == 3
    ensures Advances(g, Written8(), Written9(), true)
  {
    assert Chosen(Written8().q, Written8().vs, true) == 2;
    At(g, 3, 2);
    Written8TakenIs(g);
    Written8Expand(g);
    forall n: nat | n > 0
      ensures Search(g, Written8(), true, true, n) == Search(g, Written9(), true, true, n - 1)
    {
    }
  }

  /** The take of dequeue 10: item 0, cell (2, 0), leaves the queue as written. */
  function Written9Taken(): Snapshot
  {
    var t := Written9();
    Snapshot(t.s, t.vs[2 := Vertex(4, 5, 2, false)], [])
  }

  lemma Written9TakenIs(g: Grid)
    requires g.hcells == 6 && g.vcells == 3
    ensures TakenAsWritten(Written9(), true) == Written9Taken()
  {
    assert Chosen(Written9().q, Written9().vs, true) == 0;
  }

  /** Dequeue 10 paints cell (2, 0) DEAD. */
  function Written9Dead(): Snapshot
  {
    var t := Written9Taken();
    Snapshot(t.s[2 := DEAD], t.vs, t.q)
  }

  lemma Written9Relax0(g: Grid)
    requires g.hcells == 6 && g.vcells == 3
    ensures RelaxedFrom(g, Written9Dead(), Qitem(2, 0, 2), 0, true) == Written9Dead()
  {
    At(g, 1, 0);
  }

  lemma Written9Relax1(g: Grid)
    requires g.hcells == 6 && g.vcells == 3
    ensures RelaxedFrom(g, Written9Dead(), Qitem(2, 0, 2), 1, true) == Written9Dead()
  {
    At(g, 3, 0);
  }

  lemma Written9Relax2(g: Grid)
    requires g.hcells == 6 && g.vcells == 3
    ensures RelaxedFrom(g, Written9Dead(), Qitem(2, 0, 2), 2, true) == Written9Dead()
  {
  }

  lemma Written9Relax3(g: Grid)
    requires g.hcells == 6 && g.vcells == 3
    ensures RelaxedFrom(g, Written9Dead(), Qitem(2, 0, 2), 3, true) == Written9Dead()
  {
    At(g, 2, 1);
  }

  lemma Written9Expanded(g: Grid)
    requires g.hcells == 6 && g.vcells == 3
    ensures Written9Dead() == Written10()
  {
  }

  /** Dequeue 10 after its take: the DEAD paint and the four enqueue calls. */
  lemma Written9Expand(g: Grid)
    requires g.hcells == 6 && g.vcells == 3
    ensures WeightedExpand(g, Written9Taken(), Qitem(2, 0, 2), true) == Written10()
  {
    At(g, 2, 0);
    Written9Relax0(g);
    Written9Relax1(g);
    Written9Relax2(g);
    Written9Relax3(g);
    Written9Expanded(g);
  }

  /** Dequeue 10 with the unlink as written. */
  lemma WrittenStep9(g: Grid)
    requires g.hcells == 6 && g.vcells == 3
    ensures Advances(g, Written9(), Written10(), true)
  {
    assert Chosen(Written9().q, Written9().vs, true) == 0;
    At(g, 2, 0);
    Written9TakenIs(g);
    Written9Expand(g);
    forall n: nat | n > 0
      ensures Search(g, Written9(), true, true, n) == Search(g, Written10(), true, true, n - 1)
    {
    }
  }

  /** Dequeue 1 with the corrected unlink. */
  lemma FixedStep0(g: Grid)
    requires g.hcells == 6 && g.vcells == 3
    ensures Advances(g, Start(), Written1(), false)
  {
    assert Chosen(Start().q, Start().vs, true) == 0;
    At(g, 0, 0);
    TakenAsWrittenAgrees(Start(), true);
    StartTakenIs(g);
    StartExpand(g);
    forall n: nat | n > 0
      ensures Search(g, Start(), true, false, n) == Search(g, Written1(), true, false, n - 1)
    {
    }
  }

  /** Dequeue 2 with the corrected unlink. */
  lemma FixedStep1(g: Grid)
    requires g.hcells == 6 && g.vcells == 3
    ensures Advances(g, Written1(), Written2(), false)
  {
    assert Chosen(Written1().q, Written1().vs, true) == 0;
    At(g, 0, 1);
    TakenAsWrittenAgrees(Written1(), true);
    Written1TakenIs(g);
    Written1Expand(g);
    forall n: nat | n > 0
      ensures Search(g, Written1(), true, false, n) == Search(g, Written2(), true, false, n - 1)
    {
    }
  }

  /** Dequeue 3 with the corrected unlink. */
  lemma FixedStep2(g: Grid)
    requires g.hcells == 6 && g.vcells == 3
    ensures Advances(g, Written2(), Written3(), false)
  {
    assert Chosen(Written2().q, Written2().vs, true) == 0;
    At(g, 1, 1);
    TakenAsWrittenAgrees(Written2(), true);
    Written2TakenIs(g);
    Written2Expand(g);
    forall n: nat | n > 0
      ensures Search(g, Written2(), true, false, n) == Search(g, Written3(), true, false, n - 1)
    {
    }
  }

  /** Dequeue 4 with the corrected unlink. */
  lemma FixedStep3(g: Grid)
    requires g.hcells == 6 && g.vcells == 3
    ensures Advances(g, Written3(), Written4(), false)
  {
    assert Chosen(Written3().q, Written3().vs, true) == 0;
    At(g, 0, 2);
    TakenAsWrittenAgrees(Written3(), true);
    Written3TakenIs(g);
    Written3Expand(g);
    forall n: nat | n > 0
      ensures Search(g, Written3(), true, false, n) == Search(g, Written4(), true, false, n - 1)
    {
    }
  }

  /** Dequeue 5 with the corrected unlink. */
  lemma FixedStep4(g: Grid)
    requires g.hcells == 6 && g.vcells == 3
    ensures Advances(g, Written4(), Written5(), false)
  {
    assert Chosen(Written4().q, Written4().vs, true) == 0;
    At(g, 2, 1);
    TakenAsWrittenAgrees(Written4(), true);
    Written4TakenIs(g);
    Written4Expand(g);
    forall n: nat | n > 0
      ensures Search(g, Written4(), true, false, n) == Search(g, Written5(), true, false, n - 1)
    {
    }
  }

  /** Dequeue 6 with the corrected unlink. */
  lemma FixedStep5(g: Grid)
    requires g.hcells == 6 && g.vcells == 3
    ensures Advances(g, Written5(), Written6(), false)
  {
    assert Chosen(Written5().q, Written5().vs, true) == 0;
    At(g, 1, 2);
    TakenAsWrittenAgrees(Written5(), true);
    Written5TakenIs(g);
    Written5Expand(g);
    forall n: nat | n > 0
      ensures Search(g, Written5(), true, false, n) == Search(g, Written6(), true, false, n - 1)
    {
    }
  }

  /** Dequeue 7 with the corrected unlink. */
  lemma FixedStep6(g: Grid)
    requires g.hcells == 6 && g.vcells == 3
    ensures Advances(g, Written6(), Written7(), false)
  {
    assert Chosen(Written6().q, Written6().vs, true) == 0;
    At(g, 3, 1);
    TakenAsWrittenAgrees(Written6(), true);
    Written6TakenIs(g);
    Written6Expand(g);
    forall n: nat | n > 0
      ensures Search(g, Written6(), true, false, n) == Search(g, Written7(), true, false, n - 1)
    {
    }
  }

  /** Dequeue 8 with the corrected unlink. */
  lemma FixedStep7(g: Grid)
    requires g.hcells == 6 && g.vcells == 3
    ensures Advances(g, Written7(), Written8(), false)
  {
    assert Chosen(Written7().q, Written7().vs, true) == 1;
    At(g, 2, 2);
    TakenAsWrittenAgrees(Written7(), true);
    Written7TakenIs(g);
    Written7Expand(g);
    forall n: nat | n > 0
      ensures Search(g, Written7(), true, false, n) == Search(g, Written8(), true, false, n - 1)
    {
    }
  }

  /** The take of dequeue 9: item 2, cell (3, 2), leaves the queue. */
  function Fixed8Taken(): Snapshot
  {
    var t := Written8();
    Snapshot(t.s, t.vs[15 := Vertex(5, 2, 3, false)], [Qitem(2, 0, 2), Qitem(3, 0, 3)])
  }

  lemma Fixed8TakenIs(g: Grid)
    requires g.hcells == 6 && g.vcells == 3
    ensures Taken(Written8(), true) == Fixed8Taken()
  {
    assert Chosen(Written8().q, Written8().vs, true) == 2;
  }

  /** Dequeue 9 paints cell (3, 2) DEAD. */
  function Fixed8Dead(): Snapshot
  {
    var t := Fixed8Taken();
    Snapshot(t.s[15 := DEAD], t.vs, t.q)
  }

  lemma Fixed8Relax0(g: Grid)
    requires g.hcells == 6 && g.vcells == 3
    ensures RelaxedFrom(g, Fixed8Dead(), Qitem(3, 2, 15), 0, true) == Fixed8Dead()
  {
    At(g, 2, 2);
  }

  lemma Fixed8Relax1(g: Grid)
    requires g.hcells == 6 && g.vcells == 3
    ensures RelaxedFrom(g, Fixed8Dead(), Qitem(3, 2, 15), 1, true) == Fixed8Dead()
  {
    At(g, 4, 2);
  }

  lemma Fixed8Relax2(g: Grid)
    requires g.hcells == 6 && g.vcells == 3
    ensures RelaxedFrom(g, Fixed8Dead(), Qitem(3, 2, 15), 2, true) == Fixed8Dead()
  {
    At(g, 3, 1);
  }

  lemma Fixed8Relax3(g: Grid)
    requires g.hcells == 6 && g.vcells == 3
    ensures RelaxedFrom(g, Fixed8Dead(), Qitem(3, 2, 15), 3, true) == Fixed8Dead()
  {
  }

  lemma Fixed8Expanded(g: Grid)
    requires g.hcells == 6 && g.vcells == 3
    ensures Fixed8Dead() == Fixed9()
  {
  }

  /** Dequeue 9 after its take: the DEAD paint and the four enqueue calls. */
  lemma Fixed8Expand(g: Grid)
    requires g.hcells == 6 && g.vcells == 3
    ensures WeightedExpand(g, Fixed8Taken(), Qitem(3, 2, 15), true) == Fixed9()
  {
    At(g, 3, 2);
    Fixed8Relax0(g);
    Fixed8Relax1(g);
    Fixed8Relax2(g);
    Fixed8Relax3(g);
    Fixed8Expanded(g);
  }

  /** Dequeue 9 with the corrected unlink. */
  lemma FixedStep8(g: Grid)
    requires g.hcells == 6 && g.vcells == 3
    ensures Advances(g, Written8(), Fixed9(), false)
  {
    assert Chosen(Written8().q, Written8().vs, true) == 2;
    At(g, 3, 2);
    Fixed8TakenIs(g);
    Fixed8Expand(g);
    forall n: nat | n > 0
      ensures Search(g, Written8(), true, false, n) == Search(g, Fixed9(), true, false, n - 1)
    {
    }
  }

  /** The take of dequeue 10: item 0, cell (2, 0), leaves the queue. */
  function Fixed9Taken(): Snapshot
  {
    var t := Fixed9();
    Snapshot(t.s, t.vs[2 := Vertex(4, 5, 2, false)], [Qitem(3, 0, 3)])
  }

  lemma Fixed9TakenIs(g: Grid)
    requires g.hcells == 6 && g.vcells == 3
    ensures Taken(Fixed9(), true) == Fixed9Taken()
  {
    assert Chosen(Fixed9().q, Fixed9().vs, true) == 0;
  }

  /** Dequeue 10 paints cell (2, 0) DEAD. */
  function Fixed9Dead(): Snapshot
  {
    var t := Fixed9Taken();
    Snapshot(t.s[2 := DEAD], t.vs, t.q)
  }

  lemma Fixed9Relax0(g: Grid)
    requires g.hcells == 6 && g.vcells == 3
    ensures RelaxedFrom(g, Fixed9Dead(), Qitem(2, 0, 2), 0, true) == Fixed9Dead()
  {
    At(g, 1, 0);
  }

  lemma Fixed9Relax1(g: Grid)
    requires g.hcells == 6 && g.vcells == 3
    ensures RelaxedFrom(g, Fixed9Dead(), Qitem(2, 0, 2), 1, true) == Fixed9Dead()
  {
    At(g, 3, 0);
  }

  lemma Fixed9Relax2(g: Grid)
    requires g.hcells == 6 && g.vcells == 3
    ensures RelaxedFrom(g, Fixed9Dead(), Qitem(2, 0, 2), 2, true) == Fixed9Dead()
  {
  }

  lemma Fixed9Relax3(g: Grid)
    requires g.hcells == 6 && g.vcells == 3
    ensures RelaxedFrom(g, Fixed9Dead(), Qitem(2, 0, 2), 3, true) == Fixed9Dead()
  {
    At(g, 2, 1);
  }

  lemma Fixed9Expanded(g: Grid)
    requires g.hcells == 6 && g.vcells == 3
    ensures Fixed9Dead() == Fixed10()
  {
  }

  /** Dequeue 10 after its take: the DEAD paint and the four enqueue calls. */
  lemma Fixed9Expand(g: Grid)
    requires g.hcells == 6 && g.vcells == 3
    ensures WeightedExpand(g, Fixed9Taken(), Qitem(2, 0, 2), true) == Fixed10()
  {
    At(g, 2, 0);
    Fixed9Relax0(g);
    Fixed9Relax1(g);
    Fixed9Relax2(g);
    Fixed9Relax3(g);
    Fixed9Expanded(g);
  }

  /** Dequeue 10 with the corrected unlink. */
  lemma FixedStep9(g: Grid)
    requires g.hcells == 6 && g.vcells == 3
    ensures Advances(g, Fixed9(), Fixed10(), false)
  {
    assert Chosen(Fixed9().q, Fixed9().vs, true) == 0;
    At(g, 2, 0);
    Fixed9TakenIs(g);
    Fixed9Expand(g);
    forall n: nat | n > 0
      ensures Search(g, Fixed9(), true, false, n) == Search(g, Fixed10(), true, false, n - 1)
    {
    }
  }

  /** The take of dequeue 11: item 0, cell (3, 0), leaves the queue. */
  function Fixed10Taken(): Snapshot
  {
    var t := Fixed10();
    Snapshot(t.s, t.vs[3 := Vertex(5, 4, 2, false)], [])
  }

  lemma Fixed10TakenIs(g: Grid)
    requires g.hcells == 6 && g.vcells == 3
    ensures Taken(Fixed10(), true) == Fixed10Taken()
  {
    assert Chosen(Fixed10().q, Fixed10().vs, true) == 0;
  }

  /** Dequeue 11 paints cell (3, 0) DEAD. */
  function Fixed10Dead(): Snapshot
  {
    var t := Fixed10Taken();
    Snapshot(t.s[3 := DEAD], t.vs, t.q)
  }

  lemma Fixed10Relax0(g: Grid)
    requires g.hcells == 6 && g.vcells == 3
    ensures RelaxedFrom(g, Fixed10Dead(), Qitem(3, 0, 3), 0, true) == Fixed10Dead()
  {
    At(g, 2, 0);
  }

  /** Enqueue call 1 of dequeue 11 discovers cell (4, 0). */
  function Fixed10Enqueue1(): Snapshot
  {
    var t := Fixed10Dead();
    Snapshot(t.s[4 := ACTIVE], t.vs[4 := Vertex(6, 3, 1, true)], t.q + [Qitem(4, 0, 4)])
  }

  lemma Fixed10Relax1(g: Grid)
    requires g.hcells == 6 && g.vcells == 3
    ensures RelaxedFrom(g, Fixed10Dead(), Qitem(3, 0, 3), 1, true) == Fixed10Enqueue1()
  {
    At(g, 4, 0);
  }

  lemma Fixed10Relax2(g: Grid)
    requires g.hcells == 6 && g.vcells == 3
    ensures RelaxedFrom(g, Fixed10Enqueue1(), Qitem(3, 0, 3), 2, true) == Fixed10Enqueue1()
  {
  }

  lemma Fixed10Relax3(g: Grid)
    requires g.hcells == 6 && g.vcells == 3
    ensures RelaxedFrom(g, Fixed10Enqueue1(), Qitem(3, 0, 3), 3, true) == Fixed10Enqueue1()
  {
    At(g, 3, 1);
  }

  lemma Fixed10Expanded(g: Grid)
    requires g.hcells == 6 && g.vcells == 3
    ensures Fixed10Enqueue1() == Fixed11()
  {
  }

  /** Dequeue 11 after its take: the DEAD paint and the four enqueue calls. */
  lemma Fixed10Expand(g: Grid)
    requires g.hcells == 6 && g.vcells == 3
    ensures WeightedExpand(g, Fixed10Taken(), Qitem(3, 0, 3), true) == Fixed11()
  {
    At(g, 3, 0);
    Fixed10Relax0(g);
    Fixed10Relax1(g);
    Fixed10Relax2(g);
    Fixed10Relax3(g);
    Fixed10Expanded(g);
  }

  /** Dequeue 11 with the corrected unlink. */
  lemma FixedStep10(g: Grid)
    requires g.hcells == 6 && g.vcells == 3
    ensures Advances(g, Fixed10(), Fixed11(), false)
  {
    assert Chosen(Fixed10().q, Fixed10().vs, true) == 0;
    At(g, 3, 0);
    Fixed10TakenIs(g);
    Fixed10Expand(g);
    forall n: nat | n > 0
      ensures Search(g, Fixed10(), true, false, n) == Search(g, Fixed11(), true, false, n - 1)
    {
    }
  }

  /** The take of dequeue 12: item 0, cell (4, 0), leaves the queue. */
  function Fixed11Taken(): Snapshot
  {
    var t := Fixed11();
    Snapshot(t.s, t.vs[4 := Vertex(6, 3, 1, false)], [])
  }

  lemma Fixed11TakenIs(g: Grid)
    requires g.hcells == 6 && g.vcells == 3
    ensures Taken(Fixed11(), true) == Fixed11Taken()
  {
    assert Chosen(Fixed11().q, Fixed11().vs, true) == 0;
  }

  /** Dequeue 12 paints cell (4, 0) DEAD. */
  function Fixed11Dead(): Snapshot
  {
    var t := Fixed11Taken();
    Snapshot(t.s[4 := DEAD], t.vs, t.q)
  }

  lemma Fixed11Relax0(g: Grid)
    requires g.hcells == 6 && g.vcells == 3
    ensures RelaxedFrom(g, Fixed11Dead(), Qitem(4, 0, 4), 0, true) == Fixed11Dead()
  {
    At(g, 3, 0);
  }

  /** Enqueue call 1 of dequeue 12 discovers cell (5, 0). */
  function Fixed11Enqueue1(): Snapshot
  {
    var t := Fixed11Dead();
    Snapshot(t.s[5 := ACTIVE], t.vs[5 := Vertex(7, 2, 1, true)], t.q + [Qitem(5, 0, 5)])
  }

  lemma Fixed11Relax1(g: Grid)
    requires g.hcells == 6 && g.vcells == 3
    ensures RelaxedFrom(g, Fixed11Dead(), Qitem(4, 0, 4), 1, true) == Fixed11Enqueue1()
  {
    At(g, 5, 0);
  }

  lemma Fixed11Relax2(g: Grid)
    requires g.hcells == 6 && g.vcells == 3
    ensures RelaxedFrom(g, Fixed11Enqueue1(), Qitem(4, 0, 4), 2, true) == Fixed11Enqueue1()
  {
  }

  lemma Fixed11Relax3(g: Grid)
    requires g.hcells == 6 && g.vcells == 3
    ensures RelaxedFrom(g, Fixed11Enqueue1(), Qitem(4, 0, 4), 3, true) == Fixed11Enqueue1()
  {
    At(g, 4, 1);
  }

  lemma Fixed11Expanded(g: Grid)
    requires g.hcells == 6 && g.vcells == 3
    ensures Fixed11Enqueue1() == Fixed12()
  {
  }

  /** Dequeue 12 after its take: the DEAD paint and the four enqueue calls. */
  lemma Fixed11Expand(g: Grid)
    requires g.hcells == 6 && g.vcells == 3
    ensures WeightedExpand(g, Fixed11Taken(), Qitem(4, 0, 4), true) == Fixed12()
  {
    At(g, 4, 0);
    Fixed11Relax0(g);
    Fixed11Relax1(g);
    Fixed11Relax2(g);
    Fixed11Relax3(g);
    Fixed11Expanded(g);
  }

  /** Dequeue 12 with the corrected unlink. */
  lemma FixedStep11(g: Grid)
    requires g.hcells == 6 && g.vcells == 3
    ensures Advances(g, Fixed11(), Fixed12(), false)
  {
    assert Chosen(Fixed11().q, Fixed11().vs, true) == 0;
    At(g, 4, 0);
    Fixed11TakenIs(g);
    Fixed11Expand(g);
    forall n: nat | n > 0
      ensures Search(g, Fixed11(), true, false, n) == Search(g, Fixed12(), true, false, n - 1)
    {
    }
  }

  /** The take of dequeue 13: item 0, cell (5, 0), leaves the queue. */
  function Fixed12Taken(): Snapshot
  {
    var t := Fixed12();
    Snapshot(t.s, t.vs[5 := Vertex(7, 2, 1, false)], [])
  }

  lemma Fixed12TakenIs(g: Grid)
    requires g.hcells == 6 && g.vcells == 3
    ensures Taken(Fixed12(), true) == Fixed12Taken()
  {
    assert Chosen(Fixed12().q, Fixed12().vs, true) == 0;
  }

  /** Dequeue 13 paints cell (5, 0) DEAD. */
  function Fixed12Dead(): Snapshot
  {
    var t := Fixed12Taken();
    Snapshot(t.s[5 := DEAD], t.vs, t.q)
  }

  lemma Fixed12Relax0(g: Grid)
    requires g.hcells == 6 && g.vcells == 3
    ensures RelaxedFrom(g, Fixed12Dead(), Qitem(5, 0, 5), 0, true) == Fixed12Dead()
  {
    At(g, 4, 0);
  }

  lemma Fixed12Relax1(g: Grid)
    requires g.hcells == 6 && g.vcells == 3
    ensures RelaxedFrom(g, Fixed12Dead(), Qitem(5, 0, 5), 1, true) == Fixed12Dead()
  {
  }

  lemma Fixed12Relax2(g: Grid)
    requires g.hcells == 6 && g.vcells == 3
    ensures RelaxedFrom(g, Fixed12Dead(), Qitem(5, 0, 5), 2, true) == Fixed12Dead()
  {
  }

  /** Enqueue call 3 of dequeue 13 discovers cell (5, 1). */
  function Fixed12Enqueue3(): Snapshot
  {
    var t := Fixed12Dead();
    Snapshot(t.s[11 := ACTIVE], t.vs[11 := Vertex(8, 1, 3, true)], t.q + [Qitem(5, 1, 11)])
  }

  lemma Fixed12Relax3(g: Grid)
    requires g.hcells == 6 && g.vcells == 3
    ensures RelaxedFrom(g, Fixed12Dead(), Qitem(5, 0, 5), 3, true) == Fixed12Enqueue3()
  {
    At(g, 5, 1);
  }

  lemma Fixed12Expanded(g: Grid)
    requires g.hcells == 6 && g.vcells == 3
    ensures Fixed12Enqueue3() == Fixed13()
  {
  }

  /** Dequeue 13 after its take: the DEAD paint and the four enqueue calls. */
  lemma Fixed12Expand(g: Grid)
    requires g.hcells == 6 && g.vcells == 3
    ensures WeightedExpand(g, Fixed12Taken(), Qitem(5, 0, 5), true) == Fixed13()
  {
    At(g, 5, 0);
    Fixed12Relax0(g);
    Fixed12Relax1(g);
    Fixed12Relax2(g);
    Fixed12Relax3(g);
    Fixed12Expanded(g);
  }

  /** Dequeue 13 with the corrected unlink. */
  lemma FixedStep12(g: Grid)
    requires g.hcells == 6 && g.vcells == 3
    ensures Advances(g, Fixed12(), Fixed13(), false)
  {
    assert Chosen(Fixed12().q, Fixed12().vs, true) == 0;
    At(g, 5, 0);
    Fixed12TakenIs(g);
    Fixed12Expand(g);
    forall n: nat | n > 0
      ensures Search(g, Fixed12(), true, false, n) == Search(g, Fixed13(), true, false, n - 1)
    {
    }
  }

  /** The take of dequeue 14: item 0, cell (5, 1), leaves the queue. */
  function Fixed13Taken(): Snapshot
  {
    var t := Fixed13();
    Snapshot(t.s, t.vs[11 := Vertex(8, 1, 3, false)], [])
  }

  lemma Fixed13TakenIs(g: Grid)
    requires g.hcells == 6 && g.vcells == 3
    ensures Taken(Fixed13(), true) == Fixed13Taken()
  {
    assert Chosen(Fixed13().q, Fixed13().vs, true) == 0;
  }

  /** Dequeue 14 paints cell (5, 1) DEAD. */
  function Fixed13Dead(): Snapshot
  {
    var t := Fixed13Taken();
    Snapshot(t.s[11 := DEAD], t.vs, t.q)
  }

  lemma Fixed13Relax0(g: Grid)
    requires g.hcells == 6 && g.vcells == 3
    ensures RelaxedFrom(g, Fixed13Dead(), Qitem(5, 1, 11), 0, true) == Fixed13Dead()
  {
    At(g, 4, 1);
  }

  lemma Fixed13Relax1(g: Grid)
    requires g.hcells == 6 && g.vcells == 3
    ensures RelaxedFrom(g, Fixed13Dead(), Qitem(5, 1, 11), 1, true) == Fixed13Dead()
  {
  }

  lemma Fixed13Relax2(g: Grid)
    requires g.hcells == 6 && g.vcells == 3
    ensures RelaxedFrom(g, Fixed13Dead(), Qitem(5, 1, 11), 2, true) == Fixed13Dead()
  {
    At(g, 5, 0);
  }

  /** Enqueue call 3 of dequeue 14 discovers cell (5, 2). */
  function Fixed13Enqueue3(): Snapshot
  {
    var t := Fixed13Dead();
    Snapshot(t.s[17 := ACTIVE], t.vs[17 := Vertex(9, 0, 3, true)], t.q + [Qitem(5, 2, 17)])
  }

  lemma Fixed13Relax3(g: Grid)
    requires g.hcells == 6 && g.vcells == 3
    ensures RelaxedFrom(g, Fixed13Dead(), Qitem(5, 1, 11), 3, true) == Fixed13Enqueue3()
  {
    At(g, 5, 2);
  }

  lemma Fixed13Expanded(g: Grid)
    requires g.hcells == 6 && g.vcells == 3
    ensures Fixed13Enqueue3() == Fixed14()
  {
  }

  /** Dequeue 14 after its take: the DEAD paint and the four enqueue calls. */
  lemma Fixed13Expand(g: Grid)
    requires g.hcells == 6 && g.vcells == 3
    ensures WeightedExpand(g, Fixed13Taken(), Qitem(5, 1, 11), true) == Fixed14()
  {
    At(g, 5, 1);
    Fixed13Relax0(g);
    Fixed13Relax1(g);
    Fixed13Relax2(g);
    Fixed13Relax3(g);
    Fixed13Expanded(g);
  }

  /** Dequeue 14 with the corrected unlink. */
  lemma FixedStep13(g: Grid)
    requires g.hcells == 6 && g.vcells == 3
    ensures Advances(g, Fixed13(), Fixed14(), false)
  {
    assert Chosen(Fixed13().q, Fixed13().vs, true) == 0;
    At(g, 5, 1);
    Fixed13TakenIs(g);
    Fixed13Expand(g);
    forall n: nat | n > 0
      ensures Search(g, Fixed13(), true, false, n) == Search(g, Fixed14(), true, false, n - 1)
    {
    }
  }

  /** The take of dequeue 15: item 0, cell (5, 2), leaves the queue. */
  function Fixed14Taken(): Snapshot
  {
    var t := Fixed14();
    Snapshot(t.s, t.vs[17 := Vertex(9, 0, 3, false)], [])
  }

  lemma Fixed14TakenIs(g: Grid)
    requires g.hcells == 6 && g.vcells == 3
    ensures Taken(Fixed14(), true) == Fixed14Taken()
  {
    assert Chosen(Fixed14().q, Fixed14().vs, true) == 0;
  }

  /** Dequeue 15 with the corrected unlink. */
  lemma FixedStep14(g: Grid)
    requires g.hcells == 6 && g.vcells == 3
    ensures Finds(g, Fixed14(), 1)
  {
    assert Chosen(Fixed14().q, Fixed14().vs, true) == 0;
    At(g, 5, 2);
    Fixed14TakenIs(g);
    forall n: nat | n >= 1
      ensures Search(g, Fixed14(), true, false, n).1
    {
    }
  }

  /** A run that has not found the goal goes from `t` to `t2` in one dequeue, whatever the
      fuel left. */
  ghost predicate Advances(g: Grid, t: Snapshot, t2: Snapshot, asWritten: bool)
    requires |t.s| == |t.vs| == g.hcells * g.vcells && |t2.s| == |t2.vs| == g.hcells * g.vcells
  {
    forall n: nat :: n > 0 ==> Search(g, t, true, asWritten, n) == Search(g, t2, true, asWritten, n - 1)
  }

  /** The as-written run from `t` never finds the goal, and with `d` dequeues or more it stops
      with the snapshot `last`. */
  ghost predicate Misses(g: Grid, t: Snapshot, last: Snapshot, d: nat)
    requires |t.s| == |t.vs| == g.hcells * g.vcells
  {
    forall n: nat :: !Search(g, t, true, true, n).1 && (n >= d ==> Search(g, t, true, true, n) == (last, false))
  }

  /** The corrected run from `t` finds the goal within `d` dequeues. */
  ghost predicate Finds(g: Grid, t: Snapshot, d: nat)
    requires |t.s| == |t.vs| == g.hcells * g.vcells
  {
    forall n: nat :: n >= d ==> Search(g, t, true, false, n).1
  }

  /** One more dequeue in front of a run that misses the goal. */
  lemma MissesBack(g: Grid, t: Snapshot, t2: Snapshot, last: Snapshot, d: nat)
    requires |t.s| == |t.vs| == g.hcells * g.vcells && |t2.s| == |t2.vs| == g.hcells * g.vcells
    requires Advances(g, t, t2, true) && Misses(g, t2, last, d)
    ensures Misses(g, t, last, d + 1)
  {
    forall n: nat
      ensures !Search(g, t, true, true, n).1 && (n >= d + 1 ==> Search(g, t, true, true, n) == (last, false))
    {
      if n > 0 {
        assert Search(g, t, true, true, n) == Search(g, t2, true, true, n - 1);
      }
    }
  }

  /** One more dequeue in front of a run that finds the goal. */
  lemma FindsBack(g: Grid, t: Snapshot, t2: Snapshot, d: nat)
    requires |t.s| == |t.vs| == g.hcells * g.vcells && |t2.s| == |t2.vs| == g.hcells * g.vcells
    requires Advances(g, t, t2, false) && Finds(g, t2, d)
    ensures Finds(g, t, d + 1)
  {
    forall n: nat | n >= d + 1
      ensures Search(g, t, true, false, n).1
    {
      assert Search(g, t, true, false, n) == Search(g, t2, true, false, n - 1);
    }
  }

  /** The as-written run ends at Written10: its queue is empty. */
  lemma Written10Misses(g: Grid)
    requires g.hcells == 6 && g.vcells == 3
    ensures Misses(g, Written10(), Written10(), 0)
  {
    forall n: nat
      ensures !Search(g, Written10(), true, true, n).1 && Search(g, Written10(), true, true, n) == (Written10(), false)
    {
    }
  }

  /** The as-written run from the snapshot after 9 dequeues. */
  lemma Written9Misses(g: Grid)
    requires g.hcells == 6 && g.vcells == 3
    ensures Misses(g, Written9(), Written10(), 1)
  {
    WrittenStep9(g);
    Written10Misses(g);
    MissesBack(g, Written9(), Written10(), Written10(), 0);
  }

  /** The as-written run from the snapshot after 8 dequeues. */
  lemma Written8Misses(g: Grid)
    requires g.hcells == 6 && g.vcells == 3
    ensures Misses(g, Written8(), Written10(), 2)
  {
    WrittenStep8(g);
    Written9Misses(g);
    MissesBack(g, Written8(), Written9(), Written10(), 1);
  }

  /** The as-written run from the snapshot after 7 dequeues. */
  lemma Written7Misses(g: Grid)
    requires g.hcells == 6 && g.vcells == 3
    ensures Misses(g, Written7(), Written10(), 3)
  {
    WrittenStep7(g);
    Written8Misses(g);
    MissesBack(g, Written7(), Written8(), Written10(), 2);
  }

  /** The as-written run from the snapshot after 6 dequeues. */
  lemma Written6Misses(g: Grid)
    requires g.hcells == 6 && g.vcells == 3
    ensures Misses(g, Written6(), Written10(), 4)
  {
    WrittenStep6(g);
    Written7Misses(g);
    MissesBack(g, Written6(), Written7(), Written10(), 3);
  }

  /** The as-written run from the snapshot after 5 dequeues. */
  lemma Written5Misses(g: Grid)
    requires g.hcells == 6 && g.vcells == 3
    ensures Misses(g, Written5(), Written10(), 5)
  {
    WrittenStep5(g);
    Written6Misses(g);
    MissesBack(g, Written5(), Written6(), Written10(), 4);
  }

  /** The as-written run from the snapshot after 4 dequeues. */
  lemma Written4Misses(g: Grid)
    requires g.hcells == 6 && g.vcells == 3
    ensures Misses(g, Written4(), Written10(), 6)
  {
    WrittenStep4(g);
    Written5Misses(g);
    MissesBack(g, Written4(), Written5(), Written10(), 5);
  }

  /** The as-written run from the snapshot after 3 dequeues. */
  lemma Written3Misses(g: Grid)
    requires g.hcells == 6 && g.vcells == 3
    ensures Misses(g, Written3(), Written10(), 7)
  {
    WrittenStep3(g);
    Written4Misses(g);
    MissesBack(g, Written3(), Written4(), Written10(), 6);
  }

  /** The as-written run from the snapshot after 2 dequeues. */
  lemma Written2Misses(g: Grid)
    requires g.hcells == 6 && g.vcells == 3
    ensures Misses(g, Written2(), Written10(), 8)
  {
    WrittenStep2(g);
    Written3Misses(g);
    MissesBack(g, Written2(), Written3(), Written10(), 7);
  }

  /** The as-written run from the snapshot after 1 dequeues. */
  lemma Written1Misses(g: Grid)
    requires g.hcells == 6 && g.vcells == 3
    ensures Misses(g, Written1(), Written10(), 9)
  {
    WrittenStep1(g);
    Written2Misses(g);
    MissesBack(g, Written1(), Written2(), Written10(), 8);
  }

  /** With the unlink as written the search never dequeues the goal, however long it runs;
      after 10 dequeues it stops with the snapshot Written10, whose queue is empty. */
  lemma AStarMissesGoalAsWritten(g: Grid, fuel: nat)
    requires g.hcells == 6 && g.vcells == 3
    ensures !Search(g, Start(), true, true, fuel).1
    ensures fuel >= 10 ==> Search(g, Start(), true, true, fuel) == (Written10(), false)
    ensures Written10().q == []
  {
    WrittenStep0(g);
    Written1Misses(g);
    MissesBack(g, Start(), Written1(), Written10(), 9);
    assert Misses(g, Start(), Written10(), 10);
  }

  /** The corrected run from the snapshot after 14 dequeues: the next dequeue takes the goal. */
  lemma Fixed14Finds(g: Grid)
    requires g.hcells == 6 && g.vcells == 3
    ensures Finds(g, Fixed14(), 1)
  {
    FixedStep14(g);
  }

  /** The corrected run from the snapshot after 13 dequeues. */
  lemma Fixed13Finds(g: Grid)
    requires g.hcells == 6 && g.vcells == 3
    ensures Finds(g, Fixed13(), 2)
  {
    FixedStep13(g);
    Fixed14Finds(g);
    FindsBack(g, Fixed13(), Fixed14(), 1);
  }

  /** The corrected run from the snapshot after 12 dequeues. */
  lemma Fixed12Finds(g: Grid)
    requires g.hcells == 6 && g.vcells == 3
    ensures Finds(g, Fixed12(), 3)
  {
    FixedStep12(g);
    Fixed13Finds(g);
    FindsBack(g, Fixed12(), Fixed13(), 2);
  }

  /** The corrected run from the snapshot after 11 dequeues. */
  lemma Fixed11Finds(g: Grid)
    requires g.hcells == 6 && g.vcells == 3
    ensures Finds(g, Fixed11(), 4)
  {
    FixedStep11(g);
    Fixed12Finds(g);
    FindsBack(g, Fixed11(), Fixed12(), 3);
  }

  /** The corrected run from the snapshot after 10 dequeues. */
  lemma Fixed10Finds(g: Grid)
    requires g.hcells == 6 && g.vcells == 3
    ensures Finds(g, Fixed10(), 5)
  {
    FixedStep10(g);
    Fixed11Finds(g);
    FindsBack(g, Fixed10(), Fixed11(), 4);
  }

  /** The corrected run from the snapshot after 9 dequeues. */
  lemma Fixed9Finds(g: Grid)
    requires g.hcells == 6 && g.vcells == 3
    ensures Finds(g, Fixed9(), 6)
  {
    FixedStep9(g);
    Fixed10Finds(g);
    FindsBack(g, Fixed9(), Fixed10(), 5);
  }

  /** The corrected run from the snapshot after 8 dequeues. */
  lemma Written8Finds(g: Grid)
    requires g.hcells == 6 && g.vcells == 3
    ensures Finds(g, Written8(), 7)
  {
    FixedStep8(g);
    Fixed9Finds(g);
    FindsBack(g, Written8(), Fixed9(), 6);
  }

  /** The corrected run from the snapshot after 7 dequeues. */
  lemma Written7Finds(g: Grid)
    requires g.hcells == 6 && g.vcells == 3
    ensures Finds(g, Written7(), 8)
  {
    FixedStep7(g);
    Written8Finds(g);
    FindsBack(g, Written7(), Written8(), 7);
  }

  /** The corrected run from the snapshot after 6 dequeues. */
  lemma Written6Finds(g: Grid)
    requires g.hcells == 6 && g.vcells == 3
    ensures Finds(g, Written6(), 9)
  {
    FixedStep6(g);
    Written7Finds(g);
    FindsBack(g, Written6(), Written7(), 8);
  }

  /** The corrected run from the snapshot after 5 dequeues. */
  lemma Written5Finds(g: Grid)
    requires g.hcells == 6 && g.vcells == 3
    ensures Finds(g, Written5(), 10)
  {
    FixedStep5(g);
    Written6Finds(g);
    FindsBack(g, Written5(), Written6(), 9);
  }

  /** The corrected run from the snapshot after 4 dequeues. */
  lemma Written4Finds(g: Grid)
    requires g.hcells == 6 && g.vcells == 3
    ensures Finds(g, Written4(), 11)
  {
    FixedStep4(g);
    Written5Finds(g);
    FindsBack(g, Written4(), Written5(), 10);
  }

  /** The corrected run from the snapshot after 3 dequeues. */
  lemma Written3Finds(g: Grid)
    requires g.hcells == 6 && g.vcells == 3
    ensures Finds(g, Written3(), 12)
  {
    FixedStep3(g);
    Written4Finds(g);
    FindsBack(g, Written3(), Written4(), 11);
  }

  /** The corrected run from the snapshot after 2 dequeues. */
  lemma Written2Finds(g: Grid)
    requires g.hcells == 6 && g.vcells == 3
    ensures Finds(g, Written2(), 13)
  {
    FixedStep2(g);
    Written3Finds(g);
    FindsBack(g, Written2(), Written3(), 12);
  }

  /** The corrected run from the snapshot after 1 dequeues. */
  lemma Written1Finds(g: Grid)
    requires g.hcells == 6 && g.vcells == 3
    ensures Finds(g, Written1(), 14)
  {
    FixedStep1(g);
    Written2Finds(g);
    FindsBack(g, Written1(), Written2(), 13);
  }

  /** With the corrected unlink the same search dequeues the goal within 15 dequeues: the
      goal is reachable, and the as-written search above misses it. */
  lemma AStarFindsGoalFixed(g: Grid, fuel: nat)
    requires g.hcells == 6 && g.vcells == 3 && fuel >= 15
    ensures Search(g, Start(), true, false, fuel).1
  {
    FixedStep0(g);
    Written1Finds(g);
    FindsBack(g, Start(), Written1(), 14);
    assert Finds(g, Start(), 15);
  }
}

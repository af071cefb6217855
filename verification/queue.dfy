/** The frontier queue of source/queue.hpp: a singly linked list with `front` and `rear`
    pointers, used as a FIFO (Dequeue) or as a selection queue (PriorityDequeue) under a
    comparator installed with SetCompareFunc. The node chain is modelled by the sequence of
    the nodes' data, front first. */
module Queues {
  import opened Base

  /** Comparators receive the memory the queued items point into as their first argument:
      the C++ comparator dereferences `Qitem::v`, which is live solver state. */
  type Compare<-Ctx, -T> = (Ctx, T, T) -> bool

  /** The running-minimum scan of PriorityDequeue: `t` walks the list, `m` is the running
      minimum and `p` the running minimum that `m` last replaced (-1 for nullptr). */
  function RunningMin<Ctx, T>(s: seq<T>, less: Compare<Ctx, T>, ctx: Ctx, t: nat, m: nat, p: int): (r: (nat, int))
    requires t <= |s| && m < |s| && m <= t && (0 < t ==> m < t) && -1 <= p <= m
    requires 0 < m ==> 0 <= p < m
    ensures r.0 < |s| && -1 <= r.1 <= r.0
    ensures 0 < r.0 ==> 0 <= r.1 < r.0
    decreases |s| - t
  {
    if t == |s| then (m, p)
    else if less(ctx, s[t], s[m]) then RunningMin(s, less, ctx, t + 1, t, m)
    else RunningMin(s, less, ctx, t + 1, m, p)
  }

  /** The list after PriorityDequeue's unlink, as written: when the minimum is neither the
      front nor the only node, the node after `p` -- the previous running minimum, not the
      list predecessor of `m` -- is relinked to the node after `m`. */
  function UnlinkAsWritten<T>(s: seq<T>, m: nat, p: int): seq<T>
    requires m < |s| && -1 <= p <= m
    requires 0 < m ==> 0 <= p < m
  {
    if |s| == 1 then []
    else if m == 0 then s[1..]
    else s[..p + 1] + s[m + 1..]
  }

  /** The list with exactly the node at `m` removed. */
  function RemoveAt<T>(s: seq<T>, m: nat): (r: seq<T>)
    requires m < |s|
    ensures |r| == |s| - 1
    ensures forall i :: 0 <= i < m ==> r[i] == s[i]
    ensures forall i :: m <= i < |r| ==> r[i] == s[i + 1]
  {
    s[..m] + s[m + 1..]
  }

  /** `m` is the first element of `s` whose key no other element undercuts. */
  ghost predicate IsFirstMin<T>(s: seq<T>, key: T -> int, m: nat)
  {
    m < |s| &&
    (forall j :: 0 <= j < |s| ==> key(s[m]) <= key(s[j])) &&
    (forall i :: 0 <= i < m ==> key(s[m]) < key(s[i]))
  }

  class Queue<T, Ctx> {
    /** items[0] is the datum of `front`, items[|items| - 1] that of `rear`. */
    var items: seq<T>
    var cmp: Option<Compare<Ctx, T>>

    constructor ()
      ensures items == [] && cmp == None
    {
      items := [];
      cmp := None;
    }

    /** Enqueue links a new node after `rear`; on an empty queue it becomes front and rear. */
    method Enqueue(s: T)
      modifies this
      ensures items == old(items) + [s]
      ensures old(items) == [] ==> items == [s]
      ensures cmp == old(cmp)
    {
      items := items + [s];
    }

    /** Dequeue asserts a non-empty queue and unlinks `front`. */
    method Dequeue() returns (r: T)
      requires items != []
      modifies this
      ensures r == old(items)[0] && items == old(items)[1..]
      ensures cmp == old(cmp)
    {
      r := items[0];
      items := items[1..];
    }

    /** The scan loop of PriorityDequeue over the pointers t, m and p. */
    method ScanForMin(ctx: Ctx) returns (m: nat, p: int)
      requires items != [] && cmp.Some?
      ensures (m, p) == RunningMin(items, cmp.value, ctx, 0, 0, -1)
      ensures m < |items| && -1 <= p <= m && (0 < m ==> 0 <= p < m)
    {
      var less := cmp.value;
      var t := 0;
      m, p := 0, -1;
      while t < |items|
        invariant 0 <= t <= |items| && m < |items| && m <= t && (0 < t ==> m < t) && -1 <= p <= m
        invariant 0 < m ==> 0 <= p < m
        invariant RunningMin(items, less, ctx, t, m, p) == RunningMin(items, less, ctx, 0, 0, -1)
      {
        if less(ctx, items[t], items[m]) {
          p := m;
          m := t;
        }
        t := t + 1;
      }
    }

    /** PriorityDequeue as written: returns the running minimum and unlinks it after `p`. */
    method PriorityDequeue(ctx: Ctx) returns (r: T)
      requires items != [] && cmp.Some?
      modifies this
      ensures var (m, p) := RunningMin(old(items), old(cmp).value, ctx, 0, 0, -1);
              r == old(items)[m] && items == UnlinkAsWritten(old(items), m, p)
      ensures cmp == old(cmp)
    {
      var m, p := ScanForMin(ctx);
      r := items[m];
      if |items| == 1 {
        items := [];
      } else if m == 0 {
        items := items[1..];
      } else if m == |items| - 1 {
        items := items[..p + 1];
      } else {
        items := items[..p + 1] + items[m + 1..];
      }
    }

    /** PriorityDequeue with the unlink done after the list predecessor of the minimum. */
    method PriorityDequeueFixed(ctx: Ctx) returns (r: T)
      requires items != [] && cmp.Some?
      modifies this
      ensures var (m, _) := RunningMin(old(items), old(cmp).value, ctx, 0, 0, -1);
              r == old(items)[m] && items == RemoveAt(old(items), m)
      ensures multiset(items) + multiset{r} == multiset(old(items))
      ensures cmp == old(cmp)
    {
      var m, _ := ScanForMin(ctx);
      r := items[m];
      assert items == items[..m] + [r] + items[m + 1..];
      items := RemoveAt(items, m);
    }

    method SetCompareFunc(f: Compare<Ctx, T>)
      modifies this
      ensures cmp == Some(f) && items == old(items)
    {
      cmp := Some(f);
    }

    predicate IsEmpty()
      reads this
    {
      |items| == 0
    }

    /** Clear unsets the comparator and dequeues until the queue is empty. */
    method Clear()
      modifies this
      ensures items == [] && cmp == None
    {
      cmp := None;
      while !IsEmpty()
        invariant cmp == None
        decreases |items|
      {
        var _ := Dequeue();
      }
    }
  }

  /** One more element seen: it becomes the first minimum exactly when it undercuts the old one. */
  lemma FirstMinExtends<T>(s: seq<T>, key: T -> int, t: nat, m: nat)
    requires t < |s| && IsFirstMin(s[..t], key, m)
    ensures key(s[t]) < key(s[m]) ==> IsFirstMin(s[..t + 1], key, t)
    ensures !(key(s[t]) < key(s[m])) ==> IsFirstMin(s[..t + 1], key, m)
  {
    assert s[..t + 1] == s[..t] + [s[t]];
  }

  /** With a comparator that orders by a key, the scan stops at the first element of least key. */
  lemma {:induction false} RunningMinIsFirstMin<Ctx, T>(s: seq<T>, less: Compare<Ctx, T>, ctx: Ctx, key: T -> int,
                                                       t: nat, m: nat, p: int)
    requires forall a, b :: less(ctx, a, b) == (key(a) < key(b))
    requires 0 < t <= |s| && m < t && -1 <= p <= m && (0 < m ==> 0 <= p < m)
    requires IsFirstMin(s[..t], key, m)
    ensures IsFirstMin(s, key, RunningMin(s, less, ctx, t, m, p).0)
    decreases |s| - t
  {
    if t == |s| {
      assert s[..t] == s;
    } else {
      FirstMinExtends(s, key, t, m);
      if less(ctx, s[t], s[m]) {
        RunningMinIsFirstMin(s, less, ctx, key, t + 1, t, m);
      } else {
        RunningMinIsFirstMin(s, less, ctx, key, t + 1, m, p);
      }
    }
  }

  /** What PriorityDequeue selects: for a key order, the first element no other element
      undercuts, i.e. no x with cmp(x, m), and every earlier element is undercut by it. */
  lemma SelectsFirstMinimum<Ctx, T>(s: seq<T>, less: Compare<Ctx, T>, ctx: Ctx, key: T -> int)
    requires s != []
    requires forall a, b :: less(ctx, a, b) == (key(a) < key(b))
    ensures var m := RunningMin(s, less, ctx, 0, 0, -1).0;
            (forall j :: 0 <= j < |s| ==> !less(ctx, s[j], s[m])) &&
            (forall i :: 0 <= i < m ==> less(ctx, s[m], s[i]))
  {
    var first := RunningMin(s, less, ctx, 1, 0, -1);
    assert !less(ctx, s[0], s[0]);
    assert RunningMin(s, less, ctx, 0, 0, -1) == first;
    assert IsFirstMin(s[..1], key, 0);
    RunningMinIsFirstMin(s, less, ctx, key, 1, 0, -1);
  }

  /** The as-written unlink is right when the minimum is the front or the only node, or when
      the previous running minimum happens to be the list predecessor of the minimum. */
  lemma UnlinkAsWrittenCorrectCases<T>(s: seq<T>, m: nat, p: int)
    requires m < |s| && -1 <= p <= m && (0 < m ==> 0 <= p < m)
    requires |s| == 1 || m == 0 || p == m - 1
    ensures UnlinkAsWritten(s, m, p) == RemoveAt(s, m)
  {
  }

  /** Otherwise the nodes strictly between `p` and `m` are dropped together with `m`. */
  lemma UnlinkAsWrittenDropsBetween<T>(s: seq<T>, m: nat, p: int)
    requires m < |s| && 0 <= p < m - 1
    ensures |UnlinkAsWritten(s, m, p)| == |s| - (m - p) < |s| - 1
    ensures multiset(UnlinkAsWritten(s, m, p)) + multiset(s[p + 1..m + 1]) == multiset(s)
  {
    assert s == s[..p + 1] + s[p + 1..m + 1] + s[m + 1..];
  }

  /** With priorities [5, 3, 9, 1] under `<`, PriorityDequeue returns 1 and leaves [5, 3]:
      9 is silently lost. */
  lemma PriorityDequeueLosesNine()
    ensures var less: Compare<(), int> := (_, a, b) => a < b;
            var s := [5, 3, 9, 1];
            var (m, p) := RunningMin(s, less, (), 0, 0, -1);
            s[m] == 1 && UnlinkAsWritten(s, m, p) == [5, 3] && RemoveAt(s, m) == [5, 3, 9]
  {
    var less: Compare<(), int> := (_, a, b) => a < b;
    var s := [5, 3, 9, 1];
    assert RunningMin(s, less, (), 4, 3, 1) == (3, 1);
    assert RunningMin(s, less, (), 3, 1, 0) == (3, 1);
    assert RunningMin(s, less, (), 2, 1, 0) == (3, 1);
    assert RunningMin(s, less, (), 1, 0, -1) == (3, 1);
    assert RunningMin(s, less, (), 0, 0, -1) == (3, 1);
    assert s[..2] == [5, 3];
  }
}

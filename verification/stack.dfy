/** The frame stack of source/stack.hpp: a singly linked list whose head is the top.
    The node chain is modelled by the sequence of the nodes' data, bottom first, so the
    last element is the node `top` points at. */
module Stacks {
  class Stack<T> {
    /** items[|items| - 1] is the datum of `top`; items == [] exactly when top == nullptr. */
    var items: seq<T>

    constructor ()
      ensures items == []
    {
      items := [];
    }

    /** Pushing allocates a node whose `next` is the old top. */
    method Push(s: T)
      modifies this
      ensures items == old(items) + [s]
      ensures Peek() == s
      ensures items[..|items| - 1] == old(items)
    {
      items := items + [s];
    }

    /** Pop asserts a non-empty stack, unlinks the top node and returns its datum. */
    method Pop() returns (r: T)
      requires items != []
      modifies this
      ensures r == old(items)[|old(items)| - 1]
      ensures items == old(items)[..|old(items)| - 1]
    {
      r := items[|items| - 1];
      items := items[..|items| - 1];
    }

    /** Reading through the reference Peek() hands out: the datum of the top node. */
    function Peek(): (r: T)
      requires items != []
      reads this
      ensures r in items && r == items[|items| - 1]
    {
      items[|items| - 1]
    }

    /** Writing through the reference Peek() hands out: only the top datum changes. */
    method SetTop(t: T)
      requires items != []
      modifies this
      ensures |items| == |old(items)|
      ensures items == old(items)[..|old(items)| - 1] + [t]
    {
      items := items[..|items| - 1] + [t];
    }

    predicate IsEmpty()
      reads this
    {
      |items| == 0
    }

    /** Clear pops until the stack is empty. */
    method Clear()
      modifies this
      ensures items == []
    {
      while !IsEmpty()
        decreases |items|
      {
        var _ := Pop();
      }
    }
  }

  /** Push followed by Pop gives back the pushed value and the prior contents: stated on the
      sequence that Push and Pop produce. */
  lemma {:induction false} PushPopRestores<T>(s: seq<T>, x: T)
    ensures (s + [x])[|s + [x]| - 1] == x
    ensures (s + [x])[..|s + [x]| - 1] == s
  {
    assert (s + [x])[..|s|] == s;
  }
}

/** The four-way choice lists both the maze generator's and the solver's depth-first frames
    carry: the directions L, R, B, T in an order drawn with RNG::Shuffle. */
module Choices {
  import opened Rng

  datatype Direction = L | R | B | T

  /** The order a fresh frame lists the directions in before shuffling. */
  const Unshuffled: seq<Direction> := [L, R, B, T]

  /** A choice list names each direction exactly once. */
  ghost predicate IsChoice(c: seq<Direction>)
  {
    |c| == 4 && multiset(c) == multiset(Unshuffled)
  }

  /** The four entries of a list are pairwise different directions. */
  predicate Distinct4(c: seq<Direction>)
  {
    |c| == 4 && c[0] != c[1] && c[0] != c[2] && c[0] != c[3] && c[1] != c[2] && c[1] != c[3] && c[2] != c[3]
  }

  /** A choice list names no direction twice. */
  lemma ChoiceNamesNoneTwice(c: seq<Direction>)
    requires IsChoice(c)
    ensures Distinct4(c)
  {
    ChoiceCount(c, c[0]);
    ChoiceCount(c, c[1]);
    ChoiceCount(c, c[2]);
  }

  /** Each direction occurs at exactly one of the four places of a choice list. */
  lemma ChoiceCount(c: seq<Direction>, x: Direction)
    requires IsChoice(c)
    ensures multiset{c[0]}[x] + multiset{c[1]}[x] + multiset{c[2]}[x] + multiset{c[3]}[x] == 1
  {
    assert multiset(c) == multiset{c[0]} + multiset{c[1]} + multiset{c[2]} + multiset{c[3]} by {
      assert c == [c[0]] + [c[1]] + [c[2]] + [c[3]];
    }
    UnshuffledOnce(x);
  }

  /** The unshuffled list names every direction once. */
  lemma UnshuffledOnce(x: Direction)
    ensures multiset(Unshuffled)[x] == 1
  {
    assert multiset(Unshuffled) == multiset{L} + multiset{R} + multiset{B} + multiset{T} by {
      assert Unshuffled == [L] + [R] + [B] + [T];
    }
  }

  /** Pigeonhole over the four directions: four different ones include every direction, so
      a list that names none twice names each of them once. */
  lemma DistinctCovers(c: seq<Direction>, x: Direction)
    requires Distinct4(c)
    ensures x == c[0] || x == c[1] || x == c[2] || x == c[3]
  {
    if x != c[0] && x != c[1] && x != c[2] {
      match x
      case L => assert c[3] == L;
      case R => assert c[3] == R;
      case B => assert c[3] == B;
      case T => assert c[3] == T;
    }
  }

  /** The choice list of a fresh frame: `choice = {L, R, B, T}` followed by
      `RNG::Shuffle(4, choice)`, which draws twice. */
  method ShuffledChoice(rng: Pcg32) returns (c: seq<Direction>)
    modifies rng
    ensures rng.inc == old(rng.inc)
    ensures IsChoice(c)
  {
    var a := new Direction[4];
    a[0], a[1], a[2], a[3] := L, R, B, T;
    assert a[..] == Unshuffled;
    Shuffle(rng, 4, a);
    c := a[..];
    ShuffleRunPermutes(Unshuffled, 3, old(rng.state), old(rng.inc));
  }
}

/** The random source of source/rng.cpp and source/rng.hpp: O'Neill's minimal PCG32
    (64-bit LCG state, XSH-RR output permutation), the process-wide generator behind
    RNG::Get, the ranged draw RNG::Get(l, h), and the in-place RNG::Shuffle. */
module Rng {
  import opened Base

  /** The initial value of the process-wide `RNG::rng`. */
  const SEED_STATE: bv64 := 123456789
  const SEED_INC: bv64 := 987654321

  /** The stream increment `inc | 1`, written as a test of the low bit. */
  function OddIncrement(inc: bv64): bv64
  {
    if inc & 1 == 0 then inc + 1 else inc
  }

  /** OddIncrement is the bitwise `inc | 1`: it is odd, and it changes inc at most in the
      low bit. */
  lemma OddIncrementIsOr(inc: bv64)
    ensures OddIncrement(inc) == inc | 1
    ensures OddIncrement(inc) & 1 == 1
  {
  }

  /** The LCG step `oldstate * 6364136223846793005 + (inc | 1)` in uint64_t arithmetic,
      that is modulo 2^64. */
  function NextState(state: bv64, inc: bv64): bv64
  {
    state * 6364136223846793005 + OddIncrement(inc)
  }

  /** `((oldstate >> 18) ^ oldstate) >> 27`, truncated to 32 bits by the assignment to uint32_t. */
  function XorShifted(prior: bv64): bv32
  {
    ((((prior >> 18) ^ prior) >> 27) & 0xFFFF_FFFF) as bv32
  }

  /** `oldstate >> 59`: the top five bits choose the rotation. */
  function Rotation(prior: bv64): (rot: bv32)
    ensures rot < 32
  {
    (prior >> 59) as bv32
  }

  /** The rotate idiom of the output step: `(x >> r) | (x << ((-r) & 31))`. */
  function RotateBy(x: bv32, r: bv32): bv32
    requires r < 32
  {
    (x >> r) | (x << ((-r) & 31))
  }

  /** The rotate idiom is a right rotation for the amounts 0 to 15, including 0 where
      both shifts are 0. */
  lemma RotateByRotatesRightLow(x: bv32, r: bv32)
    requires r < 16
    ensures RotateBy(x, r) == x.RotateRight(r as int)
  {
    if r == 0 {
      assert RotateBy(x, r) == x.RotateRight(0);
    } else if r == 1 {
      assert RotateBy(x, r) == x.RotateRight(1);
    } else if r == 2 {
      assert RotateBy(x, r) == x.RotateRight(2);
    } else if r == 3 {
      assert RotateBy(x, r) == x.RotateRight(3);
    } else if r == 4 {
      assert RotateBy(x, r) == x.RotateRight(4);
    } else if r == 5 {
      assert RotateBy(x, r) == x.RotateRight(5);
    } else if r == 6 {
      assert RotateBy(x, r) == x.RotateRight(6);
    } else if r == 7 {
      assert RotateBy(x, r) == x.RotateRight(7);
    } else if r == 8 {
      assert RotateBy(x, r) == x.RotateRight(8);
    } else if r == 9 {
      assert RotateBy(x, r) == x.RotateRight(9);
    } else if r == 10 {
      assert RotateBy(x, r) == x.RotateRight(10);
    } else if r == 11 {
      assert RotateBy(x, r) == x.RotateRight(11);
    } else if r == 12 {
      assert RotateBy(x, r) == x.RotateRight(12);
    } else if r == 13 {
      assert RotateBy(x, r) == x.RotateRight(13);
    } else if r == 14 {
      assert RotateBy(x, r) == x.RotateRight(14);
    } else if r == 15 {
      assert RotateBy(x, r) == x.RotateRight(15);
    }
  }

  /** The rotate idiom is a right rotation for the amounts 16 to 31. */
  lemma RotateByRotatesRightHigh(x: bv32, r: bv32)
    requires 16 <= r < 32
    ensures RotateBy(x, r) == x.RotateRight(r as int)
  {
    if r == 16 {
      assert RotateBy(x, r) == x.RotateRight(16);
    } else if r == 17 {
      assert RotateBy(x, r) == x.RotateRight(17);
    } else if r == 18 {
      assert RotateBy(x, r) == x.RotateRight(18);
    } else if r == 19 {
      assert RotateBy(x, r) == x.RotateRight(19);
    } else if r == 20 {
      assert RotateBy(x, r) == x.RotateRight(20);
    } else if r == 21 {
      assert RotateBy(x, r) == x.RotateRight(21);
    } else if r == 22 {
      assert RotateBy(x, r) == x.RotateRight(22);
    } else if r == 23 {
      assert RotateBy(x, r) == x.RotateRight(23);
    } else if r == 24 {
      assert RotateBy(x, r) == x.RotateRight(24);
    } else if r == 25 {
      assert RotateBy(x, r) == x.RotateRight(25);
    } else if r == 26 {
      assert RotateBy(x, r) == x.RotateRight(26);
    } else if r == 27 {
      assert RotateBy(x, r) == x.RotateRight(27);
    } else if r == 28 {
      assert RotateBy(x, r) == x.RotateRight(28);
    } else if r == 29 {
      assert RotateBy(x, r) == x.RotateRight(29);
    } else if r == 30 {
      assert RotateBy(x, r) == x.RotateRight(30);
    } else if r == 31 {
      assert RotateBy(x, r) == x.RotateRight(31);
    }
  }

  /** The rotate idiom `(x >> r) | (x << ((-r) & 31))` is a right rotation by r. */
  lemma RotateByRotatesRight(x: bv32, r: bv32)
    requires r < 32
    ensures RotateBy(x, r) == x.RotateRight(r as int)
  {
    if r < 16 {
      RotateByRotatesRightLow(x, r);
    } else {
      RotateByRotatesRightHigh(x, r);
    }
  }

  /** A 32-bit word read as an unsigned integer. */
  function Word(x: bv32): u32
  {
    x as int as u32
  }

  /** The XSH-RR output of `pcg32_random_r`: a function of the old state only. */
  function Output(prior: bv64): u32
  {
    Word(RotateBy(XorShifted(prior), Rotation(prior)))
  }

  /** The output is the xorshifted value rotated right by the top five bits of the old state. */
  lemma OutputRotatesRight(prior: bv64)
    ensures Output(prior) == Word(XorShifted(prior).RotateRight(Rotation(prior) as int))
  {
    RotateByRotatesRight(XorShifted(prior), Rotation(prior));
  }

  /** The state after k calls. */
  function Advance(state: bv64, inc: bv64, k: nat): bv64
    decreases k
  {
    if k == 0 then state else Advance(NextState(state, inc), inc, k - 1)
  }

  /** Runs compose: a run of a calls followed by b calls is a run of a + b calls. */
  lemma {:induction false} AdvanceAdd(state: bv64, inc: bv64, a: nat, b: nat)
    ensures Advance(Advance(state, inc, a), inc, b) == Advance(state, inc, a + b)
    decreases a
  {
    if a != 0 {
      AdvanceAdd(NextState(state, inc), inc, a - 1, b);
    }
  }

  /** One more call after k calls. */
  lemma {:induction false} AdvanceStep(state: bv64, inc: bv64, k: nat)
    ensures Advance(state, inc, k + 1) == NextState(Advance(state, inc, k), inc)
    decreases k
  {
    if k > 0 {
      AdvanceStep(NextState(state, inc), inc, k - 1);
    }
  }

  /** The outputs of the next k calls on a generator in `state`. */
  function Draws(state: bv64, inc: bv64, k: nat): (ds: seq<u32>)
    ensures |ds| == k
    decreases k
  {
    if k == 0 then [] else [Output(state)] + Draws(NextState(state, inc), inc, k - 1)
  }

  /** Replay splits: the next a + b outputs are the next a outputs followed by the b
      outputs of the generator a calls further on. */
  lemma {:induction false} DrawsSplit(state: bv64, inc: bv64, a: nat, b: nat)
    ensures Draws(state, inc, a + b) == Draws(state, inc, a) + Draws(Advance(state, inc, a), inc, b)
    decreases a
  {
    if a > 0 {
      DrawsSplit(NextState(state, inc), inc, a - 1, b);
    }
  }

  /** Call number j (counting from 0) returns the output of the state after j calls. */
  lemma {:induction false} DrawsAt(state: bv64, inc: bv64, k: nat, j: nat)
    requires j < k
    ensures Draws(state, inc, k)[j] == Output(Advance(state, inc, j))
    decreases j
  {
    if j > 0 {
      DrawsAt(NextState(state, inc), inc, k - 1, j - 1);
    }
  }

  /** `pcg32_random_t`. */
  class Pcg32 {
    var state: bv64
    var inc: bv64

    /** The process-wide generator `RNG::rng`, statically initialised. */
    constructor Seeded()
      ensures state == SEED_STATE && inc == SEED_INC
    {
      state := SEED_STATE;
      inc := SEED_INC;
    }
  }

  /** `pcg32_random_r`: advances the state and returns the output of the old state. */
  method Pcg32Random(rng: Pcg32) returns (r: u32)
    modifies rng
    ensures rng.state == NextState(old(rng.state), old(rng.inc)) && rng.inc == old(rng.inc)
    ensures r == Output(old(rng.state))
  {
    var oldstate := rng.state;
    rng.state := NextState(oldstate, rng.inc);
    var xorshifted := XorShifted(oldstate);
    var rot := Rotation(oldstate);
    r := Word(RotateBy(xorshifted, rot));
  }

  /** `RNG::Get()`: one call on the process-wide generator. */
  method Get(rng: Pcg32) returns (r: u32)
    modifies rng
    ensures rng.state == NextState(old(rng.state), old(rng.inc)) && rng.inc == old(rng.inc)
    ensures r == Output(old(rng.state))
  {
    r := Pcg32Random(rng);
  }

  function Min(a: int, b: int): int { if a <= b then a else b }
  function Max(a: int, b: int): int { if a <= b then b else a }

  /** The arithmetic of `RNG::Get(l, h)` on draw d: the bounds are swapped when l > h and
      the result is `l + d % (h - l + 1)` in unsigned (modulo 2^32) arithmetic. The span
      wraps to 0 only for the full range [0, UINT_MAX], where the division is undefined.
      Neither addition wraps otherwise: the result lies between the bounds. */
  function RangeDraw(l: u32, h: u32, d: u32): (r: u32)
    requires !(Min(l as int, h as int) == 0 && Max(l as int, h as int) == UINT_MAX)
    ensures Min(l as int, h as int) <= r as int <= Max(l as int, h as int)
    ensures r as int - Min(l as int, h as int) == d as int % (Max(l as int, h as int) - Min(l as int, h as int) + 1)
  {
    var lo := Min(l as int, h as int);
    var hi := Max(l as int, h as int);
    var span := (hi - lo + 1) % 0x1_0000_0000;
    assert span == hi - lo + 1 by {
      assert 0 < hi - lo + 1 < 0x1_0000_0000;
    }
    var offset := (d as int) % span;
    assert 0 <= offset < span;
    assert (lo + offset) % 0x1_0000_0000 == lo + offset by {
      assert 0 <= lo + offset <= hi <= UINT_MAX;
    }
    ((lo + offset) % 0x1_0000_0000) as u32
  }

  /** `RNG::Get(l, h)`. */
  method GetRange(rng: Pcg32, l: u32, h: u32) returns (r: u32)
    requires !(Min(l as int, h as int) == 0 && Max(l as int, h as int) == UINT_MAX)
    modifies rng
    ensures rng.state == NextState(old(rng.state), old(rng.inc)) && rng.inc == old(rng.inc)
    ensures r == RangeDraw(l, h, Output(old(rng.state)))
  {
    var x := Get(rng);
    r := RangeDraw(l, h, x);
  }

  /** `a` with the entries at i and j exchanged. */
  function Swap<T>(s: seq<T>, i: nat, j: nat): (r: seq<T>)
    requires i < |s| && j < |s|
    ensures |r| == |s|
  {
    s[i := s[j]][j := s[i]]
  }

  /** A swap exchanges the two entries, keeps every other one, and is a permutation. */
  lemma SwapPermutes<T>(s: seq<T>, i: nat, j: nat)
    requires i < |s| && j < |s|
    ensures Swap(s, i, j)[i] == s[j] && Swap(s, i, j)[j] == s[i]
    ensures forall k :: 0 <= k < |s| && k != i && k != j ==> Swap(s, i, j)[k] == s[k]
    ensures multiset(Swap(s, i, j)) == multiset(s)
  {
  }

  /** The number of iterations, and so of draws, of the shuffle loop that starts at
      index i and stops above 1. */
  function Iterations(i: nat): nat
  {
    if i >= 1 then i - 1 else 0
  }

  /** The iterations `i, i - 1, ..., 2` of RNG::Shuffle on `s`, given the draws in the order
      they are made: iteration i swaps s[i] with s[draw % i]. */
  function ShuffleWith<T>(s: seq<T>, i: nat, ds: seq<u32>): (r: seq<T>)
    requires i < |s| && |ds| == Iterations(i)
    decreases i
  {
    if i <= 1 then s
    else ShuffleWith(Swap(s, i, (ds[0] as int) % i), i - 1, ds[1..])
  }

  /** A shuffle permutes its input and leaves the entries above `i` in place. */
  lemma {:induction false} ShuffleWithPermutes<T>(s: seq<T>, i: nat, ds: seq<u32>)
    requires i < |s| && |ds| == Iterations(i)
    ensures |ShuffleWith(s, i, ds)| == |s|
    ensures multiset(ShuffleWith(s, i, ds)) == multiset(s)
    ensures forall k :: i < k < |s| ==> ShuffleWith(s, i, ds)[k] == s[k]
    decreases i
  {
    if i > 1 {
      SwapPermutes(s, i, (ds[0] as int) % i);
      ShuffleWithPermutes(Swap(s, i, (ds[0] as int) % i), i - 1, ds[1..]);
    }
  }

  /** With one or two entries the loop never runs: nothing moves. */
  lemma ShuffleShortIsIdentity<T>(s: seq<T>, n: nat)
    requires 1 <= n <= 2 && n <= |s|
    ensures ShuffleWith(s, n - 1, []) == s
  {
  }

  /** For three or more entries the last one always moves: iteration n - 1 swaps it with
      an index below n - 1, and the later iterations stay below that index. */
  lemma ShuffleMovesLast<T>(s: seq<T>, n: nat, ds: seq<u32>)
    requires 3 <= n <= |s| && |ds| == Iterations(n - 1)
    ensures |ShuffleWith(s, n - 1, ds)| == |s|
    ensures exists j :: 0 <= j < n - 1 && ShuffleWith(s, n - 1, ds)[n - 1] == s[j]
  {
    var r := (ds[0] as int) % (n - 1);
    var t := Swap(s, n - 1, r);
    SwapPermutes(s, n - 1, r);
    ShuffleWithPermutes(t, n - 2, ds[1..]);
    assert ShuffleWith(s, n - 1, ds)[n - 1] == t[n - 1] == s[r];
  }

  /** The shuffle loop from index i on a generator in `state`: the shuffled sequence and
      the generator state afterwards. */
  function ShuffleRun<T>(s: seq<T>, i: nat, state: bv64, inc: bv64): (seq<T>, bv64)
    requires i < |s|
    decreases i
  {
    if i <= 1 then (s, state)
    else ShuffleRun(Swap(s, i, (Output(state) as int) % i), i - 1, NextState(state, inc), inc)
  }

  /** The loop from index i makes Iterations(i) draws, uses them in the order they are
      made, and leaves the generator that many calls further on. */
  lemma {:induction false} ShuffleRunDraws<T>(s: seq<T>, i: nat, state: bv64, inc: bv64)
    requires i < |s|
    ensures ShuffleRun(s, i, state, inc)
            == (ShuffleWith(s, i, Draws(state, inc, Iterations(i))), Advance(state, inc, Iterations(i)))
    decreases i
  {
    if i > 1 {
      var ds := Draws(state, inc, Iterations(i));
      assert ds[0] == Output(state) && ds[1..] == Draws(NextState(state, inc), inc, Iterations(i - 1));
      ShuffleRunDraws(Swap(s, i, (Output(state) as int) % i), i - 1, NextState(state, inc), inc);
    }
  }

  /** Whatever the generator state, the shuffle loop permutes its input, keeps the entries
      above `i`, and leaves the generator Iterations(i) calls further on. */
  lemma ShuffleRunPermutes<T>(s: seq<T>, i: nat, state: bv64, inc: bv64)
    requires i < |s|
    ensures |ShuffleRun(s, i, state, inc).0| == |s|
    ensures multiset(ShuffleRun(s, i, state, inc).0) == multiset(s)
    ensures forall k :: i < k < |s| ==> ShuffleRun(s, i, state, inc).0[k] == s[k]
    ensures ShuffleRun(s, i, state, inc).1 == Advance(state, inc, Iterations(i))
  {
    ShuffleRunDraws(s, i, state, inc);
    ShuffleWithPermutes(s, i, Draws(state, inc, Iterations(i)));
  }

  /** One iteration of RNG::Shuffle at index i >= 2: one draw, one swap. */
  method ShuffleIteration<T>(rng: Pcg32, a: array<T>, i: nat)
    requires 1 < i < a.Length
    modifies rng, a
    ensures rng.inc == old(rng.inc)
    ensures ShuffleRun(old(a[..]), i, old(rng.state), rng.inc) == ShuffleRun(a[..], i - 1, rng.state, rng.inc)
  {
    ghost var s := a[..];
    var d := Get(rng);
    var r := (d as int) % i;
    a[i], a[r] := a[r], a[i];
    assert a[..] == Swap(s, i, r);
  }

  /** `RNG::Shuffle(n, a)`: for i from n - 1 down to 2 swap a[i] with a[Get() % i]. The
      unsigned `n - 1` wraps for n == 0, so n >= 1 is required. */
  method Shuffle<T>(rng: Pcg32, n: nat, a: array<T>)
    requires 1 <= n <= a.Length
    modifies rng, a
    ensures (a[..], rng.state) == ShuffleRun(old(a[..]), n - 1, old(rng.state), old(rng.inc))
    ensures rng.inc == old(rng.inc)
  {
    ghost var inc0 := rng.inc;
    ghost var target := ShuffleRun(a[..], n - 1, rng.state, inc0);
    var i := n - 1;
    while i > 1
      invariant i < n
      invariant rng.inc == inc0
      invariant ShuffleRun(a[..], i, rng.state, inc0) == target
    {
      ShuffleIteration(rng, a, i);
      i := i - 1;
    }
  }
}

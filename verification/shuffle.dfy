/**
 * The backward Fisher-Yates shuffle of `generateGrid`: for `i` from the last
 * index down to 1, draw from the seeded stream and swap position `i` with
 * `j = Math.floor(draw * (i + 1))`.
 */
module Shuffle {
  import opened Random

  /** Exchange the entries at `i` and `j`. */
  function Swap<T>(s: seq<T>, i: nat, j: nat): (t: seq<T>)
    requires i < |s| && j < |s|
    ensures |t| == |s|
  {
    s[i := s[j]][j := s[i]]
  }

  /** Swapping two entries keeps the multiset of entries. */
  lemma SwapPermutes<T>(s: seq<T>, i: nat, j: nat)
    requires i < |s| && j < |s|
    ensures multiset(Swap(s, i, j)) == multiset(s)
  {
  }

  /** The swap partner of position `i` once the stream has moved to `state`: always in [0, i]. */
  function SwapIndex(state: nat, i: nat): (j: nat)
    requires state < Modulus
    ensures j <= i
  {
    Pick(Value(state), i + 1)
  }

  /**
   * The loop from position `i` down to 1, starting from stream state `state`;
   * it returns the shuffled sequence and the stream state it leaves behind.
   */
  function ShuffleDown<T>(s: seq<T>, i: nat, state: nat): (r: (seq<T>, nat))
    requires i < |s|
    ensures |r.0| == |s|
    ensures r.0[i + 1..] == s[i + 1..]
    ensures i > 0 ==> r.1 < Modulus
    decreases i
  {
    if i == 0 then (s, state)
    else
      var next := Next(state);
      ShuffleDown(Swap(s, i, SwapIndex(next, i)), i - 1, next)
  }

  /** The whole shuffle of `s` from `seed`: the permuted sequence and the final state. */
  function FisherYates<T>(s: seq<T>, seed: nat): (r: (seq<T>, nat))
    ensures |r.0| == |s|
    ensures |s| > 1 ==> r.1 < Modulus
  {
    if |s| == 0 then (s, seed) else ShuffleDown(s, |s| - 1, seed)
  }

  lemma {:induction false} ShuffleDownPermutes<T>(s: seq<T>, i: nat, state: nat)
    requires i < |s|
    ensures multiset(ShuffleDown(s, i, state).0) == multiset(s)
    decreases i
  {
    if i > 0 {
      var next := Next(state);
      var j := SwapIndex(next, i);
      SwapPermutes(s, i, j);
      ShuffleDownPermutes(Swap(s, i, j), i - 1, next);
    }
  }

  /** The shuffle is a permutation: every tag keeps its number of occurrences. */
  lemma FisherYatesPermutes<T>(s: seq<T>, seed: nat)
    ensures multiset(FisherYates(s, seed).0) == multiset(s)
  {
    if |s| > 0 {
      ShuffleDownPermutes(s, |s| - 1, seed);
    }
  }

  /** Seeds equal modulo 233280 give the same permutation, and states equal modulo 233280. */
  lemma {:induction false} ShuffleDownModulo<T>(s: seq<T>, i: nat, a: nat, b: nat)
    requires i < |s|
    requires a % Modulus == b % Modulus
    ensures ShuffleDown(s, i, a).0 == ShuffleDown(s, i, b).0
    ensures ShuffleDown(s, i, a).1 % Modulus == ShuffleDown(s, i, b).1 % Modulus
    decreases i
  {
    if i > 0 {
      NextModulo(a, b);
      var next := Next(a);
      ShuffleDownModulo(Swap(s, i, SwapIndex(next, i)), i - 1, next, next);
    }
  }

  /**
   * The shuffle loop as `generateGrid` runs it: the tags are copied into an
   * array, which the loop swaps in place, and the array's final contents are
   * returned with the stream state the loop leaves behind.
   */
  method ShuffleInPlace<T>(s: seq<T>, seed: nat) returns (shuffled: seq<T>, state: nat)
    ensures (shuffled, state) == FisherYates(s, seed)
    ensures multiset(shuffled) == multiset(s)
  {
    state := seed;
    if |s| == 0 {
      return s, state;
    }
    var tiles := new T[|s|](k requires 0 <= k < |s| => s[k]);
    assert tiles[..] == s;
    var i := |s| - 1;
    while i > 0
      invariant 0 <= i < tiles.Length == |s|
      invariant ShuffleDown(tiles[..], i, state) == FisherYates(s, seed)
    {
      state := Next(state);
      var j := SwapIndex(state, i);
      ghost var before := tiles[..];
      tiles[i], tiles[j] := tiles[j], tiles[i];
      assert tiles[..] == Swap(before, i, j);
      i := i - 1;
    }
    shuffled := tiles[..];
    FisherYatesPermutes(s, seed);
  }
}

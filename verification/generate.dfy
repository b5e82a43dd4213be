/**
 * `generateGrid`: lay out the tag list by the fixed proportions, shuffle it
 * with the seeded stream, then draw each tile's payout factor from the same
 * stream, continuing where the shuffle left it.
 */
module Generate {
  import opened Random
  import opened Tiles
  import opened Shuffle

  /** The payout factor range each kind is drawn from. */
  predicate InRange(k: Kind, f: real)
  {
    match k
    case Soul => 1.1 <= f < 3.0
    case Golden => 4.0 <= f < 6.0
    case Cursed => 0.5 <= f < 0.8
    case Mystery => (2.0 <= f < 5.0) || (0.3 <= f < 0.7)
    case Reaper => f == 1.0
    case Neutral => f == 1.0
  }

  /**
   * The factor of one tile of kind `k`, drawn from stream state `state`, and
   * the state after the draws. A mystery tile draws twice: first the branch,
   * then the magnitude.
   */
  function Payout(k: Kind, state: nat): (r: (real, nat))
    ensures InRange(k, r.0)
    ensures r.1 < Modulus || r.1 == state
    ensures k == Mystery ==> (r.0 > 1.0 <==> Value(Next(state)) < 0.5)
  {
    match k
    case Soul => var s := Next(state); (1.1 + Value(s) * 1.9, s)
    case Golden => var s := Next(state); (4.0 + Value(s) * 2.0, s)
    case Cursed => var s := Next(state); (0.5 + Value(s) * 0.3, s)
    case Mystery =>
      var branch := Next(state);
      var magnitude := Next(branch);
      if Value(branch) < 0.5 then (2.0 + Value(magnitude) * 3.0, magnitude)
      else (0.3 + Value(magnitude) * 0.4, magnitude)
    case Reaper => (1.0, state)
    case Neutral => (1.0, state)
  }

  /** The `tiles.map(...)` step: one unrevealed tile per tag, factors drawn left to right. */
  function Payouts(tags: seq<Kind>, state: nat): (r: (seq<Tile>, nat))
    ensures |r.0| == |tags|
    ensures forall i :: 0 <= i < |tags| ==>
      r.0[i].kind == tags[i] && !r.0[i].revealed && InRange(tags[i], r.0[i].factor)
    decreases |tags|
  {
    if |tags| == 0 then ([], state)
    else
      var head := Payout(tags[0], state);
      var rest := Payouts(tags[1..], head.1);
      ([Tile(tags[0], false, head.0)] + rest.0, rest.1)
  }

  /** The grid of a `size` x `size` round generated from `seed`. */
  function GenerateGrid(size: nat, seed: nat): (grid: seq<Tile>)
    ensures |grid| == size * size
    ensures forall i :: 0 <= i < |grid| ==> !grid[i].revealed && InRange(grid[i].kind, grid[i].factor)
    ensures forall k :: multiset(Kinds(grid))[k] == CountFor(size * size, k)
  {
    var tags := Tags(size * size);
    var shuffled := FisherYates(tags, seed);
    var grid := Payouts(shuffled.0, shuffled.1).0;
    TagsCensus(size * size);
    FisherYatesPermutes(tags, seed);
    assert Kinds(grid) == shuffled.0;
    grid
  }

  lemma PayoutModulo(k: Kind, a: nat, b: nat)
    requires a % Modulus == b % Modulus
    ensures Payout(k, a).0 == Payout(k, b).0
    ensures Payout(k, a).1 % Modulus == Payout(k, b).1 % Modulus
  {
    NextModulo(a, b);
  }

  lemma {:induction false} PayoutsModulo(tags: seq<Kind>, a: nat, b: nat)
    requires a % Modulus == b % Modulus
    ensures Payouts(tags, a).0 == Payouts(tags, b).0
    decreases |tags|
  {
    if |tags| > 0 {
      PayoutModulo(tags[0], a, b);
      PayoutsModulo(tags[1..], Payout(tags[0], a).1, Payout(tags[0], b).1);
    }
  }

  /**
   * The grid depends on the seed only modulo 233280: seeds that agree there,
   * in particular equal seeds, give the same kinds and factors in the same order.
   */
  lemma SameSeedSameGrid(size: nat, a: nat, b: nat)
    requires a % Modulus == b % Modulus
    ensures GenerateGrid(size, a) == GenerateGrid(size, b)
  {
    var tags := Tags(size * size);
    var x, y := FisherYates(tags, a), FisherYates(tags, b);
    if |tags| > 0 {
      ShuffleDownModulo(tags, |tags| - 1, a, b);
    }
    assert x.0 == y.0 && x.1 % Modulus == y.1 % Modulus;
    PayoutsModulo(x.0, x.1, y.1);
  }
}

/**
 * Tiles of the grid and the fixed proportions `generateGrid` fills it with:
 * 20% reapers, 35% souls and 5% each of golden souls, cursed tiles and
 * mystery tiles, each rounded down, with neutral tiles taking the remainder.
 */
module Tiles {

  /** The `type` string of a tile, as a closed enumeration. */
  datatype Kind = Reaper | Soul | Golden | Cursed | Mystery | Neutral

  /** A grid cell: its kind, whether it has been revealed, and its payout factor. */
  datatype Tile = Tile(kind: Kind, revealed: bool, factor: real)

  /** The fraction of the grid each non-neutral kind is given. */
  function Proportion(k: Kind): real
  {
    match k
    case Reaper => 0.2
    case Soul => 0.35
    case Golden => 0.05
    case Cursed => 0.05
    case Mystery => 0.05
    case Neutral => 0.0
  }

  /** The number of tiles of kind `k` in a grid of `n` tiles. */
  function CountFor(n: nat, k: Kind): (c: nat)
    ensures c <= n
  {
    match k
    case Reaper => n / 5
    case Soul => n * 7 / 20
    case Golden => n / 20
    case Cursed => n / 20
    case Mystery => n / 20
    case Neutral => n - (n / 5 + n * 7 / 20 + 3 * (n / 20))
  }

  /** Every non-neutral count is `Math.floor(n * proportion)`, taken over exact rationals. */
  lemma CountsAreProportions(n: nat, k: Kind)
    requires k != Neutral
    ensures CountFor(n, k) == (n as real * Proportion(k)).Floor
  {
    var c := CountFor(n, k);
    var d := if k == Reaper then 5 else 20;
    var m := if k == Soul then 7 else 1;
    assert c == n * m / d;
    assert n as real * Proportion(k) == (n * m) as real / d as real;
    FloorOfQuotient(n * m, d);
  }

  /** Integer division is the floor of real division. */
  lemma FloorOfQuotient(a: nat, d: nat)
    requires d > 0
    ensures (a as real / d as real).Floor == a / d
  {
    var q, r := a / d, a % d;
    assert a == q * d + r;
    assert a as real / d as real == q as real + r as real / d as real;
  }

  /** `n` copies of one kind, as `Array(n).fill(kind)` builds them. */
  function Repeat(k: Kind, n: nat): (s: seq<Kind>)
    ensures |s| == n
    ensures forall i :: 0 <= i < n ==> s[i] == k
  {
    seq(n, _ => k)
  }

  /** The tag list before shuffling: each kind in catalogue order, `CountFor` times. */
  function Tags(n: nat): (t: seq<Kind>)
    ensures |t| == n
  {
    CountsSum(n);
    Layout(CountFor(n, Reaper), CountFor(n, Soul), CountFor(n, Golden),
           CountFor(n, Cursed), CountFor(n, Mystery), CountFor(n, Neutral))
  }

  /** The six runs of `generateGrid`'s tile array, for any six counts. */
  function Layout(r: nat, s: nat, g: nat, c: nat, m: nat, z: nat): seq<Kind>
  {
    Repeat(Reaper, r) + Repeat(Soul, s) + Repeat(Golden, g)
    + Repeat(Cursed, c) + Repeat(Mystery, m) + Repeat(Neutral, z)
  }

  lemma RepeatCensus(k: Kind, n: nat)
    ensures multiset(Repeat(k, n)) == multiset{}[k := n]
  {
    if n > 0 {
      assert Repeat(k, n) == Repeat(k, n - 1) + [k];
      RepeatCensus(k, n - 1);
    }
  }

  lemma LayoutCensus(r: nat, s: nat, g: nat, c: nat, m: nat, z: nat)
    ensures var t := multiset(Layout(r, s, g, c, m, z));
      t[Reaper] == r && t[Soul] == s && t[Golden] == g && t[Cursed] == c && t[Mystery] == m && t[Neutral] == z
  {
    RepeatCensus(Reaper, r);
    RepeatCensus(Soul, s);
    RepeatCensus(Golden, g);
    RepeatCensus(Cursed, c);
    RepeatCensus(Mystery, m);
    RepeatCensus(Neutral, z);
    var t := multiset(Layout(r, s, g, c, m, z));
    assert t == multiset{}[Reaper := r] + multiset{}[Soul := s] + multiset{}[Golden := g]
              + multiset{}[Cursed := c] + multiset{}[Mystery := m] + multiset{}[Neutral := z];
  }

  /** The six counts add up to the grid size. */
  lemma CountsSum(n: nat)
    ensures CountFor(n, Reaper) + CountFor(n, Soul) + CountFor(n, Golden)
          + CountFor(n, Cursed) + CountFor(n, Mystery) + CountFor(n, Neutral) == n
  {
  }

  /** The tag list has `n` entries, and exactly `CountFor(n, k)` of kind `k`. */
  lemma TagsCensus(n: nat)
    ensures |Tags(n)| == n
    ensures forall k :: multiset(Tags(n))[k] == CountFor(n, k)
  {
    CountsSum(n);
    LayoutCensus(CountFor(n, Reaper), CountFor(n, Soul), CountFor(n, Golden),
                 CountFor(n, Cursed), CountFor(n, Mystery), CountFor(n, Neutral));
    forall k ensures multiset(Tags(n))[k] == CountFor(n, k) {
      match k
      case Reaper =>
      case Soul =>
      case Golden =>
      case Cursed =>
      case Mystery =>
      case Neutral =>
    }
  }

  /** The kinds of a sequence of tiles, position by position. */
  function Kinds(grid: seq<Tile>): (ks: seq<Kind>)
    ensures |ks| == |grid|
    ensures forall i :: 0 <= i < |grid| ==> ks[i] == grid[i].kind
  {
    seq(|grid|, i requires 0 <= i < |grid| => grid[i].kind)
  }
}

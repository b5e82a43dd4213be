/**
 * The three consumable powerups: `shield` blocks the next reaper, `reveal`
 * hints at safe tiles, `boost` multiplies the multiplier by 1.5. Counts are
 * plain integers because they are restored from storage as they were saved.
 */
module Powerups {
  import opened Random

  datatype Kind = Shield | Reveal | Boost

  /** The `powerups` object: one counter per kind (`hints` is the `reveal` counter). */
  datatype Counts = Counts(shields: int, hints: int, boosts: int)
  {
    function Get(k: Kind): int
    {
      match k
      case Shield => shields
      case Reveal => hints
      case Boost => boosts
    }

    /** The counters with the one for `k` moved by `delta` and the others kept. */
    function Add(k: Kind, delta: int): (c: Counts)
      ensures c.Get(k) == Get(k) + delta
      ensures forall other :: other != k ==> c.Get(other) == Get(other)
    {
      match k
      case Shield => Counts(shields + delta, hints, boosts)
      case Reveal => Counts(shields, hints + delta, boosts)
      case Boost => Counts(shields, hints, boosts + delta)
    }

    function Total(): int
    {
      shields + hints + boosts
    }

    predicate NonNegative()
    {
      shields >= 0 && hints >= 0 && boosts >= 0
    }
  }

  /** `types[Math.floor(Math.random() * types.length)]` over `['shield', 'reveal', 'boost']`. */
  function KindOf(r: Chance): Kind
  {
    var i := Pick(r, 3);
    if i == 0 then Shield else if i == 1 then Reveal else Boost
  }

  /** Each kind is chosen on its own third of the unit interval. */
  lemma KindOfThirds(r: Chance)
    ensures KindOf(r) == Shield <==> r < 1.0 / 3.0
    ensures KindOf(r) == Reveal <==> 1.0 / 3.0 <= r < 2.0 / 3.0
    ensures KindOf(r) == Boost <==> 2.0 / 3.0 <= r
  {
    var i := Pick(r, 3);
    assert i as real <= r * 3.0 < i as real + 1.0;
  }

  /** `earnPowerup`: exactly one counter, the drawn one, rises by one. */
  function Earn(c: Counts, r: Chance): (e: Counts)
    ensures e.Get(KindOf(r)) == c.Get(KindOf(r)) + 1
    ensures forall k :: k != KindOf(r) ==> e.Get(k) == c.Get(k)
    ensures e.Total() == c.Total() + 1
    ensures c.NonNegative() ==> e.NonNegative()
  {
    c.Add(KindOf(r), 1)
  }
}

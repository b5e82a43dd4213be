/**
 * `checkAchievements`: walk the fixed catalogue, and for every id not yet
 * unlocked whose condition now holds, append it and award one random powerup.
 * `golden_soul` and `shield_save` have no condition in the source, so they
 * never unlock; `big_win` and `huge_win` test the lifetime winnings.
 */
module Achievements {
  import opened Random
  import opened Sequences
  import Powerups

  datatype Id =
    | FirstWin | BigWin | HugeWin | Combo5 | Combo10 | Multiplier10
    | Multiplier50 | Streak7 | Games10 | Games50 | GoldenSoul | ShieldSave

  /** The position the catalogue walk starts from. */
  const First: nat := 0

  /** The number of entries in the `ACHIEVEMENTS` catalogue. */
  const Size: nat := 12

  /**
   * The `ACHIEVEMENTS` catalogue, in its declared order: the entry at position
   * `i`. The two entries the condition switch has no case for close it.
   */
  function At(i: nat): (id: Id)
    requires i < Size
  {
    match i
    case 0 => FirstWin
    case 1 => BigWin
    case 2 => HugeWin
    case 3 => Combo5
    case 4 => Combo10
    case 5 => Multiplier10
    case 6 => Multiplier50
    case 7 => Streak7
    case 8 => Games10
    case 9 => Games50
    case 10 => GoldenSoul
    case _ => ShieldSave
  }

  /** Where `id` sits in the catalogue: every id is listed, exactly once. */
  function Position(id: Id): (i: nat)
    ensures i < Size && At(i) == id
  {
    match id
    case FirstWin => 0
    case BigWin => 1
    case HugeWin => 2
    case Combo5 => 3
    case Combo10 => 4
    case Multiplier10 => 5
    case Multiplier50 => 6
    case Streak7 => 7
    case Games10 => 8
    case Games50 => 9
    case GoldenSoul => 10
    case ShieldSave => 11
  }

  lemma PositionOfAt(i: nat)
    requires i < Size
    ensures Position(At(i)) == i
  {
  }

  /** The lifetime figures the conditions read. */
  datatype Progress = Progress(
    totalWinnings: real, maxCombo: nat, highestMultiplier: real, streak: nat, gamesPlayed: nat)

  /**
   * The `switch` of `checkAchievements`: whether `id`'s condition holds. It has
   * no case for `golden_soul` or `shield_save`, so those never hold.
   */
  predicate Met(id: Id, p: Progress)
  {
    match id
    case FirstWin => p.totalWinnings > 0.0
    case BigWin => p.totalWinnings >= 50.0
    case HugeWin => p.totalWinnings >= 100.0
    case Combo5 => p.maxCombo >= 5
    case Combo10 => p.maxCombo >= 10
    case Multiplier10 => p.highestMultiplier >= 10.0
    case Multiplier50 => p.highestMultiplier >= 50.0
    case Streak7 => p.streak >= 7
    case Games10 => p.gamesPlayed >= 10
    case Games50 => p.gamesPlayed >= 50
    case GoldenSoul => false
    case ShieldSave => false
  }

  /** The two catalogue entries without a case in the switch never unlock. */
  lemma NeverMet(p: Progress)
    ensures !Met(GoldenSoul, p) && !Met(ShieldSave, p)
  {
  }

  /** Figures `q` at least as large as `p` in every component the conditions read. */
  predicate AtLeast(q: Progress, p: Progress)
  {
    && q.totalWinnings >= p.totalWinnings && q.maxCombo >= p.maxCombo
    && q.highestMultiplier >= p.highestMultiplier && q.streak >= p.streak && q.gamesPlayed >= p.gamesPlayed
  }

  /** Every condition is a lower bound, so larger figures keep it met. */
  lemma MetMonotone(id: Id, p: Progress, q: Progress)
    requires AtLeast(q, p) && Met(id, p)
    ensures Met(id, q)
  {
  }

  /** The catalogue entries from position `i` on that are not in `have` and whose condition holds, in order. */
  function Due(i: nat, have: seq<Id>, p: Progress): seq<Id>
    decreases Size - i
  {
    if i >= Size then []
    else (if At(i) !in have && Met(At(i), p) then [At(i)] else []) + Due(i + 1, have, p)
  }

  /** An id is due from `i` on exactly when it sits at `i` or later, is not unlocked and its condition holds. */
  lemma {:induction false} DueMembers(i: nat, have: seq<Id>, p: Progress)
    ensures forall id :: id in Due(i, have, p) <==> i <= Position(id) && id !in have && Met(id, p)
    decreases Size - i
  {
    if i < Size {
      PositionOfAt(i);
      DueMembers(i + 1, have, p);
    }
  }

  /** `earnPowerup` `n` times, the j-th time drawing its kind from `kinds(k + j)`. */
  function Rewards(counts: Powerups.Counts, kinds: nat -> Chance, k: nat, n: nat): (r: Powerups.Counts)
    ensures r.Total() == counts.Total() + n
    ensures counts.NonNegative() ==> r.NonNegative()
    decreases n
  {
    if n == 0 then counts else Rewards(Powerups.Earn(counts, kinds(k)), kinds, k + 1, n - 1)
  }

  /**
   * The `forEach` over the catalogue from position `i`: an entry not yet
   * unlocked whose condition holds is pushed at once and earns a powerup
   * whose kind is drawn from `kinds(k)`, `k` counting the rewards so far.
   */
  function Walk(i: nat, have: seq<Id>, counts: Powerups.Counts, p: Progress,
                kinds: nat -> Chance, k: nat): (r: (seq<Id>, Powerups.Counts))
    ensures have <= r.0
    ensures r.1.Total() == counts.Total() + (|r.0| - |have|)
    decreases Size - i
  {
    if i >= Size then (have, counts)
    else if At(i) !in have && Met(At(i), p) then
      Walk(i + 1, have + [At(i)], Powerups.Earn(counts, kinds(k)), p, kinds, k + 1)
    else
      Walk(i + 1, have, counts, p, kinds, k)
  }

  /** An id placed before position `i` does not change which entries from `i` on are due. */
  lemma {:induction false} DueSame(i: nat, have: seq<Id>, id: Id, p: Progress)
    requires Position(id) < i
    ensures Due(i, have + [id], p) == Due(i, have, p)
    decreases Size - i
  {
    if i < Size {
      PositionOfAt(i);
      DueSame(i + 1, have, id, p);
    }
  }

  /**
   * Pushing during the walk never changes a later decision, so the walk
   * appends exactly the due entries and earns one reward for each, in order.
   */
  lemma {:induction false} WalkIsDue(i: nat, have: seq<Id>, counts: Powerups.Counts, p: Progress,
                                     kinds: nat -> Chance, k: nat)
    ensures Walk(i, have, counts, p, kinds, k).0 == have + Due(i, have, p)
    ensures Walk(i, have, counts, p, kinds, k).1 == Rewards(counts, kinds, k, |Due(i, have, p)|)
    decreases Size - i, 1
  {
    if i >= Size {
      assert have + [] == have;
    } else if At(i) !in have && Met(At(i), p) {
      WalkPush(i, have, counts, p, kinds, k);
    } else {
      WalkSkip(i, have, counts, p, kinds, k);
    }
  }

  /** The step of `WalkIsDue` where entry `i` is not due and the walk moves on. */
  lemma {:induction false} WalkSkip(i: nat, have: seq<Id>, counts: Powerups.Counts, p: Progress,
                                    kinds: nat -> Chance, k: nat)
    requires i < Size && !(At(i) !in have && Met(At(i), p))
    ensures Walk(i, have, counts, p, kinds, k).0 == have + Due(i, have, p)
    ensures Walk(i, have, counts, p, kinds, k).1 == Rewards(counts, kinds, k, |Due(i, have, p)|)
    decreases Size - i, 0
  {
    WalkIsDue(i + 1, have, counts, p, kinds, k);
    assert Due(i, have, p) == [] + Due(i + 1, have, p) == Due(i + 1, have, p);
    assert Walk(i, have, counts, p, kinds, k) == Walk(i + 1, have, counts, p, kinds, k);
  }

  /** The step of `WalkIsDue` where entry `i` is due and gets pushed. */
  lemma {:induction false} WalkPush(i: nat, have: seq<Id>, counts: Powerups.Counts, p: Progress,
                                    kinds: nat -> Chance, k: nat)
    requires i < Size && At(i) !in have && Met(At(i), p)
    ensures Walk(i, have, counts, p, kinds, k).0 == have + Due(i, have, p)
    ensures Walk(i, have, counts, p, kinds, k).1 == Rewards(counts, kinds, k, |Due(i, have, p)|)
    decreases Size - i, 0
  {
    var id := At(i);
    var tail := Due(i + 1, have, p);
    var earned := Powerups.Earn(counts, kinds(k));
    PositionOfAt(i);
    DueSame(i + 1, have, id, p);
    WalkIsDue(i + 1, have + [id], earned, p, kinds, k + 1);
    var w := Walk(i + 1, have + [id], earned, p, kinds, k + 1);
    assert Walk(i, have, counts, p, kinds, k) == w;
    assert Due(i, have, p) == [id] + tail;
    PushThenAppend(have, id, tail, w.0);
    assert |Due(i, have, p)| == 1 + |tail|;
    assert Rewards(counts, kinds, k, 1 + |tail|) == Rewards(earned, kinds, k + 1, |tail|);
  }

  /**
   * `checkAchievements`, in closed form: the unlocked list grows by the due
   * ids in catalogue order, and one powerup is earned per new id.
   */
  function Check(have: seq<Id>, counts: Powerups.Counts, p: Progress, kinds: nat -> Chance)
    : (r: (seq<Id>, Powerups.Counts))
    ensures have <= r.0
    ensures r.1.Total() == counts.Total() + (|r.0| - |have|)
  {
    var due := Due(First, have, p);
    (have + due, Rewards(counts, kinds, 0, |due|))
  }

  /** The closed form is what the source's `forEach` over the whole catalogue computes. */
  lemma CheckIsWalk(have: seq<Id>, counts: Powerups.Counts, p: Progress, kinds: nat -> Chance)
    ensures Check(have, counts, p, kinds) == Walk(First, have, counts, p, kinds, 0)
  {
    WalkIsDue(First, have, counts, p, kinds, 0);
    var w := Walk(First, have, counts, p, kinds, 0);
    assert w == (w.0, w.1);
  }

  /** After a check, an id is unlocked exactly when it was before or its condition holds. */
  lemma CheckUnlocksMet(have: seq<Id>, counts: Powerups.Counts, p: Progress, kinds: nat -> Chance)
    ensures forall id :: id in Check(have, counts, p, kinds).0 <==> id in have || Met(id, p)
  {
    DueMembers(First, have, p);
  }

  /**
   * Regrouping the pushed list, kept apart from `WalkPush`: stated inline,
   * the step costs the solver far more in that lemma's larger context.
   */
  lemma PushThenAppend(have: seq<Id>, id: Id, tail: seq<Id>, pushed: seq<Id>)
    requires pushed == (have + [id]) + tail
    ensures pushed == have + ([id] + tail)
  {
  }

  /** The due ids never repeat. */
  lemma {:induction false} DueDistinct(i: nat, have: seq<Id>, p: Progress)
    ensures Distinct(Due(i, have, p))
    decreases Size - i
  {
    if i < Size {
      var tail := Due(i + 1, have, p);
      DueDistinct(i + 1, have, p);
      DueMembers(i + 1, have, p);
      PositionOfAt(i);
      if At(i) !in have && Met(At(i), p) {
        DistinctConcat([At(i)], tail);
      }
    }
  }

  /** A list without repeats stays without repeats, and the never-met ids stay locked. */
  lemma CheckKeepsDistinct(have: seq<Id>, counts: Powerups.Counts, p: Progress, kinds: nat -> Chance)
    requires Distinct(have)
    ensures Distinct(Check(have, counts, p, kinds).0)
    ensures GoldenSoul !in have ==> GoldenSoul !in Check(have, counts, p, kinds).0
    ensures ShieldSave !in have ==> ShieldSave !in Check(have, counts, p, kinds).0
  {
    DueDistinct(First, have, p);
    DueMembers(First, have, p);
    DistinctConcat(have, Due(First, have, p));
  }

  /** Once every met entry from `i` on is in `have`, nothing from `i` on is due. */
  lemma {:induction false} DueCovered(i: nat, have: seq<Id>, p: Progress)
    requires forall id :: i <= Position(id) && Met(id, p) ==> id in have
    ensures Due(i, have, p) == []
    decreases Size - i
  {
    if i < Size {
      PositionOfAt(i);
      DueCovered(i + 1, have, p);
    }
  }

  /** A second check with the same figures unlocks nothing and awards nothing. */
  lemma CheckIdempotent(have: seq<Id>, counts: Powerups.Counts, p: Progress, kinds: nat -> Chance,
                        again: nat -> Chance)
    ensures var r := Check(have, counts, p, kinds); Check(r.0, r.1, p, again) == r
  {
    var r := Check(have, counts, p, kinds);
    CheckUnlocksMet(have, counts, p, kinds);
    DueCovered(First, r.0, p);
    var second := Check(r.0, r.1, p, again);
    assert second.0 == r.0 + [] == r.0;
    assert second.1 == Rewards(r.1, again, 0, 0) == r.1;
  }
}

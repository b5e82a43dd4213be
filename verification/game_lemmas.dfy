/** Properties of the game that relate several steps or several operations. */
module GameLemmas {
  import opened Wrappers
  import opened Random
  import opened Tiles
  import opened Game
  import Generate
  import Powerups
  import Achievements
  import Leaderboard
  import Fog

  /** The positions the fog converted during a reveal, empty when it did not fire. */
  function FogConverted(g: State, index: nat, d: RevealDraws): (conv: seq<nat>)
    requires !Ignored(g, index)
  {
    var settled := Settle(g, index, d);
    if FogFires(settled, d) then Fog.Escalate(settled.grid, d.fogPicks).1 else []
  }

  lemma SettleFrame(g: State, index: nat, d: RevealDraws)
    requires !Ignored(g, index)
    ensures var s := Settle(g, index, d);
      && s.grid == Uncover(g, index).grid
      && s.tilesRevealed == g.tilesRevealed + 1
      && s.fogTriggered == g.fogTriggered
  {
  }

  /**
   * Kinds change only through the fog: it fires only on the reveal that
   * brings the count to exactly 5 while the fog is unspent, and then turns at
   * most two other, still hidden, non-reaper tiles into reapers.
   */
  lemma RevealKinds(g: State, index: nat, d: RevealDraws)
    requires !Ignored(g, index)
    ensures var r := RevealTile(g, index, d);
      var conv := FogConverted(g, index, d);
      && |conv| <= 2
      && (forall i :: 0 <= i < |g.grid| ==>
            r.grid[i].kind == if i in conv then Reaper else g.grid[i].kind)
      && (forall i :: i in conv ==>
            i < |g.grid| && i != index && !g.grid[i].revealed && g.grid[i].kind != Reaper)
      && (r.fogTriggered <==> g.fogTriggered || FogFires(Settle(g, index, d), d))
      && (|conv| > 0 ==> g.tilesRevealed + 1 == FogAfter && !g.fogTriggered && d.fogRoll < FogChance)
  {
    SettleFrame(g, index, d);
  }

  /** Once the fog has fired in a round, no later reveal changes any tile's kind. */
  lemma FogAtMostOnce(g: State, index: nat, d: RevealDraws)
    requires g.fogTriggered
    ensures var r := RevealTile(g, index, d);
      && r.fogTriggered
      && |r.grid| == |g.grid|
      && forall i :: 0 <= i < |g.grid| ==> r.grid[i].kind == g.grid[i].kind
  {
    if !Ignored(g, index) {
      RevealKinds(g, index, d);
    }
  }

  /**
   * The fog check also runs on the reveal that loses the round: an unshielded
   * reaper on the fifth reveal still spends the fog when its roll is under 0.2.
   */
  lemma FogAfterLosingReveal(g: State, index: nat, d: RevealDraws)
    requires !Ignored(g, index) && g.grid[index].kind == Reaper && !g.shieldActive
    requires g.tilesRevealed + 1 == FogAfter && !g.fogTriggered && d.fogRoll < FogChance
    ensures var r := RevealTile(g, index, d); !r.gameActive && r.fogTriggered
  {
    SettleFrame(g, index, d);
  }

  /** The powerups a reveal's tile awards: one for a soul under 0.1, a golden soul under 0.2. */
  function Award(k: Kind, d: RevealDraws): nat
  {
    if (k == Soul && d.awardRoll < SoulAwardChance) || (k == Golden && d.awardRoll < GoldenAwardChance)
    then 1 else 0
  }

  /**
   * The scoring table of a reveal, as (multiplier, combo) after uncovering a
   * tile of kind `k` and factor `f` from multiplier `m` and combo `c`: souls and
   * golden souls multiply by their factor times the combo bonus and extend the
   * combo; cursed tiles multiply and reset it; mystery tiles multiply and
   * extend the combo exactly when the factor exceeds 1; neutral tiles reset
   * it; a reaper leaves both alone.
   */
  function Scored(k: Kind, f: real, m: real, c: nat): (real, nat)
  {
    match k
    case Reaper => (m, c)
    case Soul => (m * (f * ComboBonus(c)), c + 1)
    case Golden => (m * (f * ComboBonus(c)), c + 1)
    case Cursed => (m * f, 0)
    case Mystery => (m * f, if f > 1.0 then c + 1 else 0)
    case Neutral => (m, 0)
  }

  /** The dispatch step follows the scoring table and ends the round only on an unshielded reaper. */
  lemma DispatchScoring(u: State, t: Tile, d: RevealDraws)
    ensures var s := Dispatch(u, t, d);
      && (s.multiplier, s.combo) == Scored(t.kind, t.factor, u.multiplier, u.combo)
      && s.gameActive == (u.gameActive && (t.kind != Reaper || u.shieldActive))
      && s.shieldActive == (u.shieldActive && t.kind != Reaper)
      && s.powerups.Total() == u.powerups.Total() + Award(t.kind, d)
  {
    if t.kind == Soul || t.kind == Golden {
      DispatchHarvest(u, t, d);
    } else {
      DispatchOther(u, t, d);
    }
  }

  lemma DispatchHarvest(u: State, t: Tile, d: RevealDraws)
    requires t.kind == Soul || t.kind == Golden
    ensures var s := Dispatch(u, t, d);
      && (s.multiplier, s.combo) == Scored(t.kind, t.factor, u.multiplier, u.combo)
      && s.gameActive == u.gameActive && s.shieldActive == u.shieldActive
      && s.powerups.Total() == u.powerups.Total() + Award(t.kind, d)
  {
    var chance := if t.kind == Soul then SoulAwardChance else GoldenAwardChance;
    var s := Dispatch(u, t, d);
    assert s == Harvest(u, t.factor, chance, d);
    HarvestScoring(u, t.factor, chance, d);
    var e := Scored(t.kind, t.factor, u.multiplier, u.combo);
    assert e.0 == u.multiplier * (t.factor * ComboBonus(u.combo)) && e.1 == u.combo + 1 by {
      if t.kind == Soul {
      } else {
      }
    }
    assert s.multiplier == e.0;
    assert s.combo == e.1;
  }

  lemma DispatchOther(u: State, t: Tile, d: RevealDraws)
    requires t.kind != Soul && t.kind != Golden
    ensures var s := Dispatch(u, t, d);
      && (s.multiplier, s.combo) == Scored(t.kind, t.factor, u.multiplier, u.combo)
      && s.gameActive == (u.gameActive && (t.kind != Reaper || u.shieldActive))
      && s.shieldActive == (u.shieldActive && t.kind != Reaper)
      && s.powerups == u.powerups
  {
    var s := Dispatch(u, t, d);
    var e := Scored(t.kind, t.factor, u.multiplier, u.combo);
    match t.kind
    case Reaper =>
      assert s.multiplier == e.0 && s.combo == e.1;
    case Cursed =>
      assert s.multiplier == e.0 && s.combo == e.1;
    case Mystery =>
      assert s.multiplier == e.0 && s.combo == e.1;
    case Neutral =>
      assert s.multiplier == e.0 && s.combo == e.1;
  }

  /** `handleShieldedReaper` only draws: the reveal just spends the shield and the round goes on. */
  lemma DispatchShielded(u: State, t: Tile, d: RevealDraws)
    requires t.kind == Reaper && u.shieldActive
    ensures Dispatch(u, t, d) == u.(shieldActive := false)
  {
  }

  /** `handleReaper` ends the round and changes nothing else; the rest of it only draws. */
  lemma DispatchUnshielded(u: State, t: Tile, d: RevealDraws)
    requires t.kind == Reaper && !u.shieldActive
    ensures Dispatch(u, t, d) == u.(gameActive := false)
  {
  }

  /** `handleCursed` multiplies by the factor, and the combo is broken. */
  lemma DispatchCursed(u: State, t: Tile, d: RevealDraws)
    requires t.kind == Cursed
    ensures Dispatch(u, t, d) == u.(multiplier := u.multiplier * t.factor, combo := 0)
  {
  }

  /**
   * `handleMystery` multiplies by the factor; a factor above 1 extends the
   * combo and may raise the best, any other breaks it. Nothing else changes.
   */
  lemma DispatchMystery(u: State, t: Tile, d: RevealDraws)
    requires t.kind == Mystery
    ensures var s := Dispatch(u, t, d);
      && s == u.(multiplier := s.multiplier, combo := s.combo, maxCombo := s.maxCombo)
      && s.multiplier == u.multiplier * t.factor
      && s.combo == (if t.factor > 1.0 then u.combo + 1 else 0)
      && s.maxCombo == (if t.factor > 1.0 && u.combo + 1 > u.maxCombo then u.combo + 1 else u.maxCombo)
  {
  }

  /** `handleNeutral` only draws: the reveal breaks the combo and changes nothing else. */
  lemma DispatchNeutral(u: State, t: Tile, d: RevealDraws)
    requires t.kind == Neutral
    ensures Dispatch(u, t, d) == u.(combo := 0)
  {
  }

  lemma HarvestScoring(u: State, f: real, chance: real, d: RevealDraws)
    ensures var h := Harvest(u, f, chance, d);
      && h.multiplier == u.multiplier * (f * ComboBonus(u.combo))
      && h.combo == u.combo + 1
      && h.gameActive == u.gameActive && h.shieldActive == u.shieldActive
      && h.powerups.Total() == u.powerups.Total() + (if d.awardRoll < chance then 1 else 0)
  {
    var boosted := u.(multiplier := u.multiplier * (f * ComboBonus(u.combo)));
    if d.awardRoll < chance {
      var e := EarnPowerup(boosted, d.awardKind);
      assert e.multiplier == boosted.multiplier;
    }
  }

  /** Past the dispatch, a reveal only checks achievements and maybe spends the fog. */
  lemma RevealAfterDispatch(g: State, index: nat, d: RevealDraws)
    requires !Ignored(g, index)
    ensures var r := RevealTile(g, index, d);
      var s := Dispatch(Uncover(g, index), g.grid[index], d);
      && r.multiplier == s.multiplier && r.combo == s.combo && r.maxCombo == s.maxCombo
      && r.gameActive == s.gameActive && r.shieldActive == s.shieldActive
      && r.powerups.Total() == s.powerups.Total() + (|r.achievements| - |g.achievements|)
  {
    var s := Dispatch(Uncover(g, index), g.grid[index], d);
    var c := Settle(g, index, d);
    assert c == CheckAchievements(s, d.rewardKinds);
    assert s.achievements == g.achievements;
  }

  /**
   * A reveal scores by the table of `Scored`; a reaper ends the round unless
   * the shield absorbs it, and the shield is spent on the first reaper.
   */
  lemma RevealScoring(g: State, index: nat, d: RevealDraws)
    requires !Ignored(g, index)
    ensures var t := g.grid[index];
      var r := RevealTile(g, index, d);
      && (r.multiplier, r.combo) == Scored(t.kind, t.factor, g.multiplier, g.combo)
      && r.gameActive == (t.kind != Reaper || g.shieldActive)
      && r.shieldActive == (g.shieldActive && t.kind != Reaper)
      && r.powerups.Total() == g.powerups.Total() + Award(t.kind, d) + (|r.achievements| - |g.achievements|)
      && forall id :: id in r.achievements <==>
           id in g.achievements || Achievements.Met(id, ProgressOf(Dispatch(Uncover(g, index), t, d)))
  {
    RevealUnlocks(g, index, d);
    var u := Uncover(g, index);
    assert u.multiplier == g.multiplier && u.combo == g.combo;
    assert u.gameActive && u.shieldActive == g.shieldActive && u.powerups == g.powerups;
    DispatchScoring(u, g.grid[index], d);
    RevealAfterDispatch(g, index, d);
  }

  /** A soul worth 2.0 revealed on a combo of 2 multiplies the multiplier by exactly 2.2. */
  lemma ComboExample(m: real)
    ensures Scored(Soul, 2.0, m, 2).0 == m * 2.2
    ensures Scored(Soul, 2.0, m, 2).1 == 3
  {
    assert ComboBonus(2) == 1.1;
  }

  /**
   * The achievement check of a reveal runs on the figures the tile handler
   * left: afterwards an id is unlocked exactly when it was before or its
   * condition holds on them.
   */
  lemma RevealUnlocks(g: State, index: nat, d: RevealDraws)
    requires !Ignored(g, index)
    ensures var r := RevealTile(g, index, d);
      var s := Dispatch(Uncover(g, index), g.grid[index], d);
      forall id :: id in r.achievements <==> id in g.achievements || Achievements.Met(id, ProgressOf(s))
  {
    var s := Dispatch(Uncover(g, index), g.grid[index], d);
    var settled := Settle(g, index, d);
    assert settled == CheckAchievements(s, d.rewardKinds);
    assert s.achievements == g.achievements;
    CheckUnlocks(s, d.rewardKinds);
    assert RevealTile(g, index, d).achievements == settled.achievements;
  }

  /** Revealing the same tile again changes nothing. */
  lemma RevealTwice(g: State, index: nat, d: RevealDraws, e: RevealDraws)
    ensures var r := RevealTile(g, index, d); RevealTile(r, index, e) == r
  {
    if !Ignored(g, index) {
      RevealKinds(g, index, d);
    }
  }

  /** Starting a round keeps the invariant. */
  lemma StartKeepsValid(g: State, bet: Option<real>, seed: nat)
    requires Valid(g)
    ensures StartGame(g, bet, seed).Success? ==> Valid(StartGame(g, bet, seed).value)
  {
    var r := StartGame(g, bet, seed);
    if r.Success? {
      var grid := r.value.grid;
      forall i | 0 <= i < |grid| ensures grid[i].factor > 0.0 {
        assert Generate.InRange(grid[i].kind, grid[i].factor);
      }
    }
  }

  /** A started round has a fresh grid of size x size hidden tiles in the fixed proportions. */
  lemma StartGrid(g: State, bet: Option<real>, seed: nat)
    requires StartGame(g, bet, seed).Success?
    ensures var grid := StartGame(g, bet, seed).value.grid;
      && |grid| == g.gridSize * g.gridSize
      && (forall i :: 0 <= i < |grid| ==> !grid[i].revealed)
      && (forall k :: multiset(Kinds(grid))[k] == CountFor(g.gridSize * g.gridSize, k))
  {
  }

  /** A reveal keeps the invariant. */
  lemma RevealKeepsValid(g: State, index: nat, d: RevealDraws)
    requires Valid(g)
    ensures Valid(RevealTile(g, index, d))
  {
    if !Ignored(g, index) {
      var u := Uncover(g, index);
      UncoverKeepsValid(g, index);
      var s := Dispatch(u, g.grid[index], d);
      DispatchKeepsValid(u, g.grid[index], d);
      CheckKeepsValid(s, d.rewardKinds);
      var settled := Settle(g, index, d);
      assert settled == CheckAchievements(s, d.rewardKinds);
      if FogFires(settled, d) {
        FogKeepsValid(settled, d.fogPicks);
      }
    }
  }

  lemma UncoverKeepsValid(g: State, index: nat)
    requires Valid(g) && index < |g.grid|
    ensures Valid(Uncover(g, index))
  {
    var u := Uncover(g, index);
    forall i | 0 <= i < |u.grid| ensures u.grid[i].factor > 0.0 {
      assert u.grid[i].factor == g.grid[i].factor;
    }
  }

  /** Every tile handler keeps the invariant, given a positive factor. */
  lemma DispatchKeepsValid(u: State, t: Tile, d: RevealDraws)
    requires Valid(u) && t.factor > 0.0
    ensures Valid(Dispatch(u, t, d))
  {
    match t.kind
    case Soul => HarvestKeepsValid(u, t.factor, SoulAwardChance, d);
    case Golden => HarvestKeepsValid(u, t.factor, GoldenAwardChance, d);
    case Cursed => assert u.multiplier * t.factor > 0.0;
    case Mystery =>
      assert u.multiplier * t.factor > 0.0;
      var drawn := u.(multiplier := u.multiplier * t.factor);
      assert Valid(drawn);
      assert Dispatch(u, t, d) == if t.factor > 1.0 then Chain(drawn) else drawn.(combo := 0);
    case Reaper =>
    case Neutral =>
  }

  lemma HarvestKeepsValid(u: State, f: real, chance: real, d: RevealDraws)
    requires Valid(u) && f > 0.0
    ensures Valid(Harvest(u, f, chance, d))
  {
    assert f * ComboBonus(u.combo) > 0.0;
    assert u.multiplier * (f * ComboBonus(u.combo)) > 0.0;
    var boosted := u.(multiplier := u.multiplier * (f * ComboBonus(u.combo)));
    assert Valid(boosted);
    var awarded := if d.awardRoll < chance then EarnPowerup(boosted, d.awardKind) else boosted;
    assert Valid(awarded);
  }

  /** The fog changes kinds only, so it keeps the invariant. */
  lemma FogKeepsValid(g: State, picks: nat -> Chance)
    requires Valid(g)
    ensures Valid(TriggerFog(g, picks))
  {
    var r := TriggerFog(g, picks);
    forall i | 0 <= i < |r.grid| ensures r.grid[i].factor > 0.0 {
      assert r.grid[i].factor == g.grid[i].factor;
    }
  }

  /** Cashing out keeps the invariant. */
  lemma CashOutKeepsValid(g: State, today: int, kinds: nat -> Chance)
    requires Valid(g)
    ensures Valid(CashOut(g, today, kinds))
  {
    if g.gameActive {
      CreditKeepsValid(g, today);
      CheckKeepsValid(Credit(g, today), kinds);
    }
  }

  lemma CreditKeepsValid(g: State, today: int)
    requires Valid(g)
    ensures Valid(Credit(g, today))
  {
    assert g.currentBet * g.multiplier >= 0.0;
  }

  /** Using a powerup keeps the invariant. */
  lemma UseKeepsValid(g: State, kind: Powerups.Kind)
    requires Valid(g)
    ensures UsePowerup(g, kind).Success? ==> Valid(UsePowerup(g, kind).value)
  {
  }

  /** Resetting keeps the invariant. */
  lemma ResetKeepsValid(g: State)
    requires Valid(g)
    ensures Valid(ResetGame(g))
  {
  }

  /** A round cashed out before any reveal returns exactly the stake. */
  lemma StartThenCashOut(g: State, bet: real, seed: nat, today: int, kinds: nat -> Chance)
    requires StartGame(g, Some(bet), seed).Success?
    ensures var r := CashOut(StartGame(g, Some(bet), seed).value, today, kinds);
      && r.wallet == g.wallet
      && r.totalWinnings == g.totalWinnings + bet
      && !r.gameActive
  {
    var n := StartGame(g, Some(bet), seed).value;
    assert n.wallet == g.wallet - bet && n.currentBet == bet && n.multiplier == 1.0 && n.gameActive;
    assert n.totalWinnings == g.totalWinnings;
    var r := CashOut(n, today, kinds);
    assert r.wallet == n.wallet + bet * 1.0;
    assert r.totalWinnings == n.totalWinnings + bet * 1.0;
  }

  /** A stake of 2.00 at multiplier 3.50 credits exactly 7.00 and records 7.00 on the board. */
  lemma CashOutExample(g: State, today: int, kinds: nat -> Chance)
    requires g.gameActive && g.currentBet == 2.0 && g.multiplier == 3.5
    ensures var r := CashOut(g, today, kinds);
      && r.wallet == g.wallet + 7.0
      && (|g.leaderboard| < Leaderboard.Capacity ==> Leaderboard.Score(7.0, 3.5, today, g.gridSize) in r.leaderboard)
  {
    if |g.leaderboard| < Leaderboard.Capacity {
      Leaderboard.SaveKeepsNewWhileRoom(g.leaderboard, Leaderboard.Score(7.0, 3.5, today, g.gridSize));
    }
  }

  /** Boosting and then cashing out pays one and a half times what cashing out at once pays. */
  lemma BoostThenCashOut(g: State, today: int, kinds: nat -> Chance)
    requires g.gameActive && g.powerups.Get(Powerups.Boost) > 0
    ensures var boosted := UsePowerup(g, Powerups.Boost).value;
      CashOut(boosted, today, kinds).wallet - g.wallet == (CashOut(g, today, kinds).wallet - g.wallet) * BoostFactor
  {
    BoostScalesWin(g);
    CashOutScaled(g, UsePowerup(g, Powerups.Boost).value, today, kinds);
  }

  /** Two active rounds on one wallet, the second worth 1.5 times the first, pay out in that ratio. */
  lemma CashOutScaled(g: State, b: State, today: int, kinds: nat -> Chance)
    requires g.gameActive && b.gameActive && b.wallet == g.wallet
    requires b.currentBet * b.multiplier == (g.currentBet * g.multiplier) * BoostFactor
    ensures CashOut(b, today, kinds).wallet - g.wallet == (CashOut(g, today, kinds).wallet - g.wallet) * BoostFactor
  {
    CashOutPaysCredit(b, today, kinds);
    CashOutPaysCredit(g, today, kinds);
    CreditScaled(g, b, today);
  }

  /** The achievement step of `cashOut` leaves the wallet as the pay-out left it. */
  lemma CashOutPaysCredit(g: State, today: int, kinds: nat -> Chance)
    requires g.gameActive
    ensures CashOut(g, today, kinds).wallet == Credit(g, today).wallet
  {
  }

  lemma CreditScaled(g: State, b: State, today: int)
    requires b.wallet == g.wallet
    requires b.currentBet * b.multiplier == (g.currentBet * g.multiplier) * BoostFactor
    ensures Credit(b, today).wallet - g.wallet == (Credit(g, today).wallet - g.wallet) * BoostFactor
  {
  }

  /** A boost leaves the stake and the wallet alone and scales stake times multiplier by 1.5. */
  lemma BoostScalesWin(g: State)
    requires g.gameActive && g.powerups.Get(Powerups.Boost) > 0
    ensures var b := UsePowerup(g, Powerups.Boost).value;
      && b.gameActive && b.wallet == g.wallet
      && b.currentBet * b.multiplier == (g.currentBet * g.multiplier) * BoostFactor
  {
    var b := UsePowerup(g, Powerups.Boost).value;
    assert b.multiplier == g.multiplier * BoostFactor;
    assert b.currentBet == g.currentBet;
    assert g.currentBet * (g.multiplier * BoostFactor) == (g.currentBet * g.multiplier) * BoostFactor;
  }

  /** Re-arming an armed shield still spends a charge and changes nothing else. */
  lemma ShieldRearmSpends(g: State)
    requires g.gameActive && g.shieldActive && g.powerups.Get(Powerups.Shield) > 0
    ensures var r := UsePowerup(g, Powerups.Shield).value;
      r.powerups.Get(Powerups.Shield) == g.powerups.Get(Powerups.Shield) - 1
      && r == g.(powerups := r.powerups)
  {
  }

  /** Checking the streak twice on one day is the same as checking it once. */
  lemma StreakIdempotent(g: State, today: int)
    ensures CheckDailyStreak(CheckDailyStreak(g, today), today) == CheckDailyStreak(g, today)
  {
  }

  /** Checking achievements again right away unlocks nothing more and awards nothing more. */
  lemma AchievementsIdempotent(g: State, kinds: nat -> Chance, again: nat -> Chance)
    ensures var r := CheckAchievements(g, kinds); CheckAchievements(r, again) == r
  {
    var r := CheckAchievements(g, kinds);
    assert ProgressOf(r) == ProgressOf(g);
    Achievements.CheckIdempotent(g.achievements, g.powerups, ProgressOf(g), kinds, again);
  }
}

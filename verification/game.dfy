/**
 * The `gameState` record and the functions of app.js that change it:
 * `loadGameData`'s wallet refill, `checkDailyStreak`, `startGame`,
 * `revealTile` with its tile handlers, `triggerFogWeather`, `cashOut`,
 * `resetGame`, `usePowerup`, `earnPowerup` and `checkAchievements`.
 * Every `Math.random()` and `new Date()` the source consults is a parameter.
 */
module Game {
  import opened Wrappers
  import opened Random
  import opened Tiles
  import Generate
  import Powerups
  import Achievements
  import Leaderboard
  import Fog
  import Sequences

  const InitialWallet: real := 100.0
  const MinBet: real := 0.01
  const MaxBet: real := 10.0
  const ComboStep: real := 0.05
  const SoulAwardChance: real := 0.1
  const GoldenAwardChance: real := 0.2
  const FogChance: real := 0.2
  const FogAfter: nat := 5
  const BoostFactor: real := 1.5

  /** `gameState`, with the leaderboard that app.js keeps under its own storage key. */
  datatype State = State(
    wallet: real,
    currentBet: real,
    gridSize: nat,
    multiplier: real,
    tilesRevealed: nat,
    gameActive: bool,
    grid: seq<Tile>,
    fogTriggered: bool,
    lastPlayDate: Option<int>,
    streak: nat,
    powerups: Powerups.Counts,
    shieldActive: bool,
    combo: nat,
    maxCombo: nat,
    achievements: seq<Achievements.Id>,
    totalGamesPlayed: nat,
    totalWinnings: real,
    highestMultiplier: real,
    leaderboard: seq<Leaderboard.Score>)

  /** The unseeded draws one reveal may consult, in the order the source makes them. */
  datatype RevealDraws = RevealDraws(
    awardRoll: Chance,             // soul / golden powerup chance
    awardKind: Chance,             // the kind of that powerup
    rewardKinds: nat -> Chance,    // the kind of each achievement reward
    fogRoll: Chance,               // the fog chance
    fogPicks: nat -> Chance)       // the fog's tile picks

  datatype StartError = InvalidBet | InsufficientFunds

  datatype UseError = NoActiveGame | NoneLeft

  /** The declared initial value of `gameState`, before anything is loaded. */
  function Initial(): (g: State)
    ensures Valid(g) && !g.gameActive
  {
    State(InitialWallet, 0.0, 5, 1.0, 0, false, [], false, None, 0,
          Powerups.Counts(0, 0, 0), false, 0, 0, [], 0, 0.0, 0.0, [])
  }

  /**
   * The invariant every operation keeps: money and counters are not negative,
   * the combo never exceeds the best combo, every factor is positive, the
   * unlocked list has no repeats and the leaderboard is sorted and bounded.
   */
  predicate Valid(g: State)
  {
    && g.wallet >= 0.0
    && g.currentBet >= 0.0
    && g.multiplier > 0.0
    && g.combo <= g.maxCombo
    && g.powerups.NonNegative()
    && Sequences.Distinct(g.achievements)
    && Leaderboard.SortedDesc(g.leaderboard)
    && |g.leaderboard| <= Leaderboard.Capacity
    && g.totalWinnings >= 0.0
    && g.highestMultiplier >= 0.0
    && forall i :: 0 <= i < |g.grid| ==> g.grid[i].factor > 0.0
  }

  /** The fields that only settle between rounds: nothing a reveal or a powerup touches. */
  predicate SameLedger(a: State, b: State)
  {
    && a.wallet == b.wallet
    && a.currentBet == b.currentBet
    && a.gridSize == b.gridSize
    && a.lastPlayDate == b.lastPlayDate
    && a.streak == b.streak
    && a.totalGamesPlayed == b.totalGamesPlayed
    && a.totalWinnings == b.totalWinnings
    && a.highestMultiplier == b.highestMultiplier
    && a.leaderboard == b.leaderboard
  }

  /** The end of `loadGameData`: a wallet at or below zero is refilled to 100. */
  function Refill(g: State): (r: State)
    ensures r.wallet > 0.0
    ensures g.wallet > 0.0 ==> r == g
    ensures g.wallet <= 0.0 ==> r == g.(wallet := InitialWallet)
  {
    if g.wallet <= 0.0 then g.(wallet := InitialWallet) else g
  }

  /** `checkDailyStreak` on day number `today`. */
  function CheckDailyStreak(g: State, today: int): (r: State)
    ensures r.lastPlayDate == Some(today)
    ensures g.lastPlayDate == Some(today - 1) ==> r.streak == g.streak + 1
    ensures g.lastPlayDate == Some(today) ==> r.streak == g.streak
    ensures g.lastPlayDate.None? || (g.lastPlayDate.value != today - 1 && g.lastPlayDate.value != today)
            ==> r.streak == 1
    ensures r == g.(streak := r.streak, lastPlayDate := r.lastPlayDate)
  {
    var streak :=
      match g.lastPlayDate
      case None => 1
      case Some(last) =>
        if last == today - 1 then g.streak + 1
        else if last != today then 1
        else g.streak;
    g.(streak := streak, lastPlayDate := Some(today))
  }

  /** The lifetime figures `checkAchievements` reads. */
  function ProgressOf(g: State): Achievements.Progress
  {
    Achievements.Progress(g.totalWinnings, g.maxCombo, g.highestMultiplier, g.streak, g.totalGamesPlayed)
  }

  /** `checkAchievements` on the whole state: only the unlocked list and the powerups change. */
  function CheckAchievements(g: State, kinds: nat -> Chance): (r: State)
    ensures r.achievements == g.achievements + Achievements.Due(Achievements.First, g.achievements, ProgressOf(g))
    ensures r.powerups == Achievements.Rewards(g.powerups, kinds, 0, |r.achievements| - |g.achievements|)
    ensures r == g.(achievements := r.achievements, powerups := r.powerups)
  {
    var c := Achievements.Check(g.achievements, g.powerups, ProgressOf(g), kinds);
    g.(achievements := c.0, powerups := c.1)
  }

  /** After the check an id is unlocked exactly when it was before or its condition now holds. */
  lemma CheckUnlocks(g: State, kinds: nat -> Chance)
    ensures var r := CheckAchievements(g, kinds);
      forall id :: id in r.achievements <==> id in g.achievements || Achievements.Met(id, ProgressOf(g))
  {
    Achievements.CheckUnlocksMet(g.achievements, g.powerups, ProgressOf(g), kinds);
  }

  /** The achievement check keeps the invariant: no id is unlocked twice and no count goes negative. */
  lemma CheckKeepsValid(g: State, kinds: nat -> Chance)
    requires Valid(g)
    ensures Valid(CheckAchievements(g, kinds))
  {
    Achievements.CheckKeepsDistinct(g.achievements, g.powerups, ProgressOf(g), kinds);
  }

  /** `earnPowerup`: one more of the drawn kind. */
  function EarnPowerup(g: State, r: Chance): (e: State)
    ensures e.powerups == Powerups.Earn(g.powerups, r)
    ensures e.powerups.Total() == g.powerups.Total() + 1
    ensures e == g.(powerups := e.powerups)
  {
    g.(powerups := Powerups.Earn(g.powerups, r))
  }

  /** `startGame` with the parsed bet (`None` for NaN) and the `Date.now()` seed. */
  function StartGame(g: State, bet: Option<real>, seed: nat): (r: Result<State, StartError>)
    ensures r == Failure(InvalidBet) <==> bet.None? || bet.value < MinBet || bet.value > MaxBet
    ensures r == Failure(InsufficientFunds) <==>
      bet.Some? && MinBet <= bet.value <= MaxBet && bet.value > g.wallet
    ensures r.Success? ==>
      var n := r.value;
      && n.wallet == g.wallet - bet.value
      && n.currentBet == bet.value
      && n.multiplier == 1.0 && n.tilesRevealed == 0 && n.combo == 0
      && n.gameActive && !n.fogTriggered && !n.shieldActive
      && n.totalGamesPlayed == g.totalGamesPlayed + 1
      && n.maxCombo == g.maxCombo
      && n.grid == Generate.GenerateGrid(g.gridSize, seed)
      && n.powerups == g.powerups && n.achievements == g.achievements
      && n.streak == g.streak && n.lastPlayDate == g.lastPlayDate
      && n.totalWinnings == g.totalWinnings && n.highestMultiplier == g.highestMultiplier
      && n.leaderboard == g.leaderboard && n.gridSize == g.gridSize
  {
    if bet.None? || bet.value < MinBet || bet.value > MaxBet then Failure(InvalidBet)
    else if bet.value > g.wallet then Failure(InsufficientFunds)
    else
      Success(g.(
        wallet := g.wallet - bet.value,
        currentBet := bet.value,
        multiplier := 1.0,
        tilesRevealed := 0,
        gameActive := true,
        fogTriggered := false,
        shieldActive := false,
        combo := 0,
        totalGamesPlayed := g.totalGamesPlayed + 1,
        grid := Generate.GenerateGrid(g.gridSize, seed)))
  }

  /** `1 + combo * 0.05`: the bonus a soul or golden soul earns from the running combo. */
  function ComboBonus(combo: nat): (b: real)
    ensures b >= 1.0
  {
    1.0 + combo as real * ComboStep
  }

  /** One more link in the combo, with the best combo raised to match. */
  function Chain(g: State): (r: State)
    ensures r.combo == g.combo + 1
    ensures r.maxCombo >= r.combo && r.maxCombo >= g.maxCombo
    ensures g.combo <= g.maxCombo ==> r.maxCombo == if g.maxCombo > g.combo then g.maxCombo else r.combo
    ensures r == g.(combo := r.combo, maxCombo := r.maxCombo)
  {
    var combo := g.combo + 1;
    g.(combo := combo, maxCombo := if combo > g.maxCombo then combo else g.maxCombo)
  }

  /** `handleSoul` / `handleGoldenSoul`, followed by the combo step of `revealTile`. */
  function Harvest(g: State, factor: real, awardChance: real, d: RevealDraws): (r: State)
    ensures r == g.(multiplier := r.multiplier, combo := r.combo, maxCombo := r.maxCombo, powerups := r.powerups)
    ensures r.combo == g.combo + 1 && r.maxCombo >= r.combo && r.maxCombo >= g.maxCombo
    ensures r.powerups == g.powerups || r.powerups == Powerups.Earn(g.powerups, d.awardKind)
  {
    var boosted := g.(multiplier := g.multiplier * (factor * ComboBonus(g.combo)));
    var awarded := if d.awardRoll < awardChance then EarnPowerup(boosted, d.awardKind) else boosted;
    Chain(awarded)
  }

  /** The dispatch of `revealTile` on the kind of the tile just uncovered. */
  function Dispatch(g: State, t: Tile, d: RevealDraws): (r: State)
    ensures r.grid == g.grid && r.tilesRevealed == g.tilesRevealed && r.fogTriggered == g.fogTriggered
    ensures SameLedger(g, r) && r.achievements == g.achievements
    ensures r.maxCombo >= g.maxCombo
    ensures g.combo <= g.maxCombo ==> r.combo <= r.maxCombo
    ensures r.powerups == g.powerups || r.powerups == Powerups.Earn(g.powerups, d.awardKind)
  {
    match t.kind
    case Reaper =>
      if g.shieldActive then g.(shieldActive := false) else g.(gameActive := false)
    case Soul => Harvest(g, t.factor, SoulAwardChance, d)
    case Golden => Harvest(g, t.factor, GoldenAwardChance, d)
    case Cursed => g.(multiplier := g.multiplier * t.factor, combo := 0)
    case Mystery =>
      var drawn := g.(multiplier := g.multiplier * t.factor);
      if t.factor > 1.0 then Chain(drawn) else drawn.(combo := 0)
    case Neutral => g.(combo := 0)
  }

  /** `triggerFogWeather`: mark the fog as spent and convert up to two tiles. */
  function TriggerFog(g: State, picks: nat -> Chance): (r: State)
    ensures r.fogTriggered
    ensures r == g.(fogTriggered := true, grid := r.grid)
    ensures r.grid == Fog.Escalate(g.grid, picks).0
  {
    g.(fogTriggered := true, grid := Fog.Escalate(g.grid, picks).0)
  }

  /**
   * Whether the fog check at the end of `revealTile` fires on state `g`. Its
   * own flag is part of the test, so it cannot fire again once spent.
   */
  predicate FogFires(g: State, d: RevealDraws): (b: bool)
    ensures b ==> !FogFires(g.(fogTriggered := true), d)
    decreases if g.fogTriggered then 0 else 1
  {
    g.tilesRevealed == FogAfter && !g.fogTriggered && d.fogRoll < FogChance
  }

  /** Whether `revealTile(index)` returns before changing anything; otherwise the tile exists. */
  predicate Ignored(g: State, index: nat): (b: bool)
    ensures !b ==> index < |g.grid| && g.gameActive
  {
    !g.gameActive || index >= |g.grid| || g.grid[index].revealed
  }

  /** The tile marked revealed and the reveal counter raised: the first step of `revealTile`. */
  function Uncover(g: State, index: nat): (r: State)
    requires index < |g.grid|
    ensures r == g.(grid := r.grid, tilesRevealed := r.tilesRevealed)
    ensures r.tilesRevealed == g.tilesRevealed + 1 && |r.grid| == |g.grid|
    ensures r.grid[index].revealed
    ensures r.grid[index].kind == g.grid[index].kind && r.grid[index].factor == g.grid[index].factor
    ensures forall i :: 0 <= i < |g.grid| && i != index ==> r.grid[i] == g.grid[i]
  {
    g.(grid := g.grid[index := g.grid[index].(revealed := true)], tilesRevealed := g.tilesRevealed + 1)
  }

  /** The state after every step of a reveal except the fog check. */
  function Settle(g: State, index: nat, d: RevealDraws): (r: State)
    requires index < |g.grid|
    ensures SameLedger(g, r) && r.maxCombo >= g.maxCombo
    ensures g.achievements <= r.achievements
  {
    CheckAchievements(Dispatch(Uncover(g, index), g.grid[index], d), d.rewardKinds)
  }

  /**
   * `revealTile(index)`. An index past the grid makes the source throw before
   * it changes anything, so it leaves the state as it was, like an inactive
   * round or an already revealed tile.
   */
  function RevealTile(g: State, index: nat, d: RevealDraws): (r: State)
    ensures Ignored(g, index) ==> r == g
    ensures !Ignored(g, index) ==>
      && r.tilesRevealed == g.tilesRevealed + 1
      && |r.grid| == |g.grid|
      && (forall i :: 0 <= i < |g.grid| ==>
            && r.grid[i].revealed == (i == index || g.grid[i].revealed)
            && r.grid[i].factor == g.grid[i].factor)
    ensures SameLedger(g, r)
    ensures r.maxCombo >= g.maxCombo
    ensures g.combo <= g.maxCombo ==> r.combo <= r.maxCombo
  {
    if Ignored(g, index) then g
    else
      var settled := Settle(g, index, d);
      if FogFires(settled, d) then TriggerFog(settled, d.fogPicks) else settled
  }

  /**
   * `cashOut` on day number `today`: nothing happens without an active round;
   * otherwise the pay-out of `Credit`, then the achievement check, which
   * touches only the unlocked list and the powerups.
   */
  function CashOut(g: State, today: int, kinds: nat -> Chance): (r: State)
    ensures !g.gameActive ==> r == g
    ensures g.gameActive ==> r == Credit(g, today).(achievements := r.achievements, powerups := r.powerups)
    ensures g.gameActive ==> forall id :: id in r.achievements <==>
              id in g.achievements || Achievements.Met(id, ProgressOf(Credit(g, today)))
    ensures g.gameActive ==> r.powerups.Total() == g.powerups.Total() + (|r.achievements| - |g.achievements|)
  {
    if !g.gameActive then g
    else
      var paid := Credit(g, today);
      CheckUnlocks(paid, kinds);
      CheckAchievements(paid, kinds)
  }

  /**
   * The pay-out of `cashOut`: stake times multiplier goes to the wallet and
   * to the lifetime winnings, the best multiplier is raised, the round ends
   * and the score is saved to the leaderboard; nothing else changes.
   */
  function Credit(g: State, today: int): (r: State)
    ensures r.wallet == g.wallet + g.currentBet * g.multiplier
    ensures r.totalWinnings == g.totalWinnings + g.currentBet * g.multiplier
    ensures r.highestMultiplier >= g.highestMultiplier && r.highestMultiplier >= g.multiplier
    ensures r.highestMultiplier == g.highestMultiplier || r.highestMultiplier == g.multiplier
    ensures !r.gameActive
    ensures r.leaderboard == Leaderboard.Save(g.leaderboard,
              Leaderboard.Score(g.currentBet * g.multiplier, g.multiplier, today, g.gridSize))
    ensures r == g.(wallet := r.wallet, totalWinnings := r.totalWinnings,
                    highestMultiplier := r.highestMultiplier, gameActive := false, leaderboard := r.leaderboard)
  {
    var win := g.currentBet * g.multiplier;
    g.(
      wallet := g.wallet + win,
      totalWinnings := g.totalWinnings + win,
      highestMultiplier := if g.multiplier > g.highestMultiplier then g.multiplier else g.highestMultiplier,
      gameActive := false,
      leaderboard := Leaderboard.Save(g.leaderboard, Leaderboard.Score(win, g.multiplier, today, g.gridSize)))
  }

  /** `resetGame`: back to the setup screen; the best combo and the grid stay. */
  function ResetGame(g: State): (r: State)
    ensures !r.gameActive && r.currentBet == 0.0 && r.multiplier == 1.0 && r.tilesRevealed == 0
    ensures !r.fogTriggered && !r.shieldActive && r.combo == 0
    ensures r.maxCombo == g.maxCombo && r.grid == g.grid && r.wallet == g.wallet
    ensures r == g.(gameActive := r.gameActive, currentBet := r.currentBet, multiplier := r.multiplier,
                    tilesRevealed := r.tilesRevealed, fogTriggered := r.fogTriggered,
                    shieldActive := r.shieldActive, combo := r.combo)
  {
    g.(gameActive := false, currentBet := 0.0, multiplier := 1.0, tilesRevealed := 0,
       fogTriggered := false, shieldActive := false, combo := 0)
  }

  /** `usePowerup(kind)`: refused with nothing changed when no round is active or none is left. */
  function UsePowerup(g: State, kind: Powerups.Kind): (r: Result<State, UseError>)
    ensures r == Failure(NoActiveGame) <==> !g.gameActive
    ensures r == Failure(NoneLeft) <==> g.gameActive && g.powerups.Get(kind) <= 0
    ensures r.Success? ==>
      && r.value.powerups.Get(kind) == g.powerups.Get(kind) - 1 >= 0
      && (forall other :: other != kind ==> r.value.powerups.Get(other) == g.powerups.Get(other))
      && r.value.shieldActive == (g.shieldActive || kind == Powerups.Shield)
      && r.value.multiplier == (if kind == Powerups.Boost then g.multiplier * BoostFactor else g.multiplier)
      && r.value == g.(powerups := r.value.powerups, shieldActive := r.value.shieldActive,
                       multiplier := r.value.multiplier)
  {
    if !g.gameActive then Failure(NoActiveGame)
    else if g.powerups.Get(kind) <= 0 then Failure(NoneLeft)
    else
      var spent := g.(powerups := g.powerups.Add(kind, -1));
      match kind
      case Shield => Success(spent.(shieldActive := true))
      case Reveal => Success(spent)
      case Boost => Success(spent.(multiplier := spent.multiplier * BoostFactor))
  }

  /** The lifetime figures `saveGameData` stores under `reaperStats`. */
  datatype Stats = Stats(totalGamesPlayed: nat, totalWinnings: real, highestMultiplier: real)

  /** What the browser's storage holds for the game: one entry per key, `None` when the key is absent. */
  datatype Saved = Saved(
    wallet: Option<real>,
    streak: Option<nat>,
    lastPlay: Option<int>,
    powerups: Option<Powerups.Counts>,
    achievements: Option<seq<Achievements.Id>>,
    stats: Option<Stats>,
    leaderboard: Option<seq<Leaderboard.Score>>)

  /** The stored value of a key, or the declared default when the key is absent. */
  function Or<T>(o: Option<T>, default: T): (v: T)
    ensures o.Some? ==> v == o.value
    ensures o.None? ==> v == default
  {
    if o.Some? then o.value else default
  }

  /**
   * `loadGameData` before its refill, with the leaderboard that
   * `saveToLeaderboard` reads from its own key: the declared initial state
   * with only the stored fields replaced. The round fields (grid, multiplier,
   * combo, best combo, flags) keep their declared values.
   */
  function Load(saved: Saved): (g: State)
    ensures g == Initial().(wallet := g.wallet, streak := g.streak, lastPlayDate := g.lastPlayDate,
                            powerups := g.powerups, achievements := g.achievements,
                            totalGamesPlayed := g.totalGamesPlayed, totalWinnings := g.totalWinnings,
                            highestMultiplier := g.highestMultiplier, leaderboard := g.leaderboard)
    ensures g.wallet == Or(saved.wallet, InitialWallet)
    ensures g.streak == Or(saved.streak, 0)
    ensures g.lastPlayDate == saved.lastPlay
    ensures g.powerups == Or(saved.powerups, Powerups.Counts(0, 0, 0))
    ensures g.achievements == Or(saved.achievements, [])
    ensures saved.stats.Some? ==>
      && g.totalGamesPlayed == saved.stats.value.totalGamesPlayed
      && g.totalWinnings == saved.stats.value.totalWinnings
      && g.highestMultiplier == saved.stats.value.highestMultiplier
    ensures saved.stats.None? ==> g.totalGamesPlayed == 0 && g.totalWinnings == 0.0 && g.highestMultiplier == 0.0
    ensures g.leaderboard == Or(saved.leaderboard, [])
  {
    var init := Initial();
    var withStats :=
      match saved.stats
      case None => init
      case Some(st) => init.(totalGamesPlayed := st.totalGamesPlayed, totalWinnings := st.totalWinnings,
                             highestMultiplier := st.highestMultiplier);
    withStats.(
      wallet := Or(saved.wallet, init.wallet),
      streak := Or(saved.streak, init.streak),
      lastPlayDate := if saved.lastPlay.Some? then saved.lastPlay else init.lastPlayDate,
      powerups := Or(saved.powerups, init.powerups),
      achievements := Or(saved.achievements, init.achievements),
      leaderboard := Or(saved.leaderboard, init.leaderboard))
  }

  /** An empty store loads the declared initial state. */
  lemma LoadNothing()
    ensures Load(Saved(None, None, None, None, None, None, None)) == Initial()
  {
  }

  /** `init`: load the store, refill an empty wallet, update the streak, then check achievements. */
  function Boot(saved: Saved, today: int, kinds: nat -> Chance): (r: State)
    ensures r.wallet > 0.0
    ensures r.lastPlayDate == Some(today)
    ensures !r.gameActive && r.grid == [] && r.multiplier == 1.0 && r.combo == 0 && r.maxCombo == 0
  {
    CheckAchievements(CheckDailyStreak(Refill(Load(saved)), today), kinds)
  }

  /**
   * A store whose record is valid apart from the wallet loads into a valid
   * state through the whole of `init`: the refill repairs a wallet at or below zero.
   */
  lemma BootKeepsValid(saved: Saved, today: int, kinds: nat -> Chance)
    requires Valid(Load(saved).(wallet := 0.0))
    ensures Valid(Boot(saved, today, kinds))
  {
    var streaked := CheckDailyStreak(Refill(Load(saved)), today);
    assert Valid(streaked);
    CheckKeepsValid(streaked, kinds);
  }
}

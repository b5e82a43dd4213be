# Reaper's Harvest: the game engine of app.js in Dafny

Reaper's Harvest is a browser grid game. The player stakes a bet and uncovers
tiles one by one:

- souls and golden souls raise the round's multiplier;
- cursed tiles lower it;
- mystery tiles may do either;
- a reaper ends the round and loses the stake, unless a shield is armed.

Cashing out pays stake times multiplier into the wallet. Between rounds the
game keeps a ledger: powerups, achievements, a daily streak and a top-10
leaderboard.

All of this lives in `app.js`, mixed with DOM, audio and storage calls. This
project models the sequential engine underneath as pure functions on an
immutable state record:

- `Random`: the seeded linear-congruential stream `seededRandom`, exact over
  the integers. The draws of the unseeded `Math.random()` are taken as
  parameters of type `Chance`, a real in [0, 1).
- `Tiles`: the six tile kinds, their fixed proportions and the tag list
  `generateGrid` lays out before shuffling.
- `Shuffle`: the backward Fisher-Yates shuffle. It is given as a function and
  as the source's loop, which swaps inside an array in place. The loop is
  proved equal to the function.
- `Generate`: the payout draws and the whole `generateGrid`.
- `Fog`: the conversion loop of `triggerFogWeather`.
- `Powerups`, `Achievements`, `Leaderboard`: the three ledgers, that is
  `earnPowerup`, `checkAchievements` and the sort-and-truncate of
  `saveToLeaderboard`.
- `Sequences`: the no-repeats predicate shared by the fog pool and the
  unlocked list.
- `Game`: the `gameState` record and its transitions, namely
  - `loadGameData` with its refill, and `checkDailyStreak`;
  - `startGame`, `revealTile` with its tile handlers, and `triggerFogWeather`;
  - `cashOut`, `resetGame` and `usePowerup`;
  - the invariant `Valid` that every transition keeps.
- `GameLemmas`: properties that relate several steps. These are:
  - the scoring table of a reveal;
  - that the fog fires at most once;
  - the stake returned by an immediate cash-out;
  - the 1.5 times pay-out of a boost;
  - that the streak and achievement checks are idempotent.

Dates are day numbers. A `cashOut` or `checkDailyStreak` takes "today" as a
parameter.

Two achievements do not do what the catalogue says, and the model does what
the code does:

- The catalogue describes `big_win` and `huge_win` as "in one game"
  (app.js:840-841). The conditions at app.js:865-870 test the lifetime
  `totalWinnings`, and so does the model.
- `golden_soul` and `shield_save` are listed in the catalogue
  (app.js:849-850), but the `switch` at app.js:861-892 has no case for them.
  They never unlock, here as in the code.

## Model

| member | source | states |
|---|---|---|
| Random.Next | app.js:318 | Every step of the stream, from any non-negative seed, lands in [0, 233280) |
| Random.Value | app.js:319 | A draw is the state divided by 233280, so it lies in [0, 1) |
| Random.Pick | app.js:292 | `floor(r * n)` is an index below `n`, and it is the floor of `r * n` |
| Random.NextModulo | app.js:315-321 | The stream sees a seed only modulo 233280: such seeds step to the same state |
| Tiles.CountFor | app.js:269-275 | No kind's count exceeds the number of tiles, so neutral tiles are never negative |
| Tiles.CountsAreProportions | app.js:270-274 | Each non-neutral count is the floor of size² times its proportion: 0.2, 0.35, 0.05, 0.05 or 0.05 |
| Tiles.CountsSum | app.js:275 | The six counts add up to the number of tiles |
| Tiles.Tags | app.js:278-285 | The tile array built from the six counts has one tag per tile |
| Tiles.TagsCensus | app.js:278-285 | The tag list has size² entries, exactly `CountFor` of each kind |
| Tiles.LayoutCensus | app.js:278-285 | Six runs of fixed kinds hold exactly the given number of each kind |
| Tiles.RepeatCensus | app.js:279-284 | `Array(n).fill(kind)` holds `n` copies of `kind` and nothing else |
| Shuffle.SwapIndex | app.js:292 | The swap partner of position `i` lies in [0, i] |
| Shuffle.SwapPermutes | app.js:293 | One swap keeps the multiset of tags |
| Shuffle.ShuffleDown | app.js:291-294 | The loop from position `i` down leaves every position above `i` as it was, and once it has drawn it leaves a proper stream state below 233280 |
| Shuffle.FisherYates | app.js:288-294 | The shuffle keeps the length, and a list of two or more tags leaves the stream in a proper state below 233280 |
| Shuffle.ShuffleDownPermutes | app.js:291-294 | The loop from position `i` down to 1 is a permutation |
| Shuffle.FisherYatesPermutes | app.js:291-294 | The whole shuffle is a permutation, so every kind keeps its count |
| Shuffle.ShuffleDownModulo | app.js:288-294 | Seeds equal modulo 233280 shuffle identically and leave equivalent stream states |
| Shuffle.ShuffleInPlace | app.js:278-294 | The loop swapping inside the tag array computes exactly the functional shuffle and its final stream state, and permutes its input |
| Generate.Payout | app.js:297-301 | Factor ranges: soul [1.1, 3.0), golden [4.0, 6.0), cursed [0.5, 0.8), mystery [2.0, 5.0) or [0.3, 0.7), reaper and neutral 1.0. A mystery factor exceeds 1 exactly when its first draw is below 0.5 |
| Generate.Payouts | app.js:296-308 | Each tag becomes one unrevealed tile of that kind, with its factor in range |
| Generate.GenerateGrid | app.js:267-308 | The grid has size² unrevealed tiles with factors in range and exactly `CountFor` tiles of each kind |
| Generate.PayoutModulo | app.js:296-301 | One payout draw depends on the stream state only modulo 233280 |
| Generate.PayoutsModulo | app.js:296-308 | So do all payout draws of a tag list |
| Generate.SameSeedSameGrid | app.js:288-308 | Seeds equal modulo 233280, and so equal seeds, generate the same grid |
| Fog.UnrevealedFrom | app.js:526-528 | Lists exactly the unrevealed positions from a start position on, each once |
| Fog.Unrevealed | app.js:526-528 | `unrevealedIndices` holds exactly the unrevealed positions, each once |
| Fog.RemoveAt | app.js:541 | `splice(at, 1)` drops exactly the picked position and keeps the pool free of repeats |
| Fog.Convert | app.js:531-542 | The loop keeps the grid size and converts at most two tiles in all |
| Fog.ConvertChanges | app.js:531-542 | The loop converts distinct positions from the pool that were not reapers, and changes nothing else |
| Fog.CandidatesRemove | app.js:536-541 | Splicing a picked entry out of the pool loses one convertible tile exactly when it was not a reaper |
| Fog.CandidatesFrame | app.js:537 | Converting a tile that has left the pool does not change what the rest of the pool can convert |
| Fog.ConvertCount | app.js:531-542 | The loop stops only at two added reapers or an empty pool, so it converts exactly min(2 - added, non-reapers in the pool) tiles |
| Fog.TargetsAreCandidates | app.js:526-528 | The non-reapers of the unrevealed pool are exactly the hidden non-reaper tiles of the grid |
| Fog.Escalate | app.js:525-542 | Exactly min(2, hidden non-reaper tiles) distinct tiles change. Each was unrevealed and not a reaper, and becomes a reaper with its revealed flag and factor untouched |
| Powerups.KindOf | app.js:797-798 | The kind is `floor(r * 3)` indexing shield, reveal, boost; `Powerups.KindOfThirds` states the thirds it yields |
| Powerups.KindOfThirds | app.js:797-798 | Shield, reveal and boost are each drawn on their own third of [0, 1) |
| Powerups.Earn | app.js:796-799 | Exactly the drawn counter rises by one, the others stay, and no counter turns negative |
| Achievements.At | app.js:838-851 | The catalogue in its declared order, twelve entries, with `golden_soul` and `shield_save` last |
| Achievements.Met | app.js:861-892 | The condition switch: each case is a lower bound on one lifetime figure; `big_win` and `huge_win` read the lifetime `totalWinnings`; there is no case, so no condition, for `golden_soul` or `shield_save` |
| Achievements.NeverMet | app.js:861-892 | `golden_soul` and `shield_save` never meet their condition, whatever the figures |
| Achievements.MetMonotone | app.js:861-892 | Every condition is a threshold, so figures at least as large keep it met |
| Achievements.Position | app.js:838-851 | Every achievement sits in the catalogue at exactly one position |
| Achievements.DueMembers | app.js:856-898 | An id is due from position `i` exactly when it sits at `i` or later, is still locked and its condition holds |
| Achievements.Rewards | app.js:897 | `n` rewards raise the powerup total by exactly `n` and keep the counts non-negative |
| Achievements.DueSame | app.js:857 | An id pushed during the walk does not change any later decision of the walk |
| Achievements.Walk | app.js:856-898 | The `forEach` only appends: the old unlocked list is a prefix of the result, and the powerup total rises by exactly the number of ids it appended |
| Achievements.Check | app.js:853-899 | The closed form only appends: the old unlocked list is a prefix of the result, and the powerup total rises by exactly the number of new ids |
| Achievements.WalkIsDue | app.js:853-899 | The `forEach` walk appends exactly the due ids in catalogue order and earns one reward for each |
| Achievements.CheckIsWalk | app.js:853-899 | The closed form of `checkAchievements` equals the source's walk over the whole catalogue |
| Achievements.CheckUnlocksMet | app.js:856-898 | After a check, an id is unlocked exactly when it was unlocked before or its condition holds |
| Achievements.DueDistinct | app.js:857 | No id is due twice |
| Achievements.CheckKeepsDistinct | app.js:857-895 | No id is unlocked twice, and `golden_soul` and `shield_save` never unlock |
| Achievements.DueCovered | app.js:857 | Once every met id is unlocked, nothing is due |
| Achievements.CheckIdempotent | app.js:853-899 | A second check with the same figures unlocks nothing and awards nothing |
| Leaderboard.Insert | app.js:686-687 | A stable insertion adds one entry and keeps a sorted board sorted |
| Leaderboard.InsertPermutes | app.js:686-687 | An insertion adds exactly the new score |
| Leaderboard.SortDesc | app.js:687 | The descending sort keeps the length and sorts by amount, highest first |
| Leaderboard.SortPermutes | app.js:687 | The sort only reorders |
| Leaderboard.Save | app.js:686-688 | The saved board is sorted, with length min(old + 1, 10) |
| Leaderboard.SaveDrawsFrom | app.js:686-688 | The saved board is a sub-multiset of the old board plus the new score |
| Leaderboard.SaveKeepsBest | app.js:686-688 | No dropped entry outranks a kept one |
| Leaderboard.TruncateKeepsBest | app.js:688 | `splice(10)` on a sorted board drops nothing above what it keeps |
| Leaderboard.DroppedIsTail | app.js:688 | What `splice(10)` drops is exactly the tail after the first ten entries |
| Leaderboard.TailBelowHead | app.js:687-688 | On a sorted board no entry after the cut outranks an entry before it |
| Leaderboard.SaveKeepsNewWhileRoom | app.js:686-688 | While the board has room, the new score is kept and nothing is dropped |
| Leaderboard.InsertAtEnd | app.js:687 | A score no higher than any entry goes to the end |
| Leaderboard.SortSorted | app.js:687 | The stable sort leaves an already sorted board as it is |
| Leaderboard.SaveIsStableInsert | app.js:686-688 | On a sorted board, push-then-sort is one stable insertion after every equal or larger amount, then truncation |
| Game.Initial | app.js:2-26 | The declared initial state satisfies the invariant, with no active round |
| Game.Refill | app.js:122-126 | At load, a wallet at or below zero becomes 100, and any other state is unchanged |
| Game.CheckDailyStreak | app.js:146-165 | Yesterday extends the streak, today keeps it, and no date or any other date resets it to 1. The last play date becomes today and nothing else changes |
| Game.CheckAchievements | app.js:853-899 | Only the unlocked list and the powerups change: the due ids are appended, with one reward each |
| Game.CheckUnlocks | app.js:856-898 | After the check an id is unlocked exactly when it was before or its condition holds on the state's figures |
| Game.CheckKeepsValid | app.js:853-899 | The achievement check keeps the invariant |
| Game.EarnPowerup | app.js:796-799 | Exactly the counter `Powerups.Earn` draws rises, one powerup more in all, and nothing else changes |
| Game.StartGame | app.js:223-253 | A NaN bet, or one below 0.01 or above 10, is refused as invalid, and a bet above the wallet as unaffordable. Otherwise the wallet drops by the bet and the round is reset (multiplier 1, combo 0, shield and fog cleared). One more game is counted, a fresh grid is generated, and the best combo and the ledger carry over |
| Game.ComboBonus | app.js:417 | The combo bonus is never below 1 |
| Game.Chain | app.js:364-367 | The combo rises by one and the best combo is raised to it when exceeded |
| Game.Harvest | app.js:416-437 | A soul or golden soul touches only the multiplier, the combo, the best combo and the powerups. The combo rises by one, and the powerups either stay or earn one |
| Game.Dispatch | app.js:353-382 | A tile handler leaves the grid, the counters and the ledger alone, never lowers the best combo, and earns at most one powerup |
| Game.Ignored | app.js:342-345 | A reveal that does not return early has an active round and a tile at the index |
| Game.Uncover | app.js:344-348 | The tile at the index is marked revealed with kind and factor kept, every other tile stays, the count rises by one, and nothing else changes |
| Game.Settle | app.js:347-385 | Before the fog check a reveal has left the ledger alone, never lowered the best combo, and only appended to the unlocked list: the old list is a prefix of the new one |
| Game.FogFires | app.js:388 | The fog check tests its own flag, so once spent the fog cannot fire again |
| Game.TriggerFog | app.js:514-542 | The fog is marked spent and only the grid changes, as `Fog.Escalate` describes |
| Game.RevealTile | app.js:341-391 | An inactive round or an already revealed tile leaves the state unchanged. Otherwise only that tile's revealed flag changes and the reveal count rises by one, with every factor and the ledger untouched. The best combo never falls and stays at least the combo |
| Game.CashOut | app.js:556-579 | Without an active round nothing changes. Otherwise the state is `Credit`'s except for the achievement check: an id ends up unlocked exactly when it was before or its condition holds on the paid-out figures, and one powerup is earned per new id |
| Game.Credit | app.js:559-574 | Wallet and lifetime winnings rise by stake times multiplier. The best multiplier becomes the larger of the two, the round ends, the score is saved to the leaderboard, and nothing else changes |
| Game.ResetGame | app.js:582-589 | The seven round fields are cleared and nothing else changes: the best combo, the grid, the wallet and the ledger stay |
| Game.UsePowerup | app.js:762-794 | With no active round, or none of the kind left, the use is refused. Otherwise exactly that counter drops by one. A shield arms the shield, a boost multiplies by 1.5, and a reveal changes no game state |
| Game.Load | app.js:87-120 | The declared initial state with only the stored fields replaced: each stored key sets its field, and an absent key leaves the declared value |
| Game.LoadNothing | app.js:2-26 | An empty store loads the declared initial state |
| Game.Boot | app.js:74-84 | After `init` the wallet is positive, the last play date is today, and no round is in progress |
| Game.BootKeepsValid | app.js:74-126 | A stored record that is valid apart from its wallet, even a zero or negative one, is valid after `init` |
| GameLemmas.SettleFrame | app.js:347-385 | Before the fog check a reveal has uncovered just the tile, counted it, and left the fog flag alone |
| GameLemmas.RevealKinds | app.js:341-391 | Kinds change only through the fog. The fog fires only on the fifth reveal while unspent with a roll under 0.2, and converts at most two hidden non-reaper tiles other than the one revealed |
| GameLemmas.FogAtMostOnce | app.js:388-390 | Once the fog is spent, no later reveal changes any tile's kind |
| GameLemmas.FogAfterLosingReveal | app.js:388 | An unshielded reaper on the fifth reveal still spends the fog when the roll is under 0.2 |
| GameLemmas.DispatchScoring | app.js:353-382 | Each handler follows the scoring table. Only an unshielded reaper ends the round, the shield is spent on a reaper, and a soul (golden soul) earns a powerup on a roll under 0.1 (0.2) |
| GameLemmas.DispatchHarvest | app.js:362-373 | Souls and golden souls multiply by factor times `1 + 0.05 * combo`, then extend the combo |
| GameLemmas.DispatchOther | app.js:353-382 | A reaper leaves multiplier and combo alone. A cursed tile multiplies and resets the combo, a mystery tile extends the combo exactly when its factor exceeds 1, and a neutral tile resets the combo |
| GameLemmas.DispatchShielded | app.js:503-511 | A shielded reaper only spends the shield (app.js:357): the handler draws, and the round goes on with every other field unchanged |
| GameLemmas.DispatchUnshielded | app.js:394-413 | An unshielded reaper ends the round and changes nothing else; the delayed callbacks only draw |
| GameLemmas.DispatchCursed | app.js:470-478 | A cursed tile multiplies by its factor and, with the reset at app.js:376, breaks the combo; nothing else changes |
| GameLemmas.DispatchMystery | app.js:481-500 | A mystery tile multiplies by its factor; above 1 it extends the combo and raises the best if exceeded, otherwise it breaks the combo; nothing else changes |
| GameLemmas.DispatchNeutral | app.js:440-445 | A neutral tile only breaks the combo (app.js:381); the handler draws and changes no state |
| GameLemmas.HarvestScoring | app.js:416-467 | The combo bonus uses the combo before the increment |
| GameLemmas.RevealAfterDispatch | app.js:384-391 | After the handler, a reveal only adds achievement rewards and maybe the fog |
| GameLemmas.RevealScoring | app.js:341-391 | A whole reveal scores by the table, ends the round only on an unshielded reaper, and earns one powerup per award and per unlocked achievement. An id ends up unlocked exactly when it was before or its condition holds on the figures the handler left |
| GameLemmas.RevealUnlocks | app.js:384-385 | The achievement check of a reveal unlocks exactly the ids whose conditions hold on the figures the tile handler left |
| GameLemmas.ComboExample | app.js:417-427 | A soul worth 2.0 on a combo of 2 multiplies by exactly 2.2 |
| GameLemmas.RevealTwice | app.js:345 | Revealing the same tile again changes nothing |
| GameLemmas.StartKeepsValid | app.js:223-253 | Starting a round keeps the invariant |
| GameLemmas.StartGrid | app.js:253 | A started round has size² hidden tiles in the fixed proportions |
| GameLemmas.RevealKeepsValid | app.js:341-391 | A reveal keeps the invariant |
| GameLemmas.UncoverKeepsValid | app.js:347-348 | Uncovering a tile keeps the invariant |
| GameLemmas.DispatchKeepsValid | app.js:353-382 | Every handler keeps the invariant on a positive factor |
| GameLemmas.HarvestKeepsValid | app.js:416-467 | Harvesting keeps the invariant |
| GameLemmas.FogKeepsValid | app.js:514-542 | The fog keeps the invariant |
| GameLemmas.CashOutKeepsValid | app.js:556-579 | Cashing out keeps the invariant |
| GameLemmas.CreditKeepsValid | app.js:559-574 | The pay-out keeps the invariant |
| GameLemmas.UseKeepsValid | app.js:762-794 | Using a powerup keeps the invariant |
| GameLemmas.ResetKeepsValid | app.js:582-589 | Resetting keeps the invariant |
| GameLemmas.StartThenCashOut | app.js:239-247 | A round cashed out before any reveal returns exactly the stake |
| GameLemmas.CashOutExample | app.js:559-574 | A stake of 2 at multiplier 3.5 credits exactly 7, and records 7 on a board with room |
| GameLemmas.BoostThenCashOut | app.js:784-787 | Boosting and then cashing out pays 1.5 times what cashing out at once pays |
| GameLemmas.CashOutScaled | app.js:559-560 | Two rounds on one wallet, the second worth 1.5 times the first, pay out in that ratio |
| GameLemmas.CashOutPaysCredit | app.js:574-576 | The leaderboard and achievement steps of `cashOut` leave the wallet as the pay-out left it |
| GameLemmas.BoostScalesWin | app.js:784-787 | A boost keeps the stake and the wallet and scales stake times multiplier by 1.5 |
| GameLemmas.ShieldRearmSpends | app.js:773-777 | Re-arming an armed shield still spends a charge and changes nothing else |
| GameLemmas.StreakIdempotent | app.js:146-165 | Checking the streak twice on one day is the same as checking it once |
| GameLemmas.AchievementsIdempotent | app.js:853-899 | Checking achievements again right away changes nothing |

## Left out

- DOM rendering, display updates, alerts, particles and confetti: these are
  presentation only. `renderGrid`, `showGameOver` and `showAlert` are not
  part of this model.
- The delayed "show all reapers" of `handleReaper` (app.js:402-412) touches
  page elements only, not the grid.
- `revealSafeTiles` (app.js:806-816) only adds a CSS hint class to up to three
  tiles, so the `reveal` powerup changes no game state apart from its counter.
- Web Audio `playSound`, `shareScore` and `fallbackCopy` are foreign APIs and
  clipboard I/O.
- Timers and the `DOMContentLoaded`/`visibilitychange` wiring are event
  plumbing.
- `localStorage` access, JSON parsing and `toFixed(2)` serialisation are I/O.
  The store is the `Saved` record: one optional entry per key that
  `loadGameData` reads, plus the leaderboard key that `saveToLeaderboard`
  reads. `Load` restores only those fields, and the round fields keep their
  declared values. `saveGameData` and the two-decimal rounding of the stored
  wallet are not modelled. A corrupt or hand-edited store is not modelled
  either: unparsable numbers, or stats whose `|| 0` fallback fires on a
  stored zero, which gives the same value.
- IEEE-754 doubles are not modelled:
  - Money and multipliers are exact reals.
  - Tile counts are exact `floor(n * p)`. JavaScript's `22500 * 0.35` rounds
    differently, so grids of side 150 or more may differ by one soul.
  - The stream is exact over the integers. With a raw `Date.now()` seed, the
    first `state * 9301` exceeds 2^53 in JavaScript and loses precision.
- `Math.random()` and `new Date()` are parameters: `Chance` draws, streams of
  draws `nat -> Chance`, and integer day numbers. The seed is the
  non-negative `Date.now()` value, passed in.
- Game.RevealTile: treats an index past the grid as a reveal that changes
  nothing. It is not a precondition, because the source reads
  `gameState.grid[index]` and throws at app.js:344-345 before it changes any
  state.
- Game.Boot: states only the refill, the date and the idle round. Its streak
  and achievement effects are the contracts of `CheckDailyStreak` and
  `CheckAchievements`, which it composes.
- The sound toggle and `soundEnabled` are not part of this model.
- The grid-size selector (app.js:183-190) is not modelled. `gridSize` is an
  input that only the page sets. The selector is not guarded by
  `gameActive`, so a change in mid-round alters the size that
  `saveToLeaderboard` records (app.js:683) without changing the grid in play.

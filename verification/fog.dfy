/**
 * `triggerFogWeather`: collect the unrevealed positions, then up to two times
 * pick one of them at random, turn it into a reaper unless it already is one,
 * and drop it from the pool. Only tile kinds change.
 */
module Fog {
  import opened Random
  import opened Tiles
  import opened Sequences

  /** The unrevealed positions from `from` on, in ascending order. */
  function UnrevealedFrom(grid: seq<Tile>, from: nat): (pool: seq<nat>)
    requires from <= |grid|
    ensures forall i: nat :: i in pool <==> from <= i < |grid| && !grid[i].revealed
    ensures Distinct(pool) && Within(pool, |grid|)
    decreases |grid| - from
  {
    if from == |grid| then []
    else
      var rest := UnrevealedFrom(grid, from + 1);
      if grid[from].revealed then rest else [from] + rest
  }

  /** `unrevealedIndices`: every unrevealed position of the grid, each once. */
  function Unrevealed(grid: seq<Tile>): (pool: seq<nat>)
    ensures forall i: nat :: i in pool <==> i < |grid| && !grid[i].revealed
    ensures Distinct(pool) && Within(pool, |grid|)
  {
    UnrevealedFrom(grid, 0)
  }

  /** The pool without its entry at `at`, as `splice(at, 1)` leaves it. */
  function RemoveAt(pool: seq<nat>, at: nat): (rest: seq<nat>)
    requires at < |pool| && Distinct(pool)
    ensures |rest| == |pool| - 1
    ensures Distinct(rest)
    ensures forall i: nat :: i in rest <==> i in pool && i != pool[at]
  {
    var rest := pool[..at] + pool[at + 1..];
    assert pool == pool[..at] + [pool[at]] + pool[at + 1..];
    rest
  }

  /**
   * The conversion loop, `added` reapers in; the k-th pick draws from `picks(k)`.
   * It returns the new grid and the positions it converted.
   */
  function Convert(grid: seq<Tile>, pool: seq<nat>, added: nat, picks: nat -> Chance, k: nat)
    : (r: (seq<Tile>, seq<nat>))
    requires added <= 2 && Distinct(pool)
    requires forall i :: i in pool ==> i < |grid|
    ensures |r.0| == |grid|
    ensures |r.1| <= 2 - added
    decreases |pool|
  {
    if added == 2 || |pool| == 0 then (grid, [])
    else
      var at := Pick(picks(k), |pool|);
      var t := pool[at];
      assert t in pool;
      var rest := RemoveAt(pool, at);
      if grid[t].kind != Reaper then
        var next := Convert(grid[t := grid[t].(kind := Reaper)], rest, added + 1, picks, k + 1);
        (next.0, [t] + next.1)
      else
        Convert(grid, rest, added, picks, k + 1)
  }

  /** What the loop converts: distinct pool positions that were not reapers, and nothing else. */
  lemma {:induction false} ConvertChanges(grid: seq<Tile>, pool: seq<nat>, added: nat, picks: nat -> Chance, k: nat)
    requires added <= 2 && Distinct(pool)
    requires forall i :: i in pool ==> i < |grid|
    ensures var r := Convert(grid, pool, added, picks, k);
      && Distinct(r.1)
      && (forall i :: i in r.1 ==> i in pool && grid[i].kind != Reaper)
      && (forall i :: 0 <= i < |grid| ==> r.0[i] == if i in r.1 then grid[i].(kind := Reaper) else grid[i])
    decreases |pool|
  {
    if added < 2 && |pool| > 0 {
      var at := Pick(picks(k), |pool|);
      var t := pool[at];
      assert t in pool;
      var rest := RemoveAt(pool, at);
      if grid[t].kind != Reaper {
        var g1 := grid[t := grid[t].(kind := Reaper)];
        ConvertChanges(g1, rest, added + 1, picks, k + 1);
        var next := Convert(g1, rest, added + 1, picks, k + 1);
        assert Convert(grid, pool, added, picks, k) == (next.0, [t] + next.1);
        assert t !in next.1;
        forall i | 0 <= i < |grid|
          ensures next.0[i] == if i in [t] + next.1 then grid[i].(kind := Reaper) else grid[i]
        {
          if i == t {
            assert i !in next.1;
          }
        }
      } else {
        ConvertChanges(grid, rest, added, picks, k + 1);
      }
    }
  }

  /** The smaller of two counts. */
  function Min(a: nat, b: nat): nat
  {
    if a <= b then a else b
  }

  /** Every position of the pool lies in a grid of `n` tiles. */
  predicate Within(pool: seq<nat>, n: nat)
  {
    forall j :: 0 <= j < |pool| ==> pool[j] < n
  }

  /** A pool whose members all lie below `n` is within a grid of `n` tiles. */
  lemma MembersWithin(pool: seq<nat>, n: nat)
    requires forall i :: i in pool ==> i < n
    ensures Within(pool, n)
  {
    forall j | 0 <= j < |pool| ensures pool[j] < n {
      assert pool[j] in pool;
    }
  }

  /** Whether pool entry `i` is a tile the loop can still convert. */
  predicate Convertible(grid: seq<Tile>, i: nat)
  {
    i < |grid| && grid[i].kind != Reaper
  }

  /** The pool entries that are not reapers yet: the tiles the loop can still convert. */
  function Candidates(grid: seq<Tile>, pool: seq<nat>): nat
  {
    if |pool| == 0 then 0
    else (if Convertible(grid, pool[0]) then 1 else 0) + Candidates(grid, pool[1..])
  }

  lemma {:induction false} CandidatesConcat(grid: seq<Tile>, a: seq<nat>, b: seq<nat>)
    ensures Candidates(grid, a + b) == Candidates(grid, a) + Candidates(grid, b)
  {
    if |a| > 0 {
      assert (a + b)[1..] == a[1..] + b;
      CandidatesConcat(grid, a[1..], b);
    } else {
      assert a + b == b;
    }
  }

  /** Dropping the entry at `at` loses one candidate exactly when that entry was not a reaper. */
  lemma CandidatesRemove(grid: seq<Tile>, pool: seq<nat>, at: nat)
    requires at < |pool| && Distinct(pool)
    ensures Candidates(grid, pool)
         == Candidates(grid, RemoveAt(pool, at)) + (if Convertible(grid, pool[at]) then 1 else 0)
  {
    var front, back := pool[..at], pool[at + 1..];
    assert pool == front + ([pool[at]] + back);
    assert RemoveAt(pool, at) == front + back;
    CandidatesConcat(grid, front, [pool[at]] + back);
    CandidatesConcat(grid, [pool[at]], back);
    CandidatesConcat(grid, front, back);
  }

  /** Converting a tile outside the pool leaves the pool's candidates as they were. */
  lemma {:induction false} CandidatesFrame(grid: seq<Tile>, pool: seq<nat>, t: nat)
    requires t < |grid| && t !in pool
    ensures Candidates(grid[t := grid[t].(kind := Reaper)], pool) == Candidates(grid, pool)
  {
    if |pool| > 0 {
      CandidatesFrame(grid, pool[1..], t);
    }
  }

  /**
   * The loop stops only when it has added two reapers or the pool is empty,
   * so it converts exactly as many tiles as it still may and can.
   */
  lemma {:induction false} ConvertCount(grid: seq<Tile>, pool: seq<nat>, added: nat, picks: nat -> Chance, k: nat)
    requires added <= 2 && Distinct(pool)
    requires Within(pool, |grid|)
    ensures |Convert(grid, pool, added, picks, k).1| == Min(2 - added, Candidates(grid, pool))
    decreases |pool|
  {
    if added < 2 && |pool| > 0 {
      var at := Pick(picks(k), |pool|);
      var t := pool[at];
      assert t in pool;
      var rest := RemoveAt(pool, at);
      MembersWithin(rest, |grid|);
      CandidatesRemove(grid, pool, at);
      if grid[t].kind != Reaper {
        var g1 := grid[t := grid[t].(kind := Reaper)];
        CandidatesFrame(grid, rest, t);
        ConvertCount(g1, rest, added + 1, picks, k + 1);
        var next := Convert(g1, rest, added + 1, picks, k + 1);
        assert Convert(grid, pool, added, picks, k) == (next.0, [t] + next.1);
      } else {
        ConvertCount(grid, rest, added, picks, k + 1);
        assert Convert(grid, pool, added, picks, k) == Convert(grid, rest, added, picks, k + 1);
      }
    }
  }

  /** The hidden non-reaper positions from `from` on: the tiles the fog can reach. */
  function Targets(grid: seq<Tile>, from: nat): nat
    requires from <= |grid|
    decreases |grid| - from
  {
    if from == |grid| then 0
    else (if !grid[from].revealed && grid[from].kind != Reaper then 1 else 0) + Targets(grid, from + 1)
  }

  /** The candidates of the unrevealed pool are exactly the hidden non-reaper tiles. */
  lemma {:induction false} TargetsAreCandidates(grid: seq<Tile>, from: nat)
    requires from <= |grid|
    ensures Candidates(grid, UnrevealedFrom(grid, from)) == Targets(grid, from)
    decreases |grid| - from
  {
    if from < |grid| {
      var rest := UnrevealedFrom(grid, from + 1);
      TargetsAreCandidates(grid, from + 1);
      if grid[from].revealed {
        assert UnrevealedFrom(grid, from) == rest;
      } else {
        var pool := [from] + rest;
        assert UnrevealedFrom(grid, from) == pool;
        assert pool[0] == from && pool[1..] == rest;
      }
    }
  }

  /**
   * The effect of the escalation on the grid: exactly min(2, hidden
   * non-reapers) positions change, each was unrevealed and not a reaper, and
   * each becomes a reaper with its revealed flag and factor untouched.
   */
  function Escalate(grid: seq<Tile>, picks: nat -> Chance): (r: (seq<Tile>, seq<nat>))
    ensures |r.0| == |grid|
    ensures |r.1| == Min(2, Targets(grid, 0)) && Distinct(r.1)
    ensures forall i :: i in r.1 ==> i < |grid| && !grid[i].revealed && grid[i].kind != Reaper
    ensures forall i :: 0 <= i < |grid| ==>
      r.0[i] == if i in r.1 then grid[i].(kind := Reaper) else grid[i]
  {
    ConvertChanges(grid, Unrevealed(grid), 0, picks, 0);
    ConvertCount(grid, Unrevealed(grid), 0, picks, 0);
    TargetsAreCandidates(grid, 0);
    Convert(grid, Unrevealed(grid), 0, picks, 0)
  }
}

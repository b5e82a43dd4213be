/**
 * `saveToLeaderboard`: push the new score, sort by amount, highest first,
 * with the stable `Array.prototype.sort`, and keep the first ten.
 */
module Leaderboard {

  /** One leaderboard entry; `date` is the day number of the cash-out. */
  datatype Score = Score(amount: real, multiplier: real, date: int, gridSize: nat)

  const Capacity: nat := 10

  /** Highest amount first. */
  predicate SortedDesc(xs: seq<Score>)
  {
    forall i, j :: 0 <= i < j < |xs| ==> xs[i].amount >= xs[j].amount
  }

  /** Put `s` after every leading entry whose amount is at least its own. */
  function Insert(xs: seq<Score>, s: Score): (r: seq<Score>)
    ensures |r| == |xs| + 1
    ensures r[0] == s || (|xs| > 0 && r[0] == xs[0])
    ensures SortedDesc(xs) ==> SortedDesc(r)
  {
    if |xs| == 0 then [s]
    else if xs[0].amount >= s.amount then
      var tail := Insert(xs[1..], s);
      assert |xs| > 1 ==> xs[1] == xs[1..][0];
      [xs[0]] + tail
    else [s] + xs
  }

  /** Inserting adds exactly the one new entry. */
  lemma {:induction false} InsertPermutes(xs: seq<Score>, s: Score)
    ensures multiset(Insert(xs, s)) == multiset(xs) + multiset{s}
  {
    if |xs| > 0 && xs[0].amount >= s.amount {
      InsertPermutes(xs[1..], s);
      assert xs == [xs[0]] + xs[1..];
    }
  }

  /**
   * The comparator sort `(a, b) => b.amount - a.amount` as a stable insertion
   * sort: each entry, left to right, goes after the equal ones already placed.
   */
  function SortDesc(xs: seq<Score>): (r: seq<Score>)
    ensures |r| == |xs|
    ensures SortedDesc(r)
  {
    if |xs| == 0 then []
    else Insert(SortDesc(xs[..|xs| - 1]), xs[|xs| - 1])
  }

  /** Sorting only reorders. */
  lemma {:induction false} SortPermutes(xs: seq<Score>)
    ensures multiset(SortDesc(xs)) == multiset(xs)
  {
    if |xs| > 0 {
      var init, last := xs[..|xs| - 1], xs[|xs| - 1];
      SortPermutes(init);
      InsertPermutes(SortDesc(init), last);
      assert SortDesc(xs) == Insert(SortDesc(init), last);
      assert xs == init + [last];
      assert multiset(xs) == multiset(init) + multiset{last};
    }
  }

  /** The board after saving `s`: push, sort, `splice(10)`. */
  function Save(board: seq<Score>, s: Score): (r: seq<Score>)
    ensures SortedDesc(r)
    ensures |r| == if |board| + 1 < Capacity then |board| + 1 else Capacity
  {
    var all := SortDesc(board + [s]);
    if |all| <= Capacity then all else all[..Capacity]
  }

  /** Saving keeps only entries that were on the board or the new score. */
  lemma SaveDrawsFrom(board: seq<Score>, s: Score)
    ensures multiset(Save(board, s)) <= multiset(board) + multiset{s}
  {
    var all := SortDesc(board + [s]);
    SortPermutes(board + [s]);
    if |all| > Capacity {
      assert all == all[..Capacity] + all[Capacity..];
    }
  }

  /** No entry that `Save` drops outranks an entry it keeps. */
  lemma SaveKeepsBest(board: seq<Score>, s: Score)
    ensures forall y, x :: y in multiset(board + [s]) - multiset(Save(board, s)) && x in Save(board, s)
                           ==> y.amount <= x.amount
  {
    var all := SortDesc(board + [s]);
    SortPermutes(board + [s]);
    if |all| > Capacity {
      TruncateKeepsBest(all, Capacity);
    } else {
      assert multiset(board + [s]) - multiset(Save(board, s)) == multiset{};
    }
  }

  /** Cutting a sorted board after `n` entries drops nothing above what it keeps. */
  lemma TruncateKeepsBest(all: seq<Score>, n: nat)
    requires SortedDesc(all) && n <= |all|
    ensures forall y, x :: y in multiset(all) - multiset(all[..n]) && x in all[..n] ==> y.amount <= x.amount
  {
    DroppedIsTail(all, n);
    TailBelowHead(all, n);
  }

  /** What a cut after `n` entries drops is exactly the tail. */
  lemma DroppedIsTail(all: seq<Score>, n: nat)
    requires n <= |all|
    ensures multiset(all) - multiset(all[..n]) == multiset(all[n..])
  {
    assert all == all[..n] + all[n..];
  }

  /** On a sorted board no entry of the tail outranks an entry of the head. */
  lemma TailBelowHead(all: seq<Score>, n: nat)
    requires SortedDesc(all) && n <= |all|
    ensures forall y, x :: y in all[n..] && x in all[..n] ==> y.amount <= x.amount
  {
    forall y: Score, x: Score | y in all[n..] && x in all[..n]
      ensures y.amount <= x.amount
    {
      var j :| 0 <= j < |all[n..]| && all[n..][j] == y;
      var i :| 0 <= i < n && all[..n][i] == x;
      assert all[i] == x && all[n + j] == y;
    }
  }

  /** While the board has room, the new score is always kept. */
  lemma SaveKeepsNewWhileRoom(board: seq<Score>, s: Score)
    requires |board| < Capacity
    ensures s in Save(board, s)
    ensures multiset(Save(board, s)) == multiset(board) + multiset{s}
  {
    SortPermutes(board + [s]);
    assert s in multiset(board + [s]);
  }

  lemma {:induction false} InsertAtEnd(xs: seq<Score>, s: Score)
    requires forall i :: 0 <= i < |xs| ==> xs[i].amount >= s.amount
    ensures Insert(xs, s) == xs + [s]
  {
    if |xs| > 0 {
      InsertAtEnd(xs[1..], s);
      assert xs == [xs[0]] + xs[1..];
    }
  }

  /** Sorting a board that is already sorted leaves it as it is. */
  lemma {:induction false} SortSorted(xs: seq<Score>)
    requires SortedDesc(xs)
    ensures SortDesc(xs) == xs
  {
    if |xs| > 0 {
      var init := xs[..|xs| - 1];
      assert SortedDesc(init);
      SortSorted(init);
      InsertAtEnd(init, xs[|xs| - 1]);
      assert init + [xs[|xs| - 1]] == xs;
    }
  }

  /**
   * On a board that is already sorted, push-then-sort is a single stable
   * insertion: the new score lands after every entry with an equal or larger amount.
   */
  lemma SaveIsStableInsert(board: seq<Score>, s: Score)
    requires SortedDesc(board)
    ensures SortDesc(board + [s]) == Insert(board, s)
    ensures Save(board, s) == if |board| < Capacity then Insert(board, s) else Insert(board, s)[..Capacity]
  {
    assert (board + [s])[..|board|] == board;
    SortSorted(board);
  }
}

/**
 * The leaderboard: submissions grouped by user in order of first
 * appearance, each user scored by the truncated mean of all its submission
 * scores, named from the users table, ranked by score with ties kept in
 * order, and cut to the first `limit` entries. The dashboard's counters and
 * success rate are not modelled.
 */
module Dashboard {
  import opened Base
  import opened Models

  datatype LeaderboardEntry = LeaderboardEntry(userId: string, name: string, score: int)

  datatype LeaderboardError = NegativeLimit  // `take` refuses a negative count

  const DefaultLimit: int := 10
  const UnknownName: string := "Unknown"

  // ---------------------------------------------------------------------------
  // Grouping
  // ---------------------------------------------------------------------------

  /** The users that submitted anything. */
  function Submitters(submissions: seq<Submission>): set<string>
  {
    set i | 0 <= i < |submissions| :: submissions[i].userId
  }

  /** `groupBy`'s keys: each submitter once, in order of its first submission. */
  function UserOrder(submissions: seq<Submission>): seq<string>
  {
    if |submissions| == 0 then []
    else
      var earlier := UserOrder(submissions[..|submissions| - 1]);
      var u := submissions[|submissions| - 1].userId;
      if u in earlier then earlier else earlier + [u]
  }

  predicate Distinct(users: seq<string>)
  {
    forall i, j :: 0 <= i < j < |users| ==> users[i] != users[j]
  }

  lemma {:induction false} UserOrderIsSubmitters(submissions: seq<Submission>)
    ensures Distinct(UserOrder(submissions))
    ensures forall u :: u in UserOrder(submissions) <==> u in Submitters(submissions)
  {
    if |submissions| > 0 {
      var init := submissions[..|submissions| - 1];
      UserOrderIsSubmitters(init);
      assert Submitters(submissions) == Submitters(init) + {submissions[|submissions| - 1].userId} by {
        forall u | u in Submitters(submissions) ensures u in Submitters(init) + {submissions[|submissions| - 1].userId} {
          var i :| 0 <= i < |submissions| && submissions[i].userId == u;
          if i < |submissions| - 1 {
            assert init[i] == submissions[i];
          }
        }
        forall u | u in Submitters(init) ensures u in Submitters(submissions) {
          var i :| 0 <= i < |init| && init[i].userId == u;
          assert submissions[i] == init[i];
        }
      }
    }
  }

  /** One user's scores, in submission order. */
  function ScoresOf(submissions: seq<Submission>, userId: string): seq<int>
  {
    if |submissions| == 0 then []
    else
      var rest := ScoresOf(submissions[1..], userId);
      if submissions[0].userId == userId then [submissions[0].score] + rest else rest
  }

  lemma {:induction false} SubmitterHasScores(submissions: seq<Submission>, userId: string)
    ensures |ScoresOf(submissions, userId)| > 0 <==> userId in Submitters(submissions)
  {
    if |submissions| > 0 {
      SubmitterHasScores(submissions[1..], userId);
      assert Submitters(submissions) == {submissions[0].userId} + Submitters(submissions[1..]) by {
        forall u | u in Submitters(submissions) ensures u in {submissions[0].userId} + Submitters(submissions[1..]) {
          var i :| 0 <= i < |submissions| && submissions[i].userId == u;
          if i > 0 {
            assert submissions[1..][i - 1] == submissions[i];
          }
        }
        forall u | u in Submitters(submissions[1..]) ensures u in Submitters(submissions) {
          var i :| 0 <= i < |submissions[1..]| && submissions[1..][i].userId == u;
          assert submissions[i + 1] == submissions[1..][i];
        }
      }
    }
  }

  // ---------------------------------------------------------------------------
  // Truncated mean
  // ---------------------------------------------------------------------------

  function Sum(xs: seq<int>): int
  {
    if |xs| == 0 then 0 else xs[0] + Sum(xs[1..])
  }

  /** `average().toInt()`: the exact mean, truncated toward zero. */
  function TruncatedMean(xs: seq<int>): int
    requires |xs| > 0
  {
    var s := Sum(xs);
    if s >= 0 then s / |xs| else -((-s) / |xs|)
  }

  lemma DivBracket(a: int, n: int)
    requires a >= 0 && n > 0
    ensures (a / n) * n <= a < (a / n) * n + n
  {
  }

  lemma MulOrder(a: int, b: int, n: int)
    requires n > 0
    ensures a <= b <==> a * n <= b * n
  {
    if a <= b {
      assert (b - a) * n >= 0;
    } else {
      assert (a - b) * n > 0;
    }
  }

  /** The mean is the exact quotient rounded toward zero: within one of it, on zero's side. */
  lemma TruncatedMeanBracket(xs: seq<int>)
    requires |xs| > 0
    ensures var m, s, n := TruncatedMean(xs), Sum(xs), |xs|;
      && (s >= 0 ==> 0 <= m && m * n <= s < m * n + n)
      && (s < 0 ==> m <= 0 && m * n - n < s <= m * n)
  {
    var s, n := Sum(xs), |xs|;
    if s >= 0 {
      DivBracket(s, n);
    } else {
      var q := (-s) / n;
      DivBracket(-s, n);
      assert TruncatedMean(xs) * n == -(q * n);
    }
  }

  lemma {:induction false} SumBounds(xs: seq<int>, lo: int, hi: int)
    requires forall i :: 0 <= i < |xs| ==> lo <= xs[i] <= hi
    ensures |xs| * lo <= Sum(xs) <= |xs| * hi
  {
    if |xs| > 0 {
      SumBounds(xs[1..], lo, hi);
      assert |xs| * lo == lo + (|xs| - 1) * lo;
      assert |xs| * hi == hi + (|xs| - 1) * hi;
    }
  }

  /** Scores within a range average to a score within that range. */
  lemma TruncatedMeanWithin(xs: seq<int>, lo: int, hi: int)
    requires |xs| > 0
    requires forall i :: 0 <= i < |xs| ==> lo <= xs[i] <= hi
    ensures lo <= TruncatedMean(xs) <= hi
  {
    var m, n := TruncatedMean(xs), |xs|;
    SumBounds(xs, lo, hi);
    TruncatedMeanBracket(xs);
    assert n * lo == lo * n && n * hi == hi * n;
    if Sum(xs) >= 0 {
      MulOrder(m, hi, n);
      MulOrder(m + 1, lo, n);
      assert (m + 1) * n == m * n + n;
    } else {
      MulOrder(lo, m, n);
      MulOrder(hi, m - 1, n);
      assert (m - 1) * n == m * n - n;
    }
  }

  // ---------------------------------------------------------------------------
  // Entries and ranking
  // ---------------------------------------------------------------------------

  /** A user's entry: its name, or "Unknown" when the users table has none. */
  function Entry(submissions: seq<Submission>, names: map<string, string>, userId: string): LeaderboardEntry
    requires userId in Submitters(submissions)
  {
    SubmitterHasScores(submissions, userId);
    LeaderboardEntry(userId, if userId in names then names[userId] else UnknownName,
                     TruncatedMean(ScoresOf(submissions, userId)))
  }

  /** `grouped.map { … }`: one entry per submitter, in grouping order. */
  function Entries(submissions: seq<Submission>, names: map<string, string>): (r: seq<LeaderboardEntry>)
    ensures |r| == |UserOrder(submissions)|
    ensures forall i :: 0 <= i < |r| ==> r[i].userId == UserOrder(submissions)[i]
  {
    var order := UserOrder(submissions);
    UserOrderIsSubmitters(submissions);
    seq(|order|, i requires 0 <= i < |order| => Entry(submissions, names, order[i]))
  }

  predicate SortedDesc(s: seq<LeaderboardEntry>)
  {
    forall i, j :: 0 <= i < j < |s| ==> s[i].score >= s[j].score
  }

  predicate DistinctUsers(s: seq<LeaderboardEntry>)
  {
    forall i, j :: 0 <= i < j < |s| ==> s[i].userId != s[j].userId
  }

  /** The entries with score `k`, in order. */
  function WithScore(s: seq<LeaderboardEntry>, k: int): seq<LeaderboardEntry>
  {
    if |s| == 0 then []
    else (if s[0].score == k then [s[0]] else []) + WithScore(s[1..], k)
  }

  /** Puts `x` before the first entry scoring no more than it. */
  function InsertDesc(sorted: seq<LeaderboardEntry>, x: LeaderboardEntry): seq<LeaderboardEntry>
  {
    if |sorted| == 0 then [x]
    else if sorted[0].score <= x.score then [x] + sorted
    else [sorted[0]] + InsertDesc(sorted[1..], x)
  }

  /** `sortedByDescending { it.score }`, a stable sort. */
  function SortDesc(s: seq<LeaderboardEntry>): seq<LeaderboardEntry>
  {
    if |s| == 0 then [] else InsertDesc(SortDesc(s[1..]), s[0])
  }

  /** Every entry scores at most `bound`. */
  predicate AllAtMost(s: seq<LeaderboardEntry>, bound: int)
  {
    forall i :: 0 <= i < |s| ==> s[i].score <= bound
  }

  lemma SortedCons(head: LeaderboardEntry, tail: seq<LeaderboardEntry>)
    requires SortedDesc(tail) && AllAtMost(tail, head.score)
    ensures SortedDesc([head] + tail)
  {
  }

  lemma {:induction false} InsertDescPermutes(t: seq<LeaderboardEntry>, x: LeaderboardEntry)
    ensures multiset(InsertDesc(t, x)) == multiset(t) + multiset{x}
    ensures |InsertDesc(t, x)| == |t| + 1
  {
    if |t| > 0 && t[0].score > x.score {
      InsertDescPermutes(t[1..], x);
      assert t == [t[0]] + t[1..];
    }
  }

  lemma {:induction false} InsertDescAtMost(t: seq<LeaderboardEntry>, x: LeaderboardEntry, bound: int)
    requires AllAtMost(t, bound) && x.score <= bound
    ensures AllAtMost(InsertDesc(t, x), bound)
  {
    if |t| > 0 && t[0].score > x.score {
      InsertDescAtMost(t[1..], x, bound);
    }
  }

  lemma {:induction false} InsertDescSorted(t: seq<LeaderboardEntry>, x: LeaderboardEntry)
    requires SortedDesc(t)
    ensures SortedDesc(InsertDesc(t, x))
  {
    if |t| == 0 {
    } else if t[0].score <= x.score {
      SortedCons(x, t);
    } else {
      InsertDescSorted(t[1..], x);
      InsertDescAtMost(t[1..], x, t[0].score);
      SortedCons(t[0], InsertDesc(t[1..], x));
    }
  }

  lemma WithScoreCons(e: LeaderboardEntry, rest: seq<LeaderboardEntry>, k: int)
    ensures WithScore([e] + rest, k) == (if e.score == k then [e] else []) + WithScore(rest, k)
  {
    assert ([e] + rest)[1..] == rest;
  }

  lemma {:induction false} InsertDescStable(t: seq<LeaderboardEntry>, x: LeaderboardEntry, k: int)
    ensures WithScore(InsertDesc(t, x), k) == (if x.score == k then [x] else []) + WithScore(t, k)
  {
    if |t| == 0 {
      WithScoreCons(x, [], k);
      assert [x] + [] == [x];
    } else if t[0].score <= x.score {
      WithScoreCons(x, t, k);
    } else {
      var rest := InsertDesc(t[1..], x);
      InsertDescStable(t[1..], x, k);
      WithScoreCons(t[0], rest, k);
      WithScoreCons(t[0], t[1..], k);
      assert [t[0]] + t[1..] == t;
      var tail := WithScore(t[1..], k);
      if x.score == k {
        assert t[0].score != k;
        assert WithScore(InsertDesc(t, x), k) == [x] + tail;
      } else {
        assert WithScore(InsertDesc(t, x), k) == WithScore(t, k);
      }
    }
  }

  lemma {:induction false} InsertDescDistinct(t: seq<LeaderboardEntry>, x: LeaderboardEntry)
    requires DistinctUsers(t)
    requires forall i :: 0 <= i < |t| ==> t[i].userId != x.userId
    ensures DistinctUsers(InsertDesc(t, x))
  {
    if |t| > 0 && t[0].score > x.score {
      var rest := InsertDesc(t[1..], x);
      InsertDescDistinct(t[1..], x);
      InsertDescPermutes(t[1..], x);
      forall j | 0 <= j < |rest| ensures t[0].userId != rest[j].userId {
        assert rest[j] in multiset(rest);
        assert rest[j] in t[1..] || rest[j] == x;
      }
    }
  }

  /** The sort orders by score, rearranges without adding or losing entries, and keeps ties in order. */
  lemma {:induction false} SortDescCorrect(s: seq<LeaderboardEntry>)
    ensures SortedDesc(SortDesc(s))
    ensures multiset(SortDesc(s)) == multiset(s)
    ensures |SortDesc(s)| == |s|
    ensures forall k :: WithScore(SortDesc(s), k) == WithScore(s, k)
  {
    if |s| > 0 {
      SortDescCorrect(s[1..]);
      InsertDescSorted(SortDesc(s[1..]), s[0]);
      InsertDescPermutes(SortDesc(s[1..]), s[0]);
      assert s == [s[0]] + s[1..];
      forall k ensures WithScore(SortDesc(s), k) == WithScore(s, k) {
        InsertDescStable(SortDesc(s[1..]), s[0], k);
      }
    }
  }

  lemma {:induction false} SortDescDistinct(s: seq<LeaderboardEntry>)
    requires DistinctUsers(s)
    ensures DistinctUsers(SortDesc(s))
  {
    if |s| > 0 {
      SortDescDistinct(s[1..]);
      SortDescCorrect(s[1..]);
      var t := SortDesc(s[1..]);
      forall i | 0 <= i < |t| ensures t[i].userId != s[0].userId {
        assert t[i] in multiset(s[1..]);
        var j :| 0 <= j < |s[1..]| && s[1..][j] == t[i];
        assert s[j + 1] == t[i];
      }
      InsertDescDistinct(t, s[0]);
    }
  }

  /** The entries, ranked. */
  function Ranked(submissions: seq<Submission>, names: map<string, string>): seq<LeaderboardEntry>
  {
    SortDesc(Entries(submissions, names))
  }

  /** Every ranked entry is a submitter's own entry. */
  lemma RankedMembers(submissions: seq<Submission>, names: map<string, string>)
    ensures var ranked := Ranked(submissions, names);
      forall i :: 0 <= i < |ranked| ==>
        ranked[i].userId in Submitters(submissions) && ranked[i] == Entry(submissions, names, ranked[i].userId)
  {
    var entries := Entries(submissions, names);
    var ranked := Ranked(submissions, names);
    UserOrderIsSubmitters(submissions);
    SortDescCorrect(entries);
    forall i | 0 <= i < |ranked|
      ensures ranked[i].userId in Submitters(submissions) && ranked[i] == Entry(submissions, names, ranked[i].userId)
    {
      assert ranked[i] in multiset(entries);
      var j :| 0 <= j < |entries| && entries[j] == ranked[i];
    }
  }

  /** Every submitter is ranked. */
  lemma RankedCovers(submissions: seq<Submission>, names: map<string, string>)
    ensures var ranked := Ranked(submissions, names);
      forall u :: u in Submitters(submissions) ==> exists i :: 0 <= i < |ranked| && ranked[i].userId == u
  {
    var entries := Entries(submissions, names);
    var ranked := Ranked(submissions, names);
    UserOrderIsSubmitters(submissions);
    SortDescCorrect(entries);
    forall u | u in Submitters(submissions) ensures exists i :: 0 <= i < |ranked| && ranked[i].userId == u {
      var k :| 0 <= k < |entries| && UserOrder(submissions)[k] == u;
      assert entries[k] in multiset(ranked);
      var j :| 0 <= j < |ranked| && ranked[j] == entries[k];
    }
  }

  /** The ranking holds every submitter's entry once, and nothing else. */
  lemma RankedEntries(submissions: seq<Submission>, names: map<string, string>)
    ensures var ranked := Ranked(submissions, names);
      && SortedDesc(ranked) && DistinctUsers(ranked)
      && |ranked| == |Submitters(submissions)|
      && (forall i :: 0 <= i < |ranked| ==>
            ranked[i].userId in Submitters(submissions) && ranked[i] == Entry(submissions, names, ranked[i].userId))
      && (forall u :: u in Submitters(submissions) ==> exists i :: 0 <= i < |ranked| && ranked[i].userId == u)
  {
    var entries := Entries(submissions, names);
    UserOrderIsSubmitters(submissions);
    DistinctCardinality(UserOrder(submissions));
    assert (set u | u in UserOrder(submissions)) == Submitters(submissions);
    SortDescCorrect(entries);
    SortDescDistinct(entries);
    RankedMembers(submissions, names);
    RankedCovers(submissions, names);
  }

  /** `getLeaderboard`. */
  function Leaderboard(submissions: seq<Submission>, names: map<string, string>, limit: int := DefaultLimit)
    : Result<seq<LeaderboardEntry>, LeaderboardError>
  {
    if |submissions| == 0 then Ok([])
    else if limit < 0 then Err(NegativeLimit)
    else
      var ranked := Ranked(submissions, names);
      Ok(if limit < |ranked| then ranked[..limit] else ranked)
  }

  /**
   * No submissions, no leaderboard, whatever the limit; otherwise a
   * negative limit is refused.
   */
  lemma LeaderboardErrors(submissions: seq<Submission>, names: map<string, string>, limit: int)
    ensures |submissions| == 0 ==> Leaderboard(submissions, names, limit) == Ok([])
    ensures Leaderboard(submissions, names, limit).Err? <==> |submissions| > 0 && limit < 0
  {
  }

  /**
   * Each entry is a distinct submitter with its name (or "Unknown") and the
   * truncated mean of its scores, the entries are ranked by score, and there
   * are `limit` of them or one per submitter, whichever is fewer.
   */
  lemma LeaderboardCorrect(submissions: seq<Submission>, names: map<string, string>, limit: int)
    requires limit >= 0
    ensures Leaderboard(submissions, names, limit).Ok?
    ensures var board := Leaderboard(submissions, names, limit).value;
      && |board| == (if limit < |Submitters(submissions)| then limit else |Submitters(submissions)|)
      && SortedDesc(board) && DistinctUsers(board)
      && (forall i :: 0 <= i < |board| ==>
            board[i].userId in Submitters(submissions) && board[i] == Entry(submissions, names, board[i].userId))
  {
    RankedEntries(submissions, names);
  }

  /** A submitter left off the board scores no more than anyone on it. */
  lemma LeaderboardTop(submissions: seq<Submission>, names: map<string, string>, limit: int, u: string)
    requires limit >= 0 && u in Submitters(submissions)
    requires var board := Leaderboard(submissions, names, limit).value;
      forall j :: 0 <= j < |board| ==> board[j].userId != u
    ensures var board := Leaderboard(submissions, names, limit).value;
      forall i :: 0 <= i < |board| ==> board[i].score >= Entry(submissions, names, u).score
  {
    RankedEntries(submissions, names);
    var ranked := Ranked(submissions, names);
    var j :| 0 <= j < |ranked| && ranked[j].userId == u;
  }

  lemma {:induction false} DistinctCardinality(users: seq<string>)
    requires Distinct(users)
    ensures |(set u | u in users)| == |users|
  {
    if |users| > 0 {
      DistinctCardinality(users[1..]);
      assert (set u | u in users) == {users[0]} + (set u | u in users[1..]);
    }
  }

  /** With room for everyone, every submitter has an entry. */
  lemma LeaderboardComplete(submissions: seq<Submission>, names: map<string, string>, limit: int)
    requires limit >= |Submitters(submissions)|
    ensures Leaderboard(submissions, names, limit).Ok?
    ensures var board := Leaderboard(submissions, names, limit).value;
      forall u :: u in Submitters(submissions) ==> exists i :: 0 <= i < |board| && board[i].userId == u
  {
    RankedEntries(submissions, names);
  }
}

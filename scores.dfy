/**
 * The best-times table of one level (script.js:74-79, 173-189): a list of
 * named times kept in ascending order, of which only the three best are
 * stored, and the test that decides whether a finishing time may enter it.
 *
 * The list is ordered with JavaScript's `Array.prototype.sort` and the
 * comparator `a.time - b.time`. That sort is stable, so it is modelled by
 * a stable insertion sort: an entry is placed after every entry whose time
 * is not larger than its own.
 */
module Scores {

  /** How many entries a level's table keeps (`slice(0, 3)`). */
  const Kept := 3

  datatype Score = Score(name: string, time: real)

  predicate Sorted(s: seq<Score>) {
    forall i, j :: 0 <= i < j < |s| ==> s[i].time <= s[j].time
  }

  /** Number of entries whose time is at most `t`. */
  function CountAtMost(s: seq<Score>, t: real): (n: nat)
    ensures n <= |s|
  {
    if s == [] then 0
    else (if s[0].time <= t then 1 else 0) + CountAtMost(s[1..], t)
  }

  /**
   * Places `e` after every leading entry whose time is at most `e.time`;
   * the result is one entry longer (`InsertByTimeEntries`: the entries of
   * `s` and `e`, nothing else).
   */
  function InsertByTime(s: seq<Score>, e: Score): (r: seq<Score>)
    ensures |r| == |s| + 1
  {
    if s == [] then [e]
    else if e.time < s[0].time then [e] + s
    else [s[0]] + InsertByTime(s[1..], e)
  }

  /**
   * Stable ascending sort by time: insertion of each entry in list order.
   * It yields an ascending list of the same length (`SortByTimePermutes`:
   * a permutation of its input).
   */
  function SortByTime(s: seq<Score>): (r: seq<Score>)
    ensures Sorted(r)
    ensures |r| == |s|
  {
    if s == [] then []
    else
      var init, last := s[..|s| - 1], s[|s| - 1];
      InsertSorted(SortByTime(init), last);
      InsertByTime(SortByTime(init), last)
  }

  /** The first `n` entries, or all of them when there are fewer (`slice(0, n)`). */
  function Take(s: seq<Score>, n: nat): (r: seq<Score>)
    ensures |r| == if |s| <= n then |s| else n
    ensures r == s[..|r|]
  {
    if |s| <= n then s else s[..n]
  }

  /**
   * A new time `e` is recorded: appended, the list sorted, and cut to the
   * three best. The table is then sorted and holds at most three entries
   * (three once there were at least two); `RecordTimeEntries`: nothing but
   * old entries and the new one.
   */
  function RecordTime(s: seq<Score>, e: Score): (r: seq<Score>)
    ensures Sorted(r)
    ensures |r| == if |s| < Kept then |s| + 1 else Kept
  {
    var sorted := SortByTime(s + [e]);
    Take(sorted, Kept)
  }

  /**
   * The eligibility rule: room left in the table, or a listed time is
   * beaten. For a table of at most three entries this is exactly "the new
   * time will stay in the table": fewer than three listed times are at
   * most `t`.
   */
  predicate Eligible(s: seq<Score>, t: real)
    ensures |s| <= Kept ==> (Eligible(s, t) <==> CountAtMost(s, t) < Kept)
  {
    CountAll(s, t);
    |s| < Kept || exists i :: 0 <= i < |s| && t < s[i].time
  }

  /**
   * The scan in `finishLevel` deciding whether `finalTime` may enter the
   * table: true outright for fewer than three entries, otherwise true as
   * soon as a listed time is larger.
   */
  method CanBeHighscore(scores: seq<Score>, finalTime: real) returns (can: bool)
    ensures can <==> Eligible(scores, finalTime)
  {
    can := false;
    if |scores| < Kept {
      can := true;
    } else {
      var i := 0;
      while i < |scores|
        invariant 0 <= i <= |scores|
        invariant !can
        invariant forall j :: 0 <= j < i ==> finalTime >= scores[j].time
      {
        if finalTime < scores[i].time {
          can := true;
          break;
        }
        i := i + 1;
      }
    }
  }

  /** Inserting into a sorted list keeps it sorted and adds exactly `e`. */
  lemma InsertByTimeSpec(s: seq<Score>, e: Score)
    requires Sorted(s)
    ensures var r := InsertByTime(s, e);
            Sorted(r) && multiset(r) == multiset(s) + multiset{e} && |r| == |s| + 1
  {
    InsertSorted(s, e);
    InsertByTimeEntries(s, e);
  }

  /** Insertion holds the entries of `s` and `e`, nothing else. */
  lemma {:induction false} InsertByTimeEntries(s: seq<Score>, e: Score)
    ensures multiset(InsertByTime(s, e)) == multiset(s) + multiset{e}
  {
    if s != [] && s[0].time <= e.time {
      InsertByTimeEntries(s[1..], e);
      assert s == [s[0]] + s[1..];
    }
  }

  /** Sorting permutes: the sorted list holds exactly the entries of its input. */
  lemma {:induction false} SortByTimePermutes(s: seq<Score>)
    ensures multiset(SortByTime(s)) == multiset(s)
  {
    if s != [] {
      var init, last := s[..|s| - 1], s[|s| - 1];
      SortByTimePermutes(init);
      InsertByTimeEntries(SortByTime(init), last);
      assert s == init + [last];
    }
  }

  /** Recording keeps nothing but old entries and the new one. */
  lemma RecordTimeEntries(s: seq<Score>, e: Score)
    ensures multiset(RecordTime(s, e)) <= multiset(s) + multiset{e}
  {
    var sorted := SortByTime(s + [e]);
    SortByTimePermutes(s + [e]);
    PrefixMultiset(sorted, |RecordTime(s, e)|);
  }

  /** A lower bound on every listed time and on `e` bounds the result too. */
  lemma {:induction false} InsertLowerBound(s: seq<Score>, e: Score, low: real)
    requires forall i :: 0 <= i < |s| ==> low <= s[i].time
    requires low <= e.time
    ensures forall i :: 0 <= i < |InsertByTime(s, e)| ==> low <= InsertByTime(s, e)[i].time
  {
    if s != [] && s[0].time <= e.time {
      InsertLowerBound(s[1..], e, low);
    }
  }

  lemma {:induction false} InsertSorted(s: seq<Score>, e: Score)
    requires Sorted(s)
    ensures Sorted(InsertByTime(s, e))
  {
    if s != [] && s[0].time <= e.time {
      InsertSorted(s[1..], e);
      InsertLowerBound(s[1..], e, s[0].time);
    }
  }

  /** Appending an entry no earlier than every listed one is what insertion does. */
  lemma {:induction false} InsertAtEnd(s: seq<Score>, e: Score)
    requires forall i :: 0 <= i < |s| ==> s[i].time <= e.time
    ensures InsertByTime(s, e) == s + [e]
  {
    if s != [] {
      InsertAtEnd(s[1..], e);
      assert s == [s[0]] + s[1..];
    }
  }

  /** Sorting an already sorted list changes nothing (the sort is stable). */
  lemma {:induction false} SortSortedIsIdentity(s: seq<Score>)
    requires Sorted(s)
    ensures SortByTime(s) == s
  {
    if s != [] {
      var init, last := s[..|s| - 1], s[|s| - 1];
      SortSortedIsIdentity(init);
      InsertAtEnd(init, last);
      assert s == init + [last];
    }
  }

  /** Counting over a concatenation adds the counts of the parts. */
  lemma {:induction false} CountConcat(a: seq<Score>, b: seq<Score>, t: real)
    ensures CountAtMost(a + b, t) == CountAtMost(a, t) + CountAtMost(b, t)
  {
    if a == [] {
      assert a + b == b;
    } else {
      CountConcat(a[1..], b, t);
      assert (a + b)[1..] == a[1..] + b;
    }
  }

  /** Every entry is at most `t` exactly when all of them are counted. */
  lemma {:induction false} CountAll(s: seq<Score>, t: real)
    ensures CountAtMost(s, t) == |s| <==> forall i :: 0 <= i < |s| ==> s[i].time <= t
  {
    if s != [] {
      CountAll(s[1..], t);
      if forall i :: 0 <= i < |s| ==> s[i].time <= t {
        assert forall i :: 0 <= i < |s[1..]| ==> s[1..][i].time <= t by {
          forall i | 0 <= i < |s[1..]| ensures s[1..][i].time <= t { assert s[1..][i] == s[i + 1]; }
        }
      } else {
        var i :| 0 <= i < |s| && s[i].time > t;
        if i > 0 { assert s[1..][i - 1] == s[i]; }
      }
    }
  }

  /** No entry is at most `t`: nothing is counted. */
  lemma {:induction false} CountNone(s: seq<Score>, t: real)
    requires forall i :: 0 <= i < |s| ==> t < s[i].time
    ensures CountAtMost(s, t) == 0
  {
    if s != [] {
      assert forall i :: 0 <= i < |s[1..]| ==> t < s[1..][i].time by {
        forall i | 0 <= i < |s[1..]| ensures t < s[1..][i].time { assert s[1..][i] == s[i + 1]; }
      }
      CountNone(s[1..], t);
    }
  }

  /** Insertion counts `e` once more when it is at most `t`, and nothing else changes. */
  lemma {:induction false} InsertCount(s: seq<Score>, e: Score, t: real)
    ensures CountAtMost(InsertByTime(s, e), t) == CountAtMost(s, t) + (if e.time <= t then 1 else 0)
  {
    if s == [] {
    } else if e.time < s[0].time {
      assert ([e] + s)[1..] == s;
    } else {
      InsertCount(s[1..], e, t);
      assert ([s[0]] + InsertByTime(s[1..], e))[1..] == InsertByTime(s[1..], e);
    }
  }

  /** The last entry of a non-empty list is inserted into the sorted rest. */
  lemma SortUnfold(s: seq<Score>)
    requires s != []
    ensures SortByTime(s) == InsertByTime(SortByTime(s[..|s| - 1]), s[|s| - 1])
  {
  }

  /** Sorting does not change how many entries are at most `t`. */
  lemma {:induction false} SortCount(s: seq<Score>, t: real)
    ensures CountAtMost(SortByTime(s), t) == CountAtMost(s, t)
  {
    if s != [] {
      SortCount(s[..|s| - 1], t);
      SortCountStep(s, t);
    }
  }

  lemma SortCountStep(s: seq<Score>, t: real)
    requires s != []
    requires CountAtMost(SortByTime(s[..|s| - 1]), t) == CountAtMost(s[..|s| - 1], t)
    ensures CountAtMost(SortByTime(s), t) == CountAtMost(s, t)
  {
    var init, last := s[..|s| - 1], s[|s| - 1];
    var one := if last.time <= t then 1 else 0;
    calc {
      CountAtMost(SortByTime(s), t);
      { SortUnfold(s); }
      CountAtMost(InsertByTime(SortByTime(init), last), t);
      { InsertCount(SortByTime(init), last, t); }
      CountAtMost(SortByTime(init), t) + one;
      CountAtMost(init, t) + one;
      { assert CountAtMost([last], t) == one; }
      CountAtMost(init, t) + CountAtMost([last], t);
      { CountConcat(init, [last], t); }
      CountAtMost(init + [last], t);
      { assert init + [last] == s; }
      CountAtMost(s, t);
    }
  }

  /**
   * In a sorted list, `e` is inserted right after the entries at most
   * `e.time`: at index `CountAtMost(s, e.time)`.
   */
  lemma {:induction false} InsertPosition(s: seq<Score>, e: Score)
    requires Sorted(s)
    ensures var k := CountAtMost(s, e.time);
            InsertByTime(s, e) == s[..k] + [e] + s[k..]
  {
    if s == [] {
    } else if e.time < s[0].time {
      CountNone(s, e.time);
    } else {
      var rest := s[1..];
      assert Sorted(rest) by {
        forall i, j | 0 <= i < j < |rest| ensures rest[i].time <= rest[j].time {
          assert rest[i] == s[i + 1] && rest[j] == s[j + 1];
        }
      }
      InsertPosition(rest, e);
      var k := CountAtMost(rest, e.time);
      assert CountAtMost(s, e.time) == k + 1;
      assert InsertByTime(s, e) == [s[0]] + InsertByTime(rest, e);
      assert s[..k + 1] == [s[0]] + rest[..k];
      assert s[k + 1..] == rest[k..];
    }
  }

  /** A prefix of a list holds a sub-multiset of its entries. */
  lemma PrefixMultiset(s: seq<Score>, n: nat)
    requires n <= |s|
    ensures multiset(s[..n]) <= multiset(s)
  {
    assert s == s[..n] + s[n..];
  }

  /**
   * Where the new time lands: with `k` listed times at most `e.time`, the
   * new entry sits at index `k` of the table when `k` is below three, and is
   * cut off, leaving the three best old entries, otherwise.
   */
  lemma RecordTimePosition(s: seq<Score>, e: Score)
    ensures var k := CountAtMost(s, e.time);
            var r := RecordTime(s, e);
            (k < Kept ==> k < |r| && r[k] == e) &&
            (k >= Kept ==> r == Take(SortByTime(s), Kept))
  {
    var sorted := SortByTime(s);
    var k := CountAtMost(s, e.time);
    RecordTimeUnfold(s, e);
    SortCount(s, e.time);
    InsertPosition(sorted, e);
    TakeInserted(sorted, e, k, Kept);
  }

  /**
   * Cutting `a` with `e` inserted at index `k` to `n` entries keeps `e` at
   * index `k` when `k < n`, and otherwise gives the cut of `a` itself.
   */
  lemma TakeInserted(a: seq<Score>, e: Score, k: nat, n: nat)
    requires k <= |a|
    ensures var r := Take(a[..k] + [e] + a[k..], n);
            (k < n ==> k < |r| && r[k] == e) &&
            (k >= n ==> r == Take(a, n))
  {
    var ins := a[..k] + [e] + a[k..];
    assert ins[k] == e;
    if k >= n {
      assert ins[..n] == a[..n];
    }
  }

  /** Recording inserts the new entry into the sorted old table, then cuts it. */
  lemma RecordTimeUnfold(s: seq<Score>, e: Score)
    ensures RecordTime(s, e) == Take(InsertByTime(SortByTime(s), e), Kept)
  {
    assert (s + [e])[..|s + [e]| - 1] == s;
    SortUnfold(s + [e]);
  }

  /**
   * What recording guarantees: the table is sorted with at most three
   * entries, and a time that was eligible against a table of at most three
   * entries is in it.
   */
  lemma RecordTimeKeepsEligible(s: seq<Score>, e: Score)
    ensures Sorted(RecordTime(s, e)) && |RecordTime(s, e)| <= Kept
    ensures |s| <= Kept && Eligible(s, e.time) ==> e in RecordTime(s, e)
  {
    if |s| <= Kept && Eligible(s, e.time) {
      RecordTimePosition(s, e);
    }
  }

  /** Sorting is idempotent: a sorted table is left as it is. */
  lemma SortTwice(s: seq<Score>)
    ensures SortByTime(SortByTime(s)) == SortByTime(s)
  {
    SortSortedIsIdentity(SortByTime(s));
  }

  /** Eligibility does not depend on the order of the table. */
  lemma SortedEligible(s: seq<Score>, t: real)
    ensures Eligible(SortByTime(s), t) <==> Eligible(s, t)
  {
    var sorted := SortByTime(s);
    SortByTimePermutes(s);
    if exists i :: 0 <= i < |s| && t < s[i].time {
      var i :| 0 <= i < |s| && t < s[i].time;
      assert s[i] in multiset(sorted);
    }
    if exists i :: 0 <= i < |sorted| && t < sorted[i].time {
      var i :| 0 <= i < |sorted| && t < sorted[i].time;
      assert sorted[i] in multiset(s);
    }
  }
}

/**
 * The ordering rule of the topic message log. Both update paths order the
 * log with `Array.prototype.sort` and the comparator
 * `(a, b) => a.sequenceNumber - b.sequenceNumber`; that sort is stable, so
 * the result is the stable sort by sequence number. Nothing is removed:
 * entries that share a sequence number are all kept, in arrival order.
 */
module TopicLog {
  import opened HederaTypes

  /** Ascending by sequence number (ties allowed). */
  predicate Sorted(log: seq<TopicMessage>) {
    forall i, j :: 0 <= i < j < |log| ==> log[i].sequenceNumber <= log[j].sequenceNumber
  }

  /** The entries of `log` whose sequence number is `n`, in log order. */
  function WithSequenceNumber(log: seq<TopicMessage>, n: int): seq<TopicMessage>
  {
    if log == [] then []
    else
      WithSequenceNumber(log[..|log| - 1], n)
      + Only(log[|log| - 1], n)
  }

  /** Places `m` after every entry whose sequence number is not larger than its own. */
  function InsertBySequenceNumber(log: seq<TopicMessage>, m: TopicMessage): (r: seq<TopicMessage>)
    ensures |r| == |log| + 1
  {
    if log == [] then [m]
    else if log[|log| - 1].sequenceNumber <= m.sequenceNumber then log + [m]
    else InsertBySequenceNumber(log[..|log| - 1], m) + [log[|log| - 1]]
  }

  /** The stable sort of `log` by sequence number (insertion sort, taking entries in arrival order). */
  function SortBySequenceNumber(log: seq<TopicMessage>): (r: seq<TopicMessage>)
    ensures |r| == |log|
  {
    if log == [] then []
    else InsertBySequenceNumber(SortBySequenceNumber(log[..|log| - 1]), log[|log| - 1])
  }

  /** The live-message rule: `[...prev, m].sort(bySequenceNumber)`. */
  function LiveUpdate(prev: seq<TopicMessage>, m: TopicMessage): (r: seq<TopicMessage>)
    ensures |r| == |prev| + 1
    ensures multiset(r) == multiset(prev) + multiset{m}
    ensures Sorted(r)
    ensures WithSequenceNumber(r, m.sequenceNumber) == WithSequenceNumber(prev, m.sequenceNumber) + [m]
    ensures forall n :: n != m.sequenceNumber ==> WithSequenceNumber(r, n) == WithSequenceNumber(prev, n)
  {
    var log := prev + [m];
    assert log[..|log| - 1] == prev;
    forall n ensures WithSequenceNumber(SortBySequenceNumber(log), n) == WithSequenceNumber(log, n) {
      SortIsStable(log, n);
    }
    SortIsPermutation(log);
    SortIsSorted(log);
    SortBySequenceNumber(log)
  }

  /** Every entry of `log` is at most `bound`. */
  predicate AllAtMost(log: seq<TopicMessage>, bound: int) {
    forall i :: 0 <= i < |log| ==> log[i].sequenceNumber <= bound
  }

  lemma {:induction false} InsertKeepsBound(log: seq<TopicMessage>, m: TopicMessage, bound: int)
    requires AllAtMost(log, bound) && m.sequenceNumber <= bound
    ensures AllAtMost(InsertBySequenceNumber(log, m), bound)
  {
    if log != [] && m.sequenceNumber < log[|log| - 1].sequenceNumber {
      InsertKeepsBound(log[..|log| - 1], m, bound);
    }
  }

  lemma {:induction false} InsertKeepsSorted(log: seq<TopicMessage>, m: TopicMessage)
    requires Sorted(log)
    ensures Sorted(InsertBySequenceNumber(log, m))
  {
    if log != [] && m.sequenceNumber < log[|log| - 1].sequenceNumber {
      var init, last := log[..|log| - 1], log[|log| - 1];
      InsertKeepsSorted(init, m);
      InsertKeepsBound(init, m, last.sequenceNumber);
    }
  }

  /** The sort puts the log in order. */
  lemma {:induction false} SortIsSorted(log: seq<TopicMessage>)
    ensures Sorted(SortBySequenceNumber(log))
  {
    if log != [] {
      SortIsSorted(log[..|log| - 1]);
      InsertKeepsSorted(SortBySequenceNumber(log[..|log| - 1]), log[|log| - 1]);
    }
  }

  /** The insertion adds exactly `m`. */
  lemma {:induction false} InsertIsPermutation(log: seq<TopicMessage>, m: TopicMessage)
    ensures multiset(InsertBySequenceNumber(log, m)) == multiset(log) + multiset{m}
  {
    if log != [] && m.sequenceNumber < log[|log| - 1].sequenceNumber {
      var init := log[..|log| - 1];
      InsertIsPermutation(init, m);
      assert log == init + [log[|log| - 1]];
    }
  }

  /** The sort neither drops nor adds an entry: the result is a permutation of the arrivals. */
  lemma {:induction false} SortIsPermutation(log: seq<TopicMessage>)
    ensures multiset(SortBySequenceNumber(log)) == multiset(log)
  {
    if log != [] {
      var init := log[..|log| - 1];
      SortIsPermutation(init);
      InsertIsPermutation(SortBySequenceNumber(init), log[|log| - 1]);
      assert log == init + [log[|log| - 1]];
    }
  }

  /** `[m]` when `m` has sequence number `n`, otherwise empty. */
  function Only(m: TopicMessage, n: int): seq<TopicMessage> {
    if m.sequenceNumber == n then [m] else []
  }

  lemma WithSequenceNumberAppend(log: seq<TopicMessage>, m: TopicMessage, n: int)
    ensures WithSequenceNumber(log + [m], n) == WithSequenceNumber(log, n) + Only(m, n)
  {
    assert (log + [m])[..|log|] == log;
  }

  lemma {:induction false} InsertIsStable(log: seq<TopicMessage>, m: TopicMessage, n: int)
    requires Sorted(log)
    ensures WithSequenceNumber(InsertBySequenceNumber(log, m), n)
         == WithSequenceNumber(log, n) + Only(m, n)
  {
    if log == [] {
      WithSequenceNumberAppend([], m, n);
      assert [] + [m] == [m];
    } else if log[|log| - 1].sequenceNumber <= m.sequenceNumber {
      WithSequenceNumberAppend(log, m, n);
    } else {
      var init := log[..|log| - 1];
      assert Sorted(init);
      InsertIsStable(init, m, n);
      InsertPastLastIsStable(init, log[|log| - 1], m, n);
      assert log == init + [log[|log| - 1]];
    }
  }

  /** The recursive step of InsertIsStable: `m` moves in front of a larger last entry. */
  lemma InsertPastLastIsStable(init: seq<TopicMessage>, last: TopicMessage, m: TopicMessage, n: int)
    requires m.sequenceNumber < last.sequenceNumber
    requires WithSequenceNumber(InsertBySequenceNumber(init, m), n) == WithSequenceNumber(init, n) + Only(m, n)
    ensures WithSequenceNumber(InsertBySequenceNumber(init + [last], m), n)
         == WithSequenceNumber(init + [last], n) + Only(m, n)
  {
    var inserted := InsertBySequenceNumber(init, m);
    assert InsertBySequenceNumber(init + [last], m) == inserted + [last] by {
      assert (init + [last])[..|init|] == init;
    }
    WithSequenceNumberAppend(inserted, last, n);
    WithSequenceNumberAppend(init, last, n);
    assert Only(m, n) == [] || Only(last, n) == [];
  }

  /** The stable-sort property: per sequence number, the sort keeps the entries and their arrival order. */
  lemma {:induction false} SortIsStable(log: seq<TopicMessage>, n: int)
    ensures WithSequenceNumber(SortBySequenceNumber(log), n) == WithSequenceNumber(log, n)
  {
    if log != [] {
      var init, last := log[..|log| - 1], log[|log| - 1];
      var sorted := SortBySequenceNumber(init);
      assert WithSequenceNumber(InsertBySequenceNumber(sorted, last), n)
          == WithSequenceNumber(sorted, n) + Only(last, n) by {
        SortIsSorted(init);
        InsertIsStable(sorted, last, n);
      }
      SortIsStable(init, n);
    }
  }

  /** Sorting a log that is already in order changes nothing. */
  lemma {:induction false} SortOfSortedIsIdentity(log: seq<TopicMessage>)
    requires Sorted(log)
    ensures SortBySequenceNumber(log) == log
  {
    if log != [] {
      var init := log[..|log| - 1];
      assert Sorted(init);
      SortOfSortedIsIdentity(init);
      assert log == init + [log[|log| - 1]];
    }
  }

  /** On a log that is in order, the live update is one ordered insertion. */
  lemma LiveUpdateOfSortedLogInserts(prev: seq<TopicMessage>, m: TopicMessage)
    requires Sorted(prev)
    ensures LiveUpdate(prev, m) == InsertBySequenceNumber(prev, m)
  {
    var log := prev + [m];
    assert log[..|log| - 1] == prev;
    SortOfSortedIsIdentity(prev);
  }

  lemma WithSequenceNumberMembers(log: seq<TopicMessage>, n: int)
    ensures forall x :: x in WithSequenceNumber(log, n) ==> x in log && x.sequenceNumber == n
  {
    if log != [] {
      var init := log[..|log| - 1];
      WithSequenceNumberMembers(init, n);
      assert log == init + [log[|log| - 1]];
    }
  }

  /** In a sorted log no entry has a larger sequence number than the last one. */
  lemma LastIsLargest(log: seq<TopicMessage>, x: TopicMessage)
    requires Sorted(log) && x in log
    ensures x.sequenceNumber <= log[|log| - 1].sequenceNumber
  {
    var i :| 0 <= i < |log| && log[i] == x;
  }

  /** The last entry of a log ends the subsequence of its own sequence number. */
  lemma LastEndsItsSubsequence(log: seq<TopicMessage>)
    requires log != []
    ensures WithSequenceNumber(log, log[|log| - 1].sequenceNumber)
         == WithSequenceNumber(log[..|log| - 1], log[|log| - 1].sequenceNumber) + [log[|log| - 1]]
  {
  }

  /** Removing the last entry removes it from its own subsequence and from no other. */
  lemma DropLastPerNumber(a: seq<TopicMessage>, b: seq<TopicMessage>, n: int)
    requires a != [] && b != [] && a[|a| - 1] == b[|b| - 1]
    requires WithSequenceNumber(a, n) == WithSequenceNumber(b, n)
    ensures WithSequenceNumber(a[..|a| - 1], n) == WithSequenceNumber(b[..|b| - 1], n)
  {
    var wa, wb := WithSequenceNumber(a[..|a| - 1], n), WithSequenceNumber(b[..|b| - 1], n);
    var tail := Only(a[|a| - 1], n);
    assert wa + tail == wb + tail;
    assert wa == (wa + tail)[..|wa|];
    assert wb == (wb + tail)[..|wb|];
  }

  /** `a` and `b` hold, for every sequence number, the same entries in the same order. */
  ghost predicate SameSubsequences(a: seq<TopicMessage>, b: seq<TopicMessage>) {
    forall n :: WithSequenceNumber(a, n) == WithSequenceNumber(b, n)
  }

  /** A log that agrees with the empty log on every subsequence is empty. */
  lemma AgreeingWithEmptyIsEmpty(a: seq<TopicMessage>)
    requires SameSubsequences(a, [])
    ensures a == []
  {
    if a != [] {
      LastEndsItsSubsequence(a);
    }
  }

  /** Two sorted, non-empty logs that agree on every subsequence end with the same entry. */
  lemma AgreeingSortedLogsEndAlike(a: seq<TopicMessage>, b: seq<TopicMessage>)
    requires Sorted(a) && Sorted(b) && a != [] && b != []
    requires SameSubsequences(a, b)
    ensures a[|a| - 1] == b[|b| - 1]
  {
    var x, y := a[|a| - 1], b[|b| - 1];
    LastEndsItsSubsequence(a);
    LastEndsItsSubsequence(b);
    assert x.sequenceNumber == y.sequenceNumber by {
      WithSequenceNumberMembers(a, y.sequenceNumber);
      WithSequenceNumberMembers(b, x.sequenceNumber);
      assert WithSequenceNumber(b, y.sequenceNumber) == WithSequenceNumber(a, y.sequenceNumber);
      assert WithSequenceNumber(a, x.sequenceNumber) == WithSequenceNumber(b, x.sequenceNumber);
      LastIsLargest(a, y);
      LastIsLargest(b, x);
    }
    var w := WithSequenceNumber(a, x.sequenceNumber);
    assert w == WithSequenceNumber(b, x.sequenceNumber);
    assert w[|w| - 1] == x && w[|w| - 1] == y;
  }

  /**
   * A sorted log is determined by its per-sequence-number subsequences:
   * two sorted logs that agree on each of them are equal.
   */
  lemma {:induction false} SortedLogsAgreeingPerNumberAreEqual(a: seq<TopicMessage>, b: seq<TopicMessage>)
    requires Sorted(a) && Sorted(b)
    requires SameSubsequences(a, b)
    ensures a == b
    decreases |a|
  {
    if a == [] {
      forall n ensures WithSequenceNumber(b, n) == WithSequenceNumber([], n) {
        assert WithSequenceNumber(a, n) == WithSequenceNumber(b, n);
      }
      AgreeingWithEmptyIsEmpty(b);
    } else if b == [] {
      AgreeingWithEmptyIsEmpty(a);
    } else {
      var a', b' := a[..|a| - 1], b[..|b| - 1];
      DropLastKeepsAgreement(a, b);
      SortedLogsAgreeingPerNumberAreEqual(a', b');
      assert a == a' + [a[|a| - 1]] && b == b' + [b[|b| - 1]];
    }
  }

  /** The inductive step: two agreeing sorted logs share their last entry and agree without it. */
  lemma DropLastKeepsAgreement(a: seq<TopicMessage>, b: seq<TopicMessage>)
    requires Sorted(a) && Sorted(b) && a != [] && b != []
    requires SameSubsequences(a, b)
    ensures a[|a| - 1] == b[|b| - 1]
    ensures Sorted(a[..|a| - 1]) && Sorted(b[..|b| - 1])
    ensures SameSubsequences(a[..|a| - 1], b[..|b| - 1])
  {
    AgreeingSortedLogsEndAlike(a, b);
    var a', b' := a[..|a| - 1], b[..|b| - 1];
    forall n ensures WithSequenceNumber(a', n) == WithSequenceNumber(b', n) {
      DropLastPerNumber(a, b, n);
    }
  }

  /**
   * The sort is characterised independently of its definition: `r` is the
   * sorted log of `log` exactly when `r` is in order and holds, for every
   * sequence number, the same entries in the same order as `log`.
   */
  lemma SortCharacterisation(log: seq<TopicMessage>, r: seq<TopicMessage>)
    ensures r == SortBySequenceNumber(log) <==> Sorted(r) && SameSubsequences(r, log)
  {
    var sorted := SortBySequenceNumber(log);
    SortIsSorted(log);
    forall n ensures WithSequenceNumber(sorted, n) == WithSequenceNumber(log, n) {
      SortIsStable(log, n);
    }
    if Sorted(r) && SameSubsequences(r, log) {
      SortedLogsAgreeingPerNumberAreEqual(r, sorted);
    }
  }

  /** Two arrival orders of the same messages, none sharing a sequence number, give the same log. */
  lemma ArrivalOrderIrrelevantForDistinctNumbers(a: seq<TopicMessage>, b: seq<TopicMessage>)
    requires multiset(a) == multiset(b)
    requires DistinctNumbers(a)
    ensures SortBySequenceNumber(a) == SortBySequenceNumber(b)
  {
    forall n ensures WithSequenceNumber(a, n) == WithSequenceNumber(b, n) {
      AtMostOneWithNumber(a, b, n);
    }
    SortIsSorted(a);
    SortCharacterisation(b, SortBySequenceNumber(a));
    forall n ensures WithSequenceNumber(SortBySequenceNumber(a), n) == WithSequenceNumber(a, n) {
      SortIsStable(a, n);
    }
  }

  /** Messages with pairwise different sequence numbers. */
  predicate DistinctNumbers(log: seq<TopicMessage>) {
    forall i, j :: 0 <= i < j < |log| ==> log[i].sequenceNumber != log[j].sequenceNumber
  }

  /** How often `x` occurs in the subsequence for `n`: as often as in the log when its number is `n`, else never. */
  lemma {:induction false} WithSequenceNumberCounts(log: seq<TopicMessage>, n: int, x: TopicMessage)
    ensures multiset(WithSequenceNumber(log, n))[x] == if x.sequenceNumber == n then multiset(log)[x] else 0
  {
    if log != [] {
      var init := log[..|log| - 1];
      WithSequenceNumberCounts(init, n, x);
      assert log == init + [log[|log| - 1]];
    }
  }

  lemma {:induction false} DistinctNumbersAtMostOne(log: seq<TopicMessage>, n: int)
    requires DistinctNumbers(log)
    ensures |WithSequenceNumber(log, n)| <= 1
  {
    if log != [] {
      var init, last := log[..|log| - 1], log[|log| - 1];
      assert DistinctNumbers(init);
      DistinctNumbersAtMostOne(init, n);
      if last.sequenceNumber == n {
        assert forall i :: 0 <= i < |init| ==> init[i].sequenceNumber != n by {
          forall i | 0 <= i < |init| ensures init[i].sequenceNumber != n {
            assert init[i] == log[i];
          }
        }
        NoneWithNumber(init, n);
      }
    }
  }

  lemma {:induction false} NoneWithNumber(log: seq<TopicMessage>, n: int)
    requires forall i :: 0 <= i < |log| ==> log[i].sequenceNumber != n
    ensures WithSequenceNumber(log, n) == []
  {
    if log != [] {
      NoneWithNumber(log[..|log| - 1], n);
    }
  }

  lemma AtMostOneWithNumber(a: seq<TopicMessage>, b: seq<TopicMessage>, n: int)
    requires multiset(a) == multiset(b)
    requires DistinctNumbers(a)
    ensures WithSequenceNumber(a, n) == WithSequenceNumber(b, n)
  {
    var wa, wb := WithSequenceNumber(a, n), WithSequenceNumber(b, n);
    assert multiset(wa) == multiset(wb) by {
      forall x ensures multiset(wa)[x] == multiset(wb)[x] {
        WithSequenceNumberCounts(a, n, x);
        WithSequenceNumberCounts(b, n, x);
      }
    }
    DistinctNumbersAtMostOne(a, n);
    SingletonMultiset(wa, wb);
  }

  /** Sequences of at most one element are equal when their multisets are. */
  lemma SingletonMultiset(wa: seq<TopicMessage>, wb: seq<TopicMessage>)
    requires |wa| <= 1 && multiset(wa) == multiset(wb)
    ensures wa == wb
  {
    assert |wb| == |multiset(wb)| == |multiset(wa)| == |wa|;
    if |wa| == 1 {
      assert wb[0] in multiset(wa);
    }
  }

  /** The out-of-order example: arrivals numbered 3, 1, 2 give the log 1, 2, 3. */
  lemma OutOfOrderArrivalsAreOrdered(m1: TopicMessage, m2: TopicMessage, m3: TopicMessage)
    requires m1.sequenceNumber == 1 && m2.sequenceNumber == 2 && m3.sequenceNumber == 3
    ensures SortBySequenceNumber([m3, m1, m2]) == [m1, m2, m3]
  {
    assert [m3, m1, m2][..2] == [m3, m1] && [m3, m1][..1] == [m3] && [m3][..0] == [];
    assert SortBySequenceNumber([m3]) == [m3];
    assert [m3][..0] == [];
    assert InsertBySequenceNumber([m3], m1) == [m1, m3];
    assert SortBySequenceNumber([m3, m1]) == [m1, m3];
    assert [m1, m3][..1] == [m1];
    assert InsertBySequenceNumber([m1], m2) == [m1, m2];
    assert InsertBySequenceNumber([m1, m3], m2) == [m1, m2, m3];
  }

  /**
   * No de-duplication: a live message whose sequence number is already in
   * the log is kept beside the entry that has it.
   */
  lemma DuplicateDeliveryIsKept(log: seq<TopicMessage>, m: TopicMessage)
    requires exists x :: x in log && x.sequenceNumber == m.sequenceNumber
    ensures |WithSequenceNumber(LiveUpdate(log, m), m.sequenceNumber)| >= 2
  {
    var x :| x in log && x.sequenceNumber == m.sequenceNumber;
    WithSequenceNumberContains(log, x);
  }

  lemma WithSequenceNumberContains(log: seq<TopicMessage>, m: TopicMessage)
    requires m in log
    ensures m in WithSequenceNumber(log, m.sequenceNumber)
  {
    var init := log[..|log| - 1];
    assert log == init + [log[|log| - 1]];
    if log[|log| - 1] != m {
      WithSequenceNumberContains(init, m);
    }
  }

  /** Sorting is idempotent: a log set by a fetch is already in the order a re-sort would give. */
  lemma SortIsIdempotent(log: seq<TopicMessage>)
    ensures SortBySequenceNumber(SortBySequenceNumber(log)) == SortBySequenceNumber(log)
  {
    SortIsSorted(log);
    SortOfSortedIsIdentity(SortBySequenceNumber(log));
  }
}

/**
 * Flag annotation of topics (`{ ...topic, isExpired, isSoonToExpire }`) and
 * the sort the dashboards apply to the annotated list. `Array.prototype.sort`
 * is modelled as a stable insertion sort that calls the comparator with the
 * element being inserted as its first argument.
 */
module TopicOrdering {
  import opened Entities
  import TopicWindow

  /** A topic with the two window flags spread onto it; every other field is the topic's. */
  datatype Annotated = Annotated(topic: Topic, isExpired: bool, isSoonToExpire: bool)

  function Annotate(t: Topic, today: int, threeDaysFromNow: int): Annotated
  {
    Annotated(t, TopicWindow.IsExpired(t.endDate, today), TopicWindow.IsSoonToExpire(t.endDate, threeDaysFromNow))
  }

  /** `topics.map(annotate)`: one annotated entry per topic, same position, fields kept. */
  function AnnotateAll(topics: seq<Topic>, today: int, threeDaysFromNow: int): (r: seq<Annotated>)
    ensures |r| == |topics|
    ensures forall i :: 0 <= i < |topics| ==>
              && r[i].topic == topics[i]
              && (r[i].isExpired <==> topics[i].endDate < today)
              && (r[i].isSoonToExpire <==> topics[i].endDate <= threeDaysFromNow)
  {
    if topics == [] then []
    else [Annotate(topics[0], today, threeDaysFromNow)] + AnnotateAll(topics[1..], today, threeDaysFromNow)
  }

  /** Flags the classifier can produce when `today <= threeDaysFromNow`: expired implies soon. */
  predicate Coherent(a: Annotated)
  {
    a.isExpired ==> a.isSoonToExpire
  }

  lemma AnnotateAllCoherent(topics: seq<Topic>, today: int, threeDaysFromNow: int)
    requires today <= threeDaysFromNow
    ensures forall a :: a in AnnotateAll(topics, today, threeDaysFromNow) ==> Coherent(a)
  {
  }

  /** The display class of a topic: 0 active, 1 soon to expire (not expired), 2 expired. */
  function Rank(a: Annotated): int
  {
    if a.isExpired then 2 else if a.isSoonToExpire then 1 else 0
  }

  /** Insert `x` before the first element the comparator puts it in front of. */
  function Insert<T>(cmp: (T, T) -> int, x: T, s: seq<T>): seq<T>
  {
    if s == [] then [x]
    else if cmp(x, s[0]) < 0 then [x] + s
    else [s[0]] + Insert(cmp, x, s[1..])
  }

  /** The list sorted with comparator `cmp`; elements are inserted in input order. */
  function Sort<T>(cmp: (T, T) -> int, s: seq<T>): seq<T>
  {
    if s == [] then [] else Insert(cmp, s[|s| - 1], Sort(cmp, s[..|s| - 1]))
  }

  /** Insertion adds exactly `x`, whatever the comparator. */
  lemma {:induction false} InsertPermutes<T>(cmp: (T, T) -> int, x: T, s: seq<T>)
    ensures multiset(Insert(cmp, x, s)) == multiset(s) + multiset{x}
  {
    if s != [] && cmp(x, s[0]) >= 0 {
      InsertPermutes(cmp, x, s[1..]);
      assert s == [s[0]] + s[1..];
    }
  }

  /** Sorting with any comparator, consistent or not, neither loses nor adds an element. */
  lemma {:induction false} SortPermutes<T>(cmp: (T, T) -> int, s: seq<T>)
    ensures multiset(Sort(cmp, s)) == multiset(s)
  {
    if s != [] {
      SortPermutes(cmp, s[..|s| - 1]);
      InsertPermutes(cmp, s[|s| - 1], Sort(cmp, s[..|s| - 1]));
      assert s == s[..|s| - 1] + [s[|s| - 1]];
    }
  }

  /** `s` is ordered by `key`, smallest first. */
  ghost predicate SortedBy<T>(key: T -> int, s: seq<T>)
  {
    forall i, j :: 0 <= i < j < |s| ==> key(s[i]) <= key(s[j])
  }

  /**
   * On elements satisfying `ok`, `cmp` puts the smaller key first and never
   * puts the larger key first; it may call such a pair a tie in one order.
   */
  ghost predicate OrdersByKey<T(!new)>(cmp: (T, T) -> int, key: T -> int, ok: T -> bool)
  {
    forall a, b :: ok(a) && ok(b) && key(a) < key(b) ==> cmp(a, b) < 0 && cmp(b, a) >= 0
  }

  /** Every element of an insertion is `x` or came from `s`. */
  lemma {:induction false} InsertElements<T>(cmp: (T, T) -> int, x: T, s: seq<T>)
    ensures forall y :: y in Insert(cmp, x, s) ==> y == x || y in s
  {
    if s != [] && cmp(x, s[0]) >= 0 {
      InsertElements(cmp, x, s[1..]);
      assert forall y :: y in s[1..] ==> y in s;
    }
  }

  /** A head no larger than any element of a sorted tail keeps the list sorted. */
  lemma ConsSorted<T>(key: T -> int, h: T, t: seq<T>)
    requires SortedBy(key, t) && forall y :: y in t ==> key(h) <= key(y)
    ensures SortedBy(key, [h] + t)
  {
    var r := [h] + t;
    forall i, j | 0 <= i < j < |r| ensures key(r[i]) <= key(r[j]) {
      assert r[j] == t[j - 1];
      if i > 0 {
        assert r[i] == t[i - 1];
      }
    }
  }

  lemma {:induction false} InsertSorted<T(!new)>(cmp: (T, T) -> int, key: T -> int, ok: T -> bool, x: T, s: seq<T>)
    requires OrdersByKey(cmp, key, ok)
    requires ok(x) && forall y :: y in s ==> ok(y)
    requires SortedBy(key, s)
    ensures SortedBy(key, Insert(cmp, x, s))
  {
    if s != [] {
      if cmp(x, s[0]) < 0 {
        assert key(x) <= key(s[0]);
        forall y | y in s ensures key(x) <= key(y) {
          var k :| 0 <= k < |s| && s[k] == y;
        }
        ConsSorted(key, x, s);
      } else {
        assert key(s[0]) <= key(x);
        assert forall y :: y in s[1..] ==> y in s;
        InsertSorted(cmp, key, ok, x, s[1..]);
        var tail := Insert(cmp, x, s[1..]);
        InsertElements(cmp, x, s[1..]);
        forall y | y in tail ensures key(s[0]) <= key(y) {
          if y != x {
            var k :| 0 <= k < |s[1..]| && s[1..][k] == y;
            assert s[k + 1] == y;
          }
        }
        ConsSorted(key, s[0], tail);
      }
    }
  }

  /** Sorting with a comparator that orders by `key` on every element gives a `key`-sorted permutation. */
  lemma {:induction false} SortSorted<T(!new)>(cmp: (T, T) -> int, key: T -> int, ok: T -> bool, s: seq<T>)
    requires OrdersByKey(cmp, key, ok)
    requires forall y :: y in s ==> ok(y)
    ensures SortedBy(key, Sort(cmp, s))
  {
    if s != [] {
      var init := s[..|s| - 1];
      assert forall y :: y in init ==> y in s;
      SortSorted(cmp, key, ok, init);
      var sorted := Sort(cmp, init);
      SortPermutes(cmp, init);
      forall y | y in sorted ensures ok(y) {
        assert y in multiset(init);
      }
      InsertSorted(cmp, key, ok, s[|s| - 1], sorted);
    }
  }

  /** The intended order: by display class, ties kept (0). */
  function RankCompare(a: Annotated, b: Annotated): int
  {
    Rank(a) - Rank(b)
  }

  /** `RankCompare` is a consistent comparator: swapping the arguments flips the sign. */
  lemma RankCompareAntisymmetric(a: Annotated, b: Annotated)
    ensures RankCompare(a, b) == -RankCompare(b, a)
    ensures RankCompare(a, b) == 0 <==> Rank(a) == Rank(b)
  {
  }

  /** The annotated topics of display class `k`, in their order in `s`. */
  function OfRank(k: int, s: seq<Annotated>): seq<Annotated>
  {
    if s == [] then [] else (if Rank(s[0]) == k then [s[0]] else []) + OfRank(k, s[1..])
  }

  /** `OfRank` of a sequence with a known head. */
  lemma OfRankCons(k: int, x: Annotated, s: seq<Annotated>)
    ensures OfRank(k, [x] + s) == (if Rank(x) == k then [x] else []) + OfRank(k, s)
  {
    assert ([x] + s)[1..] == s;
  }

  lemma {:induction false} OfRankAppend(k: int, a: seq<Annotated>, b: seq<Annotated>)
    ensures OfRank(k, a + b) == OfRank(k, a) + OfRank(k, b)
  {
    if a == [] {
      assert a + b == b;
    } else {
      var x, rest := a[0], a[1..];
      var h := if Rank(x) == k then [x] else [];
      calc {
        OfRank(k, a + b);
        { assert a + b == [x] + (rest + b); }
        OfRank(k, [x] + (rest + b));
        { OfRankCons(k, x, rest + b); }
        h + OfRank(k, rest + b);
        { OfRankAppend(k, rest, b); }
        h + (OfRank(k, rest) + OfRank(k, b));
        { assert a == [x] + rest; OfRankCons(k, x, rest); }
        OfRank(k, a) + OfRank(k, b);
      }
    }
  }

  lemma {:induction false} NoneOfRank(k: int, s: seq<Annotated>)
    requires forall i :: 0 <= i < |s| ==> Rank(s[i]) > k
    ensures OfRank(k, s) == []
  {
    if s != [] {
      NoneOfRank(k, s[1..]);
    }
  }

  /** Inserting in front of a rank-sorted list of higher ranks. */
  lemma InsertFrontStable(x: Annotated, s: seq<Annotated>, k: int)
    requires SortedBy(Rank, s) && s != [] && Rank(x) < Rank(s[0])
    ensures OfRank(k, [x] + s) == OfRank(k, s) + (if Rank(x) == k then [x] else [])
  {
    OfRankAppend(k, [x], s);
    assert OfRank(k, [x]) == (if Rank(x) == k then [x] else []) + OfRank(k, []);
    if Rank(x) == k {
      forall i | 0 <= i < |s| ensures Rank(s[i]) > k {
        assert Rank(s[0]) <= Rank(s[i]);
      }
      NoneOfRank(k, s);
    }
  }

  /** Inserting behind the head: the head keeps its place, the rest is an insertion into the tail. */
  lemma {:induction false} InsertBehindStable(x: Annotated, s: seq<Annotated>, k: int)
    requires SortedBy(Rank, s) && s != [] && RankCompare(x, s[0]) >= 0
    ensures OfRank(k, Insert(RankCompare, x, s)) == OfRank(k, s) + (if Rank(x) == k then [x] else [])
    decreases |s|, 0
  {
    var ins := Insert(RankCompare, x, s);
    var tail := Insert(RankCompare, x, s[1..]);
    assert ins == [s[0]] + tail;
    assert ins[0] == s[0] && ins[1..] == tail;
    InsertStable(x, s[1..], k);
    var h := if Rank(s[0]) == k then [s[0]] else [];
    assert OfRank(k, ins) == h + OfRank(k, tail);
    assert OfRank(k, s) == h + OfRank(k, s[1..]);
  }

  /** Insertion into a rank-sorted list adds `x` behind every earlier element of its own rank. */
  lemma {:induction false} InsertStable(x: Annotated, s: seq<Annotated>, k: int)
    requires SortedBy(Rank, s)
    ensures OfRank(k, Insert(RankCompare, x, s)) == OfRank(k, s) + (if Rank(x) == k then [x] else [])
    decreases |s|, 1
  {
    if s == [] {
      assert OfRank(k, [x]) == (if Rank(x) == k then [x] else []) + OfRank(k, []);
    } else if RankCompare(x, s[0]) < 0 {
      InsertFrontStable(x, s, k);
    } else {
      InsertBehindStable(x, s, k);
    }
  }

  /** Sorting with `RankCompare` is stable: within each display class, input order is kept. */
  lemma {:induction false} SortStable(s: seq<Annotated>, k: int)
    ensures OfRank(k, Sort(RankCompare, s)) == OfRank(k, s)
  {
    if s != [] {
      var init := s[..|s| - 1];
      var last := s[|s| - 1];
      SortStable(init, k);
      SortSorted(RankCompare, Rank, _ => true, init);
      InsertStable(last, Sort(RankCompare, init), k);
      assert s == init + [last];
      OfRankAppend(k, init, [last]);
    }
  }

  /**
   * The intended display order: active, then soon to expire, then
   * expired, ties in fetched order, and nothing lost or added.
   */
  function DisplayOrder(topics: seq<Topic>, today: int, threeDaysFromNow: int): (r: seq<Annotated>)
    ensures multiset(r) == multiset(AnnotateAll(topics, today, threeDaysFromNow))
    ensures SortedBy(Rank, r)
    ensures forall k :: OfRank(k, r) == OfRank(k, AnnotateAll(topics, today, threeDaysFromNow))
  {
    var annotated := AnnotateAll(topics, today, threeDaysFromNow);
    SortSorted(RankCompare, Rank, _ => true, annotated);
    SortPermutes(RankCompare, annotated);
    forall k ensures OfRank(k, Sort(RankCompare, annotated)) == OfRank(k, annotated) {
      SortStable(annotated, k);
    }
    Sort(RankCompare, annotated)
  }
}

/**
 * Topic window classification and the four-way status filter of
 * `filterTopics` (src/pages/utils.jsx). `today` and `threeDaysFromNow` are
 * the two instants the page computes from the clock; they are parameters here.
 */
module TopicWindow {
  import opened Entities
  import Seqs

  /** The end instant lies strictly before `today`. */
  predicate IsExpired(endDate: int, today: int)
  {
    endDate < today
  }

  /** The end instant is no later than three days from now (true for past topics too). */
  predicate IsSoonToExpire(endDate: int, threeDaysFromNow: int)
  {
    endDate <= threeDaysFromNow
  }

  /** The keep/drop decision the filter callback makes for one topic. */
  predicate Keep(statusFilter: string, today: int, threeDaysFromNow: int, t: Topic)
  {
    var isExpired := IsExpired(t.endDate, today);
    var isSoonToExpire := IsSoonToExpire(t.endDate, threeDaysFromNow);
    if statusFilter == "expired" then isExpired
    else if statusFilter == "soonToExpire" then isSoonToExpire && !isExpired
    else if statusFilter == "active" then !isExpired && !isSoonToExpire
    else true
  }

  /** `filterTopics(topics, statusFilter)` with the clock's two instants passed in. */
  function FilterTopics(topics: seq<Topic>, statusFilter: string, today: int, threeDaysFromNow: int): (r: seq<Topic>)
    ensures |r| <= |topics|
    ensures forall i :: 0 <= i < |r| ==> r[i] in topics && Keep(statusFilter, today, threeDaysFromNow, r[i])
    ensures forall i :: 0 <= i < |topics| && Keep(statusFilter, today, threeDaysFromNow, topics[i]) ==> topics[i] in r
  {
    Seqs.Filter(t => Keep(statusFilter, today, threeDaysFromNow, t), topics)
  }

  /** What each named filter keeps, stated on the end instant alone (with the clock's `today <= threeDaysFromNow`). */
  lemma NamedFilters(topics: seq<Topic>, today: int, threeDaysFromNow: int)
    requires today <= threeDaysFromNow
    ensures forall t :: t in FilterTopics(topics, "expired", today, threeDaysFromNow)
                        <==> t in topics && t.endDate < today
    ensures forall t :: t in FilterTopics(topics, "soonToExpire", today, threeDaysFromNow)
                        <==> t in topics && today <= t.endDate <= threeDaysFromNow
    ensures forall t :: t in FilterTopics(topics, "active", today, threeDaysFromNow)
                        <==> t in topics && t.endDate > threeDaysFromNow
  {
    forall t | t in topics
      ensures t in FilterTopics(topics, "expired", today, threeDaysFromNow) <==> t.endDate < today
      ensures t in FilterTopics(topics, "soonToExpire", today, threeDaysFromNow) <==> today <= t.endDate <= threeDaysFromNow
      ensures t in FilterTopics(topics, "active", today, threeDaysFromNow) <==> t.endDate > threeDaysFromNow
    {
      var i :| 0 <= i < |topics| && topics[i] == t;
    }
  }

  /** The "soon to expire" filter never lets an expired topic through. */
  lemma SoonFilterExcludesExpired(topics: seq<Topic>, today: int, threeDaysFromNow: int)
    ensures forall t :: t in FilterTopics(topics, "soonToExpire", today, threeDaysFromNow) ==> !IsExpired(t.endDate, today)
  {
  }

  /** Any value other than the three names, the empty "All" choice included, keeps the list as it is. */
  lemma OtherFilterKeepsAll(topics: seq<Topic>, statusFilter: string, today: int, threeDaysFromNow: int)
    requires statusFilter != "expired" && statusFilter != "soonToExpire" && statusFilter != "active"
    ensures FilterTopics(topics, statusFilter, today, threeDaysFromNow) == topics
  {
    Seqs.FilterKeepsAll(t => Keep(statusFilter, today, threeDaysFromNow, t), topics);
  }

  /** Whenever `today <= threeDaysFromNow`, an expired topic is also "soon to expire". */
  lemma ExpiredImpliesSoon(endDate: int, today: int, threeDaysFromNow: int)
    requires today <= threeDaysFromNow
    ensures IsExpired(endDate, today) ==> IsSoonToExpire(endDate, threeDaysFromNow)
  {
  }

  /** Each topic is kept by exactly one of the three named filters. */
  lemma {:induction false} NamedFiltersPartition(topics: seq<Topic>, today: int, threeDaysFromNow: int)
    ensures |FilterTopics(topics, "expired", today, threeDaysFromNow)|
            + |FilterTopics(topics, "soonToExpire", today, threeDaysFromNow)|
            + |FilterTopics(topics, "active", today, threeDaysFromNow)| == |topics|
  {
    if topics != [] {
      NamedFiltersPartition(topics[1..], today, threeDaysFromNow);
    }
  }

  /** The filter keeps fetched order, and applying it again changes nothing. */
  lemma FilterTopicsIsStableSubsequence(topics: seq<Topic>, statusFilter: string, today: int, threeDaysFromNow: int)
    ensures Seqs.IsSubsequence(FilterTopics(topics, statusFilter, today, threeDaysFromNow), topics)
    ensures FilterTopics(FilterTopics(topics, statusFilter, today, threeDaysFromNow), statusFilter, today, threeDaysFromNow)
            == FilterTopics(topics, statusFilter, today, threeDaysFromNow)
  {
    var p := t => Keep(statusFilter, today, threeDaysFromNow, t);
    Seqs.FilterIsSubsequence(p, topics);
    Seqs.FilterIdempotent(p, topics);
  }
}

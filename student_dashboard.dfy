/**
 * The student's topic dashboard (src/pages/Student/StudentDashboard.jsx):
 * the topic list of the student's faculty, filtered by status, annotated with
 * the two window flags, ordered by the page's comparator and rendered with a
 * row colour and a "Create" button gate.
 */
module StudentDashboard {
  import opened Wrappers
  import opened Entities
  import TopicWindow
  import opened TopicOrdering

  /** The page's sort comparator, rule by rule. */
  function StudentCompare(a: Annotated, b: Annotated): int
  {
    if !a.isExpired && !a.isSoonToExpire && (b.isExpired || b.isSoonToExpire) then -1
    else if !b.isExpired && !b.isSoonToExpire && (a.isExpired || a.isSoonToExpire) then 1
    else if a.isSoonToExpire && b.isExpired then -1
    else if a.isExpired && b.isSoonToExpire then 1
    else 0
  }

  /** An active topic goes before any other, whichever argument it is. */
  lemma ActiveFirst(a: Annotated, b: Annotated)
    requires Rank(a) == 0 && Rank(b) != 0
    ensures StudentCompare(a, b) == -1 && StudentCompare(b, a) == 1
  {
  }

  /** A soon-to-expire topic goes before an expired one, in both argument orders. */
  lemma SoonBeforeExpired(a: Annotated, b: Annotated)
    requires Rank(a) == 1 && Rank(b) == 2
    ensures StudentCompare(a, b) == -1 && StudentCompare(b, a) == 1
  {
  }

  /** Two active topics, or two topics soon to expire, are ties. */
  lemma SameClassTies(a: Annotated, b: Annotated)
    requires Rank(a) == Rank(b) < 2
    ensures StudentCompare(a, b) == 0 && StudentCompare(b, a) == 0
  {
  }

  /**
   * Two expired topics each claim to go first: expired implies soon to
   * expire, so the third rule fires in both argument orders.
   */
  lemma StudentCompareExpiredPair(a: Annotated, b: Annotated)
    requires Coherent(a) && Coherent(b)
    requires a.isExpired && b.isExpired
    ensures StudentCompare(a, b) == -1 && StudentCompare(b, a) == -1
    ensures StudentCompare(a, b) != -StudentCompare(b, a)
  {
  }

  /** On flags the classifier can produce, the comparator puts the lower display class first. */
  lemma StudentCompareOrdersByRank()
    ensures OrdersByKey(StudentCompare, Rank, Coherent)
  {
    forall a, b | Coherent(a) && Coherent(b) && Rank(a) < Rank(b)
      ensures StudentCompare(a, b) < 0 && StudentCompare(b, a) > 0
    {
      if Rank(a) == 0 {
        ActiveFirst(a, b);
      } else {
        SoonBeforeExpired(a, b);
      }
    }
  }

  /**
   * Under the insertion-sort model, two expired topics come out in the
   * reverse of their fetched order.
   */
  lemma ExpiredPairReversed(a: Annotated, b: Annotated)
    requires Coherent(a) && Coherent(b) && a.isExpired && b.isExpired
    ensures Sort(StudentCompare, [a, b]) == [b, a]
  {
    assert [a, b][..1] == [a];
    assert Sort(StudentCompare, [a]) == [a] by {
      assert [a][..0] == [];
    }
  }

  /** The displayed rows for an already filtered list: annotate each topic, then sort. */
  function SortedRows(filtered: seq<Topic>, today: int, threeDaysFromNow: int): (r: seq<Annotated>)
    requires today <= threeDaysFromNow
    ensures multiset(r) == multiset(AnnotateAll(filtered, today, threeDaysFromNow))
    ensures |r| == |filtered|
    ensures SortedBy(Rank, r)
  {
    var annotated := AnnotateAll(filtered, today, threeDaysFromNow);
    AnnotateAllCoherent(filtered, today, threeDaysFromNow);
    StudentCompareOrdersByRank();
    SortSorted(StudentCompare, Rank, Coherent, annotated);
    SortPermutes(StudentCompare, annotated);
    assert |multiset(Sort(StudentCompare, annotated))| == |multiset(annotated)|;
    Sort(StudentCompare, annotated)
  }

  /** The background colour of a row. */
  datatype RowColour = Red | Green | Inherit

  /** Expired takes precedence over soon to expire. */
  function ColourOf(a: Annotated): (c: RowColour)
    ensures c == Red <==> a.isExpired
    ensures c == Green <==> !a.isExpired && a.isSoonToExpire
  {
    if a.isExpired then Red else if a.isSoonToExpire then Green else Inherit
  }

  /** The colour names the display class the rows are ordered by. */
  lemma ColourMatchesRank(a: Annotated)
    ensures ColourOf(a) == Red <==> Rank(a) == 2
    ensures ColourOf(a) == Green <==> Rank(a) == 1
    ensures ColourOf(a) == Inherit <==> Rank(a) == 0
  {
  }

  /** The "Create" button is rendered for topics that are not expired. */
  predicate CreateOffered(a: Annotated)
  {
    !a.isExpired
  }

  /** "Create" is offered exactly when the end instant is not before today, the end instant itself included. */
  lemma CreateGate(t: Topic, today: int, threeDaysFromNow: int)
    ensures CreateOffered(Annotate(t, today, threeDaysFromNow)) <==> t.endDate >= today
    ensures t.endDate == today ==> CreateOffered(Annotate(t, today, threeDaysFromNow))
  {
  }

  /** The page state: the fetched topics, the fetch-once flag and the status filter. */
  class Dashboard {
    /** `user.facultyID`, the faculty whose topics are fetched. */
    const facultyId: string
    var topics: seq<Topic>
    var hasFetchedData: bool
    var statusFilter: string
    /** The faculty ids passed to `getTopicByFacultyId`, in call order. */
    var fetches: seq<string>

    constructor (facultyId: string)
      ensures this.facultyId == facultyId
      ensures topics == [] && !hasFetchedData && statusFilter == "" && fetches == []
    {
      this.facultyId := facultyId;
      topics, hasFetchedData, statusFilter, fetches := [], false, "", [];
    }

    /** `fetchData`: the fetched list replaces `topics`; a rejected call is logged and changes nothing. */
    method FetchData(outcome: Response<seq<Topic>>)
      modifies this`fetches, this`topics
      ensures fetches == old(fetches) + [facultyId]
      ensures topics == (if outcome.Ok? then outcome.value else old(topics))
      ensures hasFetchedData == old(hasFetchedData) && statusFilter == old(statusFilter)
    {
      fetches := fetches + [facultyId];
      match outcome {
        case Ok(data) => topics := data;
        case Failed =>
      }
    }

    /** The mount effect: fetch once, and set the flag so that later runs do nothing. */
    method MountEffect(outcome: Response<seq<Topic>>)
      modifies this`hasFetchedData, this`fetches, this`topics
      ensures hasFetchedData
      ensures old(hasFetchedData) ==> fetches == old(fetches) && topics == old(topics)
      ensures !old(hasFetchedData) ==>
                && fetches == old(fetches) + [facultyId]
                && topics == (if outcome.Ok? then outcome.value else old(topics))
      ensures statusFilter == old(statusFilter)
    {
      if !hasFetchedData {
        FetchData(outcome);
        hasFetchedData := true;
      }
    }

    /** The status drop-down. */
    method SetStatusFilter(value: string)
      modifies this`statusFilter
      ensures statusFilter == value
      ensures topics == old(topics) && hasFetchedData == old(hasFetchedData) && fetches == old(fetches)
    {
      statusFilter := value;
    }

    /** The rows the table renders, with the two instants the clock gives at render time. */
    function Rows(today: int, threeDaysFromNow: int): (r: seq<Annotated>)
      reads this
      requires today <= threeDaysFromNow
      ensures multiset(r) == multiset(AnnotateAll(TopicWindow.FilterTopics(topics, statusFilter, today, threeDaysFromNow), today, threeDaysFromNow))
      ensures |r| == |TopicWindow.FilterTopics(topics, statusFilter, today, threeDaysFromNow)|
      ensures forall a :: a in r ==> a.topic in topics && TopicWindow.Keep(statusFilter, today, threeDaysFromNow, a.topic)
      ensures SortedBy(Rank, r)
    {
      var filtered := TopicWindow.FilterTopics(topics, statusFilter, today, threeDaysFromNow);
      var r := SortedRows(filtered, today, threeDaysFromNow);
      assert forall a :: a in r ==> a in multiset(AnnotateAll(filtered, today, threeDaysFromNow));
      r
    }
  }
}

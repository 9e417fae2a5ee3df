/**
 * The coordinator's topic table (src/pages/FMC/topic/TopicsTable.jsx): the
 * topics it is given, annotated and ordered by a three-rule comparator, and
 * the update dialog with its draft.
 */
module FmcTopicsTable {
  import opened Wrappers
  import opened Entities
  import opened TopicOrdering

  /** The table's comparator: the page's first three rules, and a tie otherwise. */
  function TableCompare(a: Annotated, b: Annotated): int
  {
    if !a.isExpired && !a.isSoonToExpire && (b.isExpired || b.isSoonToExpire) then -1
    else if !b.isExpired && !b.isSoonToExpire && (a.isExpired || a.isSoonToExpire) then 1
    else if a.isSoonToExpire && b.isExpired then -1
    else 0
  }

  /** An active topic goes before any other, whichever argument it is. */
  lemma TableActiveFirst(a: Annotated, b: Annotated)
    requires Rank(a) == 0 && Rank(b) != 0
    ensures TableCompare(a, b) == -1 && TableCompare(b, a) == 1
  {
  }

  /**
   * There is no rule for an expired first argument against one soon to
   * expire: that order is a tie, while the mirrored call says the soon topic
   * goes first.
   */
  lemma TableMissingRule(a: Annotated, b: Annotated)
    requires Coherent(a) && a.isExpired
    requires b.isSoonToExpire && !b.isExpired
    ensures TableCompare(a, b) == 0 && TableCompare(b, a) == -1
    ensures TableCompare(a, b) != -TableCompare(b, a)
  {
  }

  /** Two expired topics each claim to go first, as on the student page. */
  lemma TableExpiredPair(a: Annotated, b: Annotated)
    requires Coherent(a) && Coherent(b) && a.isExpired && b.isExpired
    ensures TableCompare(a, b) == -1 && TableCompare(b, a) == -1
  {
  }

  /** The comparator never puts a higher display class first, though it may call a pair a tie. */
  lemma TableCompareOrdersByRank()
    ensures OrdersByKey(TableCompare, Rank, Coherent)
  {
    forall a, b | Coherent(a) && Coherent(b) && Rank(a) < Rank(b)
      ensures TableCompare(a, b) < 0 && TableCompare(b, a) >= 0
    {
      if Rank(a) == 0 {
        TableActiveFirst(a, b);
      }
    }
  }

  /** The update dialog's draft before any topic is chosen: every field empty. */
  const EmptyDraft := TopicDraft("", None, None)

  /** The state of the table component; `topics` is the list its parent passes in. */
  class Table {
    var topics: seq<Topic>
    var openDialog: bool
    var currentTopic: Option<Topic>
    var updatedTopic: TopicDraft
    /** The `onUpdate(topicId, draft)` calls made, in order. */
    var updates: seq<(string, TopicDraft)>

    constructor (topics: seq<Topic>)
      ensures this.topics == topics
      ensures !openDialog && currentTopic == None && updatedTopic == EmptyDraft && updates == []
    {
      this.topics := topics;
      openDialog, currentTopic, updatedTopic, updates := false, None, EmptyDraft, [];
    }

    /** The rows: every topic annotated, in display-class order under the insertion model. */
    function SortedTopics(today: int, threeDaysFromNow: int): (r: seq<Annotated>)
      reads this
      requires today <= threeDaysFromNow
      ensures |r| == |topics|
      ensures multiset(r) == multiset(AnnotateAll(topics, today, threeDaysFromNow))
      ensures SortedBy(Rank, r)
    {
      var annotated := AnnotateAll(topics, today, threeDaysFromNow);
      AnnotateAllCoherent(topics, today, threeDaysFromNow);
      TableCompareOrdersByRank();
      SortSorted(TableCompare, Rank, Coherent, annotated);
      SortPermutes(TableCompare, annotated);
      assert |multiset(Sort(TableCompare, annotated))| == |multiset(annotated)|;
      Sort(TableCompare, annotated)
    }

    /** "Update" on a row: remember the topic, copy its three editable fields, open the dialog. */
    method HandleOpenDialog(topic: Topic)
      modifies this`currentTopic, this`updatedTopic, this`openDialog
      ensures currentTopic == Some(topic) && openDialog
      ensures updatedTopic == TopicDraft(topic.topicName, Some(topic.releaseDate), Some(topic.endDate))
      ensures topics == old(topics) && updates == old(updates)
    {
      currentTopic := Some(topic);
      updatedTopic := TopicDraft(topic.topicName, Some(topic.releaseDate), Some(topic.endDate));
      openDialog := true;
    }

    /** Cancel, or a backdrop click: close and forget the topic; the draft stays as it was. */
    method HandleCloseDialog()
      modifies this`openDialog, this`currentTopic
      ensures !openDialog && currentTopic == None
      ensures updatedTopic == old(updatedTopic) && topics == old(topics) && updates == old(updates)
    {
      openDialog := false;
      currentTopic := None;
    }

    /**
     * "Update" in the dialog: with a topic chosen, hand its id and the draft
     * to `onUpdate`; close once that settles. A rejection from `onUpdate`
     * propagates and the dialog stays as it is. Without a topic nothing happens.
     */
    method HandleUpdate(onUpdateResolves: bool)
      modifies this`updates, this`openDialog, this`currentTopic
      ensures old(currentTopic).None? ==>
                openDialog == old(openDialog) && currentTopic == old(currentTopic) && updates == old(updates)
      ensures old(currentTopic).Some? ==> updates == old(updates) + [(old(currentTopic).value.id, old(updatedTopic))]
      ensures old(currentTopic).Some? && onUpdateResolves ==> !openDialog && currentTopic == None
      ensures old(currentTopic).Some? && !onUpdateResolves ==>
                openDialog == old(openDialog) && currentTopic == old(currentTopic)
      ensures updatedTopic == old(updatedTopic) && topics == old(topics)
    {
      if currentTopic.Some? {
        updates := updates + [(currentTopic.value.id, updatedTopic)];
        if onUpdateResolves {
          HandleCloseDialog();
        }
      }
    }

    /** The end-date input: only the draft's end date changes (a cleared input is `None`). */
    method EditEndDate(value: Option<int>)
      modifies this`updatedTopic
      ensures updatedTopic == old(updatedTopic).(endDate := value)
      ensures openDialog == old(openDialog) && currentTopic == old(currentTopic)
      ensures topics == old(topics) && updates == old(updates)
    {
      updatedTopic := updatedTopic.(endDate := value);
    }
  }
}

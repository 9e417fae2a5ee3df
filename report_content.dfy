/**
 * The statistics report panel (src/pages/Admin/userManagement/ReportContent.jsx):
 * a spinner while loading, one card per faculty other than the `'none'`
 * bucket, and the export button.
 */
module ReportContent {
  import opened Wrappers
  import Seqs

  /** One faculty's statistics as the backend reports them. */
  datatype ReportItem = ReportItem(
    facultyName: string,
    memberCount: int,
    manager: Option<string>,
    topicCount: int,
    contributionCount: int,
    approvedCount: int,
    rejectedCount: int,
    publicCount: int,
    coordinatorCount: int,
    studentCount: int)

  /** The `reportData` prop: absent (`null` or `undefined`), some non-array value, or an array. */
  datatype ReportData = Absent | NotArray | Items(items: seq<ReportItem>)

  /** A rendered card: the item and the manager label shown for it. */
  datatype Card = Card(item: ReportItem, managerLabel: string)

  /** What the panel renders. */
  datatype View = Spinner | Report(cards: seq<Card>, exportButton: bool) | Nothing

  /** `item.manager || 'N/A'`. */
  function ManagerLabel(manager: Option<string>): (s: string)
    ensures s != ""
    ensures manager.Some? && manager.value != "" ==> s == manager.value
  {
    if manager.Some? && manager.value != "" then manager.value else "N/A"
  }

  predicate Listed(item: ReportItem)
  {
    item.facultyName != "none"
  }

  function CardsOf(items: seq<ReportItem>): (r: seq<Card>)
    ensures |r| == |items|
    ensures forall i :: 0 <= i < |items| ==> r[i] == Card(items[i], ManagerLabel(items[i].manager))
  {
    if items == [] then [] else [Card(items[0], ManagerLabel(items[0].manager))] + CardsOf(items[1..])
  }

  /** The cards shown: every item but the `'none'` faculty, in the order given. */
  function ListedItems(items: seq<ReportItem>): (r: seq<ReportItem>)
    ensures forall it :: it in r <==> it in items && it.facultyName != "none"
    ensures Seqs.IsSubsequence(r, items)
  {
    Seqs.FilterIsSubsequence(Listed, items);
    Seqs.Filter(Listed, items)
  }

  function Render(isReportLoading: bool, reportData: ReportData): (v: View)
    ensures isReportLoading <==> v.Spinner?
    ensures v.Nothing? <==> !isReportLoading && !reportData.Items?
    ensures v.Report? ==> v.exportButton && v.cards == CardsOf(ListedItems(reportData.items))
    ensures forall c :: v.Report? && c in v.cards ==> c.item.facultyName != "none" && c.item in reportData.items
  {
    if isReportLoading then Spinner
    else if reportData.Items? then
      var cards := CardsOf(ListedItems(reportData.items));
      assert forall c :: c in cards ==> c.item in ListedItems(reportData.items);
      Report(cards, true)
    else Nothing
  }
}

/**
 * The guest's contribution list (src/pages/Guest/GuestDashboard.jsx): only
 * approved contributions are shown, with long file names shortened.
 */
module GuestDashboard {
  import opened Wrappers
  import opened Entities
  import Seqs

  /** `MAX_FILE_NAME_LENGTH`. */
  const MaxFileNameLength := 30

  /** Names longer than the maximum keep their first 30 characters and gain "...". */
  function TruncateFileName(name: string): (r: string)
    ensures |name| <= MaxFileNameLength ==> r == name
    ensures |name| > MaxFileNameLength ==> |r| == MaxFileNameLength + 3 && r[MaxFileNameLength..] == "..."
    ensures |r| <= MaxFileNameLength + 3
    ensures var n := if |name| < MaxFileNameLength then |name| else MaxFileNameLength;
            n <= |r| && r[..n] == name[..n]
  {
    if |name| > MaxFileNameLength then name[..MaxFileNameLength] + "..." else name
  }

  /** Shortening a shortened name changes nothing. */
  lemma TruncateIdempotent(name: string)
    ensures TruncateFileName(TruncateFileName(name)) == TruncateFileName(name)
  {
    var r := TruncateFileName(name);
    if |name| > MaxFileNameLength {
      assert r[..MaxFileNameLength] == name[..MaxFileNameLength];
    }
  }

  predicate IsApproved(c: Contribution)
  {
    c.statusName == Some("Approved")
  }

  /** The rows rendered: the approved contributions, in fetched order. */
  function ApprovedOnly(contributions: seq<Contribution>): (r: seq<Contribution>)
    ensures forall c :: c in r <==> c in contributions && IsApproved(c)
    ensures Seqs.IsSubsequence(r, contributions)
  {
    Seqs.FilterIsSubsequence(IsApproved, contributions);
    Seqs.Filter(IsApproved, contributions)
  }

  class Dashboard {
    var contributions: seq<Contribution>
    var loading: bool
    var hasFetchedData: bool
    /** How many times `getContributions` was called. */
    var fetchCount: nat

    constructor ()
      ensures contributions == [] && !loading && !hasFetchedData && fetchCount == 0
    {
      contributions, loading, hasFetchedData, fetchCount := [], false, false, 0;
    }

    /** `fetchData`: the list replaces `contributions`; a failure is logged and keeps it. */
    method FetchData(outcome: Response<seq<Contribution>>)
      modifies this`loading, this`fetchCount, this`contributions
      ensures fetchCount == old(fetchCount) + 1
      ensures contributions == (if outcome.Ok? then outcome.value else old(contributions))
      ensures !loading && hasFetchedData == old(hasFetchedData)
    {
      loading := true;
      fetchCount := fetchCount + 1;
      if outcome.Ok? {
        contributions := outcome.value;
      }
      loading := false;
    }

    /** The mount effect: fetch once, then set the flag. */
    method MountEffect(outcome: Response<seq<Contribution>>)
      modifies this`hasFetchedData, this`loading, this`fetchCount, this`contributions
      ensures hasFetchedData
      ensures fetchCount == old(fetchCount) + (if old(hasFetchedData) then 0 else 1)
      ensures old(hasFetchedData) ==> contributions == old(contributions) && loading == old(loading)
      ensures !old(hasFetchedData) ==> !loading
                                       && contributions == (if outcome.Ok? then outcome.value else old(contributions))
    {
      if !hasFetchedData {
        FetchData(outcome);
        hasFetchedData := true;
      }
    }
  }
}

/**
 * A student's contributions to one topic (src/pages/Student/topics/topicDetail.jsx):
 * the fetched list, the update dialog, the refetch after an update and the
 * snackbar, plus the gate that decides whether "Update" is offered.
 */
module TopicDetail {
  import opened Wrappers
  import opened Entities
  import TopicWindow

  /**
   * "Update" is rendered when the `endDate` route parameter is strictly after
   * the current instant. A missing or unparsable parameter is `None`, and the
   * comparison with an invalid date is false.
   */
  predicate UpdateOffered(endDate: Option<int>, now: int)
  {
    endDate.Some? && endDate.value > now
  }

  /**
   * The update gate is strict while the dashboard's create gate is not: they
   * differ exactly when the end instant is the current instant.
   */
  lemma UpdateGateStricterThanCreate(endDate: int, now: int)
    ensures UpdateOffered(Some(endDate), now) ==> !TopicWindow.IsExpired(endDate, now)
    ensures (!TopicWindow.IsExpired(endDate, now) && !UpdateOffered(Some(endDate), now)) <==> endDate == now
  {
  }

  /** Without an end instant in the route, "Update" is never offered. */
  lemma NoEndDateNoUpdate(now: int)
    ensures !UpdateOffered(None, now)
  {
  }

  /** A backend call the page makes. */
  datatype Call =
    | GetContributionForStudent(studentId: string, facultyId: string, topicId: string)
    | UpdateContribution(id: string, data: seq<FormEntry>)

  const FetchError := Snackbar(true, "Error fetching contributions.", Error)
  const UpdateSuccess := Snackbar(true, "Contribution updated successfully.", Success)
  const UpdateError := Snackbar(true, "Error updating contribution.", Error)

  class Detail {
    const studentId: string
    const facultyId: string
    const topicId: string
    var contributions: seq<Contribution>
    var loading: bool
    var open: bool
    var selected: Option<Contribution>
    var snackbar: Snackbar
    var hasFetchedData: bool
    /** The backend calls made, in order. */
    var calls: seq<Call>

    constructor (studentId: string, facultyId: string, topicId: string)
      ensures this.studentId == studentId && this.facultyId == facultyId && this.topicId == topicId
      ensures contributions == [] && !loading && !open && selected == None && !hasFetchedData && calls == []
      ensures snackbar == Snackbar(false, "", Success)
    {
      this.studentId, this.facultyId, this.topicId := studentId, facultyId, topicId;
      contributions, loading, open, selected, hasFetchedData, calls := [], false, false, None, false, [];
      snackbar := Snackbar(false, "", Success);
    }

    function FetchCall(): Call
      reads this
    {
      GetContributionForStudent(studentId, facultyId, topicId)
    }

    /**
     * `fetchData`: the list replaces `contributions`; a failure keeps the
     * list and shows the fetch error. `loading` ends false either way.
     */
    method FetchData(outcome: Response<seq<Contribution>>)
      modifies this`loading, this`calls, this`contributions, this`snackbar
      ensures calls == old(calls) + [FetchCall()]
      ensures outcome.Ok? ==> contributions == outcome.value && snackbar == old(snackbar)
      ensures outcome.Failed? ==> contributions == old(contributions) && snackbar == FetchError
      ensures !loading
      ensures open == old(open) && selected == old(selected) && hasFetchedData == old(hasFetchedData)
    {
      loading := true;
      calls := calls + [FetchCall()];
      match outcome {
        case Ok(data) => contributions := data;
        case Failed => snackbar := FetchError;
      }
      loading := false;
    }

    /** The mount effect: fetch once, then set the flag. */
    method MountEffect(outcome: Response<seq<Contribution>>)
      modifies this`hasFetchedData, this`loading, this`calls, this`contributions, this`snackbar
      ensures hasFetchedData
      ensures old(hasFetchedData) ==> calls == old(calls) && contributions == old(contributions)
                                      && snackbar == old(snackbar) && loading == old(loading)
      ensures !old(hasFetchedData) ==> calls == old(calls) + [FetchCall()] && !loading
      ensures !old(hasFetchedData) && outcome.Ok? ==> contributions == outcome.value && snackbar == old(snackbar)
      ensures !old(hasFetchedData) && outcome.Failed? ==> contributions == old(contributions) && snackbar == FetchError
    {
      if !hasFetchedData {
        FetchData(outcome);
        hasFetchedData := true;
      }
    }

    /** "Update" on a row: select that contribution and open the dialog. */
    method HandleOpen(c: Contribution)
      modifies this`selected, this`open
      ensures selected == Some(c) && open
      ensures contributions == old(contributions) && snackbar == old(snackbar) && calls == old(calls)
      ensures loading == old(loading) && hasFetchedData == old(hasFetchedData)
    {
      selected := Some(c);
      open := true;
    }

    /** Close the dialog and clear the selection. */
    method HandleClose()
      modifies this`selected, this`open
      ensures !open && selected == None
      ensures contributions == old(contributions) && snackbar == old(snackbar) && calls == old(calls)
      ensures loading == old(loading) && hasFetchedData == old(hasFetchedData)
    {
      open := false;
      selected := None;
    }

    /**
     * `handleUpdate`: update; on success exactly one awaited refetch, then
     * close and the success message (which replaces a refetch error). On
     * failure the dialog, the selection and the list stay and the update
     * error is shown.
     */
    method HandleUpdate(id: string, data: seq<FormEntry>, updateOk: bool, refetch: Response<seq<Contribution>>)
      modifies this`selected, this`open, this`loading, this`calls, this`contributions, this`snackbar
      ensures updateOk ==> calls == old(calls) + [UpdateContribution(id, data), FetchCall()] && !loading
      ensures updateOk ==> !open && selected == None && snackbar == UpdateSuccess
      ensures updateOk ==> contributions == (if refetch.Ok? then refetch.value else old(contributions))
      ensures !updateOk ==> calls == old(calls) + [UpdateContribution(id, data)] && snackbar == UpdateError
      ensures !updateOk ==> open == old(open) && selected == old(selected) && contributions == old(contributions)
                            && loading == old(loading)
      ensures hasFetchedData == old(hasFetchedData)
    {
      calls := calls + [UpdateContribution(id, data)];
      if updateOk {
        FetchData(refetch);
        HandleClose();
        snackbar := UpdateSuccess;
      } else {
        snackbar := UpdateError;
      }
    }

    /** Closing the snackbar hides it and keeps its message and severity. */
    method HandleSnackbarClose()
      modifies this`snackbar
      ensures snackbar == old(snackbar).(open := false)
      ensures contributions == old(contributions) && open == old(open) && selected == old(selected)
      ensures calls == old(calls) && loading == old(loading) && hasFetchedData == old(hasFetchedData)
    {
      snackbar := snackbar.(open := false);
    }
  }
}

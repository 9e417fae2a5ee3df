/**
 * The coordinator's dashboard (src/pages/FMC/FMCDashboard.jsx): the faculty's
 * topics and users fetched together, the status filter, and a topic update
 * followed by a refetch.
 */
module FmcDashboard {
  import opened Wrappers
  import opened Entities
  import TopicWindow

  /** A backend call the page makes. */
  datatype Call =
    | GetTopicsByFaculty(facultyId: string)
    | GetUsersByFaculty(facultyId: string)
    | UpdateTopic(topicId: string, data: TopicDraft)

  class Dashboard {
    /** `user.facultyID`. */
    const facultyId: string
    var topics: seq<Topic>
    var users: seq<User>
    var hasFetchedData: bool
    var statusFilter: string
    var loading: bool
    /** The backend calls made, in the order they are issued. */
    var calls: seq<Call>

    constructor (facultyId: string)
      ensures this.facultyId == facultyId
      ensures topics == [] && users == [] && !hasFetchedData && statusFilter == "" && !loading && calls == []
    {
      this.facultyId := facultyId;
      topics, users, hasFetchedData, statusFilter, loading, calls := [], [], false, "", false, [];
    }

    /** The two calls one `fetchData` issues together. */
    function FetchCalls(): seq<Call>
      reads this
    {
      [GetTopicsByFaculty(facultyId), GetUsersByFaculty(facultyId)]
    }

    /**
     * `fetchData`: both lists are requested together; when both arrive they
     * replace `topics` and `users`, and when either call fails neither list
     * changes. `loading` ends false either way.
     */
    method FetchData(outcome: Response<(seq<Topic>, seq<User>)>)
      modifies this`loading, this`calls, this`topics, this`users
      ensures calls == old(calls) + FetchCalls()
      ensures outcome.Ok? ==> topics == outcome.value.0 && users == outcome.value.1
      ensures outcome.Failed? ==> topics == old(topics) && users == old(users)
      ensures !loading
      ensures hasFetchedData == old(hasFetchedData) && statusFilter == old(statusFilter)
    {
      loading := true;
      calls := calls + FetchCalls();
      match outcome {
        case Ok(data) =>
          topics := data.0;
          users := data.1;
        case Failed =>
      }
      loading := false;
    }

    /** The mount effect: fetch once, then set the flag. */
    method MountEffect(outcome: Response<(seq<Topic>, seq<User>)>)
      modifies this`hasFetchedData, this`loading, this`calls, this`topics, this`users
      ensures hasFetchedData
      ensures old(hasFetchedData) ==> calls == old(calls) && topics == old(topics) && users == old(users)
                                      && loading == old(loading)
      ensures !old(hasFetchedData) ==> calls == old(calls) + FetchCalls() && !loading
      ensures !old(hasFetchedData) && outcome.Ok? ==> topics == outcome.value.0 && users == outcome.value.1
      ensures !old(hasFetchedData) && outcome.Failed? ==> topics == old(topics) && users == old(users)
    {
      if !hasFetchedData {
        FetchData(outcome);
        hasFetchedData := true;
      }
    }

    /**
     * `handleUpdateTopic`: update, then exactly one awaited refetch when the
     * update succeeds; a failed update is logged, nothing is refetched and the
     * lists stay. `loading` ends false.
     */
    method HandleUpdateTopic(topicId: string, data: TopicDraft, updateOk: bool,
                             refetch: Response<(seq<Topic>, seq<User>)>)
      modifies this`loading, this`calls, this`topics, this`users
      ensures updateOk ==> calls == old(calls) + [UpdateTopic(topicId, data)] + FetchCalls()
      ensures updateOk && refetch.Ok? ==> topics == refetch.value.0 && users == refetch.value.1
      ensures !updateOk ==> calls == old(calls) + [UpdateTopic(topicId, data)]
      ensures !updateOk || refetch.Failed? ==> topics == old(topics) && users == old(users)
      ensures !loading
      ensures hasFetchedData == old(hasFetchedData) && statusFilter == old(statusFilter)
    {
      loading := true;
      calls := calls + [UpdateTopic(topicId, data)];
      if updateOk {
        FetchData(refetch);
      }
      loading := false;
    }

    /** The status drop-down. */
    method SetStatusFilter(value: string)
      modifies this`statusFilter
      ensures statusFilter == value
      ensures topics == old(topics) && users == old(users) && calls == old(calls)
      ensures loading == old(loading) && hasFetchedData == old(hasFetchedData)
    {
      statusFilter := value;
    }

    /** The list handed to the table: the topics the current status filter keeps, in fetched order. */
    function FilteredTopics(today: int, threeDaysFromNow: int): (r: seq<Topic>)
      reads this
      ensures forall t :: t in r <==> t in topics && TopicWindow.Keep(statusFilter, today, threeDaysFromNow, t)
    {
      TopicWindow.FilterTopics(topics, statusFilter, today, threeDaysFromNow)
    }
  }
}

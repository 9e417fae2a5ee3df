/**
 * The contributions of one topic as a faculty manager sees them
 * (src/pages/UMM/faculties/contributions/Contributions.jsx): a fetch-once
 * page; icons and status colours come from `ContributionDisplay`.
 */
module ContributionsPage {
  import opened Wrappers
  import opened Entities

  class Page {
    /** The `topicId` route parameter. */
    const topicId: string
    var contributions: seq<Contribution>
    var hasFetchData: bool
    /** The topic ids passed to `getContributionByTopicId`, in order. */
    var fetches: seq<string>

    constructor (topicId: string)
      ensures this.topicId == topicId && contributions == [] && !hasFetchData && fetches == []
    {
      this.topicId := topicId;
      contributions, hasFetchData, fetches := [], false, [];
    }

    /** `fetchData`: the list replaces `contributions`; a failure is logged and keeps it. */
    method FetchData(outcome: Response<seq<Contribution>>)
      modifies this`fetches, this`contributions
      ensures fetches == old(fetches) + [topicId]
      ensures contributions == (if outcome.Ok? then outcome.value else old(contributions))
      ensures hasFetchData == old(hasFetchData)
    {
      fetches := fetches + [topicId];
      if outcome.Ok? {
        contributions := outcome.value;
      }
    }

    /** The mount effect: fetch once, then set the flag. */
    method MountEffect(outcome: Response<seq<Contribution>>)
      modifies this`hasFetchData, this`fetches, this`contributions
      ensures hasFetchData
      ensures old(hasFetchData) ==> fetches == old(fetches) && contributions == old(contributions)
      ensures !old(hasFetchData) ==> fetches == old(fetches) + [topicId]
                                     && contributions == (if outcome.Ok? then outcome.value else old(contributions))
    {
      if !hasFetchData {
        FetchData(outcome);
        hasFetchData := true;
      }
    }
  }
}

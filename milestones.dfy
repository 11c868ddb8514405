/** Milestone: a numbered, timestamped milestone of a repository. */
module Milestones {
  import opened Wrappers
  import opened Values
  import opened ValueUtility
  import opened ResourceBases
  import opened Owners
  import opened IssueStates

  datatype Milestone = Milestone(
    base: TimestampedBrowserAccessible,
    number: Int32,
    state: State,
    title: string,
    description: Option<string>,
    creator: Owner,
    openIssues: int,
    closedIssues: int,
    closedAt: Option<Instant>,
    dueOn: Option<Instant>)

  /**
   * The Milestone constructor: the update time collapses into the
   * timestamped base, a blank description reads as absent, everything else
   * is stored as given.
   */
  function NewMilestone(id: string, number: Int32, state: State, title: string, description: Option<string>,
                        creator: Owner, openIssues: int, closedIssues: int, browserUrl: Url,
                        createdAt: Instant, updatedAt: Instant, closedAt: Option<Instant>, dueOn: Option<Instant>): (r: Milestone)
    ensures r.base.timestamped.resource.id == id && r.base.browserUrl == browserUrl
    ensures r.base.timestamped.creation == createdAt
    ensures r.base.timestamped.modification == (if updatedAt == createdAt then None else Some(updatedAt))
    ensures r.number == number && r.state == state && r.title == title && r.creator == creator
    ensures r.description.None? <==> (description.None? || IsBlank(description.value))
    ensures r.description.Some? ==> r.description == description
    ensures r.openIssues == openIssues && r.closedIssues == closedIssues && r.closedAt == closedAt && r.dueOn == dueOn
  {
    Milestone(NewTimestampedBrowserAccessible(id, browserUrl, createdAt, Some(updatedAt)), number, state, title,
              ToOptionalString(description), creator, openIssues, closedIssues, closedAt, dueOn)
  }

  /** Milestone.equals: the base, then every field, the creator by ResourceOwner.equals. */
  predicate MilestoneEquals(a: Milestone, b: Milestone) {
    TimestampedBrowserAccessibleEquals(a.base, b.base) && a.number == b.number && a.openIssues == b.openIssues
    && a.closedIssues == b.closedIssues && a.state == b.state && a.title == b.title
    && a.description == b.description && OwnerEquals(a.creator, b.creator) && a.closedAt == b.closedAt && a.dueOn == b.dueOn
  }

  /** Milestone.hashCode: the same fields equals compares. */
  type MilestoneKey = (TimestampedBrowserAccessibleKey, Int32, State, string, Option<string>, OwnerKey, int, int,
                       Option<Instant>, Option<Instant>)

  function MilestoneHashKey(a: Milestone): MilestoneKey {
    (TimestampedBrowserAccessibleHashKey(a.base), a.number, a.state, a.title, a.description, OwnerHashKey(a.creator),
     a.openIssues, a.closedIssues, a.closedAt, a.dueOn)
  }

  lemma MilestoneHashConsistent(a: Milestone, b: Milestone)
    ensures MilestoneEquals(a, b) <==> MilestoneHashKey(a) == MilestoneHashKey(b)
  {
    OwnerHashConsistent(a.creator, b.creator);
  }

  /** A missing, an empty and a whitespace-only description build equal milestones. */
  lemma BlankDescriptionsBuildEqualMilestones(id: string, number: Int32, state: State, title: string, creator: Owner,
                                               openIssues: int, closedIssues: int, browserUrl: Url, createdAt: Instant,
                                               updatedAt: Instant, closedAt: Option<Instant>, dueOn: Option<Instant>)
    ensures NewMilestone(id, number, state, title, None, creator, openIssues, closedIssues, browserUrl, createdAt, updatedAt, closedAt, dueOn)
         == NewMilestone(id, number, state, title, Some(""), creator, openIssues, closedIssues, browserUrl, createdAt, updatedAt, closedAt, dueOn)
         == NewMilestone(id, number, state, title, Some(" \n"), creator, openIssues, closedIssues, browserUrl, createdAt, updatedAt, closedAt, dueOn)
  {
  }
}

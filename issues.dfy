/**
 * Issue and its subclass PullRequest. A pull request is an issue with a
 * head and a base branch; Issue.equals accepts any issue, pull requests
 * included, while PullRequest.equals accepts only pull requests.
 */
module Issues {
  import opened Wrappers
  import opened Values
  import opened ResourceBases
  import opened Owners
  import opened Labels
  import opened IssueStates
  import opened Milestones
  import opened Carriers

  /** The fields every issue has. */
  datatype IssueFields = IssueFields(
    base: TimestampedBrowserAccessible,
    number: int,
    title: string,
    body: Option<string>,
    user: Owner,
    state: State,
    locked: bool,
    comments: int,
    assignee: Option<Owner>,
    milestone: Option<Milestone>,
    labels: Option<set<Label>>,
    closedAt: Option<Instant>)

  /** The fields a pull request adds. */
  datatype PullRequestFields = PullRequestFields(
    mergeCommitId: Option<string>,
    head: Reference,
    baseBranch: Reference,
    diffUrl: Url,
    patchUrl: Url,
    mergedAt: Option<Instant>)

  /** An Issue object: a plain issue or a pull request. */
  datatype Issue =
    | PlainIssue(fields: IssueFields)
    | PullRequest(fields: IssueFields, pull: PullRequestFields)

  /**
   * The Issue constructor: identifier, URL and timestamps go to the
   * timestamped base (an update equal to the creation reads as none); the
   * label set is copied, a missing one stays missing.
   */
  function NewIssueFields(id: string, number: int, title: string, body: Option<string>, user: Owner, state: State,
                          locked: bool, comments: int, assignee: Option<Owner>, milestone: Option<Milestone>,
                          labels: Option<set<Label>>, browserUrl: Url, createdAt: Instant, updatedAt: Instant,
                          closedAt: Option<Instant>): (r: IssueFields)
    ensures r.base.timestamped.resource.id == id && r.base.browserUrl == browserUrl
    ensures r.base.timestamped.creation == createdAt
    ensures r.base.timestamped.modification == (if updatedAt == createdAt then None else Some(updatedAt))
    ensures r.number == number && r.title == title && r.body == body && r.user == user && r.state == state
    ensures r.locked == locked && r.comments == comments && r.assignee == assignee && r.milestone == milestone
    ensures r.labels == labels && r.closedAt == closedAt
  {
    IssueFields(NewTimestampedBrowserAccessible(id, browserUrl, createdAt, Some(updatedAt)), number, title, body, user,
                state, locked, comments, assignee, milestone, labels, closedAt)
  }

  function NewIssue(id: string, number: int, title: string, body: Option<string>, user: Owner, state: State,
                    locked: bool, comments: int, assignee: Option<Owner>, milestone: Option<Milestone>,
                    labels: Option<set<Label>>, browserUrl: Url, createdAt: Instant, updatedAt: Instant,
                    closedAt: Option<Instant>): (r: Issue)
    ensures r.PlainIssue?
    ensures r.fields == NewIssueFields(id, number, title, body, user, state, locked, comments, assignee, milestone,
                                       labels, browserUrl, createdAt, updatedAt, closedAt)
  {
    PlainIssue(NewIssueFields(id, number, title, body, user, state, locked, comments, assignee, milestone,
                              labels, browserUrl, createdAt, updatedAt, closedAt))
  }

  /**
   * The PullRequest constructor: the issue fields go to the Issue
   * constructor unchanged (a missing body included), the rest is stored.
   */
  function NewPullRequest(id: string, number: int, title: string, body: Option<string>, user: Owner, state: State,
                          mergeCommitId: Option<string>, head: Reference, baseBranch: Reference, locked: bool,
                          comments: int, assignee: Option<Owner>, milestone: Option<Milestone>,
                          labels: Option<set<Label>>, htmlUrl: Url, diffUrl: Url, patchUrl: Url, createdAt: Instant,
                          updatedAt: Instant, closedAt: Option<Instant>, mergedAt: Option<Instant>): (r: Issue)
    ensures r.PullRequest?
    ensures r.fields == NewIssue(id, number, title, body, user, state, locked, comments, assignee, milestone,
                                 labels, htmlUrl, createdAt, updatedAt, closedAt).fields
    ensures r.pull.mergeCommitId == mergeCommitId && r.pull.head == head && r.pull.baseBranch == baseBranch
    ensures r.pull.diffUrl == diffUrl && r.pull.patchUrl == patchUrl && r.pull.mergedAt == mergedAt
  {
    PullRequest(NewIssueFields(id, number, title, body, user, state, locked, comments, assignee, milestone,
                               labels, htmlUrl, createdAt, updatedAt, closedAt),
                PullRequestFields(mergeCommitId, head, baseBranch, diffUrl, patchUrl, mergedAt))
  }

  /**
   * getLabels: an unmodifiable view of the label set; a NullPointerException
   * when the issue was built without one.
   */
  function GetLabels(i: Issue): (r: Result<set<Label>>)
    ensures r.Failure? <==> i.fields.labels.None?
    ensures r.Failure? ==> r.error == NullPointer
    ensures r.Success? ==> Some(r.value) == i.fields.labels
  {
    if i.fields.labels.None? then Failure(NullPointer) else Success(i.fields.labels.value)
  }

  /** Optional owners as Objects.equals compares them. */
  predicate OptionalOwnerEquals(a: Option<Owner>, b: Option<Owner>) {
    if a.None? || b.None? then a == b else OwnerEquals(a.value, b.value)
  }

  /** Optional milestones as Objects.equals compares them. */
  predicate OptionalMilestoneEquals(a: Option<Milestone>, b: Option<Milestone>) {
    if a.None? || b.None? then a == b else MilestoneEquals(a.value, b.value)
  }

  /** The comparison of Issue.equals after its instanceof test. */
  predicate IssueFieldsEquals(a: IssueFields, b: IssueFields) {
    TimestampedBrowserAccessibleEquals(a.base, b.base) && a.number == b.number && a.locked == b.locked
    && a.comments == b.comments && a.title == b.title && a.body == b.body && OwnerEquals(a.user, b.user)
    && a.state == b.state && OptionalOwnerEquals(a.assignee, b.assignee)
    && OptionalMilestoneEquals(a.milestone, b.milestone) && a.labels == b.labels && a.closedAt == b.closedAt
  }

  /** The comparison PullRequest.equals adds; the diff and patch URLs are not part of it. */
  predicate PullRequestFieldsEquals(a: PullRequestFields, b: PullRequestFields) {
    a.mergedAt == b.mergedAt && a.mergeCommitId == b.mergeCommitId
    && ReferenceEquals(a.head, b.head) && ReferenceEquals(a.baseBranch, b.baseBranch)
  }

  /**
   * `a.equals(b)`, dispatched on a's class: an issue accepts any issue, a
   * pull request only another pull request.
   */
  predicate IssueEquals(a: Issue, b: Issue) {
    match a
    case PlainIssue(f) => IssueFieldsEquals(f, b.fields)
    case PullRequest(f, p) => b.PullRequest? && IssueFieldsEquals(f, b.fields) && PullRequestFieldsEquals(p, b.pull)
  }

  /** Every issue and every pull request equals itself. */
  lemma IssueEqualsReflexive(i: Issue)
    ensures IssueEquals(i, i)
  {
    IssueHashConsistentWithinClass(i, i);
  }

  /** An issue equals a pull request with the same issue fields, but not the other way round. */
  lemma IssueEqualsIsAsymmetric(f: IssueFields, p: PullRequestFields)
    ensures IssueEquals(PlainIssue(f), PullRequest(f, p))
    ensures !IssueEquals(PullRequest(f, p), PlainIssue(f))
  {
    OwnerHashConsistent(f.user, f.user);
  }

  /** Pull requests that differ only in their diff and patch URLs are equal. */
  lemma PullRequestIgnoresDiffAndPatchUrls(f: IssueFields, p: PullRequestFields, diffUrl: Url, patchUrl: Url)
    ensures IssueEquals(PullRequest(f, p), PullRequest(f, p.(diffUrl := diffUrl, patchUrl := patchUrl)))
  {
  }

  /** Issue.hashCode: the fields Issue.equals compares, nested entities by their own hash. */
  type IssueFieldsKey = (TimestampedBrowserAccessibleKey, int, string, Option<string>, OwnerKey, State, bool, int,
                         Option<OwnerKey>, Option<MilestoneKey>, Option<set<Label>>, Option<Instant>)

  /** PullRequest.hashCode adds the fields PullRequest.equals compares. */
  type PullRequestFieldsKey = (Option<Instant>, Option<string>, ReferenceKey, ReferenceKey)

  datatype IssueKey = IssueKey(fields: IssueFieldsKey, pull: Option<PullRequestFieldsKey>)

  function IssueFieldsHashKey(f: IssueFields): IssueFieldsKey {
    (TimestampedBrowserAccessibleHashKey(f.base), f.number, f.title, f.body, OwnerHashKey(f.user), f.state, f.locked,
     f.comments, if f.assignee.Some? then Some(OwnerHashKey(f.assignee.value)) else None,
     if f.milestone.Some? then Some(MilestoneHashKey(f.milestone.value)) else None, f.labels, f.closedAt)
  }

  function IssueHashKey(i: Issue): IssueKey {
    match i
    case PlainIssue(f) => IssueKey(IssueFieldsHashKey(f), None)
    case PullRequest(f, p) =>
      IssueKey(IssueFieldsHashKey(f), Some((p.mergedAt, p.mergeCommitId, ReferenceHashKey(p.head), ReferenceHashKey(p.baseBranch))))
  }

  lemma IssueFieldsHashConsistent(a: IssueFields, b: IssueFields)
    ensures IssueFieldsEquals(a, b) <==> IssueFieldsHashKey(a) == IssueFieldsHashKey(b)
  {
    OwnerHashConsistent(a.user, b.user);
    if a.assignee.Some? && b.assignee.Some? {
      OwnerHashConsistent(a.assignee.value, b.assignee.value);
    }
    if a.milestone.Some? && b.milestone.Some? {
      MilestoneHashConsistent(a.milestone.value, b.milestone.value);
    }
  }

  /** Between two objects of the same class, equality and equal hash keys coincide. */
  lemma IssueHashConsistentWithinClass(a: Issue, b: Issue)
    requires a.PlainIssue? == b.PlainIssue?
    ensures IssueEquals(a, b) <==> IssueHashKey(a) == IssueHashKey(b)
  {
    IssueFieldsHashConsistent(a.fields, b.fields);
    if a.PullRequest? {
      ReferenceHashConsistent(a.pull.head, b.pull.head);
      ReferenceHashConsistent(a.pull.baseBranch, b.pull.baseBranch);
    }
  }

  /**
   * Across the two classes the hash contract breaks: an issue equals a pull
   * request with its fields, yet their hash keys differ.
   */
  lemma IssueEqualsPullRequestWithOtherHash(f: IssueFields, p: PullRequestFields)
    ensures IssueEquals(PlainIssue(f), PullRequest(f, p))
    ensures IssueHashKey(PlainIssue(f)) != IssueHashKey(PullRequest(f, p))
  {
    IssueEqualsIsAsymmetric(f, p);
  }
}

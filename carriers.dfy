/**
 * The resources the events carry without rules of their own beyond their
 * base class: Repository, Reference, Release, Deployment,
 * DeploymentStatus, Membership and Review. Each is built from its fields
 * and compared field by field, owners by ResourceOwner.equals.
 */
module Carriers {
  import opened Wrappers
  import opened Values
  import opened ResourceBases
  import opened Owners

  /** The plain-valued fields of a Repository, every one compared by Repository.equals. */
  datatype RepositoryDetails = RepositoryDetails(
    name: string,
    fullName: string,
    description: Option<string>,
    privateAccess: bool,
    fork: bool,
    gitUrl: string,
    sshUrl: string,
    cloneUrl: string,
    svnUrl: string,
    mirrorUrl: Option<string>,
    homepageUrl: Option<Url>,
    defaultBranch: string,
    size: int,
    primaryLanguage: Option<string>,
    stargazersCount: int,
    watchersCount: int,
    forksCount: int,
    openIssuesCount: int,
    hasIssues: bool,
    hasDownloads: bool,
    hasWiki: bool,
    hasPages: bool,
    pushedAt: Option<Instant>)

  datatype Repository = Repository(base: TimestampedBrowserAccessible, owner: Owner, details: RepositoryDetails)

  /**
   * The Repository constructor: identifier, URL and timestamps go to the
   * timestamped base (so an update time equal to the creation time reads
   * as no modification); the other fields are stored as given.
   */
  function NewRepository(id: string, owner: Owner, details: RepositoryDetails, browserUrl: Url,
                         createdAt: Instant, updatedAt: Instant): (r: Repository)
    ensures r.base.timestamped.resource.id == id && r.base.browserUrl == browserUrl
    ensures r.base.timestamped.creation == createdAt
    ensures r.base.timestamped.modification == (if updatedAt == createdAt then None else Some(updatedAt))
    ensures r.owner == owner && r.details == details
  {
    Repository(NewTimestampedBrowserAccessible(id, browserUrl, createdAt, Some(updatedAt)), owner, details)
  }

  /** Repository.equals: the base, the owner by ResourceOwner.equals, every other field exactly. */
  predicate RepositoryEquals(a: Repository, b: Repository) {
    TimestampedBrowserAccessibleEquals(a.base, b.base) && OwnerEquals(a.owner, b.owner) && a.details == b.details
  }

  type RepositoryKey = (TimestampedBrowserAccessibleKey, OwnerKey, RepositoryDetails)

  function RepositoryHashKey(a: Repository): RepositoryKey {
    (TimestampedBrowserAccessibleHashKey(a.base), OwnerHashKey(a.owner), a.details)
  }

  lemma RepositoryHashConsistent(a: Repository, b: Repository)
    ensures RepositoryEquals(a, b) <==> RepositoryHashKey(a) == RepositoryHashKey(b)
  {
    OwnerHashConsistent(a.owner, b.owner);
  }

  /** Reference: a branch of a repository, as the head or base of a pull request. */
  datatype Reference = Reference(displayLabel: string, reference: string, user: Owner, repository: Repository)

  /** Reference.equals: label, ref name, user and repository. */
  predicate ReferenceEquals(a: Reference, b: Reference) {
    a.displayLabel == b.displayLabel && a.reference == b.reference && OwnerEquals(a.user, b.user)
    && RepositoryEquals(a.repository, b.repository)
  }

  type ReferenceKey = (string, string, OwnerKey, RepositoryKey)

  function ReferenceHashKey(a: Reference): ReferenceKey {
    (a.displayLabel, a.reference, OwnerHashKey(a.user), RepositoryHashKey(a.repository))
  }

  lemma ReferenceHashConsistent(a: Reference, b: Reference)
    ensures ReferenceEquals(a, b) <==> ReferenceHashKey(a) == ReferenceHashKey(b)
  {
    OwnerHashConsistent(a.user, b.user);
    RepositoryHashConsistent(a.repository, b.repository);
  }

  /** Release: a tagged release; its browser URL goes to the browser-accessible base. */
  datatype Release = Release(
    base: BrowserAccessible,
    tagName: string,
    name: Option<string>,
    body: Option<string>,
    draft: bool,
    prerelease: bool,
    author: Owner,
    tarballUrl: Url,
    zipballUrl: Url,
    creation: Instant,
    publishing: Option<Instant>)

  /** Release.equals: the base, then every field, the author by ResourceOwner.equals. */
  predicate ReleaseEquals(a: Release, b: Release) {
    BrowserAccessibleEquals(a.base, b.base) && a.draft == b.draft && a.prerelease == b.prerelease
    && a.tagName == b.tagName && a.name == b.name && a.body == b.body && OwnerEquals(a.author, b.author)
    && a.tarballUrl == b.tarballUrl && a.zipballUrl == b.zipballUrl && a.creation == b.creation
    && a.publishing == b.publishing
  }

  /** Deployment: a timestamped deployment to an environment. */
  datatype Deployment = Deployment(base: Timestamped, environment: string, description: Option<string>, creator: Owner)

  /** The Deployment constructor: the update time collapses into the timestamped base. */
  function NewDeployment(id: string, environment: string, description: Option<string>, creator: Owner,
                         createdAt: Instant, updatedAt: Instant): (r: Deployment)
    ensures r.base.resource.id == id && r.base.creation == createdAt
    ensures r.base.modification == (if updatedAt == createdAt then None else Some(updatedAt))
    ensures r.environment == environment && r.description == description && r.creator == creator
  {
    Deployment(NewTimestamped(id, createdAt, Some(updatedAt)), environment, description, creator)
  }

  predicate DeploymentEquals(a: Deployment, b: Deployment) {
    TimestampedEquals(a.base, b.base) && a.environment == b.environment && a.description == b.description
    && OwnerEquals(a.creator, b.creator)
  }

  /** DeploymentStatus.State. */
  datatype DeploymentState = StateError | StateFailure | StateInactive | StatePending | StateSuccess

  datatype DeploymentStatus = DeploymentStatus(base: Timestamped, state: DeploymentState, description: Option<string>, targetUrl: Option<Url>)

  /** The DeploymentStatus constructor: the update time collapses into the timestamped base. */
  function NewDeploymentStatus(id: string, state: DeploymentState, description: Option<string>, targetUrl: Option<Url>,
                               createdAt: Instant, updatedAt: Instant): (r: DeploymentStatus)
    ensures r.base.resource.id == id && r.base.creation == createdAt
    ensures r.base.modification == (if updatedAt == createdAt then None else Some(updatedAt))
    ensures r.state == state && r.description == description && r.targetUrl == targetUrl
  {
    DeploymentStatus(NewTimestamped(id, createdAt, Some(updatedAt)), state, description, targetUrl)
  }

  predicate DeploymentStatusEquals(a: DeploymentStatus, b: DeploymentStatus) {
    TimestampedEquals(a.base, b.base) && a.state == b.state && a.description == b.description && a.targetUrl == b.targetUrl
  }

  /** Membership.Role. */
  datatype MembershipRole = Member | Maintainer

  /** Membership: a user's role in an organization. */
  datatype Membership = Membership(role: MembershipRole, user: Owner)

  predicate MembershipEquals(a: Membership, b: Membership) {
    a.role == b.role && OwnerEquals(a.user, b.user)
  }

  /** Review.State. */
  datatype ReviewState = Pending | ChangesRequested | Approved | Dismissed

  /** Review: a pull request review. */
  datatype Review = Review(base: BrowserAccessible, body: string, submission: Instant, state: ReviewState)

  predicate ReviewEquals(a: Review, b: Review) {
    BrowserAccessibleEquals(a.base, b.base) && a.body == b.body && a.submission == b.submission && a.state == b.state
  }
}

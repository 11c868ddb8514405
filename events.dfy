/**
 * The webhook events, layered as their classes are. Every event has a
 * sender (AbstractUserTriggeredEvent); an organization event adds an
 * organization (AbstractOrganizationEvent), every other event a repository
 * (AbstractRepositoryEvent), and the reference events a ref name and type
 * on top (AbstractReferenceEvent). What each concrete class adds is one
 * constructor of RepositoryEventKind or OrganizationEventKind.
 *
 * Each equals method is one branch of EventEquals, chosen by the class of
 * the left operand. Classes that do not override equals inherit their
 * parent's, which accepts any event of the parent's kind; those
 * comparisons are therefore not symmetric.
 */
module Events {
  import opened Wrappers
  import opened Values
  import opened Owners
  import opened Commits
  import opened Labels
  import opened Carriers
  import opened Comments
  import opened Invitations
  import opened Teams
  import opened Milestones
  import opened Issues
  import opened PageBuilds

  datatype CommitCommentAction = CommitCommentCreated
  datatype IssueCommentAction = IssueCommentCreated | IssueCommentEdited | IssueCommentDeleted
  datatype IssuesAction =
    | IssueAssigned | IssueUnassigned | IssueLabeled | IssueUnlabeled | IssueOpened
    | IssueEdited | IssueMilestoned | IssueDemilestoned | IssueClosed | IssueReopened
  datatype LabelAction = LabelCreated | LabelEdited | LabelDeleted
  datatype MemberAction = MemberAdded | MemberDeleted | MemberEdited
  datatype MembershipAction = MembershipAdded | MembershipRemoved
  datatype MilestoneAction = MilestoneCreated | MilestoneClosed | MilestoneOpened | MilestoneEdited | MilestoneDeleted
  datatype OrganizationAction = OrganizationMemberAdded | OrganizationMemberRemoved | OrganizationMemberInvited
  datatype OrganizationBlockAction = Blocked | Unblocked
  datatype ReviewCommentAction = ReviewCommentCreated | ReviewCommentEdited | ReviewCommentDeleted
  datatype ReviewAction = ReviewSubmitted | ReviewEdited | ReviewDismissed
  datatype PullRequestAction =
    | PullRequestAssigned | PullRequestUnassigned | PullRequestReviewRequested | PullRequestReviewRequestRemoved
    | PullRequestLabeled | PullRequestUnlabeled | PullRequestOpened | PullRequestEdited | PullRequestClosed
    | PullRequestReopened
  datatype TeamAction = TeamCreated | TeamDeleted | TeamEdited | TeamAddedToRepository | TeamRemovedFromRepository
  datatype WatchAction = WatchStarted

  /** AbstractReferenceEvent.ReferenceType. */
  datatype ReferenceType = RepositoryReference | BranchReference | TagReference

  /** What a concrete repository event class adds to AbstractRepositoryEvent. */
  datatype RepositoryEventKind =
    | CommitCommentEvent(commitCommentAction: CommitCommentAction, commitComment: CommitComment)
    | CreateEvent(reference: string, referenceType: ReferenceType, defaultBranch: string)
    | DeleteEvent(reference: string, referenceType: ReferenceType)
    | DeploymentEvent(deployment: Deployment)
    | DeploymentStatusEvent(deploymentStatus: DeploymentStatus, deployment: Deployment)
    | ForkEvent(forkee: Repository)
    | GollumEvent
    | IssueCommentEvent(issueCommentAction: IssueCommentAction, issue: Issue, comment: Comment)
    | IssuesEvent(issuesAction: IssuesAction, issue: Issue)
    | LabelEvent(labelAction: LabelAction, issueLabel: Label)
    | MemberEvent(memberAction: MemberAction, member: Owner)
    | MilestoneEvent(milestoneAction: MilestoneAction, milestone: Milestone)
    | PageBuildEvent(build: PageBuild)
    | PublicEvent
    | PullRequestReviewCommentEvent(reviewCommentAction: ReviewCommentAction, reviewComment: ReviewComment,
                                    pullRequest: Issue)
    | PullRequestReviewEvent(reviewAction: ReviewAction, review: Review, pullRequest: Issue)
    | PullRequestEvent(pullRequestAction: PullRequestAction, number: int, pullRequest: Issue)
    | PushEvent(reference: string, previousCommitId: string, targetCommitId: string, compareUrl: Url,
                created: bool, deleted: bool, forced: bool, commits: seq<Commit>, headCommit: Commit)
    | RepositoryEvent
    | ReleaseEvent(release: Release)
    | TeamAddEvent(team: Team)
    | WatchEvent(watchAction: WatchAction)
  {
    /** An AbstractReferenceEvent. */
    predicate IsReferenceEvent() {
      CreateEvent? || DeleteEvent?
    }

    /**
     * The classes that do not override equals and hashCode and so inherit
     * AbstractRepositoryEvent's.
     */
    predicate InheritsRepositoryEquals() {
      GollumEvent? || MemberEvent? || PublicEvent? || PullRequestReviewEvent? || RepositoryEvent?
    }
  }

  /** What a concrete organization event class adds to AbstractOrganizationEvent. */
  datatype OrganizationEventKind =
    | MembershipEvent(membershipAction: MembershipAction, team: Team, member: Owner)
    | OrganizationEvent(organizationAction: OrganizationAction, invitation: Invitation,
                        membership: Option<Membership>)
    | OrganizationBlockEvent(blockAction: OrganizationBlockAction, blockedUser: Owner)
    | TeamEvent(teamAction: TeamAction, team: Team, teamRepository: Option<Repository>)

  datatype Event =
    | RepositoryScoped(sender: Owner, repository: Repository, repositoryEvent: RepositoryEventKind)
    | OrganizationScoped(sender: Owner, organization: Owner, organizationEvent: OrganizationEventKind)
  {
    /**
     * What the JSON binding can produce: users where the constructor asks
     * for a User, organizations where it asks for an Organization, pull
     * requests where it asks for a PullRequest and plain issues where it
     * asks for an Issue; an organization event's invitation went through
     * the Invitation constructor, which demands a login or an email.
     */
    predicate WellTyped() {
      sender.ownerClass == UserClass
      && match this
         case RepositoryScoped(_, _, kind) =>
           (kind.MemberEvent? ==> kind.member.ownerClass == UserClass)
           && ((kind.IssueCommentEvent? || kind.IssuesEvent?) ==> kind.issue.PlainIssue?)
           && ((kind.PullRequestReviewCommentEvent? || kind.PullRequestReviewEvent? || kind.PullRequestEvent?)
               ==> kind.pullRequest.PullRequest?)
         case OrganizationScoped(_, organization, kind) =>
           organization.ownerClass == OrganizationClass
           && (kind.MembershipEvent? ==> kind.member.ownerClass == UserClass)
           && (kind.OrganizationBlockEvent? ==> kind.blockedUser.ownerClass == UserClass)
           && (kind.OrganizationEvent? ==> kind.invitation.Addressed())
    }
  }

  /** The runtime class of an event object. */
  datatype EventClass =
    | CommitCommentEventClass | CreateEventClass | DeleteEventClass | DeploymentEventClass
    | DeploymentStatusEventClass | ForkEventClass | GollumEventClass | IssueCommentEventClass | IssuesEventClass
    | LabelEventClass | MemberEventClass | MembershipEventClass | MilestoneEventClass | OrganizationEventClass
    | OrganizationBlockEventClass | PageBuildEventClass | PublicEventClass | PullRequestReviewCommentEventClass
    | PullRequestReviewEventClass | PullRequestEventClass | PushEventClass | RepositoryEventClass
    | ReleaseEventClass | TeamEventClass | TeamAddEventClass | WatchEventClass

  function RepositoryEventClassOf(kind: RepositoryEventKind): EventClass {
    match kind
    case CommitCommentEvent(_, _) => CommitCommentEventClass
    case CreateEvent(_, _, _) => CreateEventClass
    case DeleteEvent(_, _) => DeleteEventClass
    case DeploymentEvent(_) => DeploymentEventClass
    case DeploymentStatusEvent(_, _) => DeploymentStatusEventClass
    case ForkEvent(_) => ForkEventClass
    case GollumEvent => GollumEventClass
    case IssueCommentEvent(_, _, _) => IssueCommentEventClass
    case IssuesEvent(_, _) => IssuesEventClass
    case LabelEvent(_, _) => LabelEventClass
    case MemberEvent(_, _) => MemberEventClass
    case MilestoneEvent(_, _) => MilestoneEventClass
    case PageBuildEvent(_) => PageBuildEventClass
    case PublicEvent => PublicEventClass
    case PullRequestReviewCommentEvent(_, _, _) => PullRequestReviewCommentEventClass
    case PullRequestReviewEvent(_, _, _) => PullRequestReviewEventClass
    case PullRequestEvent(_, _, _) => PullRequestEventClass
    case PushEvent(_, _, _, _, _, _, _, _, _) => PushEventClass
    case RepositoryEvent => RepositoryEventClass
    case ReleaseEvent(_) => ReleaseEventClass
    case TeamAddEvent(_) => TeamAddEventClass
    case WatchEvent(_) => WatchEventClass
  }

  function OrganizationEventClassOf(kind: OrganizationEventKind): EventClass {
    match kind
    case MembershipEvent(_, _, _) => MembershipEventClass
    case OrganizationEvent(_, _, _) => OrganizationEventClass
    case OrganizationBlockEvent(_, _) => OrganizationBlockEventClass
    case TeamEvent(_, _, _) => TeamEventClass
  }

  /** getClass(). */
  function ClassOf(e: Event): EventClass {
    match e
    case RepositoryScoped(_, _, kind) => RepositoryEventClassOf(kind)
    case OrganizationScoped(_, _, kind) => OrganizationEventClassOf(kind)
  }

  /** The classes under AbstractOrganizationEvent; every other class is under AbstractRepositoryEvent. */
  predicate IsOrganizationEventClass(c: EventClass) {
    c == MembershipEventClass || c == OrganizationEventClass || c == OrganizationBlockEventClass
    || c == TeamEventClass
  }

  /** The class of an event tells which base class it extends. */
  lemma ClassTellsScope(e: Event)
    ensures e.OrganizationScoped? <==> IsOrganizationEventClass(ClassOf(e))
  {
    if e.RepositoryScoped? {
      RepositoryClassesAreNotOrganizationClasses(e.repositoryEvent);
    }
  }

  lemma RepositoryClassesAreNotOrganizationClasses(kind: RepositoryEventKind)
    ensures !IsOrganizationEventClass(RepositoryEventClassOf(kind))
  {
  }

  /** The same event as sent by another user. */
  function WithSender(e: Event, s: Owner): (r: Event)
    ensures r.sender == s && ClassOf(r) == ClassOf(e)
  {
    e.(sender := s)
  }

  /**
   * AbstractUserTriggeredEvent.equals: any user-triggered event with an
   * equal sender, whatever its class. Every concrete class overrides it
   * without calling it.
   */
  predicate UserTriggeredEquals(a: Event, b: Event) {
    OwnerEquals(a.sender, b.sender)
  }

  /** AbstractUserTriggeredEvent.hashCode: the sender alone. */
  function UserTriggeredHashKey(e: Event): OwnerKey {
    OwnerHashKey(e.sender)
  }

  /** At the user-triggered level equal events hash equally, and events of any two classes can be equal. */
  lemma UserTriggeredHashConsistent(a: Event, b: Event)
    ensures UserTriggeredEquals(a, b) <==> UserTriggeredHashKey(a) == UserTriggeredHashKey(b)
    ensures a.sender == b.sender ==> UserTriggeredEquals(a, b)
  {
    OwnerHashConsistent(a.sender, b.sender);
  }

  /**
   * What equals compares below AbstractRepositoryEvent, for a left operand
   * of the kind a: the class test of an overriding equals and its own
   * fields. A DeleteEvent inherits AbstractReferenceEvent.equals and
   * accepts any reference event; the five classes that inherit
   * AbstractRepositoryEvent.equals accept any repository event.
   */
  predicate RepositoryKindEquals(a: RepositoryEventKind, b: RepositoryEventKind) {
    match a
    case CommitCommentEvent(action, comment) =>
      b.CommitCommentEvent? && action == b.commitCommentAction && CommitCommentEquals(comment, b.commitComment)
    case CreateEvent(reference, referenceType, defaultBranch) =>
      b.CreateEvent? && reference == b.reference && referenceType == b.referenceType
      && defaultBranch == b.defaultBranch
    case DeleteEvent(reference, referenceType) =>
      b.IsReferenceEvent() && reference == b.reference && referenceType == b.referenceType
    case DeploymentEvent(deployment) =>
      b.DeploymentEvent? && DeploymentEquals(deployment, b.deployment)
    case DeploymentStatusEvent(status, deployment) =>
      b.DeploymentStatusEvent? && DeploymentStatusEquals(status, b.deploymentStatus)
      && DeploymentEquals(deployment, b.deployment)
    case ForkEvent(forkee) =>
      b.ForkEvent? && RepositoryEquals(forkee, b.forkee)
    case GollumEvent => true
    case IssueCommentEvent(action, issue, comment) =>
      b.IssueCommentEvent? && action == b.issueCommentAction && IssueEquals(issue, b.issue)
      && CommentEquals(comment, b.comment)
    case IssuesEvent(action, issue) =>
      b.IssuesEvent? && action == b.issuesAction && IssueEquals(issue, b.issue)
    case LabelEvent(action, issueLabel) =>
      b.LabelEvent? && action == b.labelAction && LabelEquals(issueLabel, b.issueLabel)
    case MemberEvent(_, _) => true
    case MilestoneEvent(action, milestone) =>
      b.MilestoneEvent? && action == b.milestoneAction && MilestoneEquals(milestone, b.milestone)
    case PageBuildEvent(build) =>
      b.PageBuildEvent? && PageBuildEquals(build, b.build)
    case PublicEvent => true
    case PullRequestReviewCommentEvent(action, comment, pullRequest) =>
      b.PullRequestReviewCommentEvent? && action == b.reviewCommentAction
      && ReviewCommentEquals(comment, b.reviewComment) && IssueEquals(pullRequest, b.pullRequest)
    case PullRequestReviewEvent(_, _, _) => true
    case PullRequestEvent(action, number, pullRequest) =>
      b.PullRequestEvent? && number == b.number && action == b.pullRequestAction
      && IssueEquals(pullRequest, b.pullRequest)
    case PushEvent(reference, previous, target, compare, created, deleted, forced, commits, head) =>
      b.PushEvent? && created == b.created && deleted == b.deleted && forced == b.forced
      && reference == b.reference && previous == b.previousCommitId && target == b.targetCommitId
      && compare == b.compareUrl && CommitListEquals(commits, b.commits) && CommitEquals(head, b.headCommit)
    case RepositoryEvent => true
    case ReleaseEvent(release) =>
      b.ReleaseEvent? && ReleaseEquals(release, b.release)
    case TeamAddEvent(team) =>
      b.TeamAddEvent? && TeamEquals(team, b.team)
    case WatchEvent(action) =>
      b.WatchEvent? && action == b.watchAction
  }

  predicate OptionalRepositoryEquals(a: Option<Repository>, b: Option<Repository>) {
    if a.None? || b.None? then a == b else RepositoryEquals(a.value, b.value)
  }

  /**
   * What equals compares below AbstractOrganizationEvent. OrganizationEvent
   * inherits equals and accepts any organization event.
   */
  predicate OrganizationKindEquals(a: OrganizationEventKind, b: OrganizationEventKind) {
    match a
    case MembershipEvent(_, team, _) =>
      b.MembershipEvent? && TeamEquals(team, b.team)
    case OrganizationEvent(_, _, _) => true
    case OrganizationBlockEvent(action, blockedUser) =>
      b.OrganizationBlockEvent? && action == b.blockAction && OwnerEquals(blockedUser, b.blockedUser)
    case TeamEvent(action, team, repository) =>
      b.TeamEvent? && action == b.teamAction && TeamEquals(team, b.team)
      && OptionalRepositoryEquals(repository, b.teamRepository)
  }

  /**
   * `a.equals(b)`, as the class of a defines it. The repository is compared
   * by AbstractRepositoryEvent.equals, which the reference events do not
   * call, and the organization by AbstractOrganizationEvent.equals; no
   * class calls AbstractUserTriggeredEvent.equals, so the sender is never
   * compared.
   */
  predicate EventEquals(a: Event, b: Event) {
    match a
    case RepositoryScoped(_, repository, kind) =>
      b.RepositoryScoped?
      && (kind.IsReferenceEvent() || RepositoryEquals(repository, b.repository))
      && RepositoryKindEquals(kind, b.repositoryEvent)
    case OrganizationScoped(_, organization, kind) =>
      b.OrganizationScoped? && OwnerEquals(organization, b.organization)
      && OrganizationKindEquals(kind, b.organizationEvent)
  }

  lemma RepositoryKindEqualsReflexive(k: RepositoryEventKind)
    ensures RepositoryKindEquals(k, k)
  {
    match k
    case IssueCommentEvent(_, issue, _) => IssueEqualsReflexive(issue);
    case IssuesEvent(_, issue) => IssueEqualsReflexive(issue);
    case PullRequestReviewCommentEvent(_, _, pullRequest) => IssueEqualsReflexive(pullRequest);
    case PullRequestEvent(_, _, pullRequest) => IssueEqualsReflexive(pullRequest);
    case PushEvent(_, _, _, _, _, _, _, commits, _) => CommitListEqualsIsIdentity(commits, commits);
    case _ =>
  }

  /** Every event compares equal to itself. */
  lemma EventEqualsReflexive(e: Event)
    ensures EventEquals(e, e)
  {
    if e.RepositoryScoped? {
      RepositoryKindEqualsReflexive(e.repositoryEvent);
    }
  }

  /** No event compares its sender: replacing either sender changes no comparison. */
  lemma EventEqualsIgnoresSender(a: Event, b: Event, s: Owner, t: Owner)
    ensures EventEquals(WithSender(a, s), WithSender(b, t)) <==> EventEquals(a, b)
  {
  }

  /**
   * MemberEvent, PublicEvent, PullRequestReviewEvent, GollumEvent and
   * RepositoryEvent do not override equals: they equal every repository
   * event, of any class, whose repository is equal to theirs.
   */
  lemma InheritedEqualityComparesRepositoryOnly(a: Event, b: Event)
    requires a.RepositoryScoped? && a.repositoryEvent.InheritsRepositoryEquals()
    ensures EventEquals(a, b) <==> b.RepositoryScoped? && RepositoryEquals(a.repository, b.repository)
  {
  }

  /** A public event equals a push to its repository, but the push does not equal the public event. */
  lemma InheritedEqualityIsAsymmetric(p: Event, q: Event)
    requires ClassOf(p) == PublicEventClass && ClassOf(q) == PushEventClass && p.repository == q.repository
    ensures EventEquals(p, q)
    ensures !EventEquals(q, p)
  {
    RepositoryHashConsistent(p.repository, q.repository);
  }

  /**
   * A create event compares ref name, ref type and default branch only: two
   * create events in different repositories are equal when those agree.
   */
  lemma CreateEventIgnoresRepository(a: Event, b: Event)
    requires ClassOf(a) == CreateEventClass && ClassOf(b) == CreateEventClass
    ensures EventEquals(a, b) <==>
              a.repositoryEvent.reference == b.repositoryEvent.reference
              && a.repositoryEvent.referenceType == b.repositoryEvent.referenceType
              && a.repositoryEvent.defaultBranch == b.repositoryEvent.defaultBranch
  {
  }

  /** A delete event equals a create event for the same ref, the other way round not. */
  lemma DeleteEqualsCreate(d: Event, c: Event)
    requires ClassOf(d) == DeleteEventClass && ClassOf(c) == CreateEventClass
    requires d.repositoryEvent.reference == c.repositoryEvent.reference
    requires d.repositoryEvent.referenceType == c.repositoryEvent.referenceType
    ensures EventEquals(d, c) && !EventEquals(c, d)
  {
  }

  /** An organization event compares its organization only: action, invitation and membership do not matter. */
  lemma OrganizationEventComparesOrganizationOnly(a: Event, b: Event)
    requires ClassOf(a) == OrganizationEventClass
    ensures EventEquals(a, b) <==> b.OrganizationScoped? && OwnerEquals(a.organization, b.organization)
  {
  }

  /** A membership event compares organization and team; action and member do not matter. */
  lemma MembershipEventComparesTeam(a: Event, b: Event)
    requires ClassOf(a) == MembershipEventClass && ClassOf(b) == MembershipEventClass
    ensures EventEquals(a, b) <==>
              OwnerEquals(a.organization, b.organization) && TeamEquals(a.organizationEvent.team, b.organizationEvent.team)
  {
  }

  /** A team event without a repository equals only team events without one. */
  lemma TeamEventAbsentRepository(a: Event, b: Event)
    requires ClassOf(a) == TeamEventClass && a.organizationEvent.teamRepository.None? && EventEquals(a, b)
    ensures ClassOf(b) == TeamEventClass && b.organizationEvent.teamRepository.None?
  {
  }

  /**
   * Two pushes are equal exactly when they agree on everything but the
   * sender, the repository compared by Repository.equals and the commits,
   * the list in order, exactly.
   */
  lemma PushEventEquality(a: Event, b: Event)
    requires ClassOf(a) == PushEventClass && ClassOf(b) == PushEventClass
    ensures EventEquals(a, b) <==>
              RepositoryEquals(a.repository, b.repository) && a.repositoryEvent == b.repositoryEvent
  {
    var p, q := a.repositoryEvent, b.repositoryEvent;
    CommitListEqualsIsIdentity(p.commits, q.commits);
    CommitEqualsIsIdentity(p.headCommit, q.headCommit);
  }

  /** AbstractRepositoryEvent.hashCode: the repository alone. */
  function RepositoryEventHashKey(e: Event): RepositoryKey
    requires e.RepositoryScoped?
  {
    RepositoryHashKey(e.repository)
  }

  /** AbstractReferenceEvent.hashCode: ref name and type. */
  function ReferenceEventHashKey(e: Event): (string, ReferenceType)
    requires e.RepositoryScoped? && e.repositoryEvent.IsReferenceEvent()
  {
    (e.repositoryEvent.reference, e.repositoryEvent.referenceType)
  }

  /**
   * For the classes that inherit AbstractRepositoryEvent.equals, equal
   * events have equal hash keys, and the other way round among repository
   * events.
   */
  lemma InheritedRepositoryHashConsistent(a: Event, b: Event)
    requires a.RepositoryScoped? && a.repositoryEvent.InheritsRepositoryEquals() && b.RepositoryScoped?
    ensures EventEquals(a, b) <==> RepositoryEventHashKey(a) == RepositoryEventHashKey(b)
  {
    RepositoryHashConsistent(a.repository, b.repository);
  }

  /** The same for DeleteEvent, which inherits AbstractReferenceEvent.equals. */
  lemma InheritedReferenceHashConsistent(a: Event, b: Event)
    requires ClassOf(a) == DeleteEventClass && b.RepositoryScoped? && b.repositoryEvent.IsReferenceEvent()
    ensures EventEquals(a, b) <==> ReferenceEventHashKey(a) == ReferenceEventHashKey(b)
  {
  }

  /**
   * AbstractOrganizationEvent.hashCode (its source is not part of this
   * model): taken to be the organization alone.
   */
  function OrganizationEventHashKey(e: Event): OwnerKey
    requires e.OrganizationScoped?
  {
    OwnerHashKey(e.organization)
  }

  /** MembershipEvent.hashCode: the inherited hash and the team. */
  function MembershipEventHashKey(e: Event): (OwnerKey, TeamKey)
    requires ClassOf(e) == MembershipEventClass
  {
    (OrganizationEventHashKey(e), TeamHashKey(e.organizationEvent.team))
  }

  /** Membership events are equal exactly when their hash keys are. */
  lemma MembershipHashConsistent(a: Event, b: Event)
    requires ClassOf(a) == MembershipEventClass && ClassOf(b) == MembershipEventClass
    ensures EventEquals(a, b) <==> MembershipEventHashKey(a) == MembershipEventHashKey(b)
  {
    OwnerHashConsistent(a.organization, b.organization);
    TeamHashConsistent(a.organizationEvent.team, b.organizationEvent.team);
  }
}

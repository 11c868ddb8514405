/**
 * The envelope of a webhook delivery: PayloadType, the closed table that
 * binds each event tag to one event class and to a decoder for it, and
 * Payload, which pairs a delivery identifier and a tag with an event of
 * exactly the tag's class.
 */
module Payloads {
  import opened Wrappers
  import opened Values
  import Events

  /** PayloadType: the 26 supported tags, in declaration order. */
  datatype PayloadType =
    | CommitComment | Create | Delete | Deployment | DeploymentStatus | Fork | Gollum | IssueComment | Issues
    | Label | Member | Membership | Milestone | Organization | OrgBlock | PageBuild | Public
    | PullRequestReviewComment | PullRequestReview | PullRequest | Push | Repository | Release | Team | TeamAdd
    | Watch

  /** Every tag once, in declaration order (PayloadType.values()). */
  const AllTypes: seq<PayloadType> := [
    CommitComment, Create, Delete, Deployment, DeploymentStatus, Fork, Gollum, IssueComment, Issues, Label,
    Member, Membership, Milestone, Organization, OrgBlock, PageBuild, Public, PullRequestReviewComment,
    PullRequestReview, PullRequest, Push, Repository, Release, Team, TeamAdd, Watch
  ]

  /** PayloadType.getType: the event class each tag is bound to. */
  function EventClassOf(t: PayloadType): Events.EventClass {
    match t
    case CommitComment => Events.CommitCommentEventClass
    case Create => Events.CreateEventClass
    case Delete => Events.DeleteEventClass
    case Deployment => Events.DeploymentEventClass
    case DeploymentStatus => Events.DeploymentStatusEventClass
    case Fork => Events.ForkEventClass
    case Gollum => Events.GollumEventClass
    case IssueComment => Events.IssueCommentEventClass
    case Issues => Events.IssuesEventClass
    case Label => Events.LabelEventClass
    case Member => Events.MemberEventClass
    case Membership => Events.MembershipEventClass
    case Milestone => Events.MilestoneEventClass
    case Organization => Events.OrganizationEventClass
    case OrgBlock => Events.OrganizationBlockEventClass
    case PageBuild => Events.PageBuildEventClass
    case Public => Events.PublicEventClass
    case PullRequestReviewComment => Events.PullRequestReviewCommentEventClass
    case PullRequestReview => Events.PullRequestReviewEventClass
    case PullRequest => Events.PullRequestEventClass
    case Push => Events.PushEventClass
    case Repository => Events.RepositoryEventClass
    case Release => Events.ReleaseEventClass
    case Team => Events.TeamEventClass
    case TeamAdd => Events.TeamAddEventClass
    case Watch => Events.WatchEventClass
  }

  /** The tag of an event class: the table read backwards. */
  function TypeOf(c: Events.EventClass): PayloadType {
    match c
    case CommitCommentEventClass => CommitComment
    case CreateEventClass => Create
    case DeleteEventClass => Delete
    case DeploymentEventClass => Deployment
    case DeploymentStatusEventClass => DeploymentStatus
    case ForkEventClass => Fork
    case GollumEventClass => Gollum
    case IssueCommentEventClass => IssueComment
    case IssuesEventClass => Issues
    case LabelEventClass => Label
    case MemberEventClass => Member
    case MembershipEventClass => Membership
    case MilestoneEventClass => Milestone
    case OrganizationEventClass => Organization
    case OrganizationBlockEventClass => OrgBlock
    case PageBuildEventClass => PageBuild
    case PublicEventClass => Public
    case PullRequestReviewCommentEventClass => PullRequestReviewComment
    case PullRequestReviewEventClass => PullRequestReview
    case PullRequestEventClass => PullRequest
    case PushEventClass => Push
    case RepositoryEventClass => Repository
    case ReleaseEventClass => Release
    case TeamEventClass => Team
    case TeamAddEventClass => TeamAdd
    case WatchEventClass => Watch
  }

  /** The table lists every tag exactly once, and there are 26 of them. */
  lemma AllTypesComplete(t: PayloadType)
    ensures |AllTypes| == 26
    ensures t in AllTypes
    ensures forall i, j :: 0 <= i < j < |AllTypes| ==> AllTypes[i] != AllTypes[j]
  {
  }

  /** Reading the table backwards undoes reading it forwards. */
  lemma TypeOfEventClassOf(t: PayloadType)
    ensures TypeOf(EventClassOf(t)) == t
  {
  }

  /** Every event class has a tag: reading the table forwards undoes reading it backwards. */
  lemma EventClassOfTypeOf(c: Events.EventClass)
    ensures EventClassOf(TypeOf(c)) == c
  {
  }

  /** Distinct tags are bound to distinct event classes. */
  lemma EventClassOfInjective(s: PayloadType, t: PayloadType)
    ensures EventClassOf(s) == EventClassOf(t) <==> s == t
  {
    TypeOfEventClassOf(s);
    TypeOfEventClassOf(t);
  }

  /**
   * The JSON binding of a tag's reader, which is outside this model: given
   * the class the reader was made for and the payload text, an event of
   * exactly that class, null (the reader's result for the JSON text `null`),
   * or an IOException.
   */
  type Decoder = decode: (Events.EventClass, string) -> Result<Option<Events.Event>>
    | forall c, payload :: decode(c, payload).Success? && decode(c, payload).value.Some? ==>
        Events.ClassOf(decode(c, payload).value.value) == c
    witness (c: Events.EventClass, payload: string) => Failure(Io)

  /** PayloadType.read: decode a payload with the reader bound to the tag's class. */
  function Read(t: PayloadType, decode: Decoder, payload: string): (r: Result<Option<Events.Event>>)
    ensures r.Success? && r.value.Some? ==> Events.ClassOf(r.value.value) == EventClassOf(t)
  {
    decode(EventClassOf(t), payload)
  }

  /** Class.getName for the event classes. */
  function ClassName(c: Events.EventClass): string {
    "org.basinmc.stormdrain.event." + match c
      case CommitCommentEventClass => "CommitCommentEvent"
      case CreateEventClass => "CreateEvent"
      case DeleteEventClass => "DeleteEvent"
      case DeploymentEventClass => "DeploymentEvent"
      case DeploymentStatusEventClass => "DeploymentStatusEvent"
      case ForkEventClass => "ForkEvent"
      case GollumEventClass => "GollumEvent"
      case IssueCommentEventClass => "IssueCommentEvent"
      case IssuesEventClass => "IssuesEvent"
      case LabelEventClass => "LabelEvent"
      case MemberEventClass => "MemberEvent"
      case MembershipEventClass => "MembershipEvent"
      case MilestoneEventClass => "MilestoneEvent"
      case OrganizationEventClass => "OrganizationEvent"
      case OrganizationBlockEventClass => "OrganizationBlockEvent"
      case PageBuildEventClass => "PageBuildEvent"
      case PublicEventClass => "PublicEvent"
      case PullRequestReviewCommentEventClass => "PullRequestReviewCommentEvent"
      case PullRequestReviewEventClass => "PullRequestReviewEvent"
      case PullRequestEventClass => "PullRequestEvent"
      case PushEventClass => "PushEvent"
      case RepositoryEventClass => "RepositoryEvent"
      case ReleaseEventClass => "ReleaseEvent"
      case TeamEventClass => "TeamEvent"
      case TeamAddEventClass => "TeamAddEvent"
      case WatchEventClass => "WatchEvent"
  }

  datatype Payload = Payload(deliveryId: Uuid, payloadType: PayloadType, event: Events.Event)

  /**
   * The Payload constructor: the event's runtime class must be exactly the
   * class the tag is bound to. A null event fails when its class is asked
   * for (the non-null annotations are not checked at run time).
   */
  function NewPayload(deliveryId: Uuid, t: PayloadType, event: Option<Events.Event>): (r: Result<Payload>)
    ensures r.Success? <==> event.Some? && Events.ClassOf(event.value) == EventClassOf(t)
    ensures r.Success? ==> r.value.deliveryId == deliveryId && r.value.payloadType == t && Some(r.value.event) == event
    ensures event.None? ==> r == Failure(NullPointer)
    ensures event.Some? && r.Failure? ==> r.error.IllegalArgument?
  {
    match event
    case None => Failure(NullPointer)
    case Some(e) =>
      if EventClassOf(t) != Events.ClassOf(e) then
        Failure(IllegalArgument("Illegal event type: Expected " + ClassName(EventClassOf(t)) + " but got "
                                + ClassName(Events.ClassOf(e))))
      else
        Success(Payload(deliveryId, t, e))
  }

  /** Exactly one tag accepts a given event: the tag of its class. */
  lemma OneTagPerEvent(deliveryId: Uuid, t: PayloadType, event: Events.Event)
    ensures NewPayload(deliveryId, t, Some(event)).Success? <==> t == TypeOf(Events.ClassOf(event))
  {
    TypeOfEventClassOf(t);
    EventClassOfTypeOf(Events.ClassOf(event));
  }

  /**
   * Decoding with a tag and wrapping the result with the same tag fails only
   * when the payload decoded to null, and then with a NullPointerException.
   */
  lemma ReadThenWrap(deliveryId: Uuid, t: PayloadType, decode: Decoder, payload: string)
    requires Read(t, decode, payload).Success?
    ensures Read(t, decode, payload).value.Some? ==>
      NewPayload(deliveryId, t, Read(t, decode, payload).value)
        == Success(Payload(deliveryId, t, decode(EventClassOf(t), payload).value.value))
    ensures Read(t, decode, payload).value.None? ==>
      NewPayload(deliveryId, t, Read(t, decode, payload).value) == Failure(NullPointer)
  {
  }

  /** Payload.equals: delivery identifier, tag and the event's own equals. */
  predicate PayloadEquals(a: Payload, b: Payload) {
    a.deliveryId == b.deliveryId && a.payloadType == b.payloadType && Events.EventEquals(a.event, b.event)
  }

  /** Every payload equals itself, as the identity test at the head of equals also says. */
  lemma PayloadEqualsReflexive(p: Payload)
    ensures PayloadEquals(p, p)
  {
    Events.EventEqualsReflexive(p.event);
  }

  /** Two payloads of one delivery with equal events are equal only under the same tag. */
  lemma PayloadEqualsComparesTag(a: Payload, b: Payload)
    requires a.deliveryId == b.deliveryId && a.event == b.event
    ensures PayloadEquals(a, b) <==> a.payloadType == b.payloadType
  {
    Events.EventEqualsReflexive(a.event);
  }
}

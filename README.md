# Stormdrain webhook payloads in Dafny

Stormdrain turns GitHub webhook deliveries into immutable Java value
objects: resources (owners, commits, issues, pull requests, labels,
milestones, teams, invitations, page builds, …), events (one class per
webhook event, layered over `AbstractUserTriggeredEvent`,
`AbstractRepositoryEvent`, `AbstractOrganizationEvent` and
`AbstractReferenceEvent`) and the envelope (`PayloadType`, the closed table
of 26 tags, and `Payload`, which checks that an event has exactly its tag's
class).

This project models that layer as Dafny values:

- every resource and event is a `datatype`;
- every constructor that computes or checks something is a function. Those
  that throw return a `Result` whose `Failure` names the Java exception;
- every `equals` is an explicit predicate, so the rules of the class
  hierarchy can be stated (`Team` ignores its id, `ResourceOwner` ignores
  `siteAdmin`, `PullRequest` ignores its diff and patch URLs, the
  repository events never compare the sender, `Issue`/`PullRequest` and
  inherited event equality are asymmetric);
- every `hashCode` is a "hash key", the tuple of values the method feeds to
  `Objects.hash`. A lemma shows that equality and equal keys agree.

Files, one module each:

| file | models |
|---|---|
| wrappers.dfy | null as `Option`, thrown exceptions as `Result` |
| values.dfy | `int`, `Instant`, `Duration`, `URL`, `UUID`, `OffsetDateTime` |
| value_utility.dfy | `ValueUtility.toOptionalString` with `String.trim`; the modification-timestamp collapse |
| resource_bases.dfy | `AbstractResource`, `AbstractTimestampedResource`, `AbstractTimestampedBrowserAccessibleResource` |
| owners.dfy | `ResourceOwner`, `User`, `Organization` |
| commits.dfy | `Commit`, `Commit.Author` |
| unsigned_hex.dfy | `Long.parseUnsignedLong(s, 16)` and `Long.toHexString` |
| labels.dfy | `Issue.Label`: hex colour parse, 32-bit truncation, `getColorHex` |
| carriers.dfy | `Repository`, `Reference`, `Release`, `Deployment`, `DeploymentStatus`, `Membership`, `Review` |
| comments.dfy | `Comment`, `CommitComment` and its `Location`, `ReviewComment` |
| invitations.dfy | `Invitation` |
| teams.dfy | `Team` |
| issue_states.dfy | `Issue.State` |
| milestones.dfy | `Milestone` |
| issues.dfy | `Issue`, `PullRequest` |
| page_builds.dfy | `PageBuild` |
| events.dfy | all 26 event classes and their base classes |
| payload.dfy | `PayloadType`, `Payload` |

The public `ResourceOwner` constructor builds the browser URL as
`"https://github.com" + login`, with no `/` between the two, while the
repository's own tests of `Organization` and `ResourceOwner` expect
`https://github.com/<login>`. The constructors model the code as written;
the intended URL and how it differs are under "## Findings".

The sources of `AbstractOrganizationEvent`, `AbstractBrowserAccessibleResource`,
`DeleteEvent`, `GollumEvent` and `RepositoryEvent` are not part of this
model, and neither is the body of `ValueUtility.toOptionalModificationTimestamp`,
which `AbstractTimestampedResource` calls. What the model assumes about them
is stated where each is declared:

- the modification timestamp reads as absent when it is null or equal to the creation timestamp, and is kept otherwise;
- an organization event compares and hashes its organization only;
- a browser-accessible resource compares its id and URL;
- the three event classes define no `equals` of their own.

## Model

| member | source | states |
|---|---|---|
| ValueUtility.ToOptionalString | src/main/java/org/basinmc/stormdrain/utility/ValueUtility.java:39-45 | absent exactly when the input is null or every character is at most U+0020 (what `trim().isEmpty()` tests); any other string is returned unchanged, not trimmed |
| ValueUtility.TrimIsEmptyIffBlank | src/main/java/org/basinmc/stormdrain/utility/ValueUtility.java:40 | `trim()` yields the empty string if and only if every character is at most U+0020 |
| ValueUtility.TrimLeading | src/main/java/org/basinmc/stormdrain/utility/ValueUtility.java:40 | the result is a suffix of the input, all removed characters are at most U+0020, and the first remaining one is not |
| ValueUtility.TrimTrailing | src/main/java/org/basinmc/stormdrain/utility/ValueUtility.java:40 | the result is a prefix of the input, all removed characters are at most U+0020, and the last remaining one is not |
| ValueUtility.ToOptionalStringIdempotent | src/main/java/org/basinmc/stormdrain/utility/ValueUtility.java:39-45 | normalising twice gives what normalising once gave |
| ValueUtility.ToOptionalModificationTimestamp | src/main/java/org/basinmc/stormdrain/resource/AbstractTimestampedResource.java:44-45 | absent if and only if the modification is missing or equals the creation; otherwise the modification itself; never equal to the creation |
| ResourceBases.ResourceEqualsIsEquivalence | src/main/java/org/basinmc/stormdrain/resource/AbstractResource.java:48-65 | resource equality is reflexive, symmetric and transitive, and holds exactly when the hash keys (the id) agree |
| ResourceBases.NewTimestamped | src/main/java/org/basinmc/stormdrain/resource/AbstractTimestampedResource.java:38-64 | id and creation are kept; the stored modification is absent if and only if it was missing or equal to the creation, otherwise it is the argument; it never equals the creation |
| ResourceBases.TimestampedHashConsistent | src/main/java/org/basinmc/stormdrain/resource/AbstractTimestampedResource.java:70-91 | equality (id, creation, collapsed modification) holds exactly when the hash keys agree |
| ResourceBases.EchoedModificationIsNoModification | src/main/java/org/basinmc/stormdrain/resource/AbstractTimestampedResource.java:38-83 | a modification equal to the creation and a missing one build the same resource, with no modification |
| ResourceBases.NewTimestampedBrowserAccessible | src/main/java/org/basinmc/drain/resource/AbstractTimestampedBrowserAccessibleResource.java:36-52 | id and timestamps go to the timestamped base, so the collapse applies; the URL is stored as given |
| ResourceBases.TimestampedBrowserAccessibleHashConsistent | src/main/java/org/basinmc/drain/resource/AbstractTimestampedBrowserAccessibleResource.java:58-78 | equality (timestamped base and URL) holds exactly when the hash keys agree |
| Owners.OwnerFromLogin | src/main/java/org/basinmc/stormdrain/resource/ResourceOwner.java:41-52 | the browser URL is exactly `https://github.com` followed by the login; the gravatar id is absent if and only if it was null or blank, otherwise kept; every other argument is stored as given |
| Owners.NewResourceOwner | src/main/java/org/basinmc/stormdrain/resource/ResourceOwner.java:41-68 | the public constructor: URL derived from the login, gravatar id normalised, other fields as given |
| Owners.NewOrganization | src/main/java/org/basinmc/drain/resource/Organization.java:32-39 | type ORGANIZATION, siteAdmin false, URL derived from the login, gravatar id normalised |
| Owners.NewUser | src/main/java/org/basinmc/stormdrain/resource/User.java:31-39 | type USER, the given HTML URL, and the gravatar id stored exactly as given |
| Owners.OwnerHashConsistent | src/main/java/org/basinmc/stormdrain/resource/ResourceOwner.java:124-147 | owner equality holds exactly when the hash keys (base, login, type, gravatar id, avatar URL) agree |
| Owners.OwnerEqualsIgnoresClassAndSiteAdmin | src/main/java/org/basinmc/stormdrain/resource/ResourceOwner.java:124-139 | two owners are equal if and only if they agree on everything except siteAdmin and runtime class |
| Owners.OrganizationUrlHasNoSeparator | src/main/java/org/basinmc/stormdrain/resource/ResourceOwner.java:50 | the organization `baxterandthehackers` gets the URL `https://github.combaxterandthehackers` |
| Owners.ProfileUrl | src/test/java/org/basinmc/stormdrain/resource/OrganizationResourceTest.java:40-41 | the host, then `/`, then exactly the login |
| Owners.IntendedOwnerFromLogin | src/main/java/org/basinmc/stormdrain/resource/ResourceOwner.java:41-52 | the public constructor with the profile URL as browser URL; every other field as the code stores it |
| Owners.IntendedOrganizationUrl | src/test/java/org/basinmc/stormdrain/resource/OrganizationResourceTest.java:40-41 | the intended constructor gives `https://github.com/baxterandthehackers`, the URL the test expects |
| Owners.BuiltUrlIsProfileUrlIffSlashed | src/main/java/org/basinmc/stormdrain/resource/ResourceOwner.java:50 | the URL the code builds for a login is the profile URL of some other login exactly when the first login is `/` followed by the other; for every real login the two differ |
| Owners.BlankGravatarOnlyDroppedByPublicConstructor | src/main/java/org/basinmc/stormdrain/resource/ResourceOwner.java:50-66 | a blank gravatar id is dropped by the public path (Organization) but kept by the protected one (User) |
| Commits.NewAuthor | src/main/java/org/basinmc/stormdrain/resource/Commit.java:207-214 | name and email kept; login absent if and only if null or blank, otherwise kept |
| Commits.AuthorEqualsIsIdentity | src/main/java/org/basinmc/stormdrain/resource/Commit.java:251-262 | author equality is equality of name, email and normalised login |
| Commits.BlankLoginsBuildEqualAuthors | src/main/java/org/basinmc/stormdrain/resource/Commit.java:213 | null, empty and blank logins build the same author |
| Commits.NewCommit | src/main/java/org/basinmc/stormdrain/resource/Commit.java:50-72 | the committer is absent if and only if it equals the author, otherwise kept; every other field is stored as given |
| Commits.CommitterRecovered | src/main/java/org/basinmc/stormdrain/resource/Commit.java:67 | the committer passed in can be recovered: the stored one, or the author when none is stored |
| Commits.CommitEqualsIsIdentity | src/main/java/org/basinmc/stormdrain/resource/Commit.java:163-183 | commit equality compares every field |
| Commits.CommitListEqualsIsIdentity | src/main/java/org/basinmc/stormdrain/event/PushEvent.java:175 | the list comparison of commits is element-by-element equality, in order |
| UnsignedHex.ParseUnsignedHex | src/main/java/org/basinmc/stormdrain/resource/Issue.java:257 | a success is below 2^64 and its text (after an optional '+') is one or more hex digits; every failure is NumberFormatException; a leading '-' fails |
| UnsignedHex.ToHexString | src/main/java/org/basinmc/stormdrain/resource/Issue.java:271 | the text is lower-case hex with no leading zeros (or "0") and denotes the number |
| UnsignedHex.ParsePrinted | src/main/java/org/basinmc/stormdrain/resource/Issue.java:257-271 | parsing the printed form of any number below 2^64 gives the number back |
| UnsignedHex.ParseDigits | src/main/java/org/basinmc/stormdrain/resource/Issue.java:257 | text that is an optional `+` and then hex digits worth less than 2^64 parses to the number those digits denote |
| UnsignedHex.LeadingZeroValue | src/main/java/org/basinmc/stormdrain/resource/Issue.java:257 | a leading `0` digit does not change the number a digit string denotes |
| UnsignedHex.ParseLeadingZero | src/main/java/org/basinmc/stormdrain/resource/Issue.java:257 | prefixing `0` to text that does not start with `+` does not change the parse, success or failure |
| UnsignedHex.PrintParsed | src/main/java/org/basinmc/stormdrain/resource/Issue.java:257-271 | printing the value of canonical hex text gives the text back |
| UnsignedHex.LowerDigitsSameValue | src/main/java/org/basinmc/stormdrain/resource/Issue.java:257 | replacing upper-case hex letters by lower-case ones keeps a digit string all hex digits and keeps its value |
| UnsignedHex.ParseIgnoresCase | src/main/java/org/basinmc/stormdrain/resource/Issue.java:257 | upper- and lower-case digits parse alike |
| Labels.LowInt32 | src/main/java/org/basinmc/stormdrain/resource/Issue.java:257 | the `(int)` cast of the low 32 bits: a Java int congruent to the value modulo 2^32 |
| Labels.Unsigned32 | src/main/java/org/basinmc/stormdrain/resource/Issue.java:271 | `color & 0xFFFFFFFFL`: the number in [0, 2^32) congruent to the colour |
| Labels.LowInt32OfUnsigned32 | src/main/java/org/basinmc/stormdrain/resource/Issue.java:257-271 | truncating the unsigned view of a colour gives the colour back |
| Labels.Unsigned32OfLowInt32 | src/main/java/org/basinmc/stormdrain/resource/Issue.java:257-271 | the unsigned view of a truncated 32-bit value is the value |
| Labels.LabelFromHex | src/main/java/org/basinmc/stormdrain/resource/Issue.java:254-258 | fails with NumberFormatException exactly when the parse fails; otherwise keeps the name and the parsed value modulo 2^32 |
| Labels.ColorHex | src/main/java/org/basinmc/stormdrain/resource/Issue.java:270-272 | canonical lower-case hex of at most 8 digits denoting the unsigned colour |
| Labels.ColorRoundTrip | src/main/java/org/basinmc/stormdrain/resource/Issue.java:257-271 | parsing a label's `getColorHex` gives the same label |
| Labels.HexRoundTrip | src/main/java/org/basinmc/stormdrain/resource/Issue.java:257-271 | canonical hex below 2^32 parses, and prints back to the same text |
| Labels.ColorCaseIgnored | src/main/java/org/basinmc/stormdrain/resource/Issue.java:257 | the case of the colour digits does not change the label |
| Labels.LeadingZeroIgnored | src/main/java/org/basinmc/stormdrain/resource/Issue.java:257 | a leading zero in the colour text does not change the label |
| Labels.PaddedColors | src/main/java/org/basinmc/stormdrain/resource/Issue.java:254-258 | `0e8a16` gives colour 0xe8a16 and `006b75` gives 0x6b75 |
| Labels.LabelEqualsIsIdentity | src/main/java/org/basinmc/stormdrain/resource/Issue.java:278-288 | label equality is equality of name and integer colour |
| Labels.HighBitsTruncated | src/main/java/org/basinmc/stormdrain/resource/Issue.java:257 | `ffffffff` decodes to the int colour -1 |
| Carriers.NewRepository | src/main/java/org/basinmc/stormdrain/resource/Repository.java:63-117 | id, URL and creation kept; an update time equal to the creation reads as no modification; owner and details as given |
| Carriers.RepositoryHashConsistent | src/main/java/org/basinmc/stormdrain/resource/Repository.java:357-410 | repository equality holds exactly when the hash keys agree |
| Carriers.ReferenceHashConsistent | src/main/java/org/basinmc/stormdrain/resource/Reference.java:92-112 | reference equality holds exactly when the hash keys agree |
| Carriers.NewDeployment | src/main/java/org/basinmc/stormdrain/resource/Deployment.java:39-50 | timestamps collapse through the base; the other fields are stored as given |
| Carriers.NewDeploymentStatus | src/main/java/org/basinmc/stormdrain/resource/DeploymentStatus.java:40-51 | timestamps collapse through the base; the other fields are stored as given |
| Comments.NewComment | src/main/java/org/basinmc/drain/resource/Comment.java:37-47 | id, URL and creation kept; an update time equal to the creation reads as no modification; body and user as given |
| Comments.LocationEqualsIsIdentity | src/main/java/org/basinmc/stormdrain/resource/CommitComment.java:132-142 | location equality is equality of path and line |
| Comments.NewCommitComment | src/main/java/org/basinmc/stormdrain/resource/CommitComment.java:37-56 | IllegalArgumentException if and only if exactly one of path and line is given; otherwise a location exactly when both are, holding that path and line |
| Comments.CommitCommentIgnoresSiteAdmin | src/main/java/org/basinmc/stormdrain/resource/CommitComment.java:83-96 | a commit comment equals the same comment whose author's siteAdmin flag differs |
| Invitations.NewInvitation | src/main/java/org/basinmc/stormdrain/resource/Invitation.java:38-52 | IllegalArgumentException if and only if both login and email are null; otherwise every field is stored as given and the invitee is addressed |
| Invitations.InvitationEqualsIsIdentity | src/main/java/org/basinmc/stormdrain/resource/Invitation.java:88-102 | invitation equality compares id, login, email and role |
| Invitations.EmptyLoginAccepted | src/main/java/org/basinmc/stormdrain/resource/Invitation.java:45-50 | only null is checked: an empty login with no email is accepted and kept |
| Teams.TeamHashConsistent | src/main/java/org/basinmc/stormdrain/resource/Team.java:81-100 | team equality holds exactly when the hash keys (name, slug, permission) agree |
| Teams.TeamEqualsIgnoresId | src/main/java/org/basinmc/stormdrain/resource/Team.java:81-92 | two teams are equal if and only if they agree on everything but the id |
| Teams.TeamEqualsIsNotResourceEquals | src/main/java/org/basinmc/stormdrain/resource/Team.java:81-92 | two teams with different ids are equal teams but unequal resources |
| Milestones.NewMilestone | src/main/java/org/basinmc/stormdrain/resource/Milestone.java:49-73 | description absent if and only if null or blank, otherwise kept verbatim; timestamps collapse through the base; every other field stored as given |
| Milestones.MilestoneHashConsistent | src/main/java/org/basinmc/stormdrain/resource/Milestone.java:176-208 | milestone equality holds exactly when the hash keys agree |
| Milestones.BlankDescriptionsBuildEqualMilestones | src/main/java/org/basinmc/stormdrain/resource/Milestone.java:67 | a null and a blank description build the same milestone |
| Issues.NewIssueFields | src/main/java/org/basinmc/stormdrain/resource/Issue.java:53-81 | timestamps collapse through the base; every other field, labels included, is stored as given |
| Issues.NewIssue | src/main/java/org/basinmc/stormdrain/resource/Issue.java:53-81 | a plain issue carrying those fields |
| Issues.NewPullRequest | src/main/java/org/basinmc/stormdrain/resource/PullRequest.java:44-74 | the issue fields go to the Issue constructor unchanged; merge commit, head, base, diff and patch URLs and merge time are stored as given |
| Issues.GetLabels | src/main/java/org/basinmc/stormdrain/resource/Issue.java:178-180 | NullPointerException if and only if no label set was given; otherwise that set |
| Issues.IssueEqualsReflexive | src/main/java/org/basinmc/stormdrain/resource/Issue.java:197-219 | every issue and pull request equals itself |
| Issues.IssueEqualsIsAsymmetric | src/main/java/org/basinmc/stormdrain/resource/PullRequest.java:140-155 | an issue equals a pull request with the same issue fields, but the pull request does not equal the issue |
| Issues.PullRequestIgnoresDiffAndPatchUrls | src/main/java/org/basinmc/stormdrain/resource/PullRequest.java:140-155 | changing the diff and patch URLs leaves a pull request equal |
| Issues.IssueFieldsHashConsistent | src/main/java/org/basinmc/stormdrain/resource/Issue.java:197-230 | issue equality holds exactly when the hash keys agree |
| Issues.IssueHashConsistentWithinClass | src/main/java/org/basinmc/stormdrain/resource/PullRequest.java:140-163 | between two issues or two pull requests, equality holds exactly when the hash keys agree |
| Issues.IssueEqualsPullRequestWithOtherHash | src/main/java/org/basinmc/stormdrain/resource/PullRequest.java:140-163 | across the two classes the contract breaks: an issue equals a pull request whose hash key differs |
| PageBuilds.NewPageBuild | src/main/java/org/basinmc/drain/resource/PageBuild.java:45-60 | the public constructor stores every argument as given, a null status included |
| PageBuilds.PageBuildFromJson | src/main/java/org/basinmc/drain/resource/PageBuild.java:62-78 | a missing status becomes NONE; the error message is the error map's `message` entry if there is one; the modification is not collapsed |
| PageBuilds.PageBuildHashConsistent | src/main/java/org/basinmc/drain/resource/PageBuild.java:154-178 | page-build equality (all seven fields, the pusher by owner equality) holds exactly when the hash keys agree |
| PageBuilds.PageBuildEqualsIgnoresPusherSiteAdmin | src/main/java/org/basinmc/drain/resource/PageBuild.java:166 | a page build equals the same build whose pusher has the opposite siteAdmin flag |
| PageBuilds.ModificationNotCollapsed | src/main/java/org/basinmc/drain/resource/PageBuild.java:77 | a modification equal to the creation is kept, and such a build differs from one with no modification |
| PageBuilds.ErrorWithoutMessage | src/main/java/org/basinmc/drain/resource/PageBuild.java:72 | an error map without a message, or with a null one, gives no message; with one, that message |
| Events.ClassTellsScope | src/main/java/org/basinmc/stormdrain/event/AbstractRepositoryEvent.java:29 | an event extends AbstractOrganizationEvent exactly when its class is one of the four organization event classes |
| Events.UserTriggeredHashConsistent | src/main/java/org/basinmc/stormdrain/event/AbstractUserTriggeredEvent.java:45-62 | base equality (sender only) holds exactly when the hash keys agree, and events of any two classes with the same sender are equal at this level |
| Events.EventEqualsReflexive | src/main/java/org/basinmc/stormdrain/event/AbstractRepositoryEvent.java:47-56 | every event equals itself |
| Events.EventEqualsIgnoresSender | src/main/java/org/basinmc/stormdrain/event/AbstractRepositoryEvent.java:47-56 | no event class compares the sender: replacing either sender changes no comparison |
| Events.InheritedEqualityComparesRepositoryOnly | src/main/java/org/basinmc/stormdrain/event/AbstractRepositoryEvent.java:47-56 | a Member, Public, PullRequestReview, Gollum or Repository event equals exactly the repository events, of any class, with an equal repository |
| Events.InheritedEqualityIsAsymmetric | src/main/java/org/basinmc/stormdrain/event/PushEvent.java:157-177 | a public event equals a push to the same repository, but the push does not equal it |
| Events.CreateEventIgnoresRepository | src/main/java/org/basinmc/stormdrain/event/CreateEvent.java:61-73 | two create events are equal exactly when ref name, ref type and default branch agree, whatever their repositories |
| Events.DeleteEqualsCreate | src/main/java/org/basinmc/drain/event/AbstractReferenceEvent.java:65-75 | a delete event equals a create event for the same ref, but not the other way round |
| Events.OrganizationEventComparesOrganizationOnly | src/main/java/org/basinmc/stormdrain/event/OrganizationEvent.java:35-93 | an organization event equals exactly the organization events with an equal organization; action, invitation and membership do not matter |
| Events.MembershipEventComparesTeam | src/main/java/org/basinmc/stormdrain/event/MembershipEvent.java:86-98 | two membership events are equal exactly when organization and team are; action and member do not matter |
| Events.TeamEventAbsentRepository | src/main/java/org/basinmc/stormdrain/event/TeamEvent.java:90-104 | a team event without a repository equals only team events without one |
| Events.PushEventEquality | src/main/java/org/basinmc/stormdrain/event/PushEvent.java:157-177 | two pushes are equal exactly when their repositories are equal and every push field (commits in order, head commit) is the same; the sender does not matter |
| Events.InheritedRepositoryHashConsistent | src/main/java/org/basinmc/stormdrain/event/AbstractRepositoryEvent.java:47-64 | for the classes inheriting repository equality, equality with a repository event holds exactly when the hash keys (the repository) agree |
| Events.InheritedReferenceHashConsistent | src/main/java/org/basinmc/drain/event/AbstractReferenceEvent.java:65-83 | a delete event equals a reference event exactly when the hash keys (ref name and type) agree |
| Events.MembershipHashConsistent | src/main/java/org/basinmc/stormdrain/event/MembershipEvent.java:86-106 | membership events are equal exactly when the hash keys (organization, team) agree |
| Payloads.AllTypesComplete | src/main/java/org/basinmc/stormdrain/PayloadType.java:65-236 | there are exactly 26 tags, each listed once |
| Payloads.TypeOfEventClassOf | src/main/java/org/basinmc/stormdrain/PayloadType.java:65-259 | reading the tag table backwards undoes `getType` |
| Payloads.EventClassOfTypeOf | src/main/java/org/basinmc/stormdrain/PayloadType.java:65-259 | every event class is some tag's `getType` |
| Payloads.EventClassOfInjective | src/main/java/org/basinmc/stormdrain/PayloadType.java:65-236 | distinct tags are bound to distinct event classes |
| Payloads.Read | src/main/java/org/basinmc/stormdrain/PayloadType.java:248-273 | a successful read of an event yields one of exactly the tag's class; a read may also yield null or fail with IOException |
| Payloads.NewPayload | src/main/java/org/basinmc/stormdrain/Payload.java:35-45 | NullPointerException for a null event; otherwise success if and only if the event's class is exactly the tag's, storing all three arguments, and IllegalArgumentException when it is not |
| Payloads.OneTagPerEvent | src/main/java/org/basinmc/stormdrain/Payload.java:40-44 | exactly one tag accepts a given event: the tag of its class |
| Payloads.ReadThenWrap | src/main/java/org/basinmc/stormdrain/Payload.java:40-44 | wrapping what a tag's reader decoded with the same tag succeeds with that event, unless the reader gave null, in which case it fails with NullPointerException |
| Payloads.PayloadEqualsReflexive | src/main/java/org/basinmc/stormdrain/Payload.java:82-93 | every payload equals itself |
| Payloads.PayloadEqualsComparesTag | src/main/java/org/basinmc/stormdrain/Payload.java:90-92 | payloads of the same delivery and event are equal exactly when their tags are |

## Findings

| source | as written | input that shows it | evidently intended | confidence | as-written member | corrected member |
|---|---|---|---|---|---|---|
| src/main/java/org/basinmc/stormdrain/resource/ResourceOwner.java:50 | the browser URL is `"https://github.com" + login`, with no separator | the organization `baxterandthehackers` gets `https://github.combaxterandthehackers`, where OrganizationResourceTest.java:40-41 and ResourceOwnerResourceTest.java:44-45 expect `https://github.com/baxterandthehackers` | `"https://github.com/" + login` | high, not executed | Owners.OrganizationUrlHasNoSeparator | Owners.IntendedOwnerFromLogin |

`Owners.BuiltUrlIsProfileUrlIffSlashed` shows the two URLs differ for every
login that does not itself start with `/`. The constructors `NewResourceOwner` and
`NewOrganization` keep the URL the code builds, so that they model the code
as written.

## Left out

- JSON decoding (Jackson), including the mapper setup, unknown properties and case-insensitive enum names. The decoder is a parameter of `Payloads.Read`; all the model knows of it is that a success is null or an event of the requested class. Jackson's reader gives null for the JSON text `null`, and `Payloads.ReadThenWrap` states what wrapping null then does.
- The `InputStream` and `Reader` overloads of `PayloadType.read`: they are I/O.
- `java.net.URL` construction and validation, including a `MalformedURLException` from the public `ResourceOwner` constructor. URLs are strings.
- `java.time` values are integers and `UUID` is a pair of integers; none of them is parsed.
- `Milestone.getCompletionPercentage`: floating-point division.
- Hash numbers: only the fields each `hashCode` covers are modelled, as hash keys. Where `equals` compares every field (Author, Commit, Label, Invitation, Location), equal objects have identical fields, so their keys agree trivially and have no lemma.
- The per-class `hashCode` of events whose `equals` adds fields (CommitComment, Push, Team and the like). Only the base-class keys and MembershipEvent's are stated.
- Integer widths of counters: issue and comment numbers, milestone issue counts, repository counts and the pull request number are Java `long`/`int`, modelled as unbounded integers. The label colour is the one value whose 32-bit truncation is modelled, because the code depends on it.
- Copies and unmodifiable views of sets and lists (commit file sets, issue labels, push commits): values are immutable here, so later changes by a caller and aliasing do not arise.
- `Release.Asset` and `GollumPage`: Release carries only the fields its `equals` compares, and the Gollum event carries no pages.
- `Payload`'s exact-class check also rejects subclasses of the registered event classes. The model has no such subclasses, so that case does not arise.
- Test fixtures such as the push event and commit JSON: checking what they decode to needs the JSON binding.
- UnsignedHex.ParseUnsignedHex: accepts only the ASCII digits `0-9`, `a-f` and `A-F`. Java's `Character.digit` also accepts other Unicode decimal digits (so `"\u0663"` is 3) and the fullwidth letters (so `"\uFF26\uFF26"` is 255); the model rejects these with NumberFormatException. Listing every Unicode digit range is not attempted.
- Labels.LabelFromHex: inherits that gap, so a colour written with non-ASCII digits fails here where Java accepts it.
- Events.EventEqualsReflexive, Events.EventEqualsIgnoresSender, Events.OrganizationEventComparesOrganizationOnly, Events.MembershipEventComparesTeam, Events.TeamEventAbsentRepository, Events.MembershipHashConsistent and Payloads.PayloadEqualsReflexive: for organization events, these rest on the assumed `equals`/`hashCode` of `AbstractOrganizationEvent` (organization only), whose source is not part of this model.
- `Payload.hashCode`: it hashes the delivery id, the tag and the event's own `hashCode`. Event hashes are not modelled class by class, so neither is this one.
- ValueUtility.ToOptionalModificationTimestamp: the body of `ValueUtility.toOptionalModificationTimestamp` is not part of this model. The rule it states (null or equal to the creation reads as absent, anything else is kept) is assumed from the call at AbstractTimestampedResource.java:44-45, and every timestamped resource's constructor rests on it.

/**
 * PageBuild: the state of a GitHub Pages build. It implements the
 * timestamped interface directly, without the timestamped base class, so
 * its modification time is never collapsed.
 */
module PageBuilds {
  import opened Wrappers
  import opened Values
  import opened Owners

  /** PageBuild.Status; NoneStatus is the constant NONE. */
  datatype Status = NoneStatus | Queued | Building | Built | Errored

  datatype PageBuild = PageBuild(
    status: Option<Status>,
    errorMessage: Option<string>,
    duration: Option<Duration>,
    commitId: string,
    pusher: Owner,
    creation: Instant,
    modification: Option<Instant>)

  /** The public constructor: every value stored as given, a missing status included. */
  function NewPageBuild(status: Option<Status>, errorMessage: Option<string>, duration: Option<Duration>, commitId: string,
                        pusher: Owner, creation: Instant, modification: Instant): (r: PageBuild)
    ensures r.status == status && r.errorMessage == errorMessage && r.duration == duration
    ensures r.commitId == commitId && r.pusher == pusher && r.creation == creation
    ensures r.modification == Some(modification)
  {
    PageBuild(status, errorMessage, duration, commitId, pusher, creation, Some(modification))
  }

  /**
   * The JSON constructor: a missing status reads as NONE; the error message
   * is the "message" entry of the error object, absent when there is no
   * error object, no such entry or a null entry; the modification time is
   * stored as given, even when it equals the creation time.
   */
  function PageBuildFromJson(status: Option<Status>, error: Option<map<string, Option<string>>>, duration: Option<Duration>,
                             commitId: string, pusher: Owner, creation: Instant, modification: Option<Instant>): (r: PageBuild)
    ensures r.status.Some?
    ensures status.Some? ==> r.status == status
    ensures status.None? ==> r.status == Some(NoneStatus)
    ensures r.errorMessage.Some? <==> error.Some? && "message" in error.value && error.value["message"].Some?
    ensures r.errorMessage.Some? ==> r.errorMessage == error.value["message"]
    ensures r.duration == duration && r.commitId == commitId && r.pusher == pusher
    ensures r.creation == creation && r.modification == modification
  {
    PageBuild(if status.Some? then status else Some(NoneStatus),
              if error.Some? && "message" in error.value then error.value["message"] else None,
              duration, commitId, pusher, creation, modification)
  }

  /** PageBuild.equals: all seven fields, the pusher by ResourceOwner.equals. */
  predicate PageBuildEquals(a: PageBuild, b: PageBuild) {
    a.status == b.status && a.errorMessage == b.errorMessage && a.duration == b.duration && a.commitId == b.commitId
    && OwnerEquals(a.pusher, b.pusher) && a.creation == b.creation && a.modification == b.modification
  }

  /** The values PageBuild.hashCode feeds to Objects.hash, the pusher by its own hash key. */
  function PageBuildHashKey(a: PageBuild): (Option<Status>, Option<string>, Option<Duration>, string, OwnerKey, Instant,
                                           Option<Instant>) {
    (a.status, a.errorMessage, a.duration, a.commitId, OwnerHashKey(a.pusher), a.creation, a.modification)
  }

  /** Equal page builds have equal hash keys, and only they do. */
  lemma PageBuildHashConsistent(a: PageBuild, b: PageBuild)
    ensures PageBuildEquals(a, b) <==> PageBuildHashKey(a) == PageBuildHashKey(b)
  {
  }

  /** Equal page builds need not be identical: the pushers' siteAdmin flags are not compared. */
  lemma PageBuildEqualsIgnoresPusherSiteAdmin(a: PageBuild)
    ensures PageBuildEquals(a, a.(pusher := a.pusher.(siteAdmin := !a.pusher.siteAdmin)))
  {
  }

  /** An update time equal to the creation time is kept, unlike in the timestamped resources. */
  lemma ModificationNotCollapsed(status: Option<Status>, commitId: string, pusher: Owner, creation: Instant)
    ensures PageBuildFromJson(status, None, None, commitId, pusher, creation, Some(creation)).modification == Some(creation)
    ensures !PageBuildEquals(PageBuildFromJson(status, None, None, commitId, pusher, creation, Some(creation)),
                             PageBuildFromJson(status, None, None, commitId, pusher, creation, None))
  {
  }

  /** An error object without a message, or with a null one, gives no error message. */
  lemma ErrorWithoutMessage(status: Option<Status>, commitId: string, pusher: Owner, creation: Instant)
    ensures PageBuildFromJson(status, Some(map[]), None, commitId, pusher, creation, None).errorMessage.None?
    ensures PageBuildFromJson(status, Some(map["message" := None]), None, commitId, pusher, creation, None).errorMessage.None?
    ensures PageBuildFromJson(status, Some(map["message" := Some("Page build failed.")]), None, commitId, pusher, creation, None).errorMessage
         == Some("Page build failed.")
  {
  }
}

/**
 * Comment and its two subclasses: CommitComment, which may point at a line
 * of a file, and ReviewComment, which points into a pull request's diff.
 */
module Comments {
  import opened Wrappers
  import opened Values
  import opened ResourceBases
  import opened Owners

  /** Comment: a timestamped, browser-accessible text written by a user. */
  datatype Comment = Comment(base: TimestampedBrowserAccessible, body: string, user: Owner)

  /** The Comment constructor: the update time collapses into the timestamped base. */
  function NewComment(id: string, body: string, user: Owner, browserUrl: Url, createdAt: Instant, updatedAt: Instant): (r: Comment)
    ensures r.base.timestamped.resource.id == id && r.base.browserUrl == browserUrl
    ensures r.base.timestamped.creation == createdAt
    ensures r.base.timestamped.modification == (if updatedAt == createdAt then None else Some(updatedAt))
    ensures r.body == body && r.user == user
  {
    Comment(NewTimestampedBrowserAccessible(id, browserUrl, createdAt, Some(updatedAt)), body, user)
  }

  /** Comment.equals: the base, then body and user. */
  predicate CommentEquals(a: Comment, b: Comment) {
    TimestampedBrowserAccessibleEquals(a.base, b.base) && a.body == b.body && OwnerEquals(a.user, b.user)
  }

  /** CommitComment.Location: a file path and a line in it. */
  datatype Location = Location(path: string, line: Int32)

  /** Location.equals: line and path. */
  predicate LocationEquals(a: Location, b: Location) {
    a.line == b.line && a.path == b.path
  }

  /** Locations compare by every field they have. */
  lemma LocationEqualsIsIdentity(a: Location, b: Location)
    ensures LocationEquals(a, b) <==> a == b
  {
  }

  /** CommitComment: a comment on a commit, optionally on one line of one file. */
  datatype CommitComment = CommitComment(comment: Comment, commitId: string, location: Option<Location>)

  /**
   * The CommitComment constructor: a path and a line must be given together
   * or not at all (an IllegalArgumentException otherwise); together they
   * form the location.
   */
  function NewCommitComment(id: string, commitId: string, line: Option<Int32>, path: Option<string>, user: Owner,
                            body: string, browserUrl: Url, createdAt: Instant, updatedAt: Instant): (r: Result<CommitComment>)
    ensures r.Failure? <==> path.Some? != line.Some?
    ensures r.Failure? ==> r.error.IllegalArgument?
    ensures r.Success? ==> r.value.comment == NewComment(id, body, user, browserUrl, createdAt, updatedAt)
    ensures r.Success? ==> r.value.commitId == commitId
    ensures r.Success? ==> (r.value.location.Some? <==> path.Some?)
    ensures r.Success? && path.Some? ==> r.value.location.value.path == path.value && r.value.location.value.line == line.value
  {
    var comment := NewComment(id, body, user, browserUrl, createdAt, updatedAt);
    if (path.Some? && line.None?) || (path.None? && line.Some?) then
      Failure(IllegalArgument("Illegal comment location: File comments must specify line and path"))
    else
      Success(CommitComment(comment, commitId, if path.Some? then Some(Location(path.value, line.value)) else None))
  }

  /** CommitComment.equals: the comment, then the commit and the location. */
  predicate CommitCommentEquals(a: CommitComment, b: CommitComment) {
    CommentEquals(a.comment, b.comment) && a.commitId == b.commitId
    && (if a.location.None? || b.location.None? then a.location == b.location
        else LocationEquals(a.location.value, b.location.value))
  }

  /** Two commit comments that differ only in the user's site-admin flag are equal. */
  lemma CommitCommentIgnoresSiteAdmin(c: CommitComment, siteAdmin: bool)
    ensures CommitCommentEquals(c, c.(comment := c.comment.(user := c.comment.user.(siteAdmin := siteAdmin))))
  {
  }

  /** ReviewComment: a comment on a line of a pull request's diff. */
  datatype ReviewComment = ReviewComment(comment: Comment, path: string, diffHunk: string, position: Int32, originalPosition: Int32)

  /** ReviewComment.equals: the comment, then positions, path and diff hunk. */
  predicate ReviewCommentEquals(a: ReviewComment, b: ReviewComment) {
    CommentEquals(a.comment, b.comment) && a.position == b.position && a.originalPosition == b.originalPosition
    && a.path == b.path && a.diffHunk == b.diffHunk
  }
}

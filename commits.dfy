/**
 * Commit and Commit.Author: one commit of a push, with the files it
 * touched and the people who wrote and committed it.
 */
module Commits {
  import opened Wrappers
  import opened Values
  import opened ValueUtility
  import opened ResourceBases

  /** Commit.Author: a name, an e-mail address and an optional GitHub login. */
  datatype Author = Author(name: string, email: string, login: Option<string>)

  /** The Author constructor: a blank login reads as absent. */
  function NewAuthor(name: string, email: string, login: Option<string>): (r: Author)
    ensures r.name == name && r.email == email
    ensures r.login.None? <==> (login.None? || IsBlank(login.value))
    ensures r.login.Some? ==> r.login == login
  {
    Author(name, email, ToOptionalString(login))
  }

  /** Author.equals: name, e-mail address and login. */
  predicate AuthorEquals(a: Author, b: Author) {
    a.name == b.name && a.email == b.email && a.login == b.login
  }

  /** Authors compare by every field they have. */
  lemma AuthorEqualsIsIdentity(a: Author, b: Author)
    ensures AuthorEquals(a, b) <==> a == b
  {
  }

  /** A missing, empty or blank login builds the same author. */
  lemma BlankLoginsBuildEqualAuthors(name: string, email: string)
    ensures NewAuthor(name, email, None) == NewAuthor(name, email, Some(""))
    ensures NewAuthor(name, email, Some("")) == NewAuthor(name, email, Some(" \t"))
  {
  }

  datatype Commit = Commit(
    base: BrowserAccessible,
    treeId: string,
    distinct: bool,
    message: string,
    author: Author,
    committer: Option<Author>,
    timestamp: OffsetDateTime,
    addedFiles: set<string>,
    removedFiles: set<string>,
    modifiedFiles: set<string>)

  /**
   * The Commit constructor: the committer is stored only when it differs
   * from the author; the file sets are copied.
   */
  function NewCommit(id: string, treeId: string, distinct: bool, message: string, author: Author, committer: Author,
                     timestamp: OffsetDateTime, addedFiles: set<string>, removedFiles: set<string>,
                     modifiedFiles: set<string>, browserUrl: Url): (r: Commit)
    ensures r.base == BrowserAccessible(Resource(id), browserUrl)
    ensures r.treeId == treeId && r.distinct == distinct && r.message == message && r.author == author
    ensures r.committer.None? <==> AuthorEquals(author, committer)
    ensures r.committer.Some? ==> r.committer.value == committer
    ensures r.timestamp == timestamp
    ensures r.addedFiles == addedFiles && r.removedFiles == removedFiles && r.modifiedFiles == modifiedFiles
  {
    Commit(BrowserAccessible(Resource(id), browserUrl), treeId, distinct, message, author,
           if !AuthorEquals(author, committer) then Some(committer) else None,
           timestamp, addedFiles, removedFiles, modifiedFiles)
  }

  /** Who committed: the stored committer, or the author when none is stored. */
  function EffectiveCommitter(c: Commit): Author {
    if c.committer.Some? then c.committer.value else c.author
  }

  /** Dropping a committer equal to the author loses nothing: it is recovered exactly. */
  lemma CommitterRecovered(id: string, treeId: string, distinct: bool, message: string, author: Author, committer: Author,
                           timestamp: OffsetDateTime, addedFiles: set<string>, removedFiles: set<string>,
                           modifiedFiles: set<string>, browserUrl: Url)
    ensures EffectiveCommitter(NewCommit(id, treeId, distinct, message, author, committer, timestamp,
                                         addedFiles, removedFiles, modifiedFiles, browserUrl)) == committer
  {
  }

  /** Optional authors as Objects.equals compares them. */
  predicate OptionalAuthorEquals(a: Option<Author>, b: Option<Author>) {
    if a.None? || b.None? then a == b else AuthorEquals(a.value, b.value)
  }

  /** Commit.equals: the base, then every field, authors by Author.equals. */
  predicate CommitEquals(a: Commit, b: Commit) {
    BrowserAccessibleEquals(a.base, b.base) && a.distinct == b.distinct && a.treeId == b.treeId
    && a.message == b.message && AuthorEquals(a.author, b.author)
    && OptionalAuthorEquals(a.committer, b.committer) && a.timestamp == b.timestamp
    && a.addedFiles == b.addedFiles && a.removedFiles == b.removedFiles && a.modifiedFiles == b.modifiedFiles
  }

  /** Commits compare by every field they have. */
  lemma CommitEqualsIsIdentity(a: Commit, b: Commit)
    ensures CommitEquals(a, b) <==> a == b
  {
  }

  /** Commit lists as List.equals compares them: same length, elementwise Commit.equals. */
  predicate CommitListEquals(a: seq<Commit>, b: seq<Commit>) {
    |a| == |b| && forall i :: 0 <= i < |a| ==> CommitEquals(a[i], b[i])
  }

  /** Commit lists compare as sequences. */
  lemma CommitListEqualsIsIdentity(a: seq<Commit>, b: seq<Commit>)
    ensures CommitListEquals(a, b) <==> a == b
  {
    if CommitListEquals(a, b) {
      forall i | 0 <= i < |a| ensures a[i] == b[i] {
        CommitEqualsIsIdentity(a[i], b[i]);
      }
    }
  }
}

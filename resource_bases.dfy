/**
 * The abstract resource hierarchy: an identifier (AbstractResource), a
 * creation and an optional modification timestamp
 * (AbstractTimestampedResource), a browser URL
 * (AbstractBrowserAccessibleResource) and both together
 * (AbstractTimestampedBrowserAccessibleResource).
 *
 * Each base is a record the concrete resources embed; each equals method
 * is a predicate, and each hashCode is a "hash key": the tuple of the
 * values hashCode feeds to Objects.hash. Equal keys mean equal hashes.
 */
module ResourceBases {
  import opened Wrappers
  import opened Values
  import opened ValueUtility

  /** AbstractResource: the identifier every resource carries. */
  datatype Resource = Resource(id: string)

  /** AbstractResource.equals: another resource with the same identifier. */
  predicate ResourceEquals(a: Resource, b: Resource) {
    a.id == b.id
  }

  /** AbstractResource.hashCode hashes the identifier alone. */
  function ResourceHashKey(a: Resource): string {
    a.id
  }

  /** Resource equality is an equivalence, and equal resources have equal hash keys. */
  lemma ResourceEqualsIsEquivalence(a: Resource, b: Resource, c: Resource)
    ensures ResourceEquals(a, a)
    ensures ResourceEquals(a, b) ==> ResourceEquals(b, a)
    ensures ResourceEquals(a, b) && ResourceEquals(b, c) ==> ResourceEquals(a, c)
    ensures ResourceEquals(a, b) <==> ResourceHashKey(a) == ResourceHashKey(b)
  {
  }

  /** AbstractTimestampedResource: a resource with creation and modification times. */
  datatype Timestamped = Timestamped(resource: Resource, creation: Instant, modification: Option<Instant>)
  {
    /** What the constructor establishes: no modification equal to the creation. */
    predicate Collapsed() {
      modification != Some(creation)
    }
  }

  /**
   * The AbstractTimestampedResource constructor: the identifier and creation
   * are kept; a modification that is missing or equal to the creation is
   * stored as none.
   */
  function NewTimestamped(id: string, creation: Instant, modification: Option<Instant>): (r: Timestamped)
    ensures r.resource.id == id && r.creation == creation
    ensures r.modification.None? <==> (modification.None? || modification.value == creation)
    ensures r.modification.Some? ==> r.modification == modification
    ensures r.Collapsed()
  {
    Timestamped(Resource(id), creation, ToOptionalModificationTimestamp(creation, modification))
  }

  /** AbstractTimestampedResource.equals: the base identifier, then both timestamps. */
  predicate TimestampedEquals(a: Timestamped, b: Timestamped) {
    ResourceEquals(a.resource, b.resource) && a.creation == b.creation && a.modification == b.modification
  }

  type TimestampedKey = (string, Instant, Option<Instant>)

  function TimestampedHashKey(a: Timestamped): TimestampedKey {
    (ResourceHashKey(a.resource), a.creation, a.modification)
  }

  /** Equal timestamped resources have equal hash keys, and only they do. */
  lemma TimestampedHashConsistent(a: Timestamped, b: Timestamped)
    ensures TimestampedEquals(a, b) <==> TimestampedHashKey(a) == TimestampedHashKey(b)
  {
  }

  /** A missing modification and one equal to the creation build equal resources. */
  lemma EchoedModificationIsNoModification(id: string, creation: Instant)
    ensures NewTimestamped(id, creation, Some(creation)) == NewTimestamped(id, creation, None)
    ensures NewTimestamped(id, creation, Some(creation)).modification.None?
  {
  }

  /**
   * AbstractBrowserAccessibleResource (its source is not part of this model):
   * a resource with a browser URL, equal when identifier and URL are.
   */
  datatype BrowserAccessible = BrowserAccessible(resource: Resource, browserUrl: Url)

  predicate BrowserAccessibleEquals(a: BrowserAccessible, b: BrowserAccessible) {
    ResourceEquals(a.resource, b.resource) && a.browserUrl == b.browserUrl
  }

  type BrowserAccessibleKey = (string, Url)

  function BrowserAccessibleHashKey(a: BrowserAccessible): BrowserAccessibleKey {
    (ResourceHashKey(a.resource), a.browserUrl)
  }

  /** AbstractTimestampedBrowserAccessibleResource: a timestamped resource with a browser URL. */
  datatype TimestampedBrowserAccessible = TimestampedBrowserAccessible(timestamped: Timestamped, browserUrl: Url)

  /**
   * Its constructor passes identifier and timestamps to the timestamped base
   * unchanged, so the modification collapse applies, and stores the URL.
   */
  function NewTimestampedBrowserAccessible(id: string, browserUrl: Url, creation: Instant, modification: Option<Instant>): (r: TimestampedBrowserAccessible)
    ensures r.timestamped.resource.id == id && r.timestamped.creation == creation
    ensures r.timestamped.modification.None? <==> (modification.None? || modification.value == creation)
    ensures r.timestamped.modification.Some? ==> r.timestamped.modification == modification
    ensures r.browserUrl == browserUrl
  {
    TimestampedBrowserAccessible(NewTimestamped(id, creation, modification), browserUrl)
  }

  /** Its equals: the timestamped base, then the URL. */
  predicate TimestampedBrowserAccessibleEquals(a: TimestampedBrowserAccessible, b: TimestampedBrowserAccessible) {
    TimestampedEquals(a.timestamped, b.timestamped) && a.browserUrl == b.browserUrl
  }

  type TimestampedBrowserAccessibleKey = (TimestampedKey, Url)

  function TimestampedBrowserAccessibleHashKey(a: TimestampedBrowserAccessible): TimestampedBrowserAccessibleKey {
    (TimestampedHashKey(a.timestamped), a.browserUrl)
  }

  lemma TimestampedBrowserAccessibleHashConsistent(a: TimestampedBrowserAccessible, b: TimestampedBrowserAccessible)
    ensures TimestampedBrowserAccessibleEquals(a, b) <==> TimestampedBrowserAccessibleHashKey(a) == TimestampedBrowserAccessibleHashKey(b)
  {
  }
}

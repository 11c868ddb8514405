/**
 * ResourceOwner and its two subclasses, User and Organization: the account
 * that owns or triggers something on GitHub.
 */
module Owners {
  import opened Wrappers
  import opened Values
  import opened ValueUtility
  import opened ResourceBases

  /** ResourceOwner.Type. */
  datatype OwnerType = UserType | OrganizationType

  /** The runtime class of an owner object. */
  datatype OwnerClass = ResourceOwnerClass | UserClass | OrganizationClass

  datatype Owner = Owner(
    ownerClass: OwnerClass,
    base: BrowserAccessible,
    login: string,
    ownerType: OwnerType,
    siteAdmin: bool,
    gravatarId: Option<string>,
    avatarUrl: Url)

  /** The text the public constructor puts in front of the login to form the browser URL. */
  const GitHubBrowserPrefix: string := "https://github.com"

  /**
   * The public ResourceOwner constructor, also reached through Organization:
   * the browser URL is derived from the login, and the gravatar identifier
   * is normalised so that a blank one reads as absent.
   */
  function OwnerFromLogin(ownerClass: OwnerClass, id: string, login: string, ownerType: OwnerType, siteAdmin: bool,
                          gravatarId: Option<string>, avatarUrl: Url): (r: Owner)
    ensures r.ownerClass == ownerClass && r.base.resource.id == id
    ensures r.login == login && r.ownerType == ownerType && r.siteAdmin == siteAdmin && r.avatarUrl == avatarUrl
    ensures |r.base.browserUrl| == |GitHubBrowserPrefix| + |login|
    ensures r.base.browserUrl[..|GitHubBrowserPrefix|] == GitHubBrowserPrefix
    ensures r.base.browserUrl[|GitHubBrowserPrefix|..] == login
    ensures r.gravatarId.None? <==> (gravatarId.None? || IsBlank(gravatarId.value))
    ensures r.gravatarId.Some? ==> r.gravatarId == gravatarId
  {
    Owner(ownerClass, BrowserAccessible(Resource(id), GitHubBrowserPrefix + login), login, ownerType, siteAdmin,
          ToOptionalString(gravatarId), avatarUrl)
  }

  /** `new ResourceOwner(id, login, type, siteAdmin, gravatarId, avatarUrl)`. */
  function NewResourceOwner(id: string, login: string, ownerType: OwnerType, siteAdmin: bool,
                            gravatarId: Option<string>, avatarUrl: Url): (r: Owner)
    ensures r.ownerClass == ResourceOwnerClass && r.base.resource.id == id
    ensures r.login == login && r.ownerType == ownerType && r.siteAdmin == siteAdmin && r.avatarUrl == avatarUrl
    ensures r.base.browserUrl == GitHubBrowserPrefix + login
    ensures r.gravatarId.None? <==> (gravatarId.None? || IsBlank(gravatarId.value))
    ensures r.gravatarId.Some? ==> r.gravatarId == gravatarId
  {
    OwnerFromLogin(ResourceOwnerClass, id, login, ownerType, siteAdmin, gravatarId, avatarUrl)
  }

  /**
   * `new Organization(id, login, gravatarId, avatarUrl)`: the public
   * constructor with the type fixed to ORGANIZATION and siteAdmin to false.
   */
  function NewOrganization(id: string, login: string, gravatarId: Option<string>, avatarUrl: Url): (r: Owner)
    ensures r.ownerClass == OrganizationClass && r.base.resource.id == id
    ensures r.login == login && r.ownerType == OrganizationType && !r.siteAdmin && r.avatarUrl == avatarUrl
    ensures r.base.browserUrl == GitHubBrowserPrefix + login
    ensures r.gravatarId.None? <==> (gravatarId.None? || IsBlank(gravatarId.value))
    ensures r.gravatarId.Some? ==> r.gravatarId == gravatarId
  {
    OwnerFromLogin(OrganizationClass, id, login, OrganizationType, false, gravatarId, avatarUrl)
  }

  /**
   * `new User(id, login, siteAdmin, browserUrl, gravatarId, avatarUrl)`: the
   * protected ResourceOwner constructor with the type fixed to USER. The
   * browser URL is the one given and the gravatar identifier is stored
   * without normalisation.
   */
  function NewUser(id: string, login: string, siteAdmin: bool, browserUrl: Url,
                   gravatarId: Option<string>, avatarUrl: Url): (r: Owner)
    ensures r.ownerClass == UserClass && r.ownerType == UserType
    ensures r.base == BrowserAccessible(Resource(id), browserUrl)
    ensures r.login == login && r.siteAdmin == siteAdmin && r.gravatarId == gravatarId && r.avatarUrl == avatarUrl
  {
    Owner(UserClass, BrowserAccessible(Resource(id), browserUrl), login, UserType, siteAdmin, gravatarId, avatarUrl)
  }

  /**
   * ResourceOwner.equals: any other owner, whatever its class, with equal
   * base, login, type, gravatar identifier and avatar URL. The site-admin
   * flag is not compared.
   */
  predicate OwnerEquals(a: Owner, b: Owner) {
    BrowserAccessibleEquals(a.base, b.base) && a.login == b.login && a.ownerType == b.ownerType
    && a.gravatarId == b.gravatarId && a.avatarUrl == b.avatarUrl
  }

  /** ResourceOwner.hashCode: the same fields equals compares. */
  type OwnerKey = (BrowserAccessibleKey, string, OwnerType, Option<string>, Url)

  function OwnerHashKey(a: Owner): OwnerKey {
    (BrowserAccessibleHashKey(a.base), a.login, a.ownerType, a.gravatarId, a.avatarUrl)
  }

  lemma OwnerHashConsistent(a: Owner, b: Owner)
    ensures OwnerEquals(a, b) <==> OwnerHashKey(a) == OwnerHashKey(b)
  {
  }

  /** Owner equality is exactly equality of everything but the class and the site-admin flag. */
  lemma OwnerEqualsIgnoresClassAndSiteAdmin(a: Owner, b: Owner)
    ensures OwnerEquals(a, b) <==> a.(ownerClass := b.ownerClass, siteAdmin := b.siteAdmin) == b
  {
  }

  /**
   * The public constructor forms the URL by plain concatenation, with no
   * separator between host and login; a User, built from the html_url of
   * the payload, is not affected.
   */
  lemma OrganizationUrlHasNoSeparator()
    ensures NewOrganization("4312013", "baxterandthehackers", None, "https://avatars.githubusercontent.com/u/4312013?v=3").base.browserUrl
         == "https://github.combaxterandthehackers"
  {
  }

  /** The profile URL of a login: host, a '/' separator, then the login. */
  const GitHubProfilePrefix: string := GitHubBrowserPrefix + "/"

  function ProfileUrl(login: string): (u: Url)
    ensures |u| == |GitHubProfilePrefix| + |login|
    ensures u[..|GitHubBrowserPrefix|] == GitHubBrowserPrefix && u[|GitHubBrowserPrefix|] == '/'
    ensures u[|GitHubProfilePrefix|..] == login
  {
    GitHubProfilePrefix + login
  }

  /**
   * The public constructor as evidently intended: as OwnerFromLogin, except
   * that the browser URL is the login's profile URL.
   */
  function IntendedOwnerFromLogin(ownerClass: OwnerClass, id: string, login: string, ownerType: OwnerType,
                                  siteAdmin: bool, gravatarId: Option<string>, avatarUrl: Url): (r: Owner)
    ensures r.base.browserUrl == ProfileUrl(login)
    ensures r.(base := BrowserAccessible(r.base.resource, GitHubBrowserPrefix + login))
         == OwnerFromLogin(ownerClass, id, login, ownerType, siteAdmin, gravatarId, avatarUrl)
  {
    var o := OwnerFromLogin(ownerClass, id, login, ownerType, siteAdmin, gravatarId, avatarUrl);
    o.(base := BrowserAccessible(o.base.resource, ProfileUrl(login)))
  }

  /** The intended constructor gives the URL the organization fixture expects. */
  lemma IntendedOrganizationUrl()
    ensures IntendedOwnerFromLogin(OrganizationClass, "4312013", "baxterandthehackers", OrganizationType, false, None,
                                   "https://avatars.githubusercontent.com/u/4312013?v=3").base.browserUrl
         == "https://github.com/baxterandthehackers"
  {
  }

  /**
   * The URL the code builds is the profile URL of some login exactly when
   * the login itself starts with '/': for every real login the two differ.
   */
  lemma BuiltUrlIsProfileUrlIffSlashed(login: string, other: string)
    ensures GitHubBrowserPrefix + login == ProfileUrl(other) <==> login == "/" + other
  {
  }

  /** The public constructor drops a blank gravatar identifier; User keeps it. */
  lemma BlankGravatarOnlyDroppedByPublicConstructor(id: string, login: string, url: Url, avatar: Url)
    ensures NewOrganization(id, login, Some(" "), avatar).gravatarId.None?
    ensures NewUser(id, login, false, url, Some(" "), avatar).gravatarId == Some(" ")
  {
  }
}

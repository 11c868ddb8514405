/** Team: a team of an organization, identified for equality by name, slug and permission. */
module Teams {
  import opened ResourceBases

  /** Team.Permission. */
  datatype Permission = Admin | Push | Pull

  datatype Team = Team(resource: Resource, name: string, slug: string, permission: Permission)

  /**
   * Team.equals: name, slug and permission. Unlike every other resource it
   * does not ask its base, so the identifier is not compared.
   */
  predicate TeamEquals(a: Team, b: Team) {
    a.name == b.name && a.slug == b.slug && a.permission == b.permission
  }

  /** Team.hashCode: name, slug and permission, the identifier left out as in equals. */
  type TeamKey = (string, string, Permission)

  function TeamHashKey(a: Team): TeamKey {
    (a.name, a.slug, a.permission)
  }

  lemma TeamHashConsistent(a: Team, b: Team)
    ensures TeamEquals(a, b) <==> TeamHashKey(a) == TeamHashKey(b)
  {
  }

  /** Team equality is exactly equality of everything but the identifier. */
  lemma TeamEqualsIgnoresId(a: Team, b: Team)
    ensures TeamEquals(a, b) <==> a.(resource := b.resource) == b
  {
  }

  /** Two teams with different identifiers can be equal teams yet unequal resources. */
  lemma TeamEqualsIsNotResourceEquals()
    ensures var a, b := Team(Resource("1"), "Justice League", "justice-league", Pull), Team(Resource("2"), "Justice League", "justice-league", Pull);
            TeamEquals(a, b) && !ResourceEquals(a.resource, b.resource)
  {
  }
}

/** Invitation: an invitation to join an organization, addressed by login or by e-mail. */
module Invitations {
  import opened Wrappers
  import opened ResourceBases

  /** Invitation.Role. */
  datatype Role = DirectMember | Admin | BillingManager | HiringManager | Reinstate

  datatype Invitation = Invitation(resource: Resource, login: Option<string>, email: Option<string>, role: Role)
  {
    /** What the constructor guarantees: the invitee can be reached somehow. */
    predicate Addressed() {
      login.Some? || email.Some?
    }
  }

  /**
   * The Invitation constructor: at least one of login and e-mail address
   * must be given (an IllegalArgumentException otherwise); both are stored
   * as given, empty strings included.
   */
  function NewInvitation(id: string, login: Option<string>, email: Option<string>, role: Role): (r: Result<Invitation>)
    ensures r.Failure? <==> login.None? && email.None?
    ensures r.Failure? ==> r.error.IllegalArgument?
    ensures r.Success? ==> r.value.Addressed()
    ensures r.Success? ==> r.value.resource.id == id && r.value.login == login && r.value.email == email && r.value.role == role
  {
    if login.None? && email.None? then
      Failure(IllegalArgument("Illegal invitation: Either login or email required"))
    else
      Success(Invitation(Resource(id), login, email, role))
  }

  /** Invitation.equals: the identifier, then login, e-mail address and role. */
  predicate InvitationEquals(a: Invitation, b: Invitation) {
    ResourceEquals(a.resource, b.resource) && a.login == b.login && a.email == b.email && a.role == b.role
  }

  /** Invitations compare by every field they have. */
  lemma InvitationEqualsIsIdentity(a: Invitation, b: Invitation)
    ensures InvitationEquals(a, b) <==> a == b
  {
  }

  /** An empty login is a login: it is not normalised away, and it suffices. */
  lemma EmptyLoginAccepted(id: string, role: Role)
    ensures NewInvitation(id, Some(""), None, role) == Success(Invitation(Resource(id), Some(""), None, role))
  {
  }
}

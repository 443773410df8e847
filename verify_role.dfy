/** The role probe: the role claimed in the verified token chooses a
    welcome message, and anything else is forbidden. */
module VerifyRole {
  import opened Common
  import opened UserModel
  import opened Database
  import opened Authentication

  const Forbidden := Reply(403, Failure(None, "Forbidden: You do not have access to this resource."))

  function Welcome(role: Role): string
  {
    match role
    case Manager => "Welcome to the Manager Dashboard."
    case PantryStaff => "Welcome to the Pantry Staff Dashboard."
    case DeliveryPersonnel => "Welcome to the Delivery Personnel Dashboard."
  }

  /** The answer for a role claim (None when the payload has no role). */
  function Dashboard(claim: Option<string>): (r: Reply)
    ensures r.status == 200 <==> claim.Some? && ParseRole(claim.value).Some?
    ensures r.status != 200 ==> r == Forbidden
    ensures claim == Some("Manager") ==> r == Reply(200, Notice(None, "Welcome to the Manager Dashboard."))
    ensures claim == Some("PantryStaff") ==> r == Reply(200, Notice(None, "Welcome to the Pantry Staff Dashboard."))
    ensures claim == Some("DeliveryPersonnel") ==>
      r == Reply(200, Notice(None, "Welcome to the Delivery Personnel Dashboard."))
  {
    if claim.None? then Forbidden
    else match ParseRole(claim.value)
      case Some(role) => Reply(200, Notice(None, Welcome(role)))
      case None => Forbidden
  }

  /** The three roles get three different messages. */
  lemma WelcomesDistinct(a: Role, b: Role)
    requires a != b
    ensures Dashboard(Some(RoleName(a))) != Dashboard(Some(RoleName(b)))
  {
  }

  /** A token issued at registration carries no role, so it is always refused here. */
  lemma RegisterTokenForbidden(id: Id)
    ensures Dashboard(RegisterPayload(id).user.role) == Forbidden
  {
  }

  /** A token issued at login reaches the dashboard of the user's stored role. */
  lemma LoginTokenWelcomed(id: Id, role: Role)
    ensures Dashboard(LoginPayload(id, role).user.role) == Reply(200, Notice(None, Welcome(role)))
  {
  }
}

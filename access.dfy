/** The middleware every role-specific router installs in front of its
    handlers: fetchUser, then a look-up of the caller's user record whose
    stored role must equal the router's role. */
module Access {
  import opened Common
  import opened UserModel
  import opened Database
  import opened FetchUser

  /** The role check: None lets the request through (next() is called);
      otherwise the 403 answer. Only the stored role counts: the role claim
      inside the token is not looked at. */
  function RoleGate(users: map<Id, User>, caller: Claims, required: Role, denial: string): (r: Option<Reply>)
    ensures r.None? <==> caller.id in users && users[caller.id].role == required
    ensures r.Some? ==> r.value == Reply(403, Failure(None, denial))
  {
    if caller.id in users && users[caller.id].role == required then None
    else Some(Reply(403, Failure(None, denial)))
  }

  /** router.use(fetchUser, gate): authentication first, then the role check. */
  function Admit(users: map<Id, User>, header: Option<string>, verify: Verifier,
                 required: Role, denial: string): (r: Outcome)
    ensures Authenticate(header, verify).Halt? ==> r == Authenticate(header, verify)
    ensures r.Next? <==>
      Authenticate(header, verify).Next?
      && Authenticate(header, verify).user.id in users
      && users[Authenticate(header, verify).user.id].role == required
    ensures r.Next? ==> r == Authenticate(header, verify)
    ensures Authenticate(header, verify).Next? && r.Halt? ==> r.reply == Reply(403, Failure(None, denial))
  {
    match Authenticate(header, verify)
    case Halt(reply) => Halt(reply)
    case Next(claims) =>
      match RoleGate(users, claims, required, denial)
      case Some(reply) => Halt(reply)
      case None => Next(claims)
  }

  /** The gate's verdict does not depend on the role claimed in the token. */
  lemma GateIgnoresClaimedRole(users: map<Id, User>, id: Id, claimed: Option<string>,
                               other: Option<string>, required: Role, denial: string)
    ensures RoleGate(users, Claims(id, claimed), required, denial)
         == RoleGate(users, Claims(id, other), required, denial)
  {
  }

  /** A caller whose user record has been deleted, or whose stored role has
      changed, is refused even though the token still verifies. */
  lemma StoredRoleDecides(users: map<Id, User>, caller: Claims, required: Role, denial: string)
    requires caller.role == Some(RoleName(required))
    requires caller.id !in users || users[caller.id].role != required
    ensures RoleGate(users, caller, required, denial).Some?
  {
  }
}

/** Registration and login. Hashing (bcrypt), token signing (jwt.sign) and the
    e-mail syntax check are parameters: the model decides what is hashed,
    what is signed and which answer is sent, not how. */
module Authentication {
  import opened Common
  import opened UserModel
  import opened Database
  import opened FetchUser

  /** The fields of a registration request; a missing field is "". */
  datatype RegisterForm = RegisterForm(name: string, email: string, password: string, role: string, contactInfo: string)

  /** The registration validators, in the order they are declared. */
  function RegisterErrors(f: RegisterForm, isEmail: string -> bool): (errs: seq<FieldError>)
    ensures errs == [] <==>
      |f.name| >= 3 && isEmail(f.email) && |f.password| >= 8
      && ParseRole(f.role).Some? && |f.contactInfo| == 10
    ensures |f.password| < 8 ==> FieldError("password", "Password must have min 8 characters.") in errs
    ensures ParseRole(f.role).None? ==>
      FieldError("role", "Role must be one of Manager, Pantry Staff, or Delivery Personnel") in errs
  {
    Check(|f.name| >= 3, "name", "Enter a valid name")
    + Check(isEmail(f.email), "email", "Enter a valid email address")
    + Check(|f.password| >= 8, "password", "Password must have min 8 characters.")
    + Check(ParseRole(f.role).Some?, "role", "Role must be one of Manager, Pantry Staff, or Delivery Personnel")
    + Check(|f.contactInfo| == 10, "contactInfo", "Enter a valid Contact Number")
  }

  /** The login validators: a syntactically valid e-mail and a password
      field that is present (it may be empty). */
  function LoginErrors(email: string, password: Option<string>, isEmail: string -> bool): (errs: seq<FieldError>)
    ensures errs == [] <==> isEmail(email) && password.Some?
  {
    Check(isEmail(email), "email", "Enter a valid email address")
    + Check(password.Some?, "password", "Password cannot be blank")
  }

  predicate EmailTaken(users: map<Id, User>, email: string)
  {
    exists k :: k in users && users[k].email == email
  }

  /** The payload signed at registration: the new user's id and no role. */
  function RegisterPayload(id: Id): (p: Payload)
    ensures p.user.id == id && p.user.role.None?
  {
    Payload(Claims(id, None))
  }

  /** The payload signed at login: the user's id and stored role. */
  function LoginPayload(id: Id, role: Role): (p: Payload)
    ensures p.user.id == id && p.user.role == Some(RoleName(role))
    ensures ParseRole(p.user.role.value) == Some(role)
  {
    Payload(Claims(id, Some(RoleName(role))))
  }

  const EmailInUse := Reply(400, Failure(Some(false), "Sorry an user with this email already exists."))
  const WrongCredentials := Reply(400, Failure(Some(false), "Please try to login with correct credentials."))
  const RegisterFailed := Reply(500, ServerError("Internal server error occurring while creating user."))

  /** POST /register. */
  method Register(s: Store, f: RegisterForm, isEmail: string -> bool,
                  hash: string -> string, sign: Payload -> string) returns (r: Reply)
    requires s.Valid()
    modifies s`users, s`nextId
    ensures s.Valid()
    ensures
      var errs := RegisterErrors(f, isEmail);
      if errs != [] then
        r == Reply(400, Invalid(Some(false), errs)) && unchanged(s)
      else if EmailTaken(old(s.users), f.email) then
        r == EmailInUse && unchanged(s)
      else
        match NewUser(Some(f.name), f.email, hash(f.password), ParseRole(f.role).value, Some(f.contactInfo))
        case None => r == RegisterFailed && unchanged(s)
        case Some(u) =>
          && s.users == old(s.users)[old(s.nextId) := u]
          && r == Reply(200, TokenIssued(sign(RegisterPayload(old(s.nextId))), None))
    ensures r.status == 200 ==>
      && old(s.nextId) in s.users
      && s.users[old(s.nextId)].password == hash(f.password)
      && s.users[old(s.nextId)].email == f.email
      && RoleName(s.users[old(s.nextId)].role) == f.role
  {
    var errs := RegisterErrors(f, isEmail);
    if errs != [] {
      return Reply(400, Invalid(Some(false), errs));
    }
    if exists k :: k in s.users && s.users[k].email == f.email {
      return EmailInUse;
    }
    var role := ParseRole(f.role).value;
    var created := NewUser(Some(f.name), f.email, hash(f.password), role, Some(f.contactInfo));
    if created.None? {
      return RegisterFailed;
    }
    var id := s.FreshId();
    s.users := s.users[id := created.value];
    r := Reply(200, TokenIssued(sign(RegisterPayload(id)), None));
  }

  /** POST /login. An unknown e-mail and a wrong password get the same
      answer; a match gets a token carrying the stored role. */
  method Login(s: Store, email: string, password: Option<string>, isEmail: string -> bool,
               compare: (string, string) -> bool, sign: Payload -> string) returns (r: Reply)
    requires UniqueEmails(s.users)
    ensures LoginErrors(email, password, isEmail) != [] ==>
      r == Reply(400, Invalid(None, LoginErrors(email, password, isEmail)))
    ensures LoginErrors(email, password, isEmail) == [] && !EmailTaken(s.users, email) ==>
      r == WrongCredentials
    ensures LoginErrors(email, password, isEmail) == [] ==>
      forall k :: k in s.users && s.users[k].email == email ==>
        if compare(password.value, s.users[k].password) then
          r == Reply(200, TokenIssued(sign(LoginPayload(k, s.users[k].role)), Some(RoleName(s.users[k].role))))
        else
          r == WrongCredentials
  {
    var errs := LoginErrors(email, password, isEmail);
    if errs != [] {
      return Reply(400, Invalid(None, errs));
    }
    if !exists k :: k in s.users && s.users[k].email == email {
      return WrongCredentials;
    }
    var k :| k in s.users && s.users[k].email == email;
    var user := s.users[k];
    if !compare(password.value, user.password) {
      return WrongCredentials;
    }
    r := Reply(200, TokenIssued(sign(LoginPayload(k, user.role)), Some(RoleName(user.role))));
  }

  /** A login token presented as "Bearer <token>" authenticates as the
      user's id and stored role, provided verification inverts signing and
      the token holds no space. */
  lemma LoginTokenAuthenticates(id: Id, role: Role, sign: Payload -> string, verify: Verifier)
    requires verify(sign(LoginPayload(id, role))) == Some(LoginPayload(id, role))
    requires ' ' !in sign(LoginPayload(id, role)) && sign(LoginPayload(id, role)) != ""
    ensures Authenticate(Some("Bearer " + sign(LoginPayload(id, role))), verify)
         == Next(Claims(id, Some(RoleName(role))))
  {
    BearerToken("Bearer", sign(LoginPayload(id, role)));
    assert "Bearer" + " " == "Bearer ";
    assert "Bearer " + sign(LoginPayload(id, role)) == "Bearer" + " " + sign(LoginPayload(id, role));
  }

  /** A registration token authenticates as the new user's id with no role claim. */
  lemma RegisterTokenAuthenticates(id: Id, sign: Payload -> string, verify: Verifier)
    requires verify(sign(RegisterPayload(id))) == Some(RegisterPayload(id))
    requires ' ' !in sign(RegisterPayload(id)) && sign(RegisterPayload(id)) != ""
    ensures Authenticate(Some("Bearer " + sign(RegisterPayload(id))), verify) == Next(Claims(id, None))
  {
    BearerToken("Bearer", sign(RegisterPayload(id)));
    assert "Bearer " + sign(RegisterPayload(id)) == "Bearer" + " " + sign(RegisterPayload(id));
  }
}

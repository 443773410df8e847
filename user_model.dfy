/** The User collection: credential holders with exactly one role. */
module UserModel {
  import opened Common

  datatype Role = Manager | PantryStaff | DeliveryPersonnel

  /** The string stored for a role (the schema's enum values). */
  function RoleName(role: Role): (name: string)
    ensures ParseRole(name) == Some(role)
  {
    match role
    case Manager => "Manager"
    case PantryStaff => "PantryStaff"
    case DeliveryPersonnel => "DeliveryPersonnel"
  }

  /** The role a string names, if it is one of the enum values. */
  function ParseRole(s: string): (role: Option<Role>)
    ensures role.Some? <==> s == "Manager" || s == "PantryStaff" || s == "DeliveryPersonnel"
  {
    if s == "Manager" then Some(Manager)
    else if s == "PantryStaff" then Some(PantryStaff)
    else if s == "DeliveryPersonnel" then Some(DeliveryPersonnel)
    else None
  }

  /** Parsing only accepts the exact enum strings: the role found is named by
      the string that was parsed. */
  lemma ParsedRoleNamesItself(s: string)
    requires ParseRole(s).Some?
    ensures RoleName(ParseRole(s).value) == s
  {
  }

  /** The display name a user gets when none is given: two named roles get
      their own name and every other role string falls through to the
      delivery name. */
  function DefaultName(role: string): (name: string)
    ensures role == "Manager" ==> name == "Hospital Manager"
    ensures role == "PantryStaff" ==> name == "Pantry Staff"
    ensures role != "Manager" && role != "PantryStaff" ==> name == "Delivery Personnel"
  {
    if role == "Manager" then "Hospital Manager"
    else if role == "PantryStaff" then "Pantry Staff"
    else "Delivery Personnel"
  }

  /** The three roles get three different default names. */
  lemma DefaultNamesDistinct(a: Role, b: Role)
    requires a != b
    ensures DefaultName(RoleName(a)) != DefaultName(RoleName(b))
  {
  }

  const NoContactInfo := "Not Provided"

  datatype User = User(name: string, email: string, password: string, role: Role, contactInfo: string)

  /** User.create: None when a required string (email, password) is empty;
      otherwise the document with the name and contact defaults filled in. */
  function NewUser(name: Option<string>, email: string, password: string, role: Role,
                   contactInfo: Option<string>): (u: Option<User>)
    ensures u.Some? <==> email != "" && password != ""
    ensures u.Some? ==> u.value.email == email && u.value.password == password && u.value.role == role
    ensures u.Some? && name.Some? ==> u.value.name == name.value
    ensures u.Some? && name.None? ==> u.value.name == DefaultName(RoleName(role))
    ensures u.Some? && contactInfo.Some? ==> u.value.contactInfo == contactInfo.value
    ensures u.Some? && contactInfo.None? ==> u.value.contactInfo == NoContactInfo
  {
    if email == "" || password == "" then None
    else
      var displayName := if name.Some? then name.value else DefaultName(RoleName(role));
      var contact := if contactInfo.Some? then contactInfo.value else NoContactInfo;
      Some(User(displayName, email, password, role, contact))
  }
}

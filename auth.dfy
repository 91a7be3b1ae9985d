/** Sign-in and sign-out: the ordered checks of a sign-in attempt against the
    looked-up user record, and the signed-in user held by the session. The
    password is compared as plain text, exactly as the stored field is. */
module Auth {
  import opened Text

  /** The role a sign-in form asks for. */
  datatype Role = Admin | Employee

  function RoleName(r: Role): string {
    match r
    case Admin => "admin"
    case Employee => "employee"
  }

  /** A row of the users table; `role` is whatever string is stored. */
  datatype UserRecord = UserRecord(
    id: string,
    email: string,
    username: string,
    passwordHash: string,
    role: string,
    createdAt: int,
    updatedAt: int)

  /** The signed-in user: the record without its password. */
  datatype User = User(id: string, email: string, username: string, role: string, createdAt: int, updatedAt: int)

  /** What looking a username up in the store can give. */
  datatype Lookup =
    | QueryError          // the store answered with an error
    | Threw               // the call itself raised
    | NotFound
    | Found(record: UserRecord)

  datatype SignInResult = SignedIn(user: User) | Rejected(message: string)

  const LookupFailedMessage := "An error occurred during sign in"
  const BadCredentialsMessage := "Invalid username or password"
  const EmployeeAsAdminMessage := "Invalid credentials. Employees cannot sign in as admin."
  const WrongRoleMessage := "Invalid role selected for this account"
  const UnexpectedMessage := "An unexpected error occurred"

  function UserOf(r: UserRecord): User {
    User(r.id, r.email, r.username, r.role, r.createdAt, r.updatedAt)
  }

  /** The checks of a sign-in attempt, in order: the lookup, the username,
      the password, then the role. */
  function Decide(lookup: Lookup, password: string, role: Role): (r: SignInResult)
    ensures r.SignedIn? <==> lookup.Found? && lookup.record.passwordHash == password && lookup.record.role == RoleName(role)
    ensures r.SignedIn? ==> r.user == UserOf(lookup.record)
  {
    match lookup
    case QueryError => Rejected(LookupFailedMessage)
    case Threw => Rejected(UnexpectedMessage)
    case NotFound => Rejected(BadCredentialsMessage)
    case Found(rec) =>
      if rec.passwordHash != password then Rejected(BadCredentialsMessage)
      else if rec.role != RoleName(role) then
        if role == Admin && rec.role == "employee" then Rejected(EmployeeAsAdminMessage)
        else Rejected(WrongRoleMessage)
      else SignedIn(UserOf(rec))
  }

  /** An unknown username and a wrong password are reported alike, so the
      message does not reveal which usernames exist; a wrong password is
      reported before a wrong role. */
  lemma UnknownUserLooksLikeWrongPassword(rec: UserRecord, password: string, role: Role, role': Role)
    requires rec.passwordHash != password
    ensures Decide(NotFound, password, role) == Decide(Found(rec), password, role')
    ensures Decide(NotFound, password, role).message == BadCredentialsMessage
  {
  }

  /** With the right password and the wrong role, an employee account asked
      to sign in as admin gets its own message; every other mismatch gets
      the generic one. */
  lemma RoleMismatchMessage(rec: UserRecord, role: Role)
    requires rec.role != RoleName(role)
    ensures var r := Decide(Found(rec), rec.passwordHash, role);
      r.Rejected? && r.message == (if role == Admin && rec.role == "employee" then EmployeeAsAdminMessage else WrongRoleMessage)
  {
  }

  /** A failed lookup is reported as such, never as bad credentials. */
  lemma LookupErrorMessage(password: string, role: Role)
    ensures Decide(QueryError, password, role) == Rejected(LookupFailedMessage)
    ensures Decide(QueryError, password, role) != Decide(NotFound, password, role)
  {
  }

  /** Who is signed in. `loading` holds until the saved session has been
      read back. */
  class AuthState {
    var user: Option<User>
    var loading: bool

    constructor ()
      ensures user == None && loading
    {
      user, loading := None, true;
    }

    /** Start-up: a user saved by an earlier sign-in is restored; loading
        ends either way. */
    method Restore(saved: Option<User>)
      modifies this
      ensures user == (if saved.Some? then saved else old(user))
      ensures !loading
    {
      if saved.Some? {
        user := saved;
      }
      loading := false;
    }

    /** A sign-in attempt: the user is set exactly when the checks pass, and
        left alone otherwise. */
    method SignIn(lookup: Lookup, password: string, role: Role) returns (success: bool, error: Option<string>)
      modifies this
      ensures success <==> Decide(lookup, password, role).SignedIn?
      ensures success ==> user == Some(Decide(lookup, password, role).user) && error == None
      ensures !success ==> user == old(user) && error == Some(Decide(lookup, password, role).message)
      ensures loading == old(loading)
    {
      var r := Decide(lookup, password, role);
      match r
      case SignedIn(u) =>
        user := Some(u);
        success, error := true, None;
      case Rejected(m) =>
        success, error := false, Some(m);
    }

    /** Sign-out forgets the user. */
    method SignOut()
      modifies this
      ensures user == None && loading == old(loading)
    {
      user := None;
    }
  }
}

/** Registration, login and the bearer-token check. Password hashing and token
    encoding belong to external libraries and are passed in as functions:
    `hash` and `verify` for the bcrypt context, `issue` for encoding a token
    whose subject is a user id, `decode` for decoding one. */
module Auth {
  import opened Wrappers
  import opened Time
  import opened Http
  import opened Models
  import opened Store

  /** The claims of a decoded token that the handlers read. */
  datatype Claims = Claims(sub: Option<int>)

  datatype LoginResponse = LoginResponse(accessToken: string, tokenType: string, user: UserOut)

  function ToOut(u: User): UserOut
  {
    UserOut(u.id, u.email, u.fullName, u.createdAt)
  }

  predicate EmailRegistered(users: seq<User>, email: string)
  {
    exists i :: 0 <= i < |users| && users[i].email == email
  }

  method Register(db: Database, req: UserCreate, hash: string -> string, now: DateTime)
    returns (r: Result<UserOut, HttpError>)
    requires db.Valid()
    modifies db
    ensures db.Valid()
    ensures db.categories == old(db.categories) && db.transactions == old(db.transactions)
    ensures db.budgets == old(db.budgets)
    ensures EmailRegistered(old(db.users), req.email) ==>
              r == Err(EmailTaken) && db.users == old(db.users)
    ensures !EmailRegistered(old(db.users), req.email) ==>
              && r.Ok?
              && (forall u :: u in old(db.users) ==> u.id != r.value.id)
              && db.users == old(db.users) + [User(r.value.id, req.email, hash(req.password), req.fullName, now)]
              && r.value == UserOut(r.value.id, req.email, req.fullName, now)
  {
    var existing := FirstIndex(db.users, (u: User) => u.email == req.email);
    if existing.Some? {
      return Err(EmailTaken);
    }
    var id := NextId(db.users, (u: User) => u.id);
    var user := User(id, req.email, hash(req.password), req.fullName, now);
    db.users := db.users + [user];
    r := Ok(ToOut(user));
  }

  /** Unknown email and wrong password fail with the same error. */
  function Login(users: seq<User>, email: string, password: string,
                 verify: (string, string) -> bool, issue: int -> string): (r: Result<LoginResponse, HttpError>)
    ensures r.Err? ==> r.error == IncorrectLogin
    ensures r.Ok? ==> exists i :: 0 <= i < |users| && users[i].email == email
                        && verify(password, users[i].hashedPassword)
                        && r.value == LoginResponse(issue(users[i].id), "bearer", ToOut(users[i]))
    ensures !EmailRegistered(users, email) ==> r.Err?
  {
    match FirstIndex(users, (u: User) => u.email == email)
    case None => Err(IncorrectLogin)
    case Some(i) =>
      if !verify(password, users[i].hashedPassword) then Err(IncorrectLogin)
      else Ok(LoginResponse(issue(users[i].id), "bearer", ToOut(users[i])))
  }

  /** With unique emails, login succeeds exactly when the password verifies
      against the hash stored for that email. */
  lemma LoginSucceedsIff(users: seq<User>, email: string, password: string,
                         verify: (string, string) -> bool, issue: int -> string)
    requires UniqueEmails(users)
    ensures Login(users, email, password, verify, issue).Ok?
        <==> exists i :: 0 <= i < |users| && users[i].email == email && verify(password, users[i].hashedPassword)
  {
    var found := FirstIndex(users, (u: User) => u.email == email);
    if found.Some? {
      var i := found.value;
      assert forall j :: 0 <= j < |users| && users[j].email == email ==> j == i;
    }
  }

  /** `Depends(get_current_user)`: the token must decode, carry a subject, and
      name an existing user. */
  function GetCurrentUser(users: seq<User>, token: string, decode: string -> Option<Claims>): (r: Result<User, HttpError>)
    ensures r.Ok? <==> decode(token).Some? && decode(token).value.sub.Some?
                       && exists i :: 0 <= i < |users| && users[i].id == decode(token).value.sub.value
    ensures r.Ok? ==> r.value in users && r.value.id == decode(token).value.sub.value
    ensures r.Err? ==> r.error == InvalidCredentials
  {
    match decode(token)
    case None => Err(InvalidCredentials)
    case Some(claims) =>
      match claims.sub
      case None => Err(InvalidCredentials)
      case Some(uid) =>
        match FirstIndex(users, (u: User) => u.id == uid)
        case None => Err(InvalidCredentials)
        case Some(i) => Ok(users[i])
  }

  /** A token from a successful login authenticates the user who logged in,
      provided the token codec gives back the subject it was issued for. */
  lemma LoginTokenAuthenticates(users: seq<User>, email: string, password: string,
                                verify: (string, string) -> bool, issue: int -> string,
                                decode: string -> Option<Claims>)
    requires forall i :: 0 <= i < |users| ==> decode(issue(users[i].id)) == Some(Claims(Some(users[i].id)))
    requires forall i, j :: 0 <= i < j < |users| ==> users[i].id != users[j].id
    requires Login(users, email, password, verify, issue).Ok?
    ensures var login := Login(users, email, password, verify, issue).value;
            var me := GetCurrentUser(users, login.accessToken, decode);
            me.Ok? && ToOut(me.value) == login.user && me.value.email == email
  {
    var login := Login(users, email, password, verify, issue).value;
    var i :| 0 <= i < |users| && users[i].email == email && verify(password, users[i].hashedPassword)
             && login == LoginResponse(issue(users[i].id), "bearer", ToOut(users[i]));
    var me := GetCurrentUser(users, login.accessToken, decode);
    assert me.Ok?;
    var j :| 0 <= j < |users| && users[j] == me.value;
    assert j == i;
  }
}

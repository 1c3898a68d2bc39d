/**
 * The account handlers of server/Routes/auth.ts. Password hashing and checking
 * (bcrypt) are the parameters `hash` and `matches`.
 */
module AuthRoutes {
  import opened Wrappers
  import opened Store

  /** The user object a reply carries: never the password. */
  datatype UserInfo = UserInfo(username: string, email: string, id: Id)

  function Info(u: UserDoc): UserInfo {
    UserInfo(u.username, u.email, u.id)
  }

  /** `findOne({ $or: [{ username }, { email }] })` */
  function FindByNameOrEmail(users: seq<UserDoc>, username: string, email: string): (r: Option<nat>)
    ensures r.None? <==> forall i :: 0 <= i < |users| ==> users[i].username != username && users[i].email != email
    ensures r.Some? ==> r.value < |users| && (users[r.value].username == username || users[r.value].email == email)
    ensures r.Some? ==> forall j :: 0 <= j < r.value ==> users[j].username != username && users[j].email != email
  {
    FindFirst(users, (u: UserDoc) => u.username == username || u.email == email)
  }

  /** `findOne({ email })` */
  function FindByEmail(users: seq<UserDoc>, email: string): (r: Option<nat>)
    ensures r.None? <==> forall i :: 0 <= i < |users| ==> users[i].email != email
    ensures r.Some? ==> r.value < |users| && users[r.value].email == email
    ensures r.Some? ==> forall j :: 0 <= j < r.value ==> users[j].email != email
  {
    FindFirst(users, (u: UserDoc) => u.email == email)
  }

  /** `/signup`: the first user with that name or address decides the conflict; `newId` is the new user's id. */
  function Signup(users: seq<UserDoc>, username: string, email: string, password: string,
                  hash: string -> string, newId: Id): (r: (Reply<UserInfo>, seq<UserDoc>))
    ensures r.0.Ok? <==> FindByNameOrEmail(users, username, email).None?
    ensures r.0.Ok? ==>
      r == (Ok(201, UserInfo(username, email, newId)), users + [UserDoc(newId, username, email, hash(password), [])])
    ensures !r.0.Ok? ==> r.1 == users
    ensures FindByNameOrEmail(users, username, email).Some? ==>
      var u := users[FindByNameOrEmail(users, username, email).value];
      r.0 == if u.email == email then Err(400, "Email already exists") else Err(400, "Username already exists")
  {
    match FindByNameOrEmail(users, username, email)
    case Some(i) =>
      if users[i].email == email then (Err(400, "Email already exists"), users)
      else (Err(400, "Username already exists"), users)
    case None =>
      var u := UserDoc(newId, username, email, hash(password), []);
      (Ok(201, Info(u)), users + [u])
  }

  /** `/signin`: an unknown address and a wrong password get the same answer. */
  function Signin(users: seq<UserDoc>, email: Option<string>, password: Option<string>,
                  matches: (string, string) -> bool): (r: Reply<UserInfo>)
    ensures !Present(email) || !Present(password) ==> r == Err(400, "Email and password are required")
    ensures r.Ok? <==>
      && Present(email) && Present(password)
      && FindByEmail(users, email.value).Some?
      && matches(password.value, users[FindByEmail(users, email.value).value].password)
    ensures r.Ok? ==> r == Ok(200, Info(users[FindByEmail(users, email.value).value]))
    ensures Present(email) && Present(password) && !r.Ok? ==> r == Err(401, "Invalid credentials!")
  {
    if !Present(email) || !Present(password) then Err(400, "Email and password are required")
    else match FindByEmail(users, email.value)
      case None => Err(401, "Invalid credentials!")
      case Some(i) =>
        if !matches(password.value, users[i].password) then Err(401, "Invalid credentials!")
        else Ok(200, Info(users[i]))
  }

  predicate NameIs(u: UserDoc, name: Option<string>) { name.Some? && u.username == name.value }
  predicate EmailIs(u: UserDoc, email: Option<string>) { email.Some? && u.email == email.value }

  datatype Existence = Existence(exists_: bool, message: string)

  /** `/check-user`; an absent field matches no user. */
  function CheckUser(users: seq<UserDoc>, username: Option<string>, email: Option<string>): (r: Reply<Existence>)
    ensures !Present(username) && !Present(email) <==> r == Err(400, "(email or username) is required")
    ensures r.Ok? ==> r.status == 200
    ensures r.Ok? ==> (r.body.exists_ <==>
      exists i :: 0 <= i < |users| && (NameIs(users[i], username) || EmailIs(users[i], email)))
    ensures r.Ok? ==> r.body.message == if r.body.exists_ then "User exists" else "User not found"
  {
    if !Present(username) && !Present(email) then Err(400, "(email or username) is required")
    else
      var found := FindFirst(users, (u: UserDoc) => NameIs(u, username) || EmailIs(u, email));
      Ok(200, Existence(found.Some?, if found.Some? then "User exists" else "User not found"))
  }

  datatype Validity = Validity(valid: bool, message: string)

  /**
   * `/validate-credentials`: only a request with neither field is refused; a
   * found user with no password makes bcrypt throw.
   */
  function ValidateCredentials(users: seq<UserDoc>, email: Option<string>, password: Option<string>,
                               matches: (string, string) -> bool): (r: Reply<Validity>)
    ensures r == Err(400, "Email and password are required") <==> !Present(email) && !Present(password)
    ensures (Present(email) || Present(password)) && (email.None? || FindByEmail(users, email.value).None?) ==>
      r == Ok(200, Validity(false, "User not found"))
    ensures r.Ok? && r.body.valid ==>
      && email.Some? && password.Some?
      && FindByEmail(users, email.value).Some?
      && matches(password.value, users[FindByEmail(users, email.value).value].password)
    ensures (Present(email) || Present(password)) && email.Some? && FindByEmail(users, email.value).Some? && password.Some? ==>
      var ok := matches(password.value, users[FindByEmail(users, email.value).value].password);
      r == Ok(200, Validity(ok, if ok then "Credentials are valid" else "Invalid password"))
    ensures r == Unhandled <==>
      && (Present(email) || Present(password))
      && email.Some? && FindByEmail(users, email.value).Some? && password.None?
  {
    if !Present(email) && !Present(password) then Err(400, "Email and password are required")
    else if email.None? then Ok(200, Validity(false, "User not found"))
    else match FindByEmail(users, email.value)
      case None => Ok(200, Validity(false, "User not found"))
      case Some(i) =>
        if password.None? then Unhandled
        else
          var ok := matches(password.value, users[i].password);
          Ok(200, Validity(ok, if ok then "Credentials are valid" else "Invalid password"))
  }

  method SignupUser(db: Database, username: string, email: string, password: string,
                    hash: string -> string, newId: Id) returns (reply: Reply<UserInfo>)
    modifies db
    ensures (reply, db.users) == Signup(old(db.users), username, email, password, hash, newId)
    ensures db.projects == old(db.projects) && db.tasks == old(db.tasks) && db.otps == old(db.otps)
  {
    var r := Signup(db.users, username, email, password, hash, newId);
    reply := r.0;
    db.users := r.1;
  }

  // ---------------------------------------------------------------------------
  // Properties
  // ---------------------------------------------------------------------------

  /** An address that is already registered can never sign up again, whichever message is given. */
  lemma TakenEmailIsRefused(users: seq<UserDoc>, i: nat, username: string, password: string,
                            hash: string -> string, newId: Id)
    requires i < |users|
    ensures Signup(users, username, users[i].email, password, hash, newId).0.Err?
    ensures Signup(users, username, users[i].email, password, hash, newId).1 == users
  {
  }

  /** After a successful signup the same address and password sign in, as the new user. */
  lemma {:induction false} SignupThenSignin(users: seq<UserDoc>, username: string, email: string, password: string,
                                            hash: string -> string, matches: (string, string) -> bool, newId: Id)
    requires Signup(users, username, email, password, hash, newId).0.Ok?
    requires email != "" && password != "" && matches(password, hash(password))
    ensures Signin(Signup(users, username, email, password, hash, newId).1, Some(email), Some(password), matches)
      == Ok(200, UserInfo(username, email, newId))
  {
    var users' := Signup(users, username, email, password, hash, newId).1;
    assert users'[|users|].email == email;
    assert forall i :: 0 <= i < |users| ==> users'[i] == users[i];
    assert FindByEmail(users', email) == Some(|users|);
  }

  /** An unknown address and a wrong password cannot be told apart. */
  lemma {:induction false} FailuresLookAlike(users: seq<UserDoc>, unknown: string, i: nat, wrong: string,
                                             matches: (string, string) -> bool)
    requires unknown != "" && wrong != "" && FindByEmail(users, unknown).None?
    requires i < |users| && users[i].email != "" && FindByEmail(users, users[i].email) == Some(i)
    requires !matches(wrong, users[i].password)
    ensures Signin(users, Some(unknown), Some(wrong), matches) == Signin(users, Some(users[i].email), Some(wrong), matches)
  {
  }
}

/** The `/invite` handler of server/Routes/user.ts: add a project to a user's member list. */
module UserRoutes {
  import opened Wrappers
  import opened Store

  /** `/invite`: the reply and the users afterwards. */
  function Invite(users: seq<UserDoc>, projects: map<Id, ProjectDoc>, userId: Option<string>, projectId: Option<string>)
    : (r: (Reply<string>, seq<UserDoc>))
    ensures !Present(userId) || !Present(projectId) || !IsValidObjectId(userId.value) || !IsValidObjectId(projectId.value) ==>
      r == (Err(400, "Invalid or missing userId/projectId"), users)
    ensures r.0 == Err(400, "Invalid or missing userId/projectId") ==>
      !Present(userId) || !Present(projectId) || !IsValidObjectId(userId.value) || !IsValidObjectId(projectId.value)
    ensures (Present(userId) && Present(projectId) && IsValidObjectId(userId.value) && IsValidObjectId(projectId.value) &&
             IndexOfUser(users, userId.value).Some? && projectId.value in projects) ==>
      r.0 == if projectId.value in users[IndexOfUser(users, userId.value).value].projects
             then Ok(200, "User is Already Member") else Ok(200, "User successfully Added")
    ensures r.0 == Err(404, "User not found") <==>
      Present(userId) && Present(projectId) && IsValidObjectId(userId.value) && IsValidObjectId(projectId.value) &&
      IndexOfUser(users, userId.value).None?
    ensures r.0 == Err(404, "Project not found") <==>
      Present(userId) && Present(projectId) && IsValidObjectId(userId.value) && IsValidObjectId(projectId.value) &&
      IndexOfUser(users, userId.value).Some? && projectId.value !in projects
    ensures r.0 != Ok(200, "User successfully Added") ==> r.1 == users
    ensures r.0.Ok? ==> Present(userId) && Present(projectId) && IndexOfUser(users, userId.value).Some?
    ensures r.0.Ok? ==>
      var i := IndexOfUser(users, userId.value).value;
      var ps := users[i].projects;
      && (r.0 == Ok(200, "User is Already Member") <==> projectId.value in ps)
      && (r.0 == Ok(200, "User successfully Added") ==> r.1 == users[i := users[i].(projects := ps + [projectId.value])])
  {
    if !Present(userId) || !Present(projectId) || !IsValidObjectId(userId.value) || !IsValidObjectId(projectId.value) then
      (Err(400, "Invalid or missing userId/projectId"), users)
    else match IndexOfUser(users, userId.value)
      case None => (Err(404, "User not found"), users)
      case Some(i) =>
        if projectId.value !in projects then (Err(404, "Project not found"), users)
        else if projectId.value in users[i].projects then (Ok(200, "User is Already Member"), users)
        else (Ok(200, "User successfully Added"), users[i := users[i].(projects := users[i].projects + [projectId.value])])
  }

  method InviteUser(db: Database, userId: Option<string>, projectId: Option<string>) returns (reply: Reply<string>)
    modifies db
    ensures (reply, db.users) == Invite(old(db.users), old(db.projects), userId, projectId)
    ensures db.projects == old(db.projects) && db.tasks == old(db.tasks) && db.otps == old(db.otps)
  {
    var r := Invite(db.users, db.projects, userId, projectId);
    reply := r.0;
    db.users := r.1;
  }

  /** An accepted invite leaves the project in the user's list exactly as `$addToSet` would. */
  lemma InviteIsAddToSet(users: seq<UserDoc>, projects: map<Id, ProjectDoc>, userId: Id, projectId: Id)
    requires Invite(users, projects, Some(userId), Some(projectId)).0.Ok?
    ensures IndexOfUser(users, userId).Some?
    ensures var i := IndexOfUser(users, userId).value;
      Invite(users, projects, Some(userId), Some(projectId)).1 == users[i := users[i].(projects := AddToSet(users[i].projects, projectId))]
  {
  }

  /** Inviting twice leaves the same users as inviting once, and the second reply says the user is a member. */
  lemma {:induction false} InviteIdempotent(users: seq<UserDoc>, projects: map<Id, ProjectDoc>, userId: Id, projectId: Id)
    requires Invite(users, projects, Some(userId), Some(projectId)).0.Ok?
    ensures var once := Invite(users, projects, Some(userId), Some(projectId)).1;
      var twice := Invite(once, projects, Some(userId), Some(projectId));
      twice == (Ok(200, "User is Already Member"), once)
  {
    var i := IndexOfUser(users, userId).value;
    var once := Invite(users, projects, Some(userId), Some(projectId)).1;
    assert |once| == |users| && once[i].id == userId;
    assert forall j :: 0 <= j < i ==> once[j] == users[j];
    assert IndexOfUser(once, userId) == Some(i);
    assert projectId in once[i].projects;
  }
}

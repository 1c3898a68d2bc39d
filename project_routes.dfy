/**
 * The project REST handlers (server/Routes/project.ts): `/save` creates or edits
 * a project, `/list` attaches progress and member counts to a user's projects,
 * `/stats` counts them by status, and `DELETE /:projectId` removes one.
 */
module ProjectRoutes {
  import opened Wrappers
  import opened Store
  import opened Seqs

  /** The body of a `/save` request; `None` is a field the request leaves out. */
  datatype SaveRequest = SaveRequest(
    id: Option<string>,
    key: Option<string>,
    name: Option<string>,
    description: Option<string>,
    createdBy: Option<string>,
    avatarUrl: Option<string>,
    status: Option<ProjectStatus>)

  /** Another project than `except` already uses `key` (the unique index on `key`). */
  predicate KeyTaken(projects: map<Id, ProjectDoc>, key: string, except: Id) {
    exists p :: p in projects && p != except && projects[p].key == key
  }

  /** The state the handlers read and write. */
  datatype State = State(projects: map<Id, ProjectDoc>, users: seq<UserDoc>)

  /** The creator's `projects` after `$addToSet`; no user with that id means no change. */
  function AddToCreator(users: seq<UserDoc>, creator: Id, p: Id): (r: seq<UserDoc>)
    ensures |r| == |users|
    ensures forall i :: 0 <= i < |users| && users[i].id != creator ==> r[i] == users[i]
    ensures forall i :: 0 <= i < |users| && users[i].id == creator ==>
      r[i] == users[i].(projects := AddToSet(users[i].projects, p))
  {
    seq(|users|, i requires 0 <= i < |users| =>
      if users[i].id == creator then users[i].(projects := AddToSet(users[i].projects, p)) else users[i])
  }

  /** `/save`. `newId` is the id the database gives a new project. */
  function Save(st: State, q: SaveRequest, newId: Id): (r: (Reply<ProjectDoc>, State))
    ensures !Present(q.key) || !Present(q.name) || !Present(q.createdBy) ==>
      r == (Err(400, "key, ProjectName, and Assignee  are required"), st)
    ensures !r.0.Ok? ==> r.1 == st
    ensures Present(q.key) && Present(q.name) && Present(q.createdBy) && !Present(q.id) ==>
      (r.0.Ok? <==> IsValidObjectId(q.createdBy.value) && !KeyTaken(st.projects, q.key.value, newId) && newId !in st.projects)
    ensures r.0.Ok? && !Present(q.id) ==>
      && r.0.status == 201
      && newId !in st.projects
      && r.1.projects == st.projects[newId := r.0.body]
      && r.0.body == ProjectDoc(q.key.value, q.name.value, q.description.GetOr(""), q.createdBy.value,
                                q.avatarUrl.GetOr(""), q.status.GetOr(Active))
      && r.1.users == AddToCreator(st.users, q.createdBy.value, newId)
    ensures Present(q.key) && Present(q.name) && Present(q.createdBy) && Present(q.id) ==>
      if !IsValidObjectId(q.id.value) then r.0 == Err(400, "Invalid _id")
      else if q.id.value !in st.projects then r.0 == Err(404, "Project not found")
      else if KeyTaken(st.projects, q.key.value, q.id.value) then r.0 == Unhandled
      else
        var old_ := st.projects[q.id.value];
        var doc := old_.(key := q.key.value, name := q.name.value,
                         description := q.description.GetOr(old_.description),
                         status := q.status.GetOr(old_.status));
        r.0 == Ok(200, doc) && r.1 == st.(projects := st.projects[q.id.value := doc])
  {
    if !Present(q.key) || !Present(q.name) || !Present(q.createdBy) then
      (Err(400, "key, ProjectName, and Assignee  are required"), st)
    else if !Present(q.id) then
      // `save()` fails on a non-ObjectId creator, a duplicate key or a taken id
      if !IsValidObjectId(q.createdBy.value) || KeyTaken(st.projects, q.key.value, newId) || newId in st.projects then
        (Unhandled, st)
      else
        var doc := ProjectDoc(q.key.value, q.name.value, q.description.GetOr(""), q.createdBy.value,
                              q.avatarUrl.GetOr(""), q.status.GetOr(Active));
        (Ok(201, doc), State(st.projects[newId := doc], AddToCreator(st.users, q.createdBy.value, newId)))
    else if !IsValidObjectId(q.id.value) then
      (Err(400, "Invalid _id"), st)
    else if q.id.value !in st.projects then
      (Err(404, "Project not found"), st)
    else if KeyTaken(st.projects, q.key.value, q.id.value) then
      (Unhandled, st)
    else
      var old_ := st.projects[q.id.value];
      var doc := old_.(key := q.key.value, name := q.name.value,
                       description := q.description.GetOr(old_.description),
                       status := q.status.GetOr(old_.status));
      (Ok(200, doc), st.(projects := st.projects[q.id.value := doc]))
  }

  /** The ids of the tasks of project `p`. */
  function TasksOf(tasks: map<Id, TaskFields>, p: Id): set<Id> {
    set k | k in tasks && tasks[k].project == Some(p)
  }

  /** The ids of the tasks of project `p` whose status is done. */
  function DoneTasksOf(tasks: map<Id, TaskFields>, p: Id): set<Id> {
    set k | k in tasks && tasks[k].project == Some(p) && tasks[k].status == Some(Done)
  }

  /** `Math.round(done / total * 100)`, or 0 without tasks, in exact arithmetic. */
  function ProgressPercent(done: nat, total: nat): (r: nat)
    ensures total == 0 ==> r == 0
    ensures total > 0 ==> -(total as int) <= 2 * (100 * done - r * total) < total
    ensures done <= total ==> r <= 100
  {
    if total > 0 then
      var n, m := 200 * done + total, 2 * total;
      var q := n / m;
      assert n == m * q + n % m && 0 <= n % m < m;
      assert m * q == 2 * (q * total);
      assert done <= total ==> q <= 100 by {
        if done <= total && q > 100 {
          ProductGrows(q, 101, total);
        }
      }
      q
    else 0
  }

  lemma ProductGrows(a: int, b: int, c: nat)
    requires a >= b
    ensures a * c >= b * c
  {
    assert a * c - b * c == (a - b) * c;
  }

  /** `memberCountMap[id] || 0`: the aggregated count, 0 for a project without one. */
  function MemberCount(counts: map<Id, int>, p: Id): (r: int)
    ensures p !in counts ==> r == 0
    ensures p in counts ==> r == counts[p]
  {
    if p in counts && counts[p] != 0 then counts[p] else 0
  }

  /** One project of the `/list` reply. */
  datatype ListEntry = ListEntry(project: ProjectDoc, progress: nat, memberCount: int)

  /** A project's tasks done bounds its tasks. */
  lemma DoneWithinTasks(tasks: map<Id, TaskFields>, p: Id)
    ensures |DoneTasksOf(tasks, p)| <= |TasksOf(tasks, p)|
  {
    SubsetSize(DoneTasksOf(tasks, p), TasksOf(tasks, p));
  }

  /**
   * `/list`: the user's existing projects, keyed by id, each with its progress
   * and member count; `counts` is the result of the member-count aggregation.
   */
  function List(st: State, tasks: map<Id, TaskFields>, counts: map<Id, int>, userId: Option<string>)
    : (r: Reply<map<Id, ListEntry>>)
    ensures !Present(userId) || !IsValidObjectId(userId.value) ==> r == Err(400, "Invalid or missing userId")
    ensures Present(userId) && IsValidObjectId(userId.value) ==>
      (r == Err(404, "User not found") <==> IndexOfUser(st.users, userId.value).None?)
    ensures r.Ok? ==> r.status == 200 && Present(userId) && IndexOfUser(st.users, userId.value).Some?
    ensures r.Ok? ==>
      var u := st.users[IndexOfUser(st.users, userId.value).value];
      && (forall p :: p in r.body <==> p in st.projects && p in u.projects)
      && (forall p :: p in r.body ==> r.body[p].project == st.projects[p] && r.body[p].progress <= 100)
      && (forall p :: p in r.body ==> r.body[p] == Entry(st.projects[p], p, tasks, counts))
      && (forall p :: p in r.body && TasksOf(tasks, p) == {} ==> r.body[p].progress == 0)
      && (forall p :: p in r.body && p !in counts ==> r.body[p].memberCount == 0)
  {
    if !Present(userId) || !IsValidObjectId(userId.value) then Err(400, "Invalid or missing userId")
    else match IndexOfUser(st.users, userId.value)
      case None => Err(404, "User not found")
      case Some(i) =>
        var u := st.users[i];
        Ok(200, map p | p in st.projects && p in u.projects :: Entry(st.projects[p], p, tasks, counts))
  }

  /** The `/list` entry of project `p`. */
  function Entry(d: ProjectDoc, p: Id, tasks: map<Id, TaskFields>, counts: map<Id, int>): (r: ListEntry)
    ensures r.project == d && r.progress <= 100
    ensures r.progress == ProgressPercent(|DoneTasksOf(tasks, p)|, |TasksOf(tasks, p)|)
    ensures r.memberCount == MemberCount(counts, p)
    ensures TasksOf(tasks, p) == {} ==> r.progress == 0
    ensures p !in counts ==> r.memberCount == 0
  {
    DoneWithinTasks(tasks, p);
    ListEntry(d, ProgressPercent(|DoneTasksOf(tasks, p)|, |TasksOf(tasks, p)|), MemberCount(counts, p))
  }

  /** The `/stats` counters (the average progress is not part of this model). */
  datatype ProjectStats = ProjectStats(totalProjects: nat, doneProjects: nat, activeProjects: nat)

  const NoStats := ProjectStats(0, 0, 0)

  /** The user's project ids that are valid ObjectIds and name an existing project. */
  function ExistingProjects(projects: map<Id, ProjectDoc>, u: UserDoc): set<Id> {
    set p | p in projects && p in u.projects && IsValidObjectId(p)
  }

  function WithStatus(projects: map<Id, ProjectDoc>, ids: set<Id>, s: ProjectStatus): set<Id> {
    set p | p in ids && p in projects && projects[p].status == s
  }

  /** Two disjoint subsets of a finite set together are no larger than it. */
  lemma {:induction false} DisjointSubsetsBound<T>(a: set<T>, b: set<T>, c: set<T>)
    requires a <= c && b <= c && a !! b
    ensures |a| + |b| <= |c|
  {
    assert |a + b| == |a| + |b|;
    SubsetSize(a + b, c);
  }

  /** `/stats`. */
  function Stats(st: State, userId: Option<string>): (r: Reply<ProjectStats>)
    ensures !Present(userId) || !IsValidObjectId(userId.value) ==> r == Err(400, "Invalid or missing userId")
    ensures Present(userId) && IsValidObjectId(userId.value) ==> r.Ok? && r.status == 200
    ensures Present(userId) && IsValidObjectId(userId.value) ==>
      var k := IndexOfUser(st.users, userId.value);
      (k.None? || st.users[k.value].projects == []) ==> r.body == NoStats
    ensures r.Ok? && IndexOfUser(st.users, userId.value).Some? ==>
      var u := st.users[IndexOfUser(st.users, userId.value).value];
      var e := ExistingProjects(st.projects, u);
      && r.body.totalProjects == |e|
      && r.body.doneProjects == |WithStatus(st.projects, e, Completed)|
      && r.body.activeProjects == |WithStatus(st.projects, e, Active)|
    ensures r.Ok? ==> r.body.doneProjects + r.body.activeProjects <= r.body.totalProjects
  {
    if !Present(userId) || !IsValidObjectId(userId.value) then Err(400, "Invalid or missing userId")
    else match IndexOfUser(st.users, userId.value)
      case None => Ok(200, NoStats)
      case Some(i) =>
        var u := st.users[i];
        if u.projects == [] then Ok(200, NoStats)
        else
          var e := ExistingProjects(st.projects, u);
          var done := WithStatus(st.projects, e, Completed);
          var active := WithStatus(st.projects, e, Active);
          DisjointSubsetsBound(done, active, e);
          Ok(200, ProjectStats(|e|, |done|, |active|))
  }

  /** `DELETE /:projectId`. */
  function Delete(st: State, id: string): (r: (Reply<ProjectDoc>, State))
    ensures !IsValidObjectId(id) ==> r == (Err(400, "Invalid Project ID"), st)
    ensures IsValidObjectId(id) && id !in st.projects ==> r == (Err(404, "Project not found"), st)
    ensures r.0.Ok? <==> IsValidObjectId(id) && id in st.projects
    ensures r.0.Ok? ==>
      && r.0.body == st.projects[id]
      && r.1.projects.Keys == st.projects.Keys - {id}
      && (forall p :: p in r.1.projects ==> r.1.projects[p] == st.projects[p])
    ensures r.1.users == st.users
  {
    if !IsValidObjectId(id) then (Err(400, "Invalid Project ID"), st)
    else if id !in st.projects then (Err(404, "Project not found"), st)
    else (Ok(200, st.projects[id]), st.(projects := st.projects - {id}))
  }

  method SaveProject(db: Database, q: SaveRequest, newId: Id) returns (reply: Reply<ProjectDoc>)
    modifies db
    ensures (reply, State(db.projects, db.users)) == Save(State(old(db.projects), old(db.users)), q, newId)
    ensures db.tasks == old(db.tasks) && db.otps == old(db.otps)
  {
    var r := Save(State(db.projects, db.users), q, newId);
    reply := r.0;
    db.projects, db.users := r.1.projects, r.1.users;
  }

  method DeleteProject(db: Database, id: string) returns (reply: Reply<ProjectDoc>)
    modifies db
    ensures (reply, State(db.projects, db.users)) == Delete(State(old(db.projects), old(db.users)), id)
    ensures db.tasks == old(db.tasks) && db.otps == old(db.otps)
  {
    var r := Delete(State(db.projects, db.users), id);
    reply := r.0;
    db.projects, db.users := r.1.projects, r.1.users;
  }

  // ---------------------------------------------------------------------------
  // Properties
  // ---------------------------------------------------------------------------

  /** Creating a project lists it once in its creator's projects, however often it is saved there. */
  lemma {:induction false} CreateAddsToCreatorOnce(st: State, q: SaveRequest, newId: Id, i: nat)
    requires Save(st, q, newId).0.Ok? && !Present(q.id)
    requires i < |st.users| && st.users[i].id == q.createdBy.value
    requires Distinct(st.users[i].projects)
    ensures var u := Save(st, q, newId).1.users[i];
      newId in u.projects && Distinct(u.projects) && u.projects[..|st.users[i].projects|] == st.users[i].projects
  {
    AddToSetKeepsDistinct(st.users[i].projects, newId);
  }

  /** An edit never touches the creator or the avatar. */
  lemma EditKeepsCreatorAndAvatar(st: State, q: SaveRequest, newId: Id)
    requires Present(q.id) && Save(st, q, newId).0.Ok?
    ensures q.id.value in st.projects
    ensures var d := Save(st, q, newId).1.projects[q.id.value];
      d.createdBy == st.projects[q.id.value].createdBy && d.avatarUrl == st.projects[q.id.value].avatarUrl
  {
  }

  /** All tasks done is 100%, none done is 0%. */
  lemma ProgressExtremes(total: nat)
    ensures ProgressPercent(0, total) == 0
    ensures ProgressPercent(total, total) == (if total == 0 then 0 else 100)
  {
    if total > 0 {
      var none, all := ProgressPercent(0, total), ProgressPercent(total, total);
      if none >= 1 {
        ProductGrows(none, 1, total);
      }
      if all <= 99 {
        ProductGrows(99, all, total);
      }
    }
  }
}

/**
 * The task REST handlers (server/Routes/task.ts): `/save` creates a task or
 * updates the fields a request supplies, `/status` patches the status, and
 * `DELETE /:id` removes a task. Each handler is a pure function from the task
 * collection and the request to the reply and the new collection, and a method
 * that performs it on the database.
 */
module TaskRoutes {
  import opened Wrappers
  import opened Store

  /** The stored value after a partial update of one field. */
  function MergeField<T>(stored: Option<T>, supplied: Option<T>): Option<T> {
    if supplied.Some? then supplied else stored
  }

  /** `findByIdAndUpdate(_id, updateData)` where `updateData` holds only the supplied fields. */
  function Merge(t: TaskFields, u: TaskFields): TaskFields {
    TaskFields(
      MergeField(t.title, u.title), MergeField(t.status, u.status),
      MergeField(t.summary, u.summary), MergeField(t.priority, u.priority),
      MergeField(t.assignee, u.assignee), MergeField(t.reporter, u.reporter),
      MergeField(t.dueDate, u.dueDate), MergeField(t.tags, u.tags),
      MergeField(t.progress, u.progress), MergeField(t.project, u.project))
  }

  /** A request that supplies no field at all. */
  const NoFields := TaskFields(None, None, None, None, None, None, None, None, None, None)

  /** The `/save` handler. `newId` is the id the database gives a new document. */
  function Save(tasks: map<Id, TaskFields>, id: Option<string>, f: TaskFields, newId: Id)
    : (r: (Reply<TaskFields>, map<Id, TaskFields>))
    ensures (r.0 == Err(400, "Title, Assignee, and Project are required")) <==>
      !Present(id) && (!Present(f.title) || !Present(f.project))
    ensures !Present(id) && Present(f.title) && Present(f.project) ==>
      r == if newId in tasks then (Err(500, "Failed to save task"), tasks) else (Ok(201, f), tasks[newId := f])
    ensures Present(id) && !IsValidObjectId(id.value) ==> r == (Err(400, "Invalid _id"), tasks)
    ensures Present(id) && IsValidObjectId(id.value) && id.value !in tasks ==> r == (Err(404, "Task not found"), tasks)
    ensures Present(id) && IsValidObjectId(id.value) && id.value in tasks ==>
      var t := Merge(tasks[id.value], f); r == (Ok(200, t), tasks[id.value := t])
    ensures !r.0.Ok? ==> r.1 == tasks
  {
    if !Present(id) && (!Present(f.title) || !Present(f.project)) then
      (Err(400, "Title, Assignee, and Project are required"), tasks)
    else if !Present(id) then
      if newId in tasks then (Err(500, "Failed to save task"), tasks)   // the insert fails
      else (Ok(201, f), tasks[newId := f])
    else if !IsValidObjectId(id.value) then
      (Err(400, "Invalid _id"), tasks)
    else if id.value !in tasks then
      (Err(404, "Task not found"), tasks)
    else
      var t := Merge(tasks[id.value], f);
      (Ok(200, t), tasks[id.value := t])
  }

  /** The `/status` handler: `_id` and `status` are both required and only the status changes. */
  function PatchStatus(tasks: map<Id, TaskFields>, id: Option<string>, status: Option<TaskStatus>)
    : (r: (Reply<TaskFields>, map<Id, TaskFields>))
    ensures !Present(id) || status.None? ==> r == (Err(400, "_id and status are required"), tasks)
    ensures Present(id) && status.Some? && !IsValidObjectId(id.value) ==> r == (Err(400, "Invalid Task ID"), tasks)
    ensures Present(id) && status.Some? && IsValidObjectId(id.value) && id.value !in tasks ==>
      r == (Err(404, "Task not found"), tasks)
    ensures r.0.Ok? <==> Present(id) && status.Some? && IsValidObjectId(id.value) && id.value in tasks
    ensures r.0.Ok? ==> r.1 == tasks[id.value := tasks[id.value].(status := status)] && r.0.body == r.1[id.value]
    ensures !r.0.Ok? ==> r.1 == tasks
  {
    if !Present(id) || status.None? then (Err(400, "_id and status are required"), tasks)
    else if !IsValidObjectId(id.value) then (Err(400, "Invalid Task ID"), tasks)
    else if id.value !in tasks then (Err(404, "Task not found"), tasks)
    else
      var t := tasks[id.value].(status := status);
      (Ok(200, t), tasks[id.value := t])
  }

  /** The `DELETE /:id` handler. */
  function Delete(tasks: map<Id, TaskFields>, id: string): (r: (Reply<string>, map<Id, TaskFields>))
    ensures !IsValidObjectId(id) ==> r == (Err(400, "Invalid Task ID"), tasks)
    ensures IsValidObjectId(id) && id !in tasks ==> r == (Err(404, "Task not found"), tasks)
    ensures r.0.Ok? <==> IsValidObjectId(id) && id in tasks
    ensures r.0.Ok? ==> r.1.Keys == tasks.Keys - {id} && forall k :: k in r.1 ==> r.1[k] == tasks[k]
    ensures !r.0.Ok? ==> r.1 == tasks
  {
    if !IsValidObjectId(id) then (Err(400, "Invalid Task ID"), tasks)
    else if id !in tasks then (Err(404, "Task not found"), tasks)
    else (Ok(200, "Task deleted successfully"), tasks - {id})
  }

  method SaveTask(db: Database, id: Option<string>, f: TaskFields, newId: Id) returns (reply: Reply<TaskFields>)
    modifies db
    ensures (reply, db.tasks) == Save(old(db.tasks), id, f, newId)
    ensures db.users == old(db.users) && db.projects == old(db.projects) && db.otps == old(db.otps)
  {
    var r := Save(db.tasks, id, f, newId);
    reply := r.0;
    db.tasks := r.1;
  }

  method PatchTaskStatus(db: Database, id: Option<string>, status: Option<TaskStatus>) returns (reply: Reply<TaskFields>)
    modifies db
    ensures (reply, db.tasks) == PatchStatus(old(db.tasks), id, status)
    ensures db.users == old(db.users) && db.projects == old(db.projects) && db.otps == old(db.otps)
  {
    var r := PatchStatus(db.tasks, id, status);
    reply := r.0;
    db.tasks := r.1;
  }

  method DeleteTask(db: Database, id: string) returns (reply: Reply<string>)
    modifies db
    ensures (reply, db.tasks) == Delete(old(db.tasks), id)
    ensures db.users == old(db.users) && db.projects == old(db.projects) && db.otps == old(db.otps)
  {
    var r := Delete(db.tasks, id);
    reply := r.0;
    db.tasks := r.1;
  }

  // ---------------------------------------------------------------------------
  // Properties of the partial update
  // ---------------------------------------------------------------------------

  /** A field the request supplies takes the supplied value; an omitted field keeps the stored one. */
  lemma MergeOverridesOnlySupplied(t: TaskFields, u: TaskFields)
    ensures var r := Merge(t, u);
      && (r.title == if u.title.Some? then u.title else t.title)
      && (r.status == if u.status.Some? then u.status else t.status)
      && (r.summary == if u.summary.Some? then u.summary else t.summary)
      && (r.priority == if u.priority.Some? then u.priority else t.priority)
      && (r.assignee == if u.assignee.Some? then u.assignee else t.assignee)
      && (r.reporter == if u.reporter.Some? then u.reporter else t.reporter)
      && (r.dueDate == if u.dueDate.Some? then u.dueDate else t.dueDate)
      && (r.tags == if u.tags.Some? then u.tags else t.tags)
      && (r.progress == if u.progress.Some? then u.progress else t.progress)
      && (r.project == if u.project.Some? then u.project else t.project)
  {
  }

  /** An update that supplies nothing leaves the task as it was. */
  lemma MergeNothingIsIdentity(t: TaskFields)
    ensures Merge(t, NoFields) == t
  {
  }

  /** Repeating the same update changes nothing more. */
  lemma MergeIdempotent(t: TaskFields, u: TaskFields)
    ensures Merge(Merge(t, u), u) == Merge(t, u)
  {
  }

  /** Two updates in a row equal one update with the later request's fields taking precedence. */
  lemma MergeSequential(t: TaskFields, u1: TaskFields, u2: TaskFields)
    ensures Merge(Merge(t, u1), u2) == Merge(t, Merge(u1, u2))
  {
  }

  /** A status patch is the partial update that supplies only the status. */
  lemma PatchIsStatusOnlyUpdate(tasks: map<Id, TaskFields>, id: string, s: TaskStatus)
    requires IsValidObjectId(id) && id in tasks
    ensures PatchStatus(tasks, Some(id), Some(s)) == Save(tasks, Some(id), NoFields.(status := Some(s)), id)
  {
  }
}

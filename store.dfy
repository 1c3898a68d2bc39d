/**
 * The documents the REST routes read and write (the schemas under server/Models), the MongoDB
 * collections as one in-memory database, and the shape of an HTTP reply.
 */
module Store {
  import opened Wrappers
  import opened Seqs

  /** A document id, as the 24-character hexadecimal text of an ObjectId. */
  type Id = string

  predicate IsHexDigit(c: char) {
    '0' <= c <= '9' || 'a' <= c <= 'f' || 'A' <= c <= 'F'
  }

  /** `mongoose.Types.ObjectId.isValid(s)` for a string: 24 hexadecimal digits. */
  predicate IsValidObjectId(s: string) {
    |s| == 24 && forall i :: 0 <= i < |s| ==> IsHexDigit(s[i])
  }

  datatype TaskStatus = Todo | InProgress | Review | Done
  datatype Priority = Low | Normal | High | Critical
  datatype ProjectStatus = Active | Completed | OnHold

  /**
   * The fields of a task, as a request supplies them and as a task document
   * stores them; `None` is a field that is absent (`undefined`).
   */
  datatype TaskFields = TaskFields(
    title: Option<string>,
    status: Option<TaskStatus>,
    summary: Option<string>,
    priority: Option<Priority>,
    assignee: Option<Id>,
    reporter: Option<Id>,
    dueDate: Option<int>,
    tags: Option<seq<string>>,
    progress: Option<int>,
    project: Option<Id>)

  /** A project document; the schema gives `description` and `avatarUrl` the default "" and `status` the default active. */
  datatype ProjectDoc = ProjectDoc(
    key: string,
    name: string,
    description: string,
    createdBy: Id,
    avatarUrl: string,
    status: ProjectStatus)

  /** A user document; `password` holds the stored hash. */
  datatype UserDoc = UserDoc(id: Id, username: string, email: string, password: string, projects: seq<Id>)

  /** An OTP document, keyed by its e-mail address; `createdOn` is in milliseconds. */
  datatype OtpRecord = OtpRecord(code: int, isUsed: bool, createdOn: int)

  /**
   * What a handler answers: a success status with a body, an error built by
   * `throwError(status, message)`, or an exception handed to `next(error)`
   * unchanged, whose status the error middleware decides.
   */
  datatype Reply<T> = Ok(status: int, body: T) | Err(status: int, message: string) | Unhandled

  /** `User.findOne(filter)` over the users in natural order: the index of the first match. */
  function FindFirst(us: seq<UserDoc>, matches: UserDoc -> bool): (r: Option<nat>)
    ensures r.None? <==> forall i :: 0 <= i < |us| ==> !matches(us[i])
    ensures r.Some? ==> r.value < |us| && matches(us[r.value])
    ensures r.Some? ==> forall j :: 0 <= j < r.value ==> !matches(us[j])
  {
    if us == [] then None
    else if matches(us[0]) then Some(0)
    else match FindFirst(us[1..], matches)
      case None => None
      case Some(k) => Some(k + 1)
  }

  /** `User.findById(id)`. */
  function IndexOfUser(us: seq<UserDoc>, id: Id): (r: Option<nat>)
    ensures r.None? <==> forall i :: 0 <= i < |us| ==> us[i].id != id
    ensures r.Some? ==> r.value < |us| && us[r.value].id == id
    ensures r.Some? ==> forall j :: 0 <= j < r.value ==> us[j].id != id
  {
    FindFirst(us, (u: UserDoc) => u.id == id)
  }

  /** `$addToSet` on an array, and `includes`-then-`push`: append `x` unless it is already there. */
  function AddToSet(xs: seq<Id>, x: Id): (r: seq<Id>)
    ensures forall y :: y in r <==> y in xs || y == x
    ensures |r| == if x in xs then |xs| else |xs| + 1
    ensures r[..|xs|] == xs
  {
    if x in xs then xs else xs + [x]
  }

  /** Adding the same id a second time changes nothing. */
  lemma AddToSetIdempotent(xs: seq<Id>, x: Id)
    ensures AddToSet(AddToSet(xs, x), x) == AddToSet(xs, x)
  {
  }

  /** A list without duplicates stays without duplicates. */
  lemma AddToSetKeepsDistinct(xs: seq<Id>, x: Id)
    requires Distinct(xs)
    ensures Distinct(AddToSet(xs, x))
  {
  }

  /** The MongoDB collections: users in insertion order, the rest keyed by id. */
  class Database {
    var users: seq<UserDoc>
    var projects: map<Id, ProjectDoc>
    var tasks: map<Id, TaskFields>
    var otps: map<string, OtpRecord>

    constructor ()
      ensures users == [] && projects == map[] && tasks == map[] && otps == map[]
    {
      users, projects, tasks, otps := [], map[], map[], map[];
    }
  }
}

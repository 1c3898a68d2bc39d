/**
 * The list editing and form rules of the task dialog
 * (client/src/modal/TaskModal.tsx): tags, assignees, the member split, the
 * field limits and the values the form is reset to.
 */
module TaskModal {
  import opened Wrappers
  import opened Seqs
  import opened Text
  import opened Store

  /** `addTag`: the tags and the tag input afterwards. */
  function AddTag(tags: seq<string>, input: string): (r: (seq<string>, string))
    ensures var t := Trim(input);
      && (t != "" && t !in tags ==> r == (tags + [t], ""))
      && (t == "" || t in tags ==> r == (tags, input))
  {
    var t := Trim(input);
    if t != "" && t !in tags then (tags + [t], "") else (tags, input)
  }

  /** The add button is enabled exactly when `addTag` would add something. */
  predicate AddEnabled(tags: seq<string>, input: string, submitting: bool) {
    !(submitting || Trim(input) == "" || Trim(input) in tags)
  }

  /** `removeTag` */
  function RemoveTag(tags: seq<string>, tag: string): (r: seq<string>)
    ensures forall x :: x in r <==> x in tags && x != tag
    ensures forall x :: multiset(r)[x] == if x != tag then multiset(tags)[x] else 0
    ensures Subseq(r, tags)
  {
    FilterIsSubseq(tags, x => x != tag);
    FilterMembers(tags, x => x != tag);
    FilterCounts(tags, x => x != tag);
    Filter(tags, x => x != tag)
  }

  /** `toggleAssignee` */
  function ToggleAssignee(assignees: seq<Id>, id: Id): (r: seq<Id>)
    ensures id in assignees ==> id !in r && Subseq(r, assignees)
    ensures id in assignees ==> forall x :: x != id ==> multiset(r)[x] == multiset(assignees)[x]
    ensures id !in assignees ==> r == assignees + [id]
    ensures forall x :: x != id ==> (x in r <==> x in assignees)
  {
    if id in assignees then RemoveAssignee(assignees, id) else assignees + [id]
  }

  /** `removeAssignee`: the chip's remove button; removing an id that is not assigned changes nothing. */
  function RemoveAssignee(assignees: seq<Id>, id: Id): (r: seq<Id>)
    ensures forall x :: x in r <==> x in assignees && x != id
    ensures forall x :: multiset(r)[x] == if x != id then multiset(assignees)[x] else 0
    ensures Subseq(r, assignees)
    ensures id !in assignees ==> r == assignees
  {
    FilterIsSubseq(assignees, x => x != id);
    FilterMembers(assignees, x => x != id);
    FilterCounts(assignees, x => x != id);
    if id in assignees then Filter(assignees, x => x != id)
    else
      FilterKeepsAll(assignees, x => x != id);
      Filter(assignees, x => x != id)
  }

  /** A team member as the dialog lists it. */
  datatype Member = Member(id: Id, username: string)

  /** `getAssignedMembers` */
  function Assigned(team: seq<Member>, assignees: seq<Id>): (r: seq<Member>)
    ensures forall m :: m in r <==> m in team && m.id in assignees
    ensures Subseq(r, team)
  {
    FilterIsSubseq(team, (m: Member) => m.id in assignees);
    FilterMembers(team, (m: Member) => m.id in assignees);
    Filter(team, (m: Member) => m.id in assignees)
  }

  /** `getUnassignedMembers` */
  function Unassigned(team: seq<Member>, assignees: seq<Id>): (r: seq<Member>)
    ensures forall m :: m in r <==> m in team && m.id !in assignees
    ensures Subseq(r, team)
  {
    FilterIsSubseq(team, (m: Member) => m.id !in assignees);
    FilterMembers(team, (m: Member) => m.id !in assignees);
    Filter(team, (m: Member) => m.id !in assignees)
  }

  // ---------------------------------------------------------------------------
  // Form rules
  // ---------------------------------------------------------------------------

  /** The title rule: required, at most 100 characters. */
  function TitleError(title: string): (e: Option<string>)
    ensures e.None? <==> 0 < |title| <= 100
  {
    if title == "" then Some("Task title is required")
    else if |title| > 100 then Some("Title must be less than 100 characters")
    else None
  }

  /** The summary rule: at most 500 characters. */
  function SummaryError(summary: string): (e: Option<string>)
    ensures e.None? <==> |summary| <= 500
  {
    if |summary| > 500 then Some("Summary must be less than 500 characters") else None
  }

  /** The values of the form. */
  datatype FormData = FormData(
    title: string, status: TaskStatus, summary: string, priority: Priority,
    assignees: seq<Id>, dueDate: Option<string>, tags: seq<string>, progress: int)

  /** A task as the client receives it; `None` is an absent field. */
  datatype ClientTask = ClientTask(
    title: string, status: TaskStatus, summary: string, priority: Priority,
    assignees: Option<seq<Id>>, dueDate: Option<string>, tags: Option<seq<string>>, progress: Option<int>)

  /** `task.dueDate ? new Date(task.dueDate) : null`: an empty date is no date. */
  function DateOf(d: Option<string>): Option<string> {
    if Present(d) then d else None
  }

  datatype Mode = Create | Edit

  /** What the form is reset to when the task or the mode changes; `None` is no reset. */
  function ResetValues(mode: Mode, task: Option<ClientTask>): (r: Option<FormData>)
    ensures mode == Create ==> r == Some(FormData("", Todo, "", Normal, [], None, [], 0))
    ensures mode == Edit && task.None? ==> r.None?
    ensures mode == Edit && task.Some? ==> r.Some?
    ensures mode == Edit && task.Some? && r.Some? ==> (
      var t, f := task.value, r.value;
      && f.title == t.title && f.status == t.status && f.summary == t.summary
      && f.priority == t.priority && f.dueDate == (if Present(t.dueDate) then t.dueDate else None)
      && f.assignees == t.assignees.GetOr([]) && f.tags == t.tags.GetOr([])
      && f.progress == t.progress.GetOr(0))
  {
    if mode == Edit then
      match task
      case None => None
      case Some(t) =>
        Some(FormData(t.title, t.status, t.summary, t.priority, t.assignees.GetOr([]), DateOf(t.dueDate),
                      t.tags.GetOr([]), t.progress.GetOr(0)))
    else Some(FormData("", Todo, "", Normal, [], None, [], 0))
  }

  /** The form's initial values (`task?.field || fallback`). */
  function DefaultValues(task: Option<ClientTask>): (r: FormData)
    ensures task.None? ==> r == FormData("", Todo, "", Normal, [], None, [], 0)
  {
    match task
    case None => FormData("", Todo, "", Normal, [], None, [], 0)
    case Some(t) =>
      FormData(t.title, t.status, t.summary, t.priority, t.assignees.GetOr([]), DateOf(t.dueDate),
               t.tags.GetOr([]), t.progress.GetOr(0))
  }

  /** Without a task the initial values are the values a create resets to. */
  lemma DefaultsAreCreateReset()
    ensures Some(DefaultValues(None)) == ResetValues(Create, None)
  {
  }

  /** For an existing task the initial values are the values an edit resets to. */
  lemma DefaultsAreEditReset(t: ClientTask)
    ensures Some(DefaultValues(Some(t))) == ResetValues(Edit, Some(t))
  {
  }

  // ---------------------------------------------------------------------------
  // Properties
  // ---------------------------------------------------------------------------

  /** The add button is enabled exactly when pressing it changes the tags (when not submitting). */
  lemma AddEnabledMeansAdds(tags: seq<string>, input: string)
    ensures AddEnabled(tags, input, false) <==> AddTag(tags, input).0 != tags
  {
    if AddEnabled(tags, input, false) {
      assert |AddTag(tags, input).0| == |tags| + 1;
    }
  }

  /** Adding a tag keeps the list free of duplicates and grows it by at most one. */
  lemma {:induction false} AddTagKeepsDistinct(tags: seq<string>, input: string)
    requires Distinct(tags)
    ensures Distinct(AddTag(tags, input).0)
    ensures |tags| <= |AddTag(tags, input).0| <= |tags| + 1
  {
    var t := Trim(input);
    if t != "" && t !in tags {
      var r := tags + [t];
      forall i, j | 0 <= i < j < |r| ensures r[i] != r[j] {
        if j == |tags| {
          assert r[i] in tags;
        }
      }
    }
  }

  /** Removing a tag just added restores the list. */
  lemma {:induction false} RemoveUndoesAdd(tags: seq<string>, input: string)
    requires Trim(input) != "" && Trim(input) !in tags
    ensures RemoveTag(AddTag(tags, input).0, Trim(input)) == tags
  {
    var t := Trim(input);
    FilterAppend(tags, [t], x => x != t);
    FilterKeepsAll(tags, x => x != t);
  }

  /** Toggling an absent member twice restores the original list. */
  lemma {:induction false} ToggleTwice(assignees: seq<Id>, id: Id)
    requires id !in assignees
    ensures ToggleAssignee(ToggleAssignee(assignees, id), id) == assignees
  {
    FilterAppend(assignees, [id], x => x != id);
    FilterKeepsAll(assignees, x => x != id);
  }

  /** The two member lists split the team: disjoint, and their sizes add up to the team's. */
  lemma {:induction false} MembersPartition(team: seq<Member>, assignees: seq<Id>)
    ensures forall m :: m in Assigned(team, assignees) ==> m !in Unassigned(team, assignees)
    ensures forall m :: m in team <==> m in Assigned(team, assignees) || m in Unassigned(team, assignees)
    ensures |Assigned(team, assignees)| + |Unassigned(team, assignees)| == |team|
  {
    FilterSizes(team, (m: Member) => m.id in assignees, (m: Member) => m.id !in assignees);
  }

  /** Two complementary filters split a sequence's length. */
  lemma {:induction false} FilterSizes<T(!new)>(s: seq<T>, p: T -> bool, q: T -> bool)
    requires forall x :: q(x) == !p(x)
    ensures |Filter(s, p)| + |Filter(s, q)| == |s|
  {
    if s != [] {
      FilterSizes(s[1..], p, q);
    }
  }
}

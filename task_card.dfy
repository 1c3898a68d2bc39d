/** The display rules of the task card (client/src/components/task/taskCardComponent.tsx). */
module TaskCard {
  import opened Wrappers
  import opened Text
  import opened Kanban

  /** `getPriorityColor` */
  function PriorityColor(priority: string): (c: string)
    ensures priority == "Critical" ==> c == "#ef4444"
    ensures priority == "High" ==> c == "#f97316"
    ensures priority == "Normal" ==> c == "#00B8E9"
    ensures priority == "Low" ==> c == "#10b981"
    ensures priority !in {"Critical", "High", "Normal", "Low"} ==> c == "#6b7280"
  {
    match priority
    case "Critical" => "#ef4444"
    case "High" => "#f97316"
    case "Normal" => "#00B8E9"
    case "Low" => "#10b981"
    case _ => "#6b7280"
  }

  /** The tags shown: at most the first two. */
  function ShownTags(t: BoardTask): (r: seq<string>)
    ensures |r| <= 2
    ensures var tags := t.tags.GetOr([]); |r| <= |tags| && r == tags[..|r|]
    ensures var tags := t.tags.GetOr([]); |tags| <= 2 ==> r == tags
  {
    var tags := t.tags.GetOr([]);
    if |tags| <= 2 then tags else tags[..2]
  }

  /** The "+N" badge: present exactly when there are more than two tags. */
  function Badge(t: BoardTask): (b: Option<string>)
    ensures b.Some? <==> |t.tags.GetOr([])| > 2
  {
    var n := |t.tags.GetOr([])|;
    if n > 2 then Some("+" + Decimal(n - 2)) else None
  }

  /** Whether the progress bar appears: only for a defined, positive progress. */
  function ShowsProgress(t: BoardTask): (b: bool)
    ensures b ==> t.progress.Some? && t.progress.value >= 1
    ensures !b <==> t.progress.GetOr(0) <= 0
  {
    t.progress.Some? && t.progress.value > 0
  }

  /** The assignee line: the username, or "Unassigned". */
  function AssigneeLabel(t: BoardTask): (s: string)
    ensures t.assignee.None? ==> s == "Unassigned"
    ensures t.assignee.Some? ==> s == t.assignee.value
  {
    match t.assignee
    case None => "Unassigned"
    case Some(name) => name
  }

  /** The avatar's name: the username, "User" when it is empty. */
  function AvatarName(t: BoardTask): (s: string)
    requires t.assignee.Some?
    ensures s != ""
    ensures t.assignee.value != "" ==> s == t.assignee.value
    ensures t.assignee.value == "" ==> s == "User"
  {
    if t.assignee.value != "" then t.assignee.value else "User"
  }

  /** The five colours are pairwise different, so every named priority is told apart from the rest. */
  lemma ColoursDistinct()
    ensures |{PriorityColor("Critical"), PriorityColor("High"), PriorityColor("Normal"),
              PriorityColor("Low"), PriorityColor("")}| == 5
  {
  }

  /** The shown tags and the badge's count account for every tag. */
  lemma {:induction false} BadgeCountsHiddenTags(t: BoardTask)
    requires |t.tags.GetOr([])| > 2
    ensures Badge(t) == Some("+" + Decimal(|t.tags.GetOr([])| - |ShownTags(t)|))
    ensures ShownTags(t) + t.tags.value[2..] == t.tags.value
  {
  }
}

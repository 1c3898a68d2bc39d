/** The project list of client/src/pages/HomePage.tsx: search, status filter and the empty-state heading. */
module HomePage {
  import opened Seqs
  import opened Text
  import opened Store

  /** A project as the list shows it; `creator` is `createdBy.username`. */
  datatype ListedProject = ListedProject(id: Id, name: string, creator: string, status: ProjectStatus)

  /** The status drop-down: "all" or one status. */
  datatype StatusFilter = All | Only(status: ProjectStatus)

  predicate Listed(search: string, filter: StatusFilter, p: ListedProject) {
    && (IncludesIgnoreCase(p.name, search) || IncludesIgnoreCase(p.creator, search))
    && (filter == All || p.status == filter.status)
  }

  /** `filteredProjects` */
  function FilterProjects(projects: seq<ListedProject>, search: string, filter: StatusFilter): (r: seq<ListedProject>)
    ensures forall p :: p in r <==> p in projects && Listed(search, filter, p)
    ensures Subseq(r, projects)
  {
    FilterMembers(projects, p => Listed(search, filter, p));
    FilterIsSubseq(projects, p => Listed(search, filter, p));
    Filter(projects, p => Listed(search, filter, p))
  }

  /** The heading shown when no project is listed. */
  function EmptyHeading(search: string, filter: StatusFilter): (h: string)
    ensures h == "No projects yet" <==> search == "" && filter == All
    ensures h == "No projects found" <==> !(search == "" && filter == All)
  {
    if search != "" || filter != All then "No projects found" else "No projects yet"
  }

  /** With no search text and no status filter every project is listed. */
  lemma {:induction false} NoFilterListsAll(projects: seq<ListedProject>)
    ensures FilterProjects(projects, "", All) == projects
  {
    forall i | 0 <= i < |projects| ensures Listed("", All, projects[i]) {
      EmptyIsIncluded(projects[i].name);
    }
    FilterKeepsAll(projects, p => Listed("", All, p));
  }

  /** With a status filter every listed project has that status. */
  lemma OnlyThatStatus(projects: seq<ListedProject>, search: string, s: ProjectStatus)
    ensures forall i :: 0 <= i < |FilterProjects(projects, search, Only(s))| ==>
      FilterProjects(projects, search, Only(s))[i].status == s
  {
  }
}

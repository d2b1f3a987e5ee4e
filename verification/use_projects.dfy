/** The project list: the saved projects, the active project id, creation,
    deletion (which refuses to remove the last project and drops the
    project's stored board), renaming, selection, and the effect that points
    a dangling active id at the first project. */
module UseProjects {
  import opened Wrappers
  import opened Strings
  import opened Board
  import opened Constants
  import Storage

  /** Some project carries the id `id`. */
  predicate HasProject(projects: seq<Project>, id: string) {
    exists p :: p in projects && p.id == id
  }

  /** The active id names one of the projects. */
  predicate ActiveValid(projects: seq<Project>, activeId: string) {
    HasProject(projects, activeId)
  }

  /** The active-project repair effect: an active id that names no project
      is replaced by the first project's id; with no projects it is kept. */
  function RepairedActiveId(projects: seq<Project>, activeId: string): (r: string)
    ensures projects != [] ==> ActiveValid(projects, r)
    ensures ActiveValid(projects, activeId) ==> r == activeId
    ensures projects == [] ==> r == activeId
  {
    if !HasProject(projects, activeId) && |projects| > 0 then
      assert projects[0] in projects;
      projects[0].id
    else activeId
  }

  /** `projects.find(p => p.id === activeProjectId) || projects[0]`. */
  function ActiveProject(projects: seq<Project>, activeId: string): (r: Option<Project>)
    ensures r.Some? <==> projects != []
    ensures r.Some? ==> r.value in projects
    ensures HasProject(projects, activeId) ==> r.Some? && r.value.id == activeId
    ensures r.Some? && !HasProject(projects, activeId) ==> r.value == projects[0]
  {
    var i := FindProject(projects, activeId);
    if i >= 0 then Some(projects[i])
    else if projects == [] then None
    else Some(projects[0])
  }

  /** The index of the first project with id `id`, or -1. */
  function FindProject(projects: seq<Project>, id: string): (i: int)
    ensures -1 <= i < |projects|
    ensures i == -1 <==> !HasProject(projects, id)
    ensures 0 <= i ==> projects[i].id == id && forall j :: 0 <= j < i ==> projects[j].id != id
    decreases |projects|
  {
    if projects == [] then -1
    else if projects[0].id == id then 0
    else
      var i := FindProject(projects[1..], id);
      assert forall p :: p in projects ==> p == projects[0] || p in projects[1..];
      if i == -1 then -1
      else
        assert projects[1..][i] == projects[i + 1];
        i + 1
  }

  /** The new project's name: the trimmed input, or `Untitled Project` when blank. */
  function NewProjectName(name: string): (r: string)
    ensures r != ""
    ensures !AllSpace(name) ==> r == Trim(name)
    ensures AllSpace(name) ==> r == "Untitled Project"
  {
    var t := Trim(name);
    if t != "" then t else "Untitled Project"
  }

  /** `prev.filter(p => p.id !== id)`. */
  function ProjectsWithout(projects: seq<Project>, id: string): (r: seq<Project>)
    ensures forall p :: p in r <==> p in projects && p.id != id
  {
    Filter(projects, (p: Project) => p.id != id)
  }

  /** The active id after deleting the active project: the first remaining
      project's id, or the empty string when none is left. */
  function NextActiveId(remaining: seq<Project>): (r: string)
    ensures remaining != [] ==> r == remaining[0].id
    ensures remaining == [] ==> r == ""
  {
    if remaining != [] && remaining[0].id != "" then remaining[0].id else ""
  }

  /** The renamed list: only projects with that id change, and only when
      the trimmed name is not blank. */
  function Renamed(projects: seq<Project>, id: string, newName: string): (r: seq<Project>)
    ensures |r| == |projects|
    ensures forall i :: 0 <= i < |r| ==> r[i].id == projects[i].id
    ensures forall i :: 0 <= i < |r| && projects[i].id != id ==> r[i] == projects[i]
    ensures forall i :: 0 <= i < |r| && projects[i].id == id ==>
      r[i].name == (if AllSpace(newName) then projects[i].name else Trim(newName))
  {
    seq(|projects|, i requires 0 <= i < |projects| =>
      if projects[i].id == id then
        var t := Trim(newName);
        projects[i].(name := if t != "" then t else projects[i].name)
      else projects[i])
  }

  /** Deleting keeps a valid active id valid when project ids are
      distinct: either the active project survives, or the first remaining
      project becomes active. */
  lemma DeleteKeepsActiveValid(projects: seq<Project>, activeId: string, id: string)
    requires Distinct(ProjectIds(projects)) && |projects| > 1 && ActiveValid(projects, activeId)
    ensures var remaining := ProjectsWithout(projects, id);
            ActiveValid(remaining, if activeId == id then NextActiveId(remaining) else activeId)
  {
    var remaining := ProjectsWithout(projects, id);
    if activeId == id {
      assert projects[0] in projects && projects[1] in projects;
      assert ProjectIds(projects)[0] != ProjectIds(projects)[1];
      var survivor := if projects[0].id != id then projects[0] else projects[1];
      assert survivor in remaining;
      assert remaining[0] in remaining;
    } else {
      var p :| p in projects && p.id == activeId;
      assert p in remaining;
    }
  }

  /** Renaming and creating keep a valid active id valid. */
  lemma RenameAndCreateKeepActiveValid(projects: seq<Project>, activeId: string, id: string, newName: string,
                                       created: Project)
    requires ActiveValid(projects, activeId)
    ensures ActiveValid(Renamed(projects, id, newName), activeId)
    ensures ActiveValid(projects + [created], created.id)
    ensures ActiveValid(projects + [created], activeId)
  {
    var p :| p in projects && p.id == activeId;
    var i :| 0 <= i < |projects| && projects[i] == p;
    assert Renamed(projects, id, newName)[i] in Renamed(projects, id, newName);
    assert created in projects + [created];
    assert p in projects + [created];
  }

  /** The `useProjects` hook. */
  class ProjectsHook {
    var projects: seq<Project>
    var activeProjectId: string
    const store: Storage.Store

    /** The saved list and id when present, else the default project. */
    constructor(savedProjects: Option<seq<Project>>, savedActiveId: Option<string>, store: Storage.Store)
      ensures projects == savedProjects.GetOr([DefaultProject])
      ensures activeProjectId == savedActiveId.GetOr(DefaultProject.id)
      ensures this.store == store
    {
      projects := savedProjects.GetOr([DefaultProject]);
      activeProjectId := savedActiveId.GetOr(DefaultProject.id);
      this.store := store;
    }

    /** The repair effect. */
    method RepairActiveProject()
      modifies this
      ensures activeProjectId == RepairedActiveId(projects, old(activeProjectId))
      ensures projects == old(projects)
    {
      if !HasProject(projects, activeProjectId) && |projects| > 0 {
        activeProjectId := projects[0].id;
      }
    }

    /** `createProject(name)`, with the generated id given. */
    method CreateProject(name: string, freshId: string) returns (p: Project)
      requires !HasProject(projects, freshId)
      modifies this
      ensures p == Project(freshId, NewProjectName(name))
      ensures projects == old(projects) + [p] && activeProjectId == freshId
      ensures ActiveValid(projects, activeProjectId)
    {
      p := Project(freshId, NewProjectName(name));
      projects := projects + [p];
      activeProjectId := p.id;
      assert p in projects;
    }

    /** `deleteProject(id)`. */
    method DeleteProject(id: string) returns (deleted: bool)
      modifies this, store
      ensures deleted <==> |old(projects)| > 1
      ensures !deleted ==> projects == old(projects) && activeProjectId == old(activeProjectId)
                           && store.items == old(store.items)
      ensures deleted ==> projects == ProjectsWithout(old(projects), id)
      ensures deleted ==> store.items == old(store.items) - {Storage.ColumnsKey(id), Storage.TasksKey(id)}
      ensures deleted ==> activeProjectId == (if old(activeProjectId) == id then NextActiveId(projects)
                                              else old(activeProjectId))
    {
      if |projects| <= 1 {
        return false;
      }
      var remaining := ProjectsWithout(projects, id);
      projects := remaining;
      store.RemoveFromStorage(Storage.ColumnsKey(id));
      store.RemoveFromStorage(Storage.TasksKey(id));
      if activeProjectId == id {
        activeProjectId := NextActiveId(remaining);
      }
      return true;
    }

    /** `renameProject(id, newName)`. */
    method RenameProject(id: string, newName: string)
      modifies this
      ensures projects == Renamed(old(projects), id, newName)
      ensures activeProjectId == old(activeProjectId)
    {
      projects := Renamed(projects, id, newName);
    }

    /** `selectProject(id)`: only an existing id is selected. */
    method SelectProject(id: string)
      modifies this
      ensures activeProjectId == (if HasProject(projects, id) then id else old(activeProjectId))
      ensures projects == old(projects)
    {
      if HasProject(projects, id) {
        activeProjectId := id;
      }
    }
  }
}

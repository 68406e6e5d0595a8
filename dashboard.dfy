// The dashboard's project list (GUI/windows/dashboard.py): project names
// shown in a list widget, created, deleted and renamed through dialogs whose
// answers are the methods' parameters, and written out after every change.

module Dashboard {
  import opened Lists

  /** The list a dashboard starts with when nothing was loaded. */
  const DefaultProjects: seq<string> := ["My First Project"]

  /** `load_projects() or ["My First Project"]`. */
  function InitialProjects(loaded: seq<string>): (r: seq<string>)
    ensures r != []
    ensures loaded != [] ==> r == loaded
    ensures loaded == [] ==> r == DefaultProjects
  {
    if loaded != [] then loaded else DefaultProjects
  }

  class DashboardWindow {
    /** `self.projects`. */
    var projects: seq<string>
    /** The names shown by the list widget. */
    var shown: seq<string>
    /** What `save_projects` last wrote. */
    var saved: seq<string>

    /** The list widget shows exactly the project list. */
    predicate Valid()
      reads this
    {
      shown == projects
    }

    /** `__init__`: the loaded projects, or the default one when none were loaded. */
    constructor (loaded: seq<string>, onDisk: seq<string>)
      ensures Valid() && projects == InitialProjects(loaded) && saved == onDisk
    {
      projects := InitialProjects(loaded);
      shown := InitialProjects(loaded);
      saved := onDisk;
    }

    /** `create_project`: an accepted, non-empty name is appended and the list saved. */
    method CreateProject(name: string, accepted: bool)
      requires Valid()
      modifies this
      ensures Valid() && ("" in projects ==> "" in old(projects))
      ensures accepted && name != "" ==> projects == old(projects) + [name] && saved == projects
      ensures !(accepted && name != "") ==> projects == old(projects) && saved == old(saved)
    {
      if accepted && name != "" {
        projects := projects + [name];
        shown := shown + [name];
        saved := projects;
      }
    }

    /** `delete_project`: the current row is removed when there is one and the user confirms. */
    method DeleteProject(row: int, confirmed: bool)
      requires Valid() && -1 <= row < |projects|
      modifies this
      ensures Valid() && ("" in projects ==> "" in old(projects))
      ensures row >= 0 && confirmed ==> projects == RemoveAt(old(projects), row) && saved == projects
      ensures !(row >= 0 && confirmed) ==> projects == old(projects) && saved == old(saved)
    {
      if row >= 0 {
        if confirmed {
          projects := RemoveAt(projects, row);
          shown := RemoveAt(shown, row);
          saved := projects;
        }
      }
    }

    /** `rename_project`: the current row gets an accepted, non-empty name; the length never changes. */
    method RenameProject(row: int, name: string, accepted: bool)
      requires Valid() && -1 <= row < |projects|
      modifies this
      ensures Valid() && |projects| == |old(projects)| && ("" in projects ==> "" in old(projects))
      ensures row >= 0 && accepted && name != "" ==> projects == old(projects)[row := name] && saved == projects
      ensures !(row >= 0 && accepted && name != "") ==> projects == old(projects) && saved == old(saved)
    {
      if row >= 0 {
        if accepted && name != "" {
          projects := projects[row := name];
          shown := shown[row := name];
          saved := projects;
        }
      }
    }
  }
}

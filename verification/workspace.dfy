/** `Workspace` (core/src/workspace.rs): the versioned working copy of one
    project. Setters consume the value and return the updated one, so they
    are modelled as functions from the old record to the new one. */
module Workspaces {
  import opened Results

  /** Rust `usize` on a 64-bit target. Versions are only stored and read,
      never incremented, so no wrap-around can arise. */
  type Usize = x: int | 0 <= x < 0x1_0000_0000_0000_0000

  datatype Workspace = Workspace(projectId: string, lastBuildVersion: Usize, baseDir: Option<string>)

  function GetProjectId(w: Workspace): string {
    w.projectId
  }

  function GetLatestBuildVersion(w: Workspace): Usize {
    w.lastBuildVersion
  }

  function GetBaseDir(w: Workspace): Option<string> {
    w.baseDir
  }

  /** `Workspace::new`: version 0 and no base directory yet. */
  function NewWorkspace(projectId: string): (w: Workspace)
    ensures GetProjectId(w) == projectId
    ensures GetLatestBuildVersion(w) == 0
    ensures GetBaseDir(w) == None
  {
    Workspace(projectId, 0, None)
  }

  /** `set_project_id`: changes the owning project and nothing else. */
  function SetProjectId(w: Workspace, projectId: string): (r: Workspace)
    ensures GetProjectId(r) == projectId
    ensures GetLatestBuildVersion(r) == GetLatestBuildVersion(w)
    ensures GetBaseDir(r) == GetBaseDir(w)
  {
    w.(projectId := projectId)
  }

  /** `set_latest_build_version`: changes the version and nothing else. */
  function SetLatestBuildVersion(w: Workspace, version: Usize): (r: Workspace)
    ensures GetLatestBuildVersion(r) == version
    ensures GetProjectId(r) == GetProjectId(w)
    ensures GetBaseDir(r) == GetBaseDir(w)
  {
    w.(lastBuildVersion := version)
  }

  /** `set_base_dir`: changes the base directory, possibly back to none, and nothing else. */
  function SetBaseDir(w: Workspace, dir: Option<string>): (r: Workspace)
    ensures GetBaseDir(r) == dir
    ensures GetProjectId(r) == GetProjectId(w)
    ensures GetLatestBuildVersion(r) == GetLatestBuildVersion(w)
  {
    w.(baseDir := dir)
  }

  /** Setters on distinct fields can be applied in either order. */
  lemma WorkspaceSettersCommute(w: Workspace, projectId: string, version: Usize, dir: Option<string>)
    ensures SetLatestBuildVersion(SetProjectId(w, projectId), version) == SetProjectId(SetLatestBuildVersion(w, version), projectId)
    ensures SetBaseDir(SetProjectId(w, projectId), dir) == SetProjectId(SetBaseDir(w, dir), projectId)
    ensures SetBaseDir(SetLatestBuildVersion(w, version), dir) == SetLatestBuildVersion(SetBaseDir(w, dir), version)
  {
  }

  /** A second setter on the same field overrides the first. */
  lemma WorkspaceSetterLastWriteWins(w: Workspace, p1: string, p2: string, v1: Usize, v2: Usize,
                                     d1: Option<string>, d2: Option<string>)
    ensures SetProjectId(SetProjectId(w, p1), p2) == SetProjectId(w, p2)
    ensures SetLatestBuildVersion(SetLatestBuildVersion(w, v1), v2) == SetLatestBuildVersion(w, v2)
    ensures SetBaseDir(SetBaseDir(w, d1), d2) == SetBaseDir(w, d2)
  {
  }
}

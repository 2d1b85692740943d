/** `Project` (core/src/project.rs): a buildable unit with an optional
    source-control capability and an ordered list of pipeline names.
    Setters are consuming builders, modelled as record updates. */
module Projects {
  import opened Results
  import opened SourceControls

  datatype Project = Project(name: string, sourceControl: Option<SourceControl>, pipelines: seq<string>, id: string)

  function GetName(p: Project): string {
    p.name
  }

  function GetSourceControl(p: Project): Option<SourceControl> {
    p.sourceControl
  }

  function GetId(p: Project): string {
    p.id
  }

  function GetPipelines(p: Project): seq<string> {
    p.pipelines
  }

  /** `Project::new`. The source draws a fresh random UUID for the id; here
      that value is the parameter `freshId`. */
  function NewProject(name: string, freshId: string): (p: Project)
    ensures GetName(p) == name
    ensures GetSourceControl(p) == None
    ensures GetPipelines(p) == []
    ensures GetId(p) == freshId
  {
    Project(name, None, [], freshId)
  }

  /** `set_name`: changes the name and nothing else. */
  function SetName(p: Project, name: string): (r: Project)
    ensures GetName(r) == name
    ensures GetSourceControl(r) == GetSourceControl(p)
    ensures GetPipelines(r) == GetPipelines(p)
    ensures GetId(r) == GetId(p)
  {
    p.(name := name)
  }

  /** `set_source_control`: replaces the capability (possibly with none) and nothing else. */
  function SetSourceControl(p: Project, sourceControl: Option<SourceControl>): (r: Project)
    ensures GetSourceControl(r) == sourceControl
    ensures GetName(r) == GetName(p)
    ensures GetPipelines(r) == GetPipelines(p)
    ensures GetId(r) == GetId(p)
  {
    p.(sourceControl := sourceControl)
  }

  /** `set_id`: changes the id and nothing else. */
  function SetId(p: Project, id: string): (r: Project)
    ensures GetId(r) == id
    ensures GetName(r) == GetName(p)
    ensures GetSourceControl(r) == GetSourceControl(p)
    ensures GetPipelines(r) == GetPipelines(p)
  {
    p.(id := id)
  }

  /** `set_pipelines`: replaces the pipeline list, order included, and nothing else. */
  function SetPipelines(p: Project, pipelines: seq<string>): (r: Project)
    ensures GetPipelines(r) == pipelines
    ensures GetName(r) == GetName(p)
    ensures GetSourceControl(r) == GetSourceControl(p)
    ensures GetId(r) == GetId(p)
  {
    p.(pipelines := pipelines)
  }

  /** A second setter on the same field overrides the first. */
  lemma ProjectSetterLastWriteWins(p: Project, n1: string, n2: string,
                                   s1: Option<SourceControl>, s2: Option<SourceControl>,
                                   i1: string, i2: string, ps1: seq<string>, ps2: seq<string>)
    ensures SetName(SetName(p, n1), n2) == SetName(p, n2)
    ensures SetSourceControl(SetSourceControl(p, s1), s2) == SetSourceControl(p, s2)
    ensures SetId(SetId(p, i1), i2) == SetId(p, i2)
    ensures SetPipelines(SetPipelines(p, ps1), ps2) == SetPipelines(p, ps2)
  {
  }

  /** Setters on distinct fields can be applied in either order. */
  lemma ProjectSettersCommute(p: Project, n: string, s: Option<SourceControl>, i: string, ps: seq<string>)
    ensures SetSourceControl(SetName(p, n), s) == SetName(SetSourceControl(p, s), n)
    ensures SetId(SetName(p, n), i) == SetName(SetId(p, i), n)
    ensures SetPipelines(SetName(p, n), ps) == SetName(SetPipelines(p, ps), n)
    ensures SetId(SetSourceControl(p, s), i) == SetSourceControl(SetId(p, i), s)
    ensures SetPipelines(SetSourceControl(p, s), ps) == SetSourceControl(SetPipelines(p, ps), s)
    ensures SetPipelines(SetId(p, i), ps) == SetId(SetPipelines(p, ps), i)
  {
  }
}

/** The four calls of the Project controller (internal/controller/project/project/project.go). */
module ProjectController {
  import opened Wrappers
  import opened ProjectClient
  import opened HarborServer
  import opened Managed
  import opened ProjectServer

  datatype ProjectResource = ProjectResource(
    name: string, annotations: map<string, string>, spec: ProjectParameters, projectID: Option<int>, deleting: bool)

  function ExternalName(p: ProjectResource): string {
    if EXTERNAL_NAME_ANNOTATION in p.annotations then p.annotations[EXTERNAL_NAME_ANNOTATION] else ""
  }

  function ProjectName(p: ProjectResource): string {
    if ExternalName(p) != "" then ExternalName(p) else p.name
  }

  function WithExternalName(p: ProjectResource, name: string): ProjectResource {
    p.(annotations := p.annotations[EXTERNAL_NAME_ANNOTATION := name])
  }

  /** The specification of Observe. */
  function Observed(h: Projects, p: ProjectResource, fate: Fate): (ProjectResource, Result<ExternalObservation, ProjectError>) {
    match GetProject(h, ProjectName(p), fate)
    case Err(ProjectNotFound) => (p, Ok(ExternalObservation(false, false)))
    case Err(Failed) => (p, Err(Failed))
    case Ok(proj) =>
      (WithExternalName(p.(projectID := Some(proj.id)), proj.name),
       Ok(ExternalObservation(true, IsProjectUpToDate(p.spec, proj))))
  }

  /** The specification of Create. */
  function Created(h: Projects, p: ProjectResource, fate: Fate): (Projects, ProjectResource, Result<(), ProjectError>) {
    var (h', res) := NewProject(h, Request(ProjectName(p), p.spec), fate);
    (h', if res.Ok? then WithExternalName(p, ProjectName(p)) else p, res)
  }

  /** The specification of Update. */
  function Updated(h: Projects, p: ProjectResource, fate: Fate): (Projects, Result<(), ProjectError>) {
    UpdateProject(h, ProjectName(p), Request(ProjectName(p), p.spec), fate)
  }

  /** The specification of Delete: a project that is already gone counts as deleted. */
  function Deleted(h: Projects, p: ProjectResource, fate: Fate): (Projects, Result<(), ProjectError>) {
    var (h', res) := DeleteProject(h, ProjectName(p), fate);
    (h', if res == Err(ProjectNotFound) then Ok(()) else res)
  }

  /** The resource object the calls share and update. */
  class ProjectObject {
    var name: string
    var annotations: map<string, string>
    var spec: ProjectParameters
    var projectID: Option<int>
    var deleting: bool

    constructor (p: ProjectResource)
      ensures Value() == p
    {
      name, annotations, spec := p.name, p.annotations, p.spec;
      projectID, deleting := p.projectID, p.deleting;
    }

    function Value(): ProjectResource
      reads this
    {
      ProjectResource(name, annotations, spec, projectID, deleting)
    }

    method SetExternalName(externalName: string)
      modifies this`annotations
      ensures Value() == WithExternalName(old(Value()), externalName)
    {
      annotations := annotations[EXTERNAL_NAME_ANNOTATION := externalName];
    }
  }

  /** `external`, with the server state behind its client; each `ctx` is the fate of the API call it is passed to. */
  class External {
    var projects: Projects

    constructor (projects: Projects)
      ensures this.projects == projects
    {
      this.projects := projects;
    }

    method Observe(ctx: Fate, proj: ProjectObject) returns (res: Result<ExternalObservation, ProjectError>)
      modifies proj`annotations, proj`projectID
      ensures (proj.Value(), res) == Observed(projects, old(proj.Value()), ctx)
    {
      var name := ProjectName(proj.Value());
      var observed := GetProject(projects, name, ctx);
      if observed.Err? {
        if observed.error == ProjectNotFound {
          return Ok(ExternalObservation(false, false));
        }
        return Err(observed.error);
      }
      proj.projectID := Some(observed.value.id);
      proj.SetExternalName(observed.value.name);
      res := Ok(ExternalObservation(true, IsProjectUpToDate(proj.spec, observed.value)));
    }

    method Create(ctx: Fate, proj: ProjectObject) returns (res: Result<(), ProjectError>)
      modifies this, proj`annotations
      ensures (projects, proj.Value(), res) == Created(old(projects), old(proj.Value()), ctx)
    {
      var name := ProjectName(proj.Value());
      var req := ToProjectReq(name, proj.spec);
      var (projects', res') := NewProject(projects, req, ctx);
      projects, res := projects', res';
      if res.Err? {
        return;
      }
      proj.SetExternalName(name);
    }

    method Update(ctx: Fate, proj: ProjectObject) returns (res: Result<(), ProjectError>)
      modifies this
      ensures (projects, res) == Updated(old(projects), proj.Value(), ctx)
    {
      var name := ProjectName(proj.Value());
      var req := ToProjectReq(name, proj.spec);
      var (projects', res') := UpdateProject(projects, name, req, ctx);
      projects, res := projects', res';
    }

    method Delete(ctx: Fate, proj: ProjectObject) returns (res: Result<(), ProjectError>)
      modifies this
      ensures (projects, res) == Deleted(old(projects), proj.Value(), ctx)
    {
      var (projects', res') := DeleteProject(projects, ProjectName(proj.Value()), ctx);
      projects, res := projects', res';
      if res.Err? && res.error == ProjectNotFound {
        return Ok(());
      }
    }
  }
}

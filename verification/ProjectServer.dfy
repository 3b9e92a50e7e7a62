/**
 * The Harbor server as the Project client sees it. Its calls take a name or an ID
 * (internal/clients/project/project.go:36-43). Harbor is not part of the repository, so this module is an assumption:
 *   - names are unique and not empty, and IDs are issued once and never again;
 *   - a text is looked up as a name and as the text of an ID, in an order that is a parameter;
 *   - an update overlays the flags it sends on those of the project.
 */
module ProjectServer {
  import opened Wrappers
  import opened Text
  import opened ProjectClient
  import opened HarborServer

  datatype ProjectError = ProjectNotFound | Failed

  /** What a text denotes that could be a name or an ID; with `IDOnly` a number is never looked up as a name. */
  datatype Reading = NameFirst | IDFirst | IDOnly

  /**
   * The projects of a server, by name, and the name for each ID; `initial` holds the flags a new project starts with,
   * and `quotas` the storage limits, which are not part of what a project reports.
   */
  datatype Projects = Projects(
    table: map<string, Project>, byID: map<int, string>, quotas: map<string, int64>,
    initial: Option<ProjectMetadata>, nextId: int, reading: Reading)

  ghost predicate Sound(h: Projects) {
    && "" !in h.table
    && (forall name :: name in h.table ==>
          h.table[name].name == name && h.table[name].id in h.byID && h.byID[h.table[name].id] == name)
    && (forall id :: id in h.byID ==> h.byID[id] in h.table && h.table[h.byID[id]].id == id && id < h.nextId)
  }

  // ---------- Names and IDs ----------

  function ByName(h: Projects, text: string): (r: Option<string>)
    ensures r.Some? ==> r.value in h.table
  {
    if text in h.table then Some(text) else None
  }

  function ByID(h: Projects, text: string): (r: Option<string>)
    ensures r.Some? ==> r.value in h.table
  {
    var id := ParseInt(text);
    if id.Some? && id.value in h.byID && h.byID[id.value] in h.table then Some(h.byID[id.value]) else None
  }

  /** The name of the project that a name or ID denotes. */
  function Resolve(h: Projects, nameOrID: string): (r: Option<string>)
    ensures r.Some? ==> r.value in h.table
  {
    match h.reading
    case NameFirst => if ByName(h, nameOrID).Some? then ByName(h, nameOrID) else ByID(h, nameOrID)
    case IDFirst => if ByID(h, nameOrID).Some? then ByID(h, nameOrID) else ByName(h, nameOrID)
    case IDOnly => if ParseInt(nameOrID).Some? then ByID(h, nameOrID) else ByName(h, nameOrID)
  }

  /** The name denotes no project but its own. */
  predicate MeansItself(h: Projects, name: string) {
    Resolve(h, name).None? || Resolve(h, name) == Some(name)
  }

  /** The name is also the text of the ID of another project. */
  predicate IsOtherID(h: Projects, name: string) {
    ByID(h, name).Some? && ByID(h, name).value != name
  }

  /** A name that does not read as a number is just a name. */
  lemma PlainNamesMeanThemselves(h: Projects, name: string)
    requires ParseInt(name).None?
    ensures Resolve(h, name) == ByName(h, name) && MeansItself(h, name) && !IsOtherID(h, name)
  {
  }

  // ---------- The calls ----------

  function OverlayStored(base: Option<ProjectMetadata>, req: Option<ProjectMetadata>): Option<ProjectMetadata> {
    if req.None? then base
    else Some(Overlay(if base.Some? then base.value else NO_METADATA, req.value))
  }

  function WithQuota(quotas: map<string, int64>, name: string, limit: Option<int64>): map<string, int64> {
    if limit.Some? then quotas[name := limit.value] else quotas
  }

  function GetProject(h: Projects, nameOrID: string, fate: Fate): Result<Project, ProjectError> {
    if fate != Delivered then Err(Failed)
    else
      match Resolve(h, nameOrID)
      case Some(name) => Ok(h.table[name])
      case None => Err(ProjectNotFound)
  }

  /** A project of that name can be created. */
  predicate CanCreate(h: Projects, name: string) {
    name != "" && name !in h.table
  }

  function WithNew(h: Projects, req: ProjectReq): Projects {
    var proj := Project(h.nextId, req.projectName, OverlayStored(h.initial, req.metadata));
    h.(table := h.table[req.projectName := proj], byID := h.byID[h.nextId := req.projectName],
       quotas := WithQuota(h.quotas - {req.projectName}, req.projectName, req.storageLimit), nextId := h.nextId + 1)
  }

  function NewProject(h: Projects, req: ProjectReq, fate: Fate): (Projects, Result<(), ProjectError>) {
    if fate == Dropped || !CanCreate(h, req.projectName) then (h, Err(Failed))
    else (WithNew(h, req), if fate == Delivered then Ok(()) else Err(Failed))
  }

  function WithUpdate(h: Projects, name: string, req: ProjectReq): Projects
    requires name in h.table
  {
    var proj := h.table[name].(metadata := OverlayStored(h.table[name].metadata, req.metadata));
    h.(table := h.table[name := proj], quotas := WithQuota(h.quotas, name, req.storageLimit))
  }

  function UpdateProject(h: Projects, nameOrID: string, req: ProjectReq, fate: Fate): (Projects, Result<(), ProjectError>) {
    var name := Resolve(h, nameOrID);
    if fate == Dropped || name.None? then (h, Err(Failed))
    else (WithUpdate(h, name.value, req), if fate == Delivered then Ok(()) else Err(Failed))
  }

  function WithoutProject(h: Projects, name: string): Projects
    requires name in h.table
  {
    h.(table := h.table - {name}, byID := h.byID - {h.table[name].id}, quotas := h.quotas - {name})
  }

  function DeleteProject(h: Projects, nameOrID: string, fate: Fate): (Projects, Result<(), ProjectError>) {
    var name := Resolve(h, nameOrID);
    if fate == Dropped then (h, Err(Failed))
    else if name.None? then (h, if fate == Delivered then Err(ProjectNotFound) else Err(Failed))
    else (WithoutProject(h, name.value), if fate == Delivered then Ok(()) else Err(Failed))
  }

  // ---------- What the calls keep, and what they do to the meaning of a name ----------

  lemma CreateIsSound(h: Projects, req: ProjectReq)
    requires Sound(h) && CanCreate(h, req.projectName)
    ensures Sound(WithNew(h, req))
    ensures MeansItself(h, req.projectName) ==> MeansItself(WithNew(h, req), req.projectName)
  {
  }

  lemma UpdateIsSound(h: Projects, name: string, req: ProjectReq)
    requires Sound(h) && name in h.table
    ensures Sound(WithUpdate(h, name, req))
    ensures forall text :: Resolve(WithUpdate(h, name, req), text) == Resolve(h, text)
    ensures forall text :: ByID(WithUpdate(h, name, req), text) == ByID(h, text)
  {
  }

  lemma DeleteIsSound(h: Projects, name: string)
    requires Sound(h) && name in h.table
    ensures Sound(WithoutProject(h, name))
    ensures forall text :: ByID(WithoutProject(h, name), text) == (if ByID(h, text) == Some(name) then None else ByID(h, text))
  {
  }
}

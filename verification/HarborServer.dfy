/**
 * The Harbor server as the RobotAccount client sees it: a table of robots behind
 * the RobotAccountsClient interface (internal/clients/iam/robotaccount.go:40-53). Harbor itself is not part of the
 * repository, so this module is the assumption the controller properties rest on:
 *   - IDs are issued once and never again;
 *   - a robot is displayed as `robot$<name>`, or `robot$<project>+<name>` for a project-level robot;
 *   - listings are complete, in an order the provider cannot rely on;
 *   - what a server does with a request is given by a `Server`: permission lists may be stored in a normalised form, and
 *     a new robot may be refused, for example because another one of the same name exists.
 */
module HarborServer {
  import opened Wrappers
  import opened Text
  import opened IamModels
  import opened IamClient

  /** What identifies a robot to its users; `project` is "" for a robot that is not project-level. */
  datatype Key = Key(level: string, project: string, short: string)

  datatype Record = Record(
    key: Key, description: string, disable: bool, duration: Option<int64>, permissions: seq<HarborPermission>)

  datatype Harbor = Harbor(robots: map<int64, Record>, listing: seq<int64>, nextId: nat)

  /** How a server stores a permission list it is sent, and whether it takes in a new robot beside the ones it has. */
  datatype Server = Server(
    canon: seq<HarborPermission> -> seq<HarborPermission>, accepts: (map<int64, Record>, Key) -> bool)

  predicate NameIsFree(robots: map<int64, Record>, k: Key) {
    forall id :: id in robots ==> robots[id].key != k
  }

  /** The server never refuses a robot for the ones it has. */
  ghost predicate Lenient(server: Server) {
    forall robots, k :: server.accepts(robots, k)
  }

  /** The server refuses a second robot of the same level, project and name, and nothing else. */
  ghost predicate Strict(server: Server) {
    forall robots, k :: server.accepts(robots, k) <==> NameIsFree(robots, k)
  }

  /** The server takes in a robot whose name is free; it may do as it likes with the others. */
  ghost predicate Receptive(server: Server) {
    forall robots, k :: NameIsFree(robots, k) ==> server.accepts(robots, k)
  }

  /** There are lenient and strict servers for every way of storing permissions, and both are receptive. */
  lemma LenientAndStrictServers(canon: seq<HarborPermission> -> seq<HarborPermission>) returns (lenient: Server, strict: Server)
    ensures lenient.canon == strict.canon == canon
    ensures Lenient(lenient) && Receptive(lenient) && Strict(strict) && Receptive(strict)
  {
    lenient := Server(canon, (robots, k) => true);
    strict := Server(canon, (robots, k) => NameIsFree(robots, k));
  }

  /** Normalising a permission list does not change which projects it names. */
  ghost predicate ScopeKeeping(server: Server) {
    forall perms, project :: OnProject(server.canon(perms), project) <==> OnProject(perms, project)
  }

  predicate NoDuplicates(ids: seq<int64>) {
    forall i, j :: 0 <= i < j < |ids| ==> ids[i] != ids[j]
  }

  ghost predicate Valid(h: Harbor) {
    && NoDuplicates(h.listing)
    && (forall id :: id in h.listing <==> id in h.robots)
    && (forall id :: id in h.robots ==> id < h.nextId)
  }

  function FullName(k: Key): string {
    "robot$" + (if k.level == LEVEL_PROJECT then k.project + "+" + k.short else k.short)
  }

  function Render(id: int64, rec: Record): Robot {
    Robot(id, FullName(rec.key), rec.key.level, rec.description, rec.disable, rec.duration, rec.permissions)
  }

  /** The answer to ListRobot with `q=level=<level>`. */
  function ListRobots(robots: map<int64, Record>, listing: seq<int64>, level: string): seq<Robot> {
    if listing == [] then []
    else
      var rest := ListRobots(robots, listing[1..], level);
      if listing[0] in robots && robots[listing[0]].key.level == level
      then [Render(listing[0], robots[listing[0]])] + rest
      else rest
  }

  lemma {:induction false} ListedExactly(robots: map<int64, Record>, listing: seq<int64>, level: string, r: Robot)
    ensures r in ListRobots(robots, listing, level) <==>
            r.id in listing && r.id in robots && robots[r.id].key.level == level && r == Render(r.id, robots[r.id])
  {
    if listing != [] {
      assert listing == [listing[0]] + listing[1..];
      ListedExactly(robots, listing[1..], level, r);
    }
  }

  // ---------- Server-side effects ----------

  /** The project a project-level creation request is filed under. */
  function RequestNamespace(perms: seq<HarborPermission>): string {
    FirstNamespace(Compared(perms))
  }

  function RequestKey(req: RobotCreate): Key {
    if req.level == LEVEL_PROJECT then Key(req.level, RequestNamespace(req.permissions), req.name)
    else Key(req.level, "", req.name)
  }

  /** The server can still issue an ID. */
  predicate HasRoom(h: Harbor) {
    h.nextId <= MAX_INT64
  }

  predicate Accepts(server: Server, h: Harbor, req: RobotCreate) {
    HasRoom(h) && server.accepts(h.robots, RequestKey(req))
  }

  function CreateRobot(server: Server, h: Harbor, req: RobotCreate): (Harbor, Result<RobotCreated, Error>) {
    if !Accepts(server, h, req) then (h, Err(Api))
    else
      var id: int64 := h.nextId;
      var rec := Record(RequestKey(req), req.description, req.disable, Some(req.duration), server.canon(req.permissions));
      (Harbor(h.robots[id := rec], h.listing + [id], h.nextId + 1), Ok(RobotCreated(id, FullName(rec.key))))
  }

  function UpdatedRecord(server: Server, rec: Record, robot: Robot): Record {
    Record(rec.key, robot.description, robot.disable, robot.duration, server.canon(robot.permissions))
  }

  function UpdateRobot(server: Server, h: Harbor, id: int64, robot: Robot): (Harbor, Result<(), Error>) {
    if id !in h.robots then (h, Err(Api))
    else (h.(robots := h.robots[id := UpdatedRecord(server, h.robots[id], robot)]), Ok(()))
  }

  function Without(ids: seq<int64>, id: int64): seq<int64> {
    if ids == [] then []
    else if ids[0] == id then Without(ids[1..], id)
    else [ids[0]] + Without(ids[1..], id)
  }

  lemma {:induction false} WithoutExactly(ids: seq<int64>, id: int64, other: int64)
    ensures other in Without(ids, id) <==> other in ids && other != id
  {
    if ids != [] {
      WithoutExactly(ids[1..], id, other);
    }
  }

  lemma {:induction false} WithoutNoDuplicates(ids: seq<int64>, id: int64)
    requires NoDuplicates(ids)
    ensures NoDuplicates(Without(ids, id))
  {
    if ids != [] {
      WithoutNoDuplicates(ids[1..], id);
      var rest := Without(ids[1..], id);
      forall j | 0 <= j < |rest|
        ensures rest[j] != ids[0]
      {
        WithoutExactly(ids[1..], id, rest[j]);
      }
    }
  }

  function DeleteRobot(h: Harbor, id: int64): (Harbor, Result<(), Error>) {
    if id !in h.robots then (h, Err(RobotNotFound))
    else (h.(robots := h.robots - {id}, listing := Without(h.listing, id)), Ok(()))
  }

  lemma CreateKeepsValid(server: Server, h: Harbor, req: RobotCreate)
    requires Valid(h)
    ensures Valid(CreateRobot(server, h, req).0)
  {
    if Accepts(server, h, req) {
      var h' := CreateRobot(server, h, req).0;
      var id: int64 := h.nextId;
      assert id !in h.robots && id !in h.listing;
      forall k
        ensures k in h'.listing <==> k in h'.robots
      {
        assert k in h'.listing <==> k in h.listing || k == id;
      }
    }
  }

  lemma UpdateKeepsValid(server: Server, h: Harbor, id: int64, robot: Robot)
    requires Valid(h)
    ensures Valid(UpdateRobot(server, h, id, robot).0)
  {
  }

  lemma DeleteKeepsValid(h: Harbor, id: int64)
    requires Valid(h)
    ensures Valid(DeleteRobot(h, id).0)
  {
    WithoutNoDuplicates(h.listing, id);
    forall k
      ensures k in Without(h.listing, id) <==> k in h.listing && k != id
    {
      WithoutExactly(h.listing, id, k);
    }
  }

  // ---------- The client's calls over an unreliable network ----------

  /** What becomes of one API call. A call that is not delivered reports an error, whether or not it took effect. */
  datatype Fate = Delivered | Dropped | ReplyLost

  function GetByID(h: Harbor, id: int64, fate: Fate): Result<Robot, Error> {
    if fate != Delivered then Err(Api)
    else if id in h.robots then Ok(Render(id, h.robots[id]))
    else Err(RobotNotFound)
  }

  function ListLevel(h: Harbor, level: string, fate: Fate): Result<seq<Robot>, Error> {
    if fate != Delivered then Err(Api) else Ok(ListRobots(h.robots, h.listing, level))
  }

  function GetByName(h: Harbor, name: string, fate: Fate): Result<Robot, Error> {
    match ListLevel(h, LEVEL_SYSTEM, fate)
    case Err(e) => Err(e)
    case Ok(robots) => FirstNamed(robots, name)
  }

  function GetProjectRobots(h: Harbor, project: string, fate: Fate): Result<seq<Robot>, Error> {
    match ListLevel(h, LEVEL_PROJECT, fate)
    case Err(e) => Err(e)
    case Ok(robots) => Ok(ProjectRobots(robots, project))
  }

  function FindInProject(h: Harbor, project: string, name: string, fate: Fate): Result<Robot, Error> {
    match GetProjectRobots(h, project, fate)
    case Err(e) => Err(e)
    case Ok(robots) => FirstNamed(robots, name)
  }

  /** A write seen from the client: what the server does, unless the request or the reply is lost. */
  function Sent<T>(before: Harbor, served: (Harbor, Result<T, Error>), fate: Fate): (Harbor, Result<T, Error>) {
    match fate
    case Delivered => served
    case Dropped => (before, Err(Api))
    case ReplyLost => (served.0, Err(Api))
  }

  function NewRobot(server: Server, h: Harbor, req: RobotCreate, fate: Fate): (Harbor, Result<RobotCreated, Error>) {
    Sent(h, CreateRobot(server, h, req), fate)
  }

  function PutRobot(server: Server, h: Harbor, id: int64, robot: Robot, fate: Fate): (Harbor, Result<(), Error>) {
    Sent(h, UpdateRobot(server, h, id, robot), fate)
  }

  function RemoveRobot(h: Harbor, id: int64, fate: Fate): (Harbor, Result<(), Error>) {
    Sent(h, DeleteRobot(h, id), fate)
  }

  // ---------- When the name lookups are exact ----------

  lemma NameMatchesShortName(k: Key, name: string)
    requires PlusFree(k.short) && PlusFree(name)
    ensures NameMatches(FullName(k), name) <==> k.short == name
  {
    var stripped := if k.level == LEVEL_PROJECT then k.project + "+" + k.short else k.short;
    assert FullName(k)[|"robot$"|..] == stripped;
    if k.level == LEVEL_PROJECT {
      SuffixAfterPlus(k.project, k.short, name);
      assert stripped[|k.project|] == '+';
    } else {
      assert '+' in "+" + name && (HasSuffix(stripped, "+" + name) ==> '+' in stripped);
    }
  }

  /** Whatever the order of the listing, the system scan finds a robot of exactly the requested short name, if any. */
  lemma SystemScanExact(h: Harbor, name: string)
    requires Valid(h) && PlusFree(name)
    requires forall id :: id in h.robots && h.robots[id].key.level == LEVEL_SYSTEM ==> PlusFree(h.robots[id].key.short)
    ensures var found := GetByName(h, name, Delivered);
            && (found.Err? ==> found.error == RobotNotFound)
            && (found.Err? <==> forall id :: id in h.robots ==> h.robots[id].key.level == LEVEL_SYSTEM ==> h.robots[id].key.short != name)
            && (found.Ok? ==>
                  var r := found.value;
                  && r.id in h.robots && r == Render(r.id, h.robots[r.id])
                  && h.robots[r.id].key.level == LEVEL_SYSTEM && h.robots[r.id].key.short == name)
  {
    var listed := ListRobots(h.robots, h.listing, LEVEL_SYSTEM);
    FirstNamedIsAMatch(listed, name);
    var found := FirstNamed(listed, name);
    if found.Ok? {
      ListedExactly(h.robots, h.listing, LEVEL_SYSTEM, found.value);
      NameMatchesShortName(h.robots[found.value.id].key, name);
    } else {
      forall id | id in h.robots && h.robots[id].key.level == LEVEL_SYSTEM
        ensures h.robots[id].key.short != name
      {
        ListedExactly(h.robots, h.listing, LEVEL_SYSTEM, Render(id, h.robots[id]));
        NameMatchesShortName(h.robots[id].key, name);
      }
    }
  }

  /** A project-level record that a scan of `project` for `name` can stop at. */
  predicate Reachable(rec: Record, project: string, name: string) {
    && rec.key.level == LEVEL_PROJECT
    && OnProject(rec.permissions, project)
    && rec.key.short == name
  }

  /** Whatever the order of the listing, the project scan stops at some reachable record, and misses none. */
  lemma ProjectScanExact(h: Harbor, project: string, name: string)
    requires Valid(h) && PlusFree(name)
    requires forall id :: id in h.robots && h.robots[id].key.level == LEVEL_PROJECT ==> PlusFree(h.robots[id].key.short)
    ensures var found := FindInProject(h, project, name, Delivered);
            && (found.Err? ==> found.error == RobotNotFound)
            && (found.Err? <==> forall id :: id in h.robots ==> !Reachable(h.robots[id], project, name))
            && (found.Ok? ==>
                  var r := found.value;
                  && r.id in h.robots && r == Render(r.id, h.robots[r.id])
                  && Reachable(h.robots[r.id], project, name))
  {
    var listed := ListRobots(h.robots, h.listing, LEVEL_PROJECT);
    var filtered := ProjectRobots(listed, project);
    FirstNamedIsAMatch(filtered, name);
    var found := FirstNamed(filtered, name);
    if found.Ok? {
      ProjectRobotsExact(listed, project, found.value);
      ListedExactly(h.robots, h.listing, LEVEL_PROJECT, found.value);
      NameMatchesShortName(h.robots[found.value.id].key, name);
    } else {
      forall id | id in h.robots && Reachable(h.robots[id], project, name)
        ensures false
      {
        var r := Render(id, h.robots[id]);
        ListedExactly(h.robots, h.listing, LEVEL_PROJECT, r);
        ProjectRobotsExact(listed, project, r);
        NameMatchesShortName(h.robots[id].key, name);
      }
    }
  }

  /** Moving one ID to the front of a listing gives another listing of the same table. */
  function Promoted(h: Harbor, id: int64): Harbor {
    h.(listing := [id] + Without(h.listing, id))
  }

  lemma PromotedIsValid(h: Harbor, id: int64)
    requires Valid(h) && id in h.robots
    ensures Valid(Promoted(h, id))
  {
    WithoutNoDuplicates(h.listing, id);
    var listing := Promoted(h, id).listing;
    forall other
      ensures other in listing <==> other in h.listing
    {
      WithoutExactly(h.listing, id, other);
    }
    forall j | 1 <= j < |listing|
      ensures listing[j] != id
    {
      WithoutExactly(h.listing, id, listing[j]);
    }
  }

  lemma PromotedIsFoundFirst(h: Harbor, id: int64, project: string, name: string)
    requires Valid(h) && PlusFree(name) && id in h.robots
    requires PlusFree(h.robots[id].key.short) && Reachable(h.robots[id], project, name)
    ensures FindInProject(Promoted(h, id), project, name, Delivered) == Ok(Render(id, h.robots[id]))
  {
    NameMatchesShortName(h.robots[id].key, name);
    var listing := Promoted(h, id).listing;
    assert listing[1..] == Without(h.listing, id);
    var listed := ListRobots(h.robots, listing, LEVEL_PROJECT);
    assert listed[0] == Render(id, h.robots[id]);
    assert ProjectRobots(listed, project)[0] == listed[0];
  }

  /**
   * The exact condition under which the project scan cannot pick up somebody else's robot: it returns a robot of the
   * project scanned in every listing order if and only if no robot of another project has the same short name and a
   * permission on this one. The name match ignores the project before the `+`, so the permission filter is all that
   * separates projects.
   */
  lemma ProjectScanSafeIff(h: Harbor, project: string, name: string)
    requires Valid(h) && PlusFree(name)
    requires forall id :: id in h.robots && h.robots[id].key.level == LEVEL_PROJECT ==> PlusFree(h.robots[id].key.short)
    ensures (forall h': Harbor :: Valid(h') && h'.robots == h.robots ==>
               var found := FindInProject(h', project, name, Delivered);
               found.Ok? && found.value.id in h.robots ==> h.robots[found.value.id].key.project == project)
            <==>
            (forall id :: id in h.robots ==> Reachable(h.robots[id], project, name) ==> h.robots[id].key.project == project)
  {
    if id :| id in h.robots && Reachable(h.robots[id], project, name) && h.robots[id].key.project != project {
      PromotedIsValid(h, id);
      PromotedIsFoundFirst(h, id, project, name);
      var h' := Promoted(h, id);
      assert Valid(h') && h'.robots == h.robots;
      assert FindInProject(h', project, name, Delivered).value.id == id;
    } else {
      forall h': Harbor | Valid(h') && h'.robots == h.robots && FindInProject(h', project, name, Delivered).Ok?
        ensures var found := FindInProject(h', project, name, Delivered);
                found.value.id in h.robots && h.robots[found.value.id].key.project == project
      {
        ProjectScanExact(h', project, name);
      }
    }
  }
}

/** The four calls of the RobotAccount controller (internal/controller/iam/robotaccount/robotaccount.go). */
module RobotController {
  import opened Wrappers
  import opened Text
  import opened IamModels
  import opened IamClient
  import opened HarborServer
  import opened Managed

  const ROBOT_ID_ANNOTATION: string := "harbor.crossplane.io/robot-id"

  /** A RobotAccount resource as read from or written to the API server. */
  datatype Account = Account(
    name: string, annotations: map<string, string>, spec: Parameters, atProvider: Observation, deleting: bool)

  /** A map read of a missing key yields the empty string. */
  function Annotation(a: Account, key: string): string {
    if key in a.annotations then a.annotations[key] else ""
  }

  function RobotName(a: Account): string {
    var externalName := Annotation(a, EXTERNAL_NAME_ANNOTATION);
    if externalName != "" then externalName else a.name
  }

  /** The ID findRobot looks up directly: the status ID, or else an annotation that parses. */
  function CachedID(a: Account): Option<int64> {
    if a.atProvider.id.Some? then a.atProvider.id else ParseInt(Annotation(a, ROBOT_ID_ANNOTATION))
  }

  /** The specification of findRobot: the four tiers, in order. */
  function Find(h: Harbor, a: Account, fate: Fate): Result<Robot, Error> {
    match CachedID(a)
    case Some(id) => GetByID(h, id, fate)
    case None =>
      if a.spec.level == LEVEL_PROJECT then
        var namespace := FirstNamespace(a.spec.permissions);
        if namespace == "" then Err(NamespaceNotResolved) else FindInProject(h, namespace, RobotName(a), fate)
      else GetByName(h, RobotName(a), fate)
  }

  /** The errors that Observe and Delete read as "there is no robot". */
  predicate MeansAbsent(e: Error) {
    e == NamespaceNotResolved || e == RobotNotFound
  }

  function ObservationOf(robot: Robot): Observation {
    Observation(Some(robot.id), Some(robot.name))
  }

  /** The specification of Observe. */
  function Observed(h: Harbor, a: Account, fate: Fate): (Account, Result<ExternalObservation, Error>) {
    match Find(h, a, fate)
    case Err(e) => (a, if MeansAbsent(e) then Ok(ExternalObservation(false, false)) else Err(Api))
    case Ok(robot) => (a.(atProvider := ObservationOf(robot)), Ok(ExternalObservation(true, UpToDate(a.spec, robot))))
  }

  function WithRobotID(a: Account, id: int64): Account {
    a.(annotations := a.annotations[ROBOT_ID_ANNOTATION := FormatInt(id)])
  }

  /** The specification of Create once ValidatePermissions has passed. */
  function Created(server: Server, h: Harbor, a: Account, fate: Fate): (Harbor, Account, Result<RobotCreated, Error>) {
    var (h', res) := NewRobot(server, h, CreateRequestFor(RobotName(a), a.spec), fate);
    match res
    case Err(e) => (h', a, Err(e))
    case Ok(robot) => (h', WithRobotID(a, robot.id), Ok(robot))
  }

  /** The reading half of Update once ValidatePermissions has passed: the robot it is about to send. */
  function UpdatePrepared(h: Harbor, a: Account, fate: Fate): Result<Robot, Error> {
    match Find(h, a, fate)
    case Err(e) => Err(e)
    case Ok(robot) => Ok(Applied(a.spec, robot))
  }

  /** The reading half of Delete: nothing to delete, or the ID to delete. */
  function DeletePrepared(h: Harbor, a: Account, fate: Fate): Result<Option<int64>, Error> {
    match Find(h, a, fate)
    case Err(e) => if MeansAbsent(e) then Ok(None) else Err(e)
    case Ok(robot) => Ok(Some(robot.id))
  }

  /** The writing half of Delete: a robot that is already gone counts as deleted. */
  function DeleteFinished(h: Harbor, id: int64, fate: Fate): (Harbor, Result<(), Error>) {
    var (h', res) := RemoveRobot(h, id, fate);
    (h', if res == Err(RobotNotFound) then Ok(()) else res)
  }

  /** The specification of Update once ValidatePermissions has passed. */
  function Updated(server: Server, h: Harbor, a: Account, find: Fate, write: Fate): (Harbor, Result<(), Error>) {
    match UpdatePrepared(h, a, find)
    case Err(e) => (h, Err(e))
    case Ok(robot) => PutRobot(server, h, robot.id, robot, write)
  }

  /** The specification of Delete. */
  function Deleted(h: Harbor, a: Account, find: Fate, write: Fate): (Harbor, Result<(), Error>) {
    match DeletePrepared(h, a, find)
    case Err(e) => (h, Err(e))
    case Ok(None) => (h, Ok(()))
    case Ok(Some(id)) => DeleteFinished(h, id, write)
  }

  // ---------- The controller as the provider runs it ----------

  /** The resource object the four calls share and update. */
  class RobotAccount {
    var name: string
    var annotations: map<string, string>
    var spec: Parameters
    var atProvider: Observation
    var deleting: bool

    constructor (a: Account)
      ensures Value() == a
    {
      name, annotations, spec := a.name, a.annotations, a.spec;
      atProvider, deleting := a.atProvider, a.deleting;
    }

    function Value(): Account
      reads this
    {
      Account(name, annotations, spec, atProvider, deleting)
    }
  }

  /** robotAccountsClient: the provider's client, and the server state behind it. */
  class RobotAccountsClient {
    const server: Server
    var harbor: Harbor

    constructor (server: Server, harbor: Harbor)
      ensures this.server == server && this.harbor == harbor
    {
      this.server, this.harbor := server, harbor;
    }

    method GetRobotAccountByID(ctx: Fate, id: int64) returns (res: Result<Robot, Error>)
      ensures res == GetByID(harbor, id, ctx)
    {
      res := GetByID(harbor, id, ctx);
    }

    method GetRobotAccountByName(ctx: Fate, robotName: string) returns (res: Result<Robot, Error>)
      ensures res == GetByName(harbor, robotName, ctx)
    {
      var resp := ListLevel(harbor, LEVEL_SYSTEM, ctx);
      if resp.Err? {
        return Err(resp.error);
      }
      res := ScanSystemRobots(resp.value, robotName);
    }

    method ListProjectRobotsV1(ctx: Fate, projectName: string) returns (res: Result<seq<Robot>, Error>)
      ensures res == GetProjectRobots(harbor, projectName, ctx)
    {
      var resp := ListLevel(harbor, LEVEL_PROJECT, ctx);
      if resp.Err? {
        return Err(resp.error);
      }
      var filtered := FilterProjectRobots(resp.value, projectName);
      res := Ok(filtered);
    }

    method NewRobotAccount(ctx: Fate, robot: RobotCreate) returns (res: Result<RobotCreated, Error>)
      modifies this`harbor
      ensures (harbor, res) == NewRobot(server, old(harbor), robot, ctx)
    {
      var (harbor', res') := NewRobot(server, harbor, robot, ctx);
      harbor, res := harbor', res';
    }

    method UpdateRobotAccount(ctx: Fate, id: int64, robot: Robot) returns (res: Result<(), Error>)
      modifies this`harbor
      ensures (harbor, res) == PutRobot(server, old(harbor), id, robot, ctx)
    {
      var (harbor', res') := PutRobot(server, harbor, id, robot, ctx);
      harbor, res := harbor', res';
    }

    method DeleteRobotAccountByID(ctx: Fate, id: int64) returns (res: Result<(), Error>)
      modifies this`harbor
      ensures (harbor, res) == RemoveRobot(old(harbor), id, ctx)
    {
      var (harbor', res') := RemoveRobot(harbor, id, ctx);
      harbor, res := harbor', res';
    }
  }

  method FindProjectRobotByName(ctx: Fate, cl: RobotAccountsClient, projectName: string, name: string)
    returns (res: Result<Robot, Error>)
    ensures res == FindInProject(cl.harbor, projectName, name, ctx)
  {
    var robots := cl.ListProjectRobotsV1(ctx, projectName);
    if robots.Err? {
      return Err(robots.error);
    }
    res := ScanProjectRobots(robots.value, name);
  }

  /** `external`: each `ctx` parameter is the fate of the API call it is passed to. */
  class External {
    const client: RobotAccountsClient

    constructor (client: RobotAccountsClient)
      ensures this.client == client
    {
      this.client := client;
    }

    method FindRobot(ctx: Fate, account: RobotAccount) returns (res: Result<Robot, Error>)
      ensures res == Find(client.harbor, account.Value(), ctx)
    {
      if account.atProvider.id.Some? {
        res := client.GetRobotAccountByID(ctx, account.atProvider.id.value);
        return;
      }
      var annotationID := Annotation(account.Value(), ROBOT_ID_ANNOTATION);
      if annotationID != "" {
        var parsed := ParseInt(annotationID);
        if parsed.Some? {
          res := client.GetRobotAccountByID(ctx, parsed.value);
          return;
        }
      }
      assert ParseInt(annotationID).None?;
      if account.spec.level == LEVEL_PROJECT {
        var ns := ProjectNamespace(account.spec.permissions);
        if ns == "" {
          return Err(NamespaceNotResolved);
        }
        res := FindProjectRobotByName(ctx, client, ns, RobotName(account.Value()));
        return;
      }
      res := client.GetRobotAccountByName(ctx, RobotName(account.Value()));
    }

    method Observe(ctx: Fate, account: RobotAccount) returns (res: Result<ExternalObservation, Error>)
      modifies account`atProvider
      ensures (account.Value(), res) == Observed(client.harbor, old(account.Value()), ctx)
    {
      var robot := FindRobot(ctx, account);
      if robot.Err? {
        if robot.error == NamespaceNotResolved || robot.error == RobotNotFound {
          return Ok(ExternalObservation(false, false));
        }
        return Err(Api);
      }
      account.atProvider := ObservationOf(robot.value);
      var upToDate := IsRobotAccountUpToDate(account.spec, robot.value);
      res := Ok(ExternalObservation(true, upToDate));
    }

    /** A spec with an empty project namespace sends nothing and changes nothing. */
    method Create(ctx: Fate, account: RobotAccount) returns (res: Result<RobotCreated, Error>)
      modifies account`annotations, client`harbor
      ensures Resolved(account.spec.permissions) ==>
                (client.harbor, account.Value(), res) == Created(client.server, old(client.harbor), old(account.Value()), ctx)
      ensures !Resolved(account.spec.permissions) ==>
                && res.Err? && res.error.NamespaceEmpty? && res.error.index < |account.spec.permissions|
                && account.spec.permissions[res.error.index].kind == "project"
                && account.spec.permissions[res.error.index].namespace == ""
                && (forall i :: 0 <= i < res.error.index && account.spec.permissions[i].kind == "project" ==>
                      account.spec.permissions[i].namespace != "")
                && client.harbor == old(client.harbor) && account.Value() == old(account.Value())
    {
      var err := ValidatePermissions(account.spec.permissions);
      if err.Some? {
        return Err(err.value);
      }
      var name := RobotName(account.Value());
      var req := ToRobotCreate(name, account.spec);
      var created := client.NewRobotAccount(ctx, req);
      if created.Err? {
        return Err(created.error);
      }
      account.annotations := account.annotations[ROBOT_ID_ANNOTATION := FormatInt(created.value.id)];
      res := created;
    }

    method Update(ctxFind: Fate, ctxWrite: Fate, account: RobotAccount) returns (res: Result<(), Error>)
      modifies client`harbor
      ensures Resolved(account.spec.permissions) ==>
                (client.harbor, res) == Updated(client.server, old(client.harbor), account.Value(), ctxFind, ctxWrite)
      ensures !Resolved(account.spec.permissions) ==>
                && res.Err? && res.error.NamespaceEmpty? && res.error.index < |account.spec.permissions|
                && account.spec.permissions[res.error.index].kind == "project"
                && account.spec.permissions[res.error.index].namespace == ""
                && (forall i :: 0 <= i < res.error.index && account.spec.permissions[i].kind == "project" ==>
                      account.spec.permissions[i].namespace != "")
                && client.harbor == old(client.harbor)
    {
      var err := ValidatePermissions(account.spec.permissions);
      if err.Some? {
        return Err(err.value);
      }
      var robot := FindRobot(ctxFind, account);
      if robot.Err? {
        return Err(robot.error);
      }
      var model := new RobotModel(robot.value);
      ApplyRobotAccountParameters(account.spec, model);
      res := client.UpdateRobotAccount(ctxWrite, model.id, model.Value());
    }

    method Delete(ctxFind: Fate, ctxWrite: Fate, account: RobotAccount) returns (res: Result<(), Error>)
      modifies client`harbor
      ensures (client.harbor, res) == Deleted(old(client.harbor), account.Value(), ctxFind, ctxWrite)
    {
      var robot := FindRobot(ctxFind, account);
      if robot.Err? {
        if robot.error == NamespaceNotResolved || robot.error == RobotNotFound {
          return Ok(());
        }
        return Err(robot.error);
      }
      res := client.DeleteRobotAccountByID(ctxWrite, robot.value.id);
      if res.Err? && res.error == RobotNotFound {
        return Ok(());
      }
    }
  }

  // ---------- The ID cache and the name lookups ----------

  /** What Find returns is in the table, under the ID it carries, and is what an ID lookup would return. */
  lemma FoundIsStored(h: Harbor, a: Account, fate: Fate)
    ensures Find(h, a, fate).Ok? ==>
              var r := Find(h, a, fate).value;
              fate == Delivered && r.id in h.robots && r == Render(r.id, h.robots[r.id])
    ensures CachedID(a).Some? && Find(h, a, fate).Ok? ==> Find(h, a, fate).value.id == CachedID(a).value
  {
    if Find(h, a, fate).Ok? && CachedID(a).None? {
      var r := Find(h, a, fate).value;
      var level := if a.spec.level == LEVEL_PROJECT then LEVEL_PROJECT else LEVEL_SYSTEM;
      var listed := ListRobots(h.robots, h.listing, level);
      if a.spec.level == LEVEL_PROJECT {
        var namespace := FirstNamespace(a.spec.permissions);
        FirstNamedIsAMatch(ProjectRobots(listed, namespace), RobotName(a));
        ProjectRobotsExact(listed, namespace, r);
      } else {
        FirstNamedIsAMatch(listed, RobotName(a));
      }
      ListedExactly(h.robots, h.listing, level, r);
    }
  }

  /**
   * The cache agrees with the scan it caches: once Observe has stored the ID of the robot it found, every later lookup
   * on the same table returns that same robot, by ID, whatever the spec, the annotations and the listing order have
   * become.
   */
  lemma CacheAgreement(h: Harbor, a: Account, later: Account, listing: seq<int64>)
    requires Find(h, a, Delivered).Ok?
    requires later.atProvider == Observed(h, a, Delivered).0.atProvider
    ensures Find(h.(listing := listing), later, Delivered) == Find(h, a, Delivered)
    ensures later.atProvider.id == Some(Find(h, a, Delivered).value.id)
    ensures later.atProvider.fullName == Some(Find(h, a, Delivered).value.name)
  {
    FoundIsStored(h, a, Delivered);
  }

  /** So within one reconcile Update sends its request to the robot that Observe compared. */
  lemma UpdateActsOnObserved(h: Harbor, a: Account, h': Harbor, fate: Fate)
    requires Find(h, a, Delivered).Ok?
    requires UpdatePrepared(h', Observed(h, a, Delivered).0, fate).Ok?
    ensures UpdatePrepared(h', Observed(h, a, Delivered).0, fate).value.id == Find(h, a, Delivered).value.id
    ensures UpToDate(a.spec, UpdatePrepared(h', Observed(h, a, Delivered).0, fate).value)
  {
    FoundIsStored(h, a, Delivered);
    FoundIsStored(h', Observed(h, a, Delivered).0, fate);
    AppliedIsUpToDate(a.spec, Find(h', Observed(h, a, Delivered).0, fate).value);
  }

  /** After Create, and as long as the status has no ID, the lookup goes to the very robot that was created. */
  lemma CreatedIsFoundByAnnotation(server: Server, h: Harbor, a: Account, later: Account)
    requires a.atProvider.id.None? && Created(server, h, a, Delivered).2.Ok?
    requires later.atProvider == a.atProvider && later.annotations == Created(server, h, a, Delivered).1.annotations
    ensures var (h', _, res) := Created(server, h, a, Delivered);
            && CachedID(later) == Some(res.value.id)
            && Find(h', later, Delivered) == Ok(Render(res.value.id, h'.robots[res.value.id]))
  {
    FormatParseRoundTrip(Created(server, h, a, Delivered).2.value.id);
  }

  /** An annotation that is not a decimal int64 is ignored: the lookup is the one without any annotation. */
  lemma BadAnnotationFallsThrough(h: Harbor, a: Account, fate: Fate)
    requires a.atProvider.id.None? && ParseInt(Annotation(a, ROBOT_ID_ANNOTATION)).None?
    ensures Find(h, a, fate) == Find(h, a.(annotations := a.annotations - {ROBOT_ID_ANNOTATION}), fate)
  {
    var b := a.(annotations := a.annotations - {ROBOT_ID_ANNOTATION});
    assert Annotation(b, ROBOT_ID_ANNOTATION) == "";
    assert ROBOT_ID_ANNOTATION[0] != EXTERNAL_NAME_ANNOTATION[0];
    assert RobotName(a) == RobotName(b);
  }

  /**
   * The created robot is listed for its project, also by a server that normalises permission lists, and it is up to
   * date exactly when the server stores the compared fields as sent.
   */
  lemma CreatedIsListed(server: Server, h: Harbor, a: Account)
    requires ScopeKeeping(server) && Valid(h) && Accepts(server, h, CreateRequestFor(RobotName(a), a.spec)) && a.spec.level == LEVEL_PROJECT
    requires Resolved(a.spec.permissions) && HasProjectPermission(a.spec.permissions)
    ensures var (h', _, res) := Created(server, h, a, Delivered);
            && res.Ok?
            && Render(res.value.id, h'.robots[res.value.id]) in
               GetProjectRobots(h', FirstNamespace(a.spec.permissions), Delivered).value
            && (UpToDate(a.spec, Render(res.value.id, h'.robots[res.value.id])) <==>
                Compared(server.canon(HarborPermissions(a.spec.permissions))) == a.spec.permissions)
  {
    var (h', _, res) := Created(server, h, a, Delivered);
    var namespace := FirstNamespace(a.spec.permissions);
    var sent := HarborPermissions(a.spec.permissions);
    var r := Render(res.value.id, h'.robots[res.value.id]);
    CreateKeepsValid(server, h, CreateRequestFor(RobotName(a), a.spec));
    ListedExactly(h'.robots, h'.listing, LEVEL_PROJECT, r);
    ProjectRobotsExact(ListRobots(h'.robots, h'.listing, LEVEL_PROJECT), namespace, r);
    ValidatedNamespace(a.spec.permissions);
    FirstNamespaceIsFirst(a.spec.permissions);
    var i :| 0 <= i < |a.spec.permissions| && a.spec.permissions[i].kind == KIND_PROJECT && a.spec.permissions[i].namespace == namespace;
    assert sent[i].kind == KIND_PROJECT && sent[i].namespace == namespace;
    assert OnProject(sent, namespace);
  }

  // ---------- Delete ----------

  /**
   * With a known ID, Delete removes that robot and no other, does not look at the spec or the names, and can be
   * repeated: the second call succeeds and changes nothing.
   */
  lemma DeleteByKnownID(h: Harbor, a: Account, id: int64, spec: Parameters, name: string)
    requires CachedID(a) == Some(id)
    ensures Deleted(h, a, Delivered, Delivered).1 == Ok(())
    ensures Deleted(h, a, Delivered, Delivered).0.robots == h.robots - {id}
    ensures Deleted(h, a.(spec := spec, name := name), Delivered, Delivered) == Deleted(h, a, Delivered, Delivered)
    ensures Deleted(Deleted(h, a, Delivered, Delivered).0, a, Delivered, Delivered) == (Deleted(h, a, Delivered, Delivered).0, Ok(()))
  {
    var h' := Deleted(h, a, Delivered, Delivered).0;
    assert id !in h'.robots;
  }

  /** Without a known ID, Delete still succeeds, and removes the robot the scan finds and no other. */
  lemma DeleteByName(h: Harbor, a: Account)
    requires CachedID(a).None?
    ensures Deleted(h, a, Delivered, Delivered).1 == Ok(())
    ensures Deleted(h, a, Delivered, Delivered).0.robots ==
            match Find(h, a, Delivered) case Ok(r) => h.robots - {r.id} case Err(_) => h.robots
  {
    FoundIsStored(h, a, Delivered);
    ScanErrorsMeanAbsent(h, a);
  }

  /** A delivered lookup fails only by finding nothing, so it never stops a reconcile. */
  lemma ScanErrorsMeanAbsent(h: Harbor, a: Account)
    ensures Find(h, a, Delivered).Err? ==> MeansAbsent(Find(h, a, Delivered).error)
  {
    var system := ListRobots(h.robots, h.listing, LEVEL_SYSTEM);
    var project := ProjectRobots(ListRobots(h.robots, h.listing, LEVEL_PROJECT), FirstNamespace(a.spec.permissions));
    FirstNamedIsAMatch(system, RobotName(a));
    FirstNamedIsAMatch(project, RobotName(a));
  }

  /** Conversely, a call that is not delivered never reports "absent", unless no call was made at all. */
  lemma FailedCallsAreNotAbsence(h: Harbor, a: Account, fate: Fate)
    requires fate != Delivered
    ensures Find(h, a, fate).Err?
    ensures MeansAbsent(Find(h, a, fate).error) <==>
            CachedID(a).None? && a.spec.level == LEVEL_PROJECT && FirstNamespace(a.spec.permissions) == ""
  {
  }
}

/**
 * One worker reconciling one RobotAccount, one API call at a time. The reconciler that calls Observe, Create, Update
 * and Delete is crossplane-runtime, which is not part of the repository; this module is what is assumed of it:
 *   - a reconcile starts from the stored resource and works on a copy of it;
 *   - Observe comes first, then at most one of Create, Update and Delete, as Observe and the deletion mark direct;
 *   - Create's annotations are stored when it succeeds, its status is not (robotaccount.go:42-46); after any other
 *     outcome of a successful Observe the status is stored;
 *   - each of these writes may be lost, and a worker may stop between any two calls;
 *   - a resource that is marked for deletion and observed absent is let go.
 */
module RobotReconcile {
  import opened Wrappers
  import opened Text
  import opened IamModels
  import opened IamClient
  import opened HarborServer
  import opened Managed
  import opened RobotController

  /**
   * Where a worker stands between two API calls; `mem` is its copy of the resource. `Gone` is a resource that has been
   * let go, after a lookup that was blind or was not, or one that its user has yet to create.
   */
  datatype Phase =
    | Idle
    | Seen(mem: Account, seen: ExternalObservation)
    | Updating(mem: Account, robot: Robot)
    | Deleting(mem: Account, id: int64)
    | Gone(blind: bool)
  {
    predicate Active() {
      Seen? || Updating? || Deleting?
    }
  }

  /** A resource as stored, and its worker. */
  datatype Proc = Proc(cr: Account, phase: Phase)

  /** The write requests a worker sends, whatever becomes of them. */
  datatype Request =
    | CreateSent(create: RobotCreate)
    | UpdateSent(id: int64, robot: Robot)
    | DeleteSent(id: int64)

  datatype Outcome = Outcome(harbor: Harbor, proc: Proc, sent: Option<Request>)

  /** Neither an ID nor a project namespace is known: the lookup answers "absent" without asking Harbor. */
  predicate Blind(a: Account) {
    CachedID(a).None? && a.spec.level == LEVEL_PROJECT && FirstNamespace(a.spec.permissions) == ""
  }

  /** The end of a reconcile that observed a robot: the status is written back, or lost. */
  function Finished(cr: Account, mem: Account, saved: bool): Proc {
    Proc(if saved then cr.(atProvider := mem.atProvider) else cr, Idle)
  }

  /** The end of a reconcile that created a robot: the annotation is merged into the stored ones, or lost. */
  function Stamped(cr: Account, mem: Account, saved: bool): Proc
    requires ROBOT_ID_ANNOTATION in mem.annotations
  {
    Proc(if saved
         then cr.(annotations := cr.annotations[ROBOT_ID_ANNOTATION := mem.annotations[ROBOT_ID_ANNOTATION]])
         else cr, Idle)
  }

  function ObserveTurn(h: Harbor, p: Proc, fate: Fate): Outcome {
    var (mem, res) := Observed(h, p.cr, fate);
    match res
    case Err(_) => Outcome(h, p, None)
    case Ok(seen) => Outcome(h, Proc(p.cr, Seen(mem, seen)), None)
  }

  function CreateTurn(server: Server, h: Harbor, p: Proc, mem: Account, fate: Fate, saved: bool): Outcome {
    if !Resolved(mem.spec.permissions) then Outcome(h, Proc(p.cr, Idle), None)
    else
      var (h', mem', res) := Created(server, h, mem, fate);
      Outcome(h', if res.Ok? then Stamped(p.cr, mem', saved) else Proc(p.cr, Idle),
              Some(CreateSent(CreateRequestFor(RobotName(mem), mem.spec))))
  }

  function UpdateTurn(h: Harbor, p: Proc, mem: Account, fate: Fate, saved: bool): Outcome {
    if !Resolved(mem.spec.permissions) then Outcome(h, Finished(p.cr, mem, saved), None)
    else
      match UpdatePrepared(h, mem, fate)
      case Err(_) => Outcome(h, Finished(p.cr, mem, saved), None)
      case Ok(robot) => Outcome(h, Proc(p.cr, Updating(mem, robot)), None)
  }

  function DeleteTurn(h: Harbor, p: Proc, mem: Account, fate: Fate, saved: bool): Outcome {
    match DeletePrepared(h, mem, fate)
    case Ok(Some(id)) => Outcome(h, Proc(p.cr, Deleting(mem, id)), None)
    case _ => Outcome(h, Finished(p.cr, mem, saved), None)
  }

  /** What follows Observe. */
  function SeenTurn(server: Server, h: Harbor, p: Proc, mem: Account, seen: ExternalObservation, fate: Fate, saved: bool): Outcome {
    if mem.deleting then
      if seen.resourceExists then DeleteTurn(h, p, mem, fate, saved)
      else Outcome(h, Proc(p.cr, if saved then Gone(Blind(mem)) else Idle), None)
    else if !seen.resourceExists then CreateTurn(server, h, p, mem, fate, saved)
    else if seen.resourceUpToDate then Outcome(h, Finished(p.cr, mem, saved), None)
    else UpdateTurn(h, p, mem, fate, saved)
  }

  /** The worker's next call, with the fate of the call and of the write of the resource that may follow it. */
  function Turn(server: Server, h: Harbor, p: Proc, fate: Fate, saved: bool): Outcome {
    match p.phase
    case Gone(_) => Outcome(h, p, None)
    case Idle => ObserveTurn(h, p, fate)
    case Seen(mem, seen) => SeenTurn(server, h, p, mem, seen, fate, saved)
    case Updating(mem, robot) =>
      Outcome(PutRobot(server, h, robot.id, robot, fate).0, Finished(p.cr, mem, saved), Some(UpdateSent(robot.id, robot)))
    case Deleting(mem, id) =>
      Outcome(DeleteFinished(h, id, fate).0, Finished(p.cr, mem, saved), Some(DeleteSent(id)))
  }

  // ---------- The blind spot of the lookup ----------

  /**
   * The robot `id` is the resource's own: it is stored, it is what a known ID names, and it is what a name scan, where
   * there is one, can find.
   */
  ghost predicate OwnRobot(h: Harbor, a: Account, id: int64) {
    && id in h.robots
    && (CachedID(a).Some? ==> CachedID(a).value == id)
    && (CachedID(a).None? && a.spec.level != LEVEL_PROJECT ==>
          forall i :: i in h.robots && h.robots[i].key.level == LEVEL_SYSTEM && h.robots[i].key.short == RobotName(a) <==> i == id)
    && (CachedID(a).None? && a.spec.level == LEVEL_PROJECT && FirstNamespace(a.spec.permissions) != "" ==>
          forall i :: i in h.robots && Reachable(h.robots[i], FirstNamespace(a.spec.permissions), RobotName(a)) <==> i == id)
  }

  /**
   * The exact blind spot, for any spec: Observe reports "absent" although the resource's own robot is stored if and
   * only if it knows no ID and no project namespace, because its references are not resolved yet or because it is a
   * project-level spec without any project permission. In every other case it finds that very robot.
   */
  lemma FalseAbsenceIffBlind(h: Harbor, a: Account, id: int64)
    requires Valid(h) && PlusFree(RobotName(a)) && forall i :: i in h.robots ==> PlusFree(h.robots[i].key.short)
    requires OwnRobot(h, a, id)
    ensures Observed(h, a, Delivered).1 == Ok(ExternalObservation(false, false)) <==> Blind(a)
    ensures !Blind(a) ==> Find(h, a, Delivered) == Ok(Render(id, h.robots[id]))
  {
    if CachedID(a).None? {
      if a.spec.level == LEVEL_PROJECT {
        ProjectScanExact(h, FirstNamespace(a.spec.permissions), RobotName(a));
      } else {
        SystemScanExact(h, RobotName(a));
      }
    }
  }

  /** A resource that is deleted while blind is let go at its next reconcile, whatever the server holds. */
  lemma BlindDeletionLeaks(server: Server, h: Harbor, cr: Account)
    requires cr.deleting && Blind(cr)
    ensures var seen := Turn(server, h, Proc(cr, Idle), Delivered, true);
            var done := Turn(server, seen.harbor, seen.proc, Delivered, true);
            done.proc.phase == Gone(true) && done.harbor == h
  {
  }

  // ---------- What holds of one worker on any server whatsoever ----------

  /**
   * The worker's copy never disagrees with the stored status ID, and the robot it is about to change is the one
   * whose ID Observe put into the copy.
   */
  predicate Pinned(p: Proc) {
    && (p.phase.Active() && p.cr.atProvider.id.Some? ==> p.phase.mem.atProvider.id == p.cr.atProvider.id)
    && (p.phase.Seen? && p.phase.seen.resourceExists ==> p.phase.mem.atProvider.id.Some?)
    && (p.phase.Updating? ==> p.phase.mem.atProvider.id == Some(p.phase.robot.id))
    && (p.phase.Deleting? ==> p.phase.mem.atProvider.id == Some(p.phase.id))
  }

  lemma TurnKeepsPinned(server: Server, h: Harbor, p: Proc, fate: Fate, saved: bool)
    requires Pinned(p)
    ensures var p' := Turn(server, h, p, fate, saved).proc;
            Pinned(p') && (p.cr.atProvider.id.Some? ==> p'.cr.atProvider.id == p.cr.atProvider.id)
  {
    if p.phase.Idle? {
      FoundIsStored(h, p.cr, fate);
    } else if p.phase.Active() {
      FoundIsStored(h, p.phase.mem, fate);
    }
  }

  /** The permissions that a request carries. */
  function PermissionsOf(r: Request): seq<HarborPermission> {
    match r
    case CreateSent(create) => create.permissions
    case UpdateSent(_, robot) => robot.permissions
    case DeleteSent(_) => []
  }

  /** The request names no project permission without its namespace. */
  predicate ResolvedRequest(r: Request) {
    forall i :: 0 <= i < |PermissionsOf(r)| && PermissionsOf(r)[i].kind == "project" ==> PermissionsOf(r)[i].namespace != ""
  }

  /** The robot an Update is about to send is the resolved spec of its copy. */
  predicate Prepared(p: Proc) {
    p.phase.Updating? ==>
      Resolved(p.phase.mem.spec.permissions) && p.phase.robot.permissions == HarborPermissions(p.phase.mem.spec.permissions)
  }

  lemma TurnSendsResolved(server: Server, h: Harbor, p: Proc, fate: Fate, saved: bool)
    requires Prepared(p)
    ensures var o := Turn(server, h, p, fate, saved);
            Prepared(o.proc) && (o.sent.Some? ==> ResolvedRequest(o.sent.value))
  {
    if p.phase.Active() {
      HarborPermissionsMeans(p.phase.mem.spec.permissions);
    }
  }
}

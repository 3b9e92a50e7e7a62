/**
 * Every robot has one owner: in every run of any number of resources that keep apart, no two of them ever hold the
 * same robot, and each creates, changes and deletes robots of its own only.
 */
module RobotOwnership {
  import opened Wrappers
  import opened Text
  import opened IamModels
  import opened IamClient
  import opened HarborServer
  import opened Managed
  import opened RobotController
  import opened RobotReconcile
  import opened RobotRuns

  // ---------- Which robots a resource can find ----------

  /**
   * What a resource looks for: robots of its level and short name, on one of the projects that its specs ever start
   * with. `homes` is empty for a system-level resource, and for one that never has a project permission.
   */
  datatype Claim = Claim(level: string, homes: set<string>, short: string)

  predicate ClaimOk(k: Claim) {
    && PlusFree(k.short)
    && (k.level == LEVEL_PROJECT || k.level == LEVEL_SYSTEM)
    && "" !in k.homes
  }

  /** Which robot each resource stands for. */
  ghost predicate PlanOk(plan: map<nat, Claim>) {
    forall c :: c in plan ==> ClaimOk(plan[c])
  }

  /** Some project permission of the spec is on the given project. */
  predicate Names(perms: seq<Permission>, project: string) {
    exists i :: 0 <= i < |perms| && perms[i].kind == KIND_PROJECT && perms[i].namespace == project
  }

  /** A robot written from the spec could be found by `k`. */
  ghost predicate Exposed(spec: Parameters, k: Claim) {
    k.level == LEVEL_PROJECT ==> exists project :: project in k.homes && Names(spec.permissions, project)
  }

  /**
   * A spec that keeps apart: the project that its name scan looks at, if any, is one of the resource's own, and once it
   * is resolved, and so can be written to a robot, no other resource of its level and short name could find that
   * robot. Permissions on projects where no such resource looks, as many as there are, are free.
   */
  ghost predicate SpecApart(plan: map<nat, Claim>, c: nat, spec: Parameters)
    requires c in plan
  {
    && spec.level == plan[c].level
    && (plan[c].level == LEVEL_PROJECT ==>
          FirstNamespace(spec.permissions) == "" || FirstNamespace(spec.permissions) in plan[c].homes)
    && (Resolved(spec.permissions) ==>
          forall d :: d in plan && d != c && plan[d].level == plan[c].level && plan[d].short == plan[c].short ==>
                        !Exposed(spec, plan[d]))
  }

  /** A name scan on behalf of the claim can stop at the record. */
  ghost predicate Findable(rec: Record, k: Claim) {
    && rec.key.level == k.level && rec.key.short == k.short
    && (k.level == LEVEL_PROJECT ==> exists project :: project in k.homes && OnProject(rec.permissions, project))
  }

  predicate Owns(owner: map<int64, nat>, id: int64, c: nat) {
    id in owner && owner[id] == c
  }

  /** The resource claims the robot: by its status ID, or by an annotation that parses. */
  predicate Holds(a: Account, id: int64) {
    a.atProvider.id == Some(id) || ParseInt(Annotation(a, ROBOT_ID_ANNOTATION)) == Some(id)
  }

  // ---------- The ownership invariant ----------

  /** Only its owner can find a robot, and no ID is issued twice. */
  ghost predicate HarborOk(plan: map<nat, Claim>, h: Harbor, owner: map<int64, nat>) {
    && Valid(h)
    && (forall id :: id in h.robots ==> PlusFree(h.robots[id].key.short))
    && (forall id :: id in owner ==> id < h.nextId && owner[id] in plan)
    && (forall id :: id in owner && id in h.robots ==>
          h.robots[id].key.level == plan[owner[id]].level && h.robots[id].key.short == plan[owner[id]].short)
    && (forall id, c :: id in h.robots && c in plan && Findable(h.robots[id], plan[c]) ==> Owns(owner, id, c))
  }

  ghost predicate AccountOk(plan: map<nat, Claim>, c: nat, a: Account, owner: map<int64, nat>)
    requires c in plan
  {
    && RobotName(a) == plan[c].short
    && SpecApart(plan, c, a.spec)
    && (forall id: int64 :: Holds(a, id) ==> Owns(owner, id, c))
  }

  predicate PhaseOk(p: Proc) {
    match p.phase
    case Seen(mem, seen) => seen.resourceExists ==> mem.atProvider.id.Some?
    case Updating(mem, robot) =>
      Holds(mem, robot.id) && Resolved(mem.spec.permissions) && robot.permissions == HarborPermissions(mem.spec.permissions)
    case Deleting(mem, id) => mem.deleting && Holds(mem, id)
    case _ => true
  }

  ghost predicate ProcOk(plan: map<nat, Claim>, c: nat, p: Proc, owner: map<int64, nat>)
    requires c in plan
  {
    && AccountOk(plan, c, p.cr, owner)
    && (p.phase.Active() ==> AccountOk(plan, c, p.phase.mem, owner) && (p.phase.mem.deleting ==> p.cr.deleting))
    && PhaseOk(p)
  }

  ghost predicate Inv(plan: map<nat, Claim>, w: World) {
    && w.procs.Keys == plan.Keys
    && HarborOk(plan, w.harbor, w.owner)
    && (forall c :: c in plan ==> ProcOk(plan, c, w.procs[c], w.owner))
  }

  /**
   * Other users of the server may create, change, delete and list robots as they like, as long as none but its owner
   * can find a robot afterwards, IDs are not issued twice, and a robot keeps the name it was created with.
   */
  ghost predicate OthersOk(plan: map<nat, Claim>, w: World, h': Harbor) {
    && Valid(h') && w.harbor.nextId <= h'.nextId
    && (forall id :: id in h'.robots ==> PlusFree(h'.robots[id].key.short))
    && (forall id :: id in h'.robots && id !in w.harbor.robots ==> w.harbor.nextId <= id)
    && (forall id :: id in h'.robots && id in w.harbor.robots ==> h'.robots[id].key == w.harbor.robots[id].key)
    && (forall id, c :: id in h'.robots && c in plan && Findable(h'.robots[id], plan[c]) ==> Owns(w.owner, id, c))
  }

  /** A resource as its user creates it: without a status, and without an ID annotation that parses. */
  ghost predicate NewAccount(plan: map<nat, Claim>, c: nat, cr: Account)
    requires c in plan
  {
    RobotName(cr) == plan[c].short && SpecApart(plan, c, cr.spec) && CachedID(cr).None?
  }

  ghost predicate Admissible(plan: map<nat, Claim>, w: World, a: Action) {
    match a
    case Edit(c, spec) => c in plan ==> SpecApart(plan, c, spec)
    case Appear(c, cr) => c in plan ==> c in w.procs && w.procs[c].phase.Gone? && NewAccount(plan, c, cr)
    case Others(h) => OthersOk(plan, w, h)
    case _ => true
  }

  ghost predicate RunOk(server: Server, plan: map<nat, Claim>, w: World, acts: seq<Action>)
    decreases |acts|
  {
    acts != [] ==> Admissible(plan, w, acts[0]) && RunOk(server, plan, Next(server, w, acts[0]), acts[1..])
  }

  /** New resources, some of them yet to appear, on a server where each robot that they can find has one owner. */
  ghost predicate Init(plan: map<nat, Claim>, w: World) {
    && w.procs.Keys == plan.Keys && w.log == []
    && HarborOk(plan, w.harbor, w.owner) && w.owner.Keys <= w.harbor.robots.Keys
    && (forall c :: c in plan ==>
          NewAccount(plan, c, w.procs[c].cr) && (w.procs[c].phase == Idle || w.procs[c].phase == Gone(true)))
  }

  lemma InitIsInv(plan: map<nat, Claim>, w: World)
    requires PlanOk(plan) && Init(plan, w)
    ensures Inv(plan, w)
  {
  }

  /** Any number of new resources may start on an empty server. */
  lemma FreshStart(plan: map<nat, Claim>, procs: map<nat, Proc>)
    requires procs.Keys == plan.Keys
    requires forall c :: c in plan ==> procs[c].phase == Idle && NewAccount(plan, c, procs[c].cr)
    ensures Init(plan, World(Harbor(map[], [], 1), procs, map[], []))
  {
  }

  // ---------- One call of a worker ----------

  /** An owner's lookup finds robots of its own only. */
  lemma OwnerLookup(plan: map<nat, Claim>, c: nat, a: Account, h: Harbor, owner: map<int64, nat>, fate: Fate)
    requires PlanOk(plan) && c in plan && AccountOk(plan, c, a, owner) && HarborOk(plan, h, owner)
    ensures Find(h, a, fate).Ok? ==> Owns(owner, Find(h, a, fate).value.id, c) && Find(h, a, fate).value.id in h.robots
  {
    FoundIsStored(h, a, fate);
    match CachedID(a)
    case Some(id) => assert Holds(a, id);
    case None =>
      if Find(h, a, fate).Ok? {
        var rec := h.robots[Find(h, a, fate).value.id];
        if plan[c].level == LEVEL_PROJECT {
          var project := FirstNamespace(a.spec.permissions);
          ProjectScanExact(h, project, plan[c].short);
          assert project in plan[c].homes && OnProject(rec.permissions, project);
        } else {
          SystemScanExact(h, plan[c].short);
        }
        assert Findable(rec, plan[c]);
      }
  }

  /** The server stores a spec as a robot on the very projects that the spec names. */
  lemma WrittenNames(server: Server, perms: seq<Permission>, project: string)
    requires ScopeKeeping(server)
    ensures OnProject(server.canon(HarborPermissions(perms)), project) <==> Names(perms, project)
  {
    var sent := HarborPermissions(perms);
    assert OnProject(server.canon(sent), project) <==> OnProject(sent, project);
    if Names(perms, project) {
      var i :| 0 <= i < |perms| && perms[i].kind == KIND_PROJECT && perms[i].namespace == project;
      assert sent[i].kind == KIND_PROJECT && sent[i].namespace == project;
    }
  }

  /** A robot that a spec is written to stays out of the sight of every other resource. */
  lemma WrittenIsApart(server: Server, plan: map<nat, Claim>, c: nat, spec: Parameters, rec: Record, d: nat)
    requires ScopeKeeping(server) && PlanOk(plan) && c in plan && d in plan && SpecApart(plan, c, spec)
    requires Resolved(spec.permissions)
    requires rec.key.level == plan[c].level && rec.key.short == plan[c].short
    requires rec.permissions == server.canon(HarborPermissions(spec.permissions)) && Findable(rec, plan[d])
    ensures d == c
  {
    if plan[c].level == LEVEL_PROJECT {
      var project :| project in plan[d].homes && OnProject(rec.permissions, project);
      WrittenNames(server, spec.permissions, project);
    }
  }

  /** Robots of others are untouched, surviving robots keep their key, and only the next ID may be issued. */
  ghost predicate Touches(h: Harbor, h': Harbor, owner: map<int64, nat>, c: nat) {
    && h.nextId <= h'.nextId
    && (forall id :: id in h.robots && !Owns(owner, id, c) ==> id in h'.robots && h'.robots[id] == h.robots[id])
    && (forall id :: id in h.robots && id in h'.robots ==> h'.robots[id].key == h.robots[id].key)
    && (forall id :: id in h'.robots && id !in h.robots ==> Born(h, h') == Some(id))
    && (Born(h, h').Some? ==> h'.nextId == h.nextId + 1)
  }

  /** A change of the table on behalf of `c` that keeps the table in order. */
  ghost predicate GoodChange(plan: map<nat, Claim>, h: Harbor, h': Harbor, owner: map<int64, nat>, c: nat) {
    HarborOk(plan, h', WithOwner(owner, Born(h, h'), c)) && Touches(h, h', owner, c)
  }

  lemma NoChangeIsGood(plan: map<nat, Claim>, h: Harbor, owner: map<int64, nat>, c: nat)
    requires HarborOk(plan, h, owner)
    ensures GoodChange(plan, h, h, owner, c)
  {
  }

  lemma AddedIsGood(plan: map<nat, Claim>, c: nat, rec: Record, h: Harbor, h': Harbor, owner: map<int64, nat>)
    requires c in plan && ClaimOk(plan[c]) && HarborOk(plan, h, owner) && HasRoom(h) && Valid(h')
    requires h'.nextId == h.nextId + 1 && h.nextId !in h.robots && h'.robots == h.robots[h.nextId := rec]
    requires rec.key.level == plan[c].level && rec.key.short == plan[c].short
    requires forall d :: d in plan && Findable(rec, plan[d]) ==> d == c
    ensures GoodChange(plan, h, h', owner, c)
  {
    hide Findable, Valid;
    var owner' := WithOwner(owner, Born(h, h'), c);
    assert h.nextId !in owner && owner' == owner[h.nextId := c];
    forall id, d | id in h'.robots && d in plan && Findable(h'.robots[id], plan[d])
      ensures Owns(owner', id, d)
    {
      assert id != h.nextId ==> h'.robots[id] == h.robots[id];
    }
  }

  lemma CreateIsGood(server: Server, plan: map<nat, Claim>, c: nat, a: Account, h: Harbor, owner: map<int64, nat>)
    requires ScopeKeeping(server) && PlanOk(plan) && c in plan && HarborOk(plan, h, owner)
    requires RobotName(a) == plan[c].short && SpecApart(plan, c, a.spec) && Resolved(a.spec.permissions)
    ensures GoodChange(plan, h, CreateRobot(server, h, CreateRequestFor(RobotName(a), a.spec)).0, owner, c)
  {
    hide FirstNamespace, Findable;
    var req := CreateRequestFor(RobotName(a), a.spec);
    CreateKeepsValid(server, h, req);
    if Accepts(server, h, req) {
      var h' := CreateRobot(server, h, req).0;
      var rec := h'.robots[h.nextId];
      forall d | d in plan && Findable(rec, plan[d])
        ensures d == c
      {
        WrittenIsApart(server, plan, c, a.spec, rec, d);
      }
      AddedIsGood(plan, c, rec, h, h', owner);
    } else {
      NoChangeIsGood(plan, h, owner, c);
    }
  }

  lemma UpdateIsGood(
    server: Server, plan: map<nat, Claim>, c: nat, spec: Parameters, robot: Robot, h: Harbor, owner: map<int64, nat>)
    requires ScopeKeeping(server) && PlanOk(plan) && c in plan && HarborOk(plan, h, owner)
    requires SpecApart(plan, c, spec) && Resolved(spec.permissions)
    requires robot.permissions == HarborPermissions(spec.permissions)
    requires Owns(owner, robot.id, c)
    ensures GoodChange(plan, h, UpdateRobot(server, h, robot.id, robot).0, owner, c)
  {
    hide Findable, SpecApart;
    UpdateKeepsValid(server, h, robot.id, robot);
    if robot.id in h.robots {
      var h' := UpdateRobot(server, h, robot.id, robot).0;
      forall d | d in plan && Findable(h'.robots[robot.id], plan[d])
        ensures d == c
      {
        WrittenIsApart(server, plan, c, spec, h'.robots[robot.id], d);
      }
    }
  }

  lemma DeleteIsGood(plan: map<nat, Claim>, c: nat, id: int64, h: Harbor, owner: map<int64, nat>)
    requires HarborOk(plan, h, owner) && Owns(owner, id, c)
    ensures GoodChange(plan, h, DeleteRobot(h, id).0, owner, c)
  {
    DeleteKeepsValid(h, id);
  }

  lemma {:induction false} TurnIsGood(
    server: Server, plan: map<nat, Claim>, c: nat, h: Harbor, p: Proc, owner: map<int64, nat>, fate: Fate, saved: bool)
    requires ScopeKeeping(server) && PlanOk(plan) && c in plan && HarborOk(plan, h, owner) && ProcOk(plan, c, p, owner)
    ensures GoodChange(plan, h, Turn(server, h, p, fate, saved).harbor, owner, c)
  {
    hide HarborOk, GoodChange;
    NoChangeIsGood(plan, h, owner, c);
    match p.phase
    case Seen(mem, _) =>
      if Resolved(mem.spec.permissions) {
        CreateIsGood(server, plan, c, mem, h, owner);
      }
    case Updating(mem, robot) => UpdateIsGood(server, plan, c, mem.spec, robot, h, owner);
    case Deleting(mem, id) => DeleteIsGood(plan, c, id, h, owner);
    case _ => {}
  }

  lemma AccountStaysOk(plan: map<nat, Claim>, c: nat, a: Account, owner: map<int64, nat>, owner': map<int64, nat>)
    requires c in plan && AccountOk(plan, c, a, owner)
    requires forall id :: Owns(owner, id, c) ==> Owns(owner', id, c)
    ensures AccountOk(plan, c, a, owner')
  {
  }

  /** A worker's state does not depend on the server, and only on the robots that the worker owns. */
  lemma ProcFrame(plan: map<nat, Claim>, c: nat, p: Proc, owner: map<int64, nat>, owner': map<int64, nat>)
    requires c in plan && ProcOk(plan, c, p, owner)
    requires forall id :: Owns(owner, id, c) ==> Owns(owner', id, c)
    ensures ProcOk(plan, c, p, owner')
  {
    AccountStaysOk(plan, c, p.cr, owner, owner');
    if p.phase.Active() {
      AccountStaysOk(plan, c, p.phase.mem, owner, owner');
    }
  }

  lemma ObserveKeepsProc(plan: map<nat, Claim>, c: nat, h: Harbor, p: Proc, owner: map<int64, nat>, fate: Fate)
    requires PlanOk(plan) && c in plan && HarborOk(plan, h, owner) && ProcOk(plan, c, p, owner) && p.phase.Idle?
    ensures ProcOk(plan, c, ObserveTurn(h, p, fate).proc, owner) && ObserveTurn(h, p, fate).harbor == h
  {
    hide Find, HarborOk;
    OwnerLookup(plan, c, p.cr, h, owner, fate);
    var (mem, res) := Observed(h, p.cr, fate);
    if res.Ok? {
      assert forall id: int64 :: Holds(mem, id) ==> Holds(p.cr, id) || (Find(h, p.cr, fate).Ok? && id == Find(h, p.cr, fate).value.id);
      assert AccountOk(plan, c, mem, owner);
    }
  }

  /** Storing what the worker's copy knows keeps the stored resource good. */
  lemma FinishedIsOk(plan: map<nat, Claim>, c: nat, p: Proc, saved: bool, owner: map<int64, nat>)
    requires c in plan && ProcOk(plan, c, p, owner) && p.phase.Active()
    ensures ProcOk(plan, c, Finished(p.cr, p.phase.mem, saved), owner)
  {
    var a := Finished(p.cr, p.phase.mem, saved).cr;
    assert forall id: int64 :: Holds(a, id) ==> Holds(p.cr, id) || Holds(p.phase.mem, id);
  }

  lemma StampedHolds(cr: Account, mem: Account, id: int64, saved: bool)
    ensures var a := Stamped(cr, WithRobotID(mem, id), saved).cr;
            && RobotName(a) == RobotName(cr) && a.spec == cr.spec
            && (forall other: int64 :: Holds(a, other) ==> Holds(cr, other) || other == id)
  {
    FormatParseRoundTrip(id);
    assert ROBOT_ID_ANNOTATION[0] != EXTERNAL_NAME_ANNOTATION[0];
  }

  lemma CreateKeepsProc(
    server: Server, plan: map<nat, Claim>, c: nat, h: Harbor, p: Proc, owner: map<int64, nat>, fate: Fate, saved: bool)
    requires c in plan && HarborOk(plan, h, owner) && ProcOk(plan, c, p, owner) && p.phase.Seen?
    ensures var o := CreateTurn(server, h, p, p.phase.mem, fate, saved);
            ProcOk(plan, c, o.proc, WithOwner(owner, Born(h, o.harbor), c))
  {
    hide SpecApart;
    var o := CreateTurn(server, h, p, p.phase.mem, fate, saved);
    var owner' := WithOwner(owner, Born(h, o.harbor), c);
    AccountStaysOk(plan, c, p.cr, owner, owner');
    if HasRoom(h) {
      StampedHolds(p.cr, p.phase.mem, h.nextId, saved);
    }
  }

  /** What a found robot leads to: nothing, or the first half of an Update or a Delete. */
  lemma FoundKeepsProc(
    server: Server, plan: map<nat, Claim>, c: nat, h: Harbor, p: Proc, owner: map<int64, nat>, fate: Fate, saved: bool)
    requires c in plan && ProcOk(plan, c, p, owner) && p.phase.Seen?
    requires p.phase.mem.deleting || p.phase.seen.resourceExists
    ensures var o := Turn(server, h, p, fate, saved);
            ProcOk(plan, c, o.proc, owner) && o.harbor == h
  {
    hide AccountOk, CreateTurn;
    FinishedIsOk(plan, c, p, saved, owner);
    FoundIsStored(h, p.phase.mem, fate);
  }

  lemma {:induction false} TurnKeepsProc(
    server: Server, plan: map<nat, Claim>, c: nat, h: Harbor, p: Proc, owner: map<int64, nat>, fate: Fate, saved: bool)
    requires PlanOk(plan) && c in plan && HarborOk(plan, h, owner) && ProcOk(plan, c, p, owner)
    ensures var o := Turn(server, h, p, fate, saved);
            ProcOk(plan, c, o.proc, WithOwner(owner, Born(h, o.harbor), c))
  {
    hide ProcOk, HarborOk, ObserveTurn, CreateTurn;
    match p.phase
    case Idle => ObserveKeepsProc(plan, c, h, p, owner, fate);
    case Seen(mem, seen) =>
      if mem.deleting || seen.resourceExists {
        FoundKeepsProc(server, plan, c, h, p, owner, fate, saved);
      } else {
        CreateKeepsProc(server, plan, c, h, p, owner, fate, saved);
      }
    case Gone(_) => {}
    case _ => FinishedIsOk(plan, c, p, saved, owner);
  }

  // ---------- The invariant ----------

  lemma {:induction false} WorkKeepsInv(server: Server, plan: map<nat, Claim>, w: World, c: nat, fate: Fate, saved: bool)
    requires ScopeKeeping(server) && PlanOk(plan) && Inv(plan, w) && c in plan
    ensures Inv(plan, Worked(server, w, c, fate, saved))
  {
    hide Turn, ProcOk;
    var w' := Worked(server, w, c, fate, saved);
    TurnIsGood(server, plan, c, w.harbor, w.procs[c], w.owner, fate, saved);
    TurnKeepsProc(server, plan, c, w.harbor, w.procs[c], w.owner, fate, saved);
    forall d | d in plan && d != c
      ensures ProcOk(plan, d, w'.procs[d], w'.owner)
    {
      ProcFrame(plan, d, w.procs[d], w.owner, w'.owner);
    }
  }

  lemma EditKeepsProc(plan: map<nat, Claim>, c: nat, p: Proc, owner: map<int64, nat>, spec: Parameters, deleting: bool)
    requires c in plan && ProcOk(plan, c, p, owner) && SpecApart(plan, c, spec) && (p.cr.deleting ==> deleting)
    ensures ProcOk(plan, c, p.(cr := p.cr.(spec := spec, deleting := deleting)), owner)
  {
    var a := p.cr.(spec := spec, deleting := deleting);
    assert forall id: int64 :: Holds(a, id) ==> Holds(p.cr, id);
    assert RobotName(a) == RobotName(p.cr);
  }

  lemma NewAccountIsOk(plan: map<nat, Claim>, c: nat, cr: Account, owner: map<int64, nat>)
    requires c in plan && NewAccount(plan, c, cr)
    ensures ProcOk(plan, c, Proc(cr, Idle), owner)
  {
  }

  lemma {:induction false} MoveKeepsProc(plan: map<nat, Claim>, w: World, a: Action)
    requires !a.Work? && !a.Others? && a.c in plan && a.c in w.procs && Admissible(plan, w, a)
    requires ProcOk(plan, a.c, w.procs[a.c], w.owner)
    ensures ProcOk(plan, a.c, Moved(w.procs[a.c], a), w.owner)
  {
    hide SpecApart;
    var p := w.procs[a.c];
    match a
    case Edit(c, spec) =>
      EditKeepsProc(plan, c, p, w.owner, spec, p.cr.deleting);
      assert p.cr.(spec := spec, deleting := p.cr.deleting) == p.cr.(spec := spec);
    case MarkDeleted(c) =>
      EditKeepsProc(plan, c, p, w.owner, p.cr.spec, true);
      assert p.cr.(spec := p.cr.spec, deleting := true) == p.cr.(deleting := true);
    case Appear(c, cr) =>
      NewAccountIsOk(plan, c, cr, w.owner);
    case _ => {}
  }

  lemma OthersKeepHarbor(plan: map<nat, Claim>, w: World, h': Harbor)
    requires HarborOk(plan, w.harbor, w.owner) && OthersOk(plan, w, h')
    ensures HarborOk(plan, h', w.owner)
  {
    hide Findable;
  }

  lemma {:induction false} StepKeepsInv(server: Server, plan: map<nat, Claim>, w: World, a: Action)
    requires ScopeKeeping(server) && PlanOk(plan) && Inv(plan, w) && Admissible(plan, w, a)
    ensures Inv(plan, Next(server, w, a))
  {
    hide Worked, Moved, ProcOk, HarborOk, OthersOk, NewAccount, SpecApart;
    if a.Others? {
      OthersKeepHarbor(plan, w, a.harbor);
    } else if a.c in plan {
      if a.Work? {
        WorkKeepsInv(server, plan, w, a.c, a.fate, a.saved);
      } else {
        MoveKeepsProc(plan, w, a);
      }
    }
  }

  lemma {:induction false} RunKeepsInv(server: Server, plan: map<nat, Claim>, w: World, acts: seq<Action>)
    requires ScopeKeeping(server) && PlanOk(plan) && Inv(plan, w) && RunOk(server, plan, w, acts)
    ensures Inv(plan, Run(server, w, acts))
    decreases |acts|
  {
    if acts != [] {
      StepKeepsInv(server, plan, w, acts[0]);
      RunKeepsInv(server, plan, Next(server, w, acts[0]), acts[1..]);
    }
  }

  // ---------- What it means for the users ----------

  /**
   * In every run, no two resources hold the same robot ID, whether in the status or in the annotation, and every ID
   * held is that of a robot of the holder's own.
   */
  lemma {:induction false} Ownership(
    server: Server, plan: map<nat, Claim>, w: World, acts: seq<Action>, c: nat, d: nat, id: int64)
    requires ScopeKeeping(server) && PlanOk(plan) && Init(plan, w) && RunOk(server, plan, w, acts)
    requires c in plan && d in plan
    ensures var end := Run(server, w, acts);
            && c in end.procs && d in end.procs
            && (Holds(end.procs[c].cr, id) ==> Owns(end.owner, id, c))
            && (Holds(end.procs[c].cr, id) && Holds(end.procs[d].cr, id) ==> c == d)
  {
    InitIsInv(plan, w);
    RunKeepsInv(server, plan, w, acts);
    var end := Run(server, w, acts);
    assert ProcOk(plan, c, end.procs[c], end.owner) && ProcOk(plan, d, end.procs[d], end.owner);
  }

  lemma {:induction false} OneCall(server: Server, plan: map<nat, Claim>, w: World, c: nat, fate: Fate, saved: bool)
    requires ScopeKeeping(server) && PlanOk(plan) && Inv(plan, w) && c in plan
    ensures var w' := Next(server, w, Work(c, fate, saved));
            && (forall id :: id in w.harbor.robots && !Owns(w.owner, id, c) ==>
                  id in w'.harbor.robots && w'.harbor.robots[id] == w.harbor.robots[id])
            && (forall id :: id in w'.harbor.robots && id !in w.harbor.robots ==> Owns(w'.owner, id, c))
            && (forall id, d :: d != c || id in w.harbor.robots ==> (Owns(w'.owner, id, d) <==> Owns(w.owner, id, d)))
  {
    hide Turn, ProcOk;
    TurnIsGood(server, plan, c, w.harbor, w.procs[c], w.owner, fate, saved);
  }

  /**
   * Whatever a worker's next call is and whatever becomes of it, it changes or deletes no robot but its own, and a
   * robot that it creates is its own.
   */
  lemma {:induction false} OwnRobotOnly(
    server: Server, plan: map<nat, Claim>, w: World, acts: seq<Action>, c: nat, fate: Fate, saved: bool)
    requires ScopeKeeping(server) && PlanOk(plan) && Init(plan, w) && RunOk(server, plan, w, acts)
    requires c in plan
    ensures var before := Run(server, w, acts);
            var after := Next(server, before, Work(c, fate, saved));
            && (forall id :: id in before.harbor.robots && !Owns(before.owner, id, c) ==>
                  id in after.harbor.robots && after.harbor.robots[id] == before.harbor.robots[id])
            && (forall id :: id in after.harbor.robots && id !in before.harbor.robots ==> Owns(after.owner, id, c))
            && (forall id, d :: d != c || id in before.harbor.robots ==>
                  (Owns(after.owner, id, d) <==> Owns(before.owner, id, d)))
  {
    InitIsInv(plan, w);
    RunKeepsInv(server, plan, w, acts);
    OneCall(server, plan, Run(server, w, acts), c, fate, saved);
  }

  lemma {:induction false} UnmanagedRun(server: Server, plan: map<nat, Claim>, w: World, acts: seq<Action>, id: int64)
    requires ScopeKeeping(server) && PlanOk(plan) && Inv(plan, w) && RunOk(server, plan, w, acts)
    requires forall i :: 0 <= i < |acts| ==> !acts[i].Others?
    requires id in w.harbor.robots && id !in w.owner
    ensures id in Run(server, w, acts).harbor.robots
    ensures Run(server, w, acts).harbor.robots[id] == w.harbor.robots[id]
    decreases |acts|
  {
    hide Worked, ProcOk, HarborOk;
    if acts != [] {
      StepKeepsInv(server, plan, w, acts[0]);
      if acts[0].Work? && acts[0].c in plan {
        OneCall(server, plan, w, acts[0].c, acts[0].fate, acts[0].saved);
        var owner' := Next(server, w, acts[0]).owner;
        assert id in owner' ==> Owns(owner', id, owner'[id]);
      }
      UnmanagedRun(server, plan, Next(server, w, acts[0]), acts[1..], id);
    }
  }

  /** However many resources are reconciled, edited and deleted, a robot that belongs to none of them is never changed. */
  lemma {:induction false} UnmanagedRobotsUnchanged(
    server: Server, plan: map<nat, Claim>, w: World, acts: seq<Action>, id: int64)
    requires ScopeKeeping(server) && PlanOk(plan) && Init(plan, w) && RunOk(server, plan, w, acts)
    requires forall i :: 0 <= i < |acts| ==> !acts[i].Others?
    requires id in w.harbor.robots && id !in w.owner
    ensures id in Run(server, w, acts).harbor.robots
    ensures Run(server, w, acts).harbor.robots[id] == w.harbor.robots[id]
  {
    InitIsInv(plan, w);
    UnmanagedRun(server, plan, w, acts, id);
  }
}

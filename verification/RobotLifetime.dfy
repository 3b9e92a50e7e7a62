/**
 * From creation to deletion: when nobody else deletes its robot, its project stays the same, and its specs can be
 * looked up by name, a resource creates one robot, never loses it, and leaves nothing behind.
 */
module RobotLifetime {
  import opened Wrappers
  import opened Text
  import opened IamModels
  import opened IamClient
  import opened HarborServer
  import opened RobotController
  import opened RobotReconcile
  import opened RobotRuns
  import opened RobotOwnership

  // ---------- The setting ----------

  /** Each project-level resource stays on one project. */
  ghost predicate OneHome(plan: map<nat, Claim>) {
    forall c, p, q :: c in plan && p in plan[c].homes && q in plan[c].homes ==> p == q
  }

  /** The robot of the spec can be found by name: a project-level spec has a project permission, resolved or not. */
  predicate Discoverable(spec: Parameters) {
    spec.level == LEVEL_PROJECT ==> HasProjectPermission(spec.permissions)
  }

  predicate Live(h: Harbor, owner: map<int64, nat>, id: int64, c: nat) {
    id in h.robots && Owns(owner, id, c)
  }

  ghost predicate NoLive(h: Harbor, owner: map<int64, nat>, c: nat) {
    forall id :: !Live(h, owner, id, c)
  }

  /** Every robot of the resource is where its name scan looks. */
  ghost predicate Anchored(k: Claim, h: Harbor, owner: map<int64, nat>, c: nat) {
    k.level == LEVEL_PROJECT ==>
      forall id, project :: Live(h, owner, id, c) && project in k.homes ==> OnProject(h.robots[id].permissions, project)
  }

  /** A robot ID that the resource or its worker knows. */
  predicate Knows(p: Proc, id: int64) {
    Holds(p.cr, id) || (p.phase.Active() && Holds(p.phase.mem, id))
  }

  /** The resource is being deleted, and its worker is aware of it. */
  predicate Doomed(p: Proc) {
    p.cr.deleting && (p.phase.Active() ==> p.phase.mem.deleting)
  }

  /** All the robots that the resource has or knows are one and the same. */
  ghost predicate Sole(p: Proc, h: Harbor, owner: map<int64, nat>, c: nat) {
    forall i, j :: (Live(h, owner, i, c) || Knows(p, i)) && (Live(h, owner, j, c) || Knows(p, j)) ==> i == j
  }

  /** The worker has looked, could look, and found nothing; or it has let the resource go after such a look. */
  predicate SawNothing(p: Proc) {
    match p.phase
    case Seen(mem, seen) => !seen.resourceExists && !Blind(mem)
    case Gone(blind) => !blind
    case _ => false
  }

  ghost predicate Tended(k: Claim, c: nat, p: Proc, h: Harbor, owner: map<int64, nat>) {
    && Discoverable(p.cr.spec) && (p.phase.Active() ==> Discoverable(p.phase.mem.spec))
    && Anchored(k, h, owner, c)
    && Sole(p, h, owner, c)
    // A robot disappears only through a deletion that the worker knows of.
    && (forall id :: Knows(p, id) && id !in h.robots ==> Doomed(p))
    // An absence that was looked for lasts: nobody else creates robots of this resource.
    && (SawNothing(p) ==> NoLive(h, owner, c))
  }

  ghost predicate FullInv(plan: map<nat, Claim>, w: World) {
    Inv(plan, w) && forall c :: c in plan ==> Tended(plan[c], c, w.procs[c], w.harbor, w.owner)
  }

  /** Every spec is discoverable, and other users leave managed robots on the server and on their project. */
  ghost predicate Sheltered(plan: map<nat, Claim>, w: World, a: Action) {
    match a
    case Edit(c, spec) => c in plan ==> Discoverable(spec)
    case Appear(c, cr) => c in plan ==> Discoverable(cr.spec)
    case Others(h) =>
      forall id, c :: c in plan && Live(w.harbor, w.owner, id, c) ==>
        && id in h.robots
        && (plan[c].level == LEVEL_PROJECT ==>
              forall project :: project in plan[c].homes ==> OnProject(h.robots[id].permissions, project))
    case _ => true
  }

  ghost predicate ShelteredRun(server: Server, plan: map<nat, Claim>, w: World, acts: seq<Action>)
    decreases |acts|
  {
    acts != [] ==>
      && Admissible(plan, w, acts[0]) && Sheltered(plan, w, acts[0])
      && ShelteredRun(server, plan, Next(server, w, acts[0]), acts[1..])
  }

  ghost predicate ShelteredInit(plan: map<nat, Claim>, w: World) {
    && Init(plan, w) && OneHome(plan)
    && (forall c :: c in plan ==>
          Discoverable(w.procs[c].cr.spec) && Anchored(plan[c], w.harbor, w.owner, c) && Sole(w.procs[c], w.harbor, w.owner, c))
  }

  lemma ShelteredInitIsInv(plan: map<nat, Claim>, w: World)
    requires PlanOk(plan) && ShelteredInit(plan, w)
    ensures FullInv(plan, w)
  {
    hide HarborOk, ProcOk, SpecApart, Anchored, Sole, Discoverable;
    InitIsInv(plan, w);
    forall c | c in plan
      ensures Tended(plan[c], c, w.procs[c], w.harbor, w.owner)
    {
      NewAccountHoldsNothing(plan, c, w.procs[c].cr);
    }
  }

  lemma NewAccountHoldsNothing(plan: map<nat, Claim>, c: nat, cr: Account)
    requires c in plan && NewAccount(plan, c, cr)
    ensures forall id: int64 :: !Holds(cr, id)
  {
  }

  // ---------- Lookups ----------

  /** The scan of a discoverable and resolved spec looks at the resource's one project. */
  lemma HomeOfSpec(plan: map<nat, Claim>, c: nat, spec: Parameters)
    requires OneHome(plan) && c in plan && SpecApart(plan, c, spec) && Discoverable(spec) && Resolved(spec.permissions)
    ensures plan[c].level == LEVEL_PROJECT ==> FirstNamespace(spec.permissions) in plan[c].homes
    ensures plan[c].level == LEVEL_PROJECT ==>
              forall project :: project in plan[c].homes ==> project == FirstNamespace(spec.permissions)
  {
    ValidatedNamespace(spec.permissions);
  }

  lemma LiveIsReachable(plan: map<nat, Claim>, c: nat, h: Harbor, owner: map<int64, nat>, project: string)
    requires c in plan && HarborOk(plan, h, owner) && Anchored(plan[c], h, owner, c)
    requires plan[c].level == LEVEL_PROJECT && project in plan[c].homes
    ensures forall id :: Live(h, owner, id, c) ==> Reachable(h.robots[id], project, plan[c].short)
  {
  }

  /** A lookup that is not blind misses only a robot that is not there. */
  lemma OwnerMisses(plan: map<nat, Claim>, c: nat, a: Account, p: Proc, h: Harbor, owner: map<int64, nat>, fate: Fate)
    requires PlanOk(plan) && c in plan && AccountOk(plan, c, a, owner) && HarborOk(plan, h, owner)
    requires Anchored(plan[c], h, owner, c) && Sole(p, h, owner, c) && (forall id: int64 :: Holds(a, id) ==> Knows(p, id))
    requires Find(h, a, fate).Err? && MeansAbsent(Find(h, a, fate).error) && !Blind(a)
    ensures NoLive(h, owner, c)
    ensures forall id: int64 :: Holds(a, id) ==> id !in h.robots
  {
    match CachedID(a)
    case Some(id) =>
      assert Holds(a, id) && id !in h.robots;
    case None =>
      if plan[c].level == LEVEL_PROJECT {
        ProjectScanExact(h, FirstNamespace(a.spec.permissions), plan[c].short);
        LiveIsReachable(plan, c, h, owner, FirstNamespace(a.spec.permissions));
      } else {
        SystemScanExact(h, plan[c].short);
      }
  }

  // ---------- One call of a worker ----------

  lemma ObserveKeepsTended(plan: map<nat, Claim>, c: nat, h: Harbor, p: Proc, owner: map<int64, nat>, fate: Fate)
    requires PlanOk(plan) && c in plan && HarborOk(plan, h, owner) && ProcOk(plan, c, p, owner) && p.phase.Idle?
    requires Tended(plan[c], c, p, h, owner)
    ensures Tended(plan[c], c, ObserveTurn(h, p, fate).proc, h, owner)
  {
    hide HarborOk, SpecApart, Anchored;
    OwnerLookup(plan, c, p.cr, h, owner, fate);
    var found := Find(h, p.cr, fate);
    var p' := ObserveTurn(h, p, fate).proc;
    if found.Ok? {
      assert Live(h, owner, found.value.id, c);
      assert forall id: int64 :: Knows(p', id) ==> Knows(p, id) || id == found.value.id;
    } else if MeansAbsent(found.error) {
      assert forall id: int64 :: Knows(p', id) ==> Knows(p, id);
      if !Blind(p.cr) {
        OwnerMisses(plan, c, p.cr, p, h, owner, fate);
      }
    }
  }

  /** A step that leaves the server alone and teaches the worker nothing new. */
  lemma QuietStepKeepsTended(k: Claim, c: nat, p: Proc, p': Proc, h: Harbor, owner: map<int64, nat>)
    requires Tended(k, c, p, h, owner)
    requires Discoverable(p'.cr.spec) && (p'.phase.Active() ==> Discoverable(p'.phase.mem.spec))
    requires forall id: int64 :: Knows(p', id) ==> Knows(p, id)
    requires Doomed(p) ==> Doomed(p')
    requires SawNothing(p') ==> SawNothing(p)
    ensures Tended(k, c, p', h, owner)
  {
  }

  lemma TendedIsDiscoverable(k: Claim, c: nat, p: Proc, h: Harbor, owner: map<int64, nat>)
    requires Tended(k, c, p, h, owner)
    ensures Discoverable(p.cr.spec) && (p.phase.Active() ==> Discoverable(p.phase.mem.spec))
  {
  }

  lemma SeenKeepsTended(
    server: Server, k: Claim, c: nat, h: Harbor, p: Proc, owner: map<int64, nat>, fate: Fate, saved: bool)
    requires Tended(k, c, p, h, owner) && p.phase.Seen? && (p.phase.mem.deleting || p.phase.seen.resourceExists)
    ensures Tended(k, c, Turn(server, h, p, fate, saved).proc, h, owner)
  {
    hide Tended, Find, CreateTurn;
    var p' := Turn(server, h, p, fate, saved).proc;
    TendedIsDiscoverable(k, c, p, h, owner);
    assert forall id: int64 :: Knows(p', id) ==> Knows(p, id);
    QuietStepKeepsTended(k, c, p, p', h, owner);
  }

  /** The robot of a written spec is where the name scan looks. */
  lemma WrittenIsAnchored(server: Server, plan: map<nat, Claim>, c: nat, spec: Parameters, project: string)
    requires ScopeKeeping(server) && OneHome(plan) && c in plan && plan[c].level == LEVEL_PROJECT
    requires SpecApart(plan, c, spec) && Discoverable(spec) && Resolved(spec.permissions) && project in plan[c].homes
    ensures OnProject(server.canon(HarborPermissions(spec.permissions)), project)
  {
    HomeOfSpec(plan, c, spec);
    FirstNamespaceIsFirst(spec.permissions);
    WrittenNames(server, spec.permissions, project);
  }

  /** A resource that may create a robot has none and knows of none. */
  lemma CreatorHasNothing(plan: map<nat, Claim>, c: nat, p: Proc, h: Harbor, owner: map<int64, nat>)
    requires PlanOk(plan) && OneHome(plan) && c in plan
    requires ProcOk(plan, c, p, owner) && Tended(plan[c], c, p, h, owner)
    requires p.phase.Seen? && !p.phase.seen.resourceExists && !p.phase.mem.deleting && Resolved(p.phase.mem.spec.permissions)
    ensures NoLive(h, owner, c) && !Doomed(p) && forall id: int64 :: !Knows(p, id)
  {
    HomeOfSpec(plan, c, p.phase.mem.spec);
    assert SawNothing(p);
    assert forall id: int64 :: Knows(p, id) ==> Owns(owner, id, c);
    assert forall id :: Owns(owner, id, c) ==> id !in h.robots || Live(h, owner, id, c);
  }

  lemma FirstRobotIsTended(
    plan: map<nat, Claim>, c: nat, p: Proc, p': Proc, h: Harbor, h': Harbor, owner: map<int64, nat>, id: int64)
    requires c in plan && Tended(plan[c], c, p, h, owner)
    requires NoLive(h, owner, c) && forall i: int64 :: !Knows(p, i)
    requires id in h'.robots && h'.robots == h.robots[id := h'.robots[id]]
    requires plan[c].level == LEVEL_PROJECT ==>
               forall project :: project in plan[c].homes ==> OnProject(h'.robots[id].permissions, project)
    requires p'.phase == Idle && p'.cr.spec == p.cr.spec && forall i: int64 :: Holds(p'.cr, i) ==> i == id
    ensures Tended(plan[c], c, p', h', owner[id := c])
  {
    var owner' := owner[id := c];
    assert forall i :: Live(h', owner', i, c) ==> Live(h, owner, i, c) || i == id;
  }

  lemma CreateKeepsTended(
    server: Server, plan: map<nat, Claim>, c: nat, h: Harbor, p: Proc, owner: map<int64, nat>, fate: Fate, saved: bool)
    requires ScopeKeeping(server) && PlanOk(plan) && OneHome(plan) && c in plan
    requires HarborOk(plan, h, owner) && ProcOk(plan, c, p, owner) && Tended(plan[c], c, p, h, owner)
    requires p.phase.Seen? && !p.phase.seen.resourceExists && !p.phase.mem.deleting
    ensures var o := CreateTurn(server, h, p, p.phase.mem, fate, saved);
            Tended(plan[c], c, o.proc, o.harbor, WithOwner(owner, Born(h, o.harbor), c))
  {
    hide SpecApart, HarborOk, Tended;
    var mem := p.phase.mem;
    var o := CreateTurn(server, h, p, mem, fate, saved);
    TendedIsDiscoverable(plan[c], c, p, h, owner);
    if Resolved(mem.spec.permissions) {
      CreatorHasNothing(plan, c, p, h, owner);
      assert forall id: int64 :: Holds(p.cr, id) ==> Knows(p, id);
      if o.harbor == h {
        QuietStepKeepsTended(plan[c], c, p, Proc(p.cr, Idle), h, owner);
      } else {
        StampedHolds(p.cr, mem, h.nextId, saved);
        forall project | project in plan[c].homes && plan[c].level == LEVEL_PROJECT
          ensures OnProject(o.harbor.robots[h.nextId].permissions, project)
        {
          WrittenIsAnchored(server, plan, c, mem.spec, project);
        }
        FirstRobotIsTended(plan, c, p, o.proc, h, o.harbor, owner, h.nextId);
      }
    } else {
      QuietStepKeepsTended(plan[c], c, p, Proc(p.cr, Idle), h, owner);
    }
  }

  lemma UpdateKeepsTended(
    server: Server, plan: map<nat, Claim>, c: nat, h: Harbor, p: Proc, owner: map<int64, nat>, fate: Fate, saved: bool)
    requires ScopeKeeping(server) && OneHome(plan) && c in plan
    requires ProcOk(plan, c, p, owner) && Tended(plan[c], c, p, h, owner) && p.phase.Updating?
    ensures var o := Turn(server, h, p, fate, saved);
            Tended(plan[c], c, o.proc, o.harbor, owner) && Born(h, o.harbor).None?
  {
    hide SpecApart, Discoverable, FirstNamespace, SeenTurn, ObserveTurn, DeleteFinished;
    var mem, robot := p.phase.mem, p.phase.robot;
    var o := Turn(server, h, p, fate, saved);
    assert o.harbor.robots.Keys == h.robots.Keys;
    assert forall id :: Live(o.harbor, owner, id, c) <==> Live(h, owner, id, c);
    assert forall id: int64 :: Knows(o.proc, id) ==> Knows(p, id);
    assert o.proc.cr.spec == p.cr.spec && o.proc.phase == Idle && (Doomed(p) ==> Doomed(o.proc));
    forall id, project | Live(o.harbor, owner, id, c) && project in plan[c].homes && plan[c].level == LEVEL_PROJECT
      ensures OnProject(o.harbor.robots[id].permissions, project)
    {
      assert Live(h, owner, id, c);
      WrittenIsAnchored(server, plan, c, mem.spec, project);
    }
  }

  lemma DeleteKeepsTended(
    server: Server, plan: map<nat, Claim>, c: nat, h: Harbor, p: Proc, owner: map<int64, nat>, fate: Fate, saved: bool)
    requires c in plan && ProcOk(plan, c, p, owner) && Tended(plan[c], c, p, h, owner) && p.phase.Deleting?
    ensures var o := Turn(server, h, p, fate, saved);
            Tended(plan[c], c, o.proc, o.harbor, owner) && Born(h, o.harbor).None?
  {
    hide SpecApart, Discoverable, FirstNamespace, SeenTurn, ObserveTurn, PutRobot;
    var o := Turn(server, h, p, fate, saved);
    assert forall id :: id in o.harbor.robots ==> id in h.robots && o.harbor.robots[id] == h.robots[id];
    assert forall id: int64 :: Knows(o.proc, id) ==> Knows(p, id);
    assert forall id :: Live(o.harbor, owner, id, c) ==> Live(h, owner, id, c);
  }

  lemma {:induction false} TurnKeepsTended(
    server: Server, plan: map<nat, Claim>, c: nat, h: Harbor, p: Proc, owner: map<int64, nat>, fate: Fate, saved: bool)
    requires ScopeKeeping(server) && PlanOk(plan) && OneHome(plan) && c in plan
    requires HarborOk(plan, h, owner) && ProcOk(plan, c, p, owner) && Tended(plan[c], c, p, h, owner)
    ensures var o := Turn(server, h, p, fate, saved);
            Tended(plan[c], c, o.proc, o.harbor, WithOwner(owner, Born(h, o.harbor), c))
  {
    hide ProcOk, HarborOk, Tended, CreateTurn, Find;
    match p.phase
    case Idle =>
      ObserveKeepsTended(plan, c, h, p, owner, fate);
    case Seen(mem, seen) =>
      if mem.deleting || seen.resourceExists {
        SeenKeepsTended(server, plan[c], c, h, p, owner, fate, saved);
      } else {
        CreateKeepsTended(server, plan, c, h, p, owner, fate, saved);
      }
    case Updating(_, _) =>
      hide Turn;
      UpdateKeepsTended(server, plan, c, h, p, owner, fate, saved);
    case Deleting(_, _) =>
      hide Turn;
      DeleteKeepsTended(server, plan, c, h, p, owner, fate, saved);
    case Gone(_) => {}
  }

  // ---------- The invariant ----------

  /** A resource's state is not affected by what happens to robots of others. */
  lemma TendedFrame(k: Claim, c: nat, p: Proc, h: Harbor, h': Harbor, owner: map<int64, nat>, owner': map<int64, nat>)
    requires Tended(k, c, p, h, owner) && Anchored(k, h', owner', c)
    requires forall id: int64 :: Knows(p, id) ==> Owns(owner, id, c)
    requires forall id :: Owns(owner', id, c) <==> Owns(owner, id, c)
    requires forall id :: Owns(owner, id, c) ==> (id in h'.robots <==> id in h.robots)
    ensures Tended(k, c, p, h', owner')
  {
    assert forall id :: Live(h', owner', id, c) <==> Live(h, owner, id, c);
  }

  /** The turn of one worker is not noticed by another. */
  lemma {:induction false} OtherTurnKeepsTended(
    plan: map<nat, Claim>, c: nat, d: nat, p: Proc, h: Harbor, h': Harbor, owner: map<int64, nat>)
    requires c in plan && c != d && HarborOk(plan, h, owner) && GoodChange(plan, h, h', owner, d)
    requires ProcOk(plan, c, p, owner) && Tended(plan[c], c, p, h, owner)
    ensures Tended(plan[c], c, p, h', WithOwner(owner, Born(h, h'), d))
  {
    var owner' := WithOwner(owner, Born(h, h'), d);
    assert forall id :: Owns(owner', id, c) <==> Owns(owner, id, c);
    assert forall id: int64 :: Knows(p, id) ==> Owns(owner, id, c);
    hide HarborOk, ProcOk;
    forall id | Owns(owner, id, c)
      ensures id in h'.robots <==> id in h.robots
      ensures id in h.robots ==> h'.robots[id] == h.robots[id]
    {
      assert !Owns(owner, id, d) && !Owns(owner', id, d);
    }
    TendedFrame(plan[c], c, p, h, h', owner, owner');
  }

  lemma {:induction false} WorkKeepsFullInv(server: Server, plan: map<nat, Claim>, w: World, c: nat, fate: Fate, saved: bool)
    requires ScopeKeeping(server) && PlanOk(plan) && OneHome(plan) && FullInv(plan, w) && c in plan
    ensures FullInv(plan, Worked(server, w, c, fate, saved))
  {
    hide Turn, ProcOk, HarborOk, Tended, GoodChange, Touches;
    var h, p := w.harbor, w.procs[c];
    var w' := Worked(server, w, c, fate, saved);
    WorkKeepsInv(server, plan, w, c, fate, saved);
    TurnIsGood(server, plan, c, h, p, w.owner, fate, saved);
    TurnKeepsTended(server, plan, c, h, p, w.owner, fate, saved);
    forall d | d in plan && d != c
      ensures Tended(plan[d], d, w'.procs[d], w'.harbor, w'.owner)
    {
      OtherTurnKeepsTended(plan, d, c, w.procs[d], h, w'.harbor, w.owner);
    }
  }

  lemma {:induction false} OthersKeepTended(plan: map<nat, Claim>, w: World, h': Harbor, c: nat)
    requires Inv(plan, w) && OthersOk(plan, w, h') && Sheltered(plan, w, Others(h')) && c in plan
    requires Tended(plan[c], c, w.procs[c], w.harbor, w.owner)
    ensures Tended(plan[c], c, w.procs[c], h', w.owner)
  {
    var p := w.procs[c];
    assert ProcOk(plan, c, p, w.owner);
    assert forall id: int64 :: Knows(p, id) ==> Owns(w.owner, id, c);
    hide ProcOk, Findable;
    forall id: int64 | Owns(w.owner, id, c)
      ensures id in h'.robots <==> id in w.harbor.robots
    {
      assert id < w.harbor.nextId && (Live(w.harbor, w.owner, id, c) <==> id in w.harbor.robots);
    }
    assert forall id :: Live(h', w.owner, id, c) ==> Live(w.harbor, w.owner, id, c);
    TendedFrame(plan[c], c, p, w.harbor, h', w.owner, w.owner);
  }

  lemma NewIsTended(k: Claim, c: nat, p: Proc, cr: Account, h: Harbor, owner: map<int64, nat>)
    requires Tended(k, c, p, h, owner) && CachedID(cr).None? && Discoverable(cr.spec)
    ensures Tended(k, c, Proc(cr, Idle), h, owner)
  {
    assert forall id: int64 :: !Knows(Proc(cr, Idle), id);
  }

  /** An edit or a deletion mark. */
  lemma EditKeepsTended(k: Claim, c: nat, p: Proc, h: Harbor, owner: map<int64, nat>, spec: Parameters, deleting: bool)
    requires Tended(k, c, p, h, owner) && Discoverable(spec) && (p.cr.deleting ==> deleting)
    ensures Tended(k, c, p.(cr := p.cr.(spec := spec, deleting := deleting)), h, owner)
  {
    hide Tended;
    TendedIsDiscoverable(k, c, p, h, owner);
    var p' := p.(cr := p.cr.(spec := spec, deleting := deleting));
    assert forall id: int64 :: Knows(p', id) ==> Knows(p, id);
    QuietStepKeepsTended(k, c, p, p', h, owner);
  }

  lemma CrashKeepsTended(k: Claim, c: nat, p: Proc, h: Harbor, owner: map<int64, nat>)
    requires Tended(k, c, p, h, owner)
    ensures Tended(k, c, p.(phase := Idle), h, owner)
  {
    QuietStepKeepsTended(k, c, p, p.(phase := Idle), h, owner);
  }

  lemma {:induction false} MoveKeepsTended(plan: map<nat, Claim>, w: World, a: Action)
    requires !a.Work? && !a.Others? && a.c in plan && a.c in w.procs && Admissible(plan, w, a) && Sheltered(plan, w, a)
    requires Tended(plan[a.c], a.c, w.procs[a.c], w.harbor, w.owner)
    ensures Tended(plan[a.c], a.c, Moved(w.procs[a.c], a), w.harbor, w.owner)
  {
    hide SpecApart, Anchored, Sole;
    var k, p := plan[a.c], w.procs[a.c];
    match a
    case Edit(c, spec) =>
      EditKeepsTended(k, c, p, w.harbor, w.owner, spec, p.cr.deleting);
      assert p.cr.(spec := spec, deleting := p.cr.deleting) == p.cr.(spec := spec);
    case MarkDeleted(c) =>
      EditKeepsTended(k, c, p, w.harbor, w.owner, p.cr.spec, true);
      assert p.cr.(spec := p.cr.spec, deleting := true) == p.cr.(deleting := true);
    case Crash(c) =>
      CrashKeepsTended(k, c, p, w.harbor, w.owner);
    case Appear(c, cr) =>
      NewIsTended(k, c, p, cr, w.harbor, w.owner);
  }

  lemma {:induction false} StepKeepsFullInv(server: Server, plan: map<nat, Claim>, w: World, a: Action)
    requires ScopeKeeping(server) && PlanOk(plan) && OneHome(plan) && FullInv(plan, w)
    requires Admissible(plan, w, a) && Sheltered(plan, w, a)
    ensures FullInv(plan, Next(server, w, a))
  {
    hide Worked, Moved, HarborOk, ProcOk, Tended, Sheltered;
    StepKeepsInv(server, plan, w, a);
    if a.Others? {
      forall c | c in plan
        ensures Tended(plan[c], c, w.procs[c], a.harbor, w.owner)
      {
        OthersKeepTended(plan, w, a.harbor, c);
      }
    } else if a.c in plan {
      if a.Work? {
        WorkKeepsFullInv(server, plan, w, a.c, a.fate, a.saved);
      } else {
        MoveKeepsTended(plan, w, a);
      }
    }
  }

  lemma {:induction false} RunKeepsFullInv(server: Server, plan: map<nat, Claim>, w: World, acts: seq<Action>)
    requires ScopeKeeping(server) && PlanOk(plan) && OneHome(plan) && FullInv(plan, w) && ShelteredRun(server, plan, w, acts)
    ensures FullInv(plan, Run(server, w, acts))
    decreases |acts|
  {
    hide FullInv, Next;
    if acts != [] {
      StepKeepsFullInv(server, plan, w, acts[0]);
      RunKeepsFullInv(server, plan, Next(server, w, acts[0]), acts[1..]);
    }
  }

  lemma {:induction false} ReachableIsFullInv(server: Server, plan: map<nat, Claim>, w: World, acts: seq<Action>)
    requires ScopeKeeping(server) && PlanOk(plan) && ShelteredInit(plan, w) && ShelteredRun(server, plan, w, acts)
    ensures FullInv(plan, Run(server, w, acts))
  {
    ShelteredInitIsInv(plan, w);
    RunKeepsFullInv(server, plan, w, acts);
  }

  // ---------- Creation ----------

  /** How many robots the log says the worker of `c` has created on the server. */
  function Births(log: seq<Entry>, c: nat): nat {
    if log == [] then 0
    else Births(log[..|log| - 1], c) + (if log[|log| - 1].sender == c && log[|log| - 1].born.Some? then 1 else 0)
  }

  /** How often the user creates the resource in the course of a run. */
  function Appearances(acts: seq<Action>, c: nat): nat {
    if acts == [] then 0
    else (if acts[0].Appear? && acts[0].c == c then 1 else 0) + Appearances(acts[1..], c)
  }

  /** One robot per life of the resource, and the present life has had its robot only while it shows. */
  ghost predicate BirthsFit(births: nat, lives: nat, p: Proc, h: Harbor, owner: map<int64, nat>, c: nat) {
    && births <= lives
    && (births == lives && !p.phase.Gone? ==> Doomed(p) || exists id :: Live(h, owner, id, c))
  }

  ghost predicate BirthsOk(w: World, c: nat, lives: nat) {
    c in w.procs && BirthsFit(Births(w.log, c), lives, w.procs[c], w.harbor, w.owner, c)
  }

  /** A robot is born only of a resource that has none, knows of none and is not aware of a deletion. */
  lemma BirthIsFirst(
    server: Server, plan: map<nat, Claim>, c: nat, h: Harbor, p: Proc, owner: map<int64, nat>, fate: Fate, saved: bool)
    requires ScopeKeeping(server) && PlanOk(plan) && OneHome(plan) && c in plan
    requires ProcOk(plan, c, p, owner) && Tended(plan[c], c, p, h, owner)
    requires Born(h, Turn(server, h, p, fate, saved).harbor).Some?
    ensures NoLive(h, owner, c) && !Doomed(p) && !p.phase.Gone?
    ensures Turn(server, h, p, fate, saved).sent.Some? && h.nextId in Turn(server, h, p, fate, saved).harbor.robots
  {
    hide ProcOk, Tended;
    CreatorHasNothing(plan, c, p, h, owner);
  }

  /** A call that creates nothing takes a robot away only from a doomed resource. */
  lemma TurnKeepsLive(
    server: Server, plan: map<nat, Claim>, c: nat, h: Harbor, p: Proc, owner: map<int64, nat>, fate: Fate, saved: bool, id: int64)
    requires c in plan && ProcOk(plan, c, p, owner) && Live(h, owner, id, c)
    ensures var o := Turn(server, h, p, fate, saved);
            !p.cr.deleting ==> id in o.harbor.robots
    ensures var o := Turn(server, h, p, fate, saved);
            id !in o.harbor.robots ==> Doomed(o.proc)
  {
    hide AccountOk, Find;
  }

  lemma TurnKeepsDoomed(server: Server, h: Harbor, p: Proc, fate: Fate, saved: bool)
    requires Doomed(p)
    ensures Doomed(Turn(server, h, p, fate, saved).proc)
    ensures p.phase.Gone? ==> Turn(server, h, p, fate, saved).proc.phase.Gone?
  {
  }

  lemma OneMoreEntry(log: seq<Entry>, entry: Entry, c: nat)
    ensures Births(log + [entry], c) == Births(log, c) + (if entry.sender == c && entry.born.Some? then 1 else 0)
  {
    assert (log + [entry])[..|log|] == log;
  }

  lemma TurnOfGone(server: Server, h: Harbor, p: Proc, fate: Fate, saved: bool)
    requires p.phase.Gone?
    ensures Turn(server, h, p, fate, saved) == Outcome(h, p, None)
  {
  }

  lemma {:induction false} TurnKeepsBirths(
    server: Server, plan: map<nat, Claim>, c: nat, h: Harbor, p: Proc, owner: map<int64, nat>, fate: Fate, saved: bool,
    births: nat, lives: nat)
    requires ScopeKeeping(server) && PlanOk(plan) && OneHome(plan) && c in plan
    requires ProcOk(plan, c, p, owner) && Tended(plan[c], c, p, h, owner) && BirthsFit(births, lives, p, h, owner, c)
    ensures var o := Turn(server, h, p, fate, saved);
            var born := Born(h, o.harbor);
            BirthsFit(births + (if born.Some? then 1 else 0), lives, o.proc, o.harbor, WithOwner(owner, born, c), c)
  {
    hide Turn, ProcOk, Tended;
    var o := Turn(server, h, p, fate, saved);
    if Born(h, o.harbor).Some? {
      BirthIsFirst(server, plan, c, h, p, owner, fate, saved);
      assert Live(o.harbor, owner[h.nextId := c], h.nextId, c);
    } else if p.phase.Gone? {
      TurnOfGone(server, h, p, fate, saved);
    } else if Doomed(p) {
      TurnKeepsDoomed(server, h, p, fate, saved);
    } else if id :| Live(h, owner, id, c) {
      TurnKeepsLive(server, plan, c, h, p, owner, fate, saved, id);
      assert Live(o.harbor, owner, id, c) || Doomed(o.proc);
    }
  }

  lemma {:induction false} WorkKeepsBirths(
    server: Server, plan: map<nat, Claim>, w: World, c: nat, fate: Fate, saved: bool, lives: nat)
    requires ScopeKeeping(server) && PlanOk(plan) && OneHome(plan) && FullInv(plan, w) && c in plan && BirthsOk(w, c, lives)
    ensures BirthsOk(Worked(server, w, c, fate, saved), c, lives)
  {
    hide Turn, ProcOk, HarborOk, Tended, BirthsFit, Born;
    var h, p := w.harbor, w.procs[c];
    var o := Turn(server, h, p, fate, saved);
    TurnKeepsBirths(server, plan, c, h, p, w.owner, fate, saved, Births(w.log, c), lives);
    if o.sent.Some? {
      OneMoreEntry(w.log, Entry(c, o.sent.value, Born(h, o.harbor)), c);
    } else if Born(h, o.harbor).Some? {
      BirthIsFirst(server, plan, c, h, p, w.owner, fate, saved);
    }
  }

  /** What others do neither adds to a resource's robots nor takes from them. */
  lemma OthersKeepLive(server: Server, plan: map<nat, Claim>, w: World, a: Action, c: nat, id: int64)
    requires ScopeKeeping(server) && PlanOk(plan) && Inv(plan, w) && c in plan && Sheltered(plan, w, a)
    requires !(a.Work? && a.c == c) && Live(w.harbor, w.owner, id, c)
    ensures Live(Next(server, w, a).harbor, Next(server, w, a).owner, id, c)
  {
    hide Turn, ProcOk, HarborOk;
    if a.Work? && a.c in plan {
      OneCall(server, plan, w, a.c, a.fate, a.saved);
    }
  }

  lemma {:induction false} OthersKeepBirths(
    server: Server, plan: map<nat, Claim>, w: World, a: Action, c: nat, lives: nat)
    requires ScopeKeeping(server) && PlanOk(plan) && Inv(plan, w) && c in plan && BirthsOk(w, c, lives)
    requires Sheltered(plan, w, a) && !(a.Work? && a.c == c) && !(a.Appear? && a.c == c)
    ensures BirthsOk(Next(server, w, a), c, lives)
  {
    hide Turn, ProcOk, HarborOk, Sheltered;
    var w' := Next(server, w, a);
    if w'.log != w.log {
      OneMoreEntry(w.log, w'.log[|w.log|], c);
    }
    assert Doomed(w.procs[c]) ==> Doomed(w'.procs[c]);
    if id :| Live(w.harbor, w.owner, id, c) {
      OthersKeepLive(server, plan, w, a, c, id);
    }
  }

  lemma {:induction false} StepKeepsBirths(server: Server, plan: map<nat, Claim>, w: World, a: Action, c: nat, lives: nat)
    requires ScopeKeeping(server) && PlanOk(plan) && OneHome(plan) && FullInv(plan, w) && c in plan && BirthsOk(w, c, lives)
    requires Admissible(plan, w, a) && Sheltered(plan, w, a)
    ensures BirthsOk(Next(server, w, a), c, lives + Appearances([a], c))
  {
    hide Worked, ProcOk, HarborOk, Tended, Sheltered;
    assert [a][1..] == [];
    if a.Work? && a.c == c {
      WorkKeepsBirths(server, plan, w, c, a.fate, a.saved, lives);
    } else if !(a.Appear? && a.c == c) {
      OthersKeepBirths(server, plan, w, a, c, lives);
    }
  }

  lemma {:induction false} RunKeepsBirths(
    server: Server, plan: map<nat, Claim>, w: World, acts: seq<Action>, c: nat, lives: nat)
    requires ScopeKeeping(server) && PlanOk(plan) && OneHome(plan) && FullInv(plan, w) && ShelteredRun(server, plan, w, acts)
    requires c in plan && BirthsOk(w, c, lives)
    ensures BirthsOk(Run(server, w, acts), c, lives + Appearances(acts, c))
    decreases |acts|
  {
    hide FullInv, Next, BirthsOk, PlanOk, OneHome, ScopeKeeping, Admissible, Sheltered;
    if acts != [] {
      assert [acts[0]][1..] == [];
      StepKeepsFullInv(server, plan, w, acts[0]);
      StepKeepsBirths(server, plan, w, acts[0], c, lives);
      RunKeepsBirths(server, plan, Next(server, w, acts[0]), acts[1..], c, lives + Appearances([acts[0]], c));
    }
  }

  /** The lives that a resource has had: one for each time its user has created it. */
  function Lives(start: World, acts: seq<Action>, c: nat): nat
    requires c in start.procs
  {
    (if start.procs[c].phase.Gone? then 0 else 1) + Appearances(acts, c)
  }

  lemma NoBirthsYet(plan: map<nat, Claim>, w: World, c: nat)
    requires Init(plan, w) && c in plan
    ensures BirthsOk(w, c, Lives(w, [], c))
  {
  }

  lemma SoleRobot(plan: map<nat, Claim>, w: World, c: nat)
    requires FullInv(plan, w) && c in plan
    ensures c in w.procs && Sole(w.procs[c], w.harbor, w.owner, c)
  {
    hide HarborOk, ProcOk;
  }

  /**
   * In every run, with every request and reply and every write of the resource possibly lost, and whether or not the
   * server would accept a second robot of the same name, a resource creates at most one robot each time it comes into
   * being.
   */
  lemma {:induction false} AtMostOneRobot(server: Server, plan: map<nat, Claim>, w: World, acts: seq<Action>, c: nat)
    requires ScopeKeeping(server) && PlanOk(plan) && ShelteredInit(plan, w) && ShelteredRun(server, plan, w, acts)
    requires c in plan
    ensures Births(Run(server, w, acts).log, c) <= Lives(w, acts, c)
  {
    hide Init, FullInv, PlanOk, ShelteredRun, Run, Live, Doomed;
    ShelteredInitIsInv(plan, w);
    NoBirthsYet(plan, w, c);
    RunKeepsBirths(server, plan, w, acts, c, Lives(w, [], c));
  }

  /** It never has two at a time, and all the IDs that it has noted anywhere are the ID of its one robot. */
  lemma {:induction false} OneRobotAtATime(
    server: Server, plan: map<nat, Claim>, w: World, acts: seq<Action>, c: nat, i: int64, j: int64)
    requires ScopeKeeping(server) && PlanOk(plan) && ShelteredInit(plan, w) && ShelteredRun(server, plan, w, acts)
    requires c in plan && c in Run(server, w, acts).procs
    ensures var end := Run(server, w, acts);
            (Live(end.harbor, end.owner, i, c) || Holds(end.procs[c].cr, i))
            && (Live(end.harbor, end.owner, j, c) || Holds(end.procs[c].cr, j))
            ==> i == j
  {
    hide FullInv, ScopeKeeping, PlanOk, ShelteredInit, ShelteredRun, Live, Holds, Run;
    ReachableIsFullInv(server, plan, w, acts);
    SoleRobot(plan, Run(server, w, acts), c);
  }

  // ---------- Deletion ----------

  lemma {:induction false} UnmarkedStep(server: Server, plan: map<nat, Claim>, w: World, a: Action, c: nat, id: int64)
    requires ScopeKeeping(server) && PlanOk(plan) && Inv(plan, w) && c in plan && Sheltered(plan, w, a)
    requires Live(w.harbor, w.owner, id, c) && !w.procs[c].cr.deleting && a != MarkDeleted(c)
    requires !(a.Appear? && a.c == c)
    ensures var w' := Next(server, w, a);
            c in w'.procs && Live(w'.harbor, w'.owner, id, c) && !w'.procs[c].cr.deleting
  {
    hide ProcOk, HarborOk;
    assert ProcOk(plan, c, w.procs[c], w.owner);
    if a.Work? && a.c == c {
      TurnKeepsLive(server, plan, c, w.harbor, w.procs[c], w.owner, a.fate, a.saved, id);
    } else {
      hide Turn;
      OthersKeepLive(server, plan, w, a, c, id);
    }
  }

  /** The resource is neither marked for deletion nor created anew. */
  predicate Unmarked(acts: seq<Action>, c: nat) {
    SameResource(acts, c) && forall i :: 0 <= i < |acts| ==> acts[i] != MarkDeleted(c)
  }

  lemma {:induction false} UnmarkedRun(server: Server, plan: map<nat, Claim>, w: World, acts: seq<Action>, c: nat, id: int64)
    requires ScopeKeeping(server) && PlanOk(plan) && OneHome(plan) && FullInv(plan, w) && ShelteredRun(server, plan, w, acts)
    requires c in plan && c in w.procs && Live(w.harbor, w.owner, id, c) && !w.procs[c].cr.deleting && Unmarked(acts, c)
    ensures Live(Run(server, w, acts).harbor, Run(server, w, acts).owner, id, c)
    decreases |acts|
  {
    hide Next, HarborOk, ProcOk, Tended;
    if acts != [] {
      StepKeepsFullInv(server, plan, w, acts[0]);
      UnmarkedStep(server, plan, w, acts[0], c, id);
      UnmarkedRun(server, plan, Next(server, w, acts[0]), acts[1..], c, id);
    }
  }

  /** A robot of a resource that nobody marks for deletion stays on the server. */
  lemma {:induction false} NeverDeletedUnasked(
    server: Server, plan: map<nat, Claim>, w: World, before: seq<Action>, after: seq<Action>, c: nat, id: int64)
    requires ScopeKeeping(server) && PlanOk(plan) && ShelteredInit(plan, w) && ShelteredRun(server, plan, w, before)
    requires ShelteredRun(server, plan, Run(server, w, before), after) && Unmarked(after, c)
    requires c in plan && c in Run(server, w, before).procs && !Run(server, w, before).procs[c].cr.deleting
    requires Live(Run(server, w, before).harbor, Run(server, w, before).owner, id, c)
    ensures var end := Run(server, Run(server, w, before), after);
            Live(end.harbor, end.owner, id, c)
  {
    ReachableIsFullInv(server, plan, w, before);
    UnmarkedRun(server, plan, Run(server, w, before), after, c, id);
  }

  /**
   * In every run, once a resource has been let go after a lookup that had an ID or a namespace to look with, no robot
   * of it is left on the server.
   */
  lemma {:induction false} DeletionLeavesNothing(server: Server, plan: map<nat, Claim>, w: World, acts: seq<Action>, c: nat)
    requires ScopeKeeping(server) && PlanOk(plan) && ShelteredInit(plan, w) && ShelteredRun(server, plan, w, acts)
    requires c in plan && c in Run(server, w, acts).procs && Run(server, w, acts).procs[c].phase == Gone(false)
    ensures NoLive(Run(server, w, acts).harbor, Run(server, w, acts).owner, c)
  {
    ReachableIsFullInv(server, plan, w, acts);
    var end := Run(server, w, acts);
    assert Tended(plan[c], c, end.procs[c], end.harbor, end.owner);
  }

  /**
   * In every reachable state a resource that has a robot is blind or finds it: its lookup, when delivered, returns
   * that very robot if and only if it knows an ID or a namespace.
   */
  lemma {:induction false} OnlyBlindLookupsMiss(
    server: Server, plan: map<nat, Claim>, w: World, acts: seq<Action>, c: nat, id: int64)
    requires ScopeKeeping(server) && PlanOk(plan) && ShelteredInit(plan, w) && ShelteredRun(server, plan, w, acts)
    requires c in plan && c in Run(server, w, acts).procs && Live(Run(server, w, acts).harbor, Run(server, w, acts).owner, id, c)
    ensures var end := Run(server, w, acts);
            Find(end.harbor, end.procs[c].cr, Delivered) == Ok(Render(id, end.harbor.robots[id])) <==> !Blind(end.procs[c].cr)
  {
    ReachableIsFullInv(server, plan, w, acts);
    var end := Run(server, w, acts);
    var cr := end.procs[c].cr;
    assert ProcOk(plan, c, end.procs[c], end.owner) && Tended(plan[c], c, end.procs[c], end.harbor, end.owner);
    OwnLookupIsExact(plan, c, cr, end.procs[c], end.harbor, end.owner, id);
  }

  /** What a lookup that is not blind returns is the resource's robot. */
  lemma OwnLookupIsExact(plan: map<nat, Claim>, c: nat, a: Account, p: Proc, h: Harbor, owner: map<int64, nat>, id: int64)
    requires PlanOk(plan) && c in plan && HarborOk(plan, h, owner) && AccountOk(plan, c, a, owner)
    requires Anchored(plan[c], h, owner, c) && Sole(p, h, owner, c) && (forall i: int64 :: Holds(a, i) ==> Knows(p, i))
    requires Live(h, owner, id, c)
    ensures !Blind(a) <==> Find(h, a, Delivered) == Ok(Render(id, h.robots[id]))
  {
    hide HarborOk, SpecApart, Anchored;
    OwnerLookup(plan, c, a, h, owner, Delivered);
    FoundIsStored(h, a, Delivered);
    ScanErrorsMeanAbsent(h, a);
    if Find(h, a, Delivered).Ok? {
      assert Live(h, owner, Find(h, a, Delivered).value.id, c);
    } else if !Blind(a) {
      OwnerMisses(plan, c, a, p, h, owner, Delivered);
    }
  }
}

/**
 * The exact conditions, for new resources whose specs stay as they are: when no run ever breaks ownership, creates a
 * second robot, or leaves a robot behind.
 */
module RobotExactness {
  import opened Wrappers
  import opened Text
  import opened IamModels
  import opened IamClient
  import opened HarborServer
  import opened RobotController
  import opened RobotReconcile
  import opened RobotRuns
  import opened RobotOwnership
  import opened RobotLifetime
  import opened RobotClashes

  // ---------- What stays the same when the specs do ----------

  /**
   * The specs are as they were, a resource that is let go blindly has no project to look on, and only what is resolved
   * has ever been written.
   */
  ghost predicate Steady(crs: map<nat, Account>, w: World) {
    && w.procs.Keys == crs.Keys
    && (forall c :: c in crs ==> SteadyProc(crs[c], w.procs[c]))
    && (forall id :: id in w.owner ==> w.owner[id] in crs && Resolved(crs[w.owner[id]].spec.permissions))
  }

  predicate SteadyProc(cr: Account, p: Proc) {
    && p.cr.spec == cr.spec && (p.phase.Active() ==> p.phase.mem.spec == cr.spec)
    && (p.phase == Gone(true) ==> cr.spec.level == LEVEL_PROJECT && FirstNamespace(cr.spec.permissions) == "")
  }

  lemma TurnKeepsSteady(server: Server, cr: Account, h: Harbor, p: Proc, fate: Fate, saved: bool)
    requires SteadyProc(cr, p)
    ensures SteadyProc(cr, Turn(server, h, p, fate, saved).proc)
    ensures Born(h, Turn(server, h, p, fate, saved).harbor).Some? ==> Resolved(cr.spec.permissions)
  {
  }

  lemma {:induction false} RunKeepsSteady(server: Server, crs: map<nat, Account>, w: World, acts: seq<Action>)
    requires Steady(crs, w) && Basic(acts)
    ensures Steady(crs, Run(server, w, acts))
    decreases |acts|
  {
    hide Turn, Resolved, FirstNamespace, Born;
    if acts != [] {
      var a := acts[0];
      if a.Work? && a.c in crs {
        TurnKeepsSteady(server, crs[a.c], w.harbor, w.procs[a.c], a.fate, a.saved);
      }
      RunKeepsSteady(server, crs, Next(server, w, a), acts[1..]);
    }
  }

  // ---------- A server that refuses a name twice ----------

  /** The key under which the server files the robot of the resource. */
  function KeyOf(cr: Account): Key {
    RequestKey(CreateRequestFor(RobotName(cr), cr.spec))
  }

  ghost predicate HasNamed(k: Key, h: Harbor, owner: map<int64, nat>, c: nat) {
    exists id :: Live(h, owner, id, c) && h.robots[id].key == k
  }

  /** Once it has created its robot, the resource has it, unless the resource is being deleted. */
  ghost predicate FirstIsKept(births: nat, k: Key, p: Proc, h: Harbor, owner: map<int64, nat>, c: nat) {
    && births <= 1
    && (births == 1 && !p.phase.Gone? ==> Doomed(p) || HasNamed(k, h, owner, c))
  }

  /** A robot is born on a strict server only under a free name, and only of a resource that is not doomed. */
  lemma BirthNeedsFreeName(server: Server, cr: Account, h: Harbor, p: Proc, fate: Fate, saved: bool)
    requires Strict(server) && SteadyProc(cr, p) && (p.phase.Active() ==> RobotName(p.phase.mem) == RobotName(cr))
    requires Born(h, Turn(server, h, p, fate, saved).harbor).Some?
    ensures !Doomed(p) && !p.phase.Gone? && NameIsFree(h.robots, KeyOf(cr))
    ensures var h' := Turn(server, h, p, fate, saved).harbor;
            h.nextId in h'.robots && h'.robots[h.nextId].key == KeyOf(cr)
  {
  }

  lemma {:induction false} TurnKeepsFirst(
    server: Server, plan: map<nat, Claim>, cr: Account, c: nat, h: Harbor, p: Proc, owner: map<int64, nat>,
    fate: Fate, saved: bool, births: nat)
    requires Strict(server) && ScopeKeeping(server) && PlanOk(plan) && c in plan && HarborOk(plan, h, owner)
    requires ProcOk(plan, c, p, owner) && SteadyProc(cr, p) && RobotName(cr) == plan[c].short
    requires FirstIsKept(births, KeyOf(cr), p, h, owner, c)
    ensures var o := Turn(server, h, p, fate, saved);
            var born := Born(h, o.harbor);
            FirstIsKept(
              births + (if born.Some? then 1 else 0), KeyOf(cr), o.proc, o.harbor, WithOwner(owner, born, c), c)
  {
    assert p.phase.Active() ==> RobotName(p.phase.mem) == plan[c].short;
    hide Turn, ProcOk, HarborOk, KeyOf, SteadyProc, Strict;
    var o := Turn(server, h, p, fate, saved);
    if Born(h, o.harbor).Some? {
      BirthNeedsFreeName(server, cr, h, p, fate, saved);
      assert Live(o.harbor, owner[h.nextId := c], h.nextId, c);
    } else if p.phase.Gone? {
      TurnOfGone(server, h, p, fate, saved);
    } else if Doomed(p) {
      TurnKeepsDoomed(server, h, p, fate, saved);
    } else if id :| Live(h, owner, id, c) && h.robots[id].key == KeyOf(cr) {
      TurnKeepsLive(server, plan, c, h, p, owner, fate, saved, id);
      TurnIsGood(server, plan, c, h, p, owner, fate, saved);
      assert Doomed(o.proc) || Live(o.harbor, owner, id, c);
    }
  }

  ghost predicate FirstsKept(crs: map<nat, Account>, w: World, c: nat)
    requires c in crs
  {
    c in w.procs && FirstIsKept(Births(w.log, c), KeyOf(crs[c]), w.procs[c], w.harbor, w.owner, c)
  }

  lemma {:induction false} WorkKeepsFirst(
    server: Server, crs: map<nat, Account>, w: World, c: nat, fate: Fate, saved: bool)
    requires Strict(server) && ScopeKeeping(server) && FleetOk(crs) && NoClash(crs)
    requires Inv(PlanOf(crs), w) && Steady(crs, w) && c in crs && FirstsKept(crs, w, c)
    ensures FirstsKept(crs, Worked(server, w, c, fate, saved), c)
  {
    hide Turn, ProcOk, HarborOk, FirstIsKept, Born, KeyOf, SteadyProc, NoClash, Strict, PlanOk, FleetOk, Resolved, WithOwner, ScopeKeeping, RobotName, FirstNamespace;
    FleetHasPlan(crs);
    var h, p, o := w.harbor, w.procs[c], Turn(server, w.harbor, w.procs[c], fate, saved);
    TurnKeepsFirst(server, PlanOf(crs), crs[c], c, h, p, w.owner, fate, saved, Births(w.log, c));
    if o.sent.Some? {
      OneMoreEntry(w.log, Entry(c, o.sent.value, Born(h, o.harbor)), c);
    } else if Born(h, o.harbor).Some? {
      BornIsSent(server, h, p, fate, saved);
    }
  }

  lemma BornIsSent(server: Server, h: Harbor, p: Proc, fate: Fate, saved: bool)
    requires Born(h, Turn(server, h, p, fate, saved).harbor).Some?
    ensures Turn(server, h, p, fate, saved).sent.Some?
  {
    hide Turn;
    TurnIssues(server, h, p, fate, saved);
  }

  lemma {:induction false} OthersKeepNamed(server: Server, plan: map<nat, Claim>, w: World, a: Action, c: nat, k: Key)
    requires ScopeKeeping(server) && PlanOk(plan) && Inv(plan, w) && c in plan && !a.Others? && !(a.Work? && a.c == c)
    requires HasNamed(k, w.harbor, w.owner, c)
    ensures HasNamed(k, Next(server, w, a).harbor, Next(server, w, a).owner, c)
  {
    hide Turn, ProcOk, HarborOk, PlanOk;
    var w' := Next(server, w, a);
    var id :| Live(w.harbor, w.owner, id, c) && w.harbor.robots[id].key == k;
    if a.Work? && a.c in plan {
      OneCall(server, plan, w, a.c, a.fate, a.saved);
    }
    assert Live(w'.harbor, w'.owner, id, c) && w'.harbor.robots[id].key == k;
  }

  lemma OthersKeepProc(server: Server, w: World, a: Action, c: nat)
    requires c in w.procs && Basic([a]) && !(a.Work? && a.c == c)
    ensures var w' := Next(server, w, a);
            && c in w'.procs && Births(w'.log, c) == Births(w.log, c)
            && (Doomed(w.procs[c]) ==> Doomed(w'.procs[c]))
            && (w.procs[c].phase.Gone? ==> w'.procs[c].phase.Gone?)
  {
    hide Turn;
    assert [a][0] == a;
    var w' := Next(server, w, a);
    if w'.log != w.log {
      OneMoreEntry(w.log, w'.log[|w.log|], c);
    }
  }

  lemma {:induction false} OthersKeepFirst(server: Server, crs: map<nat, Account>, w: World, a: Action, c: nat)
    requires ScopeKeeping(server) && PlanOk(PlanOf(crs)) && Inv(PlanOf(crs), w) && c in crs && FirstsKept(crs, w, c)
    requires Basic([a]) && !(a.Work? && a.c == c)
    ensures FirstsKept(crs, Next(server, w, a), c)
  {
    hide Next, Inv, KeyOf, PlanOk, HasNamed, ScopeKeeping, Doomed, Births;
    assert [a][0] == a;
    OthersKeepProc(server, w, a, c);
    if HasNamed(KeyOf(crs[c]), w.harbor, w.owner, c) {
      OthersKeepNamed(server, PlanOf(crs), w, a, c, KeyOf(crs[c]));
    }
  }

  lemma {:induction false} RunKeepsFirst(server: Server, crs: map<nat, Account>, w: World, acts: seq<Action>, c: nat)
    requires Strict(server) && ScopeKeeping(server) && FleetOk(crs) && NoClash(crs) && Basic(acts)
    requires Inv(PlanOf(crs), w) && Steady(crs, w) && c in crs && FirstsKept(crs, w, c)
    ensures FirstsKept(crs, Run(server, w, acts), c)
    decreases |acts|
  {
    hide Strict, ScopeKeeping, FleetOk, NoClash, Inv, Steady, FirstsKept, Worked, PlanOk;
    if acts != [] {
      var a := acts[0];
      var w' := Next(server, w, a);
      FleetHasPlan(crs);
      OneStep(server, crs, w, a, c);
      RunKeepsFirst(server, crs, w', acts[1..], c);
    }
  }

  lemma {:induction false} OneStep(server: Server, crs: map<nat, Account>, w: World, a: Action, c: nat)
    requires Strict(server) && ScopeKeeping(server) && FleetOk(crs) && NoClash(crs) && Basic([a])
    requires Inv(PlanOf(crs), w) && Steady(crs, w) && c in crs && FirstsKept(crs, w, c)
    ensures Inv(PlanOf(crs), Next(server, w, a)) && Steady(crs, Next(server, w, a)) && FirstsKept(crs, Next(server, w, a), c)
  {
    hide Strict, ScopeKeeping, FleetOk, NoClash, HarborOk, ProcOk, SteadyProc, FirstIsKept, Worked, PlanOk;
    assert [a][0] == a;
    FleetHasPlan(crs);
    StepKeepsInv(server, PlanOf(crs), w, a);
    RunKeepsSteady(server, crs, w, [a]);
    RunOfOne(server, w, a);
    if a.Work? && a.c == c {
      WorkKeepsFirst(server, crs, w, c, a.fate, a.saved);
    } else {
      OthersKeepFirst(server, crs, w, a, c);
    }
  }

  lemma FreshIsSteady(crs: map<nat, Account>, c: nat)
    requires FleetOk(crs) && c in crs
    ensures Steady(crs, Fresh(crs)) && FirstsKept(crs, Fresh(crs), c)
  {
    NoBirthsAtFirst(c);
  }

  lemma ApartIsSingleWhenStrict(server: Server, crs: map<nat, Account>, acts: seq<Action>, c: nat)
    requires Strict(server) && ScopeKeeping(server) && FleetOk(crs) && NoClash(crs) && Basic(acts) && c in crs
    ensures Births(Run(server, Fresh(crs), acts).log, c) <= 1
  {
    hide Strict, ScopeKeeping, FleetOk, NoClash, Init, Inv, Steady, Run, PlanOk, Births;
    FleetIsApart(crs);
    InitIsInv(PlanOf(crs), Fresh(crs));
    FreshIsSteady(crs, c);
    RunKeepsFirst(server, crs, Fresh(crs), acts, c);
  }

  // ---------- The exact conditions ----------

  /**
   * Ownership is safe exactly when no two resources clash: if one's scan can find the robot that the other asks for,
   * some run lets both hold it, and otherwise none does, whatever is lost, crashes or is deleted. Specs may be resolved,
   * in part resolved, or not resolved at all.
   */
  lemma {:induction false} OwnershipIff(server: Server, crs: map<nat, Account>)
    requires ScopeKeeping(server) && Receptive(server) && FleetOk(crs)
    ensures (forall acts :: Basic(acts) ==> Exclusive(Run(server, Fresh(crs), acts))) <==> NoClash(crs)
  {
    hide Run, Exclusive, Basic, Sharing;
    if NoClash(crs) {
      forall acts | Basic(acts)
        ensures Exclusive(Run(server, Fresh(crs), acts))
      {
        ApartIsExclusive(server, crs, acts);
      }
    } else {
      var c, d :| c in crs && d in crs && c != d && Clash(crs[c], crs[d]);
      var acts := ClashSharesRobot(server, crs, c, d);
    }
  }

  ghost predicate AlwaysSingle(server: Server, crs: map<nat, Account>) {
    forall acts, c :: Basic(acts) && c in crs ==> Births(Run(server, Fresh(crs), acts).log, c) <= 1
  }

  /**
   * On a server that accepts any number of robots of one name, at-most-once creation holds exactly when no two
   * resources clash and every project-level spec has a project permission to look its robot up by: otherwise some run
   * makes a resource create two robots.
   */
  lemma {:induction false} SingleRobotIff(server: Server, crs: map<nat, Account>)
    requires ScopeKeeping(server) && Lenient(server) && FleetOk(crs)
    ensures AlwaysSingle(server, crs) <==> NoClash(crs) && forall c :: c in crs ==> Discoverable(crs[c].spec)
  {
    hide Run, Births, Basic, Discoverable;
    if c :| c in crs && !Discoverable(crs[c].spec) {
      var acts := BlindCreationDuplicates(server, crs, c);
      assert Basic(acts) && Births(Run(server, Fresh(crs), acts).log, c) == 2;
    } else if NoClash(crs) {
      forall acts, c | Basic(acts) && c in crs
        ensures Births(Run(server, Fresh(crs), acts).log, c) <= 1
      {
        ApartIsSingle(server, crs, acts, c);
      }
    } else {
      var c, d :| c in crs && d in crs && c != d && Clash(crs[c], crs[d]);
      var acts := ClashDuplicates(server, crs, c, d);
      assert Basic(acts) && Births(Run(server, Fresh(crs), acts).log, d) == 2;
    }
  }

  /**
   * On a server that refuses a second robot of the same name, it holds exactly when no two resources clash: what the
   * lookup cannot find, the server refuses. A clash still makes a resource create two robots, one after the other.
   */
  lemma {:induction false} SingleRobotWhenStrictIff(server: Server, crs: map<nat, Account>)
    requires ScopeKeeping(server) && Strict(server) && FleetOk(crs)
    ensures AlwaysSingle(server, crs) <==> NoClash(crs)
  {
    hide Run, Births, Basic;
    if NoClash(crs) {
      forall acts, c | Basic(acts) && c in crs
        ensures Births(Run(server, Fresh(crs), acts).log, c) <= 1
      {
        ApartIsSingleWhenStrict(server, crs, acts, c);
      }
    } else {
      var c, d :| c in crs && d in crs && c != d && Clash(crs[c], crs[d]);
      var acts := ClashDuplicates(server, crs, c, d);
      assert Basic(acts) && Births(Run(server, Fresh(crs), acts).log, d) == 2;
    }
  }

  /** A resource that has been let go has left nothing behind. */
  ghost predicate LeftClean(w: World, c: nat) {
    c in w.procs && w.procs[c].phase.Gone? ==> NoLive(w.harbor, w.owner, c)
  }

  lemma DiscoverableIsClean(server: Server, crs: map<nat, Account>, acts: seq<Action>, c: nat)
    requires ScopeKeeping(server) && FleetOk(crs) && NoClash(crs) && Basic(acts) && c in crs
    requires forall d :: d in crs ==> Discoverable(crs[d].spec)
    ensures LeftClean(Run(server, Fresh(crs), acts), c)
  {
    var plan, start := PlanOf(crs), Fresh(crs);
    var end := Run(server, start, acts);
    hide Run, ScopeKeeping, FleetOk, NoClash, PlanOk, OneHome, Init, ShelteredInit, ShelteredRun, RunOk, Resolved, FirstNamespace;
    FleetIsApart(crs);
    FleetIsSheltered(crs);
    BasicIsSheltered(server, plan, start, acts);
    FreshIsSteady(crs, c);
    RunKeepsSteady(server, crs, start, acts);
    if end.procs[c].phase == Gone(false) {
      DeletionLeavesNothing(server, plan, start, acts, c);
    } else if end.procs[c].phase.Gone? && Resolved(crs[c].spec.permissions) {
      ValidatedNamespace(crs[c].spec.permissions);
    }
  }

  /**
   * Deletion leaves nothing behind, in any run of resources that do not clash, exactly when every project-level spec
   * has a project permission: without one a resource that has lost its annotation is let go, and its robot stays.
   */
  lemma {:induction false} CleanDeletionIff(server: Server, crs: map<nat, Account>)
    requires ScopeKeeping(server) && Receptive(server) && FleetOk(crs) && NoClash(crs)
    ensures (forall acts, c :: Basic(acts) && c in crs ==> LeftClean(Run(server, Fresh(crs), acts), c)) <==>
            forall c :: c in crs ==> Discoverable(crs[c].spec)
  {
    hide Run, Basic, Discoverable;
    if c :| c in crs && !Discoverable(crs[c].spec) {
      var acts := BlindRunLeaks(server, crs, c);
      var w := Run(server, Fresh(crs), acts);
      assert Basic(acts) && Live(w.harbor, w.owner, 1, c) && !LeftClean(w, c);
    } else {
      forall acts, c | Basic(acts) && c in crs
        ensures LeftClean(Run(server, Fresh(crs), acts), c)
      {
        DiscoverableIsClean(server, crs, acts, c);
      }
    }
  }
}

/**
 * Convergence of one RobotAccount in the middle of a run: its own calls are delivered, but all the other resources and
 * the other users of the server keep working in between, call by call.
 */
module RobotSettling {
  import opened Wrappers
  import opened Text
  import opened IamModels
  import opened IamClient
  import opened HarborServer
  import opened Managed
  import opened RobotController
  import opened RobotReconcile
  import opened RobotRuns
  import opened RobotOwnership
  import opened RobotLifetime
  import opened RobotConvergence

  /** The requests that `c` has sent. */
  function SentBy(log: seq<Entry>, c: nat): nat {
    if log == [] then 0
    else SentBy(log[..|log| - 1], c) + (if log[|log| - 1].sender == c then 1 else 0)
  }

  /** How often `c` gets to make a call. */
  function TurnsOf(acts: seq<Action>, c: nat): nat {
    if acts == [] then 0
    else (if acts[0].Work? && acts[0].c == c then 1 else 0) + TurnsOf(acts[1..], c)
  }

  /** The own robot is where it was. */
  ghost predicate RobotKept(h: Harbor, h': Harbor, owner: map<int64, nat>, c: nat) {
    forall id :: Live(h, owner, id, c) ==> id in h'.robots && h'.robots[id] == h.robots[id]
  }

  /** The Create that the worker may be about to send is accepted. */
  predicate Admitted(server: Server, h: Harbor, p: Proc) {
    p.phase.Seen? && !p.phase.seen.resourceExists ==>
      Accepts(server, h, CreateRequestFor(RobotName(p.phase.mem), p.phase.mem.spec))
  }

  /** Nothing goes wrong for `c`, its resource is not edited, and nobody else touches its robot. */
  ghost predicate KindTo(server: Server, w: World, c: nat, a: Action) {
    match a
    case Work(d, fate, saved) =>
      d == c ==> fate == Delivered && saved && (c in w.procs ==> Admitted(server, w.harbor, w.procs[c]))
    case Others(h) => RobotKept(w.harbor, h, w.owner, c)
    case _ => a.c != c
  }

  ghost predicate KindRun(server: Server, plan: map<nat, Claim>, w: World, acts: seq<Action>, c: nat)
    decreases |acts|
  {
    acts != [] ==>
      && Admissible(plan, w, acts[0]) && Sheltered(plan, w, acts[0]) && KindTo(server, w, c, acts[0])
      && KindRun(server, plan, Next(server, w, acts[0]), acts[1..], c)
  }

  /** The resource wants its robot to exist, and the server can store it as wanted. */
  ghost predicate Wanted(server: Server, plan: map<nat, Claim>, w: World, c: nat) {
    && FullInv(plan, w) && c in plan
    && var cr := w.procs[c].cr;
       !cr.deleting && Resolved(cr.spec.permissions) && Faithful(server, cr.spec)
  }

  ghost predicate OwnUpToDate(h: Harbor, owner: map<int64, nat>, c: nat, spec: Parameters) {
    exists id :: Live(h, owner, id, c) && UpToDate(spec, Render(id, h.robots[id]))
  }

  /** The worker has seen its robot as wanted. */
  predicate SeenAsWanted(p: Proc) {
    p.phase.Seen? && !p.phase.mem.deleting && p.phase.mem.spec == p.cr.spec
    && p.phase.seen == ExternalObservation(true, true)
  }

  /** The robot is as wanted, and the worker has no other intention than to look again. */
  ghost predicate Settled(w: World, c: nat) {
    && c in w.procs
    && OwnUpToDate(w.harbor, w.owner, c, w.procs[c].cr.spec)
    && (w.procs[c].phase == Idle || SeenAsWanted(w.procs[c]))
  }

  /** The worker is on its way to the one write that may be needed. */
  predicate Unsettled(p: Proc) {
    match p.phase
    case Idle => true
    case Seen(mem, seen) => !mem.deleting && mem.spec == p.cr.spec && seen != ExternalObservation(true, true)
    case Updating(mem, robot) => mem.spec == p.cr.spec && UpToDate(p.cr.spec, robot)
    case _ => false
  }

  /** How many calls of its own `c` is away from being settled, at most. */
  ghost function Distance(w: World, c: nat): nat
    requires c in w.procs
  {
    if Settled(w, c) then 0
    else match w.procs[c].phase
         case Idle => 3
         case Seen(_, _) => 2
         case _ => 1
  }

  ghost predicate OnTheWay(w: World, c: nat) {
    c in w.procs && (Settled(w, c) || Unsettled(w.procs[c]))
  }

  // ---------- One call of the worker itself ----------

  /** With a resolved spec the worker's lookup finds its robot, or there is none. */
  lemma OwnLookup(plan: map<nat, Claim>, c: nat, a: Account, p: Proc, h: Harbor, owner: map<int64, nat>)
    requires PlanOk(plan) && OneHome(plan) && c in plan && HarborOk(plan, h, owner) && AccountOk(plan, c, a, owner)
    requires Tended(plan[c], c, p, h, owner) && (forall i: int64 :: Holds(a, i) ==> Knows(p, i))
    requires Discoverable(a.spec) && Resolved(a.spec.permissions)
    ensures forall id :: Live(h, owner, id, c) ==> Find(h, a, Delivered) == Ok(Render(id, h.robots[id]))
    ensures var found := Find(h, a, Delivered);
            if found.Ok? then Live(h, owner, found.value.id, c) else MeansAbsent(found.error)
  {
    hide HarborOk;
    assert !Blind(a) by {
      HomeOfSpec(plan, c, a.spec);
    }
    OwnerLookup(plan, c, a, h, owner, Delivered);
    ScanErrorsMeanAbsent(h, a);
    forall id | Live(h, owner, id, c)
      ensures Find(h, a, Delivered) == Ok(Render(id, h.robots[id]))
    {
      OwnLookupIsExact(plan, c, a, p, h, owner, id);
    }
  }

  lemma LookingTurn(server: Server, plan: map<nat, Claim>, c: nat, h: Harbor, p: Proc, owner: map<int64, nat>)
    requires PlanOk(plan) && OneHome(plan) && c in plan && HarborOk(plan, h, owner)
    requires ProcOk(plan, c, p, owner) && Tended(plan[c], c, p, h, owner)
    requires p.phase == Idle && !p.cr.deleting && Resolved(p.cr.spec.permissions)
    ensures var o := Turn(server, h, p, Delivered, true);
            && o.proc.cr == p.cr && o.harbor == h && o.sent.None? && o.proc.phase.Seen?
            && (if OwnUpToDate(h, owner, c, p.cr.spec) then SeenAsWanted(o.proc) else Unsettled(o.proc))
  {
    hide HarborOk, Find;
    OwnLookup(plan, c, p.cr, p, h, owner);
    FoundIsStored(h, p.cr, Delivered);
  }

  lemma RestingTurn(server: Server, h: Harbor, p: Proc)
    requires SeenAsWanted(p)
    ensures var o := Turn(server, h, p, Delivered, true);
            o.proc.cr.spec == p.cr.spec && o.proc.cr.deleting == p.cr.deleting && o.proc.phase == Idle && o.harbor == h
            && o.sent.None?
  {
  }

  lemma PreparingTurn(server: Server, plan: map<nat, Claim>, c: nat, h: Harbor, p: Proc, owner: map<int64, nat>)
    requires PlanOk(plan) && OneHome(plan) && c in plan && HarborOk(plan, h, owner)
    requires ProcOk(plan, c, p, owner) && Tended(plan[c], c, p, h, owner)
    requires p.phase.Seen? && p.phase.seen.resourceExists && Unsettled(p)
    requires !p.cr.deleting && Resolved(p.cr.spec.permissions)
    ensures var o := Turn(server, h, p, Delivered, true);
            && o.proc.cr == p.cr && o.harbor == h && o.sent.None?
            && o.proc.phase.Updating? && Unsettled(o.proc)
  {
    hide HarborOk;
    var mem := p.phase.mem;
    var id := mem.atProvider.id.value;
    assert Knows(p, id) && id in h.robots;
    AppliedIsUpToDate(mem.spec, Render(id, h.robots[id]));
  }

  lemma CreatingTurn(server: Server, plan: map<nat, Claim>, c: nat, h: Harbor, p: Proc, owner: map<int64, nat>)
    requires c in plan && ProcOk(plan, c, p, owner) && Admitted(server, h, p)
    requires p.phase.Seen? && !p.phase.seen.resourceExists && Unsettled(p)
    requires !p.cr.deleting && Resolved(p.cr.spec.permissions) && Faithful(server, p.cr.spec)
    ensures var o := Turn(server, h, p, Delivered, true);
            && o.proc.cr.spec == p.cr.spec && !o.proc.cr.deleting && o.sent.Some?
            && o.proc.phase == Idle && OwnUpToDate(o.harbor, WithOwner(owner, Born(h, o.harbor), c), c, p.cr.spec)
  {
    var o := Turn(server, h, p, Delivered, true);
    var owner' := WithOwner(owner, Born(h, o.harbor), c);
    assert Live(o.harbor, owner', h.nextId, c);
    assert UpToDate(p.cr.spec, Render(h.nextId, o.harbor.robots[h.nextId]));
  }

  lemma WritingTurn(server: Server, plan: map<nat, Claim>, c: nat, h: Harbor, p: Proc, owner: map<int64, nat>)
    requires c in plan && ProcOk(plan, c, p, owner) && Tended(plan[c], c, p, h, owner)
    requires p.phase.Updating? && Unsettled(p) && !p.cr.deleting && Faithful(server, p.cr.spec)
    ensures var o := Turn(server, h, p, Delivered, true);
            && o.proc.cr.spec == p.cr.spec && !o.proc.cr.deleting && o.sent.Some?
            && o.proc.phase == Idle && OwnUpToDate(o.harbor, WithOwner(owner, Born(h, o.harbor), c), c, p.cr.spec)
  {
    var id, robot := p.phase.robot.id, p.phase.robot;
    var o := Turn(server, h, p, Delivered, true);
    assert Knows(p, id) && id in h.robots;
    assert o.harbor.robots[id] == UpdatedRecord(server, h.robots[id], robot);
    assert Live(o.harbor, owner, id, c) && UpToDate(p.cr.spec, Render(id, o.harbor.robots[id]));
  }

  lemma SettledTurn(server: Server, plan: map<nat, Claim>, w: World, c: nat)
    requires PlanOk(plan) && OneHome(plan) && Wanted(server, plan, w, c) && Settled(w, c)
    ensures var w' := Worked(server, w, c, Delivered, true);
            w'.log == w.log && Settled(w', c) && w'.procs[c].cr.spec == w.procs[c].cr.spec && !w'.procs[c].cr.deleting
  {
    hide Turn, OwnUpToDate, HarborOk, Tended, ProcOk;
    var p := w.procs[c];
    assert ProcOk(plan, c, p, w.owner) && Tended(plan[c], c, p, w.harbor, w.owner);
    if p.phase == Idle {
      LookingTurn(server, plan, c, w.harbor, p, w.owner);
    } else {
      RestingTurn(server, w.harbor, p);
    }
  }

  lemma OneMoreSent(log: seq<Entry>, entry: Entry, c: nat)
    ensures SentBy(log + [entry], c) == SentBy(log, c) + (if entry.sender == c then 1 else 0)
  {
    assert (log + [entry])[..|log|] == log;
  }

  /** Each call of an unsettled worker brings it nearer, and only the last one sends a request. */
  lemma {:induction false} UnsettledTurn(server: Server, plan: map<nat, Claim>, w: World, c: nat)
    requires ScopeKeeping(server) && PlanOk(plan) && OneHome(plan) && Wanted(server, plan, w, c)
    requires Admitted(server, w.harbor, w.procs[c]) && Unsettled(w.procs[c]) && !Settled(w, c)
    ensures var w' := Worked(server, w, c, Delivered, true);
            && OnTheWay(w', c) && Distance(w', c) < Distance(w, c)
            && w'.procs[c].cr.spec == w.procs[c].cr.spec && !w'.procs[c].cr.deleting
            && SentBy(w'.log, c) <= SentBy(w.log, c) + (if Settled(w', c) then 1 else 0)
  {
    hide ProcOk, Turn, OwnUpToDate, HarborOk, Tended;
    var p, h := w.procs[c], w.harbor;
    assert ProcOk(plan, c, p, w.owner) && Tended(plan[c], c, p, h, w.owner);
    var w' := Worked(server, w, c, Delivered, true);
    if w'.log != w.log {
      OneMoreSent(w.log, w'.log[|w.log|], c);
    }
    match p.phase
    case Idle => LookingTurn(server, plan, c, h, p, w.owner);
    case Seen(_, seen) =>
      if seen.resourceExists {
        PreparingTurn(server, plan, c, h, p, w.owner);
      } else {
        CreatingTurn(server, plan, c, h, p, w.owner);
      }
    case Updating(_, _) => WritingTurn(server, plan, c, h, p, w.owner);
  }

  // ---------- Everybody else ----------

  lemma KeptRobotStaysUpToDate(h: Harbor, h': Harbor, owner: map<int64, nat>, owner': map<int64, nat>, c: nat, spec: Parameters)
    requires RobotKept(h, h', owner, c) && OwnUpToDate(h, owner, c, spec)
    requires forall id :: Owns(owner', id, c) <==> Owns(owner, id, c)
    ensures OwnUpToDate(h', owner', c, spec)
  {
    var id :| Live(h, owner, id, c) && UpToDate(spec, Render(id, h.robots[id]));
    assert Live(h', owner', id, c) && UpToDate(spec, Render(id, h'.robots[id]));
  }

  lemma {:induction false} OthersKeepRobot(server: Server, plan: map<nat, Claim>, w: World, c: nat, a: Action)
    requires ScopeKeeping(server) && PlanOk(plan) && Inv(plan, w) && c in plan
    requires KindTo(server, w, c, a) && !(a.Work? && a.c == c)
    ensures var w' := Next(server, w, a);
            && c in w'.procs && w'.procs[c] == w.procs[c] && SentBy(w'.log, c) == SentBy(w.log, c)
            && RobotKept(w.harbor, w'.harbor, w.owner, c)
            && (forall id :: Owns(w'.owner, id, c) <==> Owns(w.owner, id, c))
  {
    hide Turn, ProcOk, HarborOk;
    if a.Work? && a.c in plan {
      OneCall(server, plan, w, a.c, a.fate, a.saved);
      var w' := Next(server, w, a);
      if w'.log != w.log {
        OneMoreSent(w.log, w'.log[|w.log|], c);
      }
    }
  }

  /** A call of another worker, an edit of another resource or another user's change is not noticed by `c`. */
  lemma {:induction false} OthersDoNotDisturb(server: Server, plan: map<nat, Claim>, w: World, c: nat, a: Action)
    requires ScopeKeeping(server) && PlanOk(plan) && OneHome(plan) && Wanted(server, plan, w, c)
    requires Admissible(plan, w, a) && Sheltered(plan, w, a)
    requires KindTo(server, w, c, a) && !(a.Work? && a.c == c) && OnTheWay(w, c)
    ensures var w' := Next(server, w, a);
            && Wanted(server, plan, w', c) && w'.procs[c] == w.procs[c] && SentBy(w'.log, c) == SentBy(w.log, c)
            && (Settled(w, c) ==> Settled(w', c))
            && OnTheWay(w', c) && Distance(w', c) <= Distance(w, c)
  {
    hide Next, ProcOk, HarborOk, Tended, OwnUpToDate, Admissible, Sheltered, KindTo, RobotKept;
    var w' := Next(server, w, a);
    StepKeepsFullInv(server, plan, w, a);
    OthersKeepRobot(server, plan, w, c, a);
    if OwnUpToDate(w.harbor, w.owner, c, w.procs[c].cr.spec) {
      KeptRobotStaysUpToDate(w.harbor, w'.harbor, w.owner, w'.owner, c, w.procs[c].cr.spec);
    }
  }

  // ---------- Whole runs ----------

  lemma {:induction false} StepSettles(server: Server, plan: map<nat, Claim>, w: World, c: nat, a: Action)
    requires ScopeKeeping(server) && PlanOk(plan) && OneHome(plan) && Wanted(server, plan, w, c)
    requires Admissible(plan, w, a) && Sheltered(plan, w, a) && KindTo(server, w, c, a) && OnTheWay(w, c)
    ensures var w' := Next(server, w, a);
            && Wanted(server, plan, w', c) && OnTheWay(w', c)
            && (Settled(w, c) ==> Settled(w', c) && SentBy(w'.log, c) == SentBy(w.log, c))
            && SentBy(w'.log, c) + (if Settled(w', c) then 0 else 1) <=
               SentBy(w.log, c) + (if Settled(w, c) then 0 else 1)
            && Distance(w', c) + TurnsOf([a], c) <= (if Settled(w, c) then 1 else Distance(w, c))
  {
    hide Worked, ProcOk, HarborOk, Tended, OwnUpToDate, Admissible, Sheltered;
    assert [a][1..] == [];
    if a.Work? && a.c == c {
      StepKeepsFullInv(server, plan, w, a);
      if Settled(w, c) {
        SettledTurn(server, plan, w, c);
      } else {
        UnsettledTurn(server, plan, w, c);
      }
    } else {
      hide Next;
      OthersDoNotDisturb(server, plan, w, c, a);
    }
  }

  lemma OnTheWayHasProc(w: World, c: nat)
    requires OnTheWay(w, c)
    ensures c in w.procs
  {
  }

  lemma {:induction false} RunSettles(server: Server, plan: map<nat, Claim>, w: World, acts: seq<Action>, c: nat)
    requires ScopeKeeping(server) && PlanOk(plan) && OneHome(plan) && Wanted(server, plan, w, c)
    requires KindRun(server, plan, w, acts, c) && OnTheWay(w, c)
    ensures var end := Run(server, w, acts);
            && Wanted(server, plan, end, c) && OnTheWay(end, c)
            && (Settled(w, c) ==> Settled(end, c) && SentBy(end.log, c) == SentBy(w.log, c))
            && SentBy(end.log, c) <= SentBy(w.log, c) + 1
            && (TurnsOf(acts, c) >= Distance(w, c) ==> Settled(end, c))
    decreases |acts|
  {
    hide Next, FullInv, Settled, OnTheWay, Admissible, Sheltered, KindTo, PlanOk, OneHome, ScopeKeeping;
    OnTheWayHasProc(w, c);
    if acts != [] {
      var w' := Next(server, w, acts[0]);
      StepSettles(server, plan, w, c, acts[0]);
      assert [acts[0]][1..] == [];
      RunSettles(server, plan, w', acts[1..], c);
    }
  }

  lemma SettledIsUpToDate(w: World, c: nat)
    requires Settled(w, c)
    ensures c in w.procs && OwnUpToDate(w.harbor, w.owner, c, w.procs[c].cr.spec)
  {
  }

  lemma IdleIsOnTheWay(server: Server, plan: map<nat, Claim>, w: World, c: nat)
    requires Wanted(server, plan, w, c) && w.procs[c].phase == Idle
    ensures OnTheWay(w, c) && Distance(w, c) <= 3
  {
  }

  /**
   * Convergence under interleaving: from any reachable state in which the worker is between two reconciles, and with
   * any number of other resources and users at work in between its calls, it sends at most one write request, and
   * after three calls of its own its robot exists as wanted and it never sends another one.
   */
  lemma {:induction false} SettlesAmongOthers(
    server: Server, plan: map<nat, Claim>, start: World, before: seq<Action>, acts: seq<Action>, later: seq<Action>, c: nat)
    requires ScopeKeeping(server) && PlanOk(plan) && ShelteredInit(plan, start) && ShelteredRun(server, plan, start, before)
    requires c in plan && Wanted(server, plan, Run(server, start, before), c)
    requires Run(server, start, before).procs[c].phase == Idle
    requires KindRun(server, plan, Run(server, start, before), acts, c) && TurnsOf(acts, c) >= 3
    requires KindRun(server, plan, Run(server, Run(server, start, before), acts), later, c)
    ensures var w := Run(server, start, before);
            var mid := Run(server, w, acts);
            var end := Run(server, mid, later);
            && SentBy(mid.log, c) <= SentBy(w.log, c) + 1
            && SentBy(end.log, c) == SentBy(mid.log, c)
            && c in end.procs && OwnUpToDate(end.harbor, end.owner, c, end.procs[c].cr.spec)
  {
    hide Run, FullInv, Settled, OnTheWay, Distance, ScopeKeeping, PlanOk, Init, ShelteredRun, KindRun;
    var w := Run(server, start, before);
    IdleIsOnTheWay(server, plan, w, c);
    RunSettles(server, plan, w, acts, c);
    RunSettles(server, plan, Run(server, w, acts), later, c);
    SettledIsUpToDate(Run(server, Run(server, w, acts), later), c);
  }

  /** On an empty server the first call finds nothing, and the second one creates. */
  lemma FirstCalls(server: Server, cr: Account)
    requires !cr.deleting && Resolved(cr.spec.permissions)
    ensures var h := Harbor(map[], [], 1);
            var one := Turn(server, h, Proc(cr, Idle), Delivered, true);
            var two := Turn(server, h, one.proc, Delivered, true);
            one.harbor == h && two.proc.phase == Idle
  {
    FoundIsStored(Harbor(map[], [], 1), cr, Delivered);
    ScanErrorsMeanAbsent(Harbor(map[], [], 1), cr);
  }

  lemma NewIsSheltered(plan: map<nat, Claim>, cr: Account)
    requires OneHome(plan) && plan.Keys == {0} && NewAccount(plan, 0, cr) && Discoverable(cr.spec)
    ensures ShelteredInit(plan, World(Harbor(map[], [], 1), map[0 := Proc(cr, Idle)], map[], []))
  {
    FreshStart(plan, map[0 := Proc(cr, Idle)]);
    NewAccountHoldsNothing(plan, 0, cr);
  }

  /** For example, a new resource on an empty server has its robot as wanted after its first three calls. */
  lemma {:induction false} NewResourceSettles(server: Server, plan: map<nat, Claim>, cr: Account)
    requires ScopeKeeping(server) && Receptive(server) && PlanOk(plan) && OneHome(plan)
    requires plan.Keys == {0} && NewAccount(plan, 0, cr)
    requires Discoverable(cr.spec) && !cr.deleting && Resolved(cr.spec.permissions) && Faithful(server, cr.spec)
    ensures var start := World(Harbor(map[], [], 1), map[0 := Proc(cr, Idle)], map[], []);
            var call := Work(0, Delivered, true);
            var end := Run(server, start, [call, call, call]);
            SentBy(end.log, 0) <= 1 && 0 in end.procs && OwnUpToDate(end.harbor, end.owner, 0, end.procs[0].cr.spec)
  {
    var start := World(Harbor(map[], [], 1), map[0 := Proc(cr, Idle)], map[], []);
    var call := Work(0, Delivered, true);
    hide Turn, FullInv, OwnUpToDate, ShelteredInit, PlanOk, OneHome, ScopeKeeping;
    NewIsSheltered(plan, cr);
    ShelteredInitIsInv(plan, start);
    var one := Next(server, start, call);
    var two := Next(server, one, call);
    FirstCalls(server, cr);
    assert [call, call, call][1..] == [call, call];
    assert [call, call][1..] == [call];
    assert [call][1..] == [];
    assert KindRun(server, plan, two, [call], 0);
    assert KindRun(server, plan, one, [call, call], 0);
    assert KindRun(server, plan, start, [call, call, call], 0);
    assert TurnsOf([call], 0) == 1;
    assert TurnsOf([call, call], 0) == 2;
    assert TurnsOf([call, call, call], 0) == 3;
    SettlesAmongOthers(server, plan, start, [], [call, call, call], [], 0);
  }
}

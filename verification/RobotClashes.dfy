/**
 * Where the guarantees end, exactly: for new resources whose specs stay as they are, the conditions under which no run
 * ever breaks ownership, creates a second robot, or leaves a robot behind.
 */
module RobotClashes {
  import opened Wrappers
  import opened Text
  import opened IamModels
  import opened IamClient
  import opened HarborServer
  import opened RobotController
  import opened RobotReconcile
  import opened RobotRuns
  import opened RobotOwnership
  import opened RobotLifetime
  import opened RobotConvergence

  // ---------- The setting ----------

  /** A new resource. Its references may be resolved or not. */
  predicate NewResource(cr: Account) {
    && (cr.spec.level == LEVEL_PROJECT || cr.spec.level == LEVEL_SYSTEM)
    && PlusFree(RobotName(cr)) && CachedID(cr).None? && !cr.deleting
  }

  predicate FleetOk(crs: map<nat, Account>) {
    forall c :: c in crs ==> NewResource(crs[c])
  }

  /** All of them idle, on an empty server. */
  function Fresh(crs: map<nat, Account>): World {
    World(Harbor(map[], [], 1), map c | c in crs :: Proc(crs[c], Idle), map[], [])
  }

  /** What the reconcilers do by themselves, and deletions. */
  predicate Basic(acts: seq<Action>) {
    forall i :: 0 <= i < |acts| ==> acts[i].Work? || acts[i].Crash? || acts[i].MarkDeleted?
  }

  /** The spec of `b` can be written to a robot, which the name scan of `a` can find. */
  predicate Clash(a: Account, b: Account) {
    && a.spec.level == b.spec.level && RobotName(a) == RobotName(b) && Resolved(b.spec.permissions)
    && (a.spec.level == LEVEL_PROJECT ==>
          && FirstNamespace(a.spec.permissions) != ""
          && Names(b.spec.permissions, FirstNamespace(a.spec.permissions)))
  }

  predicate NoClash(crs: map<nat, Account>) {
    forall c, d :: c in crs && d in crs && c != d ==> !Clash(crs[c], crs[d])
  }

  /** No two resources hold the same robot. */
  ghost predicate Exclusive(w: World) {
    forall c, d, id: int64 :: c in w.procs && d in w.procs && Holds(w.procs[c].cr, id) && Holds(w.procs[d].cr, id) ==> c == d
  }

  // ---------- Without a clash ----------

  function ClaimOf(cr: Account): Claim {
    var project := FirstNamespace(cr.spec.permissions);
    Claim(cr.spec.level, if cr.spec.level == LEVEL_PROJECT && project != "" then {project} else {}, RobotName(cr))
  }

  function PlanOf(crs: map<nat, Account>): map<nat, Claim> {
    map c | c in crs :: ClaimOf(crs[c])
  }

  lemma MemberIsApart(crs: map<nat, Account>, c: nat)
    requires FleetOk(crs) && NoClash(crs) && c in crs
    ensures NewAccount(PlanOf(crs), c, crs[c])
  {
    hide FirstNamespace, Names, RobotName, CachedID, Resolved;
    var plan := PlanOf(crs);
    forall d | d in plan && d != c && plan[d].level == plan[c].level && plan[d].short == plan[c].short
               && Resolved(crs[c].spec.permissions)
      ensures !Exposed(crs[c].spec, plan[d])
    {
      assert !Clash(crs[d], crs[c]);
    }
  }

  lemma FleetHasPlan(crs: map<nat, Account>)
    requires FleetOk(crs)
    ensures PlanOk(PlanOf(crs)) && OneHome(PlanOf(crs))
  {
    hide FirstNamespace, RobotName, CachedID;
  }

  lemma FleetIsApart(crs: map<nat, Account>)
    requires FleetOk(crs) && NoClash(crs)
    ensures PlanOk(PlanOf(crs)) && OneHome(PlanOf(crs)) && Init(PlanOf(crs), Fresh(crs))
  {
    hide NewAccount, PlanOk, OneHome, Init, NoClash, FleetOk;
    FleetHasPlan(crs);
    forall c | c in crs
      ensures NewAccount(PlanOf(crs), c, crs[c])
    {
      MemberIsApart(crs, c);
    }
    FreshStart(PlanOf(crs), Fresh(crs).procs);
  }

  lemma {:induction false} BasicIsSheltered(server: Server, plan: map<nat, Claim>, w: World, acts: seq<Action>)
    requires Basic(acts)
    ensures RunOk(server, plan, w, acts) && ShelteredRun(server, plan, w, acts)
    ensures forall c :: Appearances(acts, c) == 0
    decreases |acts|
  {
    if acts != [] {
      BasicIsSheltered(server, plan, Next(server, w, acts[0]), acts[1..]);
    }
  }

  lemma ApartIsExclusive(server: Server, crs: map<nat, Account>, acts: seq<Action>)
    requires ScopeKeeping(server) && FleetOk(crs) && NoClash(crs) && Basic(acts)
    ensures Exclusive(Run(server, Fresh(crs), acts))
  {
    hide Init, PlanOk, RunOk, ShelteredRun, NoClash;
    var plan, start := PlanOf(crs), Fresh(crs);
    var end := Run(server, start, acts);
    FleetIsApart(crs);
    BasicIsSheltered(server, plan, start, acts);
    assert end.procs.Keys == plan.Keys by {
      InitIsInv(plan, start);
      RunKeepsInv(server, plan, start, acts);
    }
    forall c, d, id: int64 | c in end.procs && d in end.procs && Holds(end.procs[c].cr, id) && Holds(end.procs[d].cr, id)
      ensures c == d
    {
      Ownership(server, plan, start, acts, c, d, id);
    }
  }

  lemma FleetIsSheltered(crs: map<nat, Account>)
    requires FleetOk(crs) && NoClash(crs) && forall d :: d in crs ==> Discoverable(crs[d].spec)
    ensures ShelteredInit(PlanOf(crs), Fresh(crs))
  {
    hide PlanOk, OneHome, NoClash, FleetOk, Discoverable;
    var plan, start := PlanOf(crs), Fresh(crs);
    FleetIsApart(crs);
    forall d | d in plan
      ensures Sole(start.procs[d], start.harbor, start.owner, d)
    {
      NewAccountHoldsNothing(plan, d, start.procs[d].cr);
    }
  }

  lemma ApartIsSingle(server: Server, crs: map<nat, Account>, acts: seq<Action>, c: nat)
    requires ScopeKeeping(server) && FleetOk(crs) && NoClash(crs) && Basic(acts) && c in crs
    requires forall d :: d in crs ==> Discoverable(crs[d].spec)
    ensures Births(Run(server, Fresh(crs), acts).log, c) <= 1
  {
    hide PlanOk, OneHome, Init, RunOk, ShelteredInit, ShelteredRun, NoClash, FleetOk, Discoverable, Run, Births;
    FleetIsApart(crs);
    FleetIsSheltered(crs);
    BasicIsSheltered(server, PlanOf(crs), Fresh(crs), acts);
    AtMostOneRobot(server, PlanOf(crs), Fresh(crs), acts, c);
  }

  // ---------- Runs that go wrong ----------

  /** A call issues at most one ID, and only by a request that it sends. */
  lemma TurnIssues(server: Server, h: Harbor, p: Proc, fate: Fate, saved: bool)
    ensures var o := Turn(server, h, p, fate, saved);
            && h.nextId <= o.harbor.nextId <= h.nextId + 1
            && (o.harbor.nextId > h.nextId ==> HasRoom(h) && o.sent.Some?)
  {
  }

  lemma BirthsAreIssues(server: Server, w: World, c: nat, saved: bool)
    requires c in w.procs
    ensures var w' := Next(server, w, Work(c, Delivered, saved));
            && w'.harbor.nextId >= w.harbor.nextId
            && Births(w'.log, c) == Births(w.log, c) + (w'.harbor.nextId - w.harbor.nextId)
            && (forall d :: d != c ==> Births(w'.log, d) == Births(w.log, d))
  {
    hide Turn;
    var w' := Next(server, w, Work(c, Delivered, saved));
    TurnIssues(server, w.harbor, w.procs[c], Delivered, saved);
    if w'.log != w.log {
      forall d
        ensures Births(w'.log, d) == Births(w.log, d) + (if d == c && w'.log[|w.log|].born.Some? then 1 else 0)
      {
        OneMoreEntry(w.log, w'.log[|w.log|], d);
      }
    }
  }

  function AsLocal(w: World, c: nat): Local
    requires c in w.procs
  {
    Local(w.harbor, w.procs[c], [])
  }

  /** The calls of one undisturbed reconcile. */
  function RoundOf(server: Server, w: World, c: nat): seq<Action>
    requires c in w.procs
  {
    var call := Work(c, Delivered, true);
    if Calm(server, Calm(server, AsLocal(w, c))).proc.phase.Active() then [call, call, call] else [call, call]
  }

  lemma CalmIsWork(server: Server, w: World, c: nat, s: Local)
    requires c in w.procs && s.harbor == w.harbor && s.proc == w.procs[c]
    ensures var w' := Next(server, w, Work(c, Delivered, true));
            var s' := Calm(server, s);
            && w'.harbor == s'.harbor && w'.procs == w.procs[c := s'.proc]
            && Births(w'.log, c) == Births(w.log, c) + (w'.harbor.nextId - w.harbor.nextId)
            && (forall d :: d != c ==> Births(w'.log, d) == Births(w.log, d))
  {
    BirthsAreIssues(server, w, c, true);
  }

  lemma CalmTwice(server: Server, w: World, c: nat)
    requires c in w.procs
    ensures var call := Work(c, Delivered, true);
            var w' := Run(server, w, [call, call]);
            var s' := Calm(server, Calm(server, AsLocal(w, c)));
            && w'.harbor == s'.harbor && w'.procs == w.procs[c := s'.proc]
            && Births(w'.log, c) == Births(w.log, c) + (w'.harbor.nextId - w.harbor.nextId)
            && (forall d :: d != c ==> Births(w'.log, d) == Births(w.log, d))
  {
    hide Calm, Next, Run, Births;
    var call := Work(c, Delivered, true);
    var s := AsLocal(w, c);
    CalmIsWork(server, w, c, s);
    CalmIsWork(server, Next(server, w, call), c, Calm(server, s));
    RunOfTwo(server, w, call, call);
  }

  lemma RoundOfIsBasic(server: Server, w: World, c: nat)
    requires c in w.procs
    ensures Basic(RoundOf(server, w, c))
  {
  }

  /** An undisturbed reconcile as part of a run. */
  lemma RoundIsRun(server: Server, w: World, c: nat)
    requires c in w.procs
    ensures var acts := RoundOf(server, w, c);
            var w' := Run(server, w, acts);
            var s' := Round(server, AsLocal(w, c));
            && Basic(acts) && w'.harbor == s'.harbor && w'.procs == w.procs[c := s'.proc]
            && Births(w'.log, c) == Births(w.log, c) + (w'.harbor.nextId - w.harbor.nextId)
            && (forall d :: d != c ==> Births(w'.log, d) == Births(w.log, d))
  {
    hide Calm, Next, Run, Births, Basic, Turn;
    RoundOfIsBasic(server, w, c);
    var call := Work(c, Delivered, true);
    CalmTwice(server, w, c);
    var w2, s2 := Run(server, w, [call, call]), Calm(server, Calm(server, AsLocal(w, c)));
    if s2.proc.phase.Active() {
      CalmIsWork(server, w2, c, s2);
      RunOfOne(server, w2, call);
      RunConcat(server, w, [call, call], [call]);
      assert [call, call] + [call] == [call, call, call];
    }
  }

  /** One reconcile of `d` creates the robot that it looks for, when the server is empty. */
  lemma FirstRound(server: Server, d: Account)
    requires Receptive(server) && NewResource(d) && Resolved(d.spec.permissions)
    ensures var s := Local(Harbor(map[], [], 1), Proc(d, Idle), []);
            var req := CreateRequestFor(RobotName(d), d.spec);
            && Accepts(server, s.harbor, req) && Round(server, s).harbor == CreateRobot(server, s.harbor, req).0
            && Round(server, s).proc == Proc(WithRobotID(d, 1), Idle)
  {
    var s := Local(Harbor(map[], [], 1), Proc(d, Idle), []);
    assert NameIsFree(s.harbor.robots, RequestKey(CreateRequestFor(RobotName(d), d.spec)));
    FoundIsStored(s.harbor, d, Delivered);
    RoundAbsent(server, s);
  }

  /** A clashing `c` finds that robot, which is the only one there is. */
  lemma ClashIsFound(server: Server, c: Account, d: Account, h: Harbor)
    requires ScopeKeeping(server) && NewResource(c) && NewResource(d) && Clash(c, d)
    requires Accepts(server, Harbor(map[], [], 1), CreateRequestFor(RobotName(d), d.spec))
    requires h == CreateRobot(server, Harbor(map[], [], 1), CreateRequestFor(RobotName(d), d.spec)).0
    ensures h.robots.Keys == {1} && h.nextId == 2 && Find(h, c, Delivered) == Ok(Render(1, h.robots[1]))
  {
    CreateKeepsValid(server, Harbor(map[], [], 1), CreateRequestFor(RobotName(d), d.spec));
    if c.spec.level == LEVEL_PROJECT {
      WrittenNames(server, d.spec.permissions, FirstNamespace(c.spec.permissions));
    }
    assert OwnRobot(h, c, 1);
    FalseAbsenceIffBlind(h, c, 1);
  }

  /** So the next reconcile takes it for its own, also while the spec is not resolved. */
  lemma SecondRound(server: Server, c: Account, h: Harbor)
    requires !c.deleting && h.robots.Keys == {1} && h.nextId == 2
    requires Find(h, c, Delivered) == Ok(Render(1, h.robots[1]))
    ensures var s := Local(h, Proc(c, Idle), []);
            && Round(server, s).harbor.robots.Keys == {1} && Round(server, s).harbor.nextId == 2
            && Round(server, s).proc == Proc(c.(atProvider := ObservationOf(Render(1, h.robots[1]))), Idle)
  {
    hide Round, UpToDate, Find, FirstNamespace, Resolved;
    var s := Local(h, Proc(c, Idle), []);
    if !Resolved(c.spec.permissions) {
      RoundUnresolved(server, s);
    } else if FoundUpToDate(s) {
      RoundUpToDate(server, s);
    } else {
      RoundDrifted(server, s);
    }
  }

  /** What two clashing resources have come to after one reconcile each. */
  ghost predicate Sharing(w: World, crs: map<nat, Account>, c: nat, d: nat)
    requires c in crs && d in crs
  {
    && w.procs.Keys == crs.Keys && w.harbor.robots.Keys == {1} && w.harbor.nextId == 2
    && w.procs[d] == Proc(WithRobotID(crs[d], 1), Idle)
    && w.procs[c].phase == Idle && w.procs[c].cr.(atProvider := crs[c].atProvider) == crs[c]
    && w.procs[c].cr.atProvider.id == Some(1)
    && Births(w.log, d) == 1
  }

  lemma SharingIsNotExclusive(w: World, crs: map<nat, Account>, c: nat, d: nat)
    requires c in crs && d in crs && c != d && Sharing(w, crs, c, d)
    ensures Holds(w.procs[c].cr, 1) && Holds(w.procs[d].cr, 1) && !Exclusive(w)
  {
    FormatParseRoundTrip(1);
  }

  /** Whenever two resources clash, two reconciles are enough for both of them to hold the same robot. */
  lemma ClashSharesRobot(server: Server, crs: map<nat, Account>, c: nat, d: nat) returns (acts: seq<Action>)
    requires ScopeKeeping(server) && Receptive(server) && FleetOk(crs)
    requires c in crs && d in crs && c != d && Clash(crs[c], crs[d])
    ensures Basic(acts) && Sharing(Run(server, Fresh(crs), acts), crs, c, d)
    ensures !Exclusive(Run(server, Fresh(crs), acts))
  {
    hide Round, Next, Turn, Run, NewResource, Exclusive, Births;
    var w0 := Fresh(crs);
    MemberIsNew(crs, c);
    MemberIsNew(crs, d);
    FirstRound(server, crs[d]);
    RoundIsRun(server, w0, d);
    NoBirthsAtFirst(d);
    var w1 := Run(server, w0, RoundOf(server, w0, d));
    ClashIsFound(server, crs[c], crs[d], w1.harbor);
    SecondRound(server, crs[c], w1.harbor);
    RoundIsRun(server, w1, c);
    RunConcat(server, w0, RoundOf(server, w0, d), RoundOf(server, w1, c));
    acts := RoundOf(server, w0, d) + RoundOf(server, w1, c);
    SharingIsNotExclusive(Run(server, w0, acts), crs, c, d);
  }

  /** One more step, and one more reconcile after it. */
  lemma StepThenRound(server: Server, w: World, acts: seq<Action>, a: Action, c: nat) returns (more: seq<Action>)
    requires Basic(acts) && Basic([a]) && !a.Work? && c in Next(server, Run(server, w, acts), a).procs
    ensures Basic(more)
    ensures var w1 := Next(server, Run(server, w, acts), a);
            var w' := Run(server, w, more);
            var s' := Round(server, AsLocal(w1, c));
            && w'.harbor == s'.harbor && w'.procs == w1.procs[c := s'.proc]
            && Births(w'.log, c) == Births(w1.log, c) + (w'.harbor.nextId - w1.harbor.nextId)
            && (forall d :: d != c ==> Births(w'.log, d) == Births(w1.log, d))
  {
    hide Round, Next;
    var w1 := Next(server, Run(server, w, acts), a);
    RunOfOne(server, Run(server, w, acts), a);
    RunConcat(server, w, acts, [a]);
    RoundIsRun(server, w1, c);
    RunConcat(server, w, acts + [a], RoundOf(server, w1, c));
    more := acts + [a] + RoundOf(server, w1, c);
  }

  /** When the resource that has taken over the robot is deleted, the robot goes with it. */
  lemma SharedRobotIsDeleted(server: Server, h: Harbor, p: Proc)
    requires h.robots.Keys == {1} && p.phase == Idle && p.cr.deleting && p.cr.atProvider.id == Some(1)
    ensures Round(server, Local(h, p, [])).harbor.robots == map[]
    ensures Round(server, Local(h, p, [])).harbor.nextId == h.nextId
  {
    DeletingRound(server, Local(h, p, []));
  }

  /** The one that has created it then finds nothing under its annotation, and creates another. */
  lemma RobbedRound(server: Server, d: Account, h: Harbor)
    requires Receptive(server) && NewResource(d) && Resolved(d.spec.permissions) && h.robots == map[] && h.nextId == 2
    ensures Round(server, Local(h, Proc(WithRobotID(d, 1), Idle), [])).harbor.nextId == 3
  {
    var s := Local(h, Proc(WithRobotID(d, 1), Idle), []);
    FormatParseRoundTrip(1);
    assert CachedID(s.proc.cr) == Some(1);
    assert NameIsFree(h.robots, RequestKey(CreateRequestFor(RobotName(s.proc.cr), s.proc.cr.spec)));
    RoundAbsent(server, s);
  }

  lemma MemberIsNew(crs: map<nat, Account>, c: nat)
    requires FleetOk(crs) && c in crs
    ensures NewResource(crs[c]) && !crs[c].deleting
  {
  }

  lemma NoBirthsAtFirst(c: nat)
    ensures Births([], c) == 0
  {
  }

  /**
   * Then the deletion of the one takes the robot of the other away, and makes it create a second one: no call fails, no
   * write is lost, and nobody else is at work.
   */
  lemma ClashDuplicates(server: Server, crs: map<nat, Account>, c: nat, d: nat) returns (acts: seq<Action>)
    requires ScopeKeeping(server) && Receptive(server) && FleetOk(crs)
    requires c in crs && d in crs && c != d && Clash(crs[c], crs[d])
    ensures Basic(acts) && Births(Run(server, Fresh(crs), acts).log, d) == 2
  {
    hide Round, Run, NewResource, Resolved, WithRobotID, Births, FleetOk, Exclusive, ScopeKeeping, Receptive;
    MemberIsNew(crs, d);
    var w0 := Fresh(crs);
    var shared := ClashSharesRobot(server, crs, c, d);
    var w1 := Next(server, Run(server, w0, shared), MarkDeleted(c));
    SharedRobotIsDeleted(server, w1.harbor, w1.procs[c]);
    var deleted := StepThenRound(server, w0, shared, MarkDeleted(c), c);
    var w2 := Run(server, w0, deleted);
    RobbedRound(server, crs[d], w2.harbor);
    acts := StepThenRound(server, w0, deleted, Crash(d), d);
  }

  // ---------- Resources that cannot find their robot ----------

  /** A reconcile in which Observe and Create are delivered and the annotation is not stored. */
  function ForgottenCreate(server: Server, h: Harbor, cr: Account): Outcome {
    var seen := Turn(server, h, Proc(cr, Idle), Delivered, true);
    Turn(server, seen.harbor, seen.proc, Delivered, false)
  }

  /** A spec that cannot be looked up by name has nothing to resolve. */
  lemma BlindSpec(spec: Parameters)
    requires !Discoverable(spec)
    ensures Resolved(spec.permissions) && FirstNamespace(spec.permissions) == ""
  {
    ValidatedNamespace(spec.permissions);
  }

  /**
   * A project-level spec without any project permission passes validation, but a reconcile whose annotation is lost
   * adds a robot and forgets it, where the server accepts it.
   */
  lemma BlindCreation(server: Server, h: Harbor, cr: Account)
    requires NewResource(cr) && !Discoverable(cr.spec) && Accepts(server, h, CreateRequestFor(RobotName(cr), cr.spec))
    ensures Turn(server, h, Proc(cr, Idle), Delivered, true).harbor == h
    ensures ForgottenCreate(server, h, cr).proc == Proc(cr, Idle)
    ensures ForgottenCreate(server, h, cr).harbor == CreateRobot(server, h, CreateRequestFor(RobotName(cr), cr.spec)).0
  {
    BlindSpec(cr.spec);
  }

  lemma BlindReconcile(server: Server, w: World, c: nat)
    requires c in w.procs && w.procs[c].phase == Idle && NewResource(w.procs[c].cr) && !Discoverable(w.procs[c].cr.spec)
    requires Accepts(server, w.harbor, CreateRequestFor(RobotName(w.procs[c].cr), w.procs[c].cr.spec))
    ensures var w' := Run(server, w, [Work(c, Delivered, true), Work(c, Delivered, false)]);
            && w'.procs == w.procs && w'.harbor.nextId == w.harbor.nextId + 1
            && Live(w'.harbor, w'.owner, w.harbor.nextId, c)
            && (forall id :: id in w.harbor.robots && id < w.harbor.nextId ==> id in w'.harbor.robots)
            && Births(w'.log, c) == Births(w.log, c) + 1
  {
    hide Turn, NewResource, Discoverable, Births, Run, CreateRequestFor;
    var seen, made := Work(c, Delivered, true), Work(c, Delivered, false);
    var w1 := Next(server, w, seen);
    var w2 := Next(server, w1, made);
    BlindCreation(server, w.harbor, w.procs[c].cr);
    BirthsAreIssues(server, w, c, true);
    BirthsAreIssues(server, w1, c, false);
    RunOfTwo(server, w, seen, made);
  }

  /** After two such reconciles a lenient server has two robots of the resource, and the resource knows neither. */
  lemma BlindCreationDuplicates(server: Server, crs: map<nat, Account>, c: nat) returns (acts: seq<Action>)
    requires Lenient(server) && FleetOk(crs) && c in crs && !Discoverable(crs[c].spec)
    ensures Basic(acts)
    ensures var w := Run(server, Fresh(crs), acts);
            && Births(w.log, c) == 2 && w.procs == Fresh(crs).procs && 1 in w.harbor.robots && 2 in w.harbor.robots
  {
    var w0 := Fresh(crs);
    hide Run, Discoverable, NewResource, Births;
    var round := [Work(c, Delivered, true), Work(c, Delivered, false)];
    NoBirthsAtFirst(c);
    BlindReconcile(server, w0, c);
    BlindReconcile(server, Run(server, w0, round), c);
    RunConcat(server, w0, round, round);
    acts := round + round;
  }

  /** A blind resource that is deleted once its annotation has been lost is let go, and its robot stays. */
  lemma BlindRunLeaks(server: Server, crs: map<nat, Account>, c: nat) returns (acts: seq<Action>)
    requires Receptive(server) && FleetOk(crs) && c in crs && !Discoverable(crs[c].spec)
    ensures Basic(acts)
    ensures var w := Run(server, Fresh(crs), acts);
            c in w.procs && w.procs[c].phase == Gone(true) && Live(w.harbor, w.owner, 1, c)
  {
    hide Run, Turn, NewResource, Births, CreateRequestFor, Receptive;
    var w0, cr := Fresh(crs), crs[c];
    var made := [Work(c, Delivered, true), Work(c, Delivered, false)];
    EmptyAccepts(server, CreateRequestFor(RobotName(cr), cr.spec));
    BlindReconcile(server, w0, c);
    var w1 := Run(server, w0, made);
    var w2 := Next(server, w1, MarkDeleted(c));
    RunOfOne(server, w1, MarkDeleted(c));
    RunConcat(server, w0, made, [MarkDeleted(c)]);
    NewIsBlind(cr);
    var call := Work(c, Delivered, true);
    RunOfTwo(server, w2, call, call);
    RunConcat(server, w0, made + [MarkDeleted(c)], [call, call]);
    acts := made + [MarkDeleted(c)] + [call, call];
    BlindCalls(server, w2, c, cr.(deleting := true));
  }

  lemma EmptyAccepts(server: Server, req: RobotCreate)
    requires Receptive(server)
    ensures Accepts(server, Harbor(map[], [], 1), req)
  {
    assert NameIsFree(map[], RequestKey(req));
  }

  lemma NewIsBlind(cr: Account)
    requires NewResource(cr) && !Discoverable(cr.spec)
    ensures Blind(cr.(deleting := true))
  {
    BlindSpec(cr.spec);
  }

  lemma BlindCalls(server: Server, w: World, c: nat, cr: Account)
    requires c in w.procs && w.procs[c] == Proc(cr, Idle) && cr.deleting && Blind(cr)
    ensures var call := Work(c, Delivered, true);
            var w' := Next(server, Next(server, w, call), call);
            c in w'.procs && w'.procs[c].phase == Gone(true) && w'.harbor == w.harbor && w'.owner == w.owner
  {
  }
}

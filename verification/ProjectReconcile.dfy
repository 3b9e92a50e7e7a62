/**
 * Reconciles of Project resources: which projects they touch when calls and writes are lost, and when they come to
 * rest. As for robots, a reconcile is Observe and then at most one of Create, Update and Delete.
 */
module ProjectReconcile {
  import opened Wrappers
  import opened Text
  import opened ProjectClient
  import opened HarborServer
  import opened ProjectServer
  import opened ProjectController

  /** The server and one resource between two reconciles; `writes` counts write requests. */
  datatype State = State(projects: Projects, resource: ProjectResource, writes: nat)

  /** What becomes of the two API calls of a reconcile, and of the write of the resource that follows them. */
  datatype Luck = Luck(observe: Fate, write: Fate, saved: bool)

  const ALL_GOES_WELL: Luck := Luck(Delivered, Delivered, true)

  function Attempt(s: State, luck: Luck): State {
    var (seen, res) := Observed(s.projects, s.resource, luck.observe);
    match res
    case Err(_) => s
    case Ok(o) =>
      if s.resource.deleting then
        if o.resourceExists then
          State(Deleted(s.projects, seen, luck.write).0, if luck.saved then seen else s.resource, s.writes + 1)
        else s
      else if !o.resourceExists then
        var (h', made, _) := Created(s.projects, seen, luck.write);
        State(h', if luck.saved then made else s.resource, s.writes + 1)
      else if o.resourceUpToDate then s.(resource := if luck.saved then seen else s.resource)
      else State(Updated(s.projects, seen, luck.write).0, if luck.saved then seen else s.resource, s.writes + 1)
  }

  function Attempts(s: State, lucks: seq<Luck>): State
    decreases |lucks|
  {
    if lucks == [] then s else Attempts(Attempt(s, lucks[0]), lucks[1..])
  }

  function Round(s: State): State {
    Attempt(s, ALL_GOES_WELL)
  }

  function Rounds(s: State, n: nat): State
    decreases n
  {
    if n == 0 then s else Rounds(Round(s), n - 1)
  }

  function NameOf(s: State): string {
    ProjectName(s.resource)
  }

  predicate Found(s: State) {
    Resolve(s.projects, NameOf(s)) == Some(NameOf(s))
  }

  // ---------- The name a resource goes by ----------

  /** Whatever a name denotes and whatever is lost, the server stays in order, and the spec is not touched. */
  lemma AttemptIsSound(s: State, luck: Luck)
    requires Sound(s.projects)
    ensures Sound(Attempt(s, luck).projects) && Attempt(s, luck).resource.spec == s.resource.spec
    ensures Attempt(s, luck).resource.deleting == s.resource.deleting
  {
    hide Sound, Resolve, IsProjectUpToDate, ProjectName, WithNew, WithUpdate, WithoutProject;
    var seen := Observed(s.projects, s.resource, luck.observe).0;
    var req := Request(ProjectName(seen), s.resource.spec);
    var target := Resolve(s.projects, ProjectName(seen));
    if CanCreate(s.projects, req.projectName) {
      CreateIsSound(s.projects, req);
    }
    if target.Some? {
      UpdateIsSound(s.projects, target.value, req);
      DeleteIsSound(s.projects, target.value);
    }
  }

  /** After a failed Observe nothing is sent and nothing is written. */
  lemma NothingAfterFailedObserve(s: State, luck: Luck)
    requires luck.observe != Delivered
    ensures Attempt(s, luck) == s
  {
  }

  /**
   * Observe writes the name of the project it has found into the resource, so an undisturbed reconcile keeps the name
   * if and only if the name does not denote a project of another name.
   */
  lemma NameIsStableIff(s: State)
    requires Sound(s.projects)
    ensures NameOf(Round(s)) == NameOf(s) <==> MeansItself(s.projects, NameOf(s))
  {
    hide IsProjectUpToDate, WithUpdate, WithoutProject, WithNew;
  }

  /** When it does, the resource is that project's from then on: it takes over its name and its ID. */
  lemma AdoptsTheOther(s: State, other: string)
    requires Sound(s.projects) && Resolve(s.projects, NameOf(s)) == Some(other)
    ensures NameOf(Round(s)) == other && Round(s).resource.projectID == Some(s.projects.table[other].id)
  {
    hide IsProjectUpToDate, WithUpdate, WithoutProject, WithNew;
  }

  // ---------- Reconciles with failures ----------

  /** Nothing but the resource's own project has changed, and that one has been created at most once. */
  ghost predicate OwnProjectOnly(s: State, s': State) {
    var name := NameOf(s);
    && Sound(s'.projects) && NameOf(s') == name
    && s'.resource.spec == s.resource.spec && s'.resource.deleting == s.resource.deleting
    && s'.projects.table - {name} == s.projects.table - {name}
    && s'.projects.quotas - {name} == s.projects.quotas - {name}
    && (s.resource.deleting || name in s.projects.table ==> s'.projects.nextId == s.projects.nextId)
    && (!s.resource.deleting ==>
          && s.projects.nextId <= s'.projects.nextId
          && s'.projects.nextId <= s.projects.nextId + (if name in s'.projects.table && name !in s.projects.table then 1 else 0)
          && (name in s.projects.table ==>
                name in s'.projects.table && s'.projects.table[name].id == s.projects.table[name].id))
  }

  /**
   * The name denotes the resource's own project or none, and when that project is to be deleted, it is not at the same
   * time the text of another project's ID.
   */
  predicate Safe(s: State) {
    MeansItself(s.projects, NameOf(s)) && (s.resource.deleting ==> !IsOtherID(s.projects, NameOf(s)))
  }

  lemma DeletingAttemptIsOwn(s: State, luck: Luck)
    requires Sound(s.projects) && Safe(s) && s.resource.deleting
    ensures OwnProjectOnly(s, Attempt(s, luck)) && Safe(Attempt(s, luck))
  {
    hide IsProjectUpToDate, Sound;
    AttemptIsSound(s, luck);
    if Found(s) {
      DeleteIsSound(s.projects, NameOf(s));
    }
    NamedByKey(s.projects);
  }

  lemma NamedByKey(h: Projects)
    requires Sound(h)
    ensures forall name :: name in h.table ==> h.table[name].name == name && name != ""
  {
  }

  /** What a Create or an Update on behalf of the name does to the server. */
  ghost predicate OwnChange(h: Projects, h': Projects, name: string) {
    && Sound(h') && MeansItself(h', name)
    && h'.table - {name} == h.table - {name} && h'.quotas - {name} == h.quotas - {name}
    && (name in h.table ==> name in h'.table && h'.table[name].id == h.table[name].id && h'.nextId == h.nextId)
    && h.nextId <= h'.nextId <= h.nextId + (if name in h'.table && name !in h.table then 1 else 0)
  }

  lemma CreateIsOwn(h: Projects, req: ProjectReq)
    requires Sound(h) && MeansItself(h, req.projectName) && CanCreate(h, req.projectName)
    ensures OwnChange(h, WithNew(h, req), req.projectName)
  {
    CreateIsSound(h, req);
    hide Sound, MeansItself, OverlayStored;
  }

  lemma UpdateIsOwn(h: Projects, name: string, req: ProjectReq)
    requires Sound(h) && MeansItself(h, name) && name in h.table
    ensures OwnChange(h, WithUpdate(h, name, req), name)
  {
    UpdateIsSound(h, name, req);
    hide Sound, Resolve, OverlayStored;
  }

  lemma LivingAttemptIsOwn(s: State, luck: Luck)
    requires Sound(s.projects) && Safe(s) && !s.resource.deleting
    ensures OwnProjectOnly(s, Attempt(s, luck)) && Safe(Attempt(s, luck))
  {
    hide IsProjectUpToDate, Sound, WithNew, WithUpdate, Resolve, IsOtherID;
    var h, name := s.projects, NameOf(s);
    var req := Request(name, s.resource.spec);
    NamedByKey(h);
    if Found(s) {
      UpdateIsOwn(h, name, req);
    } else if CanCreate(h, name) {
      CreateIsOwn(h, req);
    }
  }

  lemma AttemptIsOwn(s: State, luck: Luck)
    requires Sound(s.projects) && Safe(s)
    ensures OwnProjectOnly(s, Attempt(s, luck)) && Safe(Attempt(s, luck))
  {
    if s.resource.deleting {
      DeletingAttemptIsOwn(s, luck);
    } else {
      LivingAttemptIsOwn(s, luck);
    }
  }

  lemma {:induction false} SafeRunsAreOwn(s: State, lucks: seq<Luck>)
    requires Sound(s.projects) && Safe(s)
    ensures OwnProjectOnly(s, Attempts(s, lucks))
    decreases |lucks|
  {
    hide Attempt, Sound, Safe;
    if lucks != [] {
      AttemptIsOwn(s, lucks[0]);
      SafeRunsAreOwn(Attempt(s, lucks[0]), lucks[1..]);
    }
  }

  lemma AttemptsOfOne(s: State)
    ensures Attempts(s, [ALL_GOES_WELL]) == Round(s)
  {
    assert Attempts(s, [ALL_GOES_WELL]) == Attempts(Round(s), []);
  }

  lemma AttemptsOfTwo(s: State)
    ensures Attempts(s, [ALL_GOES_WELL, ALL_GOES_WELL]) == Round(Round(s))
  {
    hide Attempt;
    assert [ALL_GOES_WELL, ALL_GOES_WELL][1..] == [ALL_GOES_WELL];
    AttemptsOfOne(Round(s));
  }

  /** The own project of a resource that is deleted hides the other one that the name denotes: first the one goes. */
  lemma TheOtherIsNext(s: State)
    requires Sound(s.projects) && MeansItself(s.projects, NameOf(s)) && s.resource.deleting && IsOtherID(s.projects, NameOf(s))
    ensures NameOf(Round(s)) == NameOf(s) && Sound(Round(s).projects) && !MeansItself(Round(s).projects, NameOf(s))
  {
    hide IsProjectUpToDate;
    AttemptIsSound(s, ALL_GOES_WELL);
    DeleteIsSound(s.projects, NameOf(s));
  }

  /**
   * The exact condition, with deletion and with any losses: no run of reconciles ever acts under another name, touches
   * another project, creates a second one or loses the first one unasked, if and only if the name is safe.
   */
  lemma {:induction false} OwnProjectInRunsIff(s: State)
    requires Sound(s.projects)
    ensures (forall lucks :: OwnProjectOnly(s, Attempts(s, lucks))) <==> Safe(s)
  {
    hide Attempt, Sound, Resolve, IsOtherID;
    if Safe(s) {
      forall lucks
        ensures OwnProjectOnly(s, Attempts(s, lucks))
      {
        SafeRunsAreOwn(s, lucks);
      }
    } else if !MeansItself(s.projects, NameOf(s)) {
      NameIsStableIff(s);
      AttemptsOfOne(s);
      assert !OwnProjectOnly(s, Attempts(s, [ALL_GOES_WELL]));
    } else {
      TheOtherIsNext(s);
      NameIsStableIff(Round(s));
      AttemptsOfTwo(s);
      assert !OwnProjectOnly(s, Attempts(s, [ALL_GOES_WELL, ALL_GOES_WELL]));
    }
  }

  /** A name that does not read as a number is safe on every server. */
  lemma PlainNamesAreSafe(s: State)
    requires ParseInt(NameOf(s)).None?
    ensures Safe(s)
  {
    PlainNamesMeanThemselves(s.projects, NameOf(s));
  }

  /** A server with one project, whose name is "foo" and whose ID is 7. */
  function FooServer(reading: Reading): Projects {
    Projects(map["foo" := Project(7, "foo", None)], map[7 := "foo"], map[], None, 8, reading)
  }

  lemma SevenIsFoo(reading: Reading)
    ensures Sound(FooServer(reading))
    ensures Resolve(FooServer(reading), "7") == Some("foo") && Resolve(FooServer(reading), "foo") == Some("foo")
  {
    FormatParseRoundTrip(7);
    assert FormatInt(7) == "7";
    assert ParseInt("foo").None? by {
      assert !IsDigit("foo"[0]);
    }
  }

  /**
   * What can happen otherwise, whichever way the server reads numbers: a resource named "7" finds the project "foo",
   * whose ID is 7, takes it over, and deletes it when it is deleted itself. A project "7" is never created.
   */
  lemma AdoptionByNumber(reading: Reading, resource: ProjectResource)
    requires ProjectName(resource) == "7" && !resource.deleting
    ensures var one := Round(State(FooServer(reading), resource, 0));
            var marked := one.(resource := one.resource.(deleting := true));
            && NameOf(one) == "foo" && one.projects.table.Keys == {"foo"} && Round(marked).projects.table == map[]
  {
    SevenIsFoo(reading);
    hide Resolve, IsProjectUpToDate, OverlayStored, Sound;
    var h := FooServer(reading);
    UpdateIsSound(h, "foo", Request("foo", resource.spec));
  }

  // ---------- When the loop comes to rest ----------

  /** The name finds its project, or will find the one that is created for it. */
  predicate Reaches(h: Projects, name: string) {
    Resolve(h, name) == Some(name)
    || (Resolve(h, name).None? && CanCreate(h, name)
        && (h.reading == IDOnly && ParseInt(name).Some? ==> ParseInt(name).value == h.nextId))
  }

  /** A resource that is not being deleted, under a name of its own. */
  ghost predicate Alive(s: State) {
    Sound(s.projects) && !s.resource.deleting && MeansItself(s.projects, NameOf(s))
  }

  lemma RoundKeepsAlive(s: State)
    requires Alive(s)
    ensures Alive(Round(s)) && NameOf(Round(s)) == NameOf(s) && Round(s).resource.spec == s.resource.spec
    ensures OwnProjectOnly(s, Round(s))
  {
    hide Attempt, Sound;
    LivingAttemptIsOwn(s, ALL_GOES_WELL);
  }

  /**
   * With a desired storage limit, every reconcile puts it in force on the resource's project, although it can never be
   * seen to be; it has no effect when there is no such project and none can be created.
   */
  lemma LimitIsEnforced(s: State)
    requires Alive(s) && s.resource.spec.storageLimit.Some?
    ensures Round(s).projects.quotas ==
            if Found(s) || CanCreate(s.projects, NameOf(s))
            then s.projects.quotas[NameOf(s) := s.resource.spec.storageLimit.value]
            else s.projects.quotas
    ensures Round(s).writes == s.writes + 1
  {
    hide OverlayStored;
    NamedByKey(s.projects);
  }

  predicate InSync(s: State) {
    Found(s) && IsProjectUpToDate(s.resource.spec, s.projects.table[NameOf(s)])
  }

  lemma OverlayStoredIsUpToDate(spec: ProjectParameters, base: Option<ProjectMetadata>, proj: Project)
    requires spec.storageLimit.None?
    requires proj.metadata == OverlayStored(base, Request(proj.name, spec).metadata)
    ensures IsProjectUpToDate(spec, proj)
  {
    if spec.metadata.Some? {
      OverlaidIsUpToDate(spec.metadata.value, if base.Some? then base.value else NO_METADATA);
    }
  }

  lemma OneRoundSyncs(s: State)
    requires Alive(s) && s.resource.spec.storageLimit.None? && Reaches(s.projects, NameOf(s))
    ensures InSync(Round(s)) && Round(s).writes == s.writes + (if InSync(s) then 0 else 1)
    ensures InSync(s) ==> Round(s).projects == s.projects
  {
    RoundKeepsAlive(s);
    NamedByKey(s.projects);
    hide IsProjectUpToDate, OverlayStored;
    var name := NameOf(s);
    var made := Round(s).projects.table;
    if !Found(s) {
      assert Found(Round(s));
      OverlayStoredIsUpToDate(s.resource.spec, s.projects.initial, made[name]);
    } else if !InSync(s) {
      UpdateIsSound(s.projects, name, Request(name, s.resource.spec));
      OverlayStoredIsUpToDate(s.resource.spec, s.projects.table[name].metadata, made[name]);
    }
  }

  lemma {:induction false} InSyncForever(s: State, n: nat)
    requires Alive(s) && s.resource.spec.storageLimit.None? && InSync(s)
    ensures Rounds(s, n).writes == s.writes && Rounds(s, n).projects == s.projects
    decreases n
  {
    hide Attempt, Sound;
    if n > 0 {
      RoundKeepsAlive(s);
      OneRoundSyncs(s);
      InSyncForever(Round(s), n - 1);
    }
  }

  /** Without a storage limit, a name that reaches its project sends at most one write, however many rounds follow. */
  lemma ProjectConverges(s: State, n: nat)
    requires Alive(s) && s.resource.spec.storageLimit.None? && Reaches(s.projects, NameOf(s))
    ensures Rounds(s, n).writes <= s.writes + 1
    ensures n >= 1 ==> Rounds(s, n).projects == Round(s).projects
  {
    hide Attempt, Sound;
    if n >= 1 {
      RoundKeepsAlive(s);
      OneRoundSyncs(s);
      InSyncForever(Round(s), n - 1);
    }
  }

  /** Every reconcile sends a request: an Update for the limit, or a Create of a project that is never found. */
  predicate Unfulfilled(s: State) {
    s.resource.spec.storageLimit.Some? || !Reaches(s.projects, NameOf(s))
  }

  lemma StaysUnfulfilled(s: State)
    requires Alive(s) && Unfulfilled(s)
    ensures Unfulfilled(Round(s)) && Round(s).writes == s.writes + 1
  {
    RoundKeepsAlive(s);
    NamedByKey(s.projects);
    hide OverlayStored;
  }

  lemma {:induction false} UnfulfilledForever(s: State, n: nat)
    requires Alive(s) && Unfulfilled(s)
    ensures Rounds(s, n).writes == s.writes + n
    decreases n
  {
    hide Attempt, Sound, Unfulfilled;
    if n > 0 {
      RoundKeepsAlive(s);
      StaysUnfulfilled(s);
      UnfulfilledForever(Round(s), n - 1);
    }
  }

  ghost predicate WritesBounded(s: State, bound: nat) {
    forall n: nat :: Rounds(s, n).writes <= bound
  }

  lemma AliveQuietIff(s: State)
    requires Alive(s)
    ensures (exists bound: nat :: WritesBounded(s, bound)) <==>
            s.resource.spec.storageLimit.None? && Reaches(s.projects, NameOf(s))
  {
    hide Round, Alive, Reaches;
    if Unfulfilled(s) {
      forall bound: nat
        ensures !WritesBounded(s, bound)
      {
        UnfulfilledForever(s, bound + 1);
        assert Rounds(s, bound + 1).writes > bound;
      }
    } else {
      forall n: nat
        ensures Rounds(s, n).writes <= s.writes + 1
      {
        ProjectConverges(s, n);
      }
      assert WritesBounded(s, s.writes + 1);
    }
  }

  /** The name that a resource of the given name goes by once it has been observed. */
  function Home(h: Projects, name: string): string {
    if Resolve(h, name).Some? then Resolve(h, name).value else name
  }

  lemma AdoptedIsAlive(s: State)
    requires Sound(s.projects) && !s.resource.deleting && !MeansItself(s.projects, NameOf(s))
    requires MeansItself(s.projects, Home(s.projects, NameOf(s)))
    ensures Alive(Round(s)) && NameOf(Round(s)) == Home(s.projects, NameOf(s))
    ensures Round(s).resource.spec == s.resource.spec
    ensures Reaches(Round(s).projects, Home(s.projects, NameOf(s))) == Reaches(s.projects, Home(s.projects, NameOf(s)))
  {
    hide IsProjectUpToDate, OverlayStored, ByID;
    var other := Home(s.projects, NameOf(s));
    AttemptIsSound(s, ALL_GOES_WELL);
    NameIsStableIff(s);
    AdoptsTheOther(s, other);
    UpdateIsSound(s.projects, other, Request(other, s.resource.spec));
  }

  lemma OneRoundLess(s: State, bound: nat)
    ensures WritesBounded(s, bound) ==> WritesBounded(Round(s), bound)
    ensures WritesBounded(Round(s), bound) ==> WritesBounded(s, bound + s.writes)
  {
    hide Round;
    if WritesBounded(s, bound) {
      forall n: nat
        ensures Rounds(Round(s), n).writes <= bound
      {
        assert Rounds(s, n + 1) == Rounds(Round(s), n);
      }
    }
    if WritesBounded(Round(s), bound) {
      forall n: nat
        ensures Rounds(s, n).writes <= bound + s.writes
      {
        if n > 0 {
          assert Rounds(s, n) == Rounds(Round(s), n - 1);
        }
      }
    }
  }

  lemma BoundedFromNext(s: State)
    ensures (exists bound: nat :: WritesBounded(s, bound)) <==> (exists bound: nat :: WritesBounded(Round(s), bound))
  {
    hide Round, WritesBounded;
    if bound: nat :| WritesBounded(s, bound) {
      OneRoundLess(s, bound);
    }
    if bound: nat :| WritesBounded(Round(s), bound) {
      OneRoundLess(s, bound);
    }
  }

  /**
   * The exact condition for the loop to come to rest: the number of write requests stays bounded if and only if no
   * storage limit is set and the name, once it has settled, reaches its project. A server that reads every number as an
   * ID never finds the project of a resource that is named by a number, unless that is the ID the project gets.
   */
  lemma ProjectQuietIff(s: State)
    requires Sound(s.projects) && !s.resource.deleting && MeansItself(s.projects, Home(s.projects, NameOf(s)))
    ensures (exists bound: nat :: WritesBounded(s, bound)) <==>
            s.resource.spec.storageLimit.None? && Reaches(s.projects, Home(s.projects, NameOf(s)))
  {
    hide Round, Reaches, WritesBounded, Sound;
    if MeansItself(s.projects, NameOf(s)) {
      AliveQuietIff(s);
    } else {
      AdoptedIsAlive(s);
      AliveQuietIff(Round(s));
      BoundedFromNext(s);
    }
  }

  /** For a name that does not read as a number, on any server, that leaves the storage limit. */
  lemma PlainNamesQuietIff(s: State)
    requires Sound(s.projects) && !s.resource.deleting && NameOf(s) != "" && ParseInt(NameOf(s)).None?
    ensures (exists bound: nat :: WritesBounded(s, bound)) <==> s.resource.spec.storageLimit.None?
  {
    PlainNamesMeanThemselves(s.projects, NameOf(s));
    ProjectQuietIff(s);
  }

  // ---------- Deletion ----------

  /**
   * Delete removes the project that the name denotes and no other. Repeating it succeeds without effect, unless the
   * name is a project's name and another one's ID at once: then the second call removes the second project.
   */
  lemma DeleteTwice(h: Projects, p: ProjectResource)
    requires Sound(h)
    ensures var name := ProjectName(p);
            var (h', res) := Deleted(h, p, Delivered);
            && res == Ok(())
            && h'.table == (match Resolve(h, name) case Some(n) => h.table - {n} case None => h.table)
            && (Deleted(h', p, Delivered) == (h', Ok(())) <==>
                !(name in h.table && IsOtherID(h, name) && h.reading != IDOnly))
  {
    var name := ProjectName(p);
    if Resolve(h, name).Some? {
      DeleteIsSound(h, Resolve(h, name).value);
    }
  }

  // ---------- Several resources ----------

  datatype Fleet = Fleet(projects: Projects, resources: map<nat, ProjectResource>)

  /** A reconcile of one of the resources. */
  datatype Step = Step(c: nat, luck: Luck)

  function Turned(f: Fleet, step: Step): Fleet {
    if step.c !in f.resources then f
    else
      var s := Attempt(State(f.projects, f.resources[step.c], 0), step.luck);
      Fleet(s.projects, f.resources[step.c := s.resource])
  }

  function Turns(f: Fleet, steps: seq<Step>): Fleet
    decreases |steps|
  {
    if steps == [] then f else Turns(Turned(f, steps[0]), steps[1..])
  }

  ghost predicate PlainFleet(f: Fleet) {
    Sound(f.projects) && forall c :: c in f.resources ==> ParseInt(ProjectName(f.resources[c])).None?
  }

  /** The project of the name is the same in both, or in neither. */
  predicate SameProject(h: Projects, h': Projects, name: string) {
    && (name in h.table <==> name in h'.table) && (name in h.table ==> h.table[name] == h'.table[name])
    && (name in h.quotas <==> name in h'.quotas) && (name in h.quotas ==> h.quotas[name] == h'.quotas[name])
  }

  lemma StepStaysApart(f: Fleet, step: Step, name: string)
    requires PlainFleet(f) && (step.c in f.resources ==> ProjectName(f.resources[step.c]) != name)
    ensures PlainFleet(Turned(f, step)) && SameProject(f.projects, Turned(f, step).projects, name)
    ensures Turned(f, step).resources.Keys == f.resources.Keys
    ensures forall c :: c in f.resources ==> ProjectName(Turned(f, step).resources[c]) == ProjectName(f.resources[c])
  {
    hide Sound, Attempt, ParseInt, ProjectName;
    if step.c in f.resources {
      var s := State(f.projects, f.resources[step.c], 0);
      PlainNamesAreSafe(s);
      AttemptIsOwn(s, step.luck);
      var h, h' := f.projects, Attempt(s, step.luck).projects;
      assert name in h.table <==> name in h.table - {NameOf(s)};
      assert name in h'.table <==> name in h'.table - {NameOf(s)};
      assert name in h.quotas <==> name in h.quotas - {NameOf(s)};
      assert name in h'.quotas <==> name in h'.quotas - {NameOf(s)};
      assert name in h.table ==> (h.table - {NameOf(s)})[name] == h.table[name];
      assert name in h'.table ==> (h'.table - {NameOf(s)})[name] == h'.table[name];
      assert name in h.quotas ==> (h.quotas - {NameOf(s)})[name] == h.quotas[name];
      assert name in h'.quotas ==> (h'.quotas - {NameOf(s)})[name] == h'.quotas[name];
    }
  }

  /** In any run of any resources, a project changes only by reconciles of the resources of its name. */
  lemma {:induction false} ProjectsStayApart(f: Fleet, steps: seq<Step>, name: string)
    requires PlainFleet(f)
    requires forall i :: 0 <= i < |steps| && steps[i].c in f.resources ==> ProjectName(f.resources[steps[i].c]) != name
    ensures SameProject(f.projects, Turns(f, steps).projects, name)
    decreases |steps|
  {
    hide Turned, PlainFleet, ProjectName;
    if steps != [] {
      StepStaysApart(f, steps[0], name);
      ProjectsStayApart(Turned(f, steps[0]), steps[1..], name);
    }
  }

  /**
   * Two resources of one name share the project: after an undisturbed reconcile each, the status of the second one
   * names the project that the first one has, and when the first one is deleted, the project of the second goes.
   */
  lemma SameNameSharesProject(f: Fleet, c: nat, d: nat)
    requires PlainFleet(f) && c in f.resources && d in f.resources && c != d
    requires ProjectName(f.resources[c]) == ProjectName(f.resources[d]) != ""
    requires !f.resources[c].deleting && !f.resources[d].deleting
    ensures Turns(f, [Step(c, ALL_GOES_WELL), Step(d, ALL_GOES_WELL)]).resources.Keys == f.resources.Keys
    ensures var shared := Turns(f, [Step(c, ALL_GOES_WELL), Step(d, ALL_GOES_WELL)]);
            var name := ProjectName(f.resources[d]);
            var marked := shared.(resources := shared.resources[c := shared.resources[c].(deleting := true)]);
            && name in shared.projects.table
            && ProjectName(shared.resources[c]) == name
            && shared.resources[d].projectID == Some(shared.projects.table[name].id)
            && name !in Turned(marked, Step(c, ALL_GOES_WELL)).projects.table
  {
    hide Sound, ParseInt, IsProjectUpToDate, OverlayStored, Attempt;
    var name := ProjectName(f.resources[d]);
    var first, second := Step(c, ALL_GOES_WELL), Step(d, ALL_GOES_WELL);
    var one := Turned(f, first);
    var two := Turned(one, second);
    assert [first, second][1..] == [second] && [second][1..] == [];
    assert Turns(f, [first, second]) == Turns(one, [second]) == Turns(two, []) == two;
    PlainRound(State(f.projects, f.resources[c], 0));
    PlainRound(State(one.projects, one.resources[d], 0));
    PlainDeletion(State(two.projects, two.resources[c].(deleting := true), 0));
  }

  lemma PlainRound(s: State)
    requires Sound(s.projects) && ParseInt(NameOf(s)).None? && NameOf(s) != "" && !s.resource.deleting
    ensures Sound(Round(s).projects) && NameOf(Round(s)) == NameOf(s) && !Round(s).resource.deleting
    ensures NameOf(s) in Round(s).projects.table
    ensures NameOf(s) in s.projects.table ==>
              Round(s).resource.projectID == Some(Round(s).projects.table[NameOf(s)].id)
  {
    PlainNamesMeanThemselves(s.projects, NameOf(s));
    RoundKeepsAlive(s);
    hide Sound, ParseInt, IsProjectUpToDate, OverlayStored;
  }

  lemma PlainDeletion(s: State)
    requires Sound(s.projects) && ParseInt(NameOf(s)).None? && s.resource.deleting
    ensures NameOf(s) !in Round(s).projects.table
  {
    PlainNamesMeanThemselves(s.projects, NameOf(s));
    NamedByKey(s.projects);
    hide ParseInt, IsProjectUpToDate, OverlayStored;
  }
}

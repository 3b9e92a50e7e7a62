/**
 * Undisturbed reconciles of one RobotAccount: every call is delivered, every write of the resource is stored, and
 * nobody else changes its robots. A server may normalise permission lists, and may refuse a robot.
 */
module RobotConvergence {
  import opened Wrappers
  import opened Text
  import opened IamModels
  import opened IamClient
  import opened HarborServer
  import opened Managed
  import opened RobotController
  import opened RobotReconcile

  /** The server, the worker and the write requests it has sent so far. */
  datatype Local = Local(harbor: Harbor, proc: Proc, sent: seq<Request>)

  function Calm(server: Server, s: Local): Local {
    var o := Turn(server, s.harbor, s.proc, Delivered, true);
    Local(o.harbor, o.proc, if o.sent.Some? then s.sent + [o.sent.value] else s.sent)
  }

  /** One whole reconcile: Observe, what follows it, and the writing half of an Update or Delete. */
  function Round(server: Server, s: Local): Local {
    var observed := Calm(server, s);
    var acted := Calm(server, observed);
    if acted.proc.phase.Active() then Calm(server, acted) else acted
  }

  function Rounds(server: Server, s: Local, n: nat): Local
    decreases n
  {
    if n == 0 then s else Rounds(server, Round(server, s), n - 1)
  }

  /** A reconcile that sends no write request and leaves everything as it is. */
  ghost predicate Quiet(server: Server, s: Local) {
    Round(server, s) == s
  }

  lemma {:induction false} QuietForever(server: Server, s: Local, n: nat)
    requires Quiet(server, s)
    ensures Rounds(server, s, n) == s
  {
    if n > 0 {
      QuietForever(server, s, n - 1);
    }
  }

  /** A live resource with a valid spec, between two reconciles. */
  predicate Ready(s: Local) {
    s.proc.phase == Idle && !s.proc.cr.deleting && Resolved(s.proc.cr.spec.permissions)
  }

  // ---------- One round, by what the lookup finds ----------

  function Stored(s: Local): Result<Robot, Error> {
    Find(s.harbor, s.proc.cr, Delivered)
  }

  predicate FoundUpToDate(s: Local) {
    Stored(s).Ok? && UpToDate(s.proc.cr.spec, Stored(s).value)
  }

  function Noted(s: Local, robot: Robot): Proc {
    Proc(s.proc.cr.(atProvider := ObservationOf(robot)), Idle)
  }

  lemma RoundUpToDate(server: Server, s: Local)
    requires Ready(s) && FoundUpToDate(s)
    ensures Round(server, s) == Local(s.harbor, Noted(s, Stored(s).value), s.sent)
  {
  }

  lemma RoundDrifted(server: Server, s: Local)
    requires Ready(s) && Stored(s).Ok? && !FoundUpToDate(s)
    ensures var r := Stored(s).value;
            var sent := Applied(s.proc.cr.spec, r);
            Round(server, s) ==
            Local(UpdateRobot(server, s.harbor, r.id, sent).0, Noted(s, r), s.sent + [UpdateSent(r.id, sent)])
  {
    FoundIsStored(s.harbor, s.proc.cr, Delivered);
    var r := Stored(s).value;
    var mem := s.proc.cr.(atProvider := ObservationOf(r));
    assert CachedID(mem) == Some(r.id);
    assert Find(s.harbor, mem, Delivered) == Ok(r);
    var observed := Calm(server, s);
    assert observed.proc.phase == Seen(mem, ExternalObservation(true, false));
    var acted := Calm(server, observed);
    assert acted.proc.phase == Updating(mem, Applied(s.proc.cr.spec, r));
  }

  /** The Update of an unresolved spec is given up before it is sent, but the status is noted. */
  lemma RoundUnresolved(server: Server, s: Local)
    requires s.proc.phase == Idle && !s.proc.cr.deleting && !Resolved(s.proc.cr.spec.permissions) && Stored(s).Ok?
    ensures Round(server, s) == Local(s.harbor, Noted(s, Stored(s).value), s.sent)
  {
    var observed := Calm(server, s);
    assert observed.proc.phase.Seen? && observed.proc.phase.seen.resourceExists;
  }

  /** The Create that the resource would send is accepted. */
  predicate Welcome(server: Server, s: Local) {
    Accepts(server, s.harbor, CreateRequestFor(RobotName(s.proc.cr), s.proc.cr.spec))
  }

  lemma RoundAbsent(server: Server, s: Local)
    requires Ready(s) && Stored(s).Err?
    ensures var cr := s.proc.cr;
            var req := CreateRequestFor(RobotName(cr), cr.spec);
            Round(server, s) ==
            Local(CreateRobot(server, s.harbor, req).0,
                  Proc(if Accepts(server, s.harbor, req) then WithRobotID(cr, s.harbor.nextId) else cr, Idle),
                  s.sent + [CreateSent(req)])
  {
    ScanErrorsMeanAbsent(s.harbor, s.proc.cr);
    var observed := Calm(server, s);
    assert observed.proc.phase == Seen(s.proc.cr, ExternalObservation(false, false));
  }

  // ---------- The exact condition for convergence ----------

  /** The server stores the spec's permissions as the comparison expects to see them. */
  predicate Faithful(server: Server, spec: Parameters) {
    Compared(server.canon(HarborPermissions(spec.permissions))) == spec.permissions
  }

  /** The status names a robot that no longer exists. */
  predicate Stale(s: Local) {
    s.proc.cr.atProvider.id.Some? && s.proc.cr.atProvider.id.value !in s.harbor.robots
  }

  /** The IDs in the status have been issued, so a stale one cannot come to life. */
  ghost predicate Sane(s: Local) {
    && Valid(s.harbor)
    && (s.proc.cr.atProvider.id.Some? ==> s.proc.cr.atProvider.id.value < s.harbor.nextId)
  }

  /** After one round that found or made an up-to-date robot, the next is quiet once the status is noted. */
  lemma NotedIsQuiet(server: Server, s: Local)
    requires Ready(s) && FoundUpToDate(s)
    ensures Quiet(server, Round(server, s))
    ensures Round(server, s).sent == s.sent && Ready(Round(server, s)) && FoundUpToDate(Round(server, s))
  {
    RoundUpToDate(server, s);
    FoundIsStored(s.harbor, s.proc.cr, Delivered);
    var s' := Round(server, s);
    assert Stored(s') == Stored(s);
    RoundUpToDate(server, s');
  }

  lemma DriftIsRepaired(server: Server, s: Local)
    requires Ready(s) && Stored(s).Ok? && !FoundUpToDate(s)
    ensures Ready(Round(server, s)) && |Round(server, s).sent| == |s.sent| + 1
    ensures Round(server, s).proc.cr.spec == s.proc.cr.spec && Stored(Round(server, s)).Ok?
    ensures FoundUpToDate(Round(server, s)) <==> Faithful(server, s.proc.cr.spec)
  {
    RoundDrifted(server, s);
    FoundIsStored(s.harbor, s.proc.cr, Delivered);
  }

  lemma AbsenceIsRepaired(server: Server, s: Local)
    requires Ready(s) && Stored(s).Err? && Welcome(server, s) && s.proc.cr.atProvider.id.None?
    ensures Ready(Round(server, s)) && |Round(server, s).sent| == |s.sent| + 1
    ensures Round(server, s).proc.cr.spec == s.proc.cr.spec && Stored(Round(server, s)).Ok?
    ensures FoundUpToDate(Round(server, s)) <==> Faithful(server, s.proc.cr.spec)
  {
    RoundAbsent(server, s);
    FormatParseRoundTrip(s.harbor.nextId);
  }

  /** Nothing stands in the way: the server stores the permissions faithfully, and lets a missing robot be created. */
  predicate Willing(server: Server, s: Local) {
    Faithful(server, s.proc.cr.spec) && (Stored(s).Err? ==> Welcome(server, s))
  }

  /**
   * Convergence: unless the status is stale, with a willing server, or with a robot that happens to be up to date, at
   * most one write request is ever sent, and from the third reconcile on nothing changes any more. A stale annotation
   * heals by itself where the Create that it causes is accepted.
   */
  lemma {:induction false} Converges(server: Server, s: Local, n: nat)
    requires Ready(s) && !Stale(s) && (Willing(server, s) || FoundUpToDate(s))
    ensures |Rounds(server, s, n).sent| <= |s.sent| + 1
    ensures Quiet(server, Rounds(server, s, 2))
    ensures n >= 2 ==> Rounds(server, s, n) == Rounds(server, s, 2)
    ensures FoundUpToDate(Rounds(server, s, 2))
  {
    hide Round, UpToDate;
    var one := Round(server, s);
    if FoundUpToDate(s) {
      NotedIsQuiet(server, s);
    } else if Stored(s).Ok? {
      DriftIsRepaired(server, s);
    } else {
      AbsenceIsRepaired(server, s);
    }
    NotedIsQuiet(server, one);
    var two := Round(server, one);
    assert Rounds(server, s, 2) == two by {
      assert Rounds(server, s, 2) == Rounds(server, one, 1) == Rounds(server, two, 0);
    }
    if n == 1 {
      assert Rounds(server, s, 1) == Rounds(server, one, 0) == one;
    } else if n >= 2 {
      assert Rounds(server, s, n) == Rounds(server, one, n - 1) == Rounds(server, two, n - 2);
      QuietForever(server, two, n - 2);
    }
  }

  /** A server that stores what it is sent is faithful to every spec. */
  lemma AsSentIsFaithful(server: Server, spec: Parameters)
    requires forall perms :: server.canon(perms) == perms
    ensures Faithful(server, spec)
  {
    ComparedUndoesConversion(spec.permissions);
  }

  /** What makes a reconcile send a write request, and the next one again. */
  predicate Restless(server: Server, s: Local) {
    Ready(s) && (Stale(s) || (!Willing(server, s) && !FoundUpToDate(s)))
  }

  /** A refused Create changes nothing at all. */
  lemma RefusedRound(server: Server, s: Local)
    requires Ready(s) && Stored(s).Err? && !Welcome(server, s)
    ensures Round(server, s).harbor == s.harbor && Round(server, s).proc == s.proc
    ensures |Round(server, s).sent| == |s.sent| + 1
  {
    RoundAbsent(server, s);
  }

  lemma StaleRound(server: Server, s: Local)
    requires Sane(s) && Ready(s) && Stale(s)
    ensures Sane(Round(server, s)) && Ready(Round(server, s)) && Stale(Round(server, s))
    ensures |Round(server, s).sent| == |s.sent| + 1
  {
    RoundAbsent(server, s);
    CreateKeepsValid(server, s.harbor, CreateRequestFor(RobotName(s.proc.cr), s.proc.cr.spec));
  }

  lemma StaysRestless(server: Server, s: Local)
    requires Sane(s) && Restless(server, s)
    ensures Sane(Round(server, s)) && Restless(server, Round(server, s))
    ensures |Round(server, s).sent| == |s.sent| + 1
  {
    FoundIsStored(s.harbor, s.proc.cr, Delivered);
    if Stale(s) {
      StaleRound(server, s);
    } else if Stored(s).Ok? {
      DriftIsRepaired(server, s);
      RoundDrifted(server, s);
      UpdateKeepsValid(server, s.harbor, Stored(s).value.id, Applied(s.proc.cr.spec, Stored(s).value));
    } else if Welcome(server, s) {
      AbsenceIsRepaired(server, s);
      RoundAbsent(server, s);
      CreateKeepsValid(server, s.harbor, CreateRequestFor(RobotName(s.proc.cr), s.proc.cr.spec));
    } else {
      RefusedRound(server, s);
    }
  }

  /**
   * Otherwise the loop never comes to rest: every single reconcile sends one more write request, for ever. A stale
   * status ID makes each of them a Create, and so does a server that refuses it; a normalising server makes each an
   * Update.
   */
  lemma {:induction false} Diverges(server: Server, s: Local, n: nat)
    requires Sane(s) && Restless(server, s)
    ensures |Rounds(server, s, n).sent| == |s.sent| + n
    ensures Sane(Rounds(server, s, n)) && Restless(server, Rounds(server, s, n))
    decreases n
  {
    hide Round, Restless, Sane;
    if n > 0 {
      StaysRestless(server, s);
      Diverges(server, Round(server, s), n - 1);
    }
  }

  /**
   * The exact condition under which an undisturbed RobotAccount ever becomes quiet, on any server: the status ID is
   * not stale, and the robot already agrees, or the server stores the compared fields as sent and accepts the Create
   * that a missing ID or a stale annotation causes.
   */
  lemma {:induction false} BecomesQuietIff(server: Server, s: Local)
    requires Ready(s) && Sane(s)
    ensures (exists n: nat :: Quiet(server, Rounds(server, s, n))) <==>
            !Stale(s)
            && (FoundUpToDate(s)
                || (Faithful(server, s.proc.cr.spec) && (Stored(s).Err? ==> Welcome(server, s))))
  {
    hide Round, Stored, Welcome;
    if Restless(server, s) {
      forall n: nat
        ensures !Quiet(server, Rounds(server, s, n))
      {
        Diverges(server, s, n);
        StaysRestless(server, Rounds(server, s, n));
      }
    } else {
      Converges(server, s, 2);
    }
  }

  /**
   * A stale status ID keeps Observe reporting absent, and every reconcile sends one more Create, which adds one more
   * robot wherever it is accepted.
   */
  lemma StaleStatusKeepsCreating(server: Server, s: Local)
    requires Sane(s) && Ready(s) && Stale(s)
    ensures var s' := Round(server, s);
            && Observed(s.harbor, s.proc.cr, Delivered).1 == Ok(ExternalObservation(false, false))
            && Stale(s') && s'.sent == s.sent + [CreateSent(CreateRequestFor(RobotName(s.proc.cr), s.proc.cr.spec))]
            && |s'.harbor.robots| == |s.harbor.robots| + (if Welcome(server, s) then 1 else 0)
  {
    RoundAbsent(server, s);
  }

  /** The resource has no status ID, and its annotation names a robot that no longer exists. */
  predicate StaleAnnotation(s: Local) {
    && s.proc.cr.atProvider.id.None?
    && CachedID(s.proc.cr).Some? && CachedID(s.proc.cr).value !in s.harbor.robots
  }

  /** A stale annotation, in contrast, is overwritten by the one Create it causes, if that is accepted. */
  lemma {:induction false} StaleAnnotationHeals(server: Server, s: Local)
    requires Ready(s) && Sane(s) && Faithful(server, s.proc.cr.spec) && StaleAnnotation(s) && Welcome(server, s)
    ensures Rounds(server, s, 1).sent == s.sent + [CreateSent(CreateRequestFor(RobotName(s.proc.cr), s.proc.cr.spec))]
    ensures Quiet(server, Rounds(server, s, 2)) && Rounds(server, s, 2).sent == Rounds(server, s, 1).sent
    ensures Rounds(server, s, 2).proc.cr.atProvider.id == Some(s.harbor.nextId)
  {
    RoundAbsent(server, s);
    AbsenceIsRepaired(server, s);
    var one := Round(server, s);
    assert Rounds(server, s, 1) == Rounds(server, one, 0) == one;
    NotedIsQuiet(server, one);
    RoundUpToDate(server, one);
    FormatParseRoundTrip(s.harbor.nextId);
    assert Rounds(server, s, 2) == Rounds(server, one, 1) == Rounds(server, Round(server, one), 0);
  }

  /**
   * So on a server that refuses a second robot of the same name, a stale annotation heals if and only if no robot
   * holds the name: the ID lookup hides the robot that does, and every reconcile sends a Create that fails.
   */
  lemma {:induction false} StaleAnnotationHealsIff(server: Server, s: Local)
    requires Strict(server) && Ready(s) && Sane(s) && HasRoom(s.harbor) && Faithful(server, s.proc.cr.spec)
    requires StaleAnnotation(s)
    ensures (exists n: nat :: Quiet(server, Rounds(server, s, n))) <==>
            NameIsFree(s.harbor.robots, RequestKey(CreateRequestFor(RobotName(s.proc.cr), s.proc.cr.spec)))
  {
    hide Round, Quiet, RequestKey;
    BecomesQuietIff(server, s);
  }

  // ---------- Deletion ----------

  /**
   * A resource marked for deletion is let go after at most two reconciles. The robot it stands for, when the lookup
   * finds one, is removed by exactly one Delete, and no other robot is touched.
   */
  lemma DeletionConverges(server: Server, s: Local)
    requires s.proc.phase == Idle && s.proc.cr.deleting
    ensures var end := Rounds(server, s, 2);
            && end.proc.phase.Gone?
            && end.harbor.robots == (if Stored(s).Ok? then s.harbor.robots - {Stored(s).value.id} else s.harbor.robots)
            && end.sent == (if Stored(s).Ok? then s.sent + [DeleteSent(Stored(s).value.id)] else s.sent)
  {
    FoundIsStored(s.harbor, s.proc.cr, Delivered);
    ScanErrorsMeanAbsent(s.harbor, s.proc.cr);
    var one := Round(server, s);
    assert Rounds(server, s, 2) == Rounds(server, one, 1) == Rounds(server, Round(server, one), 0);
    if Stored(s).Ok? {
      DeletingRound(server, s);
      assert Stored(one) == Err(RobotNotFound);
    } else {
      assert one.proc.phase.Gone?;
    }
  }

  lemma DeletingRound(server: Server, s: Local)
    requires s.proc.phase == Idle && s.proc.cr.deleting && Stored(s).Ok?
    ensures var r := Stored(s).value;
            Round(server, s) == Local(DeleteRobot(s.harbor, r.id).0, Noted(s, r), s.sent + [DeleteSent(r.id)])
            && r.id in s.harbor.robots
  {
    FoundIsStored(s.harbor, s.proc.cr, Delivered);
    var r := Stored(s).value;
    var mem := s.proc.cr.(atProvider := ObservationOf(r));
    assert Find(s.harbor, mem, Delivered) == Ok(r);
    var observed := Calm(server, s);
    assert observed.proc.phase == Seen(mem, ExternalObservation(true, UpToDate(mem.spec, r)));
    var acted := Calm(server, observed);
    assert acted.proc.phase == Deleting(mem, r.id);
  }
}

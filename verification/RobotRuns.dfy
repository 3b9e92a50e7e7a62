/**
 * Many RobotAccounts on one Harbor: every interleaving of their workers' API calls, with lost requests, lost replies,
 * lost writes, crashes, edits of the specs, deletions, new resources, and other users of the same server.
 */
module RobotRuns {
  import opened Wrappers
  import opened Text
  import opened IamModels
  import opened HarborServer
  import opened RobotController
  import opened RobotReconcile

  /** A write request in the log; `born` is the ID of the robot it created on the server, if it did. */
  datatype Entry = Entry(sender: nat, request: Request, born: Option<int64>)

  /**
   * `owner` remembers which resource each robot belongs to, also after the robot is gone: the resource that created
   * it, or, for a robot that was there before, the one that can find it.
   */
  datatype World = World(harbor: Harbor, procs: map<nat, Proc>, owner: map<int64, nat>, log: seq<Entry>)

  datatype Action =
    | Work(c: nat, fate: Fate, saved: bool)
    | Crash(c: nat)
    | Edit(c: nat, spec: Parameters)
    | MarkDeleted(c: nat)
    | Appear(c: nat, cr: Account)
    | Others(harbor: Harbor)

  /** The ID that a call has issued, whether or not the caller has learnt of it. */
  function Born(h: Harbor, h': Harbor): Option<int64> {
    if h'.nextId > h.nextId && HasRoom(h) then Some(h.nextId as int64) else None
  }

  function WithOwner(owner: map<int64, nat>, born: Option<int64>, c: nat): map<int64, nat> {
    if born.Some? then owner[born.value := c] else owner
  }

  function Worked(server: Server, w: World, c: nat, fate: Fate, saved: bool): World
    requires c in w.procs
  {
    var o := Turn(server, w.harbor, w.procs[c], fate, saved);
    var born := Born(w.harbor, o.harbor);
    World(o.harbor, w.procs[c := o.proc], WithOwner(w.owner, born, c),
          if o.sent.Some? then w.log + [Entry(c, o.sent.value, born)] else w.log)
  }

  function WithProc(w: World, c: nat, p: Proc): World {
    w.(procs := w.procs[c := p])
  }

  /** What a crash or the user of a resource does to it. A resource may be created for the first time or again. */
  function Moved(p: Proc, a: Action): Proc {
    match a
    case Crash(_) => if p.phase.Active() then p.(phase := Idle) else p
    case Edit(_, spec) => p.(cr := p.cr.(spec := spec))
    case MarkDeleted(_) => p.(cr := p.cr.(deleting := true))
    case Appear(_, cr) => if p.phase.Gone? then Proc(cr, Idle) else p
    case _ => p
  }

  function Next(server: Server, w: World, a: Action): World {
    if a.Others? then w.(harbor := a.harbor)
    else if a.c !in w.procs then w
    else if a.Work? then Worked(server, w, a.c, a.fate, a.saved)
    else WithProc(w, a.c, Moved(w.procs[a.c], a))
  }

  function Run(server: Server, w: World, acts: seq<Action>): World
    decreases |acts|
  {
    if acts == [] then w else Run(server, Next(server, w, acts[0]), acts[1..])
  }

  lemma {:induction false} RunConcat(server: Server, w: World, a: seq<Action>, b: seq<Action>)
    ensures Run(server, w, a + b) == Run(server, Run(server, w, a), b)
    decreases |a|
  {
    if a == [] {
      assert a + b == b;
    } else {
      assert (a + b)[1..] == a[1..] + b;
      RunConcat(server, Next(server, w, a[0]), a[1..], b);
    }
  }

  lemma RunOfOne(server: Server, w: World, a: Action)
    ensures Run(server, w, [a]) == Next(server, w, a)
  {
    assert Run(server, w, [a]) == Run(server, Next(server, w, a), []);
  }

  lemma RunOfTwo(server: Server, w: World, a: Action, b: Action)
    ensures Run(server, w, [a, b]) == Next(server, Next(server, w, a), b)
  {
    hide Next;
    assert [a, b][1..] == [b];
    RunOfOne(server, Next(server, w, a), b);
  }

  // ---------- Properties that need no assumption on names, specs or other users ----------

  /** The resource is not created anew: it stays one and the same. */
  predicate SameResource(acts: seq<Action>, c: nat) {
    forall i :: 0 <= i < |acts| ==> !(acts[i].Appear? && acts[i].c == c)
  }

  lemma {:induction false} PinnedRun(server: Server, w: World, acts: seq<Action>, c: nat)
    requires c in w.procs && Pinned(w.procs[c])
    ensures c in Run(server, w, acts).procs && Pinned(Run(server, w, acts).procs[c])
    ensures SameResource(acts, c) && w.procs[c].cr.atProvider.id.Some? ==>
              Run(server, w, acts).procs[c].cr.atProvider.id == w.procs[c].cr.atProvider.id
    decreases |acts|
  {
    if acts != [] {
      if acts[0].Work? {
        TurnKeepsPinned(server, w.harbor, w.procs[c], acts[0].fate, acts[0].saved);
      }
      PinnedRun(server, Next(server, w, acts[0]), acts[1..], c);
    }
  }

  /**
   * Once a resource has an ID in its status, no run ever changes it while the resource exists: whatever the server
   * does, whoever else acts, and however the resource is edited.
   */
  lemma StatusIDNeverChanges(server: Server, w: World, before: seq<Action>, after: seq<Action>, c: nat)
    requires c in w.procs && !w.procs[c].phase.Active() && SameResource(after, c)
    ensures var mid := Run(server, w, before);
            var end := Run(server, mid, after);
            c in mid.procs && c in end.procs
            && (mid.procs[c].cr.atProvider.id.Some? ==> end.procs[c].cr.atProvider.id == mid.procs[c].cr.atProvider.id)
  {
    PinnedRun(server, w, before, c);
    PinnedRun(server, Run(server, w, before), after, c);
  }

  lemma {:induction false} ResolvedRun(server: Server, w: World, acts: seq<Action>)
    requires forall c :: c in w.procs ==> Prepared(w.procs[c])
    requires forall i :: 0 <= i < |w.log| ==> ResolvedRequest(w.log[i].request)
    ensures forall i :: 0 <= i < |Run(server, w, acts).log| ==> ResolvedRequest(Run(server, w, acts).log[i].request)
    decreases |acts|
  {
    if acts != [] {
      if acts[0].Work? && acts[0].c in w.procs {
        TurnSendsResolved(server, w.harbor, w.procs[acts[0].c], acts[0].fate, acts[0].saved);
      }
      ResolvedRun(server, Next(server, w, acts[0]), acts[1..]);
    }
  }

  /** In the log of every run, no Create and no Update carries a project permission with an empty namespace. */
  lemma OnlyResolvedRequests(server: Server, w: World, acts: seq<Action>, n: nat, i: nat)
    requires w.log == [] && forall c :: c in w.procs ==> !w.procs[c].phase.Active()
    requires n < |Run(server, w, acts).log|
    ensures var r := Run(server, w, acts).log[n].request;
            r.CreateSent? && i < |r.create.permissions| && r.create.permissions[i].kind == "project" ==>
              r.create.permissions[i].namespace != ""
    ensures var r := Run(server, w, acts).log[n].request;
            r.UpdateSent? && i < |r.robot.permissions| && r.robot.permissions[i].kind == "project" ==>
              r.robot.permissions[i].namespace != ""
  {
    ResolvedRun(server, w, acts);
    var r := Run(server, w, acts).log[n].request;
    assert ResolvedRequest(r);
    if i < |PermissionsOf(r)| {
      assert PermissionsOf(r)[i].kind == "project" ==> PermissionsOf(r)[i].namespace != "";
    }
  }
}

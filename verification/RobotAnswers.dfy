/**
 * What the four calls of the RobotAccount controller answer and leave behind, for every fate of every API call, in terms
 * of the resource's own fields and of the robots on the server.
 */
module RobotAnswers {
  import opened Wrappers
  import opened Text
  import opened IamModels
  import opened IamClient
  import opened HarborServer
  import opened Managed
  import opened RobotController

  // ---------- The name ----------

  /** The external name decides, and only when it is missing or empty the name of the resource. */
  lemma CreatedUnderItsName(server: Server, h: Harbor, a: Account)
    requires Created(server, h, a, Delivered).2.Ok?
    ensures var (h', _, res) := Created(server, h, a, Delivered);
            && res.value.id in h'.robots
            && h'.robots[res.value.id].key.short ==
               if "crossplane.io/external-name" in a.annotations && a.annotations["crossplane.io/external-name"] != ""
               then a.annotations["crossplane.io/external-name"] else a.name
  {
  }

  /** With an external name, the name of the resource makes no difference to any call. */
  lemma ExternalNameDecides(server: Server, h: Harbor, a: Account, name: string, fate: Fate)
    requires "crossplane.io/external-name" in a.annotations && a.annotations["crossplane.io/external-name"] != ""
    ensures Find(h, a.(name := name), fate) == Find(h, a, fate)
    ensures Created(server, h, a.(name := name), fate).0 == Created(server, h, a, fate).0
    ensures Created(server, h, a.(name := name), fate).2 == Created(server, h, a, fate).2
  {
  }

  /** A scan, where there is one, stops at robots of that name only. */
  lemma ScannedUnderItsName(h: Harbor, a: Account)
    requires Valid(h) && (forall id :: id in h.robots ==> PlusFree(h.robots[id].key.short))
    requires a.atProvider.id.None? && "harbor.crossplane.io/robot-id" !in a.annotations && Find(h, a, Delivered).Ok?
    requires PlusFree(a.name) && forall key :: key in a.annotations ==> PlusFree(a.annotations[key])
    ensures var id := Find(h, a, Delivered).value.id;
            && id in h.robots
            && h.robots[id].key.level == (if a.spec.level == "project" then "project" else "system")
            && h.robots[id].key.short ==
               if "crossplane.io/external-name" in a.annotations && a.annotations["crossplane.io/external-name"] != ""
               then a.annotations["crossplane.io/external-name"] else a.name
  {
    assert ParseInt("").None?;
    if a.spec.level == LEVEL_PROJECT {
      ProjectScanExact(h, FirstNamespace(a.spec.permissions), RobotName(a));
    } else {
      SystemScanExact(h, RobotName(a));
    }
  }

  // ---------- The lookup ----------

  /** The resource has no resolved project permission. */
  predicate Unresolvable(perms: seq<Permission>) {
    forall i :: 0 <= i < |perms| && perms[i].kind == "project" ==> perms[i].namespace == ""
  }

  lemma UnresolvableMeans(perms: seq<Permission>)
    ensures Unresolvable(perms) <==> FirstNamespace(perms) == ""
  {
    FirstNamespaceIsFirst(perms);
  }

  /** The ID that is known: the status ID, or else the number in the annotation. */
  lemma KnownIDMeans(a: Account, id: int64)
    ensures CachedID(a) == Some(id) <==>
            || a.atProvider.id == Some(id)
            || (a.atProvider.id.None? && "harbor.crossplane.io/robot-id" in a.annotations
                && ParseInt(a.annotations["harbor.crossplane.io/robot-id"]) == Some(id))
  {
    assert ParseInt("").None?;
  }

  /**
   * The four tiers and their errors. A known ID is looked up and nothing else; without one, a project-level resource
   * that has no namespace gets its answer without any call; in every other case an undelivered call is an error.
   */
  lemma FindAnswers(h: Harbor, a: Account, fate: Fate)
    ensures CachedID(a).Some? && fate == Delivered ==>
              Find(h, a, fate) ==
              if CachedID(a).value in h.robots then Ok(Render(CachedID(a).value, h.robots[CachedID(a).value]))
              else Err(RobotNotFound)
    ensures CachedID(a).None? && a.spec.level == "project" && Unresolvable(a.spec.permissions) ==>
              Find(h, a, fate) == Err(NamespaceNotResolved)
    ensures fate != Delivered && !(CachedID(a).None? && a.spec.level == "project" && Unresolvable(a.spec.permissions)) ==>
              Find(h, a, fate) == Err(Api)
    ensures fate == Delivered && Find(h, a, fate).Err? && Find(h, a, fate) != Err(RobotNotFound) ==>
              CachedID(a).None? && a.spec.level == "project" && Unresolvable(a.spec.permissions)
  {
    UnresolvableMeans(a.spec.permissions);
    var system := ListRobots(h.robots, h.listing, LEVEL_SYSTEM);
    var project := ProjectRobots(ListRobots(h.robots, h.listing, LEVEL_PROJECT), FirstNamespace(a.spec.permissions));
    FirstNamedIsAMatch(system, RobotName(a));
    FirstNamedIsAMatch(project, RobotName(a));
  }

  // ---------- Observe ----------

  /**
   * Observe answers "absent" only when it has nothing to look with or a delivered lookup has found nothing, and "present"
   * only for a robot on the server, whose ID and name it notes. In every other case it is an error. Nothing but the
   * status is ever written, and that only when a robot was found.
   */
  lemma ObserveAnswers(h: Harbor, a: Account, fate: Fate)
    ensures var (a', res) := Observed(h, a, fate);
            && (res.Err? ==> res.error == Api && a' == a && fate != Delivered)
            && (res.Ok? && !res.value.resourceExists ==> a' == a && !res.value.resourceUpToDate)
            && (res.Ok? && !res.value.resourceExists <==>
                || (CachedID(a).None? && a.spec.level == "project" && Unresolvable(a.spec.permissions))
                || (fate == Delivered && Find(h, a, Delivered) == Err(RobotNotFound)))
            && (res.Ok? && res.value.resourceExists ==>
                  && fate == Delivered && a'.atProvider.id.Some? && a'.atProvider.id.value in h.robots
                  && var id := a'.atProvider.id.value;
                     && Find(h, a, Delivered) == Ok(Render(id, h.robots[id]))
                     && a'.atProvider.fullName == Some(FullName(h.robots[id].key))
                     && a' == a.(atProvider := a'.atProvider)
                     && (res.value.resourceUpToDate <==> UpToDate(a.spec, Render(id, h.robots[id]))))
  {
    FindAnswers(h, a, fate);
    FoundIsStored(h, a, fate);
  }

  // ---------- Create ----------

  /**
   * A successful Create has added one robot with everything the spec asks for, under the next ID, and has noted the ID
   * in the annotation; everything else is as it was. A Create that fails notes nothing, and adds the robot only if just
   * the reply was lost.
   */
  lemma CreateAnswers(server: Server, h: Harbor, a: Account, fate: Fate)
    requires Valid(h)
    ensures var (h', a', res) := Created(server, h, a, fate);
            && (res.Ok? <==> fate == Delivered && Accepts(server, h, CreateRequestFor(RobotName(a), a.spec)))
            && (res.Err? ==> res.error == Api && a' == a)
            && (fate == Dropped ==> h' == h)
            && (fate != Dropped ==> h' == Created(server, h, a, Delivered).0)
    ensures var (h', a', res) := Created(server, h, a, Delivered);
            res.Ok? ==>
              var id := res.value.id;
              && id == h.nextId && id !in h.robots && id in h'.robots && h'.robots == h.robots[id := h'.robots[id]]
              && h'.robots[id].key.level == a.spec.level
              && h'.robots[id].description == a.spec.description && h'.robots[id].disable == a.spec.disable
              && h'.robots[id].duration == (if a.spec.duration.Some? then a.spec.duration else Some(0))
              && h'.robots[id].permissions == server.canon(HarborPermissions(a.spec.permissions))
              && "harbor.crossplane.io/robot-id" in a'.annotations
              && ParseInt(a'.annotations["harbor.crossplane.io/robot-id"]) == Some(id)
              && a' == a.(annotations := a.annotations["harbor.crossplane.io/robot-id" :=
                                                       a'.annotations["harbor.crossplane.io/robot-id"]])
  {
    if Created(server, h, a, Delivered).2.Ok? {
      FormatParseRoundTrip(h.nextId);
    }
  }

  // ---------- Update ----------

  /**
   * A successful Update has found a robot and stored what the spec asks for in it; a duration that the spec leaves open
   * stays. No other robot is touched, and the robot keeps its name. A lookup that fails is an error, with nothing sent.
   */
  lemma UpdateAnswers(server: Server, h: Harbor, a: Account, find: Fate, write: Fate)
    ensures var (h', res) := Updated(server, h, a, find, write);
            && (res.Ok? ==> find == Delivered && write == Delivered)
            && (find != Delivered || Find(h, a, find).Err? ==> res.Err? && res.error == Find(h, a, find).error && h' == h)
            && (write == Dropped ==> h' == h)
            && (find == write == Delivered && Find(h, a, find).Ok? ==> res == Ok(()))
    ensures var (h', _) := Updated(server, h, a, Delivered, write);
            Find(h, a, Delivered).Ok? && write != Dropped ==>
              var id := Find(h, a, Delivered).value.id;
              && id in h.robots && id in h'.robots && h'.robots == h.robots[id := h'.robots[id]]
              && h'.nextId == h.nextId && h'.listing == h.listing && h'.robots[id].key == h.robots[id].key
              && h'.robots[id].description == a.spec.description && h'.robots[id].disable == a.spec.disable
              && h'.robots[id].duration == (if a.spec.duration.Some? then a.spec.duration else h.robots[id].duration)
              && h'.robots[id].permissions == server.canon(HarborPermissions(a.spec.permissions))
  {
    FindAnswers(h, a, find);
    FoundIsStored(h, a, Delivered);
    FoundIsStored(h, a, find);
  }

  // ---------- Delete ----------

  /**
   * The second half of a Delete, on whatever the server has become since the lookup: it succeeds if and only if the call
   * is delivered, also when the robot has gone in the meantime, and then the robot is not there.
   */
  lemma DeleteFinishedAnswers(h: Harbor, id: int64, fate: Fate)
    ensures var (h', res) := DeleteFinished(h, id, fate);
            && (if fate == Delivered then res == Ok(()) && id !in h'.robots else res == Err(Api))
            && (fate == Dropped || id !in h.robots ==> h' == h)
            && h'.robots == (if fate == Dropped then h.robots else h.robots - {id})
  {
    assert id !in h.robots ==> h.robots - {id} == h.robots;
  }

  /**
   * With a known ID, success means that no robot of that ID is on the server; a call that is not delivered is an error,
   * whatever it did, and if it was the lookup, it did nothing.
   */
  lemma DeleteByIDAnswers(h: Harbor, a: Account, id: int64, find: Fate, write: Fate)
    requires CachedID(a) == Some(id)
    ensures var (h', res) := Deleted(h, a, find, write);
            && (res == Ok(()) ==> id !in h'.robots)
            && (find != Delivered ==> res == Err(Api) && h' == h)
            && (find == Delivered && id in h.robots && write != Delivered ==> res == Err(Api))
            && (find == Delivered && (id in h.robots ==> write == Delivered) ==> res == Ok(()))
            && (write == Dropped ==> h' == h)
            && (h' != h ==> h'.robots == h.robots - {id})
  {
  }

  /**
   * Without one, success means that the resource is blind, or that a delivered lookup found nothing, or that the robot
   * it found is gone. An undelivered lookup of a resource that is not blind is an error, and changes nothing.
   */
  lemma DeleteByNameAnswers(h: Harbor, a: Account, find: Fate, write: Fate)
    requires CachedID(a).None?
    ensures var (h', res) := Deleted(h, a, find, write);
            var blind := a.spec.level == "project" && Unresolvable(a.spec.permissions);
            && (blind ==> res == Ok(()) && h' == h)
            && (!blind && find != Delivered ==> res == Err(Api) && h' == h)
            && (res == Ok(()) ==>
                  || blind
                  || (find == Delivered && Find(h, a, Delivered) == Err(RobotNotFound) && h' == h)
                  || (find == write == Delivered && Find(h, a, Delivered).Ok?
                      && Find(h, a, Delivered).value.id in h.robots
                      && h'.robots == h.robots - {Find(h, a, Delivered).value.id}))
            && (find == Delivered && Find(h, a, Delivered).Err? ==> res == Ok(()) && h' == h)
            && (find == write == Delivered ==> res == Ok(()))
            && (!blind && find == Delivered && Find(h, a, Delivered).Ok? && write != Delivered ==> res == Err(Api))
            && (write == Dropped ==> h' == h)
  {
    FindAnswers(h, a, find);
    FindAnswers(h, a, Delivered);
    FoundIsStored(h, a, Delivered);
  }
}

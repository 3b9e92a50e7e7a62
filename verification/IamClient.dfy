/** Conversion, comparison, validation and lookup of robot accounts (internal/clients/iam/robotaccount.go). */
module IamClient {
  import opened Wrappers
  import opened Text
  import opened IamModels

  // ---------- Conversion to Harbor's form, and back on the fields that are compared ----------

  function HarborAccesses(access: seq<Access>): (out: seq<HarborAccess>) {
    seq(|access|, j requires 0 <= j < |access| => HarborAccess(access[j].resource, access[j].action, ""))
  }

  /** The specification of ToHarborPermissions. */
  function HarborPermissions(perms: seq<Permission>): seq<HarborPermission> {
    seq(|perms|, i requires 0 <= i < |perms| =>
      HarborPermission(perms[i].kind, perms[i].namespace, HarborAccesses(perms[i].access)))
  }

  function ComparedAccesses(access: seq<HarborAccess>): seq<Access> {
    seq(|access|, j requires 0 <= j < |access| => Access(access[j].resource, access[j].action))
  }

  function ComparedPermission(perm: HarborPermission): Permission {
    Permission(perm.kind, perm.namespace, ComparedAccesses(perm.access))
  }

  /** What of an observed permission list takes part in drift detection: everything but the effects. */
  function Compared(perms: seq<HarborPermission>): seq<Permission> {
    seq(|perms|, i requires 0 <= i < |perms| => ComparedPermission(perms[i]))
  }

  lemma ComparedUndoesConversion(perms: seq<Permission>)
    ensures Compared(HarborPermissions(perms)) == perms
  {
    var back := Compared(HarborPermissions(perms));
    forall i | 0 <= i < |perms|
      ensures back[i] == perms[i]
    {
      assert back[i].access == perms[i].access;
    }
  }

  /** Entry by entry and field by field; the effect of an access is left empty. */
  lemma HarborPermissionsMeans(perms: seq<Permission>)
    ensures var out := HarborPermissions(perms);
            && |out| == |perms|
            && (forall i :: 0 <= i < |perms| ==>
                  out[i].kind == perms[i].kind && out[i].namespace == perms[i].namespace
                  && |out[i].access| == |perms[i].access|)
            && (forall i, j :: 0 <= i < |perms| && 0 <= j < |perms[i].access| ==>
                  out[i].access[j] == HarborAccess(perms[i].access[j].resource, perms[i].access[j].action, ""))
  {
  }

  /** internal/clients/iam/robotaccount.go: ToHarborPermissions. */
  method ToHarborPermissions(perms: seq<Permission>) returns (out: seq<HarborPermission>)
    ensures out == HarborPermissions(perms)
    ensures Compared(out) == perms
    ensures |out| == |perms|
    ensures forall i :: 0 <= i < |perms| ==>
              out[i].kind == perms[i].kind && out[i].namespace == perms[i].namespace
              && |out[i].access| == |perms[i].access|
    ensures forall i, j :: 0 <= i < |perms| && 0 <= j < |perms[i].access| ==>
              out[i].access[j] == HarborAccess(perms[i].access[j].resource, perms[i].access[j].action, "")
  {
    var slots := new HarborPermission[|perms|];
    for idx := 0 to |perms|
      invariant slots[..idx] == HarborPermissions(perms)[..idx]
    {
      var perm := perms[idx];
      var access := new HarborAccess[|perm.access|];
      for jdx := 0 to |perm.access|
        invariant access[..jdx] == HarborAccesses(perm.access)[..jdx]
        invariant slots[..idx] == HarborPermissions(perms)[..idx]
      {
        access[jdx] := HarborAccess(perm.access[jdx].resource, perm.access[jdx].action, "");
      }
      assert access[..] == HarborAccesses(perm.access);
      slots[idx] := HarborPermission(perm.kind, perm.namespace, access[..]);
    }
    assert slots[..] == HarborPermissions(perms);
    ComparedUndoesConversion(perms);
    return slots[..];
  }

  // ---------- Drift detection ----------

  /** Two lists agree when they have the same length and every entry has the same kind, namespace and accesses. */
  lemma ComparedMeans(perms: seq<Permission>, robotPerms: seq<HarborPermission>)
    ensures Compared(robotPerms) == perms <==>
            |perms| == |robotPerms|
            && forall i :: 0 <= i < |perms| ==>
                 && perms[i].kind == robotPerms[i].kind && perms[i].namespace == robotPerms[i].namespace
                 && |perms[i].access| == |robotPerms[i].access|
                 && forall j :: 0 <= j < |perms[i].access| ==>
                      perms[i].access[j].resource == robotPerms[i].access[j].resource
                      && perms[i].access[j].action == robotPerms[i].access[j].action
  {
    if |perms| == |robotPerms| {
      forall i | 0 <= i < |perms|
        ensures Compared(robotPerms)[i] == perms[i] <==>
                && perms[i].kind == robotPerms[i].kind && perms[i].namespace == robotPerms[i].namespace
                && |perms[i].access| == |robotPerms[i].access|
                && forall j :: 0 <= j < |perms[i].access| ==>
                     perms[i].access[j].resource == robotPerms[i].access[j].resource
                     && perms[i].access[j].action == robotPerms[i].access[j].action
      {
        ComparedPermissionMeans(perms[i], robotPerms[i]);
      }
    }
  }

  lemma ComparedPermissionMeans(perm: Permission, robotPerm: HarborPermission)
    ensures ComparedPermission(robotPerm) == perm <==>
            && perm.kind == robotPerm.kind && perm.namespace == robotPerm.namespace
            && |perm.access| == |robotPerm.access|
            && forall j :: 0 <= j < |perm.access| ==>
                 perm.access[j].resource == robotPerm.access[j].resource
                 && perm.access[j].action == robotPerm.access[j].action
  {
    var compared := ComparedAccesses(robotPerm.access);
    if |perm.access| == |robotPerm.access|
      && forall j :: 0 <= j < |perm.access| ==>
           perm.access[j].resource == robotPerm.access[j].resource && perm.access[j].action == robotPerm.access[j].action {
      assert compared == perm.access;
    }
  }

  method IsSinglePermissionUpToDate(perm: Permission, robotPerm: HarborPermission) returns (same: bool)
    ensures same <==> ComparedPermission(robotPerm) == perm
    ensures same <==>
            && perm.kind == robotPerm.kind && perm.namespace == robotPerm.namespace
            && |perm.access| == |robotPerm.access|
            && forall j :: 0 <= j < |perm.access| ==>
                 perm.access[j].resource == robotPerm.access[j].resource
                 && perm.access[j].action == robotPerm.access[j].action
  {
    ComparedPermissionMeans(perm, robotPerm);
    if perm.kind != robotPerm.kind || perm.namespace != robotPerm.namespace {
      return false;
    }
    if |perm.access| != |robotPerm.access| {
      return false;
    }
    for idx := 0 to |perm.access|
      invariant forall j :: 0 <= j < idx ==> ComparedAccesses(robotPerm.access)[j] == perm.access[j]
    {
      if perm.access[idx].resource != robotPerm.access[idx].resource || perm.access[idx].action != robotPerm.access[idx].action {
        assert ComparedAccesses(robotPerm.access)[idx] != perm.access[idx];
        return false;
      }
    }
    return true;
  }

  method ArePermissionsUpToDate(perms: seq<Permission>, robotPerms: seq<HarborPermission>) returns (same: bool)
    ensures same <==> Compared(robotPerms) == perms
    ensures same <==> Compared(robotPerms) == Compared(HarborPermissions(perms))
  {
    ComparedUndoesConversion(perms);
    if |perms| != |robotPerms| {
      return false;
    }
    for idx := 0 to |perms|
      invariant forall i :: 0 <= i < idx ==> Compared(robotPerms)[i] == perms[i]
    {
      var one := IsSinglePermissionUpToDate(perms[idx], robotPerms[idx]);
      if !one {
        assert Compared(robotPerms)[idx] != perms[idx];
        return false;
      }
    }
    return true;
  }

  /** Two specs that Harbor is sent the same request for are the same spec on every compared field. */
  lemma ConversionInjective(a: seq<Permission>, b: seq<Permission>)
    requires HarborPermissions(a) == HarborPermissions(b)
    ensures a == b
  {
    ComparedUndoesConversion(a);
    ComparedUndoesConversion(b);
  }

  /** The specification of IsRobotAccountUpToDate; ComparedMeans says what its last condition asks. */
  predicate UpToDate(params: Parameters, robot: Robot) {
    && params.description == robot.description
    && params.disable == robot.disable
    && (params.duration.Some? && robot.duration.Some? ==> params.duration == robot.duration)
    && Compared(robot.permissions) == params.permissions
  }

  method IsRobotAccountUpToDate(params: Parameters, robotModel: Robot) returns (same: bool)
    ensures same == UpToDate(params, robotModel)
    ensures same <==>
            && params.description == robotModel.description
            && params.disable == robotModel.disable
            && (params.duration.None? || robotModel.duration.None? || params.duration.value == robotModel.duration.value)
            && Compared(robotModel.permissions) == params.permissions
  {
    if params.description != robotModel.description || params.disable != robotModel.disable {
      return false;
    }
    if params.duration.Some? && robotModel.duration.Some? && params.duration.value != robotModel.duration.value {
      return false;
    }
    same := ArePermissionsUpToDate(params.permissions, robotModel.permissions);
  }

  // ---------- Requests ----------

  /** The specification of ToRobotCreate. */
  function CreateRequestFor(name: string, params: Parameters): RobotCreate {
    RobotCreate(name, params.description, params.level, params.disable,
                if params.duration.Some? then params.duration.value else 0,
                HarborPermissions(params.permissions))
  }

  method ToRobotCreate(name: string, params: Parameters) returns (req: RobotCreate)
    ensures req == CreateRequestFor(name, params)
    ensures req.name == name && req.level == params.level && req.description == params.description
    ensures req.disable == params.disable && req.permissions == HarborPermissions(params.permissions)
    ensures params.duration.None? ==> req.duration == 0
    ensures params.duration.Some? ==> req.duration == params.duration.value
  {
    var permissions := ToHarborPermissions(params.permissions);
    req := RobotCreate(name, params.description, params.level, params.disable, 0, permissions);
    if params.duration.Some? {
      req := req.(duration := params.duration.value);
    }
  }

  /** The specification of ApplyRobotAccountParameters. */
  function Applied(params: Parameters, robot: Robot): Robot {
    robot.(description := params.description,
           disable := params.disable,
           permissions := HarborPermissions(params.permissions),
           duration := if params.duration.Some? then params.duration else robot.duration)
  }

  /** A fetched models.Robot, which Update overwrites in place before sending it back. */
  class RobotModel {
    var id: int64
    var name: string
    var level: string
    var description: string
    var disable: bool
    var duration: Option<int64>
    var permissions: seq<HarborPermission>

    constructor (robot: Robot)
      ensures Value() == robot
    {
      id, name, level := robot.id, robot.name, robot.level;
      description, disable := robot.description, robot.disable;
      duration, permissions := robot.duration, robot.permissions;
    }

    function Value(): Robot
      reads this
    {
      Robot(id, name, level, description, disable, duration, permissions)
    }
  }

  method ApplyRobotAccountParameters(params: Parameters, robotModel: RobotModel)
    modifies robotModel
    ensures robotModel.Value() == Applied(params, old(robotModel.Value()))
    ensures UpToDate(params, robotModel.Value())
    ensures robotModel.description == params.description && robotModel.disable == params.disable
    ensures robotModel.permissions == HarborPermissions(params.permissions)
    ensures robotModel.duration == if params.duration.Some? then params.duration else old(robotModel.duration)
    ensures robotModel.id == old(robotModel.id) && robotModel.name == old(robotModel.name)
    ensures robotModel.level == old(robotModel.level)
  {
    robotModel.description := params.description;
    robotModel.disable := params.disable;
    robotModel.permissions := ToHarborPermissions(params.permissions);
    if params.duration.Some? {
      robotModel.duration := params.duration;
    }
  }

  /**
   * Applying is a fixpoint of the comparison: it makes any robot up to date, keeps its identity, and a second
   * application changes nothing.
   */
  lemma AppliedIsUpToDate(params: Parameters, robot: Robot)
    ensures UpToDate(params, Applied(params, robot))
    ensures Applied(params, Applied(params, robot)) == Applied(params, robot)
    ensures Applied(params, robot).id == robot.id
    ensures Applied(params, robot).name == robot.name && Applied(params, robot).level == robot.level
  {
    ComparedUndoesConversion(params.permissions);
  }

  /** A robot with the effects of its accesses forgotten: all that the provider can tell apart. */
  function Visible(robot: Robot): (Robot, seq<Permission>) {
    (robot.(permissions := []), Compared(robot.permissions))
  }

  /**
   * Conversely, a robot is up to date exactly when applying the spec would change nothing the provider can see,
   * except that a duration the robot does not report may be filled in.
   */
  lemma UpToDateIffAppliedChangesNothing(params: Parameters, robot: Robot)
    ensures UpToDate(params, robot) <==>
            Visible(Applied(params, robot)) ==
            Visible(if robot.duration.None? then robot.(duration := params.duration) else robot)
  {
    ComparedUndoesConversion(params.permissions);
    var filled := if robot.duration.None? then robot.(duration := params.duration) else robot;
    var applied := Applied(params, robot);
    assert Visible(applied).0.description == params.description;
    assert Visible(filled).0.description == robot.description;
    assert Visible(applied).0.disable == params.disable;
    assert Visible(filled).0.disable == robot.disable;
    assert Visible(applied).0.duration == applied.duration;
    assert Visible(filled).0.duration == filled.duration;
  }

  // ---------- Namespace resolution ----------

  /** Every project permission has its namespace: the condition ValidatePermissions checks. */
  predicate Resolved(perms: seq<Permission>) {
    forall i :: 0 <= i < |perms| ==> perms[i].kind == KIND_PROJECT ==> perms[i].namespace != ""
  }

  predicate HasProjectPermission(perms: seq<Permission>) {
    exists i :: 0 <= i < |perms| && perms[i].kind == KIND_PROJECT
  }

  /** internal/clients/iam/robotaccount.go: ValidatePermissions; the error carries the first offending index. */
  method ValidatePermissions(perms: seq<Permission>) returns (err: Option<Error>)
    ensures err.None? <==> Resolved(perms)
    ensures err.None? <==> forall i :: 0 <= i < |perms| && perms[i].kind == "project" ==> perms[i].namespace != ""
    ensures err.Some? ==>
              && err.value.NamespaceEmpty? && err.value.index < |perms|
              && perms[err.value.index].kind == "project" && perms[err.value.index].namespace == ""
              && forall i :: 0 <= i < err.value.index && perms[i].kind == "project" ==> perms[i].namespace != ""
  {
    for idx := 0 to |perms|
      invariant forall i :: 0 <= i < idx && perms[i].kind == "project" ==> perms[i].namespace != ""
    {
      if perms[idx].kind == KIND_PROJECT && perms[idx].namespace == "" {
        return Some(NamespaceEmpty(idx));
      }
    }
    return None;
  }

  /** The specification of ProjectNamespace: the first non-empty namespace of a project permission. */
  function FirstNamespace(perms: seq<Permission>): string {
    if perms == [] then ""
    else if perms[0].kind == KIND_PROJECT && perms[0].namespace != "" then perms[0].namespace
    else FirstNamespace(perms[1..])
  }

  method ProjectNamespace(perms: seq<Permission>) returns (namespace: string)
    ensures namespace == FirstNamespace(perms)
    ensures namespace == "" <==> forall i :: 0 <= i < |perms| && perms[i].kind == "project" ==> perms[i].namespace == ""
    ensures namespace != "" ==>
              exists i :: 0 <= i < |perms| && perms[i].kind == "project" && perms[i].namespace == namespace
                          && forall j :: 0 <= j < i && perms[j].kind == "project" ==> perms[j].namespace == ""
  {
    FirstNamespaceIsFirst(perms);
    for idx := 0 to |perms|
      invariant FirstNamespace(perms[idx..]) == FirstNamespace(perms)
    {
      assert perms[idx..][1..] == perms[idx + 1..];
      if perms[idx].kind == KIND_PROJECT && perms[idx].namespace != "" {
        return perms[idx].namespace;
      }
    }
    return "";
  }

  /** A namespace is returned exactly when some project permission has one, and it is the one of the first such. */
  lemma {:induction false} FirstNamespaceIsFirst(perms: seq<Permission>)
    ensures FirstNamespace(perms) != "" <==>
            exists i :: 0 <= i < |perms| && perms[i].kind == KIND_PROJECT && perms[i].namespace != ""
    ensures FirstNamespace(perms) != "" ==>
            exists i :: 0 <= i < |perms| && perms[i].kind == KIND_PROJECT && perms[i].namespace == FirstNamespace(perms)
                        && forall j :: 0 <= j < i ==> perms[j].kind == KIND_PROJECT ==> perms[j].namespace == ""
  {
    if perms == [] {
    } else if perms[0].kind == KIND_PROJECT && perms[0].namespace != "" {
    } else {
      FirstNamespaceIsFirst(perms[1..]);
      if FirstNamespace(perms[1..]) != "" {
        var i :| 0 <= i < |perms[1..]| && perms[1..][i].kind == KIND_PROJECT
                 && perms[1..][i].namespace == FirstNamespace(perms[1..])
                 && forall j :: 0 <= j < i ==> perms[1..][j].kind == KIND_PROJECT ==> perms[1..][j].namespace == "";
        forall j | 0 <= j < i + 1 && perms[j].kind == KIND_PROJECT
          ensures perms[j].namespace == ""
        {
          assert j > 0 ==> perms[j] == perms[1..][j - 1];
        }
        assert perms[i + 1] == perms[1..][i];
      } else {
        forall i | 0 <= i < |perms| && perms[i].kind == KIND_PROJECT
          ensures perms[i].namespace == ""
        {
          assert i > 0 ==> perms[i] == perms[1..][i - 1];
        }
      }
    }
  }

  /** On a validated spec an empty namespace means there is no project permission, and nothing else. */
  lemma ValidatedNamespace(perms: seq<Permission>)
    requires Resolved(perms)
    ensures FirstNamespace(perms) == "" <==> !HasProjectPermission(perms)
  {
    FirstNamespaceIsFirst(perms);
  }

  // ---------- Lookup in a listing ----------

  function StripRobotPrefix(fullName: string): string {
    TrimPrefix(fullName, "robot$")
  }

  /** The two-way match of FindProjectRobotByName. */
  predicate NameMatches(fullName: string, name: string) {
    var stripped := StripRobotPrefix(fullName);
    HasSuffix(stripped, "+" + name) || stripped == name
  }

  /** The three-way match of GetRobotAccountByName. */
  predicate SystemNameMatches(fullName: string, name: string) {
    var stripped := StripRobotPrefix(fullName);
    fullName == "robot$" + name || stripped == name || HasSuffix(stripped, "+" + name)
  }

  lemma MatchesAgree(fullName: string, name: string)
    ensures SystemNameMatches(fullName, name) <==> NameMatches(fullName, name)
  {
    if fullName == "robot$" + name {
      assert fullName[|"robot$"|..] == name;
    }
  }

  lemma HasSuffixMeans(s: string, suffix: string)
    ensures HasSuffix(s, suffix) <==> exists head :: s == head + suffix
  {
    if HasSuffix(s, suffix) {
      assert s == s[..|s| - |suffix|] + suffix;
    }
    if head :| s == head + suffix {
      assert s[|s| - |suffix|..] == suffix;
    }
  }

  /**
   * The names that match: `robot$<name>`, anything that ends in `+<name>`, and `<name>` itself unless it carries the
   * prefix that is stripped.
   */
  lemma NameMatchesMeans(fullName: string, name: string)
    ensures NameMatches(fullName, name) <==>
            || fullName == "robot$" + name
            || (fullName == name && !("robot$" <= fullName))
            || exists head :: fullName == head + ("+" + name)
  {
    var stripped := StripRobotPrefix(fullName);
    HasSuffixMeans(stripped, "+" + name);
    if "robot$" <= fullName {
      assert fullName == "robot$" + stripped;
      if head :| stripped == head + ("+" + name) {
        assert fullName == ("robot$" + head) + ("+" + name);
      }
      if head :| fullName == head + ("+" + name) {
        PlusAfterPrefix(head, "+" + name);
        assert stripped == head[|"robot$"|..] + ("+" + name);
      }
    }
  }

  lemma PlusAfterPrefix(head: string, tail: string)
    requires "robot$" <= head + tail && tail != "" && tail[0] == '+'
    ensures "robot$" <= head
  {
    var prefix := "robot$";
    assert (head + tail)[|head|] == '+';
    assert forall i :: 0 <= i < |prefix| ==> (head + tail)[i] == prefix[i] != '+';
  }

  /** The specification of both name lookups: the first robot of the listing whose name matches. */
  function FirstNamed(robots: seq<Robot>, name: string): Result<Robot, Error> {
    if robots == [] then Err(RobotNotFound)
    else if NameMatches(robots[0].name, name) then Ok(robots[0])
    else FirstNamed(robots[1..], name)
  }

  lemma {:induction false} FirstNamedIsAMatch(robots: seq<Robot>, name: string)
    ensures FirstNamed(robots, name).Err? ==>
              FirstNamed(robots, name) == Err(RobotNotFound) && forall r :: r in robots ==> !NameMatches(r.name, name)
    ensures FirstNamed(robots, name).Ok? ==>
              FirstNamed(robots, name).value in robots && NameMatches(FirstNamed(robots, name).value.name, name)
  {
    if robots != [] && !NameMatches(robots[0].name, name) {
      FirstNamedIsAMatch(robots[1..], name);
    }
  }

  /** The first robot whose name matches, and not found when there is none. */
  lemma {:induction false} FirstNamedIsFirst(robots: seq<Robot>, name: string)
    ensures FirstNamed(robots, name).Ok? ==>
              exists i :: 0 <= i < |robots| && robots[i] == FirstNamed(robots, name).value && NameMatches(robots[i].name, name)
                          && forall j :: 0 <= j < i ==> !NameMatches(robots[j].name, name)
    ensures FirstNamed(robots, name).Err? ==>
              FirstNamed(robots, name).error == RobotNotFound
              && forall i :: 0 <= i < |robots| ==> !NameMatches(robots[i].name, name)
  {
    hide NameMatches;
    if robots != [] && !NameMatches(robots[0].name, name) {
      FirstNamedIsFirst(robots[1..], name);
      if FirstNamed(robots, name).Ok? {
        var i :| 0 <= i < |robots[1..]| && robots[1..][i] == FirstNamed(robots, name).value
                 && NameMatches(robots[1..][i].name, name)
                 && forall j :: 0 <= j < i ==> !NameMatches(robots[1..][j].name, name);
        forall j | 0 <= j < i + 1
          ensures !NameMatches(robots[j].name, name)
        {
          assert j > 0 ==> robots[j] == robots[1..][j - 1];
        }
        assert robots[i + 1] == robots[1..][i];
      } else {
        forall i | 0 <= i < |robots|
          ensures !NameMatches(robots[i].name, name)
        {
          assert i > 0 ==> robots[i] == robots[1..][i - 1];
        }
      }
    }
  }

  /** The loop of GetRobotAccountByName over the listing it fetched. */
  method ScanSystemRobots(robots: seq<Robot>, robotName: string) returns (found: Result<Robot, Error>)
    ensures found == FirstNamed(robots, robotName)
  {
    var suffix := "+" + robotName;
    var full := "robot$" + robotName;
    for i := 0 to |robots|
      invariant FirstNamed(robots[i..], robotName) == FirstNamed(robots, robotName)
    {
      var r := robots[i];
      assert robots[i..][1..] == robots[i + 1..];
      MatchesAgree(r.name, robotName);
      var stripped := StripRobotPrefix(r.name);
      if r.name == full || stripped == robotName || HasSuffix(stripped, suffix) {
        return Ok(r);
      }
    }
    return Err(RobotNotFound);
  }

  /** The loop of FindProjectRobotByName over the listing it fetched. */
  method ScanProjectRobots(robots: seq<Robot>, name: string) returns (found: Result<Robot, Error>)
    ensures found == FirstNamed(robots, name)
  {
    var suffix := "+" + name;
    for i := 0 to |robots|
      invariant FirstNamed(robots[i..], name) == FirstNamed(robots, name)
    {
      var r := robots[i];
      assert robots[i..][1..] == robots[i + 1..];
      var stripped := StripRobotPrefix(r.name);
      if HasSuffix(stripped, suffix) || stripped == name {
        return Ok(r);
      }
    }
    return Err(RobotNotFound);
  }

  /** Some project permission of the robot is on the given project. */
  predicate OnProject(perms: seq<HarborPermission>, project: string) {
    exists i :: 0 <= i < |perms| && perms[i].kind == KIND_PROJECT && perms[i].namespace == project
  }

  /** The specification of ListProjectRobotsV1 over the level=project listing. */
  function ProjectRobots(robots: seq<Robot>, project: string): seq<Robot> {
    if robots == [] then []
    else (if OnProject(robots[0].permissions, project) then [robots[0]] else []) + ProjectRobots(robots[1..], project)
  }

  /** The filter keeps order: it commutes with concatenation at every point of the listing. */
  lemma {:induction false} ProjectRobotsConcat(a: seq<Robot>, b: seq<Robot>, project: string)
    ensures ProjectRobots(a + b, project) == ProjectRobots(a, project) + ProjectRobots(b, project)
  {
    hide OnProject;
    if a == [] {
      assert a + b == b;
    } else {
      assert (a + b)[1..] == a[1..] + b;
      ProjectRobotsConcat(a[1..], b, project);
      var head := if OnProject(a[0].permissions, project) then [a[0]] else [];
      var tail, rest := ProjectRobots(a[1..], project), ProjectRobots(b, project);
      assert ProjectRobots(a, project) == head + tail;
      assert ProjectRobots(a + b, project) == head + (tail + rest);
      assert head + (tail + rest) == (head + tail) + rest;
    }
  }

  /**
   * The filter is exact: each robot on the project occurs as often as in the listing, however many of its permissions
   * match, and every other robot not at all.
   */
  lemma {:induction false} ProjectRobotsExact(robots: seq<Robot>, project: string, r: Robot)
    ensures multiset(ProjectRobots(robots, project))[r] ==
            if OnProject(r.permissions, project) then multiset(robots)[r] else 0
    ensures r in ProjectRobots(robots, project) <==> r in robots && OnProject(r.permissions, project)
  {
    if robots != [] {
      assert robots == [robots[0]] + robots[1..];
      ProjectRobotsExact(robots[1..], project, r);
    }
  }

  /** The nested loop of ListProjectRobotsV1. */
  method FilterProjectRobots(robots: seq<Robot>, projectName: string) returns (filtered: seq<Robot>)
    ensures filtered == ProjectRobots(robots, projectName)
    ensures forall r :: r in filtered <==>
              r in robots
              && exists k :: 0 <= k < |r.permissions| && r.permissions[k].kind == "project" && r.permissions[k].namespace == projectName
  {
    filtered := [];
    for i := 0 to |robots|
      invariant filtered == ProjectRobots(robots[..i], projectName)
    {
      var r := robots[i];
      ghost var before := filtered;
      var j := 0;
      while j < |r.permissions|
        invariant 0 <= j <= |r.permissions| && filtered == before
        invariant forall k :: 0 <= k < j ==> !(r.permissions[k].kind == KIND_PROJECT && r.permissions[k].namespace == projectName)
      {
        if r.permissions[j].kind == KIND_PROJECT && r.permissions[j].namespace == projectName {
          filtered := filtered + [r];
          break;
        }
        j := j + 1;
      }
      assert robots[..i + 1] == robots[..i] + [r];
      ProjectRobotsConcat(robots[..i], [r], projectName);
      assert [r][1..] == [];
    }
    assert robots[..|robots|] == robots;
    forall r
      ensures r in filtered <==> r in robots && OnProject(r.permissions, projectName)
    {
      ProjectRobotsExact(robots, projectName, r);
    }
  }
}

/**
 * The generated deep copies of the RobotAccount parameters (apis/iam/v1alpha1/zz_generated.deepcopy.go) on the memory
 * they copy: pointers are boxes, slices are arrays, and the permission structs a slice holds are objects of their own.
 */
module DeepCopy {
  import opened Wrappers
  import opened Text
  import opened IamModels

  /** What a pointer field points to. */
  class Box<T> {
    var value: T

    constructor (value: T)
      ensures this.value == value
    {
      this.value := value;
    }
  }

  /** A nil pointer is copied as nil, any other as a pointer to a new cell with the same content. */
  method CopyBox<T>(from: Box?<T>) returns (to: Box?<T>)
    ensures from == null <==> to == null
    ensures from != null ==> fresh(to) && to.value == from.value
  {
    to := null;
    if from != null {
      to := new Box(from.value);
    }
  }

  method CopyAccess(from: array?<Access>) returns (to: array?<Access>)
    ensures from == null <==> to == null
    ensures from != null ==> fresh(to) && to[..] == from[..]
  {
    to := null;
    if from != null {
      var copied := new Access[from.Length];
      for i := 0 to from.Length
        invariant copied[..i] == from[..i]
      {
        copied[i] := from[i];
      }
      assert copied[..] == from[..];
      to := copied;
    }
  }

  /** The crossplane-runtime types NamespacedReference and NamespacedSelector, copied as values. */
  datatype Reference = Reference(name: string, namespace: string)
  datatype Selector = Selector(labels: map<string, string>, namespace: string)

  /** What a reader sees of a permission, pointers followed; None is nil. */
  datatype PermissionView = PermissionView(
    kind: string, namespace: string, namespaceRef: Option<Reference>, namespaceSelector: Option<Selector>,
    access: Option<seq<Access>>)

  class RobotAccountPermission {
    var kind: string
    var namespace: string
    var namespaceRef: Box?<Reference>
    var namespaceSelector: Box?<Selector>
    var access: array?<Access>

    /** A zero value. */
    constructor ()
      ensures fresh(Cells())
    {
      kind, namespace := "", "";
      namespaceRef, namespaceSelector, access := null, null, null;
    }

    /** The memory the permission consists of. */
    ghost function Cells(): set<object>
      reads this
    {
      {this}
      + (if namespaceRef == null then {} else {namespaceRef})
      + (if namespaceSelector == null then {} else {namespaceSelector})
      + (if access == null then {} else {access})
    }

    ghost function View(): PermissionView
      reads this, namespaceRef, namespaceSelector, access
    {
      PermissionView(
        kind, namespace,
        if namespaceRef == null then None else Some(namespaceRef.value),
        if namespaceSelector == null then None else Some(namespaceSelector.value),
        if access == null then None else Some(access[..]))
    }

    /** Everything `out` points to afterwards is new, and both read as the original did. */
    method DeepCopyInto(out: RobotAccountPermission)
      requires out !in Cells()
      modifies out
      ensures fresh(out.Cells() - {out})
      ensures out.View() == old(View()) && View() == old(View())
      ensures out.kind == kind && out.namespace == namespace
      ensures out.namespaceRef == null <==> namespaceRef == null
      ensures namespaceRef != null ==> fresh(out.namespaceRef) && out.namespaceRef.value == namespaceRef.value
      ensures out.namespaceSelector == null <==> namespaceSelector == null
      ensures namespaceSelector != null ==> fresh(out.namespaceSelector) && out.namespaceSelector.value == namespaceSelector.value
      ensures out.access == null <==> access == null
      ensures access != null ==> fresh(out.access) && out.access[..] == access[..]
    {
      var reference := CopyBox(namespaceRef);
      var selector := CopyBox(namespaceSelector);
      var granted := CopyAccess(access);
      out.kind, out.namespace := kind, namespace;
      out.namespaceRef, out.namespaceSelector, out.access := reference, selector, granted;
    }
  }

  ghost function Contents(slice: array?<RobotAccountPermission>): seq<RobotAccountPermission>
    reads slice
  {
    if slice == null then [] else slice[..]
  }

  class RobotAccountParameters {
    var description: string
    var duration: Box?<int64>
    var level: string
    var disable: bool
    var permissions: array?<RobotAccountPermission>

    /** The permission structs that the slice holds. */
    ghost function Held(): seq<RobotAccountPermission>
      reads this, permissions
    {
      Contents(permissions)
    }

    /** What a reader sees outside the permission slice. */
    ghost function PlainView(): (string, Option<int64>, string, bool, bool)
      reads this, duration
    {
      (description, if duration == null then None else Some(duration.value), level, disable, permissions == null)
    }

    /**
     * The copy reads as the original, and its Duration cell, its slice and all the memory of every permission are new:
     * the two share nothing at any depth, so later writes to either never show in the other.
     */
    method DeepCopyInto(out: RobotAccountParameters)
      requires out != this
      modifies out
      ensures out.PlainView() == old(PlainView())
      ensures out.description == description && out.level == level && out.disable == disable
      ensures out.duration == null <==> duration == null
      ensures duration != null ==> out.duration.value == duration.value
      ensures out.permissions == null <==> permissions == null
      ensures permissions != null ==> out.permissions.Length == permissions.Length
      ensures |out.Held()| == |old(Held())|
      ensures out.duration != null ==> fresh(out.duration)
      ensures out.permissions != null ==> fresh(out.permissions)
      ensures forall i :: 0 <= i < |out.Held()| ==> fresh(out.Held()[i].Cells())
      ensures forall i, j :: 0 <= i < j < |out.Held()| ==> out.Held()[i].Cells() !! out.Held()[j].Cells()
      ensures forall i :: 0 <= i < |out.Held()| ==> out.Held()[i].View() == old(Held()[i].View())
    {
      hide RobotAccountPermission.View, RobotAccountPermission.Cells;
      var validity := CopyBox(duration);
      var copies := CopySlice(permissions);
      label Copied:
      ghost var made := Contents(copies);
      out.description, out.level, out.disable := description, level, disable;
      out.duration, out.permissions := validity, copies;
      assert out.Held() == made;
      forall i | 0 <= i < |made|
        ensures made[i].Cells() == old@Copied(made[i].Cells()) && made[i].View() == old@Copied(made[i].View())
      {
      }
    }
  }

  /** Two permissions read the same when they agree in every field and in what every pointer points to. */
  lemma SameViewMeans(p: RobotAccountPermission, q: RobotAccountPermission)
    ensures p.View() == q.View() <==>
            && p.kind == q.kind && p.namespace == q.namespace
            && (p.namespaceRef == null <==> q.namespaceRef == null)
            && (p.namespaceRef != null && q.namespaceRef != null ==> p.namespaceRef.value == q.namespaceRef.value)
            && (p.namespaceSelector == null <==> q.namespaceSelector == null)
            && (p.namespaceSelector != null && q.namespaceSelector != null ==>
                  p.namespaceSelector.value == q.namespaceSelector.value)
            && (p.access == null <==> q.access == null)
            && (p.access != null && q.access != null ==> p.access[..] == q.access[..])
  {
  }

  /** The memory of a permission is the struct itself and everything it points to; a slice holds its elements. */
  lemma CellsMean(p: RobotAccountPermission, params: RobotAccountParameters)
    ensures p in p.Cells() && (p.namespaceRef != null ==> p.namespaceRef in p.Cells())
    ensures (p.namespaceSelector != null ==> p.namespaceSelector in p.Cells()) && (p.access != null ==> p.access in p.Cells())
    ensures params.Held() == (if params.permissions == null then [] else params.permissions[..])
  {
  }

  method CopyPermission(from: RobotAccountPermission) returns (copied: RobotAccountPermission)
    ensures fresh(copied.Cells()) && copied.View() == from.View()
  {
    copied := new RobotAccountPermission();
    from.DeepCopyInto(copied);
  }

  /** The loop over the permission slice. */
  method CopyPermissions(perms: seq<RobotAccountPermission>) returns (copies: seq<RobotAccountPermission>)
    ensures |copies| == |perms|
    ensures forall i :: 0 <= i < |perms| ==> fresh(copies[i].Cells()) && copies[i].View() == perms[i].View()
    ensures forall i, j :: 0 <= i < j < |copies| ==> copies[i].Cells() !! copies[j].Cells()
  {
    hide RobotAccountPermission.View;
    copies := [];
    for i := 0 to |perms|
      invariant |copies| == i
      invariant forall j :: 0 <= j < i ==> fresh(copies[j].Cells()) && copies[j].View() == perms[j].View()
      invariant forall j, k :: 0 <= j < k < i ==> copies[j].Cells() !! copies[k].Cells()
    {
      var one := CopyPermission(perms[i]);
      copies := copies + [one];
    }
  }

  method CopySlice(from: array?<RobotAccountPermission>) returns (to: array?<RobotAccountPermission>)
    ensures from == null <==> to == null
    ensures to != null ==> fresh(to)
    ensures |Contents(to)| == |Contents(from)|
    ensures forall i :: 0 <= i < |Contents(to)| ==>
              fresh(Contents(to)[i].Cells()) && Contents(to)[i].View() == Contents(from)[i].View()
    ensures forall i, j :: 0 <= i < j < |Contents(to)| ==> Contents(to)[i].Cells() !! Contents(to)[j].Cells()
  {
    to := null;
    if from != null {
      var copies := CopyPermissions(from[..]);
      var copied := new RobotAccountPermission[|copies|](i requires 0 <= i < |copies| => copies[i]);
      assert copied[..] == copies;
      to := copied;
    }
  }
}

/**
 * The values exchanged with Harbor and stored in a RobotAccount resource
 * (apis/iam/v1alpha1/robotaccount_types.go, and the fields of the Harbor SDK models that the provider touches).
 */
module IamModels {
  import opened Wrappers
  import opened Text

  const KIND_PROJECT: string := "project"
  const LEVEL_PROJECT: string := "project"
  const LEVEL_SYSTEM: string := "system"

  /** What the resource asks for. */
  datatype Access = Access(resource: string, action: string)

  datatype Permission = Permission(kind: string, namespace: string, access: seq<Access>)

  datatype Parameters = Parameters(
    description: string, duration: Option<int64>, level: string, disable: bool, permissions: seq<Permission>)

  /** What Harbor speaks. `effect` is a field of the SDK model that the provider never sets and never reads. */
  datatype HarborAccess = HarborAccess(resource: string, action: string, effect: string)

  datatype HarborPermission = HarborPermission(kind: string, namespace: string, access: seq<HarborAccess>)

  datatype Robot = Robot(
    id: int64, name: string, level: string, description: string, disable: bool,
    duration: Option<int64>, permissions: seq<HarborPermission>)

  datatype RobotCreate = RobotCreate(
    name: string, description: string, level: string, disable: bool,
    duration: int64, permissions: seq<HarborPermission>)

  /** The part of RobotCreated that Create reads back. */
  datatype RobotCreated = RobotCreated(id: int64, name: string)

  /** RobotAccountObservation, the `status.atProvider` of a resource. */
  datatype Observation = Observation(id: Option<int64>, fullName: Option<string>)

  /**
   * The errors the controller tells apart. `Api` is every other failure: transport errors, HTTP statuses other than
   * the typed 404s, and the wrapped forms of those.
   */
  datatype Error =
    | RobotNotFound
    | NamespaceNotResolved
    | NamespaceEmpty(index: nat)
    | Api
}

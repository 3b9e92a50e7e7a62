/** What both controllers take from crossplane-runtime, which is not part of the repository. */
module Managed {
  /** Where a resource keeps the name its external object goes by. */
  const EXTERNAL_NAME_ANNOTATION: string := "crossplane.io/external-name"

  /** The answer of an Observe call. */
  datatype ExternalObservation = ExternalObservation(resourceExists: bool, resourceUpToDate: bool)
}

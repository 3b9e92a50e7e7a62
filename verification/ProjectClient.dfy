/** Requests and drift detection for Harbor projects (internal/clients/project/project.go). */
module ProjectClient {
  import opened Wrappers
  import opened Text
  import opened Formats

  /** The typed flags of a Project resource; None leaves a flag to Harbor. */
  datatype ProjectMetadataParameters = ProjectMetadataParameters(
    public: Option<bool>, autoScan: Option<bool>, enableContentTrust: Option<bool>,
    enableContentTrustCosign: Option<bool>, preventVulnerable: Option<bool>,
    severity: Option<string>, reuseSysCVEAllowlist: Option<bool>)

  datatype ProjectParameters = ProjectParameters(
    storageLimit: Option<int64>, metadata: Option<ProjectMetadataParameters>)

  /** Harbor's stringly typed flags. `public` is a plain string, for which "" is unset. */
  datatype ProjectMetadata = ProjectMetadata(
    public: string, autoScan: Option<string>, enableContentTrust: Option<string>,
    enableContentTrustCosign: Option<string>, preventVul: Option<string>,
    severity: Option<string>, reuseSysCVEAllowlist: Option<string>)

  datatype Project = Project(id: int, name: string, metadata: Option<ProjectMetadata>)

  datatype ProjectReq = ProjectReq(projectName: string, storageLimit: Option<int64>, metadata: Option<ProjectMetadata>)

  const NO_METADATA: ProjectMetadata := ProjectMetadata("", None, None, None, None, None, None)

  function FormatFlag(flag: Option<bool>): Option<string> {
    if flag.Some? then Some(FormatBool(flag.value)) else None
  }

  /** The specification of ToHarborProjectMetadata. */
  function MetadataRequest(meta: ProjectMetadataParameters): ProjectMetadata {
    ProjectMetadata(
      if meta.public.Some? then FormatBool(meta.public.value) else "",
      FormatFlag(meta.autoScan), FormatFlag(meta.enableContentTrust), FormatFlag(meta.enableContentTrustCosign),
      FormatFlag(meta.preventVulnerable), meta.severity, FormatFlag(meta.reuseSysCVEAllowlist))
  }

  /** The fields of the result are filled one by one; the ones that stay unset are left to Harbor. */
  method ToHarborProjectMetadata(meta: ProjectMetadataParameters) returns (result: ProjectMetadata)
    ensures result == MetadataRequest(meta)
    ensures result.public == match meta.public case Some(true) => "true" case Some(false) => "false" case None => ""
    ensures result.autoScan ==
            match meta.autoScan case Some(true) => Some("true") case Some(false) => Some("false") case None => None
    ensures result.enableContentTrust ==
            match meta.enableContentTrust case Some(true) => Some("true") case Some(false) => Some("false") case None => None
    ensures result.enableContentTrustCosign ==
            match meta.enableContentTrustCosign case Some(true) => Some("true") case Some(false) => Some("false") case None => None
    ensures result.preventVul ==
            match meta.preventVulnerable case Some(true) => Some("true") case Some(false) => Some("false") case None => None
    ensures result.reuseSysCVEAllowlist ==
            match meta.reuseSysCVEAllowlist case Some(true) => Some("true") case Some(false) => Some("false") case None => None
    ensures result.severity == meta.severity
  {
    ghost var want := MetadataRequest(meta);
    var public := "";
    if meta.public.Some? {
      public := FormatBool(meta.public.value);
    }
    assert public == want.public;
    var autoScan: Option<string> := None;
    if meta.autoScan.Some? {
      autoScan := Some(FormatBool(meta.autoScan.value));
    }
    assert autoScan == want.autoScan;
    var enableContentTrust: Option<string> := None;
    if meta.enableContentTrust.Some? {
      enableContentTrust := Some(FormatBool(meta.enableContentTrust.value));
    }
    assert enableContentTrust == want.enableContentTrust;
    var enableContentTrustCosign: Option<string> := None;
    if meta.enableContentTrustCosign.Some? {
      enableContentTrustCosign := Some(FormatBool(meta.enableContentTrustCosign.value));
    }
    assert enableContentTrustCosign == want.enableContentTrustCosign;
    var preventVul: Option<string> := None;
    if meta.preventVulnerable.Some? {
      preventVul := Some(FormatBool(meta.preventVulnerable.value));
    }
    assert preventVul == want.preventVul;
    var severity: Option<string> := None;
    if meta.severity.Some? {
      severity := meta.severity;
    }
    assert severity == want.severity;
    var reuseSysCVEAllowlist: Option<string> := None;
    if meta.reuseSysCVEAllowlist.Some? {
      reuseSysCVEAllowlist := Some(FormatBool(meta.reuseSysCVEAllowlist.value));
    }
    assert reuseSysCVEAllowlist == want.reuseSysCVEAllowlist;
    result := ProjectMetadata(
      public, autoScan, enableContentTrust, enableContentTrustCosign, preventVul, severity, reuseSysCVEAllowlist);
  }

  /** The specification of ToProjectReq. */
  function Request(name: string, params: ProjectParameters): ProjectReq {
    ProjectReq(name, params.storageLimit, if params.metadata.Some? then Some(MetadataRequest(params.metadata.value)) else None)
  }

  method ToProjectReq(name: string, params: ProjectParameters) returns (req: ProjectReq)
    ensures req == Request(name, params)
    ensures req.projectName == name && req.storageLimit == params.storageLimit
    ensures req.metadata.None? <==> params.metadata.None?
    ensures params.metadata.Some? ==> req.metadata == Some(MetadataRequest(params.metadata.value))
  {
    req := ProjectReq(name, params.storageLimit, None);
    if params.metadata.Some? {
      var metadata := ToHarborProjectMetadata(params.metadata.value);
      req := req.(metadata := Some(metadata));
    }
  }

  predicate IsMetadataUpToDate(desired: ProjectMetadataParameters, observed: ProjectMetadata) {
    && IsStringifiedBoolEqual(desired.public, Some(observed.public))
    && IsStringifiedBoolEqual(desired.autoScan, observed.autoScan)
    && IsStringifiedBoolEqual(desired.enableContentTrust, observed.enableContentTrust)
    && IsStringifiedBoolEqual(desired.enableContentTrustCosign, observed.enableContentTrustCosign)
    && IsStringifiedBoolEqual(desired.preventVulnerable, observed.preventVul)
    && (desired.severity.None? || IsComparablePtrEqualComparablePtr(desired.severity, observed.severity))
    && IsStringifiedBoolEqual(desired.reuseSysCVEAllowlist, observed.reuseSysCVEAllowlist)
  }

  /** Flag by flag: a desired flag must be observed as the very text "true" or "false", an unset one matches anything. */
  lemma MetadataUpToDateMeans(desired: ProjectMetadataParameters, observed: ProjectMetadata)
    ensures IsMetadataUpToDate(desired, observed) <==>
            && (desired.public == Some(true) ==> observed.public == "true")
            && (desired.public == Some(false) ==> observed.public == "false")
            && (desired.autoScan == Some(true) ==> observed.autoScan == Some("true"))
            && (desired.autoScan == Some(false) ==> observed.autoScan == Some("false"))
            && (desired.enableContentTrust == Some(true) ==> observed.enableContentTrust == Some("true"))
            && (desired.enableContentTrust == Some(false) ==> observed.enableContentTrust == Some("false"))
            && (desired.enableContentTrustCosign == Some(true) ==> observed.enableContentTrustCosign == Some("true"))
            && (desired.enableContentTrustCosign == Some(false) ==> observed.enableContentTrustCosign == Some("false"))
            && (desired.preventVulnerable == Some(true) ==> observed.preventVul == Some("true"))
            && (desired.preventVulnerable == Some(false) ==> observed.preventVul == Some("false"))
            && (desired.reuseSysCVEAllowlist == Some(true) ==> observed.reuseSysCVEAllowlist == Some("true"))
            && (desired.reuseSysCVEAllowlist == Some(false) ==> observed.reuseSysCVEAllowlist == Some("false"))
            && (desired.severity.Some? ==> observed.severity == desired.severity)
  {
    StringifiedBoolMeans(desired.public, Some(observed.public));
    StringifiedBoolMeans(desired.autoScan, observed.autoScan);
    StringifiedBoolMeans(desired.enableContentTrust, observed.enableContentTrust);
    StringifiedBoolMeans(desired.enableContentTrustCosign, observed.enableContentTrustCosign);
    StringifiedBoolMeans(desired.preventVulnerable, observed.preventVul);
    StringifiedBoolMeans(desired.reuseSysCVEAllowlist, observed.reuseSysCVEAllowlist);
    hide IsStringifiedBoolEqual;
  }

  predicate IsProjectUpToDate(params: ProjectParameters, proj: Project) {
    if params.storageLimit.Some? then false
    else if params.metadata.None? then true
    else if proj.metadata.None? then false
    else IsMetadataUpToDate(params.metadata.value, proj.metadata.value)
  }

  /** A storage limit is never up to date; without one, the desired flags must be there and agree. */
  lemma ProjectUpToDateMeans(params: ProjectParameters, proj: Project)
    ensures IsProjectUpToDate(params, proj) <==>
            && params.storageLimit == None
            && (params.metadata.Some? ==>
                  proj.metadata.Some? && IsMetadataUpToDate(params.metadata.value, proj.metadata.value))
  {
  }

  // ---------- What a request does to the flags it sets ----------

  function Over<T>(below: Option<T>, above: Option<T>): Option<T> {
    if above.Some? then above else below
  }

  /** The flags set in `req` replace those of `base`. */
  function Overlay(base: ProjectMetadata, req: ProjectMetadata): ProjectMetadata {
    ProjectMetadata(
      if req.public != "" then req.public else base.public,
      Over(base.autoScan, req.autoScan), Over(base.enableContentTrust, req.enableContentTrust),
      Over(base.enableContentTrustCosign, req.enableContentTrustCosign), Over(base.preventVul, req.preventVul),
      Over(base.severity, req.severity), Over(base.reuseSysCVEAllowlist, req.reuseSysCVEAllowlist))
  }

  lemma FlagUpToDateIff(desired: Option<bool>, observed: Option<string>)
    ensures IsStringifiedBoolEqual(desired, observed) <==> Over(observed, FormatFlag(desired)) == observed
  {
    if desired.Some? && observed.Some? {
      assert FormatBool(desired.value) == observed.value <==> Some(FormatBool(desired.value)) == observed;
    }
  }

  /** The flags are up to date exactly when sending them would change nothing. */
  lemma MetadataUpToDateIff(desired: ProjectMetadataParameters, observed: ProjectMetadata)
    ensures IsMetadataUpToDate(desired, observed) <==> Overlay(observed, MetadataRequest(desired)) == observed
  {
    FlagUpToDateIff(desired.autoScan, observed.autoScan);
    FlagUpToDateIff(desired.enableContentTrust, observed.enableContentTrust);
    FlagUpToDateIff(desired.enableContentTrustCosign, observed.enableContentTrustCosign);
    FlagUpToDateIff(desired.preventVulnerable, observed.preventVul);
    FlagUpToDateIff(desired.reuseSysCVEAllowlist, observed.reuseSysCVEAllowlist);
  }

  /** Overlaying is idempotent, so one update makes the flags up to date, whatever they were. */
  lemma OverlaidIsUpToDate(desired: ProjectMetadataParameters, observed: ProjectMetadata)
    ensures Overlay(Overlay(observed, MetadataRequest(desired)), MetadataRequest(desired)) == Overlay(observed, MetadataRequest(desired))
    ensures IsMetadataUpToDate(desired, Overlay(observed, MetadataRequest(desired)))
  {
    MetadataUpToDateIff(desired, Overlay(observed, MetadataRequest(desired)));
  }

  /**
   * A project is up to date exactly when no storage limit is set and, if flags are desired, the project has flags
   * that sending the desired ones would not change. A set storage limit is never up to date: the limit a project
   * has is not part of what Harbor reports about it.
   */
  lemma ProjectUpToDateIff(params: ProjectParameters, proj: Project)
    ensures IsProjectUpToDate(params, proj) <==>
            && params.storageLimit.None?
            && (params.metadata.Some? ==>
                  && proj.metadata.Some?
                  && Overlay(proj.metadata.value, Request(proj.name, params).metadata.value) == proj.metadata.value)
  {
    if params.metadata.Some? && proj.metadata.Some? {
      MetadataUpToDateIff(params.metadata.value, proj.metadata.value);
    }
  }
}

/**
 * What the four calls of the Project controller answer and leave behind, for every fate of the API call, in terms of the
 * resource's own fields and of the projects on the server.
 */
module ProjectAnswers {
  import opened Wrappers
  import opened ProjectClient
  import opened HarborServer
  import opened ProjectServer
  import opened ProjectController

  /** The external name decides, and only when it is missing or empty the name of the resource. */
  lemma ProjectNameMeans(p: ProjectResource)
    ensures ProjectName(p) ==
            if "crossplane.io/external-name" in p.annotations && p.annotations["crossplane.io/external-name"] != ""
            then p.annotations["crossplane.io/external-name"] else p.name
  {
  }

  /**
   * Observe answers "absent" if and only if the call was delivered and the name denotes no project, and "present" if and
   * only if it was delivered and denotes one, whose ID and name it notes. A call that is not delivered is an error. The
   * resource is written only when a project was found.
   */
  lemma ObserveAnswers(h: Projects, p: ProjectResource, fate: Fate)
    ensures var (p', res) := Observed(h, p, fate);
            var found := Resolve(h, ProjectName(p));
            && (res.Err? <==> fate != Delivered)
            && (res.Err? ==> p' == p)
            && (res.Ok? && !res.value.resourceExists <==> fate == Delivered && found.None?)
            && (res.Ok? && !res.value.resourceExists ==> p' == p && !res.value.resourceUpToDate)
            && (res.Ok? && res.value.resourceExists ==>
                  && found.Some? && p'.projectID == Some(h.table[found.value].id)
                  && "crossplane.io/external-name" in p'.annotations
                  && p'.annotations["crossplane.io/external-name"] == h.table[found.value].name
                  && p' == p.(projectID := p'.projectID,
                              annotations := p.annotations["crossplane.io/external-name" := h.table[found.value].name])
                  && (res.value.resourceUpToDate <==> IsProjectUpToDate(p.spec, h.table[found.value])))
  {
  }

  /** The flags and the limit of a project after a request: what is asked for as text, and the rest as before. */
  lemma FlagsAsRequested(desired: ProjectMetadataParameters, before: ProjectMetadata)
    ensures var stored := Overlay(before, MetadataRequest(desired));
            && (desired.public == Some(true) ==> stored.public == "true")
            && (desired.public == Some(false) ==> stored.public == "false")
            && (desired.public == None ==> stored.public == before.public)
            && (desired.autoScan == Some(true) ==> stored.autoScan == Some("true"))
            && (desired.autoScan == Some(false) ==> stored.autoScan == Some("false"))
            && (desired.autoScan == None ==> stored.autoScan == before.autoScan)
            && (desired.enableContentTrust == Some(true) ==> stored.enableContentTrust == Some("true"))
            && (desired.enableContentTrust == Some(false) ==> stored.enableContentTrust == Some("false"))
            && (desired.enableContentTrust == None ==> stored.enableContentTrust == before.enableContentTrust)
            && (desired.enableContentTrustCosign == Some(true) ==> stored.enableContentTrustCosign == Some("true"))
            && (desired.enableContentTrustCosign == Some(false) ==> stored.enableContentTrustCosign == Some("false"))
            && (desired.enableContentTrustCosign == None ==> stored.enableContentTrustCosign == before.enableContentTrustCosign)
            && (desired.preventVulnerable == Some(true) ==> stored.preventVul == Some("true"))
            && (desired.preventVulnerable == Some(false) ==> stored.preventVul == Some("false"))
            && (desired.preventVulnerable == None ==> stored.preventVul == before.preventVul)
            && (desired.reuseSysCVEAllowlist == Some(true) ==> stored.reuseSysCVEAllowlist == Some("true"))
            && (desired.reuseSysCVEAllowlist == Some(false) ==> stored.reuseSysCVEAllowlist == Some("false"))
            && (desired.reuseSysCVEAllowlist == None ==> stored.reuseSysCVEAllowlist == before.reuseSysCVEAllowlist)
            && stored.severity == (if desired.severity.Some? then desired.severity else before.severity)
  {
  }

  /**
   * A successful Create has added a project under the resource's name, with the limit and the flags it asks for, and has
   * noted the name; a failed one has noted nothing, and has added the project only if just the reply was lost.
   */
  lemma CreateAnswers(h: Projects, p: ProjectResource, fate: Fate)
    requires Sound(h)
    ensures var (h', p', res) := Created(h, p, fate);
            var name := ProjectName(p);
            && (res.Ok? <==> fate == Delivered && name != "" && name !in h.table)
            && (res.Err? ==> p' == p)
            && (res.Ok? ==>
                  p' == p.(annotations := p.annotations["crossplane.io/external-name" := name]))
            && (fate == Dropped || name == "" || name in h.table ==> h' == h)
            && (fate != Dropped && name != "" && name !in h.table ==>
                  && name in h'.table && h'.table == h.table[name := h'.table[name]]
                  && h'.table[name].name == name && h'.table[name].id == h.nextId
                  && (p.spec.storageLimit.Some? ==> name in h'.quotas && h'.quotas[name] == p.spec.storageLimit.value)
                  && (p.spec.metadata.None? ==> h'.table[name].metadata == h.initial)
                  && (p.spec.metadata.Some? ==>
                        h'.table[name].metadata ==
                        Some(Overlay(if h.initial.Some? then h.initial.value else NO_METADATA,
                                     MetadataRequest(p.spec.metadata.value)))))
  {
  }

  /** An Update that takes effect overlays the flags and sets the limit of the project that the name denotes, no more. */
  lemma UpdateAnswers(h: Projects, p: ProjectResource, fate: Fate)
    ensures var (h', res) := Updated(h, p, fate);
            var found := Resolve(h, ProjectName(p));
            && (res.Ok? <==> fate == Delivered && found.Some?)
            && (fate == Dropped || found.None? ==> h' == h)
            && (fate != Dropped && found.Some? ==>
                  && found.value in h'.table && h'.table == h.table[found.value := h'.table[found.value]]
                  && h'.table[found.value].id == h.table[found.value].id
                  && h'.table[found.value].name == h.table[found.value].name
                  && h'.quotas == (if p.spec.storageLimit.Some? then h.quotas[found.value := p.spec.storageLimit.value] else h.quotas)
                  && (p.spec.metadata.None? ==> h'.table[found.value].metadata == h.table[found.value].metadata)
                  && (p.spec.metadata.Some? ==>
                        h'.table[found.value].metadata ==
                        Some(Overlay(if h.table[found.value].metadata.Some? then h.table[found.value].metadata.value else NO_METADATA,
                                     MetadataRequest(p.spec.metadata.value)))))
  {
  }

  /** For example, whatever the project had before: the flags that are set are stored as "true" or "false". */
  lemma UpdateStoresFlags(h: Projects, p: ProjectResource, name: string)
    requires Resolve(h, ProjectName(p)) == Some(name) && p.spec.metadata.Some?
    ensures name in Updated(h, p, Delivered).0.table && Updated(h, p, Delivered).0.table[name].metadata.Some?
    ensures var desired := p.spec.metadata.value;
            var before := if h.table[name].metadata.Some? then h.table[name].metadata.value else NO_METADATA;
            var stored := Updated(h, p, Delivered).0.table[name].metadata.value;
            && (desired.public == Some(true) ==> stored.public == "true")
            && (desired.public == Some(false) ==> stored.public == "false")
            && (desired.public == None ==> stored.public == before.public)
            && (desired.autoScan == Some(true) ==> stored.autoScan == Some("true"))
            && (desired.autoScan == Some(false) ==> stored.autoScan == Some("false"))
            && (desired.autoScan == None ==> stored.autoScan == before.autoScan)
            && (desired.enableContentTrust == Some(true) ==> stored.enableContentTrust == Some("true"))
            && (desired.enableContentTrust == Some(false) ==> stored.enableContentTrust == Some("false"))
            && (desired.enableContentTrust == None ==> stored.enableContentTrust == before.enableContentTrust)
            && (desired.enableContentTrustCosign == Some(true) ==> stored.enableContentTrustCosign == Some("true"))
            && (desired.enableContentTrustCosign == Some(false) ==> stored.enableContentTrustCosign == Some("false"))
            && (desired.enableContentTrustCosign == None ==> stored.enableContentTrustCosign == before.enableContentTrustCosign)
            && (desired.preventVulnerable == Some(true) ==> stored.preventVul == Some("true"))
            && (desired.preventVulnerable == Some(false) ==> stored.preventVul == Some("false"))
            && (desired.preventVulnerable == None ==> stored.preventVul == before.preventVul)
            && (desired.reuseSysCVEAllowlist == Some(true) ==> stored.reuseSysCVEAllowlist == Some("true"))
            && (desired.reuseSysCVEAllowlist == Some(false) ==> stored.reuseSysCVEAllowlist == Some("false"))
            && (desired.reuseSysCVEAllowlist == None ==> stored.reuseSysCVEAllowlist == before.reuseSysCVEAllowlist)
            && stored.severity == (if desired.severity.Some? then desired.severity else before.severity)
  {
    UpdateAnswers(h, p, Delivered);
    FlagsAsRequested(p.spec.metadata.value, if h.table[name].metadata.Some? then h.table[name].metadata.value else NO_METADATA);
  }

  /**
   * Delete succeeds if and only if the call was delivered, and then no project is left that the name denoted. A call that
   * is not delivered is an error, and changes nothing unless just the reply was lost.
   */
  lemma DeleteAnswers(h: Projects, p: ProjectResource, fate: Fate)
    ensures var (h', res) := Deleted(h, p, fate);
            var found := Resolve(h, ProjectName(p));
            && (res == Ok(()) <==> fate == Delivered)
            && (fate == Dropped || found.None? ==> h' == h)
            && (fate != Dropped && found.Some? ==> h'.table == h.table - {found.value})
  {
  }
}

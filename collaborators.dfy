/** The external packages the reconciler calls: the resource client's fetch,
    the resource synchroniser, the build trigger, resource management and
    status management. Their code is not part of this model; each one is an
    arbitrary total function from its arguments to its outcome, and every call
    Reconcile makes is recorded as a `Call` in a trace. */
module Collaborators {
  import opened V1alpha1

  /** The `(exists, err)` pair of the client's fetch, and the instance it read. */
  datatype FetchResult = FetchResult(found: bool, err: Option<Error>, app: KogitoAppValue)

  datatype BuildConfig = BuildConfig(name: string)

  /** Provenance of a dependent object: created during this invocation or not. */
  datatype ResourceStatus = ResourceStatus(isNew: bool)

  /** The synchronised resource set; the reconciler reads only the S2I build
      configuration and its provenance. */
  datatype KogitoResources = KogitoResources(buildConfigS2I: BuildConfig, buildConfigS2IStatus: ResourceStatus)

  /** The `(kogitoResources, err)` pair of the synchroniser. */
  datatype SyncResult = SyncResult(resources: KogitoResources, err: Option<Error>)

  /** What resource management reports; the reconciler only hands it on to
      status management. */
  datatype UpdateResourcesResult = UpdateResourcesResult(updated: bool, err: Option<Error>)

  /** The directive status management returns. */
  datatype StatusUpdateResult = StatusUpdateResult(err: Option<Error>, requeueAfter: bool, updated: bool)

  /** The reconciler's client: one outcome function per collaborator. The
      trigger's build handle is dropped; only its error is kept. */
  datatype Client = Client(
    fetchWithKey: NamespacedName -> FetchResult,
    buildOrFetchObjects: KogitoAppValue -> SyncResult,
    triggerBuild: (BuildConfig, string) -> Option<Error>,
    manageResources: (KogitoAppValue, KogitoResources) -> UpdateResourcesResult,
    manageStatus: (KogitoAppValue, KogitoResources, UpdateResourcesResult, NamespacedName) -> StatusUpdateResult)

  /** One collaborator call, with the arguments it was given. */
  datatype Call =
    | FetchWithKey(key: NamespacedName)
    | BuildOrFetchObjects(app: KogitoAppValue)
    | TriggerBuild(buildConfig: BuildConfig, appName: string)
    | ManageResources(app: KogitoAppValue, resources: KogitoResources)
    | ManageStatus(app: KogitoAppValue, resources: KogitoResources, update: UpdateResourcesResult, key: NamespacedName)

  /** The number of build triggers in a trace. */
  function TriggerCount(trace: seq<Call>): nat
  {
    if trace == [] then 0
    else TriggerCount(trace[..|trace| - 1]) + (if trace[|trace| - 1].TriggerBuild? then 1 else 0)
  }

  /** Appending one call adds one to the count exactly when it is a build
      trigger. Reconcile calls it at every append so that its proof needs no
      further unfolding of TriggerCount. */
  lemma TriggerCountAppend(trace: seq<Call>, call: Call)
    ensures TriggerCount(trace + [call]) == TriggerCount(trace) + (if call.TriggerBuild? then 1 else 0)
  {
  }
}

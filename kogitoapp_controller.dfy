/** The KogitoApp reconciler: fetch the instance, normalise its runtime and
    build limits in place, synchronise the dependent resources, trigger a build
    for a newly created build configuration, manage resources and status, and
    map the status directive to the scheduler's result. */
module KogitoAppController {
  import opened V1alpha1
  import opened Collaborators
  import opened BuildLimits

  /** The scheduler-facing result; `requeueAfter` is a delay in seconds, 0 meaning none. */
  datatype ReconcileResult = ReconcileResult(requeue: bool, requeueAfter: nat)

  const EmptyResult := ReconcileResult(false, 0)

  /** The fixed delay of a requeue-after directive, in seconds. */
  const RequeueDelaySeconds: nat := 30

  /** The runtime kind after normalisation: Springboot stays, every other
      value, the unset one included, becomes Quarkus. */
  function NormalisedRuntime(runtime: RuntimeType): (r: RuntimeType)
    ensures r == SpringbootRuntimeType <==> runtime == SpringbootRuntimeType
    ensures r != SpringbootRuntimeType ==> r == QuarkusRuntimeType
  {
    if runtime != SpringbootRuntimeType then QuarkusRuntimeType else runtime
  }

  /** The instance Reconcile hands to its collaborators: the fetched one with
      its runtime normalised and the default-limits policy applied. */
  function Prepared(app: KogitoAppValue, d: BuildLimitDefaults): KogitoAppValue
  {
    var spec := app.spec.(runtime := NormalisedRuntime(app.spec.runtime));
    KogitoAppValue(app.meta, spec.WithBuildLimits(DefaultedLimits(d, spec.build.native, spec.BuildLimits())))
  }

  /** Re-entrance: preparing an already prepared instance changes nothing, so
      a retry that reads back what an earlier run handed on sees the same object. */
  lemma PreparedIdempotent(app: KogitoAppValue, d: BuildLimitDefaults)
    requires d.WellKinded()
    ensures Prepared(Prepared(app, d), d) == Prepared(app, d)
  {
    DefaultedLimitsIdempotent(d, app.spec.build.native, app.spec.BuildLimits());
  }

  /** The final mapping from the status directive to the result, in strict
      priority: a status error, then requeue-after, then updated, then done.
      `err` is the reconciler's variable of that name, returned as the error
      on the status-error branch. */
  function MapStatusResult(status: StatusUpdateResult, err: Option<Error>): (r: (ReconcileResult, Option<Error>))
    ensures !(r.0.requeue && r.0.requeueAfter != 0)
    ensures r.0.requeueAfter == (if status.err.None? && status.requeueAfter then RequeueDelaySeconds else 0)
    ensures r.0.requeue <==> status.err.None? && !status.requeueAfter && status.updated
    ensures r.1 == (if status.err.Some? then err else None)
  {
    if status.err.Some? then (EmptyResult, err)
    else if status.requeueAfter then (ReconcileResult(false, RequeueDelaySeconds), None)
    else if status.updated then (ReconcileResult(true, 0), None)
    else (EmptyResult, None)
  }

  /** The mapping lines 182-193 evidently intend: the same priority, but the
      status error itself is returned. */
  function IntendedStatusResult(status: StatusUpdateResult): (r: (ReconcileResult, Option<Error>))
    ensures r.1 == status.err
    ensures !(r.0.requeue && r.0.requeueAfter != 0)
    ensures status.err.Some? ==> r.0 == EmptyResult
    ensures status.err.None? ==> r == MapStatusResult(status, None)
  {
    if status.err.Some? then (EmptyResult, status.err)
    else MapStatusResult(status, None)
  }

  /** The mapping as written, called with the reconciler's `err`, which is nil
      at that point, agrees with the intended one exactly when status
      management reported no error: every status error is lost. */
  lemma StatusErrorSwallowed(status: StatusUpdateResult)
    ensures MapStatusResult(status, None) == IntendedStatusResult(status) <==> status.err.None?
    ensures status.err.Some? ==> MapStatusResult(status, None).1 == None && IntendedStatusResult(status).1 == status.err
  {
  }

  /** A fetch that neither failed nor missed the object. */
  predicate Found(fetched: FetchResult)
  {
    fetched.err.None? && fetched.found
  }

  /** The reconciler: the client through which every collaborator is reached
      and the default build limit constants. Reconcile never changes either. */
  datatype ReconcileKogitoApp = ReconcileKogitoApp(client: Client, defaults: BuildLimitDefaults)
  {
    // The collaborator outcomes one Reconcile of `request` meets, step by step.

    function Fetched(request: NamespacedName): FetchResult {
      client.fetchWithKey(request)
    }

    /** The instance handed to the collaborators. */
    function App(request: NamespacedName): KogitoAppValue {
      Prepared(Fetched(request).app, defaults)
    }

    function Synced(request: NamespacedName): SyncResult {
      client.buildOrFetchObjects(App(request))
    }

    /** The run reaches the IsNew check with a newly created build configuration. */
    predicate TriggersBuild(request: NamespacedName) {
      Found(Fetched(request)) && Synced(request).err.None? && Synced(request).resources.buildConfigS2IStatus.isNew
    }

    function TriggerError(request: NamespacedName): Option<Error> {
      client.triggerBuild(Synced(request).resources.buildConfigS2I, App(request).meta.name)
    }

    /** The run gets past fetch, synchronisation and any build trigger. */
    predicate ReachesManage(request: NamespacedName) {
      Found(Fetched(request)) && Synced(request).err.None? && (TriggersBuild(request) ==> TriggerError(request).None?)
    }

    function Update(request: NamespacedName): UpdateResourcesResult {
      client.manageResources(App(request), Synced(request).resources)
    }

    function Status(request: NamespacedName): StatusUpdateResult {
      client.manageStatus(App(request), Synced(request).resources, Update(request), request)
    }

    method Reconcile(request: NamespacedName) returns (result: ReconcileResult, err: Option<Error>, trace: seq<Call>)
      // The first call is always the fetch.
      ensures |trace| >= 1 && trace[0] == FetchWithKey(request)
      // Every error return carries an empty result, and no result combines both requeue forms.
      ensures err.Some? ==> result == EmptyResult
      ensures !(result.requeue && result.requeueAfter != 0)
      // An error never comes from the status step.
      ensures err.Some? ==> !trace[|trace| - 1].ManageStatus?
      // A failed fetch returns its error; a missing instance returns a clean no-op; nothing else is called.
      ensures !Found(Fetched(request)) ==>
        result == EmptyResult && err == Fetched(request).err && trace == [FetchWithKey(request)]
      // The synchroniser sees the prepared instance; its error ends the run unchanged.
      ensures Found(Fetched(request)) ==> |trace| >= 2 && trace[1] == BuildOrFetchObjects(App(request))
      ensures Found(Fetched(request)) && Synced(request).err.Some? ==>
        result == EmptyResult && err == Synced(request).err && |trace| == 2
      // Exactly one build trigger when the build configuration is new, none otherwise.
      ensures TriggerCount(trace) == if TriggersBuild(request) then 1 else 0
      // The trigger gets the build configuration and the instance name; its error ends the run.
      ensures TriggersBuild(request) ==>
        |trace| >= 3 && trace[2] == TriggerBuild(Synced(request).resources.buildConfigS2I, App(request).meta.name)
      ensures TriggersBuild(request) && TriggerError(request).Some? ==>
        result == EmptyResult && err == TriggerError(request) && |trace| == 3
      // Otherwise resources and then status are managed, and the status directive decides the result.
      ensures ReachesManage(request) ==>
        && |trace| == (if TriggersBuild(request) then 5 else 4)
        && trace[|trace| - 2] == ManageResources(App(request), Synced(request).resources)
        && trace[|trace| - 1] == ManageStatus(App(request), Synced(request).resources, Update(request), request)
        && (result, err) == MapStatusResult(Status(request), None)
      // As written, a status error is swallowed: the result is empty and the error nil.
      ensures ReachesManage(request) && Status(request).err.Some? ==> result == EmptyResult && err == None
    {
      trace := [FetchWithKey(request)];
      var fetched := client.fetchWithKey(request);
      assert fetched == Fetched(request);
      if fetched.err.Some? {
        return EmptyResult, fetched.err, trace;
      } else if !fetched.found {
        return EmptyResult, None, trace;
      }
      var instance := new KogitoApp(fetched.app);

      if instance.spec.runtime != SpringbootRuntimeType {
        instance.spec := instance.spec.(runtime := QuarkusRuntimeType);
      }
      SetDefaultBuildLimits(instance);
      // The collaborators are handed the normalised instance as it now stands.
      var app := instance.Value();
      assert app == App(request);

      TriggerCountAppend(trace, BuildOrFetchObjects(app));
      trace := trace + [BuildOrFetchObjects(app)];
      var synced := client.buildOrFetchObjects(app);
      assert synced == Synced(request);
      var kogitoResources := synced.resources;
      err := synced.err;
      if err.Some? {
        return EmptyResult, err, trace;
      }

      if kogitoResources.buildConfigS2IStatus.isNew {
        TriggerCountAppend(trace, TriggerBuild(kogitoResources.buildConfigS2I, app.meta.name));
        trace := trace + [TriggerBuild(kogitoResources.buildConfigS2I, app.meta.name)];
        var triggerErr := client.triggerBuild(kogitoResources.buildConfigS2I, app.meta.name);
        assert triggerErr == TriggerError(request);
        if triggerErr.Some? {
          return EmptyResult, triggerErr, trace;
        }
      }

      TriggerCountAppend(trace, ManageResources(app, kogitoResources));
      trace := trace + [ManageResources(app, kogitoResources)];
      var resourcesUpdateResult := client.manageResources(app, kogitoResources);
      assert resourcesUpdateResult == Update(request);

      TriggerCountAppend(trace, ManageStatus(app, kogitoResources, resourcesUpdateResult, request));
      trace := trace + [ManageStatus(app, kogitoResources, resourcesUpdateResult, request)];
      var statusUpdateResult := client.manageStatus(app, kogitoResources, resourcesUpdateResult, request);
      assert statusUpdateResult == Status(request);

      var mapped := MapStatusResult(statusUpdateResult, err);
      result, err := mapped.0, mapped.1;
    }

    /** The default-limits policy, applied in place to the instance's build limits. */
    method SetDefaultBuildLimits(instance: KogitoApp)
      modifies instance
      ensures instance.meta == old(instance.meta)
      ensures instance.spec
              == old(instance.spec).WithBuildLimits(
                   DefaultedLimits(defaults, old(instance.spec.build.native), old(instance.spec.BuildLimits())))
    {
      if |instance.spec.BuildLimits()| == 0 {
        if instance.spec.build.native {
          instance.spec := instance.spec.WithBuildLimits(defaults.nativeLimits);
        } else {
          instance.spec := instance.spec.WithBuildLimits(defaults.jvmLimits);
        }
      } else {
        if !ContainsResource(ResourceCPU, instance.spec.BuildLimits()) {
          if instance.spec.build.native {
            instance.spec := instance.spec.WithBuildLimits(instance.spec.BuildLimits() + [defaults.nativeCPULimit]);
          } else {
            instance.spec := instance.spec.WithBuildLimits(instance.spec.BuildLimits() + [defaults.jvmCPULimit]);
          }
        }
        if !ContainsResource(ResourceMemory, instance.spec.BuildLimits()) {
          if instance.spec.build.native {
            instance.spec := instance.spec.WithBuildLimits(instance.spec.BuildLimits() + [defaults.nativeMemoryLimit]);
          } else {
            instance.spec := instance.spec.WithBuildLimits(instance.spec.BuildLimits() + [defaults.jvmMemoryLimit]);
          }
        }
      }
    }
  }
}

# KogitoApp reconciler — a verified model

This project models the reconciliation core of the Kogito operator's KogitoApp
controller (`pkg/controller/kogitoapp/kogitoapp_controller.go`) in Dafny:

- `ReconcileKogitoApp.Reconcile`, the per-request control sequence. It
  fetches the KogitoApp and stops with an empty result on a fetch error or a
  missing instance. It normalises the runtime kind in place, applies the
  default build limits, and calls the resource synchroniser. It triggers a
  build only when the S2I build configuration was just created. It then manages
  resources and status, and maps the status directive to the scheduler's result.
- `ReconcileKogitoApp.SetDefaultBuildLimits`, which normalises the build limits
  list of the instance in place.

The collaborators (the client's fetch, `BuildOrFetchObjects`, `TriggerBuild`,
`ManageResources`, `ManageStatus`) live in packages this model does not
include. They are the function fields of a `Client` value held by the
reconciler. The Go reconciler struct is never changed by `Reconcile`, so it is a
datatype here, holding the client and the default limits. Because the
collaborators are arbitrary functions, every proof holds for every possible collaborator behaviour.
`Reconcile` returns the result, the error and the trace of the collaborator
calls it made, with their arguments. The gating properties are stated on that
trace: nothing runs after a fetch or sync error, one build trigger exactly when
the build configuration is new, and no resource management after a trigger error.

The default limit values (`DefaultBuildS2INativeLimits`, `DefaultBuildS2IJVMLimits`
and the four single CPU/Memory entries) are defined in a package this model does
not include. The reconciler is therefore parameterised by a `BuildLimitDefaults`
record. The lemmas that need the defaults to have the right kinds take
`WellKinded()` as an explicit precondition: each single entry has its named kind,
and each full set holds exactly one CPU and one Memory entry.

Module layout: `V1alpha1` (the resource's API types and the in-memory
`KogitoApp` instance), `Collaborators` (the external calls and the call trace),
`BuildLimits` (the default-limits policy and its lemmas) and
`KogitoAppController` (the reconciler).

### The status-error path follows the code

One would expect line 184 to return `statusUpdateResult.Err`. It returns the
outer `err` declared at line 151 instead. That variable is the synchroniser's
error, and it is nil there, because line 164 already returned when it was not.
The `err` of line 170 is declared with `:=` inside its `if`, so it is a separate
variable and cannot change the outer one. So a status error yields an empty
result and a nil error: it is swallowed. The model keeps this.
`MapStatusResult` receives the reconciler's `err` variable, and `Reconcile`'s
contract states that a status error gives `(EmptyResult, None)`. The evidently
intended mapping is `IntendedStatusResult`, and `StatusErrorSwallowed` shows
that the two differ exactly on the status-error branch (see "## Findings").

## Model

| member | source | states |
|---|---|---|
| `KogitoAppController.ReconcileKogitoApp.Reconcile` | pkg/controller/kogitoapp/kogitoapp_controller.go:132-194 | The fetch comes first. A fetch error is returned with an empty result; a missing instance gives an empty result and nil error. In both cases the trace holds only the fetch. The synchroniser receives the instance with normalised runtime and defaulted limits. A sync error is returned unchanged with an empty result, and nothing is called after it. The trace holds exactly one trigger if the build configuration is new and none otherwise; the trigger gets the configuration and the instance name. A trigger error is returned before resource management. Otherwise ManageResources then ManageStatus are called, and the result is the status mapping applied with a nil outer error. Every error return has an empty result, and no error comes from the status step. A status error yields an empty result and nil error. No result has both requeue forms. |
| `KogitoAppController.MapStatusResult` | pkg/controller/kogitoapp/kogitoapp_controller.go:182-193 | Strict priority. The delay is 30 s exactly when there is no status error and requeue-after is set. Requeue is true exactly when there is no error, no requeue-after, and updated is set. The returned error is the caller's `err` on a status error and nil otherwise. Requeue and a non-zero delay never occur together. |
| `KogitoAppController.NormalisedRuntime` | pkg/controller/kogitoapp/kogitoapp_controller.go:143-145 | The result is Springboot iff the input was Springboot. Every other result is Quarkus, the unset value included. |
| `KogitoAppController.PreparedIdempotent` | pkg/controller/kogitoapp/kogitoapp_controller.go:143-147 | `Prepared` is the instance after lines 143-147: runtime normalised, default-limits policy applied. `Reconcile` hands it to every collaborator, starting with the synchroniser at `trace[1]`. With well-kinded defaults, preparing an already prepared instance changes nothing, so a retry from the start sees the same object. |
| `KogitoAppController.IntendedStatusResult` | pkg/controller/kogitoapp/kogitoapp_controller.go:182-193 | The evidently intended mapping. The returned error is the status error itself. A status error gives an empty result. With no status error, it agrees with `MapStatusResult`. Never both requeue forms. |
| `KogitoAppController.StatusErrorSwallowed` | pkg/controller/kogitoapp/kogitoapp_controller.go:151-184 | With the nil outer `err` the code passes, the as-written mapping equals the intended one iff the status reports no error. On a status error the as-written mapping returns a nil error; the intended one returns the status error. |
| `KogitoAppController.ReconcileKogitoApp.SetDefaultBuildLimits` | pkg/controller/kogitoapp/kogitoapp_controller.go:196-221 | In place: the build limits become `DefaultedLimits` of the old native flag and old limits. The metadata, runtime, native flag and requests are unchanged. |
| `BuildLimits.DefaultedLimits` | pkg/controller/kogitoapp/kogitoapp_controller.go:200-221 | An empty list becomes exactly the native default set when native is set, and the JVM set otherwise. A non-empty list is kept unchanged as a prefix, with at most two entries added. |
| `BuildLimits.DefaultedLimitsShape` | pkg/controller/kogitoapp/kogitoapp_controller.go:206-221 | With well-kinded defaults, for a non-empty list: the CPU default for the build mode is appended iff the list had no CPU entry. Then the Memory default is appended iff it had no Memory entry. |
| `BuildLimits.DefaultedLimitsCounts` | pkg/controller/kogitoapp/kogitoapp_controller.go:200-221 | With well-kinded defaults and at most one CPU and one Memory entry on input, the result has exactly one of each. For a non-empty input, every other kind keeps its count. |
| `BuildLimits.DefaultedLimitsIdempotent` | pkg/controller/kogitoapp/kogitoapp_controller.go:200-221 | With well-kinded defaults, applying the policy a second time changes nothing. |

## Findings

| source | as written | input that shows it | evidently intended | confidence | as-written member | corrected member |
|---|---|---|---|---|---|---|
| pkg/controller/kogitoapp/kogitoapp_controller.go:182-184 | On a status error, returns the outer `err` of line 151. That variable is always nil there, because of the early return at line 164. | A found instance, a successful sync with no new build configuration, and `ManageStatus` returning `Err` set. The result is an empty Result and a nil error. | Return `statusUpdateResult.Err` with an empty Result. | high; not executed | `KogitoAppController.StatusErrorSwallowed` | `KogitoAppController.IntendedStatusResult` |

The rest of the model keeps the as-written behaviour: `Reconcile` uses `MapStatusResult`, because the model describes what the code does.

## Left out

- `Add`, `newReconciler` and `add` (lines 53-114): manager wiring, client construction and watch registration. They are framework plumbing with no behaviour to state.
- The `PreCreate` hook that sets the controller reference (lines 155-162): a call into controller-runtime and the scheme. The synchroniser is abstract, so the hook is not passed to it.
- The internals of the fetch, `BuildOrFetchObjects`, `TriggerBuild`, `ManageResources` and `ManageStatus`: their code is not part of this model. Each is an arbitrary function of its arguments.
- Mutation of the instance by collaborators and aliasing through the shared pointer: each collaborator receives a value snapshot of the instance, taken after normalisation.
- The build handle returned by `TriggerBuild`: it is discarded by the source. Only its error is modelled.
- The cache handle passed to `ManageStatus`, the scheme, and the rest of the KogitoApp spec and status: the reconciler only hands them on.
- The nil check on `&instance.Spec.Build.Resources` (lines 197-199): the address of an embedded field is never nil, so the branch cannot run.
- Logging, including the package logger at line 49: observability only.
- `time.Duration`: the 30-second delay is the integer constant `RequeueDelaySeconds`, in seconds.
- Concurrency, the single-flight-per-key guarantee and requeue scheduling: these belong to the controller-runtime host.
- Reconcile's idempotence across two calls (a second run sees no new resources and reports done): this depends on the synchroniser and status manager, which are abstract here.
- The string values of the runtime and resource-kind constants are those of the v1alpha1 package. Only their distinctness matters to the proofs.

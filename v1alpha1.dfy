/** The parts of the KogitoApp custom resource (API group app, version
    v1alpha1) that the reconciler reads or normalises, plus the small
    Option/Error wrappers that stand for Go's nilable error values. */
module V1alpha1 {

  /** Go's `error` result: `None` is a nil error. */
  datatype Option<T> = None | Some(value: T)

  datatype Error = Error(message: string)

  /** The runtime kind is a string-typed field; only two values are known. */
  type RuntimeType = string

  const QuarkusRuntimeType: RuntimeType := "quarkus"
  const SpringbootRuntimeType: RuntimeType := "springboot"

  /** The kind of a resource limit entry is a string-typed field too. */
  type ResourceKind = string

  const ResourceCPU: ResourceKind := "cpu"
  const ResourceMemory: ResourceKind := "memory"

  /** One (resource-kind, quantity) entry of a limits or requests list. */
  datatype ResourceMap = ResourceMap(resource: ResourceKind, value: string)

  datatype Resources = Resources(limits: seq<ResourceMap>, requests: seq<ResourceMap>)

  datatype KogitoAppBuildObject = KogitoAppBuildObject(native: bool, resources: Resources)

  datatype KogitoAppSpec = KogitoAppSpec(runtime: RuntimeType, build: KogitoAppBuildObject)
  {
    /** The build limits list, `Spec.Build.Resources.Limits`. */
    function BuildLimits(): seq<ResourceMap> {
      build.resources.limits
    }

    /** This spec with the build limits list replaced and every other field kept. */
    function WithBuildLimits(limits: seq<ResourceMap>): (s: KogitoAppSpec)
      ensures s.BuildLimits() == limits
      ensures s.runtime == runtime && s.build.native == build.native
      ensures s.build.resources.requests == build.resources.requests
    {
      this.(build := build.(resources := build.resources.(limits := limits)))
    }
  }

  datatype ObjectMeta = ObjectMeta(namespace: string, name: string)

  /** The key a reconcile request carries. */
  datatype NamespacedName = NamespacedName(namespace: string, name: string)

  /** A snapshot of a KogitoApp object as a value: what the store holds and
      what the collaborators are handed. */
  datatype KogitoAppValue = KogitoAppValue(meta: ObjectMeta, spec: KogitoAppSpec)

  /** The in-memory KogitoApp instance that Reconcile fetches and then
      normalises in place. */
  class KogitoApp {
    var meta: ObjectMeta
    var spec: KogitoAppSpec

    constructor (v: KogitoAppValue)
      ensures Value() == v
    {
      meta := v.meta;
      spec := v.spec;
    }

    function Value(): KogitoAppValue
      reads this
    {
      KogitoAppValue(meta, spec)
    }
  }
}

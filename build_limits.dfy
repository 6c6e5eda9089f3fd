/** The default-limits policy applied to `Spec.Build.Resources.Limits` before
    the resources are synchronised: an empty list becomes the full default set
    for the build mode (native or JVM); a non-empty list keeps its entries and
    gains the CPU and then the Memory default only where that kind is missing. */
module BuildLimits {
  import opened V1alpha1

  /** Some entry of `limits` has resource kind `kind` (the shared helper
      ContainsResource). */
  predicate ContainsResource(kind: ResourceKind, limits: seq<ResourceMap>)
  {
    exists i :: 0 <= i < |limits| && limits[i].resource == kind
  }

  /** The number of entries of `limits` of resource kind `kind`. */
  function CountKind(kind: ResourceKind, limits: seq<ResourceMap>): nat
  {
    if limits == [] then 0
    else (if limits[0].resource == kind then 1 else 0) + CountKind(kind, limits[1..])
  }

  /** The package-level default build limits: the full default set and the
      single CPU and Memory entries, one of each per build mode. */
  datatype BuildLimitDefaults = BuildLimitDefaults(
    nativeLimits: seq<ResourceMap>,
    jvmLimits: seq<ResourceMap>,
    nativeCPULimit: ResourceMap,
    nativeMemoryLimit: ResourceMap,
    jvmCPULimit: ResourceMap,
    jvmMemoryLimit: ResourceMap)
  {
    function Limits(native: bool): seq<ResourceMap> {
      if native then nativeLimits else jvmLimits
    }

    function CPULimit(native: bool): ResourceMap {
      if native then nativeCPULimit else jvmCPULimit
    }

    function MemoryLimit(native: bool): ResourceMap {
      if native then nativeMemoryLimit else jvmMemoryLimit
    }

    /** The assumption the defaults are written to meet: each single entry has
        the kind its name says, and each full set holds exactly one CPU and
        exactly one Memory entry. */
    predicate WellKinded() {
      && nativeCPULimit.resource == ResourceCPU && jvmCPULimit.resource == ResourceCPU
      && nativeMemoryLimit.resource == ResourceMemory && jvmMemoryLimit.resource == ResourceMemory
      && CountKind(ResourceCPU, nativeLimits) == 1 && CountKind(ResourceMemory, nativeLimits) == 1
      && CountKind(ResourceCPU, jvmLimits) == 1 && CountKind(ResourceMemory, jvmLimits) == 1
    }
  }

  /** `limits` with `entry` appended when no entry of kind `kind` is present. */
  function AppendIfMissing(kind: ResourceKind, entry: ResourceMap, limits: seq<ResourceMap>): seq<ResourceMap>
  {
    if ContainsResource(kind, limits) then limits else limits + [entry]
  }

  /** The limits list after the default-limits policy. */
  function DefaultedLimits(d: BuildLimitDefaults, native: bool, limits: seq<ResourceMap>): (r: seq<ResourceMap>)
    ensures limits == [] ==> r == (if native then d.nativeLimits else d.jvmLimits)
    ensures limits != [] ==> |limits| <= |r| <= |limits| + 2 && r[..|limits|] == limits
  {
    if |limits| == 0 then d.Limits(native)
    else AppendIfMissing(ResourceMemory, d.MemoryLimit(native), AppendIfMissing(ResourceCPU, d.CPULimit(native), limits))
  }

  lemma {:induction false} CountKindAppend(kind: ResourceKind, a: seq<ResourceMap>, b: seq<ResourceMap>)
    ensures CountKind(kind, a + b) == CountKind(kind, a) + CountKind(kind, b)
  {
    if a == [] {
      assert a + b == b;
    } else {
      assert (a + b)[1..] == a[1..] + b;
      CountKindAppend(kind, a[1..], b);
    }
  }

  lemma {:induction false} ContainsIffCount(kind: ResourceKind, limits: seq<ResourceMap>)
    ensures ContainsResource(kind, limits) <==> CountKind(kind, limits) > 0
  {
    if limits != [] {
      ContainsIffCount(kind, limits[1..]);
      if ContainsResource(kind, limits[1..]) {
        var i :| 0 <= i < |limits[1..]| && limits[1..][i].resource == kind;
        assert limits[i + 1].resource == kind;
      }
      if ContainsResource(kind, limits) && limits[0].resource != kind {
        var i :| 0 <= i < |limits| && limits[i].resource == kind;
        assert limits[1..][i - 1].resource == kind;
      }
    }
  }

  /** Appending an entry of another kind does not change whether `kind` is present. */
  lemma ContainsAfterAppend(kind: ResourceKind, limits: seq<ResourceMap>, entry: ResourceMap)
    ensures ContainsResource(kind, limits + [entry]) <==> ContainsResource(kind, limits) || entry.resource == kind
  {
    CountKindAppend(kind, limits, [entry]);
    ContainsIffCount(kind, limits);
    ContainsIffCount(kind, limits + [entry]);
  }

  /** With well-kinded defaults, both presence checks read as checks on the
      ORIGINAL list: the CPU default is appended exactly when no CPU entry was
      there, and the Memory default exactly when no Memory entry was there. */
  lemma DefaultedLimitsShape(d: BuildLimitDefaults, native: bool, limits: seq<ResourceMap>)
    requires d.WellKinded() && limits != []
    ensures DefaultedLimits(d, native, limits)
            == limits
               + (if ContainsResource(ResourceCPU, limits) then [] else [d.CPULimit(native)])
               + (if ContainsResource(ResourceMemory, limits) then [] else [d.MemoryLimit(native)])
  {
    if !ContainsResource(ResourceCPU, limits) {
      ContainsAfterAppend(ResourceMemory, limits, d.CPULimit(native));
    }
  }

  /** Defaulting totality: from a list with at most one CPU and at most one
      Memory entry, the policy produces exactly one of each, and leaves the
      number of entries of every other kind unchanged when the list was
      non-empty. */
  lemma DefaultedLimitsCounts(d: BuildLimitDefaults, native: bool, limits: seq<ResourceMap>)
    requires d.WellKinded()
    requires CountKind(ResourceCPU, limits) <= 1 && CountKind(ResourceMemory, limits) <= 1
    ensures var r := DefaultedLimits(d, native, limits);
      && CountKind(ResourceCPU, r) == 1 && CountKind(ResourceMemory, r) == 1
      && (limits != [] ==>
            forall kind :: kind != ResourceCPU && kind != ResourceMemory ==>
              CountKind(kind, r) == CountKind(kind, limits))
  {
    if limits != [] {
      DefaultedLimitsShape(d, native, limits);
      var cpu := if ContainsResource(ResourceCPU, limits) then [] else [d.CPULimit(native)];
      var mem := if ContainsResource(ResourceMemory, limits) then [] else [d.MemoryLimit(native)];
      ContainsIffCount(ResourceCPU, limits);
      ContainsIffCount(ResourceMemory, limits);
      assert [d.CPULimit(native)][1..] == [] && [d.MemoryLimit(native)][1..] == [];
      forall kind
        ensures CountKind(kind, limits + cpu + mem)
                == CountKind(kind, limits) + CountKind(kind, cpu) + CountKind(kind, mem)
      {
        CountKindAppend(kind, limits + cpu, mem);
        CountKindAppend(kind, limits, cpu);
      }
    }
  }

  /** A second application of the policy changes nothing. */
  lemma DefaultedLimitsIdempotent(d: BuildLimitDefaults, native: bool, limits: seq<ResourceMap>)
    requires d.WellKinded()
    ensures DefaultedLimits(d, native, DefaultedLimits(d, native, limits)) == DefaultedLimits(d, native, limits)
  {
    var r := DefaultedLimits(d, native, limits);
    if limits == [] {
      ContainsIffCount(ResourceCPU, r);
      ContainsIffCount(ResourceMemory, r);
    } else {
      DefaultedLimitsShape(d, native, limits);
      ContainsAfterAppend(ResourceCPU, limits, d.CPULimit(native));
      ContainsAfterAppend(ResourceMemory, limits, d.CPULimit(native));
      var s := AppendIfMissing(ResourceCPU, d.CPULimit(native), limits);
      ContainsAfterAppend(ResourceCPU, s, d.MemoryLimit(native));
      ContainsAfterAppend(ResourceMemory, s, d.MemoryLimit(native));
    }
  }
}

/** The ownership tags of VMs: `createRequest` writes them over whatever the user configured,
    and `Managed` finds VMs by them. */
module IncusTags {
  import opened Lifecycle

  const CLOUD_INIT_KEY := "cloud-init.user-data"
  const MANAGED_KEY := "user.farm.managed"
  const INSTANCE_KEY := "user.farm.instance-id"
  const POOL_KEY := "user.farm.pool"
  const CONTROLLER_KEY := "user.farm.controller"

  datatype Spec = Spec(
    id: string,
    name: string,
    pool: string,
    controller: string,
    alias: string,
    fingerprint: string,
    config: map<string, string>,
    cloudInit: string)

  datatype Kind = VirtualMachine | Container

  /** An instance as Incus stores it, and as it is requested. */
  datatype Instance = Instance(name: string, kind: Kind, config: map<string, string>)

  datatype ManagedVm = ManagedVm(id: string, name: string, pool: string)

  /** Go's lookup: a missing key reads as the empty string. */
  function Value(config: map<string, string>, key: string): string {
    if key in config then config[key] else ""
  }

  predicate Complete(spec: Spec) {
    && spec.id != "" && spec.name != "" && spec.pool != "" && spec.controller != ""
    && (spec.alias != "" || spec.fingerprint != "")
  }

  /** What `createRequest` asks for: the user's configuration survives under every other key. */
  ghost predicate Requests(spec: Spec, request: Instance) {
    && request.name == spec.name && request.kind == VirtualMachine
    && Value(request.config, MANAGED_KEY) == "true"
    && Value(request.config, INSTANCE_KEY) == spec.id
    && Value(request.config, POOL_KEY) == spec.pool
    && Value(request.config, CONTROLLER_KEY) == spec.controller
    && Value(request.config, CLOUD_INIT_KEY) ==
       (if spec.cloudInit != "" then spec.cloudInit else Value(spec.config, CLOUD_INIT_KEY))
    && (forall key :: key !in {MANAGED_KEY, INSTANCE_KEY, POOL_KEY, CONTROLLER_KEY, CLOUD_INIT_KEY} ==>
          Value(request.config, key) == Value(spec.config, key))
  }

  lemma KeysDiffer()
    ensures |MANAGED_KEY| == 17 && |INSTANCE_KEY| == 21 && |POOL_KEY| == 14 && |CONTROLLER_KEY| == 20
    ensures CLOUD_INIT_KEY[0] == 'c' && CONTROLLER_KEY[0] == 'u'
    ensures |CLOUD_INIT_KEY| == 20
  {}

  method CreateRequest(spec: Spec) returns (request: Option<Instance>)
    ensures request.Some? <==> Complete(spec)
    ensures request.Some? ==> Requests(spec, request.value)
  {
    if spec.id == "" || spec.name == "" || spec.pool == "" || spec.controller == "" {
      return None;
    }
    if spec.alias == "" && spec.fingerprint == "" {
      return None;
    }
    KeysDiffer();
    var config := spec.config;
    if |spec.cloudInit| != 0 {
      config := config[CLOUD_INIT_KEY := spec.cloudInit];
    }
    config := config[MANAGED_KEY := "true"];
    config := config[INSTANCE_KEY := spec.id];
    config := config[POOL_KEY := spec.pool];
    config := config[CONTROLLER_KEY := spec.controller];
    return Some(Instance(spec.name, VirtualMachine, config));
  }

  /** The tags name this controller and, unless it is empty, this pool. */
  predicate Owned(instance: Instance, controller: string, pool: string) {
    && Value(instance.config, MANAGED_KEY) == "true"
    && Value(instance.config, CONTROLLER_KEY) == controller
    && (pool == "" || Value(instance.config, POOL_KEY) == pool)
  }

  function Described(instance: Instance): ManagedVm {
    ManagedVm(Value(instance.config, INSTANCE_KEY), instance.name, Value(instance.config, POOL_KEY))
  }

  /** The owned entries of a list, each once and in the order of the list. */
  function OwnedOf(instances: seq<Instance>, controller: string, pool: string): seq<ManagedVm> {
    if instances == [] then []
    else
      var last := instances[|instances| - 1];
      OwnedOf(instances[..|instances| - 1], controller, pool) +
      if Owned(last, controller, pool) then [Described(last)] else []
  }

  lemma {:induction false} OwnedMeans(instances: seq<Instance>, controller: string, pool: string, m: ManagedVm)
    ensures m in OwnedOf(instances, controller, pool) <==>
            exists i :: i in instances && Owned(i, controller, pool) && m == Described(i)
  {
    if instances != [] {
      var init, last := instances[..|instances| - 1], instances[|instances| - 1];
      OwnedMeans(init, controller, pool, m);
      assert forall i :: i in instances <==> i in init || i == last;
    }
  }

  /** Refuses the whole list as soon as something that is no VM carries the tags. */
  method Managed(instances: seq<Instance>, controller: string, pool: string) returns (managed: Option<seq<ManagedVm>>)
    ensures managed.Some? <==> forall i :: i in instances && Owned(i, controller, pool) ==> i.kind == VirtualMachine
    ensures managed.Some? ==> managed.value == OwnedOf(instances, controller, pool)
  {
    var list: seq<ManagedVm> := [];
    for k := 0 to |instances|
      invariant forall j :: 0 <= j < k && Owned(instances[j], controller, pool) ==> instances[j].kind == VirtualMachine
      invariant list == OwnedOf(instances[..k], controller, pool)
    {
      var instance := instances[k];
      assert instances[..k + 1][..k] == instances[..k];
      if Value(instance.config, MANAGED_KEY) != "true" || Value(instance.config, CONTROLLER_KEY) != controller {
        continue;
      }
      if pool != "" && Value(instance.config, POOL_KEY) != pool {
        continue;
      }
      if instance.kind != VirtualMachine {
        return None;
      }
      list := list + [Described(instance)];
    }
    assert instances[..|instances|] == instances;
    return Some(list);
  }

  /** A VM that was created carries the tags by which its own controller and pool find it, and
      nobody else does, whatever the user's configuration holds under the same keys. */
  lemma CreatedIsManaged(spec: Spec, request: Instance, controller: string, pool: string)
    requires Complete(spec) && Requests(spec, request) && pool != ""
    ensures Owned(request, controller, pool) <==> controller == spec.controller && pool == spec.pool
    ensures Described(request) == ManagedVm(spec.id, spec.name, spec.pool)
  {}

  /** A project holds VMs created from specs, and instances without this controller's tags. */
  ghost predicate Project(instances: seq<Instance>, specs: seq<Spec>, controller: string) {
    && |instances| >= |specs|
    && (forall k :: 0 <= k < |specs| ==> Complete(specs[k]) && Requests(specs[k], instances[k]))
    && (forall k :: |specs| <= k < |instances| ==> !Owned(instances[k], controller, ""))
  }

  /** The VMs of a pool as its specs describe them. */
  function SpecsOf(specs: seq<Spec>, controller: string, pool: string): seq<ManagedVm> {
    if specs == [] then []
    else
      var last := specs[|specs| - 1];
      SpecsOf(specs[..|specs| - 1], controller, pool) +
      if last.controller == controller && last.pool == pool then [ManagedVm(last.id, last.name, last.pool)] else []
  }

  /** `Managed` after any creates is exactly the list of the pool's own specs. */
  lemma {:induction false} ManagedAreOwnSpecs(instances: seq<Instance>, specs: seq<Spec>, controller: string,
                                              pool: string)
    requires Project(instances, specs, controller) && pool != ""
    ensures OwnedOf(instances, controller, pool) == SpecsOf(specs, controller, pool)
    ensures forall i :: i in instances && Owned(i, controller, pool) ==> i.kind == VirtualMachine
    decreases |instances|
  {
    if instances == [] {
      assert specs == [];
    } else {
      var init, last := instances[..|instances| - 1], instances[|instances| - 1];
      assert forall i :: i in instances <==> i in init || i == last;
      if |instances| > |specs| {
        ManagedAreOwnSpecs(init, specs, controller, pool);
      } else {
        ManagedAreOwnSpecs(init, specs[..|specs| - 1], controller, pool);
        CreatedIsManaged(specs[|specs| - 1], last, controller, pool);
      }
    }
  }
}

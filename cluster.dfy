/**
 * Cluster orchestration (src/cluster.js): creating a cluster specification
 * namespace by namespace, configuration map by configuration map and level
 * by level, each service of a level through a fixed chain of resource
 * creations; removing it again; and the pure helpers the chains use
 * (`match`, the container choice of getContainer/getContainerSpec,
 * filterContainerManifests).
 *
 * The Kubernetes client is an abstract interface: every call is logged and
 * has an outcome, success or a rejection with a message. Calls that the
 * source starts together and joins with Promise.all are issued one after
 * another here, in the order the source starts them.
 */
module Cluster {
  import opened Wrappers
  import opened Strings
  import opened Json

  const TypeError: string := "TypeError"

  const ReservedNamespaces: seq<string> := ["default", "kube-system", "kube-public"]

  const MatchKeys: seq<string> := ["imageOwner", "imageName", "owner", "repo", "branch"]

  /** Kinds that are never the container of a service group. */
  const ManifestKindFilter: seq<string> := [
    "ClusterRole", "ClusterRoleBinding", "ConfigMap", "CronJob", "DaemonSet", "Deployment", "Job",
    "NetworkPolicy", "Role", "RoleBinding", "Service", "ServiceAccount", "StatefulSet"]

  // ------------------------------------------------------------------ match

  function Trimmed(parts: seq<string>): (r: seq<string>)
    ensures |r| == |parts| && forall i :: 0 <= i < |parts| ==> r[i] == Trim(parts[i])
  {
    seq(|parts|, i requires 0 <= i < |parts| => Trim(parts[i]))
  }

  /**
   * The keys match compares: `options.filter` split at ',' with each part
   * trimmed, or MatchKeys when there is no filter. A truthy filter that is
   * not a string has no `split` and throws.
   */
  function MatchKeyList(options: Json): (r: Result<seq<string>>)
    ensures r.Ok? ==> |r.value| >= 1
  {
    var filter := Prop(Some(options), "filter");
    if !Truthy(filter) then Ok(MatchKeys)
    else if filter.value.JStr? then Ok(Trimmed(Split(filter.value.s, ',')))
    else Err(TypeError)
  }

  /** One key of match: the pattern's value, and a truthy option value, must both be the target's (`===`). */
  predicate KeyMatches(target: Json, props: Json, options: Json, key: string)
  {
    StrictEq(Prop(Some(props), key), Prop(Some(target), key))
    && (Truthy(Prop(Some(options), key)) ==> StrictEq(Prop(Some(options), key), Prop(Some(target), key)))
  }

  /** The reduce of match: a key that does not match sets the flag to false, and nothing sets it back. */
  function MatchFold(target: Json, props: Json, options: Json, keys: seq<string>): (r: bool)
    ensures r <==> forall i :: 0 <= i < |keys| ==> KeyMatches(target, props, options, keys[i])
  {
    if |keys| == 0 then true
    else
      var matches := MatchFold(target, props, options, keys[..|keys| - 1]);
      var key := keys[|keys| - 1];
      var afterProps := if !StrictEq(Prop(Some(props), key), Prop(Some(target), key)) then false else matches;
      if Truthy(Prop(Some(options), key)) && !StrictEq(Prop(Some(options), key), Prop(Some(target), key)) then false
      else afterProps
  }

  /**
   * match(target, props, options), with undefined options read as `{}`.
   * Reading a key of null options, or of a null or undefined target or
   * pattern, throws.
   */
  function Match(target: JsVal, props: JsVal, options: JsVal): (r: Result<bool>)
    ensures r.Err? ==> r.error == TypeError
    ensures r.Err? <==> (IsNullish(target) || IsNullish(props) || (options.Some? && options.value.JNull?)
                         || (!IsNullish(options) && MatchKeyList(options.value).Err?))
  {
    var opts := if options.None? then JObj(map[]) else options.value;
    if opts.JNull? then Err(TypeError)
    else
      match MatchKeyList(opts)
      case Err(e) => Err(e)
      case Ok(keys) =>
        if IsNullish(props) || IsNullish(target) then Err(TypeError)
        else Ok(MatchFold(target.value, props.value, opts, keys))
  }

  // -------------------------------------------------------- service groups

  /** The resources of one service, as entries in enumeration order (each key once). */
  type Entries = seq<(string, Json)>

  /** `resources[key]`. */
  function Field(g: Entries, key: string): JsVal
  {
    if |g| == 0 then None
    else if g[0].0 == key then Some(g[0].1)
    else Field(g[1..], key)
  }

  /** A value whose log line `${v.metadata.name}` can be formatted: it has metadata. */
  predicate HasMetadata(v: Json)
  {
    !IsNullish(Prop(Some(v), "metadata"))
  }

  predicate Logged(v: JsVal)
  {
    v.Some? && HasMetadata(v.value)
  }

  datatype Workload = DaemonSet | Deployment | StatefulSet | CronJob | Job

  function WorkloadKey(w: Workload): string
  {
    match w
    case DaemonSet => "daemonSet"
    case Deployment => "deployment"
    case StatefulSet => "statefulSet"
    case CronJob => "cronJob"
    case Job => "job"
  }

  /** The place of a workload key in the priority order of getContainer and getContainerSpec. */
  function Rank(w: Workload): nat
  {
    match w
    case DaemonSet => 0
    case Deployment => 1
    case StatefulSet => 2
    case CronJob => 3
    case Job => 4
  }

  /** The first workload key, in priority order, whose value is truthy. */
  function Chosen(g: Entries): (r: Option<Workload>)
    ensures r.Some? ==> Truthy(Field(g, WorkloadKey(r.value)))
    ensures forall w :: (r.None? || Rank(w) < Rank(r.value)) ==> !Truthy(Field(g, WorkloadKey(w)))
  {
    if Truthy(Field(g, "daemonSet")) then Some(DaemonSet)
    else if Truthy(Field(g, "deployment")) then Some(Deployment)
    else if Truthy(Field(g, "statefulSet")) then Some(StatefulSet)
    else if Truthy(Field(g, "cronJob")) then Some(CronJob)
    else if Truthy(Field(g, "job")) then Some(Job)
    else None
  }

  /** The first value whose `kind` is neither undefined nor null; reading `kind` of a null value throws. */
  function FirstKinded(g: Entries): (r: Result<JsVal>)
    ensures r.Ok? && r.value.Some? ==> !IsNullish(Prop(r.value, "kind"))
    ensures r.Err? ==> r.error == TypeError
  {
    if |g| == 0 then Ok(None)
    else if g[0].1.JNull? then Err(TypeError)
    else if !IsNullish(Prop(Some(g[0].1), "kind")) then Ok(Some(g[0].1))
    else FirstKinded(g[1..])
  }

  /** getContainerSpec. */
  function ContainerSpec(g: Entries): Result<JsVal>
  {
    match Chosen(g)
    case Some(w) => Ok(Field(g, WorkloadKey(w)))
    case None => FirstKinded(g)
  }

  /** filterContainerManifests: a kind that is not undefined (null counts) and not one of ManifestKindFilter. */
  function IsContainerManifest(m: Json): Result<bool>
  {
    if m.JNull? then Err(TypeError)
    else
      var kind := Prop(Some(m), "kind");
      Ok(kind.Some? && !(kind.value.JStr? && kind.value.s in ManifestKindFilter))
  }

  /** The `_.find` of getContainer over the values. */
  function FirstManifest(g: Entries): (r: Result<Option<Json>>)
    ensures r.Ok? && r.value.Some? ==> IsContainerManifest(r.value.value) == Ok(true)
  {
    if |g| == 0 then Ok(None)
    else
      match IsContainerManifest(g[0].1)
      case Err(e) => Err(e)
      case Ok(b) => if b then Ok(Some(g[0].1)) else FirstManifest(g[1..])
  }

  // ------------------------------------------------------------- the client

  /** The Kubernetes operations cluster.js calls. */
  datatype Call =
    | CreateNamespace(ns: string)
    | FixNamespaceLabels
    | CreateConfiguration(manifest: Json)
    | CreateAccount(manifest: Json)
    | CreateRole(manifest: Json)
    | CreateRoleBinding(manifest: Json)
    | CreateWorkload(kind: Workload, manifest: Json)
    | CreateManifest(manifest: Json)
    | CreateService(manifest: Json)
    | CreateNetworkPolicy(manifest: Json)
    | DeleteNamespace(ns: string)
    | DeleteConfiguration(manifest: Json)
    | DeleteAccount(manifest: Json)
    | DeleteRoleBinding(manifest: Json)
    | DeleteRole(manifest: Json)
    | DeleteWorkload(kind: Workload, namespace: JsVal, name: JsVal)
    | DeleteService(manifest: Json)
    | DeleteNetworkPolicy(manifest: Json)
    | UpdateDaemonSet(namespace: JsVal, name: JsVal, image: JsVal, container: JsVal)
    | UpgradeDeployment(namespace: JsVal, name: JsVal, image: JsVal, container: JsVal)
    | UpgradeStatefulSet(namespace: JsVal, name: JsVal, image: JsVal, container: JsVal)

  /** How the promise of a call settles: it resolves, it rejects with a message, or it never settles. */
  datatype Status = Fulfilled | Failed(error: string) | Pending

  /**
   * How the promise of call c settles when the cluster answers as `outcome`
   * says. A stateful set's upgrade that was patched waits for the status
   * 'update', which its check never reports, so it cannot resolve.
   */
  function Settle(outcome: Call -> Status, c: Call): (s: Status)
    ensures c.UpgradeStatefulSet? ==> !s.Fulfilled?
    ensures !(c.UpgradeStatefulSet? && outcome(c).Fulfilled?) ==> s == outcome(c)
  {
    if c.UpgradeStatefulSet? && outcome(c).Fulfilled? then Pending else outcome(c)
  }

  /** The client: every call is logged, and settles as `outcome` says, except that no stateful-set upgrade resolves. */
  class K8s {
    var log: seq<Call>
    const outcome: Call -> Status

    constructor (outcome0: Call -> Status)
      ensures log == [] && outcome == outcome0
    {
      log := [];
      outcome := outcome0;
    }

    method Send(c: Call) returns (r: Status)
      modifies this
      ensures log == old(log) + [c] && r == Settle(outcome, c)
    {
      log := log + [c];
      r := Settle(outcome, c);
    }
  }

  /**
   * getContainer: the create call for the chosen workload, else for the
   * first container manifest (its kind must be a string, for
   * `toLowerCase`); `None` when there is nothing to create. The log line
   * before each call reads the value's metadata.
   */
  function ContainerCall(g: Entries): Result<Option<Call>>
  {
    match Chosen(g)
    case Some(w) =>
      var v := Field(g, WorkloadKey(w)).value;
      if HasMetadata(v) then Ok(Some(CreateWorkload(w, v))) else Err(TypeError)
    case None =>
      match FirstManifest(g)
      case Err(e) => Err(e)
      case Ok(None) => Ok(None)
      case Ok(Some(m)) =>
        if Prop(Some(m), "kind").value.JStr? && HasMetadata(m) then Ok(Some(CreateManifest(m)))
        else Err(TypeError)
  }

  /**
   * removeContainer: delete the chosen workload by the namespace and name
   * of its metadata. With no workload it returns undefined, and the `.then`
   * of deleteContainer on that throws.
   */
  function RemoveCall(g: Entries): Result<Call>
  {
    match Chosen(g)
    case None => Err(TypeError)
    case Some(w) =>
      var v := Field(g, WorkloadKey(w)).value;
      if !HasMetadata(v) then Err(TypeError)
      else
        var md := Prop(Some(v), "metadata");
        Ok(DeleteWorkload(w, Prop(md, "namespace"), Prop(md, "name")))
  }

  // ------------------------------------------------------------ traces

  /** What a promise chain did: how it settled and the calls it issued. */
  datatype Trace = Trace(result: Status, calls: seq<Call>)

  const Done: Trace := Trace(Fulfilled, [])

  function Fail(e: string): Trace { Trace(Failed(e), []) }

  function Step(outcome: Call -> Status, c: Call): Trace { Trace(Settle(outcome, c), [c]) }

  /** `first.then(() => next)`: the next part runs only when the first resolved. */
  function Then(first: Trace, next: Trace): Trace
  {
    if !first.result.Fulfilled? then first else Trace(next.result, first.calls + next.calls)
  }

  /** A failure handler that logs `x.metadata.namespace` before rethrowing throws a TypeError instead when x has no metadata. */
  function Rethrown(x: JsVal, t: Trace): Trace
  {
    if t.result.Failed? && !Logged(x) then Trace(Failed(TypeError), t.calls) else t
  }

  /**
   * Promise.all over promises started by a `map` or `reduce`: every start
   * issues its calls; a start that throws synchronously (`None`) ends the
   * map, and what was already started stays started. `failure` is the
   * first rejection in start order; `hung` says that some started chain
   * never settles.
   */
  datatype Batch = Batch(threw: bool, failure: Option<string>, hung: bool, calls: seq<Call>)

  function All(items: seq<Option<Trace>>): Batch
  {
    if |items| == 0 then Batch(false, None, false, [])
    else
      var b := All(items[..|items| - 1]);
      var x := items[|items| - 1];
      if b.threw then b
      else if x.None? then Batch(true, b.failure, b.hung, b.calls)
      else Batch(false, FirstFailure(b.failure, x.value.result), b.hung || x.value.result.Pending?, b.calls + x.value.calls)
  }

  /** The first rejection so far, after one more chain settles as s. */
  function FirstFailure(failure: Option<string>, s: Status): Option<string>
  {
    if failure.None? && s.Failed? then Some(s.error) else failure
  }

  /**
   * The joined promise: a synchronous throw is a TypeError, else the first
   * rejection (Promise.all rejects without waiting for the rest), else it
   * never settles when one chain never does, else success.
   */
  function Joined(b: Batch): Trace
  {
    if b.threw then Trace(Failed(TypeError), b.calls)
    else if b.failure.Some? then Trace(Failed(b.failure.value), b.calls)
    else if b.hung then Trace(Pending, b.calls)
    else Trace(Fulfilled, b.calls)
  }

  /** Calls started together, none of which can throw at its start. */
  function Steps(outcome: Call -> Status, cs: seq<Call>): (r: seq<Option<Trace>>)
    ensures |r| == |cs|
  {
    seq(|cs|, i requires 0 <= i < |cs| => Some(Step(outcome, cs[i])))
  }

  // ------------------------------------------------- the per-service chains

  /** createAccount / deleteAccount up to its call: absent gives no call; its log line reads the account's metadata. */
  function AccountStart(outcome: Call -> Status, g: Entries, creating: bool): Option<Trace>
  {
    var account := Field(g, "account");
    if !Truthy(account) then Some(Done)
    else if !HasMetadata(account.value) then None
    else Some(Step(outcome, if creating then CreateAccount(account.value) else DeleteAccount(account.value)))
  }

  /** createRole: its log line reads the role binding's metadata, and its failure handler the role's. */
  function CreateRoleStep(outcome: Call -> Status, g: Entries): Trace
  {
    var role := Field(g, "role");
    if !Truthy(role) then Done
    else if !Logged(Field(g, "roleBinding")) then Fail(TypeError)
    else Rethrown(role, Step(outcome, CreateRole(role.value)))
  }

  /** createRoleBinding. */
  function CreateRoleBindingStep(outcome: Call -> Status, g: Entries): Trace
  {
    var binding := Field(g, "roleBinding");
    if !Truthy(binding) then Done
    else if !HasMetadata(binding.value) then Fail(TypeError)
    else Step(outcome, CreateRoleBinding(binding.value))
  }

  /** A job or a lower-case `cronjob` key has its services created before the workload as well as after it. */
  predicate ServicesFirst(g: Entries)
  {
    Truthy(Field(g, "job")) || Truthy(Field(g, "cronjob"))
  }

  /** The `create` of createContainer: getContainer, with the failure handler that logs the container spec. */
  function CreateContainerCall(outcome: Call -> Status, g: Entries, spec: JsVal): Trace
  {
    match ContainerCall(g)
    case Err(e) => Fail(e)
    case Ok(None) => Done
    case Ok(Some(c)) => Rethrown(spec, Step(outcome, c))
  }

  /** createContainer. */
  function CreateContainerStep(outcome: Call -> Status, g: Entries): Trace
  {
    match ContainerSpec(g)
    case Err(e) => Fail(e)
    case Ok(spec) =>
      if ServicesFirst(g) then Then(CreateServicesStep(outcome, g), CreateContainerCall(outcome, g, spec))
      else CreateContainerCall(outcome, g, spec)
  }

  /** One service call per element of `services`, after its log line. */
  function ServiceStarts(outcome: Call -> Status, services: seq<Json>, creating: bool): (r: seq<Option<Trace>>)
    ensures |r| == |services|
  {
    seq(|services|, i requires 0 <= i < |services| =>
      if !HasMetadata(services[i]) then None
      else Some(Step(outcome, if creating then CreateService(services[i]) else DeleteService(services[i]))))
  }

  /** `resources.services || []`, mapped; a truthy value that is not an array has no `map`. */
  function ServicesRun(outcome: Call -> Status, g: Entries, creating: bool): Trace
  {
    var services := Field(g, "services");
    if !Truthy(services) then Done
    else if !services.value.JArr? then Fail(TypeError)
    else Joined(All(ServiceStarts(outcome, services.value.a, creating)))
  }

  /** createContainerServices. */
  function CreateServicesStep(outcome: Call -> Status, g: Entries): Trace
  {
    ServicesRun(outcome, g, true)
  }

  /** createNetworkPolicy. */
  function CreateNetworkPolicyStep(outcome: Call -> Status, g: Entries): Trace
  {
    var policy := Field(g, "networkPolicy");
    if !Truthy(policy) then Done
    else if !HasMetadata(policy.value) then Fail(TypeError)
    else Step(outcome, CreateNetworkPolicy(policy.value))
  }

  /** onContainerCreated: the services, then (onContainerServiceCreated) the network policy. */
  function AfterContainer(outcome: Call -> Status, g: Entries): Trace
  {
    Then(CreateServicesStep(outcome, g), CreateNetworkPolicyStep(outcome, g))
  }

  /** onRoleBindingCreated. */
  function AfterRoleBinding(outcome: Call -> Status, g: Entries): Trace
  {
    Then(CreateContainerStep(outcome, g), AfterContainer(outcome, g))
  }

  /** onRoleCreated. */
  function AfterRole(outcome: Call -> Status, g: Entries): Trace
  {
    Then(CreateRoleBindingStep(outcome, g), AfterRoleBinding(outcome, g))
  }

  /** onAccountCreated. */
  function AfterAccount(outcome: Call -> Status, g: Entries): Trace
  {
    Then(CreateRoleStep(outcome, g), AfterRole(outcome, g))
  }

  /** createServiceResources: `None` when the account's log line throws, before any call. */
  function CreateChain(outcome: Call -> Status, g: Entries): Option<Trace>
  {
    match AccountStart(outcome, g, true)
    case None => None
    case Some(t) => Some(Then(t, AfterAccount(outcome, g)))
  }

  /** deleteRoleBinding. */
  function DeleteRoleBindingStep(outcome: Call -> Status, g: Entries): Trace
  {
    var binding := Field(g, "roleBinding");
    if !Truthy(binding) then Done
    else if !HasMetadata(binding.value) then Fail(TypeError)
    else Step(outcome, DeleteRoleBinding(binding.value))
  }

  /** deleteRole: present when there is a role, but it logs and deletes the role binding. */
  function DeleteRoleStep(outcome: Call -> Status, g: Entries): Trace
  {
    var binding := Field(g, "roleBinding");
    if !Truthy(Field(g, "role")) then Done
    else if !Logged(binding) then Fail(TypeError)
    else Step(outcome, DeleteRole(binding.value))
  }

  /** deleteContainer: getContainerSpec, then removeContainer. */
  function DeleteContainerStep(outcome: Call -> Status, g: Entries): Trace
  {
    match ContainerSpec(g)
    case Err(e) => Fail(e)
    case Ok(spec) =>
      match RemoveCall(g)
      case Err(e) => Fail(e)
      case Ok(c) => Rethrown(spec, Step(outcome, c))
  }

  /** deleteContainerServices. */
  function DeleteServicesStep(outcome: Call -> Status, g: Entries): Trace
  {
    ServicesRun(outcome, g, false)
  }

  /** deleteNetworkPolicy, which the removal chain never calls. */
  function DeleteNetworkPolicyStep(outcome: Call -> Status, g: Entries): Trace
  {
    var policy := Field(g, "networkPolicy");
    if !Truthy(policy) then Done
    else if !HasMetadata(policy.value) then Fail(TypeError)
    else Step(outcome, DeleteNetworkPolicy(policy.value))
  }

  /** onRoleDeleted: the workload, then (onContainerDeleted) the services. */
  function AfterRoleDeleted(outcome: Call -> Status, g: Entries): Trace
  {
    Then(DeleteContainerStep(outcome, g), DeleteServicesStep(outcome, g))
  }

  /** onRoleBindingDeleted. */
  function AfterRoleBindingDeleted(outcome: Call -> Status, g: Entries): Trace
  {
    Then(DeleteRoleStep(outcome, g), AfterRoleDeleted(outcome, g))
  }

  /** onAccountDeleted. */
  function AfterAccountDeleted(outcome: Call -> Status, g: Entries): Trace
  {
    Then(DeleteRoleBindingStep(outcome, g), AfterRoleBindingDeleted(outcome, g))
  }

  /** deleteServiceResources. */
  function DeleteChain(outcome: Call -> Status, g: Entries): Option<Trace>
  {
    match AccountStart(outcome, g, false)
    case None => None
    case Some(t) => Some(Then(t, AfterAccountDeleted(outcome, g)))
  }

  // ------------------------------------------------------------ the cluster

  /** The parts of a cluster specification that creation and removal read, apart from its levels. */
  datatype Graph = Graph(
    namespaces: seq<string>,
    configuration: seq<Json>,
    order: map<string, seq<string>>,
    services: map<string, Entries>)

  /** A cluster specification; removal reverses its `levels` in place. */
  class Cluster {
    const graph: Graph
    const levels: array<string>

    constructor (graph0: Graph, levels0: seq<string>)
      ensures graph == graph0 && levels[..] == levels0 && fresh(levels)
    {
      graph := graph0;
      levels := new string[|levels0|](i requires 0 <= i < |levels0| => levels0[i]);
    }
  }

  /** `_.includes(RESERVED_NAMESPACES, namespace)`. */
  predicate Reserved(namespace: JsVal)
  {
    namespace.Some? && namespace.value.JStr? && namespace.value.s in ReservedNamespaces
  }

  /** One service of a level being created: a missing group throws on its first read. */
  function CreateStart(outcome: Call -> Status, graph: Graph, name: string): Option<Trace>
  {
    if name !in graph.services then None else CreateChain(outcome, graph.services[name])
  }

  /** One service of a level being removed: only groups whose namespace is reserved are touched. */
  function DeleteStart(outcome: Call -> Status, graph: Graph, name: string): Option<Trace>
  {
    if name !in graph.services then None
    else if Reserved(Field(graph.services[name], "namespace")) then DeleteChain(outcome, graph.services[name])
    else Some(Done)
  }

  function CreateStarts(outcome: Call -> Status, graph: Graph, names: seq<string>): (r: seq<Option<Trace>>)
    ensures |r| == |names|
  {
    seq(|names|, i requires 0 <= i < |names| => CreateStart(outcome, graph, names[i]))
  }

  function DeleteStarts(outcome: Call -> Status, graph: Graph, names: seq<string>): (r: seq<Option<Trace>>)
    ensures |r| == |names|
  {
    seq(|names|, i requires 0 <= i < |names| => DeleteStart(outcome, graph, names[i]))
  }

  /** createServicesInLevel: a level without an order entry throws. */
  function CreateLevelRun(outcome: Call -> Status, graph: Graph, level: string): Trace
  {
    if level !in graph.order then Fail(TypeError)
    else Joined(All(CreateStarts(outcome, graph, graph.order[level])))
  }

  /** deleteServicesInLevel. */
  function DeleteLevelRun(outcome: Call -> Status, graph: Graph, level: string): Trace
  {
    if level !in graph.order then Fail(TypeError)
    else Joined(All(DeleteStarts(outcome, graph, graph.order[level])))
  }

  /** Promise.each over the levels: one level after another, stopping at the first that rejects. */
  function CreateLevelsRun(outcome: Call -> Status, graph: Graph, levels: seq<string>): Trace
  {
    if |levels| == 0 then Done
    else Then(CreateLevelsRun(outcome, graph, levels[..|levels| - 1]), CreateLevelRun(outcome, graph, levels[|levels| - 1]))
  }

  function DeleteLevelsRun(outcome: Call -> Status, graph: Graph, levels: seq<string>): Trace
  {
    if |levels| == 0 then Done
    else Then(DeleteLevelsRun(outcome, graph, levels[..|levels| - 1]), DeleteLevelRun(outcome, graph, levels[|levels| - 1]))
  }

  function NamespaceCalls(namespaces: seq<string>): (r: seq<Call>)
    ensures |r| == |namespaces|
  {
    seq(|namespaces|, i requires 0 <= i < |namespaces| => CreateNamespace(namespaces[i]))
  }

  /** createNamespaces: every namespace, then fixNamespaceLabels, all joined. */
  function CreateNamespacesRun(outcome: Call -> Status, namespaces: seq<string>): Trace
  {
    Joined(All(Steps(outcome, NamespaceCalls(namespaces) + [FixNamespaceLabels])))
  }

  /** `_.difference(namespaces, RESERVED_NAMESPACES)`, order kept. */
  function Unreserved(namespaces: seq<string>): (r: seq<string>)
    ensures forall n :: n in r <==> n in namespaces && n !in ReservedNamespaces
  {
    if |namespaces| == 0 then []
    else
      var n := namespaces[|namespaces| - 1];
      Unreserved(namespaces[..|namespaces| - 1]) + (if n in ReservedNamespaces then [] else [n])
  }

  function DeleteNamespaceCalls(namespaces: seq<string>): (r: seq<Call>)
    ensures |r| == |namespaces|
  {
    seq(|namespaces|, i requires 0 <= i < |namespaces| => DeleteNamespace(namespaces[i]))
  }

  /** deleteNamespaces. */
  function DeleteNamespacesRun(outcome: Call -> Status, namespaces: seq<string>): Trace
  {
    Joined(All(Steps(outcome, DeleteNamespaceCalls(Unreserved(namespaces)))))
  }

  /** The namespace a configuration map's metadata names. */
  function ConfigNamespace(c: Json): JsVal
  {
    Prop(Prop(Some(c), "metadata"), "namespace")
  }

  /** createConfiguration: the log line of each map reads its metadata. */
  function CreateConfigStarts(outcome: Call -> Status, configs: seq<Json>): (r: seq<Option<Trace>>)
    ensures |r| == |configs|
  {
    seq(|configs|, i requires 0 <= i < |configs| =>
      if HasMetadata(configs[i]) then Some(Step(outcome, CreateConfiguration(configs[i]))) else None)
  }

  /** deleteConfiguration: only maps in a reserved namespace are deleted. */
  function DeleteConfigStarts(outcome: Call -> Status, configs: seq<Json>): (r: seq<Option<Trace>>)
    ensures |r| == |configs|
  {
    seq(|configs|, i requires 0 <= i < |configs| =>
      if !HasMetadata(configs[i]) then None
      else if Reserved(ConfigNamespace(configs[i])) then Some(Step(outcome, DeleteConfiguration(configs[i])))
      else Some(Done))
  }

  /** How deployCluster or removeCluster settles: a rejection, process.exit(100), or never. */
  datatype Outcome = Resolved | Rejected(error: string) | Exited(code: int) | Hung

  const ExitCode: int := 100

  datatype Finish = Finish(outcome: Outcome, calls: seq<Call>)

  /** The level stage: a rejection reaches exitOnError. */
  function LevelsOutcome(s: Status): Outcome
  {
    match s
    case Fulfilled => Resolved
    case Failed(_) => Exited(ExitCode)
    case Pending => Hung
  }

  /**
   * deployCluster: namespaces, then configuration, then the levels. A
   * rejected namespace stage rejects; a configuration map without metadata
   * throws before the handlers are attached and rejects too; a rejected
   * configuration or level stage ends in exitOnError.
   */
  function DeployRun(outcome: Call -> Status, graph: Graph, levels: seq<string>): Finish
  {
    var ns := CreateNamespacesRun(outcome, graph.namespaces);
    if ns.result.Failed? then Finish(Rejected(ns.result.error), ns.calls)
    else if ns.result.Pending? then Finish(Hung, ns.calls)
    else
      var cfg := All(CreateConfigStarts(outcome, graph.configuration));
      if cfg.threw then Finish(Rejected(TypeError), ns.calls + cfg.calls)
      else if cfg.failure.Some? then Finish(Exited(ExitCode), ns.calls + cfg.calls)
      else if cfg.hung then Finish(Hung, ns.calls + cfg.calls)
      else
        var lv := CreateLevelsRun(outcome, graph, levels);
        Finish(LevelsOutcome(lv.result), ns.calls + cfg.calls + lv.calls)
  }

  /** Whether removeCluster reaches deleteLevels, which reverses the levels. */
  predicate ReachesLevels(outcome: Call -> Status, graph: Graph)
  {
    DeleteNamespacesRun(outcome, graph.namespaces).result.Fulfilled?
    && var cfg := All(DeleteConfigStarts(outcome, graph.configuration));
    !cfg.threw && cfg.failure.None? && !cfg.hung
  }

  function Reversed(s: seq<string>): (r: seq<string>)
    ensures |r| == |s| && forall i :: 0 <= i < |s| ==> r[i] == s[|s| - 1 - i]
  {
    if |s| == 0 then [] else Reversed(s[1..]) + [s[0]]
  }

  /** removeCluster: unreserved namespaces, then configuration in reserved ones, then the levels in reverse. */
  function RemoveRun(outcome: Call -> Status, graph: Graph, levels: seq<string>): Finish
  {
    var ns := DeleteNamespacesRun(outcome, graph.namespaces);
    if ns.result.Failed? then Finish(Rejected(ns.result.error), ns.calls)
    else if ns.result.Pending? then Finish(Hung, ns.calls)
    else
      var cfg := All(DeleteConfigStarts(outcome, graph.configuration));
      if cfg.threw then Finish(Rejected(TypeError), ns.calls + cfg.calls)
      else if cfg.failure.Some? then Finish(Exited(ExitCode), ns.calls + cfg.calls)
      else if cfg.hung then Finish(Hung, ns.calls + cfg.calls)
      else
        var lv := DeleteLevelsRun(outcome, graph, Reversed(levels));
        Finish(LevelsOutcome(lv.result), ns.calls + cfg.calls + lv.calls)
  }

  // ------------------------------------------------------------ the methods

  /** `after` is `before` with more calls appended. */
  predicate Extends(before: seq<Call>, after: seq<Call>)
  {
    |before| <= |after| && after[..|before|] == before
  }

  /** Array.prototype.reverse, in place. */
  method Reverse(a: array<string>)
    modifies a
    ensures a[..] == Reversed(old(a[..]))
  {
    var n := a.Length;
    var i := 0;
    while i < n / 2
      invariant 0 <= i <= n / 2
      invariant forall j :: 0 <= j < i ==> a[j] == old(a[n - 1 - j]) && a[n - 1 - j] == old(a[j])
      invariant forall j :: i <= j < n - i ==> a[j] == old(a[j])
    {
      a[i], a[n - 1 - i] := a[n - 1 - i], a[i];
      i := i + 1;
    }
  }

  /** Calls started together and joined, none of which throws at its start. */
  method SendAll(k: K8s, cs: seq<Call>) returns (r: Status)
    modifies k
    ensures Extends(old(k.log), k.log)
    ensures Trace(r, k.log[|old(k.log)|..]) == Joined(All(Steps(k.outcome, cs)))
  {
    ghost var items := Steps(k.outcome, cs);
    ghost var start := k.log;
    var failure: Option<string> := None;
    var hung := false;
    for i := 0 to |cs|
      invariant Extends(start, k.log)
      invariant All(items[..i]) == Batch(false, failure, hung, k.log[|start|..])
    {
      failure, hung := SendInBatch(k, cs[i], items, i, start, failure, hung);
    }
    assert items[..|cs|] == items;
    r := if failure.Some? then Failed(failure.value) else if hung then Pending else Fulfilled;
  }

  /** One call of a batch started together: it is logged, its rejection is kept when it is the first, and it may leave the batch hung. */
  method SendInBatch(k: K8s, c: Call, ghost items: seq<Option<Trace>>, ghost i: nat, ghost start: seq<Call>,
                     failure: Option<string>, hung: bool) returns (f: Option<string>, h: bool)
    modifies k
    requires i < |items| && items[i] == Some(Step(k.outcome, c))
    requires Extends(start, k.log) && All(items[..i]) == Batch(false, failure, hung, k.log[|start|..])
    ensures Extends(start, k.log) && All(items[..i + 1]) == Batch(false, f, h, k.log[|start|..])
  {
    ghost var before := k.log;
    var res := k.Send(c);
    assert k.log[|start|..] == before[|start|..] + [c];
    AllGrows(items, i, failure, hung, before[|start|..], Step(k.outcome, c));
    f := FirstFailure(failure, res);
    h := hung || res.Pending?;
  }

  method CreateNamespaces(k: K8s, namespaces: seq<string>) returns (r: Status)
    modifies k
    ensures Extends(old(k.log), k.log)
    ensures Trace(r, k.log[|old(k.log)|..]) == CreateNamespacesRun(k.outcome, namespaces)
  {
    var cs := seq(|namespaces|, i requires 0 <= i < |namespaces| => CreateNamespace(namespaces[i]));
    r := SendAll(k, cs + [FixNamespaceLabels]);
  }

  method DeleteNamespaces(k: K8s, namespaces: seq<string>) returns (r: Status)
    modifies k
    ensures Extends(old(k.log), k.log)
    ensures Trace(r, k.log[|old(k.log)|..]) == DeleteNamespacesRun(k.outcome, namespaces)
  {
    var kept: seq<string> := [];
    for i := 0 to |namespaces|
      invariant kept == Unreserved(namespaces[..i])
    {
      assert namespaces[..i + 1][..i] == namespaces[..i];
      if namespaces[i] !in ReservedNamespaces {
        kept := kept + [namespaces[i]];
      }
    }
    assert namespaces[..|namespaces|] == namespaces;
    var cs := seq(|kept|, i requires 0 <= i < |kept| => DeleteNamespace(kept[i]));
    r := SendAll(k, cs);
  }

  method CreateConfigurationMaps(k: K8s, configs: seq<Json>) returns (threw: bool, r: Status)
    modifies k
    ensures Extends(old(k.log), k.log)
    ensures threw == All(CreateConfigStarts(k.outcome, configs)).threw
    ensures Trace(r, k.log[|old(k.log)|..]) == Joined(All(CreateConfigStarts(k.outcome, configs)))
  {
    ghost var items := CreateConfigStarts(k.outcome, configs);
    ghost var start := k.log;
    var failure: Option<string> := None;
    var hung := false;
    for i := 0 to |configs|
      invariant Extends(start, k.log)
      invariant All(items[..i]) == Batch(false, failure, hung, k.log[|start|..])
    {
      if !HasMetadata(configs[i]) {
        assert items[..i + 1][..i] == items[..i];
        AllThrewStays(items, i + 1);
        return true, Failed(TypeError);
      }
      failure, hung := SendInBatch(k, CreateConfiguration(configs[i]), items, i, start, failure, hung);
    }
    assert items[..|configs|] == items;
    threw := false;
    r := if failure.Some? then Failed(failure.value) else if hung then Pending else Fulfilled;
  }

  method DeleteConfigurationMaps(k: K8s, configs: seq<Json>) returns (threw: bool, r: Status)
    modifies k
    ensures Extends(old(k.log), k.log)
    ensures threw == All(DeleteConfigStarts(k.outcome, configs)).threw
    ensures Trace(r, k.log[|old(k.log)|..]) == Joined(All(DeleteConfigStarts(k.outcome, configs)))
  {
    ghost var items := DeleteConfigStarts(k.outcome, configs);
    ghost var start := k.log;
    var failure: Option<string> := None;
    var hung := false;
    for i := 0 to |configs|
      invariant Extends(start, k.log)
      invariant All(items[..i]) == Batch(false, failure, hung, k.log[|start|..])
    {
      if !HasMetadata(configs[i]) {
        assert items[..i + 1][..i] == items[..i];
        AllThrewStays(items, i + 1);
        return true, Failed(TypeError);
      }
      if Reserved(ConfigNamespace(configs[i])) {
        failure, hung := SendInBatch(k, DeleteConfiguration(configs[i]), items, i, start, failure, hung);
      } else {
        AllGrows(items, i, failure, hung, k.log[|start|..], Done);
        assert k.log[|start|..] + [] == k.log[|start|..];
      }
    }
    assert items[..|configs|] == items;
    threw := false;
    r := if failure.Some? then Failed(failure.value) else if hung then Pending else Fulfilled;
  }

  /** The map of createContainerServices and deleteContainerServices over an array of services. */
  method StartServices(k: K8s, services: seq<Json>, creating: bool) returns (threw: bool, r: Status)
    modifies k
    ensures Extends(old(k.log), k.log)
    ensures threw == All(ServiceStarts(k.outcome, services, creating)).threw
    ensures Trace(r, k.log[|old(k.log)|..]) == Joined(All(ServiceStarts(k.outcome, services, creating)))
  {
    ghost var items := ServiceStarts(k.outcome, services, creating);
    ghost var start := k.log;
    var failure: Option<string> := None;
    var hung := false;
    for i := 0 to |services|
      invariant Extends(start, k.log)
      invariant All(items[..i]) == Batch(false, failure, hung, k.log[|start|..])
    {
      if !HasMetadata(services[i]) {
        assert items[..i + 1][..i] == items[..i];
        AllThrewStays(items, i + 1);
        return true, Failed(TypeError);
      }
      var c := if creating then CreateService(services[i]) else DeleteService(services[i]);
      failure, hung := SendInBatch(k, c, items, i, start, failure, hung);
    }
    assert items[..|services|] == items;
    threw := false;
    r := if failure.Some? then Failed(failure.value) else if hung then Pending else Fulfilled;
  }

  method CreateContainerServices(k: K8s, g: Entries) returns (r: Status)
    modifies k
    ensures Extends(old(k.log), k.log)
    ensures Trace(r, k.log[|old(k.log)|..]) == CreateServicesStep(k.outcome, g)
  {
    var services := Field(g, "services");
    if !Truthy(services) {
      return Fulfilled;
    }
    if !services.value.JArr? {
      return Failed(TypeError);
    }
    var _, res := StartServices(k, services.value.a, true);
    r := res;
  }

  method DeleteContainerServices(k: K8s, g: Entries) returns (r: Status)
    modifies k
    ensures Extends(old(k.log), k.log)
    ensures Trace(r, k.log[|old(k.log)|..]) == DeleteServicesStep(k.outcome, g)
  {
    var services := Field(g, "services");
    if !Truthy(services) {
      return Fulfilled;
    }
    if !services.value.JArr? {
      return Failed(TypeError);
    }
    var _, res := StartServices(k, services.value.a, false);
    r := res;
  }

  /** createAccount or deleteAccount: `threw` when its log line throws before the call. */
  method StartAccount(k: K8s, g: Entries, creating: bool) returns (threw: bool, r: Status)
    modifies k
    ensures Extends(old(k.log), k.log)
    ensures threw <==> AccountStart(k.outcome, g, creating).None?
    ensures threw ==> k.log == old(k.log)
    ensures !threw ==> Trace(r, k.log[|old(k.log)|..]) == AccountStart(k.outcome, g, creating).value
  {
    var account := Field(g, "account");
    if !Truthy(account) {
      return false, Fulfilled;
    }
    if !HasMetadata(account.value) {
      return true, Failed(TypeError);
    }
    threw := false;
    r := k.Send(if creating then CreateAccount(account.value) else DeleteAccount(account.value));
  }

  method CreateRoleOf(k: K8s, g: Entries) returns (r: Status)
    modifies k
    ensures Extends(old(k.log), k.log)
    ensures Trace(r, k.log[|old(k.log)|..]) == CreateRoleStep(k.outcome, g)
  {
    var role := Field(g, "role");
    if !Truthy(role) {
      return Fulfilled;
    }
    if !Logged(Field(g, "roleBinding")) {
      return Failed(TypeError);
    }
    r := k.Send(CreateRole(role.value));
    if r.Failed? && !Logged(role) {
      r := Failed(TypeError);
    }
  }

  method CreateRoleBindingOf(k: K8s, g: Entries) returns (r: Status)
    modifies k
    ensures Extends(old(k.log), k.log)
    ensures Trace(r, k.log[|old(k.log)|..]) == CreateRoleBindingStep(k.outcome, g)
  {
    var binding := Field(g, "roleBinding");
    if !Truthy(binding) {
      return Fulfilled;
    }
    if !HasMetadata(binding.value) {
      return Failed(TypeError);
    }
    r := k.Send(CreateRoleBinding(binding.value));
  }

  /** createContainer: the services first for a job, then getContainer with the spec's failure handler. */
  method CreateContainer(k: K8s, g: Entries) returns (r: Status)
    modifies k
    ensures Extends(old(k.log), k.log)
    ensures Trace(r, k.log[|old(k.log)|..]) == CreateContainerStep(k.outcome, g)
  {
    var spec := ContainerSpec(g);
    if spec.Err? {
      return Failed(spec.error);
    }
    ghost var start := k.log;
    if ServicesFirst(g) {
      r := CreateContainerServices(k, g);
      if !r.Fulfilled? {
        return;
      }
    }
    ghost var mid := k.log;
    var call := ContainerCall(g);
    if call.Err? {
      return Failed(call.error);
    }
    if call.value.None? {
      return Fulfilled;
    }
    r := k.Send(call.value.value);
    if r.Failed? && !Logged(spec.value) {
      r := Failed(TypeError);
    }
    LogSplit(start, mid, k.log);
  }

  method CreateNetworkPolicyOf(k: K8s, g: Entries) returns (r: Status)
    modifies k
    ensures Extends(old(k.log), k.log)
    ensures Trace(r, k.log[|old(k.log)|..]) == CreateNetworkPolicyStep(k.outcome, g)
  {
    var policy := Field(g, "networkPolicy");
    if !Truthy(policy) {
      return Fulfilled;
    }
    if !HasMetadata(policy.value) {
      return Failed(TypeError);
    }
    r := k.Send(CreateNetworkPolicy(policy.value));
  }

  /** deleteNetworkPolicy, exported but not part of removal. */
  method DeleteNetworkPolicyOf(k: K8s, g: Entries) returns (r: Status)
    modifies k
    ensures Extends(old(k.log), k.log)
    ensures Trace(r, k.log[|old(k.log)|..]) == DeleteNetworkPolicyStep(k.outcome, g)
  {
    var policy := Field(g, "networkPolicy");
    if !Truthy(policy) {
      return Fulfilled;
    }
    if !HasMetadata(policy.value) {
      return Failed(TypeError);
    }
    r := k.Send(DeleteNetworkPolicy(policy.value));
  }

  method OnContainerCreated(k: K8s, g: Entries) returns (r: Status)
    modifies k
    ensures Extends(old(k.log), k.log)
    ensures Trace(r, k.log[|old(k.log)|..]) == AfterContainer(k.outcome, g)
  {
    ghost var start := k.log;
    r := CreateContainerServices(k, g);
    if !r.Fulfilled? {
      return;
    }
    ghost var mid := k.log;
    r := CreateNetworkPolicyOf(k, g);
    LogSplit(start, mid, k.log);
  }

  method OnRoleBindingCreated(k: K8s, g: Entries) returns (r: Status)
    modifies k
    ensures Extends(old(k.log), k.log)
    ensures Trace(r, k.log[|old(k.log)|..]) == AfterRoleBinding(k.outcome, g)
  {
    ghost var start := k.log;
    r := CreateContainer(k, g);
    if !r.Fulfilled? {
      return;
    }
    ghost var mid := k.log;
    r := OnContainerCreated(k, g);
    LogSplit(start, mid, k.log);
  }

  method OnRoleCreated(k: K8s, g: Entries) returns (r: Status)
    modifies k
    ensures Extends(old(k.log), k.log)
    ensures Trace(r, k.log[|old(k.log)|..]) == AfterRole(k.outcome, g)
  {
    ghost var start := k.log;
    r := CreateRoleBindingOf(k, g);
    if !r.Fulfilled? {
      return;
    }
    ghost var mid := k.log;
    r := OnRoleBindingCreated(k, g);
    LogSplit(start, mid, k.log);
  }

  method OnAccountCreated(k: K8s, g: Entries) returns (r: Status)
    modifies k
    ensures Extends(old(k.log), k.log)
    ensures Trace(r, k.log[|old(k.log)|..]) == AfterAccount(k.outcome, g)
  {
    ghost var start := k.log;
    r := CreateRoleOf(k, g);
    if !r.Fulfilled? {
      return;
    }
    ghost var mid := k.log;
    r := OnRoleCreated(k, g);
    LogSplit(start, mid, k.log);
  }

  /** createServiceResources: `threw` when the account's log line throws, before any call. */
  method CreateServiceResources(k: K8s, g: Entries) returns (threw: bool, r: Status)
    modifies k
    ensures Extends(old(k.log), k.log)
    ensures threw <==> CreateChain(k.outcome, g).None?
    ensures threw ==> k.log == old(k.log)
    ensures !threw ==> Trace(r, k.log[|old(k.log)|..]) == CreateChain(k.outcome, g).value
  {
    ghost var start := k.log;
    threw, r := StartAccount(k, g, true);
    if threw || !r.Fulfilled? {
      return;
    }
    ghost var mid := k.log;
    r := OnAccountCreated(k, g);
    LogSplit(start, mid, k.log);
  }

  method DeleteRoleBindingOf(k: K8s, g: Entries) returns (r: Status)
    modifies k
    ensures Extends(old(k.log), k.log)
    ensures Trace(r, k.log[|old(k.log)|..]) == DeleteRoleBindingStep(k.outcome, g)
  {
    var binding := Field(g, "roleBinding");
    if !Truthy(binding) {
      return Fulfilled;
    }
    if !HasMetadata(binding.value) {
      return Failed(TypeError);
    }
    r := k.Send(DeleteRoleBinding(binding.value));
  }

  method DeleteRoleOf(k: K8s, g: Entries) returns (r: Status)
    modifies k
    ensures Extends(old(k.log), k.log)
    ensures Trace(r, k.log[|old(k.log)|..]) == DeleteRoleStep(k.outcome, g)
  {
    var binding := Field(g, "roleBinding");
    if !Truthy(Field(g, "role")) {
      return Fulfilled;
    }
    if !Logged(binding) {
      return Failed(TypeError);
    }
    r := k.Send(DeleteRole(binding.value));
  }

  method DeleteContainer(k: K8s, g: Entries) returns (r: Status)
    modifies k
    ensures Extends(old(k.log), k.log)
    ensures Trace(r, k.log[|old(k.log)|..]) == DeleteContainerStep(k.outcome, g)
  {
    var spec := ContainerSpec(g);
    if spec.Err? {
      return Failed(spec.error);
    }
    var call := RemoveCall(g);
    if call.Err? {
      return Failed(call.error);
    }
    r := k.Send(call.value);
    if r.Failed? && !Logged(spec.value) {
      r := Failed(TypeError);
    }
  }

  method OnRoleDeleted(k: K8s, g: Entries) returns (r: Status)
    modifies k
    ensures Extends(old(k.log), k.log)
    ensures Trace(r, k.log[|old(k.log)|..]) == AfterRoleDeleted(k.outcome, g)
  {
    ghost var start := k.log;
    r := DeleteContainer(k, g);
    if !r.Fulfilled? {
      return;
    }
    ghost var mid := k.log;
    r := DeleteContainerServices(k, g);
    LogSplit(start, mid, k.log);
  }

  method OnRoleBindingDeleted(k: K8s, g: Entries) returns (r: Status)
    modifies k
    ensures Extends(old(k.log), k.log)
    ensures Trace(r, k.log[|old(k.log)|..]) == AfterRoleBindingDeleted(k.outcome, g)
  {
    ghost var start := k.log;
    r := DeleteRoleOf(k, g);
    if !r.Fulfilled? {
      return;
    }
    ghost var mid := k.log;
    r := OnRoleDeleted(k, g);
    LogSplit(start, mid, k.log);
  }

  method OnAccountDeleted(k: K8s, g: Entries) returns (r: Status)
    modifies k
    ensures Extends(old(k.log), k.log)
    ensures Trace(r, k.log[|old(k.log)|..]) == AfterAccountDeleted(k.outcome, g)
  {
    ghost var start := k.log;
    r := DeleteRoleBindingOf(k, g);
    if !r.Fulfilled? {
      return;
    }
    ghost var mid := k.log;
    r := OnRoleBindingDeleted(k, g);
    LogSplit(start, mid, k.log);
  }

  method DeleteServiceResources(k: K8s, g: Entries) returns (threw: bool, r: Status)
    modifies k
    ensures Extends(old(k.log), k.log)
    ensures threw <==> DeleteChain(k.outcome, g).None?
    ensures threw ==> k.log == old(k.log)
    ensures !threw ==> Trace(r, k.log[|old(k.log)|..]) == DeleteChain(k.outcome, g).value
  {
    ghost var start := k.log;
    threw, r := StartAccount(k, g, false);
    if threw || !r.Fulfilled? {
      return;
    }
    ghost var mid := k.log;
    r := OnAccountDeleted(k, g);
    LogSplit(start, mid, k.log);
  }

  /** The reduce of createServicesInLevel: every service's chain is started, then all are joined. */
  method CreateServicesInLevel(k: K8s, graph: Graph, level: string) returns (r: Status)
    modifies k
    ensures Extends(old(k.log), k.log)
    ensures Trace(r, k.log[|old(k.log)|..]) == CreateLevelRun(k.outcome, graph, level)
  {
    if level !in graph.order {
      return Failed(TypeError);
    }
    var names := graph.order[level];
    ghost var items := CreateStarts(k.outcome, graph, names);
    ghost var start := k.log;
    var failure: Option<string> := None;
    var hung := false;
    for i := 0 to |names|
      invariant Extends(start, k.log)
      invariant All(items[..i]) == Batch(false, failure, hung, k.log[|start|..])
    {
      assert items[..i + 1][..i] == items[..i];
      if names[i] !in graph.services {
        AllThrewStays(items, i + 1);
        return Failed(TypeError);
      }
      ghost var before := k.log;
      var threw, res := CreateServiceResources(k, graph.services[names[i]]);
      if threw {
        AllThrewStays(items, i + 1);
        return Failed(TypeError);
      }
      LogSplit(start, before, k.log);
      AllGrows(items, i, failure, hung, before[|start|..], Trace(res, k.log[|before|..]));
      failure, hung := FirstFailure(failure, res), hung || res.Pending?;
    }
    assert items[..|names|] == items;
    r := if failure.Some? then Failed(failure.value) else if hung then Pending else Fulfilled;
  }

  /** The reduce of deleteServicesInLevel: only services in a reserved namespace are removed. */
  method DeleteServicesInLevel(k: K8s, graph: Graph, level: string) returns (r: Status)
    modifies k
    ensures Extends(old(k.log), k.log)
    ensures Trace(r, k.log[|old(k.log)|..]) == DeleteLevelRun(k.outcome, graph, level)
  {
    if level !in graph.order {
      return Failed(TypeError);
    }
    var names := graph.order[level];
    ghost var items := DeleteStarts(k.outcome, graph, names);
    ghost var start := k.log;
    var failure: Option<string> := None;
    var hung := false;
    for i := 0 to |names|
      invariant Extends(start, k.log)
      invariant All(items[..i]) == Batch(false, failure, hung, k.log[|start|..])
    {
      assert items[..i + 1][..i] == items[..i];
      if names[i] !in graph.services {
        AllThrewStays(items, i + 1);
        return Failed(TypeError);
      }
      var g := graph.services[names[i]];
      assert items[i] == DeleteStart(k.outcome, graph, names[i]);
      if Reserved(Field(g, "namespace")) {
        var threw;
        threw, failure, hung := DeleteInBatch(k, g, items, i, start, failure, hung);
        if threw {
          AllThrewStays(items, i + 1);
          return Failed(TypeError);
        }
      } else {
        AllGrows(items, i, failure, hung, k.log[|start|..], Done);
        assert k.log[|start|..] + [] == k.log[|start|..];
      }
    }
    assert items[..|names|] == items;
    r := if failure.Some? then Failed(failure.value) else if hung then Pending else Fulfilled;
  }

  /** One service of a level being removed: its chain is started, and joins the batch unless its start threw. */
  method DeleteInBatch(k: K8s, g: Entries, ghost items: seq<Option<Trace>>, ghost i: nat, ghost start: seq<Call>,
                       failure: Option<string>, hung: bool) returns (threw: bool, f: Option<string>, h: bool)
    modifies k
    requires i < |items| && items[i] == DeleteChain(k.outcome, g)
    requires Extends(start, k.log) && All(items[..i]) == Batch(false, failure, hung, k.log[|start|..])
    ensures Extends(start, k.log)
    ensures threw ==> k.log == old(k.log) && All(items[..i + 1]) == Batch(true, failure, hung, k.log[|start|..])
    ensures !threw ==> All(items[..i + 1]) == Batch(false, f, h, k.log[|start|..])
  {
    ghost var before := k.log;
    var res;
    threw, res := DeleteServiceResources(k, g);
    f, h := failure, hung;
    if threw {
      assert items[..i + 1][..i] == items[..i];
      return;
    }
    LogSplit(start, before, k.log);
    AllGrows(items, i, failure, hung, before[|start|..], Trace(res, k.log[|before|..]));
    f, h := FirstFailure(failure, res), hung || res.Pending?;
  }

  /** createLevels: Promise.each over the cluster's levels. */
  method CreateLevels(k: K8s, cl: Cluster) returns (r: Status)
    modifies k
    ensures Extends(old(k.log), k.log)
    ensures Trace(r, k.log[|old(k.log)|..]) == CreateLevelsRun(k.outcome, cl.graph, cl.levels[..])
  {
    ghost var levels := cl.levels[..];
    ghost var start := k.log;
    for i := 0 to cl.levels.Length
      invariant Extends(start, k.log)
      invariant Trace(Fulfilled, k.log[|start|..]) == CreateLevelsRun(k.outcome, cl.graph, levels[..i])
    {
      assert levels[..i + 1][..i] == levels[..i];
      ghost var before := k.log;
      var res := CreateServicesInLevel(k, cl.graph, cl.levels[i]);
      LogSplit(start, before, k.log);
      if !res.Fulfilled? {
        CreateLevelsErrorStays(k.outcome, cl.graph, levels, i + 1);
        return res;
      }
    }
    assert levels[..cl.levels.Length] == levels;
    r := Fulfilled;
  }

  /** The walk of deleteLevels over levels already reversed. */
  method DeleteLevelsIn(k: K8s, graph: Graph, levels: array<string>) returns (r: Status)
    modifies k
    ensures Extends(old(k.log), k.log)
    ensures Trace(r, k.log[|old(k.log)|..]) == DeleteLevelsRun(k.outcome, graph, levels[..])
  {
    ghost var names := levels[..];
    ghost var start := k.log;
    for i := 0 to levels.Length
      invariant Extends(start, k.log)
      invariant Trace(Fulfilled, k.log[|start|..]) == DeleteLevelsRun(k.outcome, graph, names[..i])
    {
      assert names[..i + 1][..i] == names[..i];
      ghost var before := k.log;
      var res := DeleteServicesInLevel(k, graph, levels[i]);
      LogSplit(start, before, k.log);
      if !res.Fulfilled? {
        DeleteLevelsErrorStays(k.outcome, graph, names, i + 1);
        return res;
      }
    }
    assert names[..levels.Length] == names;
    r := Fulfilled;
  }

  /** deleteLevels: reverses the cluster's levels in place, then walks them. */
  method DeleteLevels(k: K8s, cl: Cluster) returns (r: Status)
    modifies k, cl.levels
    ensures cl.levels[..] == Reversed(old(cl.levels[..]))
    ensures Extends(old(k.log), k.log)
    ensures Trace(r, k.log[|old(k.log)|..]) == DeleteLevelsRun(k.outcome, cl.graph, Reversed(old(cl.levels[..])))
  {
    Reverse(cl.levels);
    r := DeleteLevelsIn(k, cl.graph, cl.levels);
  }

  /** deployCluster with its handlers onNamespacesCreated and onConfigurationCreated. */
  method DeployCluster(k: K8s, cl: Cluster) returns (o: Outcome)
    modifies k
    ensures Extends(old(k.log), k.log)
    ensures Finish(o, k.log[|old(k.log)|..]) == DeployRun(k.outcome, cl.graph, cl.levels[..])
  {
    ghost var start := k.log;
    var r := CreateNamespaces(k, cl.graph.namespaces);
    if r.Failed? {
      return Rejected(r.error);
    }
    if r.Pending? {
      return Hung;
    }
    ghost var afterNamespaces := k.log;
    var threw, res := CreateConfigurationMaps(k, cl.graph.configuration);
    LogSplit(start, afterNamespaces, k.log);
    if threw {
      return Rejected(TypeError);
    }
    if res.Failed? {
      return Exited(ExitCode);
    }
    if res.Pending? {
      return Hung;
    }
    ghost var afterConfig := k.log;
    res := CreateLevels(k, cl);
    LogSplit(start, afterConfig, k.log);
    o := LevelsOutcome(res);
  }

  /** removeCluster with its handlers onNamespacesDeleted and onConfigurationDeleted. */
  method RemoveCluster(k: K8s, cl: Cluster) returns (o: Outcome)
    modifies k, cl.levels
    ensures Extends(old(k.log), k.log)
    ensures Finish(o, k.log[|old(k.log)|..]) == RemoveRun(k.outcome, cl.graph, old(cl.levels[..]))
    ensures cl.levels[..] == if ReachesLevels(k.outcome, cl.graph) then Reversed(old(cl.levels[..])) else old(cl.levels[..])
  {
    ghost var start := k.log;
    var r := DeleteNamespaces(k, cl.graph.namespaces);
    if r.Failed? {
      return Rejected(r.error);
    }
    if r.Pending? {
      return Hung;
    }
    ghost var afterNamespaces := k.log;
    var threw, res := DeleteConfigurationMaps(k, cl.graph.configuration);
    LogSplit(start, afterNamespaces, k.log);
    if threw {
      return Rejected(TypeError);
    }
    if res.Failed? {
      return Exited(ExitCode);
    }
    if res.Pending? {
      return Hung;
    }
    ghost var afterConfig := k.log;
    res := DeleteLevels(k, cl);
    LogSplit(start, afterConfig, k.log);
    o := LevelsOutcome(res);
  }

  // ------------------------------------------------------------------ lemmas

  lemma LogSplit(start: seq<Call>, mid: seq<Call>, now: seq<Call>)
    requires Extends(start, mid) && Extends(mid, now)
    ensures Extends(start, now) && now[|start|..] == mid[|start|..] + now[|mid|..]
  {
    assert now[..|mid|] == mid;
    assert now[..|start|] == now[..|mid|][..|start|];
  }

  /** One more started chain that did not throw adds its calls, and its rejection when it is the first. */
  lemma AllGrows(items: seq<Option<Trace>>, i: nat, failure: Option<string>, hung: bool, calls: seq<Call>, t: Trace)
    requires i < |items| && All(items[..i]) == Batch(false, failure, hung, calls) && items[i] == Some(t)
    ensures All(items[..i + 1]) == Batch(false, FirstFailure(failure, t.result), hung || t.result.Pending?, calls + t.calls)
  {
    assert items[..i + 1][..i] == items[..i];
  }

  /** A joined batch in which no start threw and one started chain did not resolve does not resolve either. */
  lemma {:induction false} AllUnresolved(items: seq<Option<Trace>>, j: nat)
    requires j < |items| && items[j].Some? && !items[j].value.result.Fulfilled?
    requires forall i :: 0 <= i < |items| ==> items[i].Some?
    ensures !All(items).threw && (All(items).failure.Some? || All(items).hung)
    ensures !Joined(All(items)).result.Fulfilled?
  {
    var n := |items|;
    var prefix := items[..n - 1];
    AllStarted(prefix);
    if j < n - 1 {
      AllUnresolved(prefix, j);
    }
  }

  /** A batch in which every start succeeded did not throw. */
  lemma {:induction false} AllStarted(items: seq<Option<Trace>>)
    requires forall i :: 0 <= i < |items| ==> items[i].Some?
    ensures !All(items).threw
  {
    if |items| > 0 {
      AllStarted(items[..|items| - 1]);
    }
  }

  lemma {:induction false} AllThrewStays(items: seq<Option<Trace>>, i: nat)
    requires i <= |items| && All(items[..i]).threw
    ensures All(items) == All(items[..i])
    decreases |items| - i
  {
    if i < |items| {
      assert items[..i + 1][..i] == items[..i];
      AllThrewStays(items, i + 1);
    } else {
      assert items[..i] == items;
    }
  }

  lemma {:induction false} CreateLevelsErrorStays(outcome: Call -> Status, graph: Graph, levels: seq<string>, i: nat)
    requires i <= |levels| && CreateLevelsRun(outcome, graph, levels[..i]).result.Fulfilled? == false
    ensures CreateLevelsRun(outcome, graph, levels) == CreateLevelsRun(outcome, graph, levels[..i])
    decreases |levels| - i
  {
    if i < |levels| {
      assert levels[..i + 1][..i] == levels[..i];
      CreateLevelsErrorStays(outcome, graph, levels, i + 1);
    } else {
      assert levels[..i] == levels;
    }
  }

  lemma {:induction false} DeleteLevelsErrorStays(outcome: Call -> Status, graph: Graph, levels: seq<string>, i: nat)
    requires i <= |levels| && DeleteLevelsRun(outcome, graph, levels[..i]).result.Fulfilled? == false
    ensures DeleteLevelsRun(outcome, graph, levels) == DeleteLevelsRun(outcome, graph, levels[..i])
    decreases |levels| - i
  {
    if i < |levels| {
      assert levels[..i + 1][..i] == levels[..i];
      DeleteLevelsErrorStays(outcome, graph, levels, i + 1);
    } else {
      assert levels[..i] == levels;
    }
  }

  // ----------------------------------------------------------- match lemmas

  /** match is Ok exactly for usable arguments, and then holds iff every listed key matches. */
  lemma MatchMeaning(target: Json, props: Json, options: Json, keys: seq<string>)
    requires !target.JNull? && !props.JNull? && !options.JNull? && MatchKeyList(options) == Ok(keys)
    ensures Match(Some(target), Some(props), Some(options))
      == Ok(forall k :: k in keys ==> KeyMatches(target, props, options, k))
  {
    var b := MatchFold(target, props, options, keys);
    assert Match(Some(target), Some(props), Some(options)) == Ok(b);
    assert b <==> forall i :: 0 <= i < |keys| ==> KeyMatches(target, props, options, keys[i]);
    assert b <==> forall k :: k in keys ==> KeyMatches(target, props, options, k);
  }

  /** An undefined or null target or pattern makes match throw. */
  lemma MatchNeedsArguments(target: JsVal, props: JsVal, options: JsVal)
    requires IsNullish(target) || IsNullish(props)
    ensures Match(target, props, options).Err?
  {
  }

  /** Undefined options and options without a filter compare the default keys. */
  lemma MatchDefaults(target: JsVal, props: JsVal, options: Json)
    requires !Truthy(Prop(Some(options), "filter"))
    ensures MatchKeyList(options) == Ok(MatchKeys)
    ensures Match(target, props, None) == Match(target, props, Some(JObj(map[])))
  {
  }

  /** A key outside the compared keys can take any value in the target. */
  lemma MatchIgnoresOtherKeys(m: map<string, Json>, props: JsVal, options: Json, keys: seq<string>, x: string, v: Json)
    requires MatchKeyList(options) == Ok(keys) && x !in keys
    ensures Match(Some(JObj(m[x := v])), props, Some(options)) == Match(Some(JObj(m)), props, Some(options))
  {
    if !options.JNull? && !IsNullish(props) {
      var t, t' := JObj(m), JObj(m[x := v]);
      forall i | 0 <= i < |keys|
        ensures KeyMatches(t', props.value, options, keys[i]) == KeyMatches(t, props.value, options, keys[i])
      {
        assert Prop(Some(t'), keys[i]) == Prop(Some(t), keys[i]);
      }
      assert MatchFold(t', props.value, options, keys) == MatchFold(t, props.value, options, keys);
    }
  }

  /** A filter of two comma-separated names compares exactly the two trimmed names. */
  lemma FilterOfTwo(x: string, y: string)
    requires ',' !in x && ',' !in y && |x| > 0
    ensures MatchKeyList(JObj(map["filter" := JStr(x + [','] + y)])) == Ok([Trim(x), Trim(y)])
  {
    var filter := x + [','] + y;
    SplitPrefix(x, y, ',');
    SplitNoSep(y, ',');
    assert Split(filter, ',') == [x, y];
    FilterOf(map["filter" := JStr(filter)], filter);
    TrimmedTwo(x, y);
  }

  lemma FilterOf(m: map<string, Json>, filter: string)
    requires "filter" in m && m["filter"] == JStr(filter) && |filter| > 0
    ensures MatchKeyList(JObj(m)) == Ok(Trimmed(Split(filter, ',')))
  {
    PropOfObject(m, "filter");
  }

  lemma TrimmedTwo(x: string, y: string)
    ensures Trimmed([x, y]) == [Trim(x), Trim(y)]
  {
    var t := Trimmed([x, y]);
    assert |t| == 2 && t[0] == Trim(x) && t[1] == Trim(y);
  }

  lemma OwnerKeyTrimmed()
    ensures Trim("imageOwner") == "imageOwner"
  {
    var x := "imageOwner";
    assert x[0] == 'i' && x[|x| - 1] == 'r';
    TrimKeepsInner(x);
  }

  lemma NameKeyTrimmed()
    ensures Trim([' '] + "imageName") == "imageName"
  {
    var z := "imageName";
    assert z[0] == 'i' && z[|z| - 1] == 'e';
    TrimLeadingSpace(z);
  }

  /** The filter 'imageOwner, imageName' compares imageOwner and imageName. */
  lemma FilterKeysAreTrimmed()
    ensures MatchKeyList(JObj(map["filter" := JStr("imageOwner, imageName")])) == Ok(["imageOwner", "imageName"])
  {
    assert "imageOwner, imageName" == "imageOwner" + [','] + ([' '] + "imageName");
    FilterOfTwo("imageOwner", [' '] + "imageName");
    OwnerKeyTrimmed();
    NameKeyTrimmed();
  }

  /**
   * With a filter listing imageOwner and imageName (as 'imageOwner,
   * imageName' does, FilterKeysAreTrimmed), only those two fields are
   * compared; the others may differ.
   */
  lemma FilterIgnoresUnmatchedFields(resource: map<string, Json>, image: map<string, Json>, options: map<string, Json>,
                                     owner: string, name: string)
    requires MatchKeyList(JObj(options)) == Ok(["imageOwner", "imageName"])
    requires "imageOwner" !in options && "imageName" !in options
    requires "imageOwner" in resource && resource["imageOwner"] == JStr(owner)
    requires "imageName" in resource && resource["imageName"] == JStr(name)
    requires "imageOwner" in image && image["imageOwner"] == JStr(owner)
    requires "imageName" in image && image["imageName"] == JStr(name)
    ensures Match(Some(JObj(resource)), Some(JObj(image)), Some(JObj(options))) == Ok(true)
  {
    TwoKeysMatch(resource, image, options, "imageOwner", "imageName");
  }

  /** Match with exactly two compared keys, neither set in the options, holds when the target has the pattern's strings there. */
  lemma TwoKeysMatch(resource: map<string, Json>, image: map<string, Json>, options: map<string, Json>, a: string, b: string)
    requires MatchKeyList(JObj(options)) == Ok([a, b])
    requires a !in options && b !in options && a in resource && b in resource && a in image && b in image
    requires resource[a] == image[a] && resource[b] == image[b] && resource[a].JStr? && resource[b].JStr?
    ensures Match(Some(JObj(resource)), Some(JObj(image)), Some(JObj(options))) == Ok(true)
  {
    var keys := [a, b];
    SameStringMatches(resource, image, options, a);
    SameStringMatches(resource, image, options, b);
    assert keys[0] == a && keys[1] == b;
    assert MatchFold(JObj(resource), JObj(image), JObj(options), keys);
  }

  /** A key the options leave unset matches when target and pattern hold the same string there. */
  lemma SameStringMatches(resource: map<string, Json>, image: map<string, Json>, options: map<string, Json>, a: string)
    requires a !in options && a in resource && a in image && resource[a] == image[a] && resource[a].JStr?
    ensures KeyMatches(JObj(resource), JObj(image), JObj(options), a)
  {
    PropOfObject(resource, a);
    PropOfObject(image, a);
  }

  // ------------------------------------------------- container choice lemmas

  /** For a workload key, getContainer creates exactly the value getContainerSpec returns. */
  lemma WorkloadCallMatchesSpec(g: Entries)
    requires Chosen(g).Some? && ContainerCall(g).Ok?
    ensures ContainerCall(g) == Ok(Some(CreateWorkload(Chosen(g).value, Field(g, WorkloadKey(Chosen(g).value)).value)))
    ensures ContainerSpec(g) == Ok(Field(g, WorkloadKey(Chosen(g).value)))
  {
  }

  /** A manifest is created only without workload keys, for a string kind outside the filter, and the spec then exists. */
  lemma ManifestCallMatchesSpec(g: Entries, m: Json)
    requires ContainerCall(g) == Ok(Some(CreateManifest(m)))
    ensures Chosen(g).None?
    ensures Prop(Some(m), "kind").Some? && Prop(Some(m), "kind").value.JStr?
    ensures Prop(Some(m), "kind").value.s !in ManifestKindFilter
    ensures ContainerSpec(g).Ok? && ContainerSpec(g).value.Some?
  {
    assert FirstManifest(g) == Ok(Some(m));
    ManifestFoundAfterSpec(g, m);
  }

  lemma {:induction false} ManifestFoundAfterSpec(g: Entries, m: Json)
    requires FirstManifest(g) == Ok(Some(m)) && Prop(Some(m), "kind").Some? && Prop(Some(m), "kind").value.JStr?
    ensures FirstKinded(g).Ok? && FirstKinded(g).value.Some?
  {
    if |g| > 0 && IsNullish(Prop(Some(g[0].1), "kind")) && !g[0].1.JNull? && g[0].1 != m {
      ManifestFoundAfterSpec(g[1..], m);
    }
  }

  /** getContainer creates nothing iff there is no workload key and no value is null or a container manifest. */
  lemma NothingToCreate(g: Entries)
    ensures ContainerCall(g) == Ok(None)
      <==> Chosen(g).None? && forall i :: 0 <= i < |g| ==> IsContainerManifest(g[i].1) == Ok(false)
  {
    FirstManifestNone(g);
  }

  lemma {:induction false} FirstManifestNone(g: Entries)
    ensures FirstManifest(g) == Ok(None) <==> forall i :: 0 <= i < |g| ==> IsContainerManifest(g[i].1) == Ok(false)
  {
    if |g| > 0 {
      FirstManifestNone(g[1..]);
      assert forall i :: 1 <= i < |g| ==> g[i] == g[1..][i - 1];
    }
  }

  /** A group with no workload key cannot be removed: the chain fails before its services. */
  lemma WorkloadlessRemovalFails(outcome: Call -> Status, g: Entries)
    requires Chosen(g).None?
    ensures DeleteContainerStep(outcome, g) == Fail(TypeError)
    ensures AfterRoleDeleted(outcome, g) == Fail(TypeError)
  {
  }

  // ------------------------------------------------------------ chain lemmas

  /** Steps run one after another, each only when all before it resolved. */
  function Sequence(steps: seq<Trace>): Trace
  {
    if |steps| == 0 then Done else Then(steps[0], Sequence(steps[1..]))
  }

  function CallsOf(steps: seq<Trace>): seq<Call>
  {
    if |steps| == 0 then [] else steps[0].calls + CallsOf(steps[1..])
  }

  /** The first step that does not resolve settles the sequence, or leaves it hung, and no later step issues a call. */
  lemma {:induction false} SequenceStopsAtFailure(steps: seq<Trace>, j: nat)
    requires j < |steps| && !steps[j].result.Fulfilled?
    requires forall i :: 0 <= i < j ==> steps[i].result.Fulfilled?
    ensures Sequence(steps) == Trace(steps[j].result, CallsOf(steps[..j + 1]))
  {
    if j == 0 {
      assert CallsOf(steps[..1]) == steps[0].calls + CallsOf([]);
    } else {
      SequenceStopsAtFailure(steps[1..], j - 1);
      assert steps[..j + 1][1..] == steps[1..][..j];
    }
  }

  /** When every step resolves, the sequence resolves with all their calls in order. */
  lemma {:induction false} SequenceSucceeds(steps: seq<Trace>)
    requires forall i :: 0 <= i < |steps| ==> steps[i].result.Fulfilled?
    ensures Sequence(steps) == Trace(Fulfilled, CallsOf(steps))
  {
    if |steps| > 0 {
      SequenceSucceeds(steps[1..]);
    }
  }

  lemma ThenDone(t: Trace)
    ensures Then(t, Done) == t
  {
    if t.result.Fulfilled? {
      assert t.calls + [] == t.calls;
    }
  }

  /** The create chain: account, role, role binding, container, services, network policy. */
  lemma CreateChainOrder(outcome: Call -> Status, g: Entries)
    requires AccountStart(outcome, g, true).Some?
    ensures CreateChain(outcome, g) == Some(Sequence([AccountStart(outcome, g, true).value,
      CreateRoleStep(outcome, g), CreateRoleBindingStep(outcome, g), CreateContainerStep(outcome, g),
      CreateServicesStep(outcome, g), CreateNetworkPolicyStep(outcome, g)]))
  {
    var steps := [AccountStart(outcome, g, true).value,
      CreateRoleStep(outcome, g), CreateRoleBindingStep(outcome, g), CreateContainerStep(outcome, g),
      CreateServicesStep(outcome, g), CreateNetworkPolicyStep(outcome, g)];
    assert Sequence(steps[6..]) == Done;
    ThenDone(steps[5]);
    assert Sequence(steps[5..]) == steps[5] by { assert steps[5..][1..] == steps[6..]; }
    assert Sequence(steps[4..]) == AfterContainer(outcome, g) by { assert steps[4..][1..] == steps[5..]; }
    assert Sequence(steps[3..]) == AfterRoleBinding(outcome, g) by { assert steps[3..][1..] == steps[4..]; }
    assert Sequence(steps[2..]) == AfterRole(outcome, g) by { assert steps[2..][1..] == steps[3..]; }
    assert Sequence(steps[1..]) == AfterAccount(outcome, g) by { assert steps[1..][1..] == steps[2..]; }
  }

  /** The removal chain: account, role binding, role, workload, services; never the network policy. */
  lemma DeleteChainOrder(outcome: Call -> Status, g: Entries)
    requires AccountStart(outcome, g, false).Some?
    ensures DeleteChain(outcome, g) == Some(Sequence([AccountStart(outcome, g, false).value,
      DeleteRoleBindingStep(outcome, g), DeleteRoleStep(outcome, g), DeleteContainerStep(outcome, g),
      DeleteServicesStep(outcome, g)]))
  {
    var steps := [AccountStart(outcome, g, false).value,
      DeleteRoleBindingStep(outcome, g), DeleteRoleStep(outcome, g), DeleteContainerStep(outcome, g),
      DeleteServicesStep(outcome, g)];
    assert Sequence(steps[5..]) == Done;
    ThenDone(steps[4]);
    assert Sequence(steps[4..]) == steps[4] by { assert steps[4..][1..] == steps[5..]; }
    assert Sequence(steps[3..]) == AfterRoleDeleted(outcome, g) by { assert steps[3..][1..] == steps[4..]; }
    assert Sequence(steps[2..]) == AfterRoleBindingDeleted(outcome, g) by { assert steps[2..][1..] == steps[3..]; }
    assert Sequence(steps[1..]) == AfterAccountDeleted(outcome, g) by { assert steps[1..][1..] == steps[2..]; }
  }

  /** A role whose group has no role binding with metadata fails in both chains, before any call. */
  lemma RoleNeedsBinding(outcome: Call -> Status, g: Entries)
    requires Truthy(Field(g, "role")) && !Logged(Field(g, "roleBinding"))
    ensures CreateRoleStep(outcome, g) == Fail(TypeError) && DeleteRoleStep(outcome, g) == Fail(TypeError)
  {
  }

  /** deleteRole deletes the role binding object, not the role. */
  lemma DeleteRoleDeletesBinding(outcome: Call -> Status, g: Entries, role: Json, binding: Json)
    requires Field(g, "role") == Some(role) && Truthy(Some(role))
    requires Field(g, "roleBinding") == Some(binding) && HasMetadata(binding)
    ensures DeleteRoleStep(outcome, g) == Step(outcome, DeleteRole(binding))
  {
  }

  lemma FieldOfPair(a: string, x: Json, b: string, y: Json, key: string)
    ensures Field([(a, x), (b, y)], key) == if key == a then Some(x) else if key == b then Some(y) else None
  {
    var g := [(a, x), (b, y)];
    assert g[1..] == [(b, y)] && g[1..][1..] == [];
    assert Field(g[1..][1..], key) == None;
    assert Field(g[1..], key) == if key == b then Some(y) else None;
  }

  /** One service created after its log line, when every call resolves. */
  lemma OneServiceCreated(outcome: Call -> Status, service: Json)
    requires HasMetadata(service) && outcome(CreateService(service)) == Fulfilled
    ensures All(ServiceStarts(outcome, [service], true)) == Batch(false, None, false, [CreateService(service)])
  {
    var items := ServiceStarts(outcome, [service], true);
    assert items == [Some(Step(outcome, CreateService(service)))];
    assert items[..0] == [];
  }

  /** When everything resolves, a job group creates its services before and after the job. */
  lemma JobServicesTwice(outcome: Call -> Status, job: Json, service: Json)
    requires HasMetadata(job) && HasMetadata(service) && Truthy(Some(job))
    requires forall c :: outcome(c) == Fulfilled
    ensures CreateChain(outcome, [("job", job), ("services", JArr([service]))])
      == Some(Trace(Fulfilled, [CreateService(service), CreateWorkload(Job, job), CreateService(service)]))
  {
    var g := [("job", job), ("services", JArr([service]))];
    PairFields("job", job, service);
    JobChain(outcome, g, job, service);
  }

  /** A `cronJob` key (capital J) takes the normal path: its services only after the workload. */
  lemma CronJobServicesOnce(outcome: Call -> Status, cronJob: Json, service: Json)
    requires HasMetadata(cronJob) && HasMetadata(service) && Truthy(Some(cronJob))
    requires forall c :: outcome(c) == Fulfilled
    ensures CreateChain(outcome, [("cronJob", cronJob), ("services", JArr([service]))])
      == Some(Trace(Fulfilled, [CreateWorkload(CronJob, cronJob), CreateService(service)]))
  {
    var g := [("cronJob", cronJob), ("services", JArr([service]))];
    PairFields("cronJob", cronJob, service);
    CronJobChain(outcome, g, cronJob, service);
  }

  /** The keys a group of one workload and one service list does not have. */
  predicate Lacks(g: Entries, key: string)
  {
    (key == "job" || Field(g, "job") == None) && (key == "cronJob" || Field(g, "cronJob") == None)
    && Field(g, "daemonSet") == None && Field(g, "deployment") == None && Field(g, "statefulSet") == None
    && Field(g, "cronjob") == None && Field(g, "account") == None && Field(g, "role") == None
    && Field(g, "roleBinding") == None && Field(g, "networkPolicy") == None
  }

  lemma PairFields(key: string, v: Json, service: Json)
    requires key == "job" || key == "cronJob"
    ensures var g := [(key, v), ("services", JArr([service]))];
      Field(g, key) == Some(v) && Field(g, "services") == Some(JArr([service])) && Lacks(g, key)
  {
    var x := JArr([service]);
    FieldOfPair(key, v, "services", x, key);
    FieldOfPair(key, v, "services", x, "services");
    FieldOfPair(key, v, "services", x, "job");
    FieldOfPair(key, v, "services", x, "cronJob");
    FieldOfPair(key, v, "services", x, "cronjob");
    FieldOfPair(key, v, "services", x, "daemonSet");
    FieldOfPair(key, v, "services", x, "deployment");
    FieldOfPair(key, v, "services", x, "statefulSet");
    FieldOfPair(key, v, "services", x, "account");
    FieldOfPair(key, v, "services", x, "role");
    FieldOfPair(key, v, "services", x, "roleBinding");
    FieldOfPair(key, v, "services", x, "networkPolicy");
  }

  lemma JobChain(outcome: Call -> Status, g: Entries, job: Json, service: Json)
    requires Field(g, "job") == Some(job) && Field(g, "services") == Some(JArr([service])) && Lacks(g, "job")
    requires HasMetadata(job) && HasMetadata(service) && Truthy(Some(job))
    requires outcome(CreateService(service)) == Fulfilled && outcome(CreateWorkload(Job, job)) == Fulfilled
    ensures CreateChain(outcome, g)
      == Some(Trace(Fulfilled, [CreateService(service), CreateWorkload(Job, job), CreateService(service)]))
  {
    OtherStepsDone(outcome, g);
    OneServiceRun(outcome, g, service);
    var services := CreateServicesStep(outcome, g);
    var workload := Step(outcome, CreateWorkload(Job, job));
    JobContainer(outcome, g, job);
    ChainOfPair(outcome, g, services.calls + workload.calls);
    assert services.calls + workload.calls + services.calls
      == [CreateService(service), CreateWorkload(Job, job), CreateService(service)];
  }

  /** A group whose only workload key is `job` creates its services, then the job. */
  lemma JobContainer(outcome: Call -> Status, g: Entries, job: Json)
    requires Field(g, "job") == Some(job) && Lacks(g, "job")
    requires HasMetadata(job) && Truthy(Some(job)) && outcome(CreateWorkload(Job, job)) == Fulfilled
    requires CreateServicesStep(outcome, g).result.Fulfilled?
    ensures CreateContainerStep(outcome, g)
      == Trace(Fulfilled, CreateServicesStep(outcome, g).calls + [CreateWorkload(Job, job)])
  {
    assert Chosen(g) == Some(Job);
    assert ContainerCall(g) == Ok(Some(CreateWorkload(Job, job)));
  }

  lemma CronJobChain(outcome: Call -> Status, g: Entries, cronJob: Json, service: Json)
    requires Field(g, "cronJob") == Some(cronJob) && Field(g, "services") == Some(JArr([service])) && Lacks(g, "cronJob")
    requires HasMetadata(cronJob) && HasMetadata(service) && Truthy(Some(cronJob))
    requires outcome(CreateService(service)) == Fulfilled && outcome(CreateWorkload(CronJob, cronJob)) == Fulfilled
    ensures CreateChain(outcome, g) == Some(Trace(Fulfilled, [CreateWorkload(CronJob, cronJob), CreateService(service)]))
  {
    OtherStepsDone(outcome, g);
    OneServiceRun(outcome, g, service);
    CronJobContainer(outcome, g, cronJob);
    ChainOfPair(outcome, g, [CreateWorkload(CronJob, cronJob)]);
    assert [CreateWorkload(CronJob, cronJob)] + [CreateService(service)]
      == [CreateWorkload(CronJob, cronJob), CreateService(service)];
  }

  /** A group whose only workload key is `cronJob` creates that workload, without services first. */
  lemma CronJobContainer(outcome: Call -> Status, g: Entries, cronJob: Json)
    requires Field(g, "cronJob") == Some(cronJob) && Lacks(g, "cronJob")
    requires HasMetadata(cronJob) && Truthy(Some(cronJob)) && outcome(CreateWorkload(CronJob, cronJob)) == Fulfilled
    ensures CreateContainerStep(outcome, g) == Trace(Fulfilled, [CreateWorkload(CronJob, cronJob)])
  {
    assert Chosen(g) == Some(CronJob);
    assert !ServicesFirst(g);
    assert ContainerCall(g) == Ok(Some(CreateWorkload(CronJob, cronJob)));
  }

  /** Without an account, role, role binding or network policy, those steps do nothing. */
  lemma OtherStepsDone(outcome: Call -> Status, g: Entries)
    requires Field(g, "account") == None && Field(g, "role") == None
    requires Field(g, "roleBinding") == None && Field(g, "networkPolicy") == None
    ensures CreateNetworkPolicyStep(outcome, g) == Done && CreateRoleStep(outcome, g) == Done
    ensures CreateRoleBindingStep(outcome, g) == Done && AccountStart(outcome, g, true) == Some(Done)
  {
  }

  lemma OneServiceRun(outcome: Call -> Status, g: Entries, service: Json)
    requires Field(g, "services") == Some(JArr([service]))
    requires HasMetadata(service) && outcome(CreateService(service)) == Fulfilled
    ensures CreateServicesStep(outcome, g) == Trace(Fulfilled, [CreateService(service)])
  {
    OneServiceCreated(outcome, service);
  }

  /** With only a container step and services, creation issues the container's calls and then the services'. */
  lemma ChainOfPair(outcome: Call -> Status, g: Entries, first: seq<Call>)
    requires CreateContainerStep(outcome, g) == Trace(Fulfilled, first)
    requires CreateServicesStep(outcome, g).result.Fulfilled? && CreateNetworkPolicyStep(outcome, g) == Done
    requires CreateRoleStep(outcome, g) == Done && CreateRoleBindingStep(outcome, g) == Done
    requires AccountStart(outcome, g, true) == Some(Done)
    ensures CreateChain(outcome, g) == Some(Trace(Fulfilled, first + CreateServicesStep(outcome, g).calls))
  {
    var services := CreateServicesStep(outcome, g);
    assert AfterContainer(outcome, g) == Trace(Fulfilled, services.calls + []);
    assert services.calls + [] == services.calls;
    assert AfterRoleBinding(outcome, g) == Trace(Fulfilled, first + services.calls);
    assert [] + (first + services.calls) == first + services.calls;
  }

  // --------------------------------------------------- which calls are made

  predicate Every(cs: seq<Call>, p: Call -> bool)
  {
    forall i :: 0 <= i < |cs| ==> p(cs[i])
  }

  /** The calls removal may make: unreserved namespaces, reserved configuration maps, and service resources other than network policies. */
  predicate Removal(c: Call)
  {
    match c
    case DeleteNamespace(ns) => ns !in ReservedNamespaces
    case DeleteConfiguration(m) => Reserved(ConfigNamespace(m))
    case DeleteAccount(_) => true
    case DeleteRoleBinding(_) => true
    case DeleteRole(_) => true
    case DeleteWorkload(_, _, _) => true
    case DeleteService(_) => true
    case _ => false
  }

  /** The calls deployment may make: creations only. */
  predicate Creation(c: Call)
  {
    c.CreateNamespace? || c.FixNamespaceLabels? || c.CreateConfiguration? || c.CreateAccount? || c.CreateRole?
    || c.CreateRoleBinding? || c.CreateWorkload? || c.CreateManifest? || c.CreateService? || c.CreateNetworkPolicy?
  }

  lemma ThenEvery(first: Trace, next: Trace, p: Call -> bool)
    requires Every(first.calls, p) && Every(next.calls, p)
    ensures Every(Then(first, next).calls, p)
  {
  }

  lemma {:induction false} AllEvery(items: seq<Option<Trace>>, p: Call -> bool)
    requires forall i :: 0 <= i < |items| && items[i].Some? ==> Every(items[i].value.calls, p)
    ensures Every(All(items).calls, p)
  {
    if |items| > 0 {
      AllEvery(items[..|items| - 1], p);
    }
  }

  lemma ServicesEvery(outcome: Call -> Status, g: Entries, creating: bool)
    ensures Every(ServicesRun(outcome, g, creating).calls, if creating then Creation else Removal)
  {
    var services := Field(g, "services");
    if Truthy(services) && services.value.JArr? {
      AllEvery(ServiceStarts(outcome, services.value.a, creating), if creating then Creation else Removal);
    }
  }

  lemma CreateChainCreates(outcome: Call -> Status, g: Entries)
    requires CreateChain(outcome, g).Some?
    ensures Every(CreateChain(outcome, g).value.calls, Creation)
  {
    AfterRoleCreates(outcome, g);
    ThenEvery(CreateRoleStep(outcome, g), AfterRole(outcome, g), Creation);
    ThenEvery(AccountStart(outcome, g, true).value, AfterAccount(outcome, g), Creation);
  }

  lemma AfterRoleCreates(outcome: Call -> Status, g: Entries)
    ensures Every(AfterRole(outcome, g).calls, Creation)
  {
    ContainerStepCreates(outcome, g);
    ServicesEvery(outcome, g, true);
    ThenEvery(CreateServicesStep(outcome, g), CreateNetworkPolicyStep(outcome, g), Creation);
    ThenEvery(CreateContainerStep(outcome, g), AfterContainer(outcome, g), Creation);
    ThenEvery(CreateRoleBindingStep(outcome, g), AfterRoleBinding(outcome, g), Creation);
  }

  lemma ContainerStepCreates(outcome: Call -> Status, g: Entries)
    ensures Every(CreateContainerStep(outcome, g).calls, Creation)
  {
    ServicesEvery(outcome, g, true);
    var spec := ContainerSpec(g);
    if spec.Ok? {
      var call := CreateContainerCall(outcome, g, spec.value);
      ThenEvery(CreateServicesStep(outcome, g), call, Creation);
    }
  }

  lemma DeleteChainRemoves(outcome: Call -> Status, g: Entries)
    requires DeleteChain(outcome, g).Some?
    ensures Every(DeleteChain(outcome, g).value.calls, Removal)
  {
    AfterRoleBindingRemoves(outcome, g);
    ThenEvery(DeleteRoleBindingStep(outcome, g), AfterRoleBindingDeleted(outcome, g), Removal);
    ThenEvery(AccountStart(outcome, g, false).value, AfterAccountDeleted(outcome, g), Removal);
  }

  lemma AfterRoleBindingRemoves(outcome: Call -> Status, g: Entries)
    ensures Every(AfterRoleBindingDeleted(outcome, g).calls, Removal)
  {
    ServicesEvery(outcome, g, false);
    ThenEvery(DeleteContainerStep(outcome, g), DeleteServicesStep(outcome, g), Removal);
    ThenEvery(DeleteRoleStep(outcome, g), AfterRoleDeleted(outcome, g), Removal);
  }

  lemma {:induction false} CreateLevelsCreate(outcome: Call -> Status, graph: Graph, levels: seq<string>)
    ensures Every(CreateLevelsRun(outcome, graph, levels).calls, Creation)
  {
    if |levels| > 0 {
      CreateLevelsCreate(outcome, graph, levels[..|levels| - 1]);
      var level := levels[|levels| - 1];
      if level in graph.order {
        var items := CreateStarts(outcome, graph, graph.order[level]);
        forall i | 0 <= i < |items| && items[i].Some?
          ensures Every(items[i].value.calls, Creation)
        {
          CreateChainCreates(outcome, graph.services[graph.order[level][i]]);
        }
        AllEvery(items, Creation);
      }
      ThenEvery(CreateLevelsRun(outcome, graph, levels[..|levels| - 1]), CreateLevelRun(outcome, graph, level), Creation);
    }
  }

  lemma {:induction false} DeleteLevelsRemove(outcome: Call -> Status, graph: Graph, levels: seq<string>)
    ensures Every(DeleteLevelsRun(outcome, graph, levels).calls, Removal)
  {
    if |levels| > 0 {
      DeleteLevelsRemove(outcome, graph, levels[..|levels| - 1]);
      var level := levels[|levels| - 1];
      if level in graph.order {
        var items := DeleteStarts(outcome, graph, graph.order[level]);
        forall i | 0 <= i < |items| && items[i].Some?
          ensures Every(items[i].value.calls, Removal)
        {
          var name := graph.order[level][i];
          if Reserved(Field(graph.services[name], "namespace")) {
            DeleteChainRemoves(outcome, graph.services[name]);
          }
        }
        AllEvery(items, Removal);
      }
      ThenEvery(DeleteLevelsRun(outcome, graph, levels[..|levels| - 1]), DeleteLevelRun(outcome, graph, level), Removal);
    }
  }

  /** Deployment only creates. */
  lemma DeployOnlyCreates(outcome: Call -> Status, graph: Graph, levels: seq<string>)
    ensures Every(DeployRun(outcome, graph, levels).calls, Creation)
  {
    AllEvery(Steps(outcome, NamespaceCalls(graph.namespaces) + [FixNamespaceLabels]), Creation);
    AllEvery(CreateConfigStarts(outcome, graph.configuration), Creation);
    CreateLevelsCreate(outcome, graph, levels);
    FinishEvery(DeployRun(outcome, graph, levels), CreateNamespacesRun(outcome, graph.namespaces),
      All(CreateConfigStarts(outcome, graph.configuration)), CreateLevelsRun(outcome, graph, levels), Creation);
  }

  /** A run issues the calls of its stages in order, up to the stage where it stops. */
  lemma FinishEvery(f: Finish, ns: Trace, cfg: Batch, lv: Trace, p: Call -> bool)
    requires f.calls == ns.calls || f.calls == ns.calls + cfg.calls || f.calls == ns.calls + cfg.calls + lv.calls
    requires Every(ns.calls, p) && Every(cfg.calls, p) && Every(lv.calls, p)
    ensures Every(f.calls, p)
  {
  }

  /**
   * Removal never creates, never deletes a reserved namespace, a
   * configuration map outside the reserved namespaces or a network policy.
   */
  lemma RemoveOnlyRemoves(outcome: Call -> Status, graph: Graph, levels: seq<string>)
    ensures Every(RemoveRun(outcome, graph, levels).calls, Removal)
  {
    var kept := Unreserved(graph.namespaces);
    var steps := Steps(outcome, DeleteNamespaceCalls(kept));
    forall i | 0 <= i < |steps| && steps[i].Some?
      ensures Every(steps[i].value.calls, Removal)
    {
      assert kept[i] in kept;
    }
    AllEvery(steps, Removal);
    AllEvery(DeleteConfigStarts(outcome, graph.configuration), Removal);
    DeleteLevelsRemove(outcome, graph, Reversed(levels));
    FinishEvery(RemoveRun(outcome, graph, levels), DeleteNamespacesRun(outcome, graph.namespaces),
      All(DeleteConfigStarts(outcome, graph.configuration)), DeleteLevelsRun(outcome, graph, Reversed(levels)), Removal);
  }

  /** A level whose services all live outside the reserved namespaces is skipped by removal. */
  lemma UnreservedLevelUntouched(outcome: Call -> Status, graph: Graph, level: string)
    requires level in graph.order
    requires forall n :: n in graph.order[level] ==> n in graph.services && !Reserved(Field(graph.services[n], "namespace"))
    ensures DeleteLevelRun(outcome, graph, level) == Done
  {
    var items := DeleteStarts(outcome, graph, graph.order[level]);
    assert forall i :: 0 <= i < |items| ==> items[i] == Some(Done);
    AllDone(items);
  }

  lemma {:induction false} AllDone(items: seq<Option<Trace>>)
    requires forall i :: 0 <= i < |items| ==> items[i] == Some(Done)
    ensures All(items) == Batch(false, None, false, [])
  {
    if |items| > 0 {
      AllDone(items[..|items| - 1]);
    }
  }

  // ----------------------------------------------------------- stage lemmas

  /** Calls started together are all issued, whatever their outcomes. */
  lemma {:induction false} AllStepsIssued(outcome: Call -> Status, cs: seq<Call>)
    ensures !All(Steps(outcome, cs)).threw && All(Steps(outcome, cs)).calls == cs
    ensures All(Steps(outcome, cs)).failure.None? <==> forall i :: 0 <= i < |cs| ==> !Settle(outcome, cs[i]).Failed?
    ensures All(Steps(outcome, cs)).hung <==> exists i :: 0 <= i < |cs| && Settle(outcome, cs[i]).Pending?
  {
    if |cs| > 0 {
      var n := |cs|;
      assert Steps(outcome, cs)[..n - 1] == Steps(outcome, cs[..n - 1]);
      AllStepsIssued(outcome, cs[..n - 1]);
      assert cs[..n - 1] + [cs[n - 1]] == cs;
    }
  }

  /**
   * Deployment always starts every namespace and fixNamespaceLabels. A
   * failed namespace rejects (no exit); otherwise one that never settles
   * leaves deployment hung; exit code 100 follows only after the namespaces
   * succeeded.
   */
  lemma DeployStages(outcome: Call -> Status, graph: Graph, levels: seq<string>)
    ensures var d := DeployRun(outcome, graph, levels);
      var first := NamespaceCalls(graph.namespaces) + [FixNamespaceLabels];
      Extends(first, d.calls)
      && ((exists i :: 0 <= i < |first| && outcome(first[i]).Failed?) ==> d.outcome.Rejected? && d.calls == first)
      && ((forall i :: 0 <= i < |first| ==> !outcome(first[i]).Failed?) && (exists i :: 0 <= i < |first| && outcome(first[i]).Pending?)
          ==> d.outcome.Hung? && d.calls == first)
      && (d.outcome.Exited? ==> d.outcome.code == ExitCode && forall i :: 0 <= i < |first| ==> outcome(first[i]) == Fulfilled)
  {
    var first := NamespaceCalls(graph.namespaces) + [FixNamespaceLabels];
    AllStepsIssued(outcome, first);
  }

  /** Levels run strictly in order: the run of `a + b` is the run of `a`, then, if it resolved, that of `b`. */
  lemma {:induction false} CreateLevelsAppend(outcome: Call -> Status, graph: Graph, a: seq<string>, b: seq<string>)
    ensures CreateLevelsRun(outcome, graph, a + b) == Then(CreateLevelsRun(outcome, graph, a), CreateLevelsRun(outcome, graph, b))
    decreases |b|
  {
    if |b| == 0 {
      assert a + b == a;
    } else {
      var n := |b|;
      assert (a + b)[..|a + b| - 1] == a + b[..n - 1];
      assert (a + b)[|a + b| - 1] == b[n - 1];
      CreateLevelsAppend(outcome, graph, a, b[..n - 1]);
      ThenAssoc(CreateLevelsRun(outcome, graph, a), CreateLevelsRun(outcome, graph, b[..n - 1]),
                CreateLevelRun(outcome, graph, b[n - 1]));
    }
  }

  lemma ThenAssoc(x: Trace, y: Trace, z: Trace)
    ensures Then(Then(x, y), z) == Then(x, Then(y, z))
  {
  }

  /** Array reversal undoes itself: a second removal walks the levels in the original order again. */
  lemma ReversedTwice(s: seq<string>)
    ensures Reversed(Reversed(s)) == s
  {
  }
}

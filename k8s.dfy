/**
 * The controller facade (src/k8s/index.js): the table of operations it
 * exports from the per-kind modules, and getLoadBalancers, which collects
 * the services that have load-balancer ingress points, in one namespace or
 * across all of them.
 */
module K8s {
  import opened Wrappers
  import opened Json

  // ------------------------------------------------------- load balancers

  const TypeError: string := "TypeError"

  /**
   * `(service.status.loadBalancer || {})` has a non-empty `ingress` list;
   * a service without a status throws.
   */
  function HasIngress(service: Json): Result<bool>
  {
    var status := Prop(Some(service), "status");
    if IsNullish(status) then Err(TypeError)
    else
      var ingress := Prop(OrEmpty(Prop(status, "loadBalancer")), "ingress");
      Ok(Truthy(ingress) && Truthy(Prop(ingress, "length")))
  }

  /** getLoadBalancers with a namespace over the listed services, as the reduce builds it left to right. */
  function LoadBalancersIn(items: seq<Json>): (r: Result<seq<Json>>)
    ensures r.Ok? ==> |r.value| <= |items|
  {
    if |items| == 0 then Ok([])
    else
      match LoadBalancersIn(items[..|items| - 1])
      case Err(e) => Err(e)
      case Ok(acc) =>
        match HasIngress(items[|items| - 1])
        case Err(e) => Err(e)
        case Ok(b) => Ok(if b then acc + [items[|items| - 1]] else acc)
  }

  /** The reduce: one pass over the services, pushing each one with ingress points. */
  method CollectLoadBalancers(items: seq<Json>) returns (r: Result<seq<Json>>)
    ensures r == LoadBalancersIn(items)
  {
    var list: seq<Json> := [];
    var i := 0;
    while i < |items|
      invariant i <= |items|
      invariant LoadBalancersIn(items[..i]) == Ok(list)
    {
      var h := HasIngress(items[i]);
      assert items[..i + 1][..i] == items[..i];
      if h.Err? {
        assert LoadBalancersIn(items[..i + 1]) == Err(h.error);
        PrefixErrorStays(items, i + 1);
        return Err(h.error);
      }
      if h.value {
        list := list + [items[i]];
      }
      i := i + 1;
    }
    assert items[..i] == items;
    r := Ok(list);
  }

  /** The services of several namespaces, one after the other. */
  function Gathered(names: seq<string>, itemsOf: map<string, seq<Json>>): seq<Json>
    requires forall n :: n in names ==> n in itemsOf
  {
    if |names| == 0 then [] else Gathered(names[..|names| - 1], itemsOf) + itemsOf[names[|names| - 1]]
  }

  /** getLoadBalancers without a namespace: each listed namespace in turn, the results flattened. */
  function AcrossNamespaces(names: seq<string>, itemsOf: map<string, seq<Json>>): Result<seq<Json>>
    requires forall n :: n in names ==> n in itemsOf
  {
    if |names| == 0 then Ok([])
    else
      match AcrossNamespaces(names[..|names| - 1], itemsOf)
      case Err(e) => Err(e)
      case Ok(acc) =>
        match LoadBalancersIn(itemsOf[names[|names| - 1]])
        case Err(e) => Err(e)
        case Ok(found) => Ok(acc + found)
  }

  /**
   * `Promise.map(names, getLoadBalancers)` then `_.flatten`. The names are
   * those of existing namespaces, so none is empty (an empty one would make
   * the call list the namespaces again).
   */
  method AllLoadBalancers(names: seq<string>, itemsOf: map<string, seq<Json>>) returns (r: Result<seq<Json>>)
    requires forall n :: n in names ==> n in itemsOf && n != ""
    ensures r == AcrossNamespaces(names, itemsOf)
  {
    var all: seq<Json> := [];
    var i := 0;
    while i < |names|
      invariant i <= |names|
      invariant AcrossNamespaces(names[..i], itemsOf) == Ok(all)
    {
      assert names[..i + 1][..i] == names[..i];
      var found := CollectLoadBalancers(itemsOf[names[i]]);
      if found.Err? {
        assert AcrossNamespaces(names[..i + 1], itemsOf) == Err(found.error);
        AcrossErrorStays(names, itemsOf, i + 1);
        return Err(found.error);
      }
      all := all + found.value;
      i := i + 1;
    }
    assert names[..i] == names;
    r := Ok(all);
  }

  // ------------------------------------------------------------------ lemmas

  lemma {:induction false} PrefixErrorStays(items: seq<Json>, n: nat)
    requires n <= |items| && LoadBalancersIn(items[..n]).Err?
    ensures LoadBalancersIn(items) == LoadBalancersIn(items[..n])
    decreases |items| - n
  {
    if n < |items| {
      assert items[..n + 1][..n] == items[..n];
      PrefixErrorStays(items, n + 1);
    } else {
      assert items[..n] == items;
    }
  }

  lemma {:induction false} AcrossErrorStays(names: seq<string>, itemsOf: map<string, seq<Json>>, n: nat)
    requires forall m :: m in names ==> m in itemsOf
    requires n <= |names| && AcrossNamespaces(names[..n], itemsOf).Err?
    ensures AcrossNamespaces(names, itemsOf) == AcrossNamespaces(names[..n], itemsOf)
    decreases |names| - n
  {
    if n < |names| {
      assert names[..n + 1][..n] == names[..n];
      AcrossErrorStays(names, itemsOf, n + 1);
    } else {
      assert names[..n] == names;
    }
  }

  /** Exactly the services with ingress points are kept, and a service without a status fails the whole list. */
  lemma {:induction false} LoadBalancersExact(items: seq<Json>)
    ensures LoadBalancersIn(items).Ok? <==> forall i :: 0 <= i < |items| ==> HasIngress(items[i]).Ok?
    ensures LoadBalancersIn(items).Ok? ==>
      forall s :: s in LoadBalancersIn(items).value <==> s in items && HasIngress(s) == Ok(true)
  {
    if |items| > 0 {
      var init := items[..|items| - 1];
      LoadBalancersExact(init);
      assert items == init + [items[|items| - 1]];
      assert forall i :: 0 <= i < |init| ==> init[i] == items[i];
    }
  }

  /** Filtering a list split in two gives the two filtered halves in order. */
  lemma {:induction false} LoadBalancersAppend(a: seq<Json>, b: seq<Json>)
    requires LoadBalancersIn(a).Ok? && LoadBalancersIn(b).Ok?
    ensures LoadBalancersIn(a + b) == Ok(LoadBalancersIn(a).value + LoadBalancersIn(b).value)
    decreases |b|
  {
    if |b| == 0 {
      assert a + b == a;
      assert LoadBalancersIn(a).value + LoadBalancersIn(b).value == LoadBalancersIn(a).value;
    } else {
      var init := b[..|b| - 1];
      assert (a + b)[..|a + b| - 1] == a + init;
      assert (a + b)[|a + b| - 1] == b[|b| - 1];
      var last := b[|b| - 1];
      assert LoadBalancersIn(init).Ok? && HasIngress(last).Ok?;
      LoadBalancersAppend(a, init);
      var kept := if HasIngress(last).value then [last] else [];
      assert LoadBalancersIn(b).value == LoadBalancersIn(init).value + kept;
      assert LoadBalancersIn(a + b).value == LoadBalancersIn(a).value + LoadBalancersIn(init).value + kept;
      assert LoadBalancersIn(a).value + LoadBalancersIn(init).value + kept
          == LoadBalancersIn(a).value + (LoadBalancersIn(init).value + kept);
    }
  }

  /** Across namespaces, the result is the filter of all their services taken in namespace order. */
  lemma {:induction false} AcrossIsFilterOfGathered(names: seq<string>, itemsOf: map<string, seq<Json>>)
    requires forall n :: n in names ==> n in itemsOf
    requires forall n :: n in names ==> LoadBalancersIn(itemsOf[n]).Ok?
    ensures AcrossNamespaces(names, itemsOf) == LoadBalancersIn(Gathered(names, itemsOf))
  {
    if |names| > 0 {
      var init := names[..|names| - 1];
      AcrossIsFilterOfGathered(init, itemsOf);
      AcrossOk(init, itemsOf);
      LoadBalancersAppend(Gathered(init, itemsOf), itemsOf[names[|names| - 1]]);
    }
  }

  lemma {:induction false} AcrossOk(names: seq<string>, itemsOf: map<string, seq<Json>>)
    requires forall n :: n in names ==> n in itemsOf
    requires forall n :: n in names ==> LoadBalancersIn(itemsOf[n]).Ok?
    ensures AcrossNamespaces(names, itemsOf).Ok? && LoadBalancersIn(Gathered(names, itemsOf)).Ok?
  {
    if |names| > 0 {
      var init := names[..|names| - 1];
      AcrossOk(init, itemsOf);
      LoadBalancersAppend(Gathered(init, itemsOf), itemsOf[names[|names| - 1]]);
    }
  }

  /** A missing loadBalancer counts as `{}`: such a service is left out, not an error. */
  lemma MissingLoadBalancerExcluded(service: Json)
    requires service.JObj? && "status" in service.m && service.m["status"].JObj?
    requires "loadBalancer" !in service.m["status"].m
    ensures HasIngress(service) == Ok(false)
  {
  }

  // ------------------------------------------------------- exported table

  /** The controller modules of the repository, one per kind under src/k8s. */
  datatype Module =
    | AccountModule | ConfigurationModule | CronJobModule | DaemonSetModule | DeploymentModule | JobModule
    | ManifestModule | NamespaceModule | NetworkPolicyModule | RoleModule | RoleBindingModule | SecretModule
    | ServiceModule | StatefulSetModule

  datatype Op = Create | Delete | List | Replace | Update | GetByNamespace | Upgrade | Get | Patch

  /** The operations each controller module exports. */
  function ModuleOps(m: Module): set<Op>
  {
    match m
    case AccountModule => {Create, Delete, List, Replace, Update}
    case ConfigurationModule => {Create, Delete, List, Replace, Update}
    case CronJobModule => {Create, Delete, List, Replace, Update}
    case DaemonSetModule => {Create, Delete, GetByNamespace, List, Replace, Update}
    case DeploymentModule => {Create, Delete, GetByNamespace, List, Replace, Update, Upgrade}
    case JobModule => {Create, Delete, List, Replace, Update}
    case ManifestModule => {Create, Delete, List, Replace, Update}
    case NamespaceModule => {Create, Delete, Get, List}
    case NetworkPolicyModule => {Create, Delete, GetByNamespace, List, Replace, Update}
    case RoleModule => {Create, Delete, List}
    case RoleBindingModule => {Create, Delete, List}
    case SecretModule => {Create, Delete, List, Replace, Update}
    case ServiceModule => {Create, Delete, List, Replace, Update}
    case StatefulSetModule => {Create, Delete, GetByNamespace, List, Replace, Update, Upgrade}
  }

  /** What an exported name is bound to: an operation of one controller module, or the facade's own members. */
  datatype Binding = Member(owner: Module, op: Op) | Client | LoadBalancers

  /** The exported names, in the order they are listed, with what each is bound to. */
  const Exports: seq<(string, Binding)> :=
    [("client", Client)] + AccountExports + ConfigurationExports + CronJobExports + DaemonSetExports
    + DeploymentExports + JobExports + NamespaceExports + RoleBindingExports + ServiceExports
    + StatefulSetExports + [("getLoadBalancers", LoadBalancers)]

  const AccountExports: seq<(string, Binding)> := [
    ("createAccount", Member(AccountModule, Create)),
    ("deleteAccount", Member(AccountModule, Delete)),
    ("listAccounts", Member(AccountModule, List))]

  const ConfigurationExports: seq<(string, Binding)> := [
    ("createConfiguration", Member(ConfigurationModule, Create)),
    ("deleteConfiguration", Member(ConfigurationModule, Delete)),
    ("listConfigurations", Member(ConfigurationModule, List)),
    ("replaceConfiguration", Member(ConfigurationModule, Replace)),
    ("updateConfiguration", Member(ConfigurationModule, Update))]

  const CronJobExports: seq<(string, Binding)> := [
    ("createCronJob", Member(CronJobModule, Create)),
    ("deleteCronJob", Member(CronJobModule, Delete)),
    ("listCronJobs", Member(CronJobModule, List)),
    ("updateCronJob", Member(CronJobModule, Update))]

  const DaemonSetExports: seq<(string, Binding)> := [
    ("createDaemonSet", Member(DaemonSetModule, Create)),
    ("deleteDaemonSet", Member(DaemonSetModule, Delete)),
    ("getDaemonSetsByNamespace", Member(DaemonSetModule, GetByNamespace)),
    ("listDaemonSets", Member(DaemonSetModule, List)),
    ("patchDaemonSet", Member(DaemonSetModule, Patch)),
    ("updateDaemonSet", Member(DaemonSetModule, Update))]

  const DeploymentExports: seq<(string, Binding)> := [
    ("createDeployment", Member(DeploymentModule, Create)),
    ("deleteDeployment", Member(DeploymentModule, Delete)),
    ("getDeploymentsByNamespace", Member(DeploymentModule, GetByNamespace)),
    ("listDeployments", Member(DeploymentModule, List)),
    ("updateDeployment", Member(DeploymentModule, Update)),
    ("upgradeDeployment", Member(DeploymentModule, Upgrade))]

  const JobExports: seq<(string, Binding)> := [
    ("createJob", Member(JobModule, Create)),
    ("deleteJob", Member(JobModule, Delete)),
    ("listJobs", Member(JobModule, List)),
    ("updateJob", Member(JobModule, Update))]

  const NamespaceExports: seq<(string, Binding)> := [
    ("createNamespace", Member(NamespaceModule, Create)),
    ("deleteNamespace", Member(NamespaceModule, Delete)),
    ("listNamespaces", Member(NamespaceModule, List))]

  const RoleBindingExports: seq<(string, Binding)> := [
    ("createRoleBinding", Member(RoleBindingModule, Create)),
    ("deleteRoleBinding", Member(RoleBindingModule, Delete)),
    ("listRoleBindings", Member(RoleBindingModule, List))]

  const ServiceExports: seq<(string, Binding)> := [
    ("createService", Member(ServiceModule, Create)),
    ("deleteService", Member(ServiceModule, Delete)),
    ("listServices", Member(ServiceModule, List)),
    ("updateService", Member(ServiceModule, Update))]

  const StatefulSetExports: seq<(string, Binding)> := [
    ("createStatefulSet", Member(StatefulSetModule, Create)),
    ("deleteStatefulSet", Member(StatefulSetModule, Delete)),
    ("getStatefulSetsByNamespace", Member(StatefulSetModule, GetByNamespace)),
    ("listStatefulSets", Member(StatefulSetModule, List)),
    ("upgradeStatefulSet", Member(StatefulSetModule, Upgrade)),
    ("updateStatefulSet", Member(StatefulSetModule, Update))]

  /** The binding refers to a function (and not to `undefined`). */
  predicate Callable(b: Binding)
  {
    b.Member? ==> b.op in ModuleOps(b.owner)
  }

  /**
   * Every binding is callable except daemonSet's `patch`, which that module
   * does not have, and none is to the role, network-policy, manifest or
   * secret modules.
   */
  predicate WellWired(b: Binding)
  {
    (!Callable(b) <==> b == Member(DaemonSetModule, Patch))
    && (b.Member? ==> b.owner !in {RoleModule, NetworkPolicyModule, ManifestModule, SecretModule})
  }

  predicate AllWired(t: seq<(string, Binding)>)
  {
    forall i :: 0 <= i < |t| ==> WellWired(t[i].1)
  }

  lemma AllWiredAppend(a: seq<(string, Binding)>, b: seq<(string, Binding)>)
    requires AllWired(a) && AllWired(b)
    ensures AllWired(a + b)
  {
    forall i | 0 <= i < |a + b|
      ensures WellWired((a + b)[i].1)
    {
      if i >= |a| {
        assert (a + b)[i] == b[i - |a|];
      }
    }
  }

  lemma AccountExportsWired()
    ensures AllWired(AccountExports)
  {
  }

  lemma ConfigurationExportsWired()
    ensures AllWired(ConfigurationExports)
  {
  }

  lemma CronJobExportsWired()
    ensures AllWired(CronJobExports)
  {
  }

  lemma DaemonSetExportsWired()
    ensures AllWired(DaemonSetExports)
  {
  }

  lemma DeploymentExportsWired()
    ensures AllWired(DeploymentExports)
  {
  }

  lemma JobExportsWired()
    ensures AllWired(JobExports)
  {
  }

  lemma NamespaceExportsWired()
    ensures AllWired(NamespaceExports)
  {
  }

  lemma RoleBindingExportsWired()
    ensures AllWired(RoleBindingExports)
  {
  }

  lemma ServiceExportsWired()
    ensures AllWired(ServiceExports)
  {
  }

  lemma StatefulSetExportsWired()
    ensures AllWired(StatefulSetExports)
  {
  }

  /**
   * The only export that is `undefined` is patchDaemonSet, and the facade
   * exports nothing from the role, network-policy, manifest or secret
   * modules (so createRole, createNetworkPolicy and createManifest are not
   * reachable through it).
   */
  lemma ExportsWellWired()
    ensures AllWired(Exports)
    ensures ("patchDaemonSet", Member(DaemonSetModule, Patch)) in Exports
  {
    var t: seq<(string, Binding)> := [("client", Client)];
    assert AllWired(t);
    AccountExportsWired();
    AllWiredAppend(t, AccountExports);
    t := t + AccountExports;
    ConfigurationExportsWired();
    AllWiredAppend(t, ConfigurationExports);
    t := t + ConfigurationExports;
    CronJobExportsWired();
    AllWiredAppend(t, CronJobExports);
    t := t + CronJobExports;
    DaemonSetExportsWired();
    AllWiredAppend(t, DaemonSetExports);
    t := t + DaemonSetExports;
    DeploymentExportsWired();
    AllWiredAppend(t, DeploymentExports);
    t := t + DeploymentExports;
    JobExportsWired();
    AllWiredAppend(t, JobExports);
    t := t + JobExports;
    NamespaceExportsWired();
    AllWiredAppend(t, NamespaceExports);
    t := t + NamespaceExports;
    RoleBindingExportsWired();
    AllWiredAppend(t, RoleBindingExports);
    t := t + RoleBindingExports;
    ServiceExportsWired();
    AllWiredAppend(t, ServiceExports);
    t := t + ServiceExports;
    StatefulSetExportsWired();
    AllWiredAppend(t, StatefulSetExports);
    t := t + StatefulSetExports;
    AllWiredAppend(t, [("getLoadBalancers", LoadBalancers)]);
    assert t + [("getLoadBalancers", LoadBalancers)] == Exports;
    assert DaemonSetExports[4] == ("patchDaemonSet", Member(DaemonSetModule, Patch));
  }
}

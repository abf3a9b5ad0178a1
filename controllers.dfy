/**
 * The per-kind resource controllers (src/k8s/*.js). Each one reads the
 * live object; a missing one is created, an existing one is compared with
 * the desired manifest and then left alone, patched with the diff, replaced,
 * or deleted and created again; deletes read first and do nothing when the
 * object is gone. After a successful call most controllers wait for the
 * object to settle by polling it (module Readiness).
 *
 * The controllers share that shape and differ in their data: a `Profile`
 * per kind says which decision rule applies, what each call waits for and
 * how errors are worded, and a `Target` says where the object lives. The
 * pure functions (`ApplyEffect`, `RemoveEffect`, `UpgradeEffect`) give the
 * outcome, the objects left in the store, the requests sent and the number
 * of poll observations used; the methods run the same steps against a
 * `Platform.Store` and are proved equal to those functions.
 */
module Controllers {
  import opened Wrappers
  import opened Strings
  import opened Json
  import opened SpecDiff
  import opened Readiness
  import opened Platform
  import opened Resources

  datatype Resource =
    | DeploymentRes | StatefulSetRes | DaemonSetRes | JobRes | CronJobRes | ServiceRes
    | NetworkPolicyRes | ManifestRes | NamespaceRes | AccountRes | RoleRes | RoleBindingRes
    | ConfigurationRes | SecretRes

  /**
   * How a controller's returned promise ends: resolved, rejected with a
   * message, still polling when the observations ran out, or never settling
   * (an exception escaped into a callback whose promise nobody handles).
   * Throws is the error the call itself raises before it returns a promise.
   */
  datatype Outcome = Resolves | Rejects(message: string) | Unsettled | Hangs | Throws(error: string)

  /**
   * The decision taken on a non-empty diff.
   * PatchOrReplace: canPatch → patch with the diff, else replace with the manifest.
   * PatchOrUpdateDiff: canPatch → patch with the diff, else replace with the diff.
   * ThreeWay(t, backoff): canPatch(diff, t) (or, with backoff, isBackoffOnly)
   *   → patch; else canReplace(diff, t) → replace; else delete and create.
   * AlwaysPatch: patch with the diff. KeepExisting: never diff at all.
   */
  datatype Strategy =
    | PatchOrReplace
    | PatchOrUpdateDiff
    | ThreeWay(t: Option<string>, backoff: bool)
    | AlwaysPatch
    | KeepExisting

  /** What follows a successful call: nothing, a readiness wait, or a check that throws. */
  datatype After = Done | Watch(kind: Kind, outcome: string, hasReject: bool) | CheckThrows

  datatype Profile = Profile(
    strategy: Strategy,
    onCreate: After,
    onChange: After,
    onDelete: After,
    onUpgrade: After,
    createLabel: string,
    label: string,
    deleteLabel: Option<string>,   // None: the kind of the object read back
    patchWord: string,
    settlesOnThrow: bool,          // a throwing diff rejects the promise instead of losing it
    wrapsDeleteError: bool)

  /** Where the object lives, how messages name it, and how the create error starts. */
  datatype Target = Target(key: Key, subject: string, createPrefix: string)

  datatype Action = Keep | PatchWith(diff: Json) | ReplaceWith(body: Json) | Recreate | DiffThrows

  datatype Effect = Effect(outcome: Outcome, objects: map<Key, Json>, requests: seq<Request>, used: nat)

  datatype Followed = Followed(outcome: Outcome, used: nat)

  /** A TypeError, from reading a property of null or undefined or calling what is not a function. */
  const TypeError: string := "TypeError"

  /** The message of the TypeError a throwing diff raises. */
  const DiffFailure: string := TypeError

  // ------------------------------------------------------------- profiles

  function ProfileOf(r: Resource): Profile
  {
    match r
    case DeploymentRes =>
      Profile(PatchOrReplace, Watch(Deployment, "creation", false), Watch(Deployment, "updated", false),
        Watch(Deployment, "deletion", false), Watch(Deployment, "updated", false),
        "Deployment", "Deployment", Some("Deployment"), "update", false, true)
    case StatefulSetRes =>
      Profile(ThreeWay(None, false), Watch(StatefulSet, "creation", false), Watch(StatefulSet, "updated", false),
        Watch(StatefulSet, "deletion", false), Watch(StatefulSet, "update", false),
        "StatefulSet", "StatefulSet", Some("StatefulSet"), "update", false, true)
    case DaemonSetRes =>
      Profile(ThreeWay(None, false), Watch(DaemonSet, "creation", false), Watch(DaemonSet, "update", false),
        Watch(DaemonSet, "deletion", false), Watch(DaemonSet, "update", false),
        "DaemonSet", "DaemonSet", Some("DaemonSet"), "patch", false, true)
    case JobRes =>
      Profile(ThreeWay(Some("job"), true), Watch(Job, "completion", true), Watch(Job, "updated", false),
        Watch(Job, "deletion", false), Done,
        " Job", "Job", Some("Job"), "update", false, true)
    case CronJobRes =>
      Profile(ThreeWay(Some("job"), true), Watch(CronJob, "completion", true), Watch(CronJob, "updated", false),
        Watch(CronJob, "deletion", false), Done,
        "Cron Job", "CronJob", Some("Job"), "update", false, true)
    case ServiceRes =>
      Profile(ThreeWay(None, false), Watch(Service, "creation", false), Watch(Service, "update", false),
        Watch(Service, "deletion", false), Done,
        "Service", "Service", Some("Service"), "update", false, true)
    case NetworkPolicyRes =>
      Profile(ThreeWay(None, false), Done, Done, Done, Done,
        "NetworkPolicy", "NetworkPolicy", Some("NetworkPolicy"), "patch", false, true)
    case ManifestRes =>
      Profile(ThreeWay(None, false), CheckThrows, CheckThrows, CheckThrows, Done,
        "Manifest", "Manifest", Some("Manifest"), "update", false, true)
    case NamespaceRes =>
      Profile(KeepExisting, Done, Done, Watch(Namespace, "deletion", false), Done,
        "Namespace", "Namespace", Some("Namespace"), "update", true, true)
    case AccountRes =>
      Profile(PatchOrUpdateDiff, Done, Done, Done, Done,
        "Service account", "Account", Some("Account"), "update", true, true)
    case RoleRes =>
      Profile(KeepExisting, Done, Done, Done, Done, "", "", None, "update", true, true)
    case RoleBindingRes =>
      Profile(KeepExisting, Done, Done, Done, Done, "", "", None, "update", true, true)
    case ConfigurationRes =>
      Profile(AlwaysPatch, Done, Done, Done, Done,
        "Configuration map", "Configuration map", None, "update", true, false)
    case SecretRes =>
      Profile(AlwaysPatch, Done, Done, Done, Done,
        "Secret map", "Secret", None, "update", true, false)
  }

  /** The kinds with an image upgrade operation. */
  predicate Upgradable(r: Resource)
  {
    r == DeploymentRes || r == StatefulSetRes || r == DaemonSetRes || r == NetworkPolicyRes
  }

  // -------------------------------------------------------------- routing

  /** `GROUPS[client.version]`: an API group per client version, undefined for any other version. */
  function Lookup(table: map<string, string>, version: string): Option<string>
  {
    if version in table then Some(table[version]) else None
  }

  const StatefulSetGroups: map<string, string> := map[
    "1.4" := "apps/v1beta1", "1.5" := "apps/v1beta1", "1.6" := "apps/v1beta1",
    "1.7" := "apps/v1beta1", "1.8" := "apps/v1beta2"]

  const DaemonSetGroups: map<string, string> := map[
    "1.4" := "extensions/v1beta1", "1.5" := "extensions/v1beta1", "1.6" := "extensions/v1beta1",
    "1.7" := "extensions/v1beta1", "1.8" := "apps/v1beta2"]

  const CronJobGroups: map<string, string> := map["1.7" := "batch/v2alpha1", "1.8" := "batch/v1beta1"]

  const NetworkPolicyGroups: map<string, string> := map[
    "1.4" := "networking.k8s.io/v1", "1.5" := "networking.k8s.io/v1", "1.6" := "networking.k8s.io/v1",
    "1.7" := "networking.k8s.io/v1", "1.8" := "networking.k8s.io/v1"]

  const RbacGroups: map<string, string> := map[
    "1.6" := "rbac.authorization.k8s.io/v1beta1", "1.7" := "rbac.authorization.k8s.io/v1beta1",
    "1.8" := "rbac.authorization.k8s.io/v1"]

  /** The API a kind is served from; a manifest names its own in `apiVersion`. */
  function ApiOf(r: Resource, version: string, apiVersion: JsVal): Api
  {
    match r
    case DeploymentRes => Group(Some("apps"))
    case StatefulSetRes => Group(Lookup(StatefulSetGroups, version))
    case DaemonSetRes => Group(Lookup(DaemonSetGroups, version))
    case JobRes => Group(Some("batch"))
    case CronJobRes => Group(Lookup(CronJobGroups, version))
    case NetworkPolicyRes => Group(Lookup(NetworkPolicyGroups, version))
    case ManifestRes => Group(if apiVersion.Some? then Some(ToStr(apiVersion)) else None)
    case RoleRes => Group(Lookup(RbacGroups, version))
    case RoleBindingRes => Group(Lookup(RbacGroups, version))
    case _ => Core
  }

  /** The resource collection; a manifest uses its lower-cased kind. */
  function Collection(r: Resource, cluster: bool, kind: string): string
  {
    match r
    case DeploymentRes => "deployments"
    case StatefulSetRes => "statefulsets"
    case DaemonSetRes => "daemonsets"
    case JobRes => "jobs"
    case CronJobRes => "cronjobs"
    case ServiceRes => "services"
    case NetworkPolicyRes => "networkpolicies"
    case ManifestRes => Lower(kind)
    case NamespaceRes => "namespaces"
    case AccountRes => "serviceaccounts"
    case RoleRes => if cluster then "clusterroles" else "roles"
    case RoleBindingRes => if cluster then "clusterrolebindings" else "rolebindings"
    case ConfigurationRes => "configmaps"
    case SecretRes => "secrets"
  }

  /** The manifest has a `metadata` object to read namespace and name from. */
  predicate HasMetadata(spec: Json)
  {
    spec.JObj? && "metadata" in spec.m && !spec.m["metadata"].JNull?
  }

  function Meta(spec: Json, field: string): JsVal
    requires HasMetadata(spec)
  {
    Prop(Some(spec.m["metadata"]), field)
  }

  function KindOf(spec: Json): JsVal { Prop(Some(spec), "kind") }

  /** The manifest can be routed: it has metadata, and a manifest of any kind has a string kind to lower-case. */
  predicate Routable(r: Resource, spec: Json)
  {
    HasMetadata(spec) && (r == ManifestRes ==> KindOf(spec).Some? && KindOf(spec).value.JStr?)
  }

  /** `metadata.namespace || 'default'`. */
  function DefaultNamespace(spec: Json): string
    requires HasMetadata(spec)
  {
    if Truthy(Meta(spec, "namespace")) then ToStr(Meta(spec, "namespace")) else "default"
  }

  /** A role or binding of the cluster kind lives outside any namespace. */
  predicate ClusterScoped(r: Resource, spec: Json)
  {
    (r == RoleRes && StrictEq(KindOf(spec), Str("ClusterRole")))
    || (r == RoleBindingRes && StrictEq(KindOf(spec), Str("ClusterRoleBinding")))
  }

  /** Where a create call for the manifest goes, and how its messages name it. */
  function TargetOf(r: Resource, version: string, spec: Json): (t: Target)
    requires Routable(r, spec)
  {
    var name := ToStr(Meta(spec, "name"));
    var raw := Meta(spec, "namespace");
    var ns := if r == ConfigurationRes || r == SecretRes then ToStr(raw) else DefaultNamespace(spec);
    var cluster := ClusterScoped(r, spec);
    var kind := if r == ManifestRes then KindOf(spec).value.s else "";
    var key := Key(ApiOf(r, version, Prop(Some(spec), "apiVersion")),
      if r == NamespaceRes || cluster then None else Some(ns), Collection(r, cluster, kind), name);
    var subject := if r == NamespaceRes then name else ns + "." + name;
    var prefix :=
      if r == RoleRes || r == RoleBindingRes then ToStr(KindOf(spec)) + " '" + ToStr(raw) + "." + name + "'"
      else ProfileOf(r).createLabel + " '" + subject + "'";
    Target(key, subject, prefix)
  }

  /**
   * Where a delete or upgrade by namespace and name goes. Roles and
   * bindings with an empty namespace are the cluster-scoped kind.
   */
  function NamedTarget(r: Resource, version: string, namespace: string, name: string): (t: Target)
    requires r != ManifestRes
  {
    var cluster := (r == RoleRes || r == RoleBindingRes) && namespace == "";
    var key := Key(ApiOf(r, version, None), if r == NamespaceRes || cluster then None else Some(namespace),
      Collection(r, cluster, ""), name);
    Target(key, if r == NamespaceRes then name else namespace + "." + name, "")
  }

  // ------------------------------------------------------------- messages

  function CreateError(t: Target): string { t.createPrefix + " failed to create:\n\t" }

  function PatchError(p: Profile, t: Target): string
  {
    p.label + " '" + t.subject + "' failed to " + p.patchWord + ":\n\t"
  }

  function ReplaceError(p: Profile, t: Target): string { p.label + " '" + t.subject + "' failed to replace:\n\t" }

  function UpgradeError(p: Profile, t: Target): string { p.label + " '" + t.subject + "' failed to upgrade:\n\t" }

  /** The delete error, worded with the kind of the object read back when the profile names none. */
  function DeleteError(p: Profile, t: Target, loaded: Json): string
  {
    if !p.wrapsDeleteError then ""
    else
      var label := if p.deleteLabel.Some? then p.deleteLabel.value else ToStr(KindOf(loaded));
      label + " '" + t.subject + "' could not be deleted:\n\t"
  }

  /** The start of the rejection a failed job raises while it is awaited. */
  function CompletionFailure(p: Profile, t: Target): string
  {
    p.label + " '" + t.subject + "' failed to complete with status: "
  }

  // ------------------------------------------------------------- decision

  /** What the controller does with an existing object, given the live and the desired documents. */
  function Decide(s: Strategy, live: Json, spec: Json): Action
    requires spec.JObj?
  {
    if s == KeepExisting then Keep
    else
      match SimpleDiff(Some(live), spec, None)
      case Crash => DiffThrows
      case Undefined => Keep
      case Value(d) =>
        if IsEmpty(Some(d)) then Keep
        else
          match s
          case PatchOrReplace => if CanPatch(d, None) then PatchWith(d) else ReplaceWith(spec)
          case PatchOrUpdateDiff => if CanPatch(d, None) then PatchWith(d) else ReplaceWith(d)
          case AlwaysPatch => PatchWith(d)
          case ThreeWay(t, backoff) =>
            if CanPatch(d, t) || (backoff && IsBackoffOnly(d, spec)) then PatchWith(d)
            else if CanReplace(d, t) then ReplaceWith(spec)
            else Recreate
  }

  // -------------------------------------------------------------- effects

  function OutcomeOf(s: Settled, failure: string): Outcome
  {
    match s
    case Resolved => Resolves
    case Rejected => Rejects(failure)
    case Stalled => Hangs
    case Pending => Unsettled
  }

  /** What follows a successful call, over the observations the wait would make. */
  function Follow(a: After, failure: string, feed: seq<Observation>): (f: Followed)
    ensures f.used <= |feed|
  {
    match a
    case Done => Followed(Resolves, 0)
    case CheckThrows => Followed(Hangs, 0)
    case Watch(kind, outcome, hasReject) =>
      var p := Poll(kind, outcome, hasReject, feed);
      Followed(OutcomeOf(p.settled, failure), p.used)
  }

  /** One call: a failure rejects with the wrapped message, a success goes on to what follows it. */
  function Send(objects: map<Key, Json>, refused: map<Call, string>, req: Request, error: string,
                a: After, failure: string, feed: seq<Observation>): (e: Effect)
    ensures e.requests == [req] && e.used <= |feed|
    ensures e.objects == Serve(objects, refused, req).objects
  {
    var reply := Serve(objects, refused, req);
    if reply.result.Err? then Effect(Rejects(error + reply.result.error), reply.objects, [req], 0)
    else
      var f := Follow(a, failure, feed);
      Effect(f.outcome, reply.objects, [req], f.used)
  }

  /** The first effect's calls, then the second's; the second's outcome. */
  function Then(first: Effect, second: Effect): Effect
  {
    Effect(second.outcome, second.objects, first.requests + second.requests, first.used + second.used)
  }

  function CreateEffect(p: Profile, t: Target, spec: Json, objects: map<Key, Json>, refused: map<Call, string>,
                        feed: seq<Observation>): (e: Effect)
    ensures e.used <= |feed|
  {
    Send(objects, refused, CreateReq(t.key, spec), CreateError(t), p.onCreate, CompletionFailure(p, t), feed)
  }

  /** deleteX: read the object; when it is there, delete it and wait for what follows a delete. */
  function RemoveEffect(p: Profile, t: Target, objects: map<Key, Json>, refused: map<Call, string>,
                        feed: seq<Observation>): (e: Effect)
    ensures e.used <= |feed|
  {
    var got := Serve(objects, refused, GetReq(t.key));
    var read := Effect(Resolves, objects, [GetReq(t.key)], 0);
    if got.result.Err? then read
    else Then(read, Send(objects, refused, DeleteReq(t.key), DeleteError(p, t, got.result.value), p.onDelete,
      CompletionFailure(p, t), feed))
  }

  /** What happens to an object that exists, once the diff has been decided. */
  function ChangeEffect(p: Profile, t: Target, live: Json, spec: Json, objects: map<Key, Json>,
                        refused: map<Call, string>, feed: seq<Observation>): (e: Effect)
    requires spec.JObj?
    ensures e.used <= |feed|
  {
    match Decide(p.strategy, live, spec)
    case Keep => Effect(Resolves, objects, [], 0)
    case DiffThrows => Effect(if p.settlesOnThrow then Rejects(DiffFailure) else Hangs, objects, [], 0)
    case PatchWith(d) =>
      Send(objects, refused, PatchReq(t.key, d), PatchError(p, t), p.onChange, CompletionFailure(p, t), feed)
    case ReplaceWith(b) =>
      Send(objects, refused, UpdateReq(t.key, b), ReplaceError(p, t), p.onChange, CompletionFailure(p, t), feed)
    case Recreate =>
      var removed := RemoveEffect(p, t, objects, refused, feed);
      if removed.outcome != Resolves then removed
      else Then(removed, CreateEffect(p, t, spec, removed.objects, refused, feed[removed.used..]))
  }

  /** createX: read the object; create it when it is missing, otherwise act on the diff. */
  function ApplyEffect(p: Profile, t: Target, spec: Json, objects: map<Key, Json>, refused: map<Call, string>,
                       feed: seq<Observation>): (e: Effect)
    requires spec.JObj?
    ensures e.used <= |feed|
  {
    var got := Serve(objects, refused, GetReq(t.key));
    var read := Effect(Resolves, objects, [GetReq(t.key)], 0);
    if got.result.Err? then Then(read, CreateEffect(p, t, spec, objects, refused, feed))
    else Then(read, ChangeEffect(p, t, got.result.value, spec, objects, refused, feed))
  }

  /** `container || name`. */
  function ContainerName(container: string, name: string): string { if container != "" then container else name }

  /** upgradeX: patch one container's image and wait for what follows an upgrade. */
  function UpgradeEffect(p: Profile, t: Target, image: string, container: string, objects: map<Key, Json>,
                         refused: map<Call, string>, feed: seq<Observation>): (e: Effect)
    ensures e.used <= |feed|
  {
    Send(objects, refused, PatchReq(t.key, GetImagePatch(ContainerName(container, t.key.name), image)),
      UpgradeError(p, t), p.onUpgrade, CompletionFailure(p, t), feed)
  }

  // ------------------------------------------------------- running a store

  /** The wait (or its absence) after a successful call. */
  method FollowUp(a: After, failure: string, feed: seq<Observation>) returns (o: Outcome, used: nat)
    ensures Followed(o, used) == Follow(a, failure, feed)
  {
    match a {
      case Done =>
        o, used := Resolves, 0;
      case CheckThrows =>
        o, used := Hangs, 0;
      case Watch(kind, outcome, hasReject) =>
        var settled, steps, slept := Await(Stepper(kind, outcome, hasReject), kind, feed);
        o, used := OutcomeOf(settled, failure), steps;
    }
  }

  method SendTo(st: Store, req: Request, error: string, a: After, failure: string, feed: seq<Observation>)
    returns (o: Outcome, used: nat)
    modifies st
    ensures var e := Send(old(st.objects), st.refused, req, error, a, failure, feed);
      o == e.outcome && used == e.used && st.objects == e.objects && st.trace == old(st.trace) + e.requests
  {
    var r: Result<Json>;
    match req {
      case GetReq(k) => r := st.Get(k);
      case CreateReq(k, b) => r := st.Create(k, b);
      case PatchReq(k, d) => r := st.Patch(k, d);
      case UpdateReq(k, b) => r := st.Update(k, b);
      case DeleteReq(k) => r := st.Delete(k);
    }
    if r.Err? {
      o, used := Rejects(error + r.error), 0;
    } else {
      o, used := FollowUp(a, failure, feed);
    }
  }

  method Remove(st: Store, p: Profile, t: Target, feed: seq<Observation>) returns (o: Outcome, used: nat)
    modifies st
    ensures var e := RemoveEffect(p, t, old(st.objects), st.refused, feed);
      o == e.outcome && used == e.used && st.objects == e.objects && st.trace == old(st.trace) + e.requests
  {
    var got := st.Get(t.key);
    if got.Err? {
      o, used := Resolves, 0;
      return;
    }
    ghost var afterGet := st.trace;
    o, used := SendTo(st, DeleteReq(t.key), DeleteError(p, t, got.value), p.onDelete, CompletionFailure(p, t), feed);
    assert st.trace == old(st.trace) + ([GetReq(t.key)] + [DeleteReq(t.key)]);
  }

  method Change(st: Store, p: Profile, t: Target, live: Json, spec: Json, feed: seq<Observation>)
    returns (o: Outcome, used: nat)
    requires spec.JObj?
    modifies st
    ensures var e := ChangeEffect(p, t, live, spec, old(st.objects), st.refused, feed);
      o == e.outcome && used == e.used && st.objects == e.objects && st.trace == old(st.trace) + e.requests
  {
    match Decide(p.strategy, live, spec) {
      case Keep =>
        o, used := Resolves, 0;
      case DiffThrows =>
        o, used := if p.settlesOnThrow then Rejects(DiffFailure) else Hangs, 0;
      case PatchWith(d) =>
        o, used := SendTo(st, PatchReq(t.key, d), PatchError(p, t), p.onChange, CompletionFailure(p, t), feed);
      case ReplaceWith(b) =>
        o, used := SendTo(st, UpdateReq(t.key, b), ReplaceError(p, t), p.onChange, CompletionFailure(p, t), feed);
      case Recreate =>
        var removed, u := Remove(st, p, t, feed);
        if removed != Resolves {
          o, used := removed, u;
        } else {
          ghost var mid := st.trace;
          var created, v := SendTo(st, CreateReq(t.key, spec), CreateError(t), p.onCreate, CompletionFailure(p, t),
            feed[u..]);
          o, used := created, u + v;
          ghost var removal := RemoveEffect(p, t, old(st.objects), st.refused, feed);
          assert st.trace == old(st.trace) + (removal.requests + [CreateReq(t.key, spec)]);
        }
    }
  }

  /** createX for one manifest (the Store plays the API server). */
  method Apply(st: Store, p: Profile, t: Target, spec: Json, feed: seq<Observation>) returns (o: Outcome, used: nat)
    requires spec.JObj?
    modifies st
    ensures var e := ApplyEffect(p, t, spec, old(st.objects), st.refused, feed);
      o == e.outcome && used == e.used && st.objects == e.objects && st.trace == old(st.trace) + e.requests
  {
    var got := st.Get(t.key);
    ghost var afterGet := st.trace;
    if got.Err? {
      o, used := SendTo(st, CreateReq(t.key, spec), CreateError(t), p.onCreate, CompletionFailure(p, t), feed);
    } else {
      o, used := Change(st, p, t, got.value, spec, feed);
    }
    ghost var rest := st.trace[|afterGet|..];
    assert st.trace == afterGet + rest;
    assert st.trace == old(st.trace) + ([GetReq(t.key)] + rest);
  }

  /**
   * A create operation given a manifest it cannot route: reading
   * `metadata.namespace` (or, for a manifest, `kind.toLowerCase()`) throws.
   * createAccount is async, so there the TypeError rejects its promise;
   * every other create throws it before any promise exists.
   */
  function Unroutable(r: Resource): (o: Outcome)
    ensures o.Throws? <==> r != AccountRes
    ensures o == Throws(TypeError) || o == Rejects(TypeError)
  {
    if r == AccountRes then Rejects(TypeError) else Throws(TypeError)
  }

  /** The create operation of a kind, applied to a manifest. */
  method CreateResource(st: Store, r: Resource, version: string, spec: Json, feed: seq<Observation>)
    returns (o: Outcome, used: nat)
    modifies st
    ensures !Routable(r, spec) ==>
      o == Unroutable(r) && used == 0 && st.objects == old(st.objects) && st.trace == old(st.trace)
    ensures Routable(r, spec) ==>
      var e := ApplyEffect(ProfileOf(r), TargetOf(r, version, spec), spec, old(st.objects), st.refused, feed);
      o == e.outcome && used == e.used && st.objects == e.objects && st.trace == old(st.trace) + e.requests
  {
    if !Routable(r, spec) {
      return Unroutable(r), 0;
    }
    o, used := Apply(st, ProfileOf(r), TargetOf(r, version, spec), spec, feed);
  }

  /** The delete operation of a kind, by namespace and name. */
  method DeleteResource(st: Store, r: Resource, version: string, namespace: string, name: string,
                        feed: seq<Observation>) returns (o: Outcome, used: nat)
    requires r != ManifestRes
    modifies st
    ensures var e := RemoveEffect(ProfileOf(r), NamedTarget(r, version, namespace, name), old(st.objects),
      st.refused, feed);
      o == e.outcome && used == e.used && st.objects == e.objects && st.trace == old(st.trace) + e.requests
  {
    o, used := Remove(st, ProfileOf(r), NamedTarget(r, version, namespace, name), feed);
  }

  /**
   * deleteManifest, which routes by the manifest itself. Missing metadata
   * throws before the promise is made; a kind that is not a string throws
   * inside the promise's executor, which rejects it.
   */
  method DeleteManifest(st: Store, version: string, manifest: Json, feed: seq<Observation>)
    returns (o: Outcome, used: nat)
    modifies st
    ensures !HasMetadata(manifest) ==>
      o == Throws(TypeError) && used == 0 && st.objects == old(st.objects) && st.trace == old(st.trace)
    ensures HasMetadata(manifest) && !Routable(ManifestRes, manifest) ==>
      o == Rejects(TypeError) && used == 0 && st.objects == old(st.objects) && st.trace == old(st.trace)
    ensures Routable(ManifestRes, manifest) ==>
      var e := RemoveEffect(ProfileOf(ManifestRes), TargetOf(ManifestRes, version, manifest), old(st.objects),
        st.refused, feed);
      o == e.outcome && used == e.used && st.objects == e.objects && st.trace == old(st.trace) + e.requests
  {
    if !HasMetadata(manifest) {
      return Throws(TypeError), 0;
    }
    if !Routable(ManifestRes, manifest) {
      return Rejects(TypeError), 0;
    }
    o, used := Remove(st, ProfileOf(ManifestRes), TargetOf(ManifestRes, version, manifest), feed);
  }

  /** upgradeX / updateDaemonSet: set the image of one container. */
  method Upgrade(st: Store, r: Resource, version: string, namespace: string, name: string, image: string,
                 container: string, feed: seq<Observation>) returns (o: Outcome, used: nat)
    requires Upgradable(r)
    modifies st
    ensures var e := UpgradeEffect(ProfileOf(r), NamedTarget(r, version, namespace, name), image, container,
      old(st.objects), st.refused, feed);
      o == e.outcome && used == e.used && st.objects == e.objects && st.trace == old(st.trace) + e.requests
  {
    var t := NamedTarget(r, version, namespace, name);
    var p := ProfileOf(r);
    o, used := SendTo(st, PatchReq(t.key, GetImagePatch(ContainerName(container, t.key.name), image)),
      UpgradeError(p, t), p.onUpgrade, CompletionFailure(p, t), feed);
  }

  /** createNamespace(name), which builds `{apiVersion: 'v1', kind: 'Namespace', metadata: {name}}` itself. */
  method CreateNamespace(st: Store, name: string) returns (o: Outcome)
    modifies st
    ensures var spec := NamespaceManifest(name);
      var e := ApplyEffect(ProfileOf(NamespaceRes), TargetOf(NamespaceRes, "", spec), spec, old(st.objects),
        st.refused, []);
      o == e.outcome && st.objects == e.objects && st.trace == old(st.trace) + e.requests
  {
    var used;
    o, used := CreateResource(st, NamespaceRes, "", NamespaceManifest(name), []);
  }

  // --------------------------------------------------------------- lists

  /** listNamespaces: `items.map(item => item.metadata.name)`; an item without metadata throws. */
  function NamespaceNames(items: seq<Json>): (names: Result<seq<JsVal>>)
    ensures names.Ok? <==> forall i :: 0 <= i < |items| ==> !IsNullish(Prop(Some(items[i]), "metadata"))
    ensures names.Ok? ==> |names.value| == |items|
      && forall i :: 0 <= i < |items| ==> names.value[i] == Prop(Prop(Some(items[i]), "metadata"), "name")
  {
    if |items| == 0 then Ok([])
    else
      var meta := Prop(Some(items[0]), "metadata");
      if IsNullish(meta) then Err(DiffFailure)
      else
        match NamespaceNames(items[1..])
        case Err(e) => Err(e)
        case Ok(rest) => Ok([Prop(meta, "name")] + rest)
  }

  /** The two collections listRoles and listRoleBindings read, in order: cluster-wide first. */
  function RoleListSources(r: Resource, version: string): seq<(Api, string)>
    requires r == RoleRes || r == RoleBindingRes
  {
    var api := if r == RoleRes then Group(Lookup(RbacGroups, version))
      else Group(Some("rbac.authorization.k8s.io/v1beta1"));
    [(api, "clusterrolebindings"), (api, "rolebindings")]
  }

  /**
   * `cluster.concat(plain)` on two list responses: an array spreads an
   * array argument and appends anything else; a list object has no
   * `concat`. A string response, whose `concat` joins text, is treated as
   * having none.
   */
  function ConcatLists(cluster: Json, plain: Json): (r: Result<Json>)
  {
    if !cluster.JArr? then Err(DiffFailure)
    else if plain.JArr? then Ok(JArr(cluster.a + plain.a))
    else Ok(JArr(cluster.a + [plain]))
  }

  // ------------------------------------------------------------------ lemmas

  /** An object that already matches its manifest is left alone, whatever the rule. */
  lemma DecideEmptyDiffKeeps(s: Strategy, x: Json)
    requires x.JObj?
    ensures Decide(s, x, x) == Keep
  {
    SelfDiffEmpty(x, None);
  }

  /**
   * Without a type argument canPatch and canReplace test the same fields,
   * so a three-way controller never replaces: a non-empty diff is patched
   * unless it sets kind or spec.clusterIP, and then the object is recreated.
   */
  lemma ThreeWayWithoutTypeNeverReplaces(live: Json, spec: Json)
    requires spec.JObj?
    ensures !Decide(ThreeWay(None, false), live, spec).ReplaceWith?
    ensures var d := SimpleDiff(Some(live), spec, None);
      Decide(ThreeWay(None, false), live, spec) == Recreate
      <==> d.Value? && !IsEmpty(Some(d.json)) && SetsKindOrClusterIP(d.json)
    ensures var d := SimpleDiff(Some(live), spec, None);
      d.Value? && !IsEmpty(Some(d.json)) && !SetsKindOrClusterIP(d.json) ==>
      Decide(ThreeWay(None, false), live, spec) == PatchWith(d.json)
  {
  }

  /**
   * Jobs and cron jobs are never replaced, and a non-empty diff is patched
   * exactly when it only changes the backoff limit; otherwise the job is
   * deleted and created again.
   */
  lemma JobPatchedOnlyWhenBackoffOnly(live: Json, spec: Json)
    requires spec.JObj?
    ensures var d := SimpleDiff(Some(live), spec, None);
      d.Value? && !IsEmpty(Some(d.json)) ==>
      Decide(ThreeWay(Some("job"), true), live, spec)
        == if IsBackoffOnly(d.json, spec) then PatchWith(d.json) else Recreate
    ensures !Decide(ThreeWay(Some("job"), true), live, spec).ReplaceWith?
  {
    var d := SimpleDiff(Some(live), spec, None);
    if d.Value? && !IsEmpty(Some(d.json)) {
      JobsNeverPatchedOrReplaced(d.json);
    }
  }

  /** A deployment is never recreated; it is replaced with the whole manifest when the diff sets kind or clusterIP. */
  lemma DeploymentNeverRecreates(live: Json, spec: Json)
    requires spec.JObj?
    ensures Decide(PatchOrReplace, live, spec) != Recreate
    ensures var d := SimpleDiff(Some(live), spec, None);
      Decide(PatchOrReplace, live, spec).ReplaceWith? <==>
        d.Value? && !IsEmpty(Some(d.json)) && SetsKindOrClusterIP(d.json)
    ensures Decide(PatchOrReplace, live, spec).ReplaceWith? ==> Decide(PatchOrReplace, live, spec).body == spec
  {
  }

  /** A service account that cannot be patched is "replaced" with the diff rather than the manifest. */
  lemma AccountReplacesWithDiff(live: Json, spec: Json)
    requires spec.JObj?
    ensures var a := Decide(PatchOrUpdateDiff, live, spec);
      (a.PatchWith? || a.ReplaceWith?) ==>
      var body := if a.PatchWith? then a.diff else a.body;
      SimpleDiff(Some(live), spec, None) == Value(body) && body.JObj? && body.m.Keys <= spec.m.Keys
      && (a.ReplaceWith? <==> SetsKindOrClusterIP(body))
    ensures Decide(PatchOrUpdateDiff, live, spec) != Recreate
  {
  }

  /** Config maps and secrets patch any non-empty diff as it is. */
  lemma AlwaysPatchSendsDiff(live: Json, spec: Json)
    requires spec.JObj?
    ensures var d := SimpleDiff(Some(live), spec, None);
      Decide(AlwaysPatch, live, spec)
        == if d.Crash? then DiffThrows
           else if d.Value? && !IsEmpty(Some(d.json)) then PatchWith(d.json) else Keep
  {
  }

  /** Namespaces, roles and bindings that exist are never diffed or changed. */
  lemma KeepExistingNeverChanges(r: Resource, live: Json, spec: Json)
    requires r == NamespaceRes || r == RoleRes || r == RoleBindingRes
    requires spec.JObj?
    ensures Decide(ProfileOf(r).strategy, live, spec) == Keep
  {
  }

  /** Creating an object that already matches its manifest makes one read and nothing else. */
  lemma UpToDateMakesOnlyAGet(r: Resource, version: string, spec: Json, objects: map<Key, Json>,
                              refused: map<Call, string>, feed: seq<Observation>)
    requires Routable(r, spec)
    requires TargetOf(r, version, spec).key in objects && objects[TargetOf(r, version, spec).key] == spec
    requires Call(Getting, TargetOf(r, version, spec).key) !in refused
    ensures ApplyEffect(ProfileOf(r), TargetOf(r, version, spec), spec, objects, refused, feed)
      == Effect(Resolves, objects, [GetReq(TargetOf(r, version, spec).key)], 0)
  {
    DecideEmptyDiffKeeps(ProfileOf(r).strategy, spec);
  }

  /** A missing object is created from the manifest, and the outcome is that of its creation wait. */
  lemma MissingIsCreated(p: Profile, t: Target, spec: Json, objects: map<Key, Json>,
                         refused: map<Call, string>, feed: seq<Observation>)
    requires spec.JObj? && t.key !in objects
    requires Call(Getting, t.key) !in refused && Call(Creating, t.key) !in refused
    ensures var e := ApplyEffect(p, t, spec, objects, refused, feed);
      e.requests == [GetReq(t.key), CreateReq(t.key, spec)] && e.objects == objects[t.key := spec]
      && Followed(e.outcome, e.used) == Follow(p.onCreate, CompletionFailure(p, t), feed)
  {
  }

  /** A refused create rejects with the controller's wrapped message and changes nothing. */
  lemma CreateErrorWrapped(p: Profile, t: Target, spec: Json, objects: map<Key, Json>,
                           refused: map<Call, string>, feed: seq<Observation>)
    requires spec.JObj? && t.key !in objects
    requires Call(Getting, t.key) !in refused && Call(Creating, t.key) in refused
    ensures ApplyEffect(p, t, spec, objects, refused, feed)
      == Effect(Rejects(CreateError(t) + refused[Call(Creating, t.key)]), objects,
           [GetReq(t.key), CreateReq(t.key, spec)], 0)
  {
  }

  lemma SendTouchesOnlyItsKey(objects: map<Key, Json>, refused: map<Call, string>, req: Request, error: string,
                              a: After, failure: string, feed: seq<Observation>, k: Key)
    requires k != req.key
    ensures var e := Send(objects, refused, req, error, a, failure, feed);
      (k in e.objects <==> k in objects) && (k in objects ==> e.objects[k] == objects[k])
  {
    ServeTouchesOnlyItsKey(objects, refused, req, k);
  }

  lemma RemoveTouchesOnlyTarget(p: Profile, t: Target, objects: map<Key, Json>, refused: map<Call, string>,
                                feed: seq<Observation>, k: Key)
    requires k != t.key
    ensures var e := RemoveEffect(p, t, objects, refused, feed);
      (k in e.objects <==> k in objects) && (k in objects ==> e.objects[k] == objects[k])
  {
    var got := Serve(objects, refused, GetReq(t.key));
    if got.result.Ok? {
      SendTouchesOnlyItsKey(objects, refused, DeleteReq(t.key), DeleteError(p, t, got.result.value), p.onDelete,
        CompletionFailure(p, t), feed, k);
    }
  }

  /** Applying a manifest touches no object but its own, and every request it sends names that object. */
  lemma ApplyTouchesOnlyTarget(p: Profile, t: Target, spec: Json, objects: map<Key, Json>,
                               refused: map<Call, string>, feed: seq<Observation>, k: Key)
    requires spec.JObj? && k != t.key
    ensures var e := ApplyEffect(p, t, spec, objects, refused, feed);
      (k in e.objects <==> k in objects) && (k in objects ==> e.objects[k] == objects[k])
      && forall i :: 0 <= i < |e.requests| ==> e.requests[i].key == t.key
  {
    var got := Serve(objects, refused, GetReq(t.key));
    if got.result.Err? {
      SendTouchesOnlyItsKey(objects, refused, CreateReq(t.key, spec), CreateError(t), p.onCreate,
        CompletionFailure(p, t), feed, k);
    } else {
      var live := got.result.value;
      match Decide(p.strategy, live, spec)
      case Keep =>
      case DiffThrows =>
      case PatchWith(d) =>
        SendTouchesOnlyItsKey(objects, refused, PatchReq(t.key, d), PatchError(p, t), p.onChange,
          CompletionFailure(p, t), feed, k);
      case ReplaceWith(b) =>
        SendTouchesOnlyItsKey(objects, refused, UpdateReq(t.key, b), ReplaceError(p, t), p.onChange,
          CompletionFailure(p, t), feed, k);
      case Recreate =>
        var removed := RemoveEffect(p, t, objects, refused, feed);
        RemoveTouchesOnlyTarget(p, t, objects, refused, feed, k);
        if removed.outcome == Resolves {
          SendTouchesOnlyItsKey(removed.objects, refused, CreateReq(t.key, spec), CreateError(t), p.onCreate,
            CompletionFailure(p, t), feed[removed.used..], k);
        }
    }
  }

  /** Deleting an object that is not there makes one read, changes nothing and resolves. */
  lemma RemoveMissingIsNoop(p: Profile, t: Target, objects: map<Key, Json>, refused: map<Call, string>,
                            feed: seq<Observation>)
    requires t.key !in objects || Call(Getting, t.key) in refused
    ensures RemoveEffect(p, t, objects, refused, feed) == Effect(Resolves, objects, [GetReq(t.key)], 0)
  {
  }

  /** Deleting an object that is there removes it, and the outcome is that of the deletion wait. */
  lemma RemoveDeletes(p: Profile, t: Target, objects: map<Key, Json>, refused: map<Call, string>,
                      feed: seq<Observation>)
    requires t.key in objects && Call(Getting, t.key) !in refused && Call(Deleting, t.key) !in refused
    ensures var e := RemoveEffect(p, t, objects, refused, feed);
      e.requests == [GetReq(t.key), DeleteReq(t.key)] && e.objects == objects - {t.key}
      && Followed(e.outcome, e.used) == Follow(p.onDelete, CompletionFailure(p, t), feed)
  {
  }

  /** A refused delete rejects with the wrapped message, except for config maps and secrets, which pass the error on. */
  lemma DeleteErrorWording(r: Resource, version: string, namespace: string, name: string,
                           objects: map<Key, Json>, refused: map<Call, string>, feed: seq<Observation>)
    requires r != ManifestRes
    requires var k := NamedTarget(r, version, namespace, name).key;
      k in objects && Call(Getting, k) !in refused && Call(Deleting, k) in refused
    ensures var t := NamedTarget(r, version, namespace, name);
      var err := refused[Call(Deleting, t.key)];
      RemoveEffect(ProfileOf(r), t, objects, refused, feed).outcome
        == if r == ConfigurationRes || r == SecretRes then Rejects(err)
           else if r == RoleRes || r == RoleBindingRes then
             Rejects(ToStr(KindOf(objects[t.key])) + " '" + namespace + "." + name + "' could not be deleted:\n\t" + err)
           else Rejects(ProfileOf(r).deleteLabel.value + " '" + t.subject + "' could not be deleted:\n\t" + err)
  {
  }

  /** Deployments are created, patched or replaced, but applying one never deletes it. */
  lemma DeploymentsNeverDeleted(version: string, spec: Json, objects: map<Key, Json>, refused: map<Call, string>,
                                feed: seq<Observation>)
    requires Routable(DeploymentRes, spec)
    ensures var e := ApplyEffect(ProfileOf(DeploymentRes), TargetOf(DeploymentRes, version, spec), spec, objects,
      refused, feed);
      forall i :: 0 <= i < |e.requests| ==> !e.requests[i].DeleteReq?
  {
    var t := TargetOf(DeploymentRes, version, spec);
    var got := Serve(objects, refused, GetReq(t.key));
    if got.result.Ok? {
      DeploymentNeverRecreates(got.result.value, spec);
    }
  }

  /** Network policies never poll: every call is settled as soon as the API answers, unless the diff throws. */
  lemma NetworkPolicySettlesWithoutPolling(version: string, spec: Json, objects: map<Key, Json>,
                                          refused: map<Call, string>, feed: seq<Observation>)
    requires Routable(NetworkPolicyRes, spec)
    ensures var e := ApplyEffect(ProfileOf(NetworkPolicyRes), TargetOf(NetworkPolicyRes, version, spec), spec,
      objects, refused, feed);
      e.used == 0 && (e.outcome.Resolves? || e.outcome.Rejects? || e.outcome.Hangs?)
      && (e.outcome.Hangs? ==> |e.requests| == 1)
  {
  }

  /**
   * Every successful call of the manifest controller is followed by a check
   * that throws, so it resolves only when no call was needed, and it never
   * polls.
   */
  lemma ManifestResolvesOnlyWithoutCalls(version: string, spec: Json, objects: map<Key, Json>,
                                         refused: map<Call, string>, feed: seq<Observation>)
    requires Routable(ManifestRes, spec)
    ensures var t := TargetOf(ManifestRes, version, spec);
      var e := ApplyEffect(ProfileOf(ManifestRes), t, spec, objects, refused, feed);
      e.used == 0 && (e.outcome == Resolves ==> e.requests == [GetReq(t.key)])
  {
  }

  /** Upgrading a stateful set waits for an outcome its check never accepts, so it never resolves. */
  lemma StatefulSetUpgradeNeverResolves(version: string, namespace: string, name: string, image: string,
                                        container: string, objects: map<Key, Json>, refused: map<Call, string>,
                                        feed: seq<Observation>)
    ensures var e := UpgradeEffect(ProfileOf(StatefulSetRes), NamedTarget(StatefulSetRes, version, namespace, name),
      image, container, objects, refused, feed);
      e.outcome == Unsettled || e.outcome.Rejects?
  {
    var t := NamedTarget(StatefulSetRes, version, namespace, name);
    StatefulSetUpdateNeverSettles(false, feed);
  }

  /** The upgrade patch names the given container, or the resource itself when none is given. */
  lemma UpgradePatchesOneContainer(r: Resource, version: string, namespace: string, name: string, image: string,
                                   container: string, objects: map<Key, Json>, refused: map<Call, string>,
                                   feed: seq<Observation>)
    requires Upgradable(r)
    ensures var e := UpgradeEffect(ProfileOf(r), NamedTarget(r, version, namespace, name), image, container,
      objects, refused, feed);
      e.requests == [PatchReq(NamedTarget(r, version, namespace, name).key,
        GetImagePatch(if container == "" then name else container, image))]
  {
  }

  /** A manifest without a namespace goes to 'default', except config maps and secrets, which use it as it is. */
  lemma NamespaceDefaults(r: Resource, version: string, spec: Json)
    requires Routable(r, spec) && r != NamespaceRes && !ClusterScoped(r, spec)
    requires !Truthy(Meta(spec, "namespace"))
    ensures TargetOf(r, version, spec).key.namespace
      == if r == ConfigurationRes || r == SecretRes then Some(ToStr(Meta(spec, "namespace"))) else Some("default")
  {
  }

  /** Cluster roles and cluster role bindings are routed outside any namespace, to their own collections. */
  lemma ClusterRolesHaveNoNamespace(r: Resource, version: string, spec: Json)
    requires r == RoleRes || r == RoleBindingRes
    requires Routable(r, spec)
    ensures var k := TargetOf(r, version, spec).key;
      (k.namespace == None <==> ClusterScoped(r, spec))
      && k.resource == (if ClusterScoped(r, spec) then (if r == RoleRes then "clusterroles" else "clusterrolebindings")
                        else (if r == RoleRes then "roles" else "rolebindings"))
  {
  }

  /**
   * Deleting by a namespaced manifest's own namespace and name addresses the
   * object its create made, for every namespaced kind other than config maps
   * and secrets (whose namespace is not defaulted) and manifests.
   */
  lemma DeleteFindsCreated(r: Resource, version: string, spec: Json)
    requires Routable(r, spec) && r != ManifestRes && !ClusterScoped(r, spec)
    requires r != NamespaceRes && r != ConfigurationRes && r != SecretRes
    requires r == RoleRes || r == RoleBindingRes ==> DefaultNamespace(spec) != ""
    ensures TargetOf(r, version, spec).key
      == NamedTarget(r, version, DefaultNamespace(spec), ToStr(Meta(spec, "name"))).key
  {
  }

  /** A namespace created by name is addressed like a deleted one. */
  lemma NamespaceFindsCreated(version: string, name: string)
    ensures TargetOf(NamespaceRes, version, NamespaceManifest(name)).key == NamedTarget(NamespaceRes, version, "", name).key
    ensures TargetOf(NamespaceRes, version, NamespaceManifest(name)).key == Key(Core, None, "namespaces", name)
  {
    NamespaceManifestFields(name);
  }

  /** The API group tables: the version decides the group, and versions outside the table have none. */
  lemma GroupTables(version: string)
    ensures Lookup(StatefulSetGroups, version).Some? <==> version in {"1.4", "1.5", "1.6", "1.7", "1.8"}
    ensures Lookup(DaemonSetGroups, version).Some? <==> version in {"1.4", "1.5", "1.6", "1.7", "1.8"}
    ensures Lookup(CronJobGroups, version).Some? <==> version in {"1.7", "1.8"}
    ensures Lookup(NetworkPolicyGroups, version).Some? ==> Lookup(NetworkPolicyGroups, version) == Some("networking.k8s.io/v1")
    ensures Lookup(RbacGroups, version).Some? <==> version in {"1.6", "1.7", "1.8"}
    ensures version == "1.8" ==> Lookup(StatefulSetGroups, version) == Some("apps/v1beta2")
      && Lookup(DaemonSetGroups, version) == Some("apps/v1beta2")
  {
  }

  /** The list of namespace names keeps the order of the items. */
  lemma NamespaceNamesOrder(items: seq<Json>, more: seq<Json>)
    requires NamespaceNames(items).Ok? && NamespaceNames(more).Ok?
    ensures NamespaceNames(items + more) == Ok(NamespaceNames(items).value + NamespaceNames(more).value)
  {
    var all := NamespaceNames(items + more);
    assert forall i :: 0 <= i < |items + more| ==>
      (items + more)[i] == if i < |items| then items[i] else more[i - |items|];
  }

  /** List responses are objects holding `items`, which have no `concat`: listRoles always rejects. */
  lemma ListRolesRejects(cluster: Json, plain: Json)
    requires cluster.JObj? && "items" in cluster.m
    ensures ConcatLists(cluster, plain).Err?
    ensures forall xs, ys :: ConcatLists(JArr(xs), JArr(ys)) == Ok(JArr(xs + ys))
  {
  }

  /** listRoleBindings reads the v1beta1 group for every client version; listRoles follows the version. */
  lemma RoleBindingListIgnoresVersion(v1: string, v2: string)
    ensures RoleListSources(RoleBindingRes, v1) == RoleListSources(RoleBindingRes, v2)
    ensures RoleListSources(RoleRes, "1.8")[0].0 == Group(Some("rbac.authorization.k8s.io/v1"))
    ensures RoleListSources(RoleRes, v1)[0].1 == "clusterrolebindings"
  {
  }
}

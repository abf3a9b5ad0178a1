/**
 * The kubectl-based deployment library (lib/index.js): a compiled cluster
 * specification is applied in stages, each stage one `kubectl apply` of a
 * `List` document: the namespaces, the image pull secrets, the
 * configuration maps and secrets, and then one document per level, in
 * level order. The first stage that throws stops the rest, its error
 * message prefixed with the stage's name. `run` deletes a job and applies
 * it again.
 *
 * kubectl is a command log with an outcome for each command (what
 * lib/kubectl.js returns or throws); the specification compiler is
 * represented by its result.
 */
module Deploy {
  import opened Wrappers
  import opened Strings
  import opened Json
  import opened Resources

  const TypeError: string := "TypeError"

  /** A kubectl invocation: `apply -f -` of a document (undefined gives no input), or `delete <kind> <name>`. */
  datatype Command =
    | Apply(context: string, input: JsVal)
    | Delete(context: string, namespace: string, kind: string, name: string)

  /** kubectl as lib/kubectl.js runs it: every command is logged, and its outcome is the parsed output or the error thrown. */
  class Kubectl {
    var log: seq<Command>
    const outcome: Command -> Result<Json>

    constructor (outcome0: Command -> Result<Json>)
      ensures log == [] && outcome == outcome0
    {
      log := [];
      outcome := outcome0;
    }

    method Run(c: Command) returns (r: Result<Json>)
      modifies this
      ensures log == old(log) + [c] && r == outcome(c)
    {
      log := log + [c];
      r := outcome(c);
    }
  }

  /** `{ apiVersion: 'v1', kind: 'List', items }`. */
  function ListDoc(items: seq<Json>): Json
  {
    JObj(map["apiVersion" := JStr("v1"), "kind" := JStr("List"), "items" := JArr(items)])
  }

  /** The error of a stage, rethrown with the stage's prefix. */
  function Prefixed(prefix: string, r: Result<Json>): (p: Result<Json>)
    ensures p.Ok? <==> r.Ok?
    ensures r.Ok? ==> p == r
    ensures r.Err? ==> p.error == prefix + r.error
  {
    if r.Err? then Err(prefix + r.error) else r
  }

  /** `parts.join(sep)`. */
  function JoinWith(parts: seq<string>, sep: string): string
  {
    if |parts| == 0 then "" else if |parts| == 1 then parts[0] else parts[0] + sep + JoinWith(parts[1..], sep)
  }

  // ------------------------------------------------------------ the spec

  /** Image pull secrets by namespace and then by name, in enumeration order. */
  type Secrets = seq<(string, seq<(string, Json)>)>

  /** The parts of a compiled specification that deploy and run read. */
  datatype Spec = Spec(
    namespaces: seq<string>,
    imagePullSecrets: Secrets,
    configuration: seq<Json>,
    secrets: seq<Json>,
    levels: seq<string>,
    order: map<string, seq<string>>,
    resources: map<string, map<string, Json>>)

  /** What the specification compiler produced: a specification, or an error with its message and any undefined tokens. */
  datatype Compiled =
    | Compiled(spec: Spec)
    | Failed(message: string, tokens: Option<seq<string>>)

  const UndefinedTokens: string := " tokens are referenced, but not defined: "
  const CompilePrefix: string := "Failed to transfigure spec: "

  /** The message deploy and run throw for a compiler error. */
  function CompileMessage(message: string, tokens: Option<seq<string>>): string
  {
    if tokens.Some? then
      NatToString(|tokens.value|) + UndefinedTokens + JoinWith(tokens.value, ", ")
    else CompilePrefix + message
  }

  // ------------------------------------------------------------ gatherResources

  const ResourceKeys: seq<string> :=
    ["job", "networkPolicy", "deployment", "cronJob", "account", "role", "roleBinding", "statefulSet", "daemonSet"]

  /** The values of the keys the segment has, in the order of the keys. */
  function Present(segment: map<string, Json>, keys: seq<string>): (r: seq<Json>)
    ensures |r| <= |keys|
  {
    if |keys| == 0 then []
    else
      var k := keys[|keys| - 1];
      Present(segment, keys[..|keys| - 1]) + (if k in segment then [segment[k]] else [])
  }

  /** `...v`: an array gives its elements and a string its characters; anything else is not iterable. */
  function Spread(v: Json): Result<seq<Json>>
  {
    match v
    case JArr(s) => Ok(s)
    case JStr(s) => Ok(seq(|s|, i requires 0 <= i < |s| => JStr([s[i]])))
    case _ => Err(TypeError)
  }

  function Lookup(m: map<string, Json>, key: string): JsVal
  {
    if key in m then Some(m[key]) else None
  }

  /** gatherResources: the present resource keys in their fixed order, then the services. */
  function Gathered(segment: map<string, Json>): Result<seq<Json>>
  {
    var picked := Present(segment, ResourceKeys);
    var services := Lookup(segment, "services");
    if !Truthy(services) then Ok(picked)
    else
      match Spread(services.value)
      case Err(e) => Err(e)
      case Ok(s) => Ok(picked + s)
  }

  method GatherResources(segment: map<string, Json>) returns (r: Result<seq<Json>>)
    ensures r == Gathered(segment)
  {
    var resources: seq<Json> := [];
    for i := 0 to |ResourceKeys|
      invariant resources == Present(segment, ResourceKeys[..i])
    {
      var key := ResourceKeys[i];
      assert ResourceKeys[..i + 1][..i] == ResourceKeys[..i];
      if key in segment {
        resources := resources + [segment[key]];
      }
    }
    assert ResourceKeys[..|ResourceKeys|] == ResourceKeys;
    if "services" in segment && Truthy(Some(segment["services"])) {
      var services := segment["services"];
      if services.JArr? {
        resources := resources + services.a;
      } else if services.JStr? {
        var chars: seq<Json> := [];
        for j := 0 to |services.s|
          invariant |chars| == j && forall l :: 0 <= l < j ==> chars[l] == JStr([services.s[l]])
        {
          chars := chars + [JStr([services.s[j]])];
        }
        assert chars == seq(|services.s|, i requires 0 <= i < |services.s| => JStr([services.s[i]]));
        resources := resources + chars;
      } else {
        return Err(TypeError);
      }
    }
    r := Ok(resources);
  }

  // ------------------------------------------------------------ stages

  /** What a stage did: its result and the kubectl commands it issued. */
  datatype Run = Run(result: Result<()>, commands: seq<Command>)

  /** The second run happens only when the first one succeeded. */
  function Then(first: Run, next: Run): (r: Run)
    ensures first.result.Err? ==> r == first
    ensures first.result.Ok? ==> r.result == next.result
  {
    if first.result.Err? then first else Run(next.result, first.commands + next.commands)
  }

  function Unit(r: Result<Json>): Result<()>
  {
    if r.Err? then Err(r.error) else Ok(())
  }

  /** One `kubectl apply` whose failure is rethrown with the prefix. */
  function Stage(outcome: Command -> Result<Json>, c: Command, prefix: string): Run
  {
    Run(Unit(Prefixed(prefix, outcome(c))), [c])
  }

  /** The items of the namespaces document: item i is a 'Namespace' manifest whose metadata names names[i]. */
  function NamespaceItems(names: seq<string>): (r: seq<Json>)
    ensures |r| == |names| && forall i :: 0 <= i < |names| ==> r[i] == NamespaceManifest(names[i])
    ensures forall i :: 0 <= i < |r| ==>
      Prop(Some(r[i]), "kind") == Str("Namespace") && Prop(Prop(Some(r[i]), "metadata"), "name") == Str(names[i])
  {
    NamespaceItemsNamed(names);
    seq(|names|, i requires 0 <= i < |names| => NamespaceManifest(names[i]))
  }

  lemma NamespaceItemsNamed(names: seq<string>)
    ensures forall i :: 0 <= i < |names| ==>
      var m := Some(NamespaceManifest(names[i]));
      Prop(m, "kind") == Str("Namespace") && Prop(Prop(m, "metadata"), "name") == Str(names[i])
  {
    forall i | 0 <= i < |names| {
      NamespaceManifestFields(names[i]);
    }
  }

  function EntryValues(entries: seq<(string, Json)>): (r: seq<Json>)
    ensures |r| == |entries| && forall i :: 0 <= i < |entries| ==> r[i] == entries[i].1
  {
    if |entries| == 0 then [] else EntryValues(entries[..|entries| - 1]) + [entries[|entries| - 1].1]
  }

  /** The pull secrets namespace by namespace, each namespace's by name. */
  function Flatten(secrets: Secrets): seq<Json>
  {
    if |secrets| == 0 then [] else Flatten(secrets[..|secrets| - 1]) + EntryValues(secrets[|secrets| - 1].1)
  }

  const NamespacesPrefix: string := "Failed to create Namespaces: "
  const PullSecretsPrefix: string := "Failed to create imagePullSecrets: "
  const ConfigPrefix: string := "Failed to create ConfigMaps and Secrets: "

  function LevelPrefix(level: string): string
  {
    "Failed to apply resources for level " + level + ": "
  }

  function NamespacesCommand(context: string, spec: Spec): Command
  {
    Apply(context, Some(ListDoc(NamespaceItems(spec.namespaces))))
  }

  function PullSecretsCommand(context: string, spec: Spec): Command
  {
    Apply(context, Some(ListDoc(Flatten(spec.imagePullSecrets))))
  }

  /** The configuration maps followed by the secrets. */
  function ConfigCommand(context: string, spec: Spec): Command
  {
    Apply(context, Some(ListDoc(spec.configuration + spec.secrets)))
  }

  /** The resources of the named groups, concatenated in order; a missing group throws. */
  function LevelItems(spec: Spec, names: seq<string>): Result<seq<Json>>
  {
    if |names| == 0 then Ok([])
    else
      match LevelItems(spec, names[..|names| - 1])
      case Err(e) => Err(e)
      case Ok(items) =>
        var name := names[|names| - 1];
        if name !in spec.resources then Err(TypeError)
        else
          match Gathered(spec.resources[name])
          case Err(e) => Err(e)
          case Ok(g) => Ok(items + g)
  }

  /** applyLevel: a level without an order entry throws before kubectl is run. */
  function LevelRun(outcome: Command -> Result<Json>, context: string, spec: Spec, level: string): Run
  {
    if level !in spec.order then Run(Err(TypeError), [])
    else
      match LevelItems(spec, spec.order[level])
      case Err(e) => Run(Err(e), [])
      case Ok(items) => Stage(outcome, Apply(context, Some(ListDoc(items))), LevelPrefix(level))
  }

  /** The levels applied one after another. */
  function LevelsRun(outcome: Command -> Result<Json>, context: string, spec: Spec, levels: seq<string>): Run
  {
    if |levels| == 0 then Run(Ok(()), [])
    else Then(LevelsRun(outcome, context, spec, levels[..|levels| - 1]),
              LevelRun(outcome, context, spec, levels[|levels| - 1]))
  }

  /** deploy: compile, then namespaces, pull secrets, configuration and the levels. */
  function DeployRun(outcome: Command -> Result<Json>, context: string, compiled: Compiled): Run
  {
    match compiled
    case Failed(message, tokens) => Run(Err(CompileMessage(message, tokens)), [])
    case Compiled(spec) =>
      Then(Stage(outcome, NamespacesCommand(context, spec), NamespacesPrefix),
        Then(Stage(outcome, PullSecretsCommand(context, spec), PullSecretsPrefix),
          Then(Stage(outcome, ConfigCommand(context, spec), ConfigPrefix),
            LevelsRun(outcome, context, spec, spec.levels))))
  }

  // ------------------------------------------------------------ the methods

  method ApplyList(k: Kubectl, context: string, items: seq<Json>, prefix: string) returns (r: Result<Json>)
    modifies k
    ensures k.log == old(k.log) + [Apply(context, Some(ListDoc(items)))]
    ensures r == Prefixed(prefix, k.outcome(Apply(context, Some(ListDoc(items)))))
  {
    var res := k.Run(Apply(context, Some(ListDoc(items))));
    if res.Err? {
      return Err(prefix + res.error);
    }
    r := res;
  }

  method ApplyNamespaces(k: Kubectl, context: string, names: seq<string>) returns (r: Result<Json>)
    modifies k
    ensures k.log == old(k.log) + [Apply(context, Some(ListDoc(NamespaceItems(names))))]
    ensures r == Prefixed(NamespacesPrefix, k.outcome(Apply(context, Some(ListDoc(NamespaceItems(names))))))
  {
    var items := seq(|names|, i requires 0 <= i < |names| => NamespaceManifest(names[i]));
    r := ApplyList(k, context, items, NamespacesPrefix);
  }

  method ApplyImagePullSecrets(k: Kubectl, context: string, secrets: Secrets) returns (r: Result<Json>)
    modifies k
    ensures k.log == old(k.log) + [Apply(context, Some(ListDoc(Flatten(secrets))))]
    ensures r == Prefixed(PullSecretsPrefix, k.outcome(Apply(context, Some(ListDoc(Flatten(secrets))))))
  {
    var items: seq<Json> := [];
    for i := 0 to |secrets|
      invariant items == Flatten(secrets[..i])
    {
      var entries := secrets[i].1;
      for j := 0 to |entries|
        invariant items == Flatten(secrets[..i]) + EntryValues(entries[..j])
      {
        assert entries[..j + 1][..j] == entries[..j];
        items := items + [entries[j].1];
      }
      assert entries[..|entries|] == entries;
      assert secrets[..i + 1][..i] == secrets[..i];
    }
    assert secrets[..|secrets|] == secrets;
    r := ApplyList(k, context, items, PullSecretsPrefix);
  }

  method ApplyConfig(k: Kubectl, context: string, configs: seq<Json>) returns (r: Result<Json>)
    modifies k
    ensures k.log == old(k.log) + [Apply(context, Some(ListDoc(configs)))]
    ensures r == Prefixed(ConfigPrefix, k.outcome(Apply(context, Some(ListDoc(configs)))))
  {
    r := ApplyList(k, context, configs, ConfigPrefix);
  }

  method ApplyLevel(k: Kubectl, context: string, spec: Spec, level: string) returns (r: Result<()>)
    modifies k
    ensures k.log == old(k.log) + LevelRun(k.outcome, context, spec, level).commands
    ensures r == LevelRun(k.outcome, context, spec, level).result
  {
    if level !in spec.order {
      return Err(TypeError);
    }
    var names := spec.order[level];
    var items: seq<Json> := [];
    for i := 0 to |names|
      invariant LevelItems(spec, names[..i]) == Ok(items)
      invariant k.log == old(k.log)
    {
      assert names[..i + 1][..i] == names[..i];
      var name := names[i];
      if name !in spec.resources {
        LevelErrorStays(spec, names, i + 1);
        return Err(TypeError);
      }
      var g := GatherResources(spec.resources[name]);
      if g.Err? {
        LevelErrorStays(spec, names, i + 1);
        return Err(g.error);
      }
      items := items + g.value;
    }
    assert names[..|names|] == names;
    var res := ApplyList(k, context, items, LevelPrefix(level));
    r := Unit(res);
  }

  method Deploy(k: Kubectl, context: string, compiled: Compiled) returns (r: Result<()>)
    modifies k
    ensures k.log == old(k.log) + DeployRun(k.outcome, context, compiled).commands
    ensures r == DeployRun(k.outcome, context, compiled).result
  {
    if compiled.Failed? {
      return Err(CompileMessage(compiled.message, compiled.tokens));
    }
    var spec := compiled.spec;
    ghost var start := k.log;
    var res := ApplyNamespaces(k, context, spec.namespaces);
    if res.Err? {
      return Err(res.error);
    }
    res := ApplyImagePullSecrets(k, context, spec.imagePullSecrets);
    if res.Err? {
      return Err(res.error);
    }
    res := ApplyConfig(k, context, spec.configuration + spec.secrets);
    if res.Err? {
      return Err(res.error);
    }
    ghost var staged := k.log;
    r := ApplyLevels(k, context, spec, spec.levels);
    StagesThenLevels(k.outcome, context, spec, start, staged, k.log);
  }

  /** When the three stages succeed, the deploy run is theirs followed by the levels'. */
  lemma StagesThenLevels(outcome: Command -> Result<Json>, context: string, spec: Spec,
                         start: seq<Command>, staged: seq<Command>, now: seq<Command>)
    requires Stage(outcome, NamespacesCommand(context, spec), NamespacesPrefix).result.Ok?
    requires Stage(outcome, PullSecretsCommand(context, spec), PullSecretsPrefix).result.Ok?
    requires Stage(outcome, ConfigCommand(context, spec), ConfigPrefix).result.Ok?
    requires staged == start + [NamespacesCommand(context, spec), PullSecretsCommand(context, spec), ConfigCommand(context, spec)]
    requires now == staged + LevelsRun(outcome, context, spec, spec.levels).commands
    ensures now == start + DeployRun(outcome, context, Compiled(spec)).commands
    ensures DeployRun(outcome, context, Compiled(spec)).result == LevelsRun(outcome, context, spec, spec.levels).result
  {
  }

  /** The for-of loop of deploy over the levels. */
  method ApplyLevels(k: Kubectl, context: string, spec: Spec, levels: seq<string>) returns (r: Result<()>)
    modifies k
    ensures k.log == old(k.log) + LevelsRun(k.outcome, context, spec, levels).commands
    ensures r == LevelsRun(k.outcome, context, spec, levels).result
  {
    ghost var start := k.log;
    for i := 0 to |levels|
      invariant k.log == start + LevelsRun(k.outcome, context, spec, levels[..i]).commands
      invariant LevelsRun(k.outcome, context, spec, levels[..i]).result.Ok?
    {
      ghost var before := k.log;
      var lr := ApplyLevel(k, context, spec, levels[i]);
      LevelsStep(k.outcome, context, spec, levels, i);
      if lr.Err? {
        LevelsErrorStays(k.outcome, context, spec, levels, i + 1);
        return Err(lr.error);
      }
    }
    assert levels[..|levels|] == levels;
    r := Ok(());
  }

  /** One more level after successful ones adds its commands and decides the result. */
  lemma LevelsStep(outcome: Command -> Result<Json>, context: string, spec: Spec, levels: seq<string>, i: nat)
    requires i < |levels| && LevelsRun(outcome, context, spec, levels[..i]).result.Ok?
    ensures LevelsRun(outcome, context, spec, levels[..i + 1]).result == LevelRun(outcome, context, spec, levels[i]).result
    ensures LevelsRun(outcome, context, spec, levels[..i + 1]).commands
            == LevelsRun(outcome, context, spec, levels[..i]).commands + LevelRun(outcome, context, spec, levels[i]).commands
  {
    assert levels[..i + 1][..i] == levels[..i];
  }

  // ------------------------------------------------------------ run

  /** The job name and namespace of `options.job`; a key without '.' has the namespace "undefined". */
  function JobName(job: string): string { Split(job, '.')[0] }

  function JobNamespace(job: string): string
  {
    var parts := Split(job, '.');
    if |parts| >= 2 then parts[1] else "undefined"
  }

  /** cronJob when the entry has that key, job otherwise. */
  function JobKind(entry: map<string, Json>): string
  {
    if "cronJob" in entry then "cronJob" else "job"
  }

  /** run: delete the old job, apply the new one, then read `result.metadata.name`. */
  function JobRun(outcome: Command -> Result<Json>, context: string, compiled: Compiled, job: string): Run
  {
    match compiled
    case Failed(message, tokens) => Run(Err(CompileMessage(message, tokens)), [])
    case Compiled(spec) =>
      if job !in spec.resources then Run(Err(TypeError), [])
      else
        var entry := spec.resources[job];
        var kind := JobKind(entry);
        var del := Delete(context, JobNamespace(job), kind, JobName(job));
        var app := Apply(context, Lookup(entry, kind));
        if outcome(del).Err? then Run(Err(outcome(del).error), [del])
        else if outcome(app).Err? then Run(Err(outcome(app).error), [del, app])
        else if IsNullish(Prop(Some(outcome(app).value), "metadata")) || outcome(app).value.JNull? then
          Run(Err(TypeError), [del, app])
        else Run(Ok(()), [del, app])
  }

  method RunJob(k: Kubectl, context: string, compiled: Compiled, job: string) returns (r: Result<()>)
    modifies k
    ensures |k.log| >= |old(k.log)| && k.log[..|old(k.log)|] == old(k.log)
    ensures Run(r, k.log[|old(k.log)|..]) == JobRun(k.outcome, context, compiled, job)
  {
    if compiled.Failed? {
      return Err(CompileMessage(compiled.message, compiled.tokens));
    }
    var spec := compiled.spec;
    var parts := Split(job, '.');
    var name := parts[0];
    var namespace := if |parts| >= 2 then parts[1] else "undefined";
    if job !in spec.resources {
      return Err(TypeError);
    }
    var entry := spec.resources[job];
    var kind := if "cronJob" in entry then "cronJob" else "job";
    var start := k.log;
    var d := k.Run(Delete(context, namespace, kind, name));
    if d.Err? {
      return Err(d.error);
    }
    var result := k.Run(Apply(context, Lookup(entry, kind)));
    assert k.log[|start|..] == [Delete(context, namespace, kind, name), Apply(context, Lookup(entry, kind))];
    if result.Err? {
      return Err(result.error);
    }
    if result.value.JNull? || IsNullish(Prop(Some(result.value), "metadata")) {
      return Err(TypeError);
    }
    r := Ok(());
  }

  // ------------------------------------------------------------------ lemmas

  lemma {:induction false} LevelErrorStays(spec: Spec, names: seq<string>, i: nat)
    requires i <= |names| && LevelItems(spec, names[..i]).Err?
    ensures LevelItems(spec, names) == LevelItems(spec, names[..i])
    decreases |names| - i
  {
    if i < |names| {
      assert names[..i + 1][..i] == names[..i];
      LevelErrorStays(spec, names, i + 1);
    } else {
      assert names[..i] == names;
    }
  }

  lemma {:induction false} LevelsErrorStays(outcome: Command -> Result<Json>, context: string, spec: Spec,
                                            levels: seq<string>, i: nat)
    requires i <= |levels| && LevelsRun(outcome, context, spec, levels[..i]).result.Err?
    ensures LevelsRun(outcome, context, spec, levels) == LevelsRun(outcome, context, spec, levels[..i])
    decreases |levels| - i
  {
    if i < |levels| {
      assert levels[..i + 1][..i] == levels[..i];
      LevelsErrorStays(outcome, context, spec, levels, i + 1);
    } else {
      assert levels[..i] == levels;
    }
  }

  /** A segment holding every resource key and no services gives the values in the fixed key order. */
  lemma GatherFullSegment(segment: map<string, Json>)
    requires forall k :: k in ResourceKeys ==> k in segment
    requires !Truthy(Lookup(segment, "services"))
    ensures Gathered(segment) == Ok([segment["job"], segment["networkPolicy"], segment["deployment"],
      segment["cronJob"], segment["account"], segment["role"], segment["roleBinding"],
      segment["statefulSet"], segment["daemonSet"]])
  {
    PresentAllIn(segment, ResourceKeys);
    var p := Present(segment, ResourceKeys);
    assert Gathered(segment) == Ok(p);
    assert |p| == 9;
    assert p == [p[0], p[1], p[2], p[3], p[4], p[5], p[6], p[7], p[8]];
  }

  lemma {:induction false} PresentAllIn(segment: map<string, Json>, keys: seq<string>)
    requires forall k :: k in keys ==> k in segment
    ensures |Present(segment, keys)| == |keys|
    ensures forall i :: 0 <= i < |keys| ==> Present(segment, keys)[i] == segment[keys[i]]
  {
    if |keys| > 0 {
      PresentAllIn(segment, keys[..|keys| - 1]);
    }
  }

  /** Only the resource keys and the services count: other keys of a segment change nothing. */
  lemma {:induction false} PresentIgnoresOtherKeys(segment: map<string, Json>, keys: seq<string>, x: string, v: Json)
    requires x !in keys
    ensures Present(segment[x := v], keys) == Present(segment, keys)
  {
    if |keys| > 0 {
      PresentIgnoresOtherKeys(segment, keys[..|keys| - 1], x, v);
    }
  }

  lemma GatherIgnoresOtherKeys(segment: map<string, Json>, x: string, v: Json)
    requires x !in ResourceKeys && x != "services"
    ensures Gathered(segment[x := v]) == Gathered(segment)
  {
    PresentIgnoresOtherKeys(segment, ResourceKeys, x, v);
  }

  /** The services follow the picked resources, in their own order. */
  lemma GatherServicesLast(segment: map<string, Json>, services: seq<Json>)
    requires Lookup(segment, "services") == Some(JArr(services))
    ensures Gathered(segment) == Ok(Present(segment, ResourceKeys) + services)
  {
  }

  /** Secret j of namespace i is item Offset(i) + j of the pull-secrets document: one item per pair. */
  lemma {:induction false} FlattenIndex(secrets: Secrets, i: nat, j: nat)
    requires i < |secrets| && j < |secrets[i].1|
    ensures |Flatten(secrets[..i])| + j < |Flatten(secrets)|
    ensures Flatten(secrets)[|Flatten(secrets[..i])| + j] == secrets[i].1[j].1
    decreases |secrets|
  {
    var n := |secrets|;
    var init := secrets[..n - 1];
    assert Flatten(secrets) == Flatten(init) + EntryValues(secrets[n - 1].1);
    if i == n - 1 {
      assert secrets[..i] == init;
    } else {
      assert init[..i] == secrets[..i];
      FlattenIndex(init, i, j);
    }
  }

  lemma {:induction false} FlattenLength(secrets: Secrets)
    ensures |Flatten(secrets)| == Total(secrets)
  {
    if |secrets| > 0 {
      FlattenLength(secrets[..|secrets| - 1]);
    }
  }

  /** The number of pull secrets. */
  function Total(secrets: Secrets): nat
  {
    if |secrets| == 0 then 0 else Total(secrets[..|secrets| - 1]) + |secrets[|secrets| - 1].1|
  }

  /** A level's document holds its groups' resources in the level's order. */
  lemma {:induction false} LevelItemsAppend(spec: Spec, a: seq<string>, b: seq<string>)
    requires LevelItems(spec, a + b).Ok?
    ensures LevelItems(spec, a).Ok? && LevelItems(spec, b).Ok?
    ensures LevelItems(spec, a + b).value == LevelItems(spec, a).value + LevelItems(spec, b).value
    decreases |b|
  {
    if |b| == 0 {
      assert a + b == a;
    } else {
      var n := |b|;
      assert (a + b)[..|a + b| - 1] == a + b[..n - 1];
      LevelItemsAppend(spec, a, b[..n - 1]);
      assert (a + b)[|a + b| - 1] == b[n - 1];
      var name := b[n - 1];
      assert name in spec.resources && Gathered(spec.resources[name]).Ok?;
      assert LevelItems(spec, b) == Ok(LevelItems(spec, b[..n - 1]).value + Gathered(spec.resources[name]).value);
    }
  }

  /** Every command but the last one of a run succeeded, and all of them did when the run did. */
  predicate StopsAtFirstFailure(outcome: Command -> Result<Json>, r: Run)
  {
    (forall i :: 0 <= i < |r.commands| - 1 ==> outcome(r.commands[i]).Ok?)
    && (r.result.Ok? ==> forall i :: 0 <= i < |r.commands| ==> outcome(r.commands[i]).Ok?)
  }

  lemma ThenStops(outcome: Command -> Result<Json>, first: Run, next: Run)
    requires StopsAtFirstFailure(outcome, first) && StopsAtFirstFailure(outcome, next)
    ensures StopsAtFirstFailure(outcome, Then(first, next))
  {
    if first.result.Ok? {
      var r := Then(first, next);
      forall i | 0 <= i < |r.commands| - 1 ensures outcome(r.commands[i]).Ok? {
        if i >= |first.commands| {
          assert r.commands[i] == next.commands[i - |first.commands|];
        }
      }
    }
  }

  lemma StageStops(outcome: Command -> Result<Json>, c: Command, prefix: string)
    ensures StopsAtFirstFailure(outcome, Stage(outcome, c, prefix))
  {
  }

  lemma LevelStops(outcome: Command -> Result<Json>, context: string, spec: Spec, level: string)
    ensures StopsAtFirstFailure(outcome, LevelRun(outcome, context, spec, level))
  {
  }

  lemma {:induction false} LevelsStop(outcome: Command -> Result<Json>, context: string, spec: Spec, levels: seq<string>)
    ensures StopsAtFirstFailure(outcome, LevelsRun(outcome, context, spec, levels))
  {
    if |levels| > 0 {
      LevelsStop(outcome, context, spec, levels[..|levels| - 1]);
      LevelStops(outcome, context, spec, levels[|levels| - 1]);
      ThenStops(outcome, LevelsRun(outcome, context, spec, levels[..|levels| - 1]),
                LevelRun(outcome, context, spec, levels[|levels| - 1]));
    }
  }

  /** Deploy issues no command after one that failed. */
  lemma DeployStops(outcome: Command -> Result<Json>, context: string, compiled: Compiled)
    ensures StopsAtFirstFailure(outcome, DeployRun(outcome, context, compiled))
  {
    if compiled.Compiled? {
      var spec := compiled.spec;
      var lv := LevelsRun(outcome, context, spec, spec.levels);
      var cf := Stage(outcome, ConfigCommand(context, spec), ConfigPrefix);
      var ps := Stage(outcome, PullSecretsCommand(context, spec), PullSecretsPrefix);
      var ns := Stage(outcome, NamespacesCommand(context, spec), NamespacesPrefix);
      LevelsStop(outcome, context, spec, spec.levels);
      ThenStops(outcome, cf, lv);
      ThenStops(outcome, ps, Then(cf, lv));
      ThenStops(outcome, ns, Then(ps, Then(cf, lv)));
    }
  }

  /** The document of each level, as applied when all levels succeed. */
  function LevelCommands(context: string, spec: Spec, levels: seq<string>): seq<Command>
    requires forall l :: l in levels ==> l in spec.order && LevelItems(spec, spec.order[l]).Ok?
  {
    if |levels| == 0 then []
    else
      var l := levels[|levels| - 1];
      LevelCommands(context, spec, levels[..|levels| - 1]) + [Apply(context, Some(ListDoc(LevelItems(spec, spec.order[l]).value)))]
  }

  lemma {:induction false} LevelsInOrder(outcome: Command -> Result<Json>, context: string, spec: Spec, levels: seq<string>)
    requires LevelsRun(outcome, context, spec, levels).result.Ok?
    ensures forall l :: l in levels ==> l in spec.order && LevelItems(spec, spec.order[l]).Ok?
    ensures LevelsRun(outcome, context, spec, levels).commands == LevelCommands(context, spec, levels)
  {
    if |levels| > 0 {
      var init := levels[..|levels| - 1];
      LevelsInOrder(outcome, context, spec, init);
      assert forall l :: l in levels ==> l in init || l == levels[|levels| - 1];
    }
  }

  /**
   * A deploy that succeeds applied exactly the namespaces, the pull secrets,
   * the configuration with the secrets, and one document per level in level
   * order.
   */
  lemma DeployOrder(outcome: Command -> Result<Json>, context: string, spec: Spec)
    requires DeployRun(outcome, context, Compiled(spec)).result.Ok?
    ensures forall l :: l in spec.levels ==> l in spec.order && LevelItems(spec, spec.order[l]).Ok?
    ensures DeployRun(outcome, context, Compiled(spec)).commands ==
      [NamespacesCommand(context, spec), PullSecretsCommand(context, spec), ConfigCommand(context, spec)]
      + LevelCommands(context, spec, spec.levels)
  {
    LevelsInOrder(outcome, context, spec, spec.levels);
  }

  /** A failing namespaces apply ends deploy with the prefixed message and nothing else is run. */
  lemma NamespacesFailureStopsDeploy(outcome: Command -> Result<Json>, context: string, spec: Spec)
    requires outcome(NamespacesCommand(context, spec)).Err?
    ensures DeployRun(outcome, context, Compiled(spec))
      == Run(Err(NamespacesPrefix + outcome(NamespacesCommand(context, spec)).error), [NamespacesCommand(context, spec)])
  {
  }

  /** A failing level apply names its level in the message. */
  lemma LevelFailureMessage(outcome: Command -> Result<Json>, context: string, spec: Spec, level: string)
    requires level in spec.order && LevelItems(spec, spec.order[level]).Ok?
    requires outcome(Apply(context, Some(ListDoc(LevelItems(spec, spec.order[level]).value)))).Err?
    ensures LevelRun(outcome, context, spec, level).result
      == Err(LevelPrefix(level) + outcome(Apply(context, Some(ListDoc(LevelItems(spec, spec.order[level]).value)))).error)
  {
  }

  /** The compiler's undefined tokens are counted and listed. */
  lemma TokensMessage()
    ensures CompileMessage("x", Some(["a", "b"])) == "2" + UndefinedTokens + "a, b"
    ensures CompileMessage("x", Some([])) == "0" + UndefinedTokens
    ensures CompileMessage("bad", None) == CompilePrefix + "bad"
  {
    var tokens := ["a", "b"];
    assert |tokens| == 2 && NatToString(2) == "2";
    assert tokens[1..] == ["b"];
    assert JoinWith(tokens, ", ") == "a, b";
    assert NatToString(0) == "0";
  }

  /** A job key `name.namespace` deletes that job in that namespace before applying the entry's job or cronJob. */
  lemma RunDeletesThenApplies(outcome: Command -> Result<Json>, context: string, spec: Spec,
                              name: string, namespace: string)
    requires '.' !in name && '.' !in namespace
    requires name + "." + namespace in spec.resources
    requires JobRun(outcome, context, Compiled(spec), name + "." + namespace).result.Ok?
    ensures var entry := spec.resources[name + "." + namespace];
      JobRun(outcome, context, Compiled(spec), name + "." + namespace).commands ==
        [Delete(context, namespace, JobKind(entry), name), Apply(context, Lookup(entry, JobKind(entry)))]
  {
    assert name + "." + namespace == name + ['.'] + namespace;
    SplitNoSep(namespace, '.');
    SplitPrefix(name, namespace, '.');
  }

  /** Behaviour as coded: a job key without '.' deletes in the namespace "undefined". */
  lemma RunWithoutNamespace(job: string)
    requires '.' !in job
    ensures JobNamespace(job) == "undefined" && JobName(job) == job
  {
    SplitNoSep(job, '.');
  }

  /** A failing delete stops run before the apply. */
  lemma RunDeleteFailureStops(outcome: Command -> Result<Json>, context: string, spec: Spec, job: string)
    requires job in spec.resources
    requires outcome(Delete(context, JobNamespace(job), JobKind(spec.resources[job]), JobName(job))).Err?
    ensures |JobRun(outcome, context, Compiled(spec), job).commands| == 1
    ensures JobRun(outcome, context, Compiled(spec), job).result.Err?
  {
  }
}

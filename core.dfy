/**
 * The container lookup of the controllers' shared helpers (src/k8s/core.js):
 * the (image, name) pairs of a workload's pod template, narrowed to one
 * container by an image prefix when there are several.
 */
module Core {
  import opened Wrappers
  import opened Strings
  import opened Json

  datatype ContainerRef = ContainerRef(image: JsVal, name: JsVal)

  /** The error of a property read on undefined or null, or a string method called on a non-string. */
  const TypeError: string := "TypeError"

  /** `resource.spec.template.spec.containers`: each level must be there, and the list must be an array. */
  function ContainerList(resource: Json): Result<seq<Json>>
  {
    var spec := Prop(Some(resource), "spec");
    if IsNullish(spec) then Err(TypeError)
    else
      var template := Prop(spec, "template");
      if IsNullish(template) then Err(TypeError)
      else
        var inner := Prop(template, "spec");
        if IsNullish(inner) then Err(TypeError)
        else
          var cs := Prop(inner, "containers");
          if cs.Some? && cs.value.JArr? then Ok(cs.value.a) else Err(TypeError)
  }

  /** `{image: c.image, name: c.name}`. */
  function Project(c: Json): ContainerRef
    requires !c.JNull?
  {
    ContainerRef(Prop(Some(c), "image"), Prop(Some(c), "name"))
  }

  /**
   * `c.image.indexOf(prefix) === 0`: a string image starts with the prefix;
   * for an array image, Array indexOf finds the prefix as its first element.
   */
  predicate ImageStartsWith(c: Json, prefix: string)
  {
    var image := Prop(Some(c), "image");
    image.Some? &&
    match image.value
    case JStr(s) => StartsWith(s, prefix)
    case JArr(a) => |a| > 0 && a[0] == JStr(prefix)
    case _ => false
  }

  /** A container the search can test: not null, with an image that has an indexOf method (a string or an array). */
  predicate Testable(c: Json)
  {
    var image := Prop(Some(c), "image");
    !c.JNull? && image.Some? && (image.value.JStr? || image.value.JArr?)
  }

  /**
   * `_.find(containers, c => c.image.indexOf(prefix) === 0)` from index i:
   * the index of the first match, or a TypeError at a container reached
   * before one whose image cannot be searched.
   */
  function FindByPrefix(cs: seq<Json>, prefix: string, i: nat): (r: Result<Option<nat>>)
    requires i <= |cs|
    ensures r.Ok? && r.value.Some? ==>
      i <= r.value.value < |cs| && ImageStartsWith(cs[r.value.value], prefix)
      && forall j :: i <= j < r.value.value ==> Testable(cs[j]) && !ImageStartsWith(cs[j], prefix)
    ensures r.Ok? && r.value.None? ==> forall j :: i <= j < |cs| ==> Testable(cs[j]) && !ImageStartsWith(cs[j], prefix)
    ensures r.Err? <==>
      (exists j :: i <= j < |cs| && !Testable(cs[j]) && forall l :: i <= l < j ==> !ImageStartsWith(cs[l], prefix))
    decreases |cs| - i
  {
    if i == |cs| then Ok(None)
    else if !Testable(cs[i]) then Err(TypeError)
    else if ImageStartsWith(cs[i], prefix) then Ok(Some(i))
    else FindByPrefix(cs, prefix, i + 1)
  }

  /** `containers.map(x => ({image: x.image, name: x.name}))`; a null container throws. */
  function ProjectAll(cs: seq<Json>): (r: Result<seq<ContainerRef>>)
  {
    if |cs| == 0 then Ok([])
    else if cs[0].JNull? then Err(TypeError)
    else
      match ProjectAll(cs[1..])
      case Err(e) => Err(e)
      case Ok(rest) => Ok([Project(cs[0])] + rest)
  }

  /** getContainersFromSpec(resource, image). */
  function ContainersFromSpec(resource: Json, image: JsVal): (r: Result<seq<ContainerRef>>)
  {
    match ContainerList(resource)
    case Err(e) => Err(e)
    case Ok(cs) =>
      if |cs| == 1 then (if cs[0].JNull? then Err(TypeError) else Ok([Project(cs[0])]))
      else if Truthy(image) then
        match FindByPrefix(cs, ToStr(image), 0)
        case Err(e) => Err(e)
        case Ok(found) => Ok(if found.Some? then [Project(cs[found.value])] else [])
      else ProjectAll(cs)
  }

  // ------------------------------------------------------------------ lemmas

  lemma {:induction false} ProjectAllExact(cs: seq<Json>)
    ensures ProjectAll(cs).Ok? <==> forall i :: 0 <= i < |cs| ==> !cs[i].JNull?
    ensures ProjectAll(cs).Ok? ==>
      |ProjectAll(cs).value| == |cs| && forall i :: 0 <= i < |cs| ==> ProjectAll(cs).value[i] == Project(cs[i])
  {
    if |cs| > 0 {
      ProjectAllExact(cs[1..]);
      assert forall i :: 1 <= i < |cs| ==> cs[i] == cs[1..][i - 1];
      if ProjectAll(cs).Ok? {
        var rest := ProjectAll(cs[1..]).value;
        assert ProjectAll(cs).value == [Project(cs[0])] + rest;
      }
    }
  }

  /** A workload with exactly one container reports it, whatever the image filter. */
  lemma SingleContainerIgnoresFilter(resource: Json, image: JsVal)
    requires ContainerList(resource).Ok? && |ContainerList(resource).value| == 1
    requires !ContainerList(resource).value[0].JNull?
    ensures ContainersFromSpec(resource, image) == Ok([Project(ContainerList(resource).value[0])])
  {
  }

  /**
   * With several containers and a filter, the result is the first container
   * whose image starts with the filter, or nothing when none does.
   */
  lemma FilterFindsFirst(resource: Json, image: JsVal)
    requires ContainerList(resource).Ok? && |ContainerList(resource).value| != 1 && Truthy(image)
    requires ContainersFromSpec(resource, image).Ok?
    ensures var cs := ContainerList(resource).value;
      var r := ContainersFromSpec(resource, image).value;
      (r == [] <==> forall j :: 0 <= j < |cs| ==> !ImageStartsWith(cs[j], ToStr(image)))
      && (r != [] ==>
            exists j :: 0 <= j < |cs| && ImageStartsWith(cs[j], ToStr(image)) && r == [Project(cs[j])]
              && forall l :: 0 <= l < j ==> !ImageStartsWith(cs[l], ToStr(image)))
  {
  }

  /** Without a filter, every container is reported, in order. */
  lemma NoFilterProjectsAll(resource: Json, image: JsVal)
    requires ContainerList(resource).Ok? && |ContainerList(resource).value| != 1 && !Truthy(image)
    requires forall i :: 0 <= i < |ContainerList(resource).value| ==> !ContainerList(resource).value[i].JNull?
    ensures var cs := ContainerList(resource).value;
      ContainersFromSpec(resource, image).Ok? && |ContainersFromSpec(resource, image).value| == |cs|
      && forall i :: 0 <= i < |cs| ==> ContainersFromSpec(resource, image).value[i] == Project(cs[i])
  {
    ProjectAllExact(ContainerList(resource).value);
  }

  /** The result never has more entries than containers, and at most one when a filter is given. */
  lemma ContainersBounded(resource: Json, image: JsVal)
    requires ContainersFromSpec(resource, image).Ok?
    ensures |ContainersFromSpec(resource, image).value| <= |ContainerList(resource).value|
    ensures Truthy(image) ==> |ContainersFromSpec(resource, image).value| <= 1
  {
    ProjectAllExact(ContainerList(resource).value);
  }
}

/**
 * The Kubernetes API server as the controllers see it through their client:
 * a store of objects addressed by API, namespace, resource collection and
 * name, answering get, create, patch, update (replace) and delete requests.
 * Every request is recorded in a trace. A request can be refused with an
 * error message (an API error the controllers do not control); otherwise
 * create fails on an existing object and the other verbs on a missing one.
 * A patch is applied as a JSON merge patch (RFC 7396, section 2).
 */
module Platform {
  import opened Wrappers
  import opened Json

  /** The core API, or a named API group; `None` is the group of a client version with no entry. */
  datatype Api = Core | Group(name: Option<string>)

  /** Where an object lives; `namespace` is `None` for cluster-scoped resources. */
  datatype Key = Key(api: Api, namespace: Option<string>, resource: string, name: string)

  datatype Verb = Getting | Creating | Patching | Updating | Deleting

  /** The verb and the object of a request, which is what a refusal is keyed by. */
  datatype Call = Call(verb: Verb, key: Key)

  datatype Request =
    | GetReq(key: Key)
    | CreateReq(key: Key, body: Json)
    | PatchReq(key: Key, diff: Json)
    | UpdateReq(key: Key, body: Json)
    | DeleteReq(key: Key)

  function CallOf(req: Request): Call
  {
    match req
    case GetReq(k) => Call(Getting, k)
    case CreateReq(k, _) => Call(Creating, k)
    case PatchReq(k, _) => Call(Patching, k)
    case UpdateReq(k, _) => Call(Updating, k)
    case DeleteReq(k) => Call(Deleting, k)
  }

  function NotFound(k: Key): string { k.resource + " \"" + k.name + "\" not found" }

  function AlreadyExists(k: Key): string { k.resource + " \"" + k.name + "\" already exists" }

  /**
   * JSON merge patch (RFC 7396, section 2): an object patch merges key by
   * key into the target (a target that is not an object counts as `{}`),
   * null removes a key, and any other patch replaces the target.
   */
  function MergePatch(target: Json, patch: Json): (r: Json)
    ensures !patch.JObj? ==> r == patch
    ensures patch.JObj? ==> r.JObj?
    decreases patch
  {
    if !patch.JObj? then patch
    else
      var t := if target.JObj? then target.m else map[];
      JObj(map c | c in t.Keys + patch.m.Keys && !(c in patch.m && patch.m[c].JNull?) ::
        if c in patch.m then MergePatch(if c in t then t[c] else JNull, patch.m[c]) else t[c])
  }

  /** The answer to a request and the objects the server holds afterwards. */
  datatype Reply = Reply(result: Result<Json>, objects: map<Key, Json>)

  function Serve(objects: map<Key, Json>, refused: map<Call, string>, req: Request): (r: Reply)
  {
    var c := CallOf(req);
    if c in refused then Reply(Err(refused[c]), objects)
    else
      match req
      case CreateReq(k, b) =>
        if k in objects then Reply(Err(AlreadyExists(k)), objects) else Reply(Ok(b), objects[k := b])
      case _ =>
        var k := req.key;
        if k !in objects then Reply(Err(NotFound(k)), objects)
        else
          match req
          case GetReq(_) => Reply(Ok(objects[k]), objects)
          case PatchReq(_, d) => Reply(Ok(MergePatch(objects[k], d)), objects[k := MergePatch(objects[k], d)])
          case UpdateReq(_, b) => Reply(Ok(b), objects[k := b])
          case DeleteReq(_) => Reply(Ok(objects[k]), objects - {k})
  }

  class Store {
    var objects: map<Key, Json>
    var trace: seq<Request>
    const refused: map<Call, string>

    constructor (objects0: map<Key, Json>, refused0: map<Call, string>)
      ensures objects == objects0 && refused == refused0 && trace == []
    {
      objects := objects0;
      refused := refused0;
      trace := [];
    }

    method Get(k: Key) returns (r: Result<Json>)
      modifies this
      ensures Reply(r, objects) == Serve(old(objects), refused, GetReq(k))
      ensures trace == old(trace) + [GetReq(k)]
    {
      trace := trace + [GetReq(k)];
      if Call(Getting, k) in refused {
        r := Err(refused[Call(Getting, k)]);
      } else if k in objects {
        r := Ok(objects[k]);
      } else {
        r := Err(NotFound(k));
      }
    }

    method Create(k: Key, body: Json) returns (r: Result<Json>)
      modifies this
      ensures Reply(r, objects) == Serve(old(objects), refused, CreateReq(k, body))
      ensures trace == old(trace) + [CreateReq(k, body)]
    {
      trace := trace + [CreateReq(k, body)];
      if Call(Creating, k) in refused {
        r := Err(refused[Call(Creating, k)]);
      } else if k in objects {
        r := Err(AlreadyExists(k));
      } else {
        objects := objects[k := body];
        r := Ok(body);
      }
    }

    method Patch(k: Key, diff: Json) returns (r: Result<Json>)
      modifies this
      ensures Reply(r, objects) == Serve(old(objects), refused, PatchReq(k, diff))
      ensures trace == old(trace) + [PatchReq(k, diff)]
    {
      trace := trace + [PatchReq(k, diff)];
      if Call(Patching, k) in refused {
        r := Err(refused[Call(Patching, k)]);
      } else if k !in objects {
        r := Err(NotFound(k));
      } else {
        var patched := MergePatch(objects[k], diff);
        objects := objects[k := patched];
        r := Ok(patched);
      }
    }

    method Update(k: Key, body: Json) returns (r: Result<Json>)
      modifies this
      ensures Reply(r, objects) == Serve(old(objects), refused, UpdateReq(k, body))
      ensures trace == old(trace) + [UpdateReq(k, body)]
    {
      trace := trace + [UpdateReq(k, body)];
      if Call(Updating, k) in refused {
        r := Err(refused[Call(Updating, k)]);
      } else if k !in objects {
        r := Err(NotFound(k));
      } else {
        objects := objects[k := body];
        r := Ok(body);
      }
    }

    method Delete(k: Key) returns (r: Result<Json>)
      modifies this
      ensures Reply(r, objects) == Serve(old(objects), refused, DeleteReq(k))
      ensures trace == old(trace) + [DeleteReq(k)]
    {
      trace := trace + [DeleteReq(k)];
      if Call(Deleting, k) in refused {
        r := Err(refused[Call(Deleting, k)]);
      } else if k !in objects {
        r := Err(NotFound(k));
      } else {
        r := Ok(objects[k]);
        objects := objects - {k};
      }
    }
  }

  // ------------------------------------------------------------------ lemmas

  /** A request only ever touches the object it names; a failed one and a get touch nothing. */
  lemma ServeTouchesOnlyItsKey(objects: map<Key, Json>, refused: map<Call, string>, req: Request, k: Key)
    requires k != req.key
    ensures var r := Serve(objects, refused, req);
      (k in r.objects <==> k in objects) && (k in objects ==> r.objects[k] == objects[k])
    ensures Serve(objects, refused, req).result.Err? ==> Serve(objects, refused, req).objects == objects
    ensures req.GetReq? ==> Serve(objects, refused, req).objects == objects
  {
  }

  /** Create succeeds exactly on a missing, unrefused object, and a get then returns the body. */
  lemma CreateThenGet(objects: map<Key, Json>, refused: map<Call, string>, k: Key, body: Json)
    requires Call(Getting, k) !in refused
    ensures Serve(objects, refused, CreateReq(k, body)).result.Ok?
      <==> k !in objects && Call(Creating, k) !in refused
    ensures Serve(objects, refused, CreateReq(k, body)).result.Ok? ==>
      Serve(Serve(objects, refused, CreateReq(k, body)).objects, refused, GetReq(k)).result == Ok(body)
  {
  }

  /** After a successful delete the object is gone: a get fails and a create of it can succeed. */
  lemma DeleteThenGet(objects: map<Key, Json>, refused: map<Call, string>, k: Key)
    requires Serve(objects, refused, DeleteReq(k)).result.Ok?
    ensures var after := Serve(objects, refused, DeleteReq(k)).objects;
      k !in after && Serve(after, refused, GetReq(k)).result.Err?
      && (Call(Creating, k) !in refused ==> Serve(after, refused, CreateReq(k, JNull)).result.Ok?)
  {
  }

  /** Patching with an object keeps the target's other keys, sets the patched ones and drops the null ones. */
  lemma MergePatchKeys(target: Json, patch: Json, c: string)
    requires target.JObj? && patch.JObj?
    ensures c in patch.m && patch.m[c] == JNull ==> c !in MergePatch(target, patch).m
    ensures c in patch.m && !patch.m[c].JNull? && !patch.m[c].JObj? ==> MergePatch(target, patch).m[c] == patch.m[c]
    ensures c !in patch.m ==> (c in MergePatch(target, patch).m <==> c in target.m)
    ensures c !in patch.m && c in target.m ==> MergePatch(target, patch).m[c] == target.m[c]
  {
  }

  /** Applying the same merge patch twice is the same as applying it once (RFC 7396, section 1). */
  lemma {:induction false} MergePatchIdempotent(target: Json, patch: Json)
    ensures MergePatch(MergePatch(target, patch), patch) == MergePatch(target, patch)
    decreases patch
  {
    if patch.JObj? {
      var once := MergePatch(target, patch);
      var twice := MergePatch(once, patch);
      var t := if target.JObj? then target.m else map[];
      forall c | c in patch.m && !patch.m[c].JNull?
        ensures MergePatch(once.m[c], patch.m[c]) == once.m[c]
      {
        MergePatchIdempotent(if c in t then t[c] else JNull, patch.m[c]);
      }
      assert twice.m.Keys == once.m.Keys;
      assert forall c | c in twice.m :: twice.m[c] == once.m[c];
      assert twice.m == once.m;
    }
  }
}

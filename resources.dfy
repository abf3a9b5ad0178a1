/** The manifest constructors of the deployment library (lib/resources.js). */
module Resources {
  import opened Wrappers
  import opened Json

  /** The manifest of a namespace: `{apiVersion: 'v1', kind: 'Namespace', metadata: {name}}`. */
  function NamespaceManifest(name: string): (m: Json)
    ensures m.JObj? && m.m.Keys == {"apiVersion", "kind", "metadata"}
  {
    JObj(map["apiVersion" := JStr("v1"), "kind" := JStr("Namespace"), "metadata" := JObj(map["name" := JStr(name)])])
  }

  /** Reading the manifest back gives the kind, the API version and the name it was built from, and metadata holds nothing else. */
  lemma NamespaceManifestFields(name: string)
    ensures var m := Some(NamespaceManifest(name));
      Prop(m, "kind") == Str("Namespace") && Prop(m, "apiVersion") == Str("v1")
      && Prop(Prop(m, "metadata"), "name") == Str(name)
      && Prop(m, "metadata").value.JObj? && Prop(m, "metadata").value.m.Keys == {"name"}
  {
  }

  /** Different names give different manifests. */
  lemma NamespaceManifestInjective(a: string, b: string)
    requires NamespaceManifest(a) == NamespaceManifest(b)
    ensures a == b
  {
    assert NamespaceManifest(a).m["metadata"].m["name"] == JStr(a);
  }
}

/** Identity derivation: the PostgreSQL database and role names of an
    instance, the names of the Kubernetes objects made for it, and the
    label sets those objects carry. */
module Naming {
  import opened Common

  /** PostgreSQL truncates identifiers longer than this many characters. */
  const MaxIdentifierLength: nat := 63

  function DbNameSource(instanceName: string, namespace: string): string {
    "odoo_" + namespace + "_" + instanceName
  }

  function DbUsernameSource(instanceName: string, namespace: string): string {
    "odoo_user_" + namespace + "_" + instanceName
  }

  /** `generate_db_name`: `odoo_<namespace>_<name>`, cut to 63 characters. */
  function DbName(instanceName: string, namespace: string): (r: string)
    ensures r <= DbNameSource(instanceName, namespace)
    ensures |r| <= MaxIdentifierLength
    ensures |DbNameSource(instanceName, namespace)| <= MaxIdentifierLength ==> r == DbNameSource(instanceName, namespace)
    ensures |DbNameSource(instanceName, namespace)| > MaxIdentifierLength ==> |r| == MaxIdentifierLength
  {
    Take(DbNameSource(instanceName, namespace), MaxIdentifierLength)
  }

  /** `generate_db_username`: `odoo_user_<namespace>_<name>`, cut to 63 characters. */
  function DbUsername(instanceName: string, namespace: string): (r: string)
    ensures r <= DbUsernameSource(instanceName, namespace)
    ensures |r| <= MaxIdentifierLength
    ensures |DbUsernameSource(instanceName, namespace)| <= MaxIdentifierLength ==> r == DbUsernameSource(instanceName, namespace)
    ensures |DbUsernameSource(instanceName, namespace)| > MaxIdentifierLength ==> |r| == MaxIdentifierLength
  {
    Take(DbUsernameSource(instanceName, namespace), MaxIdentifierLength)
  }

  /** Kubernetes namespace names are DNS labels, which never contain an underscore. */
  predicate NoUnderscore(s: string) {
    forall i :: 0 <= i < |s| ==> s[i] != '_'
  }

  /** In `a + "_" + b`, the first underscore sits just after `a` when `a` has none. */
  lemma FirstUnderscore(a: string, b: string)
    requires NoUnderscore(a)
    ensures (a + "_" + b)[|a|] == '_'
    ensures forall i :: 0 <= i < |a| ==> (a + "_" + b)[i] != '_'
  {
  }

  /** Splitting at the first underscore recovers both halves when the first has none. */
  lemma SplitAtUnderscore(a: string, b: string, c: string, d: string)
    requires NoUnderscore(a) && NoUnderscore(c)
    requires a + "_" + b == c + "_" + d
    ensures a == c && b == d
  {
    var s := a + "_" + b;
    FirstUnderscore(a, b);
    FirstUnderscore(c, d);
    assert |a| == |c|;
    assert a == s[..|a|];
    assert c == (c + "_" + d)[..|c|];
    assert b == s[|a| + 1..];
    assert d == (c + "_" + d)[|c| + 1..];
  }

  /** While the untruncated name fits, distinct instances get distinct databases. */
  lemma {:induction false} DbNameInjective(name1: string, ns1: string, name2: string, ns2: string)
    requires NoUnderscore(ns1) && NoUnderscore(ns2)
    requires |DbNameSource(name1, ns1)| <= MaxIdentifierLength
    requires |DbNameSource(name2, ns2)| <= MaxIdentifierLength
    requires DbName(name1, ns1) == DbName(name2, ns2)
    ensures name1 == name2 && ns1 == ns2
  {
    assert DbNameSource(name1, ns1) == "odoo_" + (ns1 + "_" + name1);
    assert DbNameSource(name2, ns2) == "odoo_" + (ns2 + "_" + name2);
    PrefixCancel("odoo_", ns1 + "_" + name1, ns2 + "_" + name2);
    SplitAtUnderscore(ns1, name1, ns2, name2);
  }

  /** While the untruncated name fits, distinct instances get distinct roles. */
  lemma {:induction false} DbUsernameInjective(name1: string, ns1: string, name2: string, ns2: string)
    requires NoUnderscore(ns1) && NoUnderscore(ns2)
    requires |DbUsernameSource(name1, ns1)| <= MaxIdentifierLength
    requires |DbUsernameSource(name2, ns2)| <= MaxIdentifierLength
    requires DbUsername(name1, ns1) == DbUsername(name2, ns2)
    ensures name1 == name2 && ns1 == ns2
  {
    assert DbUsernameSource(name1, ns1) == "odoo_user_" + (ns1 + "_" + name1);
    assert DbUsernameSource(name2, ns2) == "odoo_user_" + (ns2 + "_" + name2);
    PrefixCancel("odoo_user_", ns1 + "_" + name1, ns2 + "_" + name2);
    SplitAtUnderscore(ns1, name1, ns2, name2);
  }

  /** Once truncation applies, two instances whose names share their first
      characters share a database: the namespace does not keep them apart. */
  lemma DbNameTruncationCollides(ns: string, stem: string)
    requires |"odoo_" + ns + "_" + stem| >= MaxIdentifierLength
    ensures DbName(stem + "-a", ns) == DbName(stem + "-b", ns)
    ensures stem + "-a" != stem + "-b"
  {
    var p := "odoo_" + ns + "_" + stem;
    assert DbNameSource(stem + "-a", ns) == p + "-a";
    assert DbNameSource(stem + "-b", ns) == p + "-b";
    assert (p + "-a")[..MaxIdentifierLength] == p[..MaxIdentifierLength] == (p + "-b")[..MaxIdentifierLength];
    assert (stem + "-a")[|stem| + 1] != (stem + "-b")[|stem| + 1];
  }

  /* ---------------- Kubernetes object names ---------------- */

  /** The filestore PersistentVolumeClaim `create_filestore_pvc` makes. */
  function FilestorePvcName(name: string): string {
    "odoo-filestore-" + name
  }

  function ConfigMapName(name: string): string {
    "odoo-config-" + name
  }

  function CredentialsSecretName(name: string): string {
    "odoo-db-credentials-" + name
  }

  /** The live Deployment, Service and Ingress are named after the instance itself. */
  function WorkloadName(name: string): string {
    name
  }

  /** The name the earlier (shadowed) builders used, and the one update deletes. */
  function LegacyWorkloadName(name: string): string {
    "odoo-" + name
  }

  /** The claim the live Deployment mounts. */
  function LiveClaimName(name: string): string {
    name + "-filestore"
  }

  function DefaultTlsSecretName(name: string): string {
    name + "-tls"
  }

  function LegacyTlsSecretName(name: string): string {
    "odoo-" + name + "-tls"
  }

  /** Each prefixed name determines its instance, so two instances never share an object. */
  lemma PrefixedNamesInjective(n1: string, n2: string)
    ensures FilestorePvcName(n1) == FilestorePvcName(n2) ==> n1 == n2
    ensures ConfigMapName(n1) == ConfigMapName(n2) ==> n1 == n2
    ensures CredentialsSecretName(n1) == CredentialsSecretName(n2) ==> n1 == n2
    ensures LegacyWorkloadName(n1) == LegacyWorkloadName(n2) ==> n1 == n2
  {
    if FilestorePvcName(n1) == FilestorePvcName(n2) { PrefixCancel("odoo-filestore-", n1, n2); }
    if ConfigMapName(n1) == ConfigMapName(n2) { PrefixCancel("odoo-config-", n1, n2); }
    if CredentialsSecretName(n1) == CredentialsSecretName(n2) { PrefixCancel("odoo-db-credentials-", n1, n2); }
    if LegacyWorkloadName(n1) == LegacyWorkloadName(n2) { PrefixCancel("odoo-", n1, n2); }
  }

  /* ---------------- Labels ---------------- */

  const NameLabel: string := "app.kubernetes.io/name"
  const InstanceLabel: string := "app.kubernetes.io/instance"
  const ManagedByLabel: string := "app.kubernetes.io/managed-by"
  const ComponentLabel: string := "app.kubernetes.io/component"
  const VersionLabel: string := "app.kubernetes.io/version"

  /** The selector of the live Deployment and Service and the labels of the pods. */
  function SelectorLabels(name: string): map<string, string> {
    map[NameLabel := "odoo", InstanceLabel := name]
  }

  /** The label set every object the operator creates carries. */
  function ObjectLabels(name: string): (l: map<string, string>)
    ensures SelectorLabels(name).Keys <= l.Keys
    ensures forall k :: k in SelectorLabels(name) ==> l[k] == SelectorLabels(name)[k]
    ensures ManagedByLabel in l && l[ManagedByLabel] == "odoo-operator"
  {
    SelectorLabels(name)[ManagedByLabel := "odoo-operator"]
  }

  /** The filestore claim additionally names its component. */
  function FilestoreLabels(name: string): (l: map<string, string>)
    ensures ObjectLabels(name).Keys <= l.Keys
    ensures forall k :: k in ObjectLabels(name) ==> l[k] == ObjectLabels(name)[k]
    ensures ComponentLabel in l && l[ComponentLabel] == "filestore"
  {
    ObjectLabels(name)[ComponentLabel := "filestore"]
  }

  /** Labels matched by a selector: every selector key present with the same value. */
  predicate Selects(selector: map<string, string>, labels: map<string, string>) {
    forall k :: k in selector ==> k in labels && labels[k] == selector[k]
  }

  /** An instance's selector picks its own pods and never another instance's. */
  lemma SelectorIsolatesInstances(n1: string, n2: string)
    ensures Selects(SelectorLabels(n1), SelectorLabels(n1))
    ensures Selects(SelectorLabels(n1), ObjectLabels(n1))
    ensures Selects(SelectorLabels(n1), SelectorLabels(n2)) <==> n1 == n2
  {
    if Selects(SelectorLabels(n1), SelectorLabels(n2)) {
      assert InstanceLabel in SelectorLabels(n1);
    }
  }
}

/** The objects the live builders submit for an instance, the addon loop that
    extends the Deployment, the URL reported in the status, and the in-place
    rewrites the update handler applies to a fetched Deployment or Ingress.
    The spec is read as the handlers read their dictionary: a field that is
    None is a key that is absent, so the `get` default applies. */
module Synthesis {
  import opened Common
  import opened Types
  import opened Naming
  import opened Resources

  /** Deployment-wide settings read from the environment, at their defaults. */
  const DefaultOdooImage: string := "odoo:17.0"
  const DefaultStorageClass: string := "standard"
  const DefaultIngressClass: string := "nginx"
  const DefaultStorageSize: string := "10Gi"

  function Meta(name: string, namespace: string, objectName: string, labels: map<string, string>, uid: string): Metadata {
    Metadata(objectName, namespace, labels, map[], OwnerReference(name, uid))
  }

  /* ---------------- PersistentVolumeClaim and ConfigMap ---------------- */

  /** `create_filestore_pvc`: size and class come from the filestore block, else 10Gi and the default class. */
  function FilestorePvc(name: string, namespace: string, spec: OdooInstanceSpec, uid: string): (p: Pvc)
    ensures p.meta.name == FilestorePvcName(name) && p.meta.namespace == namespace
    ensures p.meta.labels == FilestoreLabels(name) && p.meta.owner == OwnerReference(name, uid)
    ensures spec.filestore.None? ==> p.storageSize == DefaultStorageSize && p.storageClass == DefaultStorageClass
    ensures spec.filestore.Some? ==>
      && p.storageSize == spec.filestore.value.storageSize.GetOr(DefaultStorageSize)
      && p.storageClass == spec.filestore.value.storageClass.GetOr(DefaultStorageClass)
  {
    var fs := spec.filestore.GetOr(FilestoreSpec(None, None, None));
    Pvc(Meta(name, namespace, FilestorePvcName(name), FilestoreLabels(name), uid),
        fs.storageSize.GetOr(DefaultStorageSize), fs.storageClass.GetOr(DefaultStorageClass))
  }

  /** The fixed `odoo.conf`, which refers to the database settings through environment variables. */
  const OdooConf: string :=
    "\n[options]\n; This is the password that allows database operations:\nadmin_passwd = $ODOO_ADMIN_PASSWORD\n"
    + "db_host = $ODOO_DB_HOST\ndb_port = $ODOO_DB_PORT\ndb_user = $ODOO_DB_USER\ndb_password = $ODOO_DB_PASSWORD\n"
    + "addons_path = /mnt/extra-addons\ndata_dir = /var/lib/odoo\nproxy_mode = True\n"

  /** `create_config_map`: the same configuration file for every spec. */
  function OdooConfigMap(name: string, namespace: string, uid: string): (c: ConfigMap)
    ensures c.meta.name == ConfigMapName(name) && c.meta.namespace == namespace
    ensures c.meta.labels == ObjectLabels(name) && c.meta.owner == OwnerReference(name, uid)
    ensures c.data.Keys == {"odoo.conf"} && c.data["odoo.conf"] == OdooConf
  {
    ConfigMap(Meta(name, namespace, ConfigMapName(name), ObjectLabels(name), uid), map["odoo.conf" := OdooConf])
  }

  /* ---------------- Deployment ---------------- */

  /** The image: the spec's when set and non-empty; an empty one falls back to
      `odoo:<version>`; an absent one to the default image. */
  function LiveImage(spec: OdooInstanceSpec): (image: string)
    ensures spec.image.None? ==> image == DefaultOdooImage
    ensures spec.image == Some("") ==> image == "odoo:" + spec.version
    ensures spec.image.Some? && spec.image.value != "" ==> image == spec.image.value
  {
    match spec.image
    case None => DefaultOdooImage
    case Some(i) => if i == "" then "odoo:" + spec.version else i
  }

  /** The resources used when the spec has no `resources` key. */
  function DefaultResources(): ResourceRequirements {
    ResourceRequirements(
      Some(map["cpu" := "2", "memory" := "4Gi"]),
      Some(map["cpu" := "500m", "memory" := "1Gi"]))
  }

  const OdooPorts: seq<ContainerPort> := [ContainerPort("http", 8069), ContainerPort("longpolling", 8072)]

  const FilestoreVolumeName: string := "filestore"

  function FilestoreVolume(name: string): Volume {
    Volume(FilestoreVolumeName, Claim(LiveClaimName(name)))
  }

  const FilestoreMount: VolumeMount := VolumeMount(FilestoreVolumeName, "/var/lib/odoo", None, false)

  function AddonVolumeName(i: nat): string {
    "addon-" + NatToString(i)
  }

  /** Where init task `i` clones its repository. */
  function AddonCloneDir(i: nat): string {
    "/mnt/addons/" + NatToString(i)
  }

  function AddonVolume(i: nat): Volume {
    Volume(AddonVolumeName(i), EmptyDir)
  }

  /** Init task `i`: a shallow clone of the addon's branch (default `main`) into its own volume. */
  function CloneTask(i: nat, addon: AddonRepo): Container {
    Container(
      "clone-" + NatToString(i), "alpine/git",
      ["git", "clone", "--depth", "1", "--branch", addon.branch.GetOr(DefaultBranch), addon.repo, AddonCloneDir(i)],
      [], [], [], [VolumeMount(AddonVolumeName(i), AddonCloneDir(i), None, false)], None, None, None)
  }

  /** Where the Odoo container sees addon `i`: `/mnt/extra-addons/<i>`, then `/<path>` when a path is set. */
  function AddonTarget(i: nat, path: string): string {
    var base := "/mnt/extra-addons/" + NatToString(i);
    if path != "" then base + "/" + path else base
  }

  function AddonMount(i: nat, addon: AddonRepo): VolumeMount {
    var path := addon.path.GetOr("");
    VolumeMount(AddonVolumeName(i), AddonTarget(i, path), Some(path), false)
  }

  function AddonVolumes(addons: seq<AddonRepo>): seq<Volume> {
    seq(|addons|, i requires 0 <= i < |addons| => AddonVolume(i))
  }

  function CloneTasks(addons: seq<AddonRepo>): seq<Container> {
    seq(|addons|, i requires 0 <= i < |addons| => CloneTask(i, addons[i]))
  }

  function AddonMounts(addons: seq<AddonRepo>): seq<VolumeMount> {
    seq(|addons|, i requires 0 <= i < |addons| => AddonMount(i, addons[i]))
  }

  /** The addon loop: for the i-th addon, append volume `addon-i`, init task
      `clone-i` and the matching mount, in the order of the addon list. */
  method AddonTasks(addons: seq<AddonRepo>) returns (volumes: seq<Volume>, inits: seq<Container>, mounts: seq<VolumeMount>)
    ensures |volumes| == |inits| == |mounts| == |addons|
    ensures forall i :: 0 <= i < |addons| ==>
      && volumes[i] == AddonVolume(i)
      && inits[i] == CloneTask(i, addons[i])
      && mounts[i] == AddonMount(i, addons[i])
    ensures volumes == AddonVolumes(addons) && inits == CloneTasks(addons) && mounts == AddonMounts(addons)
  {
    volumes, inits, mounts := [], [], [];
    for i := 0 to |addons|
      invariant |volumes| == |inits| == |mounts| == i
      invariant forall k :: 0 <= k < i ==>
        && volumes[k] == AddonVolume(k)
        && inits[k] == CloneTask(k, addons[k])
        && mounts[k] == AddonMount(k, addons[k])
    {
      volumes := volumes + [AddonVolume(i)];
      inits := inits + [CloneTask(i, addons[i])];
      mounts := mounts + [AddonMount(i, addons[i])];
    }
  }

  /** The Odoo container of the live Deployment. */
  function OdooContainer(spec: OdooInstanceSpec): Container {
    Container(
      "odoo", LiveImage(spec), [], [], OdooPorts, spec.env.GetOr([]),
      [FilestoreMount] + AddonMounts(spec.addons.GetOr([])),
      Some(spec.resources.GetOr(DefaultResources())), None, None)
  }

  /** The live `create_deployment` (operator.py:1098): named after the instance,
      one container, the filestore claim, and the addon volumes and init tasks
      when the addon list is non-empty. */
  function LiveDeployment(name: string, namespace: string, spec: OdooInstanceSpec, uid: string): Deployment {
    var addons := spec.addons.GetOr([]);
    Deployment(
      Meta(name, namespace, WorkloadName(name), ObjectLabels(name), uid),
      spec.replicas, SelectorLabels(name), SelectorLabels(name),
      [OdooContainer(spec)],
      if addons != [] then Some(CloneTasks(addons)) else None,
      [FilestoreVolume(name)] + AddonVolumes(addons))
  }

  /** Builds the live Deployment the way the source does: the base object first,
      then the addon loop's volumes, init tasks and mounts. */
  method BuildLiveDeployment(name: string, namespace: string, spec: OdooInstanceSpec, uid: string) returns (d: Deployment)
    ensures d == LiveDeployment(name, namespace, spec, uid)
    ensures d.meta.name == name && d.volumes[0] == Volume("filestore", Claim(name + "-filestore"))
  {
    var container := Container(
      "odoo", LiveImage(spec), [], [], OdooPorts, spec.env.GetOr([]), [FilestoreMount],
      Some(spec.resources.GetOr(DefaultResources())), None, None);
    d := Deployment(
      Meta(name, namespace, WorkloadName(name), ObjectLabels(name), uid),
      spec.replicas, SelectorLabels(name), SelectorLabels(name),
      [container], None, [FilestoreVolume(name)]);
    var addons := spec.addons.GetOr([]);
    if addons != [] {
      var volumes, inits, mounts := AddonTasks(addons);
      d := d.(volumes := d.volumes + volumes, initContainers := Some(inits));
      d := d.(containers := [d.containers[0].(volumeMounts := d.containers[0].volumeMounts + mounts)]);
    } else {
      assert AddonMounts(addons) == [] && AddonVolumes(addons) == [];
      assert [FilestoreMount] + AddonMounts(addons) == [FilestoreMount];
      assert [FilestoreVolume(name)] + AddonVolumes(addons) == [FilestoreVolume(name)];
    }
    assert d.containers == [OdooContainer(spec)];
  }

  /** Distinct addon indices get distinct volume and init task names, never `filestore`. */
  lemma AddonNamesDistinct(i: nat, j: nat)
    ensures AddonVolumeName(i) != FilestoreVolumeName
    ensures i != j ==> AddonVolumeName(i) != AddonVolumeName(j)
    ensures i != j ==> "clone-" + NatToString(i) != "clone-" + NatToString(j)
  {
    assert AddonVolumeName(i)[0] == 'a' != 'f' == FilestoreVolumeName[0];
    if AddonVolumeName(i) == AddonVolumeName(j) {
      PrefixCancel("addon-", NatToString(i), NatToString(j));
      NatToStringInjective(i, j);
    }
    if "clone-" + NatToString(i) == "clone-" + NatToString(j) {
      PrefixCancel("clone-", NatToString(i), NatToString(j));
      NatToStringInjective(i, j);
    }
  }

  /** Every mount of the Odoo container names one of the live pod's volumes. */
  lemma LiveMountsResolve(name: string, addons: seq<AddonRepo>)
    ensures forall m :: m in [FilestoreMount] + AddonMounts(addons) ==>
      exists v :: v in [FilestoreVolume(name)] + AddonVolumes(addons) && v.name == m.name
  {
    var vs := [FilestoreVolume(name)] + AddonVolumes(addons);
    forall m | m in [FilestoreMount] + AddonMounts(addons)
      ensures exists v :: v in vs && v.name == m.name
    {
      if m == FilestoreMount {
        assert vs[0] in vs;
      } else {
        var k :| 0 <= k < |addons| && m == AddonMount(k, addons[k]);
        assert vs[k + 1] == AddonVolume(k);
        assert vs[k + 1] in vs;
      }
    }
  }

  /** Every init task mounts its own addon volume, which the live pod has. */
  lemma LiveCloneTasksResolve(name: string, addons: seq<AddonRepo>)
    ensures forall c :: c in CloneTasks(addons) ==> MountsResolve(c, [FilestoreVolume(name)] + AddonVolumes(addons))
  {
    var vs := [FilestoreVolume(name)] + AddonVolumes(addons);
    forall c | c in CloneTasks(addons)
      ensures MountsResolve(c, vs)
    {
      var k :| 0 <= k < |addons| && c == CloneTask(k, addons[k]);
      assert vs[k + 1] == AddonVolume(k);
      assert vs[k + 1] in vs;
    }
  }

  /** The live pod's volume names are pairwise distinct. */
  lemma LiveVolumeNamesDistinct(name: string, addons: seq<AddonRepo>)
    ensures var vs := [FilestoreVolume(name)] + AddonVolumes(addons);
      forall a, b :: 0 <= a < b < |vs| ==> vs[a].name != vs[b].name
  {
    var vs := [FilestoreVolume(name)] + AddonVolumes(addons);
    forall a, b | 0 <= a < b < |vs|
      ensures vs[a].name != vs[b].name
    {
      if a == 0 {
        AddonNamesDistinct(b - 1, b - 1);
      } else {
        AddonNamesDistinct(a - 1, b - 1);
      }
    }
  }

  /** The live pod is well formed: volume names are unique, and every mount of
      the Odoo container and of every init task names one of the pod's volumes. */
  lemma LiveDeploymentWellFormed(name: string, namespace: string, spec: OdooInstanceSpec, uid: string)
    ensures var d := LiveDeployment(name, namespace, spec, uid);
      && PodMountsResolve(d)
      && (forall a, b :: 0 <= a < b < |d.volumes| ==> d.volumes[a].name != d.volumes[b].name)
  {
    var d := LiveDeployment(name, namespace, spec, uid);
    var addons := spec.addons.GetOr([]);
    assert d.volumes == [FilestoreVolume(name)] + AddonVolumes(addons);
    assert d.containers == [OdooContainer(spec)];
    assert forall c :: c in d.containers ==> MountsResolve(c, d.volumes) by {
      LiveMountsResolve(name, addons);
    }
    LiveCloneTasksResolve(name, addons);
    LiveVolumeNamesDistinct(name, addons);
  }

  /** The live pod mounts the claim `<name>-filestore`, while the claim
      `create_filestore_pvc` makes is `odoo-filestore-<name>`: the pod's
      filestore volume never names the instance's own claim. */
  lemma LiveClaimMissesFilestorePvc(name: string, namespace: string, spec: OdooInstanceSpec, uid1: string, uid2: string)
    ensures var d := LiveDeployment(name, namespace, spec, uid1);
      && d.volumes[0].name == FilestoreVolumeName
      && d.volumes[0].source.Claim?
      && d.volumes[0].source.claimName != FilestorePvc(name, namespace, spec, uid2).meta.name
  {
    assert |LiveClaimName(name)| != |FilestorePvcName(name)|;
  }

  /** The live Deployment with its filestore volume on the claim that
      `create_filestore_pvc` makes. */
  function CorrectedLiveDeployment(name: string, namespace: string, spec: OdooInstanceSpec, uid: string): (d: Deployment)
    ensures |d.volumes| >= 1 && d.volumes[0] == Volume(FilestoreVolumeName, Claim(FilestorePvcName(name)))
  {
    var live := LiveDeployment(name, namespace, spec, uid);
    live.(volumes := [Volume(FilestoreVolumeName, Claim(FilestorePvcName(name)))] + live.volumes[1..])
  }

  /** The corrected Deployment mounts the instance's own filestore claim,
      differs from the live one in that volume only, and stays well formed. */
  lemma CorrectedClaimIsFilestorePvc(name: string, namespace: string, spec: OdooInstanceSpec, uid1: string, uid2: string)
    ensures var d := CorrectedLiveDeployment(name, namespace, spec, uid1);
      var live := LiveDeployment(name, namespace, spec, uid1);
      && d.volumes[0].source == Claim(FilestorePvc(name, namespace, spec, uid2).meta.name)
      && d == live.(volumes := d.volumes)
      && |d.volumes| == |live.volumes|
      && (forall i :: 0 < i < |d.volumes| ==> d.volumes[i] == live.volumes[i])
      && (forall i :: 0 <= i < |d.volumes| ==> d.volumes[i].name == live.volumes[i].name)
      && PodMountsResolve(d)
  {
    var d := CorrectedLiveDeployment(name, namespace, spec, uid1);
    var live := LiveDeployment(name, namespace, spec, uid1);
    LiveDeploymentWellFormed(name, namespace, spec, uid1);
    forall i | 0 <= i < |d.volumes|
      ensures d.volumes[i].name == live.volumes[i].name
    {
    }
    forall c, m | (c in d.containers || (d.initContainers.Some? && c in d.initContainers.value)) && m in c.volumeMounts
      ensures exists v :: v in d.volumes && v.name == m.name
    {
      var v :| v in live.volumes && v.name == m.name;
      var i :| 0 <= i < |live.volumes| && live.volumes[i] == v;
      assert d.volumes[i] in d.volumes;
    }
  }

  /* ---------------- Service ---------------- */

  const OdooServicePorts: seq<ServicePort> := [ServicePort("http", 80, "http"), ServicePort("longpolling", 8072, "longpolling")]

  /** The live `create_service` (operator.py:1305): named after the instance. */
  function LiveService(name: string, namespace: string, uid: string): Service {
    Service(Meta(name, namespace, WorkloadName(name), ObjectLabels(name), uid), SelectorLabels(name), OdooServicePorts)
  }

  /** The live Service routes to the live Deployment's pods: its selector picks
      their labels and each target port is a named port of the Odoo container. */
  lemma ServiceRoutesToDeployment(name: string, namespace: string, spec: OdooInstanceSpec, uid1: string, uid2: string)
    ensures var s := LiveService(name, namespace, uid1);
      var d := LiveDeployment(name, namespace, spec, uid2);
      && Selects(s.selector, d.podLabels)
      && forall p :: p in s.ports ==> exists cp :: cp in d.containers[0].ports && cp.name == p.targetPort
  {
    var d := LiveDeployment(name, namespace, spec, uid2);
    assert d.containers[0].ports[0].name == "http" && d.containers[0].ports[1].name == "longpolling";
    assert d.containers[0].ports[0] in d.containers[0].ports && d.containers[0].ports[1] in d.containers[0].ports;
  }

  /* ---------------- Ingress ---------------- */

  /** The ingress block as the handlers read it: an absent block reads with every default. */
  function IngressOf(spec: OdooInstanceSpec): IngressSpec {
    spec.ingress.GetOr(DefaultIngress())
  }

  /** `spec.get('ingress', {}).get('enabled', True)`. */
  predicate IngressEnabled(spec: OdooInstanceSpec) {
    IngressOf(spec).enabled
  }

  /** A hostname Python treats as true: present and non-empty. */
  predicate HasHostname(ing: IngressSpec) {
    ing.hostname.Some? && ing.hostname.value != ""
  }

  /** The TLS block: when tls is on (the default), one entry for the hostname
      with the given secret name or `<name>-tls`; when off, no `tls` key. */
  function TlsBlock(name: string, ing: IngressSpec): (t: Option<seq<IngressTls>>)
    ensures t.Some? <==> ing.tls
    ensures t.Some? ==> |t.value| == 1 && t.value[0].hosts == [ing.hostname]
    ensures t.Some? && ing.tlsSecret.Some? ==> t.value[0].secretName == ing.tlsSecret.value
    ensures t.Some? && ing.tlsSecret.None? ==> t.value[0].secretName == DefaultTlsSecretName(name)
  {
    if ing.tls then Some([IngressTls([ing.hostname], ing.tlsSecret.GetOr(DefaultTlsSecretName(name)))]) else None
  }

  /** The live `create_ingress` (operator.py:1369). It does not check the
      hostname: without one, the rule has no host. */
  function LiveIngress(name: string, namespace: string, spec: OdooInstanceSpec, uid: string): (i: Ingress)
    ensures i.meta.name == name && |i.rules| == 1 && i.rules[0].serviceName == LiveService(name, namespace, uid).meta.name
    ensures i.rules[0].host == IngressOf(spec).hostname
  {
    var ing := IngressOf(spec);
    Ingress(
      Metadata(WorkloadName(name), namespace, ObjectLabels(name), ing.annotations.GetOr(map[]), OwnerReference(name, uid)),
      ing.className.GetOr(DefaultIngressClass),
      [IngressRule(ing.hostname, WorkloadName(name))],
      TlsBlock(name, ing))
  }

  /** The URL written to the status: set only when the ingress is enabled and a
      hostname is given; https unless tls is switched off. */
  function StatusUrl(spec: OdooInstanceSpec): (url: Option<string>)
    ensures url.Some? <==> IngressEnabled(spec) && HasHostname(IngressOf(spec))
    ensures url.Some? && IngressOf(spec).tls ==> url.value == "https://" + IngressOf(spec).hostname.value
    ensures url.Some? && !IngressOf(spec).tls ==> url.value == "http://" + IngressOf(spec).hostname.value
  {
    var ing := IngressOf(spec);
    if ing.enabled && HasHostname(ing) then
      Some((if ing.tls then "https" else "http") + "://" + ing.hostname.value)
    else None
  }

  /** Both enabled flags default to true: an absent ingress block, or one without `enabled`, is enabled. */
  lemma IngressEnabledByDefault(spec: OdooInstanceSpec)
    requires spec.ingress.None?
    ensures IngressEnabled(spec) && IngressOf(spec).tls
    ensures StatusUrl(spec).None?
  {
  }

  /* ---------------- In-place rewrites on update ---------------- */

  function IndexError(): PyError {
    PyError("IndexError", "list index out of range")
  }

  /** `update_ingress`'s edits of the fetched Ingress: the class always; the first
      rule's host only when a hostname is given; the annotations only when
      non-empty; the TLS list replaced, and emptied when tls is off. */
  function UpdatedIngress(current: Ingress, name: string, spec: OdooInstanceSpec): Result<Ingress> {
    var ing := IngressOf(spec);
    if HasHostname(ing) && current.rules == [] then Raise(IndexError())
    else
      var rules := if HasHostname(ing) then current.rules[0 := current.rules[0].(host := ing.hostname)] else current.rules;
      var annotations :=
        if ing.annotations.Some? && ing.annotations.value != map[] then ing.annotations.value else current.meta.annotations;
      Ok(current.(
        className := ing.className.GetOr(DefaultIngressClass),
        rules := rules,
        meta := current.meta.(annotations := annotations),
        tls := Some(TlsBlock(name, ing).GetOr([]))))
  }

  /** The rewrite step by step, on the fetched object. */
  method RewriteIngress(current: Ingress, name: string, spec: OdooInstanceSpec) returns (r: Result<Ingress>)
    ensures r == UpdatedIngress(current, name, spec)
    ensures r.Raise? <==> HasHostname(IngressOf(spec)) && current.rules == []
  {
    var ing := IngressOf(spec);
    var x := current;
    x := x.(className := ing.className.GetOr(DefaultIngressClass));
    if HasHostname(ing) {
      if x.rules == [] {
        return Raise(IndexError());
      }
      x := x.(rules := x.rules[0 := x.rules[0].(host := ing.hostname)]);
    }
    if ing.annotations.Some? && ing.annotations.value != map[] {
      x := x.(meta := x.meta.(annotations := ing.annotations.value));
    }
    if ing.tls {
      x := x.(tls := Some([IngressTls([ing.hostname], ing.tlsSecret.GetOr(DefaultTlsSecretName(name)))]));
    } else {
      x := x.(tls := Some([]));
    }
    r := Ok(x);
  }

  /** Rewriting what create made changes nothing but an unset TLS list into an empty one. */
  lemma UpdateIngressConverges(name: string, namespace: string, spec: OdooInstanceSpec, uid: string)
    ensures var created := LiveIngress(name, namespace, spec, uid);
      var r := UpdatedIngress(created, name, spec);
      && r.Ok?
      && TlsEntries(r.value) == TlsEntries(created)
      && r.value.(tls := created.tls) == created
      && (IngressOf(spec).tls ==> r.value == created)
  {
  }

  /** The rewrite is idempotent, and keeps the object's identity, labels and owner. */
  lemma UpdateIngressIdempotent(current: Ingress, name: string, spec: OdooInstanceSpec)
    requires UpdatedIngress(current, name, spec).Ok?
    ensures var once := UpdatedIngress(current, name, spec).value;
      && UpdatedIngress(once, name, spec) == Ok(once)
      && once.meta.(annotations := current.meta.annotations) == current.meta
      && |once.rules| == |current.rules|
      && (forall k :: 1 <= k < |current.rules| ==> once.rules[k] == current.rules[k])
  {
    var ing := IngressOf(spec);
    var once := UpdatedIngress(current, name, spec).value;
    if HasHostname(ing) {
      assert once.rules[0].host == ing.hostname;
      assert once.rules[0 := once.rules[0].(host := ing.hostname)] == once.rules;
    }
  }

  /** `spec.get('resources', {})` is true when the block sets limits or requests. */
  predicate ResourcesGiven(spec: OdooInstanceSpec) {
    spec.resources.Some? && (spec.resources.value.limits.Some? || spec.resources.value.requests.Some?)
  }

  predicate EnvGiven(spec: OdooInstanceSpec) {
    spec.env.Some? && spec.env.value != []
  }

  /** `update_deployment`'s edits of the fetched Deployment: replicas and the
      first container's image always; its resources and env only when the spec
      gives non-empty ones. */
  function UpdatedDeployment(current: Deployment, spec: OdooInstanceSpec): Result<Deployment> {
    if current.containers == [] then Raise(IndexError())
    else
      var c := current.containers[0].(image := LiveImage(spec));
      var c := if ResourcesGiven(spec) then c.(resources := spec.resources) else c;
      var c := if EnvGiven(spec) then c.(env := spec.env.value) else c;
      Ok(current.(replicas := spec.replicas, containers := current.containers[0 := c]))
  }

  /** The rewrite step by step, on the fetched object. */
  method RewriteDeployment(current: Deployment, spec: OdooInstanceSpec) returns (r: Result<Deployment>)
    ensures r == UpdatedDeployment(current, spec)
    ensures r.Raise? <==> current.containers == []
  {
    var d := current;
    d := d.(replicas := spec.replicas);
    if d.containers == [] {
      return Raise(IndexError());
    }
    var c := d.containers[0];
    c := c.(image := LiveImage(spec));
    if ResourcesGiven(spec) {
      c := c.(resources := spec.resources);
    }
    if EnvGiven(spec) {
      c := c.(env := spec.env.value);
    }
    d := d.(containers := d.containers[0 := c]);
    r := Ok(d);
  }

  /** Rewriting what create made, with the same spec, changes nothing. */
  lemma UpdateDeploymentConverges(name: string, namespace: string, spec: OdooInstanceSpec, uid: string)
    ensures UpdatedDeployment(LiveDeployment(name, namespace, spec, uid), spec) == Ok(LiveDeployment(name, namespace, spec, uid))
  {
    var d := LiveDeployment(name, namespace, spec, uid);
    var c := d.containers[0];
    assert c.image == LiveImage(spec);
    assert ResourcesGiven(spec) ==> c.resources == spec.resources;
    assert EnvGiven(spec) ==> c.env == spec.env.value;
    assert d.containers[0 := c] == d.containers;
  }

  /** The rewrite is idempotent and touches only replicas and the first container's
      image, resources and env: metadata, selector, volumes and init tasks stay. */
  lemma UpdateDeploymentIdempotent(current: Deployment, spec: OdooInstanceSpec)
    requires UpdatedDeployment(current, spec).Ok?
    ensures var once := UpdatedDeployment(current, spec).value;
      && UpdatedDeployment(once, spec) == Ok(once)
      && once.(replicas := current.replicas, containers := current.containers) == current
      && once.replicas == spec.replicas
      && |once.containers| == |current.containers|
      && once.containers[0].(image := current.containers[0].image, resources := current.containers[0].resources,
                             env := current.containers[0].env) == current.containers[0]
      && (forall k :: 1 <= k < |current.containers| ==> once.containers[k] == current.containers[k])
  {
    var once := UpdatedDeployment(current, spec).value;
    var c := once.containers[0];
    assert c.image == LiveImage(spec);
    assert ResourcesGiven(spec) ==> c.resources == spec.resources;
    assert EnvGiven(spec) ==> c.env == spec.env.value;
    assert once.containers[0 := c] == once.containers;
  }
}

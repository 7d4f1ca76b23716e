/** The earlier `create_deployment` (operator.py:641), which the later
    definition of the same name replaces when the module is loaded. It is the
    only caller of `create_database_user`: it provisions the database, falls
    back to a fresh password and a plain credentials Secret when that fails,
    and builds a Deployment `odoo-<name>` whose environment reads the
    credentials Secret and is then overlaid with the spec's own entries. */
module Legacy {
  import opened Common
  import opened Json
  import opened Types
  import opened Naming
  import opened Resources
  import opened Synthesis
  import EnvOverlay
  import opened Cluster
  import opened Database

  const DefaultAdminSecret: string := "odoo-admin-credentials"
  const DefaultAdminSecretKeyName: string := "admin-password"
  const AddonsVolumeName: string := "odoo-addons"
  const AddonsRoot: string := "/mnt/extra-addons"

  /** An environment entry read from key `key` of Secret `secret`. */
  function SecretEnv(envName: string, secret: string, key: string): EnvVar {
    EnvVar(envName, None, Some(map["secretKeyRef" := JObject(map["name" := JString(secret), "key" := JString(key)])]))
  }

  /** The Secret and key an entry reads, when it reads one. */
  function SecretRefOf(e: EnvVar): Option<(string, string)> {
    if e.valueFrom.Some? && "secretKeyRef" in e.valueFrom.value then
      match e.valueFrom.value["secretKeyRef"]
      case JObject(ref) =>
        if "name" in ref && "key" in ref && ref["name"].JString? && ref["key"].JString? then Some((ref["name"].s, ref["key"].s))
        else None
      case _ => None
    else None
  }

  /** The five database entries, each read from the instance's credentials Secret. */
  function DatabaseEnv(name: string): seq<EnvVar> {
    var secret := CredentialsSecretName(name);
    [SecretEnv("ODOO_DB_HOST", secret, "host"),
     SecretEnv("ODOO_DB_PORT", secret, "port"),
     SecretEnv("ODOO_DB_USER", secret, "username"),
     SecretEnv("ODOO_DB_PASSWORD", secret, "password"),
     SecretEnv("ODOO_DB_NAME", secret, "database")]
  }

  /** `d.get(key, default)` on a dictionary of strings. */
  function GetOr(d: map<string, string>, key: string, default: string): string {
    if key in d then d[key] else default
  }

  /** The base environment: the database entries, then the Odoo admin password
      from the spec's `adminSecret` (name and key defaulted separately). */
  function BaseEnv(name: string, adminSecret: map<string, string>): seq<EnvVar> {
    DatabaseEnv(name)
      + [SecretEnv("ODOO_ADMIN_PASSWORD", GetOr(adminSecret, "name", DefaultAdminSecret),
                   GetOr(adminSecret, "key", DefaultAdminSecretKeyName))]
  }

  /** The environment after the custom entries: overlaid only when `env` is a non-empty list. */
  function LegacyEnv(name: string, spec: OdooInstanceSpec, adminSecret: map<string, string>): seq<EnvVar> {
    if spec.env.Some? && spec.env.value != [] then EnvOverlay.Overlay(BaseEnv(name, adminSecret), spec.env.value)
    else BaseEnv(name, adminSecret)
  }

  /** The base entries have six distinct names. */
  lemma BaseEnvUnique(name: string, adminSecret: map<string, string>)
    ensures EnvOverlay.UniqueNames(BaseEnv(name, adminSecret))
    ensures EnvOverlay.Names(BaseEnv(name, adminSecret))
         == {"ODOO_DB_HOST", "ODOO_DB_PORT", "ODOO_DB_USER", "ODOO_DB_PASSWORD", "ODOO_DB_NAME", "ODOO_ADMIN_PASSWORD"}
  {
    var b := BaseEnv(name, adminSecret);
    assert b[5..][1..] == [];
    assert EnvOverlay.Names(b[5..]) == {"ODOO_ADMIN_PASSWORD"};
    assert EnvOverlay.UniqueNames(b[5..]);
    assert b[4..][1..] == b[5..];
    assert EnvOverlay.Names(b[4..]) == {"ODOO_DB_NAME", "ODOO_ADMIN_PASSWORD"};
    assert EnvOverlay.UniqueNames(b[4..]);
    assert b[3..][1..] == b[4..];
    assert EnvOverlay.Names(b[3..]) == {"ODOO_DB_PASSWORD", "ODOO_DB_NAME", "ODOO_ADMIN_PASSWORD"};
    assert EnvOverlay.UniqueNames(b[3..]);
    assert b[2..][1..] == b[3..];
    assert EnvOverlay.Names(b[2..]) == {"ODOO_DB_USER", "ODOO_DB_PASSWORD", "ODOO_DB_NAME", "ODOO_ADMIN_PASSWORD"};
    assert EnvOverlay.UniqueNames(b[2..]);
    assert b[1..][1..] == b[2..];
    assert EnvOverlay.Names(b[1..]) == {"ODOO_DB_PORT", "ODOO_DB_USER", "ODOO_DB_PASSWORD", "ODOO_DB_NAME", "ODOO_ADMIN_PASSWORD"};
    assert EnvOverlay.UniqueNames(b[1..]);
  }

  /** The environment holds each name once; custom entries keep their last
      value, and the base entries they do not name come first in base order. */
  lemma LegacyEnvOverlaid(name: string, spec: OdooInstanceSpec, adminSecret: map<string, string>)
    ensures var custom := spec.env.GetOr([]);
      && EnvOverlay.UniqueNames(LegacyEnv(name, spec, adminSecret))
      && LegacyEnv(name, spec, adminSecret) == EnvOverlay.OverlayReference(BaseEnv(name, adminSecret), custom)
  {
    var base := BaseEnv(name, adminSecret);
    var custom := spec.env.GetOr([]);
    BaseEnvUnique(name, adminSecret);
    EnvOverlay.OverlayUnique(base, custom);
    EnvOverlay.OverlayMatchesReference(base, custom);
    assert LegacyEnv(name, spec, adminSecret) == EnvOverlay.Overlay(base, custom);
  }

  /** A database name is never empty, so the credentials Secret always carries `database`. */
  lemma DbNameNonEmpty(name: string, namespace: string)
    ensures DbName(name, namespace) != ""
  {
    assert DbNameSource(name, namespace)[0] == 'o';
    assert DbName(name, namespace)[0] == 'o';
  }

  /** Every database entry reads a key that the credentials Secret written for
      the instance carries. */
  lemma DatabaseEnvResolves(name: string, namespace: string, user: string, password: string, uid: string)
    ensures var secret := CredentialsSecret(name, namespace, user, password, DbName(name, namespace), uid);
      forall e :: e in DatabaseEnv(name) ==>
        SecretRefOf(e).Some? && SecretRefOf(e).value.0 == secret.meta.name && SecretRefOf(e).value.1 in secret.data
  {
    DbNameNonEmpty(name, namespace);
  }

  /* ---------------- Volumes, mounts and init tasks ---------------- */

  /** `spec.get('addons')` is truthy: the list is present and non-empty. */
  predicate HasAddons(spec: OdooInstanceSpec) {
    spec.addons.Some? && spec.addons.value != []
  }

  function LegacyVolumes(name: string, spec: OdooInstanceSpec): seq<Volume> {
    [Volume("odoo-config", ConfigMapVolume(ConfigMapName(name))),
     Volume("odoo-filestore", Claim(FilestorePvcName(name)))]
      + (if HasAddons(spec) then [Volume(AddonsVolumeName, EmptyDir)] else [])
  }

  const AddonsMount: VolumeMount := VolumeMount(AddonsVolumeName, AddonsRoot, None, false)

  function LegacyMounts(spec: OdooInstanceSpec): seq<VolumeMount> {
    [VolumeMount("odoo-config", "/etc/odoo", None, true),
     VolumeMount("odoo-filestore", "/var/lib/odoo", Some("filestore"), false)]
      + (if HasAddons(spec) then [AddonsMount] else [])
  }

  /** Init task `i`: clone the addon's branch (default `main`) and copy its
      `path` (default empty) into `/mnt/extra-addons/<i>`. */
  function LegacyCloneTask(i: nat, addon: AddonRepo): Container {
    var n := NatToString(i);
    var script := "git clone --depth 1 --branch " + addon.branch.GetOr(DefaultBranch) + " " + addon.repo + " /tmp/addons && "
      + "mkdir -p " + AddonsRoot + "/" + n + " && "
      + "cp -r /tmp/addons/" + addon.path.GetOr("") + "/* " + AddonsRoot + "/" + n + "/";
    Container("clone-addons-" + n, "alpine/git:latest", ["sh", "-c"], [script], [], [], [AddonsMount], None, None, None)
  }

  function LegacyCloneTasks(addons: seq<AddonRepo>): seq<Container> {
    seq(|addons|, i requires 0 <= i < |addons| => LegacyCloneTask(i, addons[i]))
  }

  /* ---------------- The Deployment ---------------- */

  /** The image: the spec's `image` when the key is present (even empty), else `odoo:<version>`. */
  function LegacyImage(spec: OdooInstanceSpec): (image: string)
    ensures spec.image.Some? ==> image == spec.image.value
    ensures spec.image.None? ==> image == "odoo:" + spec.version
  {
    spec.image.GetOr("odoo:" + spec.version)
  }

  const LivenessProbe: Probe := Probe("/web/health", 60, 10, 5, None, 6)
  const ReadinessProbe: Probe := Probe("/web/health", 30, 10, 5, Some(1), 6)

  function LegacyContainer(name: string, spec: OdooInstanceSpec, adminSecret: map<string, string>): Container {
    Container("odoo", LegacyImage(spec), [], [], OdooPorts, LegacyEnv(name, spec, adminSecret), LegacyMounts(spec),
              Some(spec.resources.GetOr(ResourceRequirements(None, None))), Some(LivenessProbe), Some(ReadinessProbe))
  }

  /** The Deployment `odoo-<name>`: the object and pod labels add the version. */
  function LegacyDeployment(name: string, namespace: string, spec: OdooInstanceSpec, adminSecret: map<string, string>, uid: string): Deployment {
    Deployment(
      Meta(name, namespace, LegacyWorkloadName(name), ObjectLabels(name)[VersionLabel := spec.version], uid),
      spec.replicas, SelectorLabels(name), SelectorLabels(name)[VersionLabel := spec.version],
      [LegacyContainer(name, spec, adminSecret)],
      if HasAddons(spec) then Some(LegacyCloneTasks(spec.addons.value)) else None,
      LegacyVolumes(name, spec))
  }

  /** Each mount of the main container names one of the pod volumes. */
  lemma LegacyMountsResolve(name: string, spec: OdooInstanceSpec)
    ensures forall m :: m in LegacyMounts(spec) ==> exists v :: v in LegacyVolumes(name, spec) && v.name == m.name
  {
    var vs := LegacyVolumes(name, spec);
    forall m | m in LegacyMounts(spec)
      ensures exists v :: v in vs && v.name == m.name
    {
      if m.name == "odoo-config" {
        assert vs[0] in vs;
      } else if m.name == "odoo-filestore" {
        assert vs[1] in vs;
      } else {
        assert vs[2] in vs;
      }
    }
  }

  /** Each clone task mounts only the addons volume, which the pod has when
      there are addons. */
  lemma LegacyCloneTasksResolve(name: string, spec: OdooInstanceSpec)
    requires HasAddons(spec)
    ensures forall c :: c in LegacyCloneTasks(spec.addons.value) ==> MountsResolve(c, LegacyVolumes(name, spec))
  {
    var vs := LegacyVolumes(name, spec);
    assert vs[2] in vs && vs[2].name == AddonsVolumeName;
    forall c | c in LegacyCloneTasks(spec.addons.value)
      ensures MountsResolve(c, vs)
    {
      var k :| 0 <= k < |spec.addons.value| && c == LegacyCloneTask(k, spec.addons.value[k]);
      assert c.volumeMounts == [AddonsMount];
    }
  }

  /** The pod is well formed and mounts the objects the other helpers create:
      the claim `create_filestore_pvc` makes and the ConfigMap `create_config_map`
      makes; its selector matches its pods. */
  lemma LegacyDeploymentWellFormed(name: string, namespace: string, spec: OdooInstanceSpec, adminSecret: map<string, string>, uid: string)
    ensures var d := LegacyDeployment(name, namespace, spec, adminSecret, uid);
      && PodMountsResolve(d)
      && Volume("odoo-filestore", Claim(FilestorePvc(name, namespace, spec, uid).meta.name)) in d.volumes
      && Volume("odoo-config", ConfigMapVolume(OdooConfigMap(name, namespace, uid).meta.name)) in d.volumes
      && Selects(d.selector, d.podLabels)
  {
    var d := LegacyDeployment(name, namespace, spec, adminSecret, uid);
    assert d.containers == [LegacyContainer(name, spec, adminSecret)];
    assert forall c :: c in d.containers ==> MountsResolve(c, d.volumes) by {
      LegacyMountsResolve(name, spec);
    }
    if HasAddons(spec) {
      LegacyCloneTasksResolve(name, spec);
    }
    assert d.volumes[0] in d.volumes && d.volumes[1] in d.volumes;
  }

  /** Builds the Deployment the way the source does: the environment by the
      overlay loop, then one init task per addon, appended in order. */
  method BuildLegacyDeployment(name: string, namespace: string, spec: OdooInstanceSpec, adminSecret: map<string, string>, uid: string)
    returns (d: Deployment)
    ensures d == LegacyDeployment(name, namespace, spec, adminSecret, uid)
  {
    var env := BaseEnv(name, adminSecret);
    if spec.env.Some? && spec.env.value != [] {
      env := EnvOverlay.ApplyOverlay(env, spec.env.value);
    }
    var container := Container("odoo", LegacyImage(spec), [], [], OdooPorts, env, LegacyMounts(spec),
                               Some(spec.resources.GetOr(ResourceRequirements(None, None))), Some(LivenessProbe), Some(ReadinessProbe));
    d := Deployment(
      Meta(name, namespace, LegacyWorkloadName(name), ObjectLabels(name)[VersionLabel := spec.version], uid),
      spec.replicas, SelectorLabels(name), SelectorLabels(name)[VersionLabel := spec.version],
      [container], None, LegacyVolumes(name, spec));
    if HasAddons(spec) {
      var addons := spec.addons.value;
      var inits: seq<Container> := [];
      for i := 0 to |addons|
        invariant inits == LegacyCloneTasks(addons[..i])
      {
        inits := inits + [LegacyCloneTask(i, addons[i])];
      }
      assert addons[..|addons|] == addons;
      d := d.(initContainers := Some(inits));
    }
  }

  /* ---------------- The run ---------------- */

  /** The cluster and server the helper leaves, and what it raised, if anything. */
  datatype LegacyRun = LegacyRun(cluster: Cluster, server: Server, raised: Option<Raised>)

  function LegacyKey(name: string, namespace: string): Key {
    Key(DeploymentKind, namespace, LegacyWorkloadName(name))
  }

  /** The credentials step: provisioning, or on any failure a fresh password
      written to the Secret (whose failure is raised). */
  function LegacyCredentials(c: Cluster, s: Server, name: string, namespace: string, draws: seq<nat>, fallbackDraws: seq<nat>): (r: LegacyRun)
    requires WellKeyed(c) && ValidDraws(draws) && ValidDraws(fallbackDraws)
    ensures WellKeyed(r.cluster) && r.cluster.faults == c.faults && Keeps(c, r.cluster)
    ensures AddsOnly(c, r.cluster, {CredentialsKey(name, namespace)})
  {
    var p := ProvisionDatabase(c, s, name, namespace, None, draws);
    if p.result.Done? then LegacyRun(p.cluster, p.server, None)
    else
      var w := WriteCredentials(p.cluster, name, namespace, DbUsername(name, namespace), GeneratePassword(fallbackDraws),
                                DbName(name, namespace), SkipExisting);
      LegacyRun(w.cluster, p.server, w.raised)
  }

  /** The Deployment part of the earlier `create_deployment`: the uid read
      (before the `try`, so any failure is raised), then the create with 409 absorbed. */
  function LegacyDeploymentStep(c: Cluster, name: string, namespace: string, spec: OdooInstanceSpec,
                                adminSecret: map<string, string>): (r: Step)
    requires WellKeyed(c)
    ensures WellKeyed(r.cluster) && r.cluster.faults == c.faults && Keeps(c, r.cluster)
    ensures AddsOnly(c, r.cluster, {LegacyKey(name, namespace)})
    ensures r.raised.None? ==> LegacyKey(name, namespace) in r.cluster.objects || RefusedWith(c, LegacyKey(name, namespace), Conflict)
  {
    var uid := Read(c, InstanceKey(namespace, name));
    if uid.ReadFailed? then Step(c, Some(uid.raised))
    else
      var d := DeploymentObject(LegacyDeployment(name, namespace, spec, adminSecret, uid.obj.instance.uid));
      var step := Create(c, LegacyKey(name, namespace), d);
      if step.raised == Some(ApiException(Conflict)) then Step(step.cluster, None) else step
  }

  /** The earlier `create_deployment`: the credentials step, then the Deployment. */
  function LegacyCreate(c: Cluster, s: Server, name: string, namespace: string, spec: OdooInstanceSpec,
                        adminSecret: map<string, string>, draws: seq<nat>, fallbackDraws: seq<nat>): (r: LegacyRun)
    requires WellKeyed(c) && ValidDraws(draws) && ValidDraws(fallbackDraws)
    ensures WellKeyed(r.cluster) && r.cluster.faults == c.faults && Keeps(c, r.cluster)
    ensures AddsOnly(c, r.cluster, {CredentialsKey(name, namespace), LegacyKey(name, namespace)})
  {
    var cred := LegacyCredentials(c, s, name, namespace, draws, fallbackDraws);
    if cred.raised.Some? then cred
    else
      var step := LegacyDeploymentStep(cred.cluster, name, namespace, spec, adminSecret);
      LegacyRun(step.cluster, cred.server, step.raised)
  }

  /** When the helper raises nothing, the credentials Secret and the
      Deployment are in the store unless a call on them is refused with 409;
      a server that cannot be administered is left unchanged, and the
      Deployment is made all the same. */
  lemma LegacyCreateOutcome(c: Cluster, s: Server, name: string, namespace: string, spec: OdooInstanceSpec,
                            adminSecret: map<string, string>, draws: seq<nat>, fallbackDraws: seq<nat>)
    requires WellKeyed(c) && ValidDraws(draws) && ValidDraws(fallbackDraws)
    ensures var r := LegacyCreate(c, s, name, namespace, spec, adminSecret, draws, fallbackDraws);
      && (r.raised.None? ==>
            && (CredentialsKey(name, namespace) in r.cluster.objects || RefusedWith(c, CredentialsKey(name, namespace), Conflict))
            && (LegacyKey(name, namespace) in r.cluster.objects || RefusedWith(c, LegacyKey(name, namespace), Conflict)))
      && (!Administrable(c, s, namespace) ==> r.server == s)
  {
    var cred := LegacyCredentials(c, s, name, namespace, draws, fallbackDraws);
    LegacyCredentialsOutcome(c, s, name, namespace, draws, fallbackDraws);
    if cred.raised.None? {
      var step := LegacyDeploymentStep(cred.cluster, name, namespace, spec, adminSecret);
      assert LegacyCreate(c, s, name, namespace, spec, adminSecret, draws, fallbackDraws) == LegacyRun(step.cluster, cred.server, step.raised);
      assert Keeps(cred.cluster, step.cluster) && step.cluster.faults == c.faults;
    }
  }

  /** When the credentials step raises nothing, the Secret is in the store or
      its create met 409; a server that cannot be administered is untouched. */
  lemma LegacyCredentialsOutcome(c: Cluster, s: Server, name: string, namespace: string, draws: seq<nat>, fallbackDraws: seq<nat>)
    requires WellKeyed(c) && ValidDraws(draws) && ValidDraws(fallbackDraws)
    ensures var r := LegacyCredentials(c, s, name, namespace, draws, fallbackDraws);
      && (r.raised.None? ==> CredentialsKey(name, namespace) in r.cluster.objects || RefusedWith(c, CredentialsKey(name, namespace), Conflict))
      && (!Administrable(c, s, namespace) ==> r.server == s)
  {
    ProvisionEffect(c, s, name, namespace, None, draws, SkipExisting);
  }

  /** When provisioning succeeds, the environment's database entries all read
      keys of the Secret in the store, when that Secret is the one just written. */
  lemma LegacyEnvFindsCredentials(c: Cluster, s: Server, name: string, namespace: string, draws: seq<nat>)
    requires WellKeyed(c) && ValidDraws(draws)
    requires CredentialsKey(name, namespace) !in c.objects && CredentialsKey(name, namespace) !in c.faults
    ensures var p := ProvisionDatabase(c, s, name, namespace, None, draws);
      var k := CredentialsKey(name, namespace);
      p.result.Done? ==>
        && k in p.cluster.objects && p.cluster.objects[k].SecretObject?
        && forall e :: e in DatabaseEnv(name) ==>
             SecretRefOf(e).Some? && SecretRefOf(e).value.0 == k.name
             && SecretRefOf(e).value.1 in p.cluster.objects[k].secret.data
  {
    var p := ProvisionDatabase(c, s, name, namespace, None, draws);
    var k := CredentialsKey(name, namespace);
    if p.result.Done? {
      var uid := c.objects[InstanceKey(namespace, name)].instance.uid;
      ProvisionEffect(c, s, name, namespace, None, draws, SkipExisting);
      var user, password := DbUsername(name, namespace), GeneratePassword(draws);
      assert p.cluster.objects[k] == SecretObject(CredentialsSecret(name, namespace, user, password, DbName(name, namespace), uid));
      DatabaseEnvResolves(name, namespace, user, password, uid);
    }
  }

  /** The credentials step, call by call. */
  method ProvideCredentials(store: Store, server: PostgresServer, name: string, namespace: string,
                            draws: seq<nat>, fallbackDraws: seq<nat>) returns (raised: Option<Raised>)
    requires WellKeyed(store.State()) && ValidDraws(draws) && ValidDraws(fallbackDraws)
    modifies store, server
    ensures LegacyRun(store.State(), server.State(), raised)
         == LegacyCredentials(old(store.State()), old(server.State()), name, namespace, draws, fallbackDraws)
  {
    var provisioned := CreateDatabaseUser(store, server, name, namespace, None, draws, SkipExisting);
    if provisioned.Threw? {
      raised := CreateCredentialsSecret(store, name, namespace, DbUsername(name, namespace), GeneratePassword(fallbackDraws),
                                        DbName(name, namespace), SkipExisting);
    } else {
      raised := None;
    }
  }

  /** The earlier `create_deployment`, call by call. */
  method CreateLegacyDeployment(store: Store, server: PostgresServer, name: string, namespace: string, spec: OdooInstanceSpec,
                                adminSecret: map<string, string>, draws: seq<nat>, fallbackDraws: seq<nat>) returns (raised: Option<Raised>)
    requires WellKeyed(store.State()) && ValidDraws(draws) && ValidDraws(fallbackDraws)
    modifies store, server
    ensures LegacyRun(store.State(), server.State(), raised)
         == LegacyCreate(old(store.State()), old(server.State()), name, namespace, spec, adminSecret, draws, fallbackDraws)
  {
    raised := ProvideCredentials(store, server, name, namespace, draws, fallbackDraws);
    if raised.Some? {
      return;
    }
    raised := CreateDeploymentObject(store, name, namespace, spec, adminSecret);
  }

  /** The Deployment part, call by call. */
  method CreateDeploymentObject(store: Store, name: string, namespace: string, spec: OdooInstanceSpec,
                                adminSecret: map<string, string>) returns (raised: Option<Raised>)
    requires WellKeyed(store.State())
    modifies store
    ensures Step(store.State(), raised) == LegacyDeploymentStep(old(store.State()), name, namespace, spec, adminSecret)
  {
    var uid := store.ReadObject(InstanceKey(namespace, name));
    if uid.ReadFailed? {
      return Some(uid.raised);
    }
    var d := BuildLegacyDeployment(name, namespace, spec, adminSecret, uid.obj.instance.uid);
    raised := store.CreateObject(LegacyKey(name, namespace), DeploymentObject(d));
    if raised == Some(ApiException(Conflict)) {
      raised := None;
    }
  }
}

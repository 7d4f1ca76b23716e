/** The typed model of the OdooInstance custom resource: one datatype per
    pydantic model, the defaults each field takes when it is absent, and
    validation of a JSON document into the typed model together with the
    serialisation that inverts it. */
module Types {
  import opened Common
  import opened Json

  datatype ResourceRequirements = ResourceRequirements(
    limits: Option<map<string, string>>,
    requests: Option<map<string, string>>)

  datatype EnvVar = EnvVar(
    name: string,
    value: Option<string>,
    valueFrom: Option<map<string, Json>>)

  datatype DatabaseSpec = DatabaseSpec(
    storageSize: Option<string>,
    storageClass: Option<string>)

  datatype FilestoreSpec = FilestoreSpec(
    storageSize: Option<string>,
    storageClass: Option<string>,
    snapshotClass: Option<string>)

  datatype AddonRepo = AddonRepo(
    repo: string,
    branch: Option<string>,
    path: Option<string>)

  datatype IngressSpec = IngressSpec(
    enabled: bool,
    hostname: Option<string>,
    className: Option<string>,
    annotations: Option<map<string, string>>,
    tls: bool,
    tlsSecret: Option<string>)

  datatype OdooInstanceSpec = OdooInstanceSpec(
    version: string,
    image: Option<string>,
    replicas: int,
    resources: Option<ResourceRequirements>,
    database: Option<DatabaseSpec>,
    filestore: Option<FilestoreSpec>,
    addons: Option<seq<AddonRepo>>,
    ingress: Option<IngressSpec>,
    env: Option<seq<EnvVar>>)

  datatype OdooInstanceStatus = OdooInstanceStatus(
    phase: Option<string>,
    ready: Option<bool>,
    url: Option<string>,
    message: Option<string>)

  datatype OdooInstance = OdooInstance(
    apiVersion: string,
    kind: string,
    metadata: map<string, Json>,
    spec: OdooInstanceSpec,
    status: Option<OdooInstanceStatus>)

  const DefaultApiVersion: string := "odoo.bemade.org/v1"
  const DefaultKind: string := "OdooInstance"
  const DefaultBranch: string := "main"

  /* ---------------- Field validation ---------------- */

  function Invalid(field: string, message: string): PyError {
    PyError("ValidationError", field + ": " + message)
  }

  /** The value under `key`, where an absent key reads as null. */
  function Field(m: map<string, Json>, key: string): Json {
    if key in m then m[key] else JNull
  }

  /** An `Optional[str]` field: absent or null is None. */
  function OptString(j: Json, field: string): Result<Option<string>> {
    match j
    case JNull => Ok(None)
    case JString(s) => Ok(Some(s))
    case _ => Raise(Invalid(field, "Input should be a valid string"))
  }

  /** A required `str` field. */
  function ReqString(m: map<string, Json>, field: string): Result<string> {
    if field !in m then Raise(Invalid(field, "Field required"))
    else if m[field].JString? then Ok(m[field].s)
    else Raise(Invalid(field, "Input should be a valid string"))
  }

  /** An `Optional[str]` field whose default, when absent, is `default`. */
  function StringWithDefault(m: map<string, Json>, field: string, default: string): Result<Option<string>> {
    if field !in m then Ok(Some(default)) else OptString(m[field], field)
  }

  /** A `bool` field with a default: absent takes the default, null is refused. */
  function BoolWithDefault(m: map<string, Json>, field: string, default: bool): Result<bool> {
    if field !in m then Ok(default)
    else if m[field].JBool? then Ok(m[field].b)
    else Raise(Invalid(field, "Input should be a valid boolean"))
  }

  /** An `int` field with a default: absent takes the default, null is refused. */
  function IntWithDefault(m: map<string, Json>, field: string, default: int): Result<int> {
    if field !in m then Ok(default)
    else if m[field].JInt? then Ok(m[field].i)
    else Raise(Invalid(field, "Input should be a valid integer"))
  }

  /** An `Optional[Dict[str, str]]` field. */
  function OptStringMap(j: Json, field: string): Result<Option<map<string, string>>> {
    match j
    case JNull => Ok(None)
    case JObject(m) =>
      if forall k :: k in m ==> m[k].JString? then Ok(Some(map k | k in m :: m[k].s))
      else Raise(Invalid(field, "Input should be a valid string"))
    case _ => Raise(Invalid(field, "Input should be a valid dictionary"))
  }

  /** An `Optional[Dict]` field, kept as JSON. */
  function OptDict(j: Json, field: string): Result<Option<map<string, Json>>> {
    match j
    case JNull => Ok(None)
    case JObject(m) => Ok(Some(m))
    case _ => Raise(Invalid(field, "Input should be a valid dictionary"))
  }

  function Fields(j: Json, model: string): Result<map<string, Json>> {
    if j.JObject? then Ok(j.fields) else Raise(Invalid(model, "Input should be a valid dictionary"))
  }

  /* ---------------- Validation of each model ---------------- */

  function ParseResources(j: Json): Result<ResourceRequirements> {
    var m :- Fields(j, "resources");
    var limits :- OptStringMap(Field(m, "limits"), "limits");
    var requests :- OptStringMap(Field(m, "requests"), "requests");
    Ok(ResourceRequirements(limits, requests))
  }

  function ParseEnvVar(j: Json): Result<EnvVar> {
    var m :- Fields(j, "env");
    var name :- ReqString(m, "name");
    var value :- OptString(Field(m, "value"), "value");
    var valueFrom :- OptDict(Field(m, "valueFrom"), "valueFrom");
    Ok(EnvVar(name, value, valueFrom))
  }

  function ParseDatabase(j: Json): Result<DatabaseSpec> {
    var m :- Fields(j, "database");
    var size :- OptString(Field(m, "storageSize"), "storageSize");
    var cls :- OptString(Field(m, "storageClass"), "storageClass");
    Ok(DatabaseSpec(size, cls))
  }

  function ParseFilestore(j: Json): Result<FilestoreSpec> {
    var m :- Fields(j, "filestore");
    var size :- OptString(Field(m, "storageSize"), "storageSize");
    var cls :- OptString(Field(m, "storageClass"), "storageClass");
    var snap :- OptString(Field(m, "snapshotClass"), "snapshotClass");
    Ok(FilestoreSpec(size, cls, snap))
  }

  function ParseAddon(j: Json): Result<AddonRepo> {
    var m :- Fields(j, "addons");
    var repo :- ReqString(m, "repo");
    var branch :- StringWithDefault(m, "branch", DefaultBranch);
    var path :- OptString(Field(m, "path"), "path");
    Ok(AddonRepo(repo, branch, path))
  }

  function ParseIngress(j: Json): Result<IngressSpec> {
    var m :- Fields(j, "ingress");
    var enabled :- BoolWithDefault(m, "enabled", true);
    var hostname :- OptString(Field(m, "hostname"), "hostname");
    var className :- OptString(Field(m, "className"), "className");
    var annotations :- OptStringMap(Field(m, "annotations"), "annotations");
    var tls :- BoolWithDefault(m, "tls", true);
    var tlsSecret :- OptString(Field(m, "tlsSecret"), "tlsSecret");
    Ok(IngressSpec(enabled, hostname, className, annotations, tls, tlsSecret))
  }

  /** An `Optional[List[AddonRepo]]` field, element by element, keeping order. */
  function ParseAddonList(items: seq<Json>): Result<seq<AddonRepo>> {
    if items == [] then Ok([])
    else
      var first :- ParseAddon(items[0]);
      var rest :- ParseAddonList(items[1..]);
      Ok([first] + rest)
  }

  function ParseEnvList(items: seq<Json>): Result<seq<EnvVar>> {
    if items == [] then Ok([])
    else
      var first :- ParseEnvVar(items[0]);
      var rest :- ParseEnvList(items[1..]);
      Ok([first] + rest)
  }

  function OptResources(j: Json): Result<Option<ResourceRequirements>> {
    if j.JNull? then Ok(None) else var x :- ParseResources(j); Ok(Some(x))
  }

  function OptDatabase(j: Json): Result<Option<DatabaseSpec>> {
    if j.JNull? then Ok(None) else var x :- ParseDatabase(j); Ok(Some(x))
  }

  function OptFilestore(j: Json): Result<Option<FilestoreSpec>> {
    if j.JNull? then Ok(None) else var x :- ParseFilestore(j); Ok(Some(x))
  }

  function OptIngress(j: Json): Result<Option<IngressSpec>> {
    if j.JNull? then Ok(None) else var x :- ParseIngress(j); Ok(Some(x))
  }

  function OptAddons(j: Json): Result<Option<seq<AddonRepo>>> {
    match j
    case JNull => Ok(None)
    case JArray(items) => var xs :- ParseAddonList(items); Ok(Some(xs))
    case _ => Raise(Invalid("addons", "Input should be a valid list"))
  }

  function OptEnv(j: Json): Result<Option<seq<EnvVar>>> {
    match j
    case JNull => Ok(None)
    case JArray(items) => var xs :- ParseEnvList(items); Ok(Some(xs))
    case _ => Raise(Invalid("env", "Input should be a valid list"))
  }

  function ParseSpec(j: Json): Result<OdooInstanceSpec> {
    var m :- Fields(j, "spec");
    var version :- ReqString(m, "version");
    var image :- OptString(Field(m, "image"), "image");
    var replicas :- IntWithDefault(m, "replicas", 1);
    var resources :- OptResources(Field(m, "resources"));
    var database :- OptDatabase(Field(m, "database"));
    var filestore :- OptFilestore(Field(m, "filestore"));
    var addons :- OptAddons(Field(m, "addons"));
    var ingress :- OptIngress(Field(m, "ingress"));
    var env :- OptEnv(Field(m, "env"));
    Ok(OdooInstanceSpec(version, image, replicas, resources, database, filestore, addons, ingress, env))
  }

  function ParseStatus(j: Json): Result<OdooInstanceStatus> {
    var m :- Fields(j, "status");
    var phase :- OptString(Field(m, "phase"), "phase");
    var ready :- (match Field(m, "ready")
                  case JNull => Ok(None)
                  case JBool(b) => Ok(Some(b))
                  case _ => Raise(Invalid("ready", "Input should be a valid boolean")));
    var url :- OptString(Field(m, "url"), "url");
    var message :- OptString(Field(m, "message"), "message");
    Ok(OdooInstanceStatus(phase, ready, url, message))
  }

  function ParseInstance(j: Json): Result<OdooInstance> {
    var m :- Fields(j, "OdooInstance");
    var apiVersion :- (if "apiVersion" in m then ReqString(m, "apiVersion") else Ok(DefaultApiVersion));
    var kind :- (if "kind" in m then ReqString(m, "kind") else Ok(DefaultKind));
    var metadata :- (if "metadata" in m then Fields(m["metadata"], "metadata")
                     else Raise(Invalid("metadata", "Field required")));
    var spec :- (if "spec" in m then ParseSpec(m["spec"]) else Raise(Invalid("spec", "Field required")));
    var status :- (if Field(m, "status").JNull? then Ok(None)
                   else var st :- ParseStatus(m["status"]); Ok(Some(st)));
    Ok(OdooInstance(apiVersion, kind, metadata, spec, status))
  }

  /* ---------------- Serialisation, inverted by validation ---------------- */

  function DumpOptString(o: Option<string>): Json {
    match o
    case None => JNull
    case Some(s) => JString(s)
  }

  function DumpStringMap(o: Option<map<string, string>>): (r: Json)
    ensures forall f :: OptStringMap(r, f) == Ok(o)
  {
    match o
    case None => JNull
    case Some(m) =>
      var j := JObject(map k | k in m :: JString(m[k]));
      assert (map k | k in j.fields :: j.fields[k].s) == m;
      j
  }

  function DumpResources(x: ResourceRequirements): (r: Json)
    ensures ParseResources(r) == Ok(x)
  {
    JObject(map["limits" := DumpStringMap(x.limits), "requests" := DumpStringMap(x.requests)])
  }

  function DumpEnvVar(x: EnvVar): (r: Json)
    ensures ParseEnvVar(r) == Ok(x)
  {
    JObject(map[
      "name" := JString(x.name),
      "value" := DumpOptString(x.value),
      "valueFrom" := match x.valueFrom case None => JNull case Some(m) => JObject(m)])
  }

  function DumpDatabase(x: DatabaseSpec): (r: Json)
    ensures ParseDatabase(r) == Ok(x)
  {
    JObject(map["storageSize" := DumpOptString(x.storageSize), "storageClass" := DumpOptString(x.storageClass)])
  }

  function DumpFilestore(x: FilestoreSpec): (r: Json)
    ensures ParseFilestore(r) == Ok(x)
  {
    JObject(map[
      "storageSize" := DumpOptString(x.storageSize),
      "storageClass" := DumpOptString(x.storageClass),
      "snapshotClass" := DumpOptString(x.snapshotClass)])
  }

  function DumpAddon(x: AddonRepo): (r: Json)
    ensures ParseAddon(r) == Ok(x)
  {
    JObject(map["repo" := JString(x.repo), "branch" := DumpOptString(x.branch), "path" := DumpOptString(x.path)])
  }

  function DumpIngress(x: IngressSpec): (r: Json)
    ensures ParseIngress(r) == Ok(x)
  {
    var hostname, className, annotations, tlsSecret :=
      DumpOptString(x.hostname), DumpOptString(x.className), DumpStringMap(x.annotations), DumpOptString(x.tlsSecret);
    var m := map[
      "enabled" := JBool(x.enabled),
      "hostname" := hostname,
      "className" := className,
      "annotations" := annotations,
      "tls" := JBool(x.tls),
      "tlsSecret" := tlsSecret];
    assert BoolWithDefault(m, "enabled", true) == Ok(x.enabled);
    assert BoolWithDefault(m, "tls", true) == Ok(x.tls);
    assert Field(m, "hostname") == hostname && Field(m, "className") == className;
    assert Field(m, "annotations") == annotations && Field(m, "tlsSecret") == tlsSecret;
    assert OptString(hostname, "hostname") == Ok(x.hostname);
    assert OptString(className, "className") == Ok(x.className);
    assert OptString(tlsSecret, "tlsSecret") == Ok(x.tlsSecret);
    JObject(m)
  }

  /** Lists serialise element by element, so validation gets back the same list in the same order. */
  function DumpAddonList(xs: seq<AddonRepo>): (r: seq<Json>)
    ensures |r| == |xs|
    ensures ParseAddonList(r) == Ok(xs)
  {
    if xs == [] then []
    else
      var r := [DumpAddon(xs[0])] + DumpAddonList(xs[1..]);
      assert r[1..] == DumpAddonList(xs[1..]);
      assert xs == [xs[0]] + xs[1..];
      r
  }

  function DumpEnvList(xs: seq<EnvVar>): (r: seq<Json>)
    ensures |r| == |xs|
    ensures ParseEnvList(r) == Ok(xs)
  {
    if xs == [] then []
    else
      var r := [DumpEnvVar(xs[0])] + DumpEnvList(xs[1..]);
      assert r[1..] == DumpEnvList(xs[1..]);
      assert xs == [xs[0]] + xs[1..];
      r
  }

  /** An optional field: None as null, a value as its document. */
  function DumpOptResources(o: Option<ResourceRequirements>): (r: Json)
    ensures OptResources(r) == Ok(o)
  {
    match o case None => JNull case Some(v) => DumpResources(v)
  }

  function DumpOptDatabase(o: Option<DatabaseSpec>): (r: Json)
    ensures OptDatabase(r) == Ok(o)
  {
    match o case None => JNull case Some(v) => DumpDatabase(v)
  }

  function DumpOptFilestore(o: Option<FilestoreSpec>): (r: Json)
    ensures OptFilestore(r) == Ok(o)
  {
    match o case None => JNull case Some(v) => DumpFilestore(v)
  }

  function DumpOptAddons(o: Option<seq<AddonRepo>>): (r: Json)
    ensures OptAddons(r) == Ok(o)
  {
    match o case None => JNull case Some(v) => JArray(DumpAddonList(v))
  }

  function DumpOptIngress(o: Option<IngressSpec>): (r: Json)
    ensures OptIngress(r) == Ok(o)
  {
    match o case None => JNull case Some(v) => DumpIngress(v)
  }

  function DumpOptEnv(o: Option<seq<EnvVar>>): (r: Json)
    ensures OptEnv(r) == Ok(o)
  {
    match o case None => JNull case Some(v) => JArray(DumpEnvList(v))
  }

  /** `model_dump()`: every field is written, None as null. */
  function DumpSpec(x: OdooInstanceSpec): (r: Json)
    ensures ParseSpec(r) == Ok(x)
  {
    var image := DumpOptString(x.image);
    assert OptString(image, "image") == Ok(x.image);
    var m := SpecDocument(JString(x.version), image, JInt(x.replicas), DumpOptResources(x.resources),
                          DumpOptDatabase(x.database), DumpOptFilestore(x.filestore), DumpOptAddons(x.addons),
                          DumpOptIngress(x.ingress), DumpOptEnv(x.env));
    ParseSpecFields(m, x);
    JObject(m)
  }

  /** The spec document with its nine keys. */
  function SpecDocument(version: Json, image: Json, replicas: Json, resources: Json, database: Json,
                        filestore: Json, addons: Json, ingress: Json, env: Json): (m: map<string, Json>)
    ensures "version" in m && m["version"] == version
    ensures "replicas" in m && m["replicas"] == replicas
    ensures Field(m, "image") == image && Field(m, "resources") == resources
    ensures Field(m, "database") == database && Field(m, "filestore") == filestore
    ensures Field(m, "addons") == addons && Field(m, "ingress") == ingress && Field(m, "env") == env
  {
    map["version" := version, "image" := image, "replicas" := replicas,
        "resources" := resources, "database" := database, "filestore" := filestore,
        "addons" := addons, "ingress" := ingress, "env" := env]
  }

  /** A spec document is accepted as `x` when each of its fields is accepted as the matching field of `x`. */
  lemma ParseSpecFields(m: map<string, Json>, x: OdooInstanceSpec)
    requires ReqString(m, "version") == Ok(x.version)
    requires OptString(Field(m, "image"), "image") == Ok(x.image)
    requires IntWithDefault(m, "replicas", 1) == Ok(x.replicas)
    requires OptResources(Field(m, "resources")) == Ok(x.resources)
    requires OptDatabase(Field(m, "database")) == Ok(x.database)
    requires OptFilestore(Field(m, "filestore")) == Ok(x.filestore)
    requires OptAddons(Field(m, "addons")) == Ok(x.addons)
    requires OptIngress(Field(m, "ingress")) == Ok(x.ingress)
    requires OptEnv(Field(m, "env")) == Ok(x.env)
    ensures ParseSpec(JObject(m)) == Ok(x)
  {
  }

  function DumpStatus(x: OdooInstanceStatus): (r: Json)
    ensures ParseStatus(r) == Ok(x)
  {
    JObject(map[
      "phase" := DumpOptString(x.phase),
      "ready" := (match x.ready case None => JNull case Some(b) => JBool(b)),
      "url" := DumpOptString(x.url),
      "message" := DumpOptString(x.message)])
  }

  function DumpInstance(x: OdooInstance): (r: Json)
    ensures ParseInstance(r) == Ok(x)
  {
    JObject(map[
      "apiVersion" := JString(x.apiVersion),
      "kind" := JString(x.kind),
      "metadata" := JObject(x.metadata),
      "spec" := DumpSpec(x.spec),
      "status" := (match x.status case None => JNull case Some(s) => DumpStatus(s))])
  }

  /* ---------------- Defaults ---------------- */

  /** The spec built from a version alone: every other field takes its default. */
  function MinimalSpec(version: string): (s: OdooInstanceSpec)
    ensures ParseSpec(JObject(map["version" := JString(version)])) == Ok(s)
    ensures s.version == version && s.replicas == 1
    ensures s.image.None? && s.resources.None? && s.database.None? && s.filestore.None?
    ensures s.addons.None? && s.ingress.None? && s.env.None?
  {
    OdooInstanceSpec(version, None, 1, None, None, None, None, None, None)
  }

  /** Without a `version` key the spec is refused, whatever else it holds. */
  lemma VersionRequired(fields: map<string, Json>)
    requires "version" !in fields
    ensures ParseSpec(JObject(fields)).Raise?
  {
  }

  /** An ingress block with nothing set: enabled and tls on, everything else None. */
  function DefaultIngress(): (s: IngressSpec)
    ensures ParseIngress(JObject(map[])) == Ok(s)
    ensures s.enabled && s.tls
    ensures s.hostname.None? && s.className.None? && s.annotations.None? && s.tlsSecret.None?
  {
    IngressSpec(true, None, None, None, true, None)
  }

  /** An addon with only a repository: branch `main`, no path; without `repo` it is refused. */
  function DefaultAddon(repo: string): (a: AddonRepo)
    ensures ParseAddon(JObject(map["repo" := JString(repo)])) == Ok(a)
    ensures a.repo == repo && a.branch == Some(DefaultBranch) && a.path.None?
    ensures ParseAddon(JObject(map["branch" := JString(repo)])).Raise?
  {
    AddonRepo(repo, Some(DefaultBranch), None)
  }

  /** An empty status: every field None. */
  function EmptyStatus(): (s: OdooInstanceStatus)
    ensures ParseStatus(JObject(map[])) == Ok(s)
    ensures s.phase.None? && s.ready.None? && s.url.None? && s.message.None?
  {
    OdooInstanceStatus(None, None, None, None)
  }

  /** An instance given only metadata and spec takes the group's apiVersion and kind. */
  function MinimalInstance(metadata: map<string, Json>, version: string): (o: OdooInstance)
    ensures ParseInstance(JObject(map["metadata" := JObject(metadata), "spec" := JObject(map["version" := JString(version)])])) == Ok(o)
    ensures o.apiVersion == DefaultApiVersion && o.kind == DefaultKind
    ensures o.metadata == metadata && o.spec == MinimalSpec(version) && o.status.None?
  {
    OdooInstance(DefaultApiVersion, DefaultKind, metadata, MinimalSpec(version), None)
  }
}

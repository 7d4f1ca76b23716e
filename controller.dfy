/** The kopf handlers for OdooInstance create, update and delete events: the
    status they report through `patch_status`, the sequence of helpers they
    run, and the database cleanup on delete. */
module Controller {
  import opened Common
  import opened Json
  import opened Types
  import opened Naming
  import opened Resources
  import opened Synthesis
  import opened Cluster
  import opened Applier
  import opened Database

  /** What a handler hands back to kopf: a returned dictionary, a
      `kopf.PermanentError` with its message, or an exception it let through
      (which kopf retries). */
  datatype HandlerResult =
    | Returned(value: map<string, StatusValue>)
    | PermanentFailure(message: string)
    | Crashed(error: PyError)

  datatype Run = Run(cluster: Cluster, result: HandlerResult)

  /** `str(e)` of an ApiException starts with its status in parentheses; the
      reason, headers and body that follow are not modelled. */
  function ApiExceptionText(status: nat): string {
    "(" + NatToString(status) + ")"
  }

  /** A Python `None` in a status patch is a JSON null. */
  function UrlValue(url: Option<string>): StatusValue {
    if url.Some? then Text(url.value) else Null
  }

  const CreatedMessage: string := "Odoo instance created successfully"
  const UpdatedMessage: string := "Odoo instance updated successfully"

  const PendingPatch: map<string, StatusValue> :=
    map["phase" := Text("Pending"), "message" := Text("Creating resources"), "ready" := Flag(false)]

  const UpdatingPatch: map<string, StatusValue> :=
    map["phase" := Text("Updating"), "message" := Text("Updating resources")]

  function RunningPatch(url: Option<string>, message: string): map<string, StatusValue> {
    map["phase" := Text("Running"), "ready" := Flag(true), "url" := UrlValue(url), "message" := Text(message)]
  }

  function CreateFailedPatch(message: string): map<string, StatusValue> {
    map["phase" := Text("Failed"), "ready" := Flag(false), "message" := Text(message)]
  }

  /** The update handler's failure patch leaves `ready` out. */
  function UpdateFailedPatch(message: string): map<string, StatusValue> {
    map["phase" := Text("Failed"), "message" := Text(message)]
  }

  /** The helpers the create handler calls, in order; the ingress only when enabled. */
  function CreatePlan(spec: OdooInstanceSpec): (bs: seq<Builder>)
    ensures IngressBuilder in bs <==> IngressEnabled(spec)
    ensures FilestorePvcBuilder in bs && ConfigMapBuilder in bs && DeploymentBuilder in bs && ServiceBuilder in bs
  {
    BasePlan + (if IngressEnabled(spec) then [IngressBuilder] else [])
  }

  const BasePlan: seq<Builder> := [FilestorePvcBuilder, ConfigMapBuilder, DeploymentBuilder, ServiceBuilder]

  /* ---------------- create_odoo_instance ---------------- */

  function CreateRun(c: Cluster, name: string, namespace: string, spec: OdooInstanceSpec): (r: Run)
    requires WellKeyed(c)
    ensures WellKeyed(r.cluster)
  {
    var pending := PatchStatus(c, namespace, name, PendingPatch);
    var s := CreateChain(pending, CreatePlan(spec), name, namespace, spec);
    if s.raised.None? then
      var url := StatusUrl(spec);
      Run(PatchStatus(s.cluster, namespace, name, RunningPatch(url, CreatedMessage)),
          Returned(map["status" := Text("success"), "message" := Text(CreatedMessage), "url" := UrlValue(url)]))
    else
      var message := "Error creating resources: " + ApiExceptionText(s.raised.value.status);
      Run(PatchStatus(s.cluster, namespace, name, CreateFailedPatch(message)), PermanentFailure(message))
  }

  /** For a typed spec, the create handler never lets an exception through: it
      succeeds or fails permanently. */
  lemma CreateNeverCrashes(c: Cluster, name: string, namespace: string, spec: OdooInstanceSpec)
    requires WellKeyed(c)
    ensures !CreateRun(c, name, namespace, spec).result.Crashed?
  {
  }

  /** Running the create handler again on what it left changes nothing and
      reports the same: objects that exist are skipped, the same status is written. */
  lemma CreateRunIdempotent(c: Cluster, name: string, namespace: string, spec: OdooInstanceSpec)
    requires WellKeyed(c)
    ensures var r := CreateRun(c, name, namespace, spec);
      CreateRun(r.cluster, name, namespace, spec) == r
  {
    var plan := CreatePlan(spec);
    var pending := PatchStatus(c, namespace, name, PendingPatch);
    var s := CreateChain(pending, plan, name, namespace, spec);
    var final := if s.raised.None? then RunningPatch(StatusUrl(spec), CreatedMessage)
      else CreateFailedPatch("Error creating resources: " + ApiExceptionText(s.raised.value.status));
    var x := PatchStatus(s.cluster, namespace, name, final);
    assert CreateRun(c, name, namespace, spec).cluster == x;
    CreateChainTwice(pending, plan, name, namespace, spec);
    CreateChainAfterPatch(s.cluster, plan, name, namespace, spec, final);
    CreateChainAfterPatch(x, plan, name, namespace, spec, PendingPatch);
    var s2 := CreateChain(PatchStatus(x, namespace, name, PendingPatch), plan, name, namespace, spec);
    assert s2 == Step(PatchStatus(x, namespace, name, PendingPatch), s.raised);
    PatchStatusAbsorbs(x, namespace, name, PendingPatch, final);
    PatchStatusIdempotent(s.cluster, namespace, name, final);
  }

  /** Objects that existed before are left exactly as they were; only the
      instance's status and the missing objects of the plan change. */
  lemma CreateKeepsExisting(c: Cluster, name: string, namespace: string, spec: OdooInstanceSpec)
    requires WellKeyed(c)
    ensures var r := CreateRun(c, name, namespace, spec).cluster;
      && (forall k :: k in c.objects && k != InstanceKey(namespace, name) ==> k in r.objects && r.objects[k] == c.objects[k])
      && AddsOnly(c, r, BuiltKeys(CreatePlan(spec), name, namespace))
  {
  }

  /** A successful create leaves every planned object in place (unless its own
      create was refused with 409) and the status Running and ready, with the
      URL exactly when the ingress is enabled and has a hostname. */
  lemma CreateSuccess(c: Cluster, name: string, namespace: string, spec: OdooInstanceSpec)
    requires WellKeyed(c)
    requires InstanceKey(namespace, name) !in c.faults
    requires CreateRun(c, name, namespace, spec).result.Returned?
    ensures var r := CreateRun(c, name, namespace, spec).cluster;
      && (forall b :: b in CreatePlan(spec) ==>
            BuiltKey(b, name, namespace) in r.objects || RefusedWith(c, BuiltKey(b, name, namespace), Conflict))
      && InstanceKey(namespace, name) in r.objects
      && var status := r.objects[InstanceKey(namespace, name)].instance.status;
      && "phase" in status && status["phase"] == Text("Running")
      && "ready" in status && status["ready"] == Flag(true)
      && "message" in status && status["message"] == Text(CreatedMessage)
      && ("url" in status <==> StatusUrl(spec).Some?)
      && (StatusUrl(spec).Some? ==> status["url"] == Text(StatusUrl(spec).value))
  {
    var ik := InstanceKey(namespace, name);
    var pending := PatchStatus(c, namespace, name, PendingPatch);
    var s := CreateChain(pending, CreatePlan(spec), name, namespace, spec);
    var patch := RunningPatch(StatusUrl(spec), CreatedMessage);
    var r := PatchStatus(s.cluster, namespace, name, patch);
    assert CreateRun(c, name, namespace, spec).cluster == r;
    CreateChainSucceeds(pending, CreatePlan(spec), name, namespace, spec);
    assert ik in s.cluster.objects;
    var st := r.objects[ik].instance.status;
    assert st == PatchedStatus(s.cluster.objects[ik].instance.status, patch);
    RunningStatus(s.cluster.objects[ik].instance.status, StatusUrl(spec), CreatedMessage);
  }

  /** A failed create reports the status code and marks the instance Failed and not ready. */
  lemma CreateFailure(c: Cluster, name: string, namespace: string, spec: OdooInstanceSpec)
    requires WellKeyed(c)
    requires InstanceKey(namespace, name) in c.objects && InstanceKey(namespace, name) !in c.faults
    requires CreateRun(c, name, namespace, spec).result.PermanentFailure?
    ensures var r := CreateRun(c, name, namespace, spec);
      var status := r.cluster.objects[InstanceKey(namespace, name)].instance.status;
      && (exists code: nat :: r.result.message == "Error creating resources: " + ApiExceptionText(code))
      && "phase" in status && status["phase"] == Text("Failed")
      && "ready" in status && status["ready"] == Flag(false)
      && "message" in status && status["message"] == Text(r.result.message)
  {
    var ik := InstanceKey(namespace, name);
    var pending := PatchStatus(c, namespace, name, PendingPatch);
    var s := CreateChain(pending, CreatePlan(spec), name, namespace, spec);
    var message := "Error creating resources: " + ApiExceptionText(s.raised.value.status);
    var r := PatchStatus(s.cluster, namespace, name, CreateFailedPatch(message));
    assert CreateRun(c, name, namespace, spec) == Run(r, PermanentFailure(message));
    assert r.objects[ik].instance.status == PatchedStatus(s.cluster.objects[ik].instance.status, CreateFailedPatch(message));
    FailedStatus(s.cluster.objects[ik].instance.status, message);
  }

  /** What the Running patch leaves in any status. */
  lemma RunningStatus(status: map<string, StatusValue>, url: Option<string>, message: string)
    ensures var st := PatchedStatus(status, RunningPatch(url, message));
      && "phase" in st && st["phase"] == Text("Running")
      && "ready" in st && st["ready"] == Flag(true)
      && "message" in st && st["message"] == Text(message)
      && ("url" in st <==> url.Some?)
      && (url.Some? ==> st["url"] == Text(url.value))
  {
    var p := RunningPatch(url, message);
    assert "phase" in p && "ready" in p && "message" in p && "url" in p;
  }

  /** What the create handler's failure patch leaves in any status. */
  lemma FailedStatus(status: map<string, StatusValue>, message: string)
    ensures var st := PatchedStatus(status, CreateFailedPatch(message));
      && "phase" in st && st["phase"] == Text("Failed")
      && "ready" in st && st["ready"] == Flag(false)
      && "message" in st && st["message"] == Text(message)
  {
    var p := CreateFailedPatch(message);
    assert "phase" in p && "ready" in p && "message" in p;
  }

  /** The `try` block of the create handler, call by call: the helpers in
      order, each run only when the ones before it succeeded. */
  method CreateResources(store: Store, name: string, namespace: string, spec: OdooInstanceSpec) returns (raised: Option<Raised>)
    requires WellKeyed(store.State())
    modifies store
    ensures Step(store.State(), raised) == CreateChain(old(store.State()), CreatePlan(spec), name, namespace, spec)
  {
    ghost var tail: seq<Builder> := if IngressEnabled(spec) then [IngressBuilder] else [];
    ChainAppend(store.State(), BasePlan, tail, name, namespace, spec);
    raised := CreateBaseObjects(store, name, namespace, spec);
    if raised.None? && IngressEnabled(spec) {
      ChainUnfold(store.State(), tail, name, namespace, spec);
      raised := CreateOrSkip(store, IngressBuilder, name, namespace, spec);
    }
  }

  /** The four objects every instance gets: claim, configuration, Deployment and Service. */
  method CreateBaseObjects(store: Store, name: string, namespace: string, spec: OdooInstanceSpec) returns (raised: Option<Raised>)
    requires WellKeyed(store.State())
    modifies store
    ensures Step(store.State(), raised) == CreateChain(old(store.State()), BasePlan, name, namespace, spec)
  {
    ghost var c0 := store.State();
    raised := CreateOrSkip(store, FilestorePvcBuilder, name, namespace, spec);
    ChainUnfold(c0, BasePlan, name, namespace, spec);
    if raised.Some? {
      return;
    }
    ghost var c1 := store.State();
    raised := CreateOrSkip(store, ConfigMapBuilder, name, namespace, spec);
    ChainUnfold(c1, BasePlan[1..], name, namespace, spec);
    if raised.Some? {
      return;
    }
    ghost var c2 := store.State();
    raised := CreateOrSkip(store, DeploymentBuilder, name, namespace, spec);
    ChainUnfold(c2, BasePlan[2..], name, namespace, spec);
    if raised.Some? {
      return;
    }
    ghost var c3 := store.State();
    raised := CreateOrSkip(store, ServiceBuilder, name, namespace, spec);
    ChainUnfold(c3, BasePlan[3..], name, namespace, spec);
  }

  /** Running two lists of helpers one after the other. */
  lemma {:induction false} ChainAppend(c: Cluster, a: seq<Builder>, b: seq<Builder>, name: string, namespace: string, spec: OdooInstanceSpec)
    requires WellKeyed(c)
    ensures var s := CreateChain(c, a, name, namespace, spec);
      CreateChain(c, a + b, name, namespace, spec) == if s.raised.Some? then s else CreateChain(s.cluster, b, name, namespace, spec)
    decreases |a|
  {
    if a == [] {
      assert a + b == b;
    } else {
      assert (a + b)[0] == a[0] && (a + b)[1..] == a[1..] + b;
      var s := CreateStep(c, a[0], name, namespace, spec);
      if s.raised.None? {
        ChainAppend(s.cluster, a[1..], b, name, namespace, spec);
      }
    }
  }

  /** One step of `CreateChain`. */
  lemma ChainUnfold(c: Cluster, bs: seq<Builder>, name: string, namespace: string, spec: OdooInstanceSpec)
    requires WellKeyed(c) && bs != []
    ensures var s := CreateStep(c, bs[0], name, namespace, spec);
      CreateChain(c, bs, name, namespace, spec) == if s.raised.Some? then s else CreateChain(s.cluster, bs[1..], name, namespace, spec)
  {
  }

  /** The create handler, call by call. */
  method CreateHandler(store: Store, name: string, namespace: string, spec: OdooInstanceSpec) returns (result: HandlerResult)
    requires WellKeyed(store.State())
    modifies store
    ensures Run(store.State(), result) == CreateRun(old(store.State()), name, namespace, spec)
  {
    store.PatchInstanceStatus(namespace, name, PendingPatch);
    var raised := CreateResources(store, name, namespace, spec);
    var url: Option<string> := None;
    if IngressEnabled(spec) {
      url := StatusUrl(spec);
    }
    if raised.None? {
      store.PatchInstanceStatus(namespace, name, RunningPatch(url, CreatedMessage));
      result := Returned(map["status" := Text("success"), "message" := Text(CreatedMessage), "url" := UrlValue(url)]);
    } else {
      var message := "Error creating resources: " + ApiExceptionText(raised.value.status);
      store.PatchInstanceStatus(namespace, name, CreateFailedPatch(message));
      result := PermanentFailure(message);
    }
  }

  /* ---------------- update_odoo_instance ---------------- */

  /** `old.get('ingress', {}).get('enabled', True)` on the `old` value kopf
      passes, with Python's truthiness; a non-dictionary raises AttributeError. */
  function OldIngressEnabled(previous: Json): (r: Result<bool>)
    ensures previous.JObject? && "ingress" !in previous.fields ==> r == Ok(true)
    ensures r.Raise? <==> !previous.JObject? || ("ingress" in previous.fields && !previous.fields["ingress"].JObject?)
  {
    var ingress :- Get(previous, "ingress", JObject(map[]));
    var enabled :- Get(ingress, "enabled", JBool(true));
    Ok(Truthy(enabled))
  }

  /** The ingress decision: rewrite when enabled before and now, create when
      newly enabled, delete `odoo-<name>` when newly disabled, else nothing. */
  function IngressUpdateStep(c: Cluster, name: string, namespace: string, spec: OdooInstanceSpec, wasEnabled: bool): (r: Step)
    requires WellKeyed(c)
    ensures WellKeyed(r.cluster) && r.cluster.faults == c.faults && InstancesKept(c, r.cluster)
  {
    if IngressEnabled(spec) then
      if wasEnabled then UpdateIngressStep(c, name, namespace, spec)
      else CreateStep(c, IngressBuilder, name, namespace, spec)
    else if wasEnabled then DeleteIngressStep(c, namespace, LegacyWorkloadName(name))
    else Step(c, None)
  }

  /** The `try` block of the update handler. */
  function UpdateResources(c: Cluster, name: string, namespace: string, spec: OdooInstanceSpec, previous: Json): (r: Step)
    requires WellKeyed(c)
    ensures WellKeyed(r.cluster) && r.cluster.faults == c.faults && InstancesKept(c, r.cluster)
  {
    var s1 := UpdateConfigMapStep(c, name, namespace, spec);
    if s1.raised.Some? then s1
    else
      var s2 := UpdateDeploymentStep(s1.cluster, name, namespace, spec);
      if s2.raised.Some? then s2
      else
        var s3 := UpdateServiceStep(s2.cluster, name, namespace, spec);
        if s3.raised.Some? then s3
        else
          match OldIngressEnabled(previous)
          case Raise(e) => Step(s3.cluster, Some(PythonError(e)))
          case Ok(wasEnabled) => IngressUpdateStep(s3.cluster, name, namespace, spec, wasEnabled)
  }

  function UpdateRun(c: Cluster, name: string, namespace: string, spec: OdooInstanceSpec, previous: Json): (r: Run)
    requires WellKeyed(c)
    ensures WellKeyed(r.cluster)
    ensures InstanceKey(namespace, name) in c.objects ==> InstanceKey(namespace, name) in r.cluster.objects
  {
    var updating := PatchStatus(c, namespace, name, UpdatingPatch);
    var s := UpdateResources(updating, name, namespace, spec, previous);
    if s.raised.None? then
      Run(PatchStatus(s.cluster, namespace, name, RunningPatch(StatusUrl(spec), UpdatedMessage)),
          Returned(map["status" := Text("success"), "message" := Text(UpdatedMessage)]))
    else if s.raised.value.ApiException? then
      var message := "Error updating resources: " + ApiExceptionText(s.raised.value.status);
      Run(PatchStatus(s.cluster, namespace, name, UpdateFailedPatch(message)), PermanentFailure(message))
    else
      Run(s.cluster, Crashed(s.raised.value.error))
  }

  /** An update whose resource steps all succeed answers success and leaves the
      status Running and ready, with the update message and the URL exactly
      when the ingress is enabled and has a hostname. */
  lemma UpdateSuccess(c: Cluster, name: string, namespace: string, spec: OdooInstanceSpec, previous: Json)
    requires WellKeyed(c)
    requires StatusOf(c, namespace, name).Some? && InstanceKey(namespace, name) !in c.faults
    requires UpdateResources(PatchStatus(c, namespace, name, UpdatingPatch), name, namespace, spec, previous).raised.None?
    ensures var r := UpdateRun(c, name, namespace, spec, previous);
      && r.result == Returned(map["status" := Text("success"), "message" := Text(UpdatedMessage)])
      && var after := StatusOf(r.cluster, namespace, name);
      && after.Some?
      && "phase" in after.value && after.value["phase"] == Text("Running")
      && "ready" in after.value && after.value["ready"] == Flag(true)
      && "message" in after.value && after.value["message"] == Text(UpdatedMessage)
      && ("url" in after.value <==> StatusUrl(spec).Some?)
      && (StatusUrl(spec).Some? ==> after.value["url"] == Text(StatusUrl(spec).value))
  {
    var ik := InstanceKey(namespace, name);
    var updating := PatchStatus(c, namespace, name, UpdatingPatch);
    var s := UpdateResources(updating, name, namespace, spec, previous);
    var mid := PatchedStatus(StatusOf(c, namespace, name).value, UpdatingPatch);
    assert StatusOf(updating, namespace, name) == Some(mid);
    assert StatusOf(s.cluster, namespace, name) == Some(mid) by {
      assert InstancesKept(updating, s.cluster) && ik.kind == InstanceKind;
    }
    var patch := RunningPatch(StatusUrl(spec), UpdatedMessage);
    assert UpdateRun(c, name, namespace, spec, previous).cluster == PatchStatus(s.cluster, namespace, name, patch);
    assert StatusOf(PatchStatus(s.cluster, namespace, name, patch), namespace, name) == Some(PatchedStatus(mid, patch));
    RunningStatus(mid, StatusUrl(spec), UpdatedMessage);
  }

  /** With the ConfigMap missing, the update reaches `create_config_map`, whose
      uid read is not covered by its `try`: a failing instance read, a 409
      included, makes the whole update a permanent failure with that status. */
  lemma UpdateUidFailureFails(c: Cluster, name: string, namespace: string, spec: OdooInstanceSpec, previous: Json)
    requires WellKeyed(c)
    requires InstanceKey(namespace, name) in c.faults
    requires Key(ConfigMapKind, namespace, ConfigMapName(name)) !in c.objects
    requires Key(ConfigMapKind, namespace, ConfigMapName(name)) !in c.faults
    ensures UpdateRun(c, name, namespace, spec, previous)
      == Run(c, PermanentFailure("Error updating resources: " + ApiExceptionText(c.faults[InstanceKey(namespace, name)])))
  {
    assert PatchStatus(c, namespace, name, UpdatingPatch) == c;
    CreateStepUidFailure(c, ConfigMapBuilder, name, namespace, spec);
    assert UpdateResources(c, name, namespace, spec, previous)
      == Step(c, Some(ApiException(c.faults[InstanceKey(namespace, name)])));
  }

  /** What a patch that does not name `key` leaves of it. */
  lemma PatchKeepsKey(status: map<string, StatusValue>, patch: map<string, StatusValue>, key: string)
    requires key !in patch
    ensures key in PatchedStatus(status, patch) <==> key in status && status[key] != Null
    ensures key in PatchedStatus(status, patch) ==> PatchedStatus(status, patch)[key] == status[key]
  {
  }

  /** `after` reports Failed and carries `ready` over from `before`. */
  predicate FailedKeepingReady(before: map<string, StatusValue>, after: map<string, StatusValue>) {
    && "phase" in after && after["phase"] == Text("Failed")
    && ("ready" in after <==> "ready" in before && before["ready"] != Null)
    && ("ready" in after ==> after["ready"] == before["ready"])
  }

  /** A failed update reports Failed but leaves `ready` as it was: an instance
      that was ready still reads as ready. */
  lemma UpdateFailureKeepsReady(c: Cluster, name: string, namespace: string, spec: OdooInstanceSpec, previous: Json)
    requires WellKeyed(c)
    requires StatusOf(c, namespace, name).Some? && InstanceKey(namespace, name) !in c.faults
    requires UpdateRun(c, name, namespace, spec, previous).result.PermanentFailure?
    ensures var after := StatusOf(UpdateRun(c, name, namespace, spec, previous).cluster, namespace, name);
      after.Some? && FailedKeepingReady(StatusOf(c, namespace, name).value, after.value)
  {
    var ik := InstanceKey(namespace, name);
    var updating := PatchStatus(c, namespace, name, UpdatingPatch);
    var s := UpdateResources(updating, name, namespace, spec, previous);
    var st0 := StatusOf(c, namespace, name).value;
    assert StatusOf(updating, namespace, name) == Some(PatchedStatus(st0, UpdatingPatch));
    assert StatusOf(s.cluster, namespace, name) == StatusOf(updating, namespace, name) by {
      assert InstancesKept(updating, s.cluster) && ik.kind == InstanceKind;
    }
    assert s.raised.Some? && s.raised.value.ApiException?;
    var message := "Error updating resources: " + ApiExceptionText(s.raised.value.status);
    assert UpdateRun(c, name, namespace, spec, previous).cluster == PatchStatus(s.cluster, namespace, name, UpdateFailedPatch(message));
    FailurePatchOnUpdating(s.cluster, namespace, name, st0, message);
  }

  /** The failure patch, applied to an instance carrying the Updating patch,
      reports Failed and keeps `ready`. */
  lemma FailurePatchOnUpdating(c: Cluster, namespace: string, name: string, status: map<string, StatusValue>, message: string)
    requires WellKeyed(c)
    requires StatusOf(c, namespace, name) == Some(PatchedStatus(status, UpdatingPatch))
    requires InstanceKey(namespace, name) !in c.faults
    ensures var after := StatusOf(PatchStatus(c, namespace, name, UpdateFailedPatch(message)), namespace, name);
      after.Some? && FailedKeepingReady(status, after.value)
  {
    FailedUpdateStatus(status, message);
  }

  /** The Updating patch and then the update's failure patch keep `ready`. */
  lemma FailedUpdateStatus(status: map<string, StatusValue>, message: string)
    ensures FailedKeepingReady(status, PatchedStatus(PatchedStatus(status, UpdatingPatch), UpdateFailedPatch(message)))
  {
    PatchKeepsKey(status, UpdatingPatch, "ready");
    PatchKeepsKey(PatchedStatus(status, UpdatingPatch), UpdateFailedPatch(message), "ready");
    assert "phase" in UpdateFailedPatch(message);
  }

  /** An update that crashes (an IndexError or AttributeError kopf will retry)
      leaves the status as the Updating patch set it. */
  lemma UpdateCrashLeavesUpdating(c: Cluster, name: string, namespace: string, spec: OdooInstanceSpec, previous: Json)
    requires WellKeyed(c)
    requires StatusOf(c, namespace, name).Some? && InstanceKey(namespace, name) !in c.faults
    requires UpdateRun(c, name, namespace, spec, previous).result.Crashed?
    ensures var after := StatusOf(UpdateRun(c, name, namespace, spec, previous).cluster, namespace, name);
      && after.Some?
      && "phase" in after.value && after.value["phase"] == Text("Updating")
      && "message" in after.value && after.value["message"] == Text("Updating resources")
  {
    assert "phase" in UpdatingPatch && "message" in UpdatingPatch;
  }

  /** Disabling the ingress deletes `odoo-<name>`, while the ingress the live
      `create_ingress` made is `<name>`: it stays, unchanged. */
  lemma DisablingKeepsLiveIngress(c: Cluster, name: string, namespace: string, spec: OdooInstanceSpec)
    requires WellKeyed(c)
    requires !IngressEnabled(spec)
    requires Key(IngressKind, namespace, WorkloadName(name)) in c.objects
    ensures var r := IngressUpdateStep(c, name, namespace, spec, true).cluster;
      && Key(IngressKind, namespace, WorkloadName(name)) in r.objects
      && r.objects[Key(IngressKind, namespace, WorkloadName(name))] == c.objects[Key(IngressKind, namespace, WorkloadName(name))]
  {
    assert |LegacyWorkloadName(name)| != |WorkloadName(name)|;
  }

  /** Deleting the ingress under the name the live builder uses removes it. */
  lemma DisablingCorrectedRemovesIngress(c: Cluster, name: string, namespace: string)
    requires WellKeyed(c)
    requires Key(IngressKind, namespace, WorkloadName(name)) !in c.faults
    ensures var r := DeleteIngressStep(c, namespace, WorkloadName(name));
      && r.raised.None?
      && Key(IngressKind, namespace, WorkloadName(name)) !in r.cluster.objects
      && r.cluster.objects == c.objects - {Key(IngressKind, namespace, WorkloadName(name))}
  {
  }

  /** kopf passes the whole object as `old`, which has no top-level `ingress`
      key, so the previous flag always reads as enabled; re-enabling then goes
      through `update_ingress`, whose 404 path ends in the same create as the
      newly-enabled branch. */
  lemma ReenableThroughUpdate(c: Cluster, name: string, namespace: string, spec: OdooInstanceSpec, previous: map<string, Json>)
    requires WellKeyed(c)
    requires "ingress" !in previous && IngressEnabled(spec)
    requires Key(IngressKind, namespace, WorkloadName(name)) !in c.objects
    requires Key(IngressKind, namespace, WorkloadName(name)) !in c.faults
    ensures OldIngressEnabled(JObject(previous)) == Ok(true)
    ensures IngressUpdateStep(c, name, namespace, spec, true) == IngressUpdateStep(c, name, namespace, spec, false)
  {
  }

  /** The update handler, call by call. */
  method UpdateHandler(store: Store, name: string, namespace: string, spec: OdooInstanceSpec, previous: Json) returns (result: HandlerResult)
    requires WellKeyed(store.State())
    modifies store
    ensures Run(store.State(), result) == UpdateRun(old(store.State()), name, namespace, spec, previous)
  {
    store.PatchInstanceStatus(namespace, name, UpdatingPatch);
    var raised := UpdateObjects(store, name, namespace, spec, previous);
    if raised.None? {
      var url: Option<string> := None;
      if IngressEnabled(spec) {
        url := StatusUrl(spec);
      }
      store.PatchInstanceStatus(namespace, name, RunningPatch(url, UpdatedMessage));
      result := Returned(map["status" := Text("success"), "message" := Text(UpdatedMessage)]);
    } else if raised.value.ApiException? {
      var message := "Error updating resources: " + ApiExceptionText(raised.value.status);
      store.PatchInstanceStatus(namespace, name, UpdateFailedPatch(message));
      result := PermanentFailure(message);
    } else {
      result := Crashed(raised.value.error);
    }
  }

  /** The `try` block of the update handler, call by call. */
  method UpdateObjects(store: Store, name: string, namespace: string, spec: OdooInstanceSpec, previous: Json) returns (raised: Option<Raised>)
    requires WellKeyed(store.State())
    modifies store
    ensures Step(store.State(), raised) == UpdateResources(old(store.State()), name, namespace, spec, previous)
  {
    raised := UpdateConfigMap(store, name, namespace, spec);
    if raised.Some? {
      return;
    }
    raised := UpdateDeployment(store, name, namespace, spec);
    if raised.Some? {
      return;
    }
    raised := UpdateService(store, name, namespace, spec);
    if raised.Some? {
      return;
    }
    var wasEnabled := OldIngressEnabled(previous);
    if wasEnabled.Raise? {
      return Some(PythonError(wasEnabled.error));
    }
    if IngressEnabled(spec) {
      if wasEnabled.value {
        raised := UpdateIngress(store, name, namespace, spec);
      } else {
        raised := CreateOrSkip(store, IngressBuilder, name, namespace, spec);
      }
    } else if wasEnabled.value {
      raised := DeleteIngress(store, namespace, LegacyWorkloadName(name));
    }
  }

  /* ---------------- delete_odoo_instance ---------------- */

  const DeletedMessage: string := "Odoo instance deleted successfully"

  const DeletedReturn: map<string, StatusValue> :=
    map["status" := Text("success"), "message" := Text(DeletedMessage)]

  /** What the delete handler leaves: the database server after the cleanup,
      and what it hands back. It removes no Kubernetes object itself. */
  datatype DeleteRun = DeleteRun(server: Server, result: HandlerResult)

  /** `delete_odoo_instance`: the cleanup's errors are logged and dropped. */
  function DeleteOutcome(c: Cluster, s: Server, name: string, namespace: string): (r: DeleteRun)
    requires WellKeyed(c)
    ensures r.server.reachable == s.reachable && r.server.adminPassword == s.adminPassword
  {
    var cleanup := Cleanup(c, s, name, namespace);
    DeleteRun(cleanup.server, Returned(DeletedReturn))
  }

  /** The delete handler reports success whatever the cleanup raised. */
  lemma DeleteAlwaysSucceeds(c: Cluster, s: Server, name: string, namespace: string)
    requires WellKeyed(c)
    ensures DeleteOutcome(c, s, name, namespace).result.Returned?
    ensures var v := DeleteOutcome(c, s, name, namespace).result.value;
      "status" in v && v["status"] == Text("success") && "message" in v && v["message"] == Text(DeletedMessage)
  {
  }

  /** When the server can be administered and the instance's role owns no
      other database, deleting the instance removes its role and its
      database and leaves every other role and database as it was. */
  lemma DeleteRemovesRoleAndDatabase(c: Cluster, s: Server, name: string, namespace: string)
    requires WellKeyed(c)
    requires Administrable(c, s, namespace) && OwnsOnlyItsDatabase(s, name, namespace)
    ensures var r := DeleteOutcome(c, s, name, namespace);
      && r.server.roles == s.roles - {DbUsername(name, namespace)}
      && r.server.databases == s.databases - {DbName(name, namespace)}
  {
    CleanupEffect(c, s, name, namespace);
  }

  /** The delete handler, call by call. */
  method DeleteHandler(store: Store, server: PostgresServer, name: string, namespace: string) returns (result: HandlerResult)
    requires WellKeyed(store.State())
    modifies server
    ensures DeleteRun(server.State(), result) == DeleteOutcome(store.State(), old(server.State()), name, namespace)
  {
    var _ := CleanupDatabase(store, server, name, namespace);
    result := Returned(DeletedReturn);
  }
}

/** The helpers that submit an instance's objects: each `create_*` builds its
    object (reading the instance's uid for the owner reference) and creates
    it, treating 409 as "already exists"; each `update_*` reads the live
    object, edits it and writes it back, and creates it on 404. */
module Applier {
  import opened Common
  import opened Types
  import opened Naming
  import opened Resources
  import opened Synthesis
  import opened Cluster

  /** The live object builders, in the order the create handler calls them. */
  datatype Builder = FilestorePvcBuilder | ConfigMapBuilder | DeploymentBuilder | ServiceBuilder | IngressBuilder

  function Build(b: Builder, name: string, namespace: string, spec: OdooInstanceSpec, uid: string): Object {
    match b
    case FilestorePvcBuilder => PvcObject(FilestorePvc(name, namespace, spec, uid))
    case ConfigMapBuilder => ConfigMapObject(OdooConfigMap(name, namespace, uid))
    case DeploymentBuilder => DeploymentObject(LiveDeployment(name, namespace, spec, uid))
    case ServiceBuilder => ServiceObject(LiveService(name, namespace, uid))
    case IngressBuilder => IngressObject(LiveIngress(name, namespace, spec, uid))
  }

  /** The key each builder's object is created under; it does not depend on the uid. */
  function BuiltKey(b: Builder, name: string, namespace: string): (k: Key)
    ensures k.kind != InstanceKind && k.namespace == namespace
  {
    match b
    case FilestorePvcBuilder => Key(PvcKind, namespace, FilestorePvcName(name))
    case ConfigMapBuilder => Key(ConfigMapKind, namespace, ConfigMapName(name))
    case DeploymentBuilder => Key(DeploymentKind, namespace, WorkloadName(name))
    case ServiceBuilder => Key(ServiceKind, namespace, WorkloadName(name))
    case IngressBuilder => Key(IngressKind, namespace, WorkloadName(name))
  }

  /** Every object built is of the kind of the key it is created under. */
  lemma BuiltKeyMatches(b: Builder, name: string, namespace: string, spec: OdooInstanceSpec, uid: string)
    ensures KindOf(Build(b, name, namespace, spec, uid)) == BuiltKey(b, name, namespace).kind
  {
  }

  /** What a `create_*` helper does: read the uid (any failure of that read is
      raised), build, create; a 409 on the create is absorbed. */
  function CreateStep(c: Cluster, b: Builder, name: string, namespace: string, spec: OdooInstanceSpec): (r: Step)
    requires WellKeyed(c)
    ensures WellKeyed(r.cluster) && r.cluster.faults == c.faults
    ensures r.raised.Some? ==> r.cluster == c && r.raised.value.ApiException?
    ensures Keeps(c, r.cluster) && AddsOnly(c, r.cluster, {BuiltKey(b, name, namespace)})
  {
    var uid := Read(c, InstanceKey(namespace, name));
    if uid.ReadFailed? then
      Step(c, Some(uid.raised))
    else
      var k := BuiltKey(b, name, namespace);
      BuiltKeyMatches(b, name, namespace, spec, uid.obj.instance.uid);
      var s := Create(c, k, Build(b, name, namespace, spec, uid.obj.instance.uid));
      if s.raised == Some(ApiException(Conflict)) then Step(s.cluster, None) else s
  }

  /** The three outcomes of a create helper: an existing object is kept as it
      is and the call succeeds; a missing one is created; a failure of the uid
      read or of the create (other than 409) is raised with its status. */
  lemma CreateStepOutcome(c: Cluster, b: Builder, name: string, namespace: string, spec: OdooInstanceSpec)
    requires WellKeyed(c)
    requires InstanceKey(namespace, name) in c.objects && InstanceKey(namespace, name) !in c.faults
    ensures var k := BuiltKey(b, name, namespace);
      var r := CreateStep(c, b, name, namespace, spec);
      var uid := c.objects[InstanceKey(namespace, name)].instance.uid;
      && (k in c.faults ==> r == Step(c, if c.faults[k] == Conflict then None else Some(ApiException(c.faults[k]))))
      && (k !in c.faults && k in c.objects ==> r == Step(c, None))
      && (k !in c.faults && k !in c.objects ==>
            r == Step(c.(objects := c.objects[k := Build(b, name, namespace, spec, uid)]), None))
  {
  }

  /** The uid is read before the `try` around the create, so any failure of
      that read, a 409 included, is raised as it is and nothing is created. */
  lemma CreateStepUidFailure(c: Cluster, b: Builder, name: string, namespace: string, spec: OdooInstanceSpec)
    requires WellKeyed(c)
    requires InstanceKey(namespace, name) in c.faults || InstanceKey(namespace, name) !in c.objects
    ensures var r := CreateStep(c, b, name, namespace, spec);
      && r.cluster == c
      && (InstanceKey(namespace, name) in c.faults ==>
            r.raised == Some(ApiException(c.faults[InstanceKey(namespace, name)])))
      && (InstanceKey(namespace, name) !in c.faults ==> r.raised == Some(ApiException(NotFound)))
  {
  }

  /** Calling a create helper a second time changes nothing and reports the same. */
  lemma CreateStepTwice(c: Cluster, b: Builder, name: string, namespace: string, spec: OdooInstanceSpec)
    requires WellKeyed(c)
    ensures var r := CreateStep(c, b, name, namespace, spec);
      CreateStep(r.cluster, b, name, namespace, spec) == r
  {
  }

  /** A create helper does not look at or touch the instance's status. */
  lemma CreateStepAfterPatch(c: Cluster, b: Builder, name: string, namespace: string, spec: OdooInstanceSpec,
                             patch: map<string, StatusValue>)
    requires WellKeyed(c)
    ensures var p := PatchStatus(c, namespace, name, patch);
      var r := CreateStep(c, b, name, namespace, spec);
      CreateStep(p, b, name, namespace, spec) == Step(PatchStatus(r.cluster, namespace, name, patch), r.raised)
  {
    var p := PatchStatus(c, namespace, name, patch);
    var ik := InstanceKey(namespace, name);
    var k := BuiltKey(b, name, namespace);
    assert ik != k;
    if ik in c.faults || ik !in c.objects {
      assert p == c;
    } else {
      var inst := c.objects[ik].instance;
      var patched := Instance(inst.(status := PatchedStatus(inst.status, patch)));
      assert p == c.(objects := c.objects[ik := patched]);
      assert p.objects[ik].instance.uid == inst.uid;
      CreateStepOutcome(c, b, name, namespace, spec);
      CreateStepOutcome(p, b, name, namespace, spec);
      if k in c.faults {
        assert k in p.faults && p.faults[k] == c.faults[k];
      } else if k in c.objects {
        assert k in p.objects;
      } else {
        var o := Build(b, name, namespace, spec, inst.uid);
        var built := c.(objects := c.objects[k := o]);
        assert CreateStep(c, b, name, namespace, spec) == Step(built, None);
        assert CreateStep(p, b, name, namespace, spec) == Step(p.(objects := p.objects[k := o]), None);
        assert built.objects[ik] == c.objects[ik];
        assert PatchStatus(built, namespace, name, patch) == built.(objects := built.objects[ik := patched]);
        WritesCommute(c.objects, k, o, ik, patched);
      }
    }
  }

  /** The create helpers in sequence; the first failure stops the run. */
  function CreateChain(c: Cluster, bs: seq<Builder>, name: string, namespace: string, spec: OdooInstanceSpec): (r: Step)
    requires WellKeyed(c)
    ensures WellKeyed(r.cluster) && r.cluster.faults == c.faults
    ensures r.raised.Some? ==> r.raised.value.ApiException?
    ensures Keeps(c, r.cluster) && AddsOnly(c, r.cluster, BuiltKeys(bs, name, namespace))
    decreases |bs|
  {
    if bs == [] then Step(c, None)
    else
      var s := CreateStep(c, bs[0], name, namespace, spec);
      if s.raised.Some? then s
      else CreateChain(s.cluster, bs[1..], name, namespace, spec)
  }

  /** The keys a run of builders may create. */
  function BuiltKeys(bs: seq<Builder>, name: string, namespace: string): (keys: set<Key>)
    ensures forall b :: b in bs ==> BuiltKey(b, name, namespace) in keys
    ensures forall k :: k in keys ==> exists b :: b in bs && k == BuiltKey(b, name, namespace)
    decreases |bs|
  {
    if bs == [] then {}
    else
      var keys := {BuiltKey(bs[0], name, namespace)} + BuiltKeys(bs[1..], name, namespace);
      assert forall b :: b in bs ==> b == bs[0] || b in bs[1..];
      keys
  }

  /** Running the same helpers again changes nothing and reports the same. */
  lemma {:induction false} CreateChainTwice(c: Cluster, bs: seq<Builder>, name: string, namespace: string, spec: OdooInstanceSpec)
    requires WellKeyed(c)
    ensures var r := CreateChain(c, bs, name, namespace, spec);
      CreateChain(r.cluster, bs, name, namespace, spec) == r
    decreases |bs|
  {
    if bs != [] {
      var s := CreateStep(c, bs[0], name, namespace, spec);
      if s.raised.None? {
        var r := CreateChain(s.cluster, bs[1..], name, namespace, spec);
        CreateChainTwice(s.cluster, bs[1..], name, namespace, spec);
        CreateStepTwice(c, bs[0], name, namespace, spec);
        CreateStepIdle(s.cluster, r.cluster, bs[0], name, namespace, spec);
      } else {
        CreateStepTwice(c, bs[0], name, namespace, spec);
      }
    }
  }

  /** A create helper that succeeded on `c` succeeds without change on any later store that keeps `c`'s objects. */
  lemma CreateStepIdle(c: Cluster, later: Cluster, b: Builder, name: string, namespace: string, spec: OdooInstanceSpec)
    requires WellKeyed(c) && WellKeyed(later)
    requires CreateStep(c, b, name, namespace, spec) == Step(c, None)
    requires later.faults == c.faults && Keeps(c, later)
    ensures CreateStep(later, b, name, namespace, spec) == Step(later, None)
  {
    var ik := InstanceKey(namespace, name);
    var k := BuiltKey(b, name, namespace);
    if ik in c.objects && ik !in c.faults {
      assert k in c.faults ==> c.faults[k] == Conflict;
      if k !in c.faults {
        assert k in c.objects;
      }
    }
  }

  /** The create helpers do not look at or touch the instance's status. */
  lemma {:induction false} CreateChainAfterPatch(c: Cluster, bs: seq<Builder>, name: string, namespace: string,
                                                 spec: OdooInstanceSpec, patch: map<string, StatusValue>)
    requires WellKeyed(c)
    ensures var r := CreateChain(c, bs, name, namespace, spec);
      CreateChain(PatchStatus(c, namespace, name, patch), bs, name, namespace, spec)
        == Step(PatchStatus(r.cluster, namespace, name, patch), r.raised)
    decreases |bs|
  {
    if bs != [] {
      CreateStepAfterPatch(c, bs[0], name, namespace, spec, patch);
      var s := CreateStep(c, bs[0], name, namespace, spec);
      if s.raised.None? {
        CreateChainAfterPatch(s.cluster, bs[1..], name, namespace, spec, patch);
      }
    }
  }

  /** A run of create helpers that succeeds leaves every built key present,
      unless the create of that key itself was refused with 409. */
  lemma {:induction false} CreateChainSucceeds(c: Cluster, bs: seq<Builder>, name: string, namespace: string, spec: OdooInstanceSpec)
    requires WellKeyed(c)
    requires CreateChain(c, bs, name, namespace, spec).raised.None?
    ensures forall b :: b in bs ==>
      BuiltKey(b, name, namespace) in CreateChain(c, bs, name, namespace, spec).cluster.objects || RefusedWith(c, BuiltKey(b, name, namespace), Conflict)
    ensures InstanceKey(namespace, name) in c.objects || bs == []
    decreases |bs|
  {
    if bs != [] {
      var s := CreateStep(c, bs[0], name, namespace, spec);
      var r := CreateChain(s.cluster, bs[1..], name, namespace, spec);
      assert CreateChain(c, bs, name, namespace, spec) == r;
      CreateStepSucceeds(c, bs[0], name, namespace, spec);
      CreateChainSucceeds(s.cluster, bs[1..], name, namespace, spec);
      assert Keeps(s.cluster, r.cluster) && s.cluster.faults == c.faults;
      forall b | b in bs ensures BuiltKey(b, name, namespace) in r.cluster.objects
                                 || RefusedWith(c, BuiltKey(b, name, namespace), Conflict) {
        if b != bs[0] {
          assert b in bs[1..];
        }
      }
    }
  }

  /** A create helper that raises nothing found the instance, and its key is
      then present unless its create was refused with 409. */
  lemma CreateStepSucceeds(c: Cluster, b: Builder, name: string, namespace: string, spec: OdooInstanceSpec)
    requires WellKeyed(c)
    requires CreateStep(c, b, name, namespace, spec).raised.None?
    ensures InstanceKey(namespace, name) in c.objects && InstanceKey(namespace, name) !in c.faults
    ensures BuiltKey(b, name, namespace) in CreateStep(c, b, name, namespace, spec).cluster.objects
         || RefusedWith(c, BuiltKey(b, name, namespace), Conflict)
  {
    assert InstanceKey(namespace, name) in c.objects;
    CreateStepOutcome(c, b, name, namespace, spec);
  }

  /* ---------------- The update helpers ---------------- */

  /** `update_config_map`: read and write back the same object, which changes
      nothing; on 404 create it. */
  function UpdateConfigMapStep(c: Cluster, name: string, namespace: string, spec: OdooInstanceSpec): (r: Step)
    requires WellKeyed(c)
    ensures WellKeyed(r.cluster) && r.cluster.faults == c.faults && InstancesKept(c, r.cluster)
  {
    var k := Key(ConfigMapKind, namespace, ConfigMapName(name));
    var read := Read(c, k);
    if read.Found? then Replace(c, k, read.obj)
    else if read.raised == ApiException(NotFound) then CreateStep(c, ConfigMapBuilder, name, namespace, spec)
    else Step(c, Some(read.raised))
  }

  /** `update_deployment`: rewrite the live Deployment `<name>`; on 404 create it. */
  function UpdateDeploymentStep(c: Cluster, name: string, namespace: string, spec: OdooInstanceSpec): (r: Step)
    requires WellKeyed(c)
    ensures WellKeyed(r.cluster) && r.cluster.faults == c.faults && InstancesKept(c, r.cluster)
  {
    var k := Key(DeploymentKind, namespace, WorkloadName(name));
    var read := Read(c, k);
    if read.Found? then
      match UpdatedDeployment(read.obj.deployment, spec)
      case Raise(e) => Step(c, Some(PythonError(e)))
      case Ok(d) => Replace(c, k, DeploymentObject(d))
    else if read.raised == ApiException(NotFound) then CreateStep(c, DeploymentBuilder, name, namespace, spec)
    else Step(c, Some(read.raised))
  }

  /** `update_service`: looks for `odoo-<name>`, leaves it as it is when found,
      and otherwise calls the live `create_service`, which makes `<name>`. */
  function UpdateServiceStep(c: Cluster, name: string, namespace: string, spec: OdooInstanceSpec): (r: Step)
    requires WellKeyed(c)
    ensures WellKeyed(r.cluster) && r.cluster.faults == c.faults && InstancesKept(c, r.cluster)
  {
    var read := Read(c, Key(ServiceKind, namespace, LegacyWorkloadName(name)));
    if read.Found? then Step(c, None)
    else if read.raised == ApiException(NotFound) then CreateStep(c, ServiceBuilder, name, namespace, spec)
    else Step(c, Some(read.raised))
  }

  /** `update_ingress`: rewrite the live Ingress `<name>`; on 404 create it. */
  function UpdateIngressStep(c: Cluster, name: string, namespace: string, spec: OdooInstanceSpec): (r: Step)
    requires WellKeyed(c)
    ensures WellKeyed(r.cluster) && r.cluster.faults == c.faults && InstancesKept(c, r.cluster)
  {
    var k := Key(IngressKind, namespace, WorkloadName(name));
    var read := Read(c, k);
    if read.Found? then
      match UpdatedIngress(read.obj.ingress, name, spec)
      case Raise(e) => Step(c, Some(PythonError(e)))
      case Ok(i) => Replace(c, k, IngressObject(i))
    else if read.raised == ApiException(NotFound) then CreateStep(c, IngressBuilder, name, namespace, spec)
    else Step(c, Some(read.raised))
  }

  /** The update handler's delete of a disabled ingress; 404 is not an error. */
  function DeleteIngressStep(c: Cluster, namespace: string, ingressName: string): (r: Step)
    requires WellKeyed(c)
    ensures WellKeyed(r.cluster) && r.cluster.faults == c.faults && InstancesKept(c, r.cluster)
    ensures r.raised.None? <==> Key(IngressKind, namespace, ingressName) !in c.faults || c.faults[Key(IngressKind, namespace, ingressName)] == NotFound
    ensures Key(IngressKind, namespace, ingressName) !in c.faults ==> r.cluster.objects == c.objects - {Key(IngressKind, namespace, ingressName)}
  {
    var s := Delete(c, Key(IngressKind, namespace, ingressName));
    if s.raised == Some(ApiException(NotFound)) then Step(s.cluster, None) else s
  }

  /** The update helpers never remove an object and touch only the key they are about. */
  lemma UpdateConfigMapKeepsOthers(c: Cluster, name: string, namespace: string, spec: OdooInstanceSpec)
    requires WellKeyed(c)
    ensures var r := UpdateConfigMapStep(c, name, namespace, spec);
      && (forall k :: k in c.objects ==> k in r.cluster.objects && r.cluster.objects[k] == c.objects[k])
      && (r.raised.None? ==> Key(ConfigMapKind, namespace, ConfigMapName(name)) in r.cluster.objects)
  {
    var k := Key(ConfigMapKind, namespace, ConfigMapName(name));
    if k in c.objects && k !in c.faults {
      assert c.objects[k := c.objects[k]] == c.objects;
    }
  }

  /** `update_service` never changes a Service: at most it creates the missing `<name>`. */
  lemma UpdateServiceKeepsServices(c: Cluster, name: string, namespace: string, spec: OdooInstanceSpec)
    requires WellKeyed(c)
    ensures var r := UpdateServiceStep(c, name, namespace, spec);
      && (forall k :: k in c.objects ==> k in r.cluster.objects && r.cluster.objects[k] == c.objects[k])
      && (forall k :: k in r.cluster.objects ==> k in c.objects || k == Key(ServiceKind, namespace, WorkloadName(name)))
  {
  }

  /** With the live Service `<name>` in place and no `odoo-<name>`, `update_service`
      takes the create path, which meets 409 and does nothing. */
  lemma UpdateServiceFindsNothing(c: Cluster, name: string, namespace: string, spec: OdooInstanceSpec)
    requires WellKeyed(c)
    requires InstanceKey(namespace, name) in c.objects && InstanceKey(namespace, name) !in c.faults
    requires Key(ServiceKind, namespace, LegacyWorkloadName(name)) !in c.objects
    requires Key(ServiceKind, namespace, LegacyWorkloadName(name)) !in c.faults
    requires Key(ServiceKind, namespace, WorkloadName(name)) in c.objects
    requires Key(ServiceKind, namespace, WorkloadName(name)) !in c.faults
    ensures UpdateServiceStep(c, name, namespace, spec) == Step(c, None)
  {
  }

  /** Updating with the spec the objects were created from rewrites the
      Deployment into itself. */
  lemma UpdateDeploymentAfterCreate(c: Cluster, name: string, namespace: string, spec: OdooInstanceSpec)
    requires WellKeyed(c)
    requires InstanceKey(namespace, name) in c.objects && InstanceKey(namespace, name) !in c.faults
    requires Key(DeploymentKind, namespace, name) !in c.faults
    requires Key(DeploymentKind, namespace, name) in c.objects
    requires c.objects[Key(DeploymentKind, namespace, name)]
           == DeploymentObject(LiveDeployment(name, namespace, spec, c.objects[InstanceKey(namespace, name)].instance.uid))
    ensures UpdateDeploymentStep(c, name, namespace, spec) == Step(c, None)
  {
    var k := Key(DeploymentKind, namespace, name);
    UpdateDeploymentConverges(name, namespace, spec, c.objects[InstanceKey(namespace, name)].instance.uid);
    assert c.objects[k := c.objects[k]] == c.objects;
  }

  /* ---------------- The helpers, call by call ---------------- */

  /** Reads the instance's uid; the read's failure is passed on. */
  method ReadUid(store: Store, namespace: string, name: string) returns (uid: string, raised: Option<Raised>)
    requires WellKeyed(store.State())
    ensures var r := Read(store.State(), InstanceKey(namespace, name));
      && (raised.None? <==> r.Found?)
      && (r.Found? ==> uid == r.obj.instance.uid)
      && (r.ReadFailed? ==> raised == Some(r.raised))
  {
    var current := store.ReadObject(InstanceKey(namespace, name));
    if current.Found? {
      uid, raised := current.obj.instance.uid, None;
    } else {
      uid, raised := "", Some(current.raised);
    }
  }

  /** A `create_*` helper, call by call. */
  method CreateOrSkip(store: Store, b: Builder, name: string, namespace: string, spec: OdooInstanceSpec) returns (raised: Option<Raised>)
    requires WellKeyed(store.State())
    modifies store
    ensures Step(store.State(), raised) == CreateStep(old(store.State()), b, name, namespace, spec)
  {
    var uid, failed := ReadUid(store, namespace, name);
    if failed.Some? {
      return failed;
    }
    var obj: Object;
    if b == DeploymentBuilder {
      var d := BuildLiveDeployment(name, namespace, spec, uid);
      obj := DeploymentObject(d);
    } else {
      obj := Build(b, name, namespace, spec, uid);
    }
    raised := store.CreateObject(BuiltKey(b, name, namespace), obj);
    if raised == Some(ApiException(Conflict)) {
      raised := None;
    }
  }

  /** `update_config_map`, call by call. */
  method UpdateConfigMap(store: Store, name: string, namespace: string, spec: OdooInstanceSpec) returns (raised: Option<Raised>)
    requires WellKeyed(store.State())
    modifies store
    ensures Step(store.State(), raised) == UpdateConfigMapStep(old(store.State()), name, namespace, spec)
  {
    var k := Key(ConfigMapKind, namespace, ConfigMapName(name));
    var current := store.ReadObject(k);
    if current.Found? {
      raised := store.ReplaceObject(k, current.obj);
    } else if current.raised == ApiException(NotFound) {
      raised := CreateOrSkip(store, ConfigMapBuilder, name, namespace, spec);
    } else {
      raised := Some(current.raised);
    }
  }

  /** `update_deployment`, call by call: the rewrite is done on the fetched object. */
  method UpdateDeployment(store: Store, name: string, namespace: string, spec: OdooInstanceSpec) returns (raised: Option<Raised>)
    requires WellKeyed(store.State())
    modifies store
    ensures Step(store.State(), raised) == UpdateDeploymentStep(old(store.State()), name, namespace, spec)
  {
    var k := Key(DeploymentKind, namespace, WorkloadName(name));
    var current := store.ReadObject(k);
    if current.Found? {
      var edited := RewriteDeployment(current.obj.deployment, spec);
      if edited.Raise? {
        return Some(PythonError(edited.error));
      }
      raised := store.ReplaceObject(k, DeploymentObject(edited.value));
    } else if current.raised == ApiException(NotFound) {
      raised := CreateOrSkip(store, DeploymentBuilder, name, namespace, spec);
    } else {
      raised := Some(current.raised);
    }
  }

  /** `update_service`, call by call. */
  method UpdateService(store: Store, name: string, namespace: string, spec: OdooInstanceSpec) returns (raised: Option<Raised>)
    requires WellKeyed(store.State())
    modifies store
    ensures Step(store.State(), raised) == UpdateServiceStep(old(store.State()), name, namespace, spec)
  {
    var current := store.ReadObject(Key(ServiceKind, namespace, LegacyWorkloadName(name)));
    if current.Found? {
      raised := None;
    } else if current.raised == ApiException(NotFound) {
      raised := CreateOrSkip(store, ServiceBuilder, name, namespace, spec);
    } else {
      raised := Some(current.raised);
    }
  }

  /** `update_ingress`, call by call. */
  method UpdateIngress(store: Store, name: string, namespace: string, spec: OdooInstanceSpec) returns (raised: Option<Raised>)
    requires WellKeyed(store.State())
    modifies store
    ensures Step(store.State(), raised) == UpdateIngressStep(old(store.State()), name, namespace, spec)
  {
    var k := Key(IngressKind, namespace, WorkloadName(name));
    var current := store.ReadObject(k);
    if current.Found? {
      var edited := RewriteIngress(current.obj.ingress, name, spec);
      if edited.Raise? {
        return Some(PythonError(edited.error));
      }
      raised := store.ReplaceObject(k, IngressObject(edited.value));
    } else if current.raised == ApiException(NotFound) {
      raised := CreateOrSkip(store, IngressBuilder, name, namespace, spec);
    } else {
      raised := Some(current.raised);
    }
  }

  /** The delete of a disabled ingress, call by call. */
  method DeleteIngress(store: Store, namespace: string, ingressName: string) returns (raised: Option<Raised>)
    requires WellKeyed(store.State())
    modifies store
    ensures Step(store.State(), raised) == DeleteIngressStep(old(store.State()), namespace, ingressName)
  {
    raised := store.DeleteObject(Key(IngressKind, namespace, ingressName));
    if raised == Some(ApiException(NotFound)) {
      raised := None;
    }
  }
}

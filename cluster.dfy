/** The Kubernetes API as the operator uses it, over an abstract store of
    objects keyed by kind, namespace and name. A call fails with 404 when the
    object is missing and with 409 when a create meets an existing one; any
    other failure is modelled by `faults`, the status code every call on a
    given key fails with. */
module Cluster {
  import opened Common
  import opened Resources

  datatype Kind = PvcKind | ConfigMapKind | SecretKind | DeploymentKind | ServiceKind | IngressKind | InstanceKind

  datatype Key = Key(kind: Kind, namespace: string, name: string)

  /** A status value: JSON null, a boolean or a string. */
  datatype StatusValue = Null | Flag(b: bool) | Text(s: string)

  /** The OdooInstance as the operator reads it: `metadata.uid` and `status` (absent reads as empty). */
  datatype InstanceObject = InstanceObject(uid: string, status: map<string, StatusValue>)

  datatype Object =
    | PvcObject(pvc: Pvc)
    | ConfigMapObject(configMap: ConfigMap)
    | SecretObject(secret: Secret)
    | DeploymentObject(deployment: Deployment)
    | ServiceObject(service: Service)
    | IngressObject(ingress: Ingress)
    | Instance(instance: InstanceObject)

  function KindOf(o: Object): Kind {
    match o
    case PvcObject(_) => PvcKind
    case ConfigMapObject(_) => ConfigMapKind
    case SecretObject(_) => SecretKind
    case DeploymentObject(_) => DeploymentKind
    case ServiceObject(_) => ServiceKind
    case IngressObject(_) => IngressKind
    case Instance(_) => InstanceKind
  }

  function InstanceKey(namespace: string, name: string): Key {
    Key(InstanceKind, namespace, name)
  }

  /** What an API call raises: an `ApiException` with its status, or another Python exception. */
  datatype Raised = ApiException(status: nat) | PythonError(error: PyError)

  const Conflict: nat := 409
  const NotFound: nat := 404

  datatype Cluster = Cluster(objects: map<Key, Object>, faults: map<Key, nat>)

  /** Writes under two different keys can be done in either order. */
  lemma WritesCommute(m: map<Key, Object>, k1: Key, v1: Object, k2: Key, v2: Object)
    requires k1 != k2
    ensures m[k1 := v1][k2 := v2] == m[k2 := v2][k1 := v1]
  {
  }

  /** Every object is stored under a key of its own kind. */
  predicate WellKeyed(c: Cluster) {
    forall k :: k in c.objects ==> KindOf(c.objects[k]) == k.kind
  }

  /** `later` still holds every object of `c`, unchanged. */
  predicate Keeps(c: Cluster, later: Cluster) {
    forall k :: k in c.objects ==> k in later.objects && later.objects[k] == c.objects[k]
  }

  /** `later` holds every instance object of `c`, unchanged. */
  predicate InstancesKept(c: Cluster, later: Cluster) {
    forall k :: k in c.objects && k.kind == InstanceKind ==> k in later.objects && later.objects[k] == c.objects[k]
  }

  /** `later` holds no object that is not in `c`, except under `keys`. */
  predicate AddsOnly(c: Cluster, later: Cluster, keys: set<Key>) {
    forall k :: k in later.objects ==> k in c.objects || k in keys
  }

  /** Every call on `k` fails with `code`. */
  predicate RefusedWith(c: Cluster, k: Key, code: nat) {
    k in c.faults && c.faults[k] == code
  }

  /* ---------------- The API calls ---------------- */

  datatype ReadResult = Found(obj: Object) | ReadFailed(raised: Raised)

  /** A result of a call that changes the store: the new store and what was raised, if anything. */
  datatype Step = Step(cluster: Cluster, raised: Option<Raised>)

  function Read(c: Cluster, k: Key): (r: ReadResult)
    ensures r.Found? <==> k !in c.faults && k in c.objects
    ensures r.Found? ==> r.obj == c.objects[k]
  {
    if k in c.faults then ReadFailed(ApiException(c.faults[k]))
    else if k !in c.objects then ReadFailed(ApiException(NotFound))
    else Found(c.objects[k])
  }

  function Create(c: Cluster, k: Key, o: Object): (r: Step)
    ensures r.raised.None? <==> k !in c.faults && k !in c.objects
    ensures r.raised.None? ==> r.cluster.objects == c.objects[k := o]
    ensures r.raised.Some? ==> r.cluster == c
    ensures k !in c.faults && k in c.objects ==> r.raised == Some(ApiException(Conflict))
    ensures r.cluster.faults == c.faults
  {
    if k in c.faults then Step(c, Some(ApiException(c.faults[k])))
    else if k in c.objects then Step(c, Some(ApiException(Conflict)))
    else Step(c.(objects := c.objects[k := o]), None)
  }

  /** A `patch_namespaced_*` call with a whole, edited object: it replaces the stored one. */
  function Replace(c: Cluster, k: Key, o: Object): (r: Step)
    ensures r.raised.None? <==> k !in c.faults && k in c.objects
    ensures r.raised.None? ==> r.cluster.objects == c.objects[k := o]
    ensures r.raised.Some? ==> r.cluster == c
    ensures r.cluster.faults == c.faults
  {
    if k in c.faults then Step(c, Some(ApiException(c.faults[k])))
    else if k !in c.objects then Step(c, Some(ApiException(NotFound)))
    else Step(c.(objects := c.objects[k := o]), None)
  }

  function Delete(c: Cluster, k: Key): (r: Step)
    ensures r.raised.None? <==> k !in c.faults && k in c.objects
    ensures r.raised.None? ==> r.cluster.objects == c.objects - {k}
    ensures r.raised.Some? ==> r.cluster == c
    ensures r.cluster.faults == c.faults
  {
    if k in c.faults then Step(c, Some(ApiException(c.faults[k])))
    else if k !in c.objects then Step(c, Some(ApiException(NotFound)))
    else Step(c.(objects := c.objects - {k}), None)
  }

  /* ---------------- Status ---------------- */

  /** The status an RFC 7386 merge patch leaves when the patch names every key
      of the old status: null-valued keys are dropped. */
  function DropNulls(s: map<string, StatusValue>): (r: map<string, StatusValue>)
    ensures forall k :: k in r <==> k in s && s[k] != Null
    ensures forall k :: k in r ==> r[k] == s[k]
  {
    map k | k in s && s[k] != Null :: s[k]
  }

  /** `current_status.update(patch)` (the patch wins), then sent as a merge patch. */
  function PatchedStatus(status: map<string, StatusValue>, patch: map<string, StatusValue>): map<string, StatusValue> {
    DropNulls(status + patch)
  }

  /** `patch_status`: read the instance, merge the patch into its status and
      write it back; a failing read or write is logged and swallowed. */
  function PatchStatus(c: Cluster, namespace: string, name: string, patch: map<string, StatusValue>): (r: Cluster)
    requires WellKeyed(c)
    ensures WellKeyed(r) && r.faults == c.faults && r.objects.Keys == c.objects.Keys
    ensures forall k :: k in c.objects && k != InstanceKey(namespace, name) ==> r.objects[k] == c.objects[k]
  {
    var k := InstanceKey(namespace, name);
    if k in c.faults || k !in c.objects then c
    else
      var inst := c.objects[k].instance;
      c.(objects := c.objects[k := Instance(inst.(status := PatchedStatus(inst.status, patch)))])
  }

  /** The status of the instance, when it exists. */
  function StatusOf(c: Cluster, namespace: string, name: string): Option<map<string, StatusValue>>
    requires WellKeyed(c)
  {
    var k := InstanceKey(namespace, name);
    if k in c.objects then Some(c.objects[k].instance.status) else None
  }

  /** Patching sets every non-null patched key, drops each null-patched key and
      leaves every other (non-null) key as it was; the uid never changes. */
  lemma PatchStatusEffect(c: Cluster, namespace: string, name: string, patch: map<string, StatusValue>)
    requires WellKeyed(c)
    requires InstanceKey(namespace, name) in c.objects && InstanceKey(namespace, name) !in c.faults
    ensures var before := c.objects[InstanceKey(namespace, name)].instance;
      var after := PatchStatus(c, namespace, name, patch).objects[InstanceKey(namespace, name)].instance;
      && after.uid == before.uid
      && (forall k :: k in patch && patch[k] != Null ==> k in after.status && after.status[k] == patch[k])
      && (forall k :: k in patch && patch[k] == Null ==> k !in after.status)
      && (forall k :: k !in patch ==> (k in after.status <==> k in before.status && before.status[k] != Null))
      && (forall k :: k !in patch && k in after.status ==> after.status[k] == before.status[k])
  {
  }

  /** A second patch that names every key of the first overrides it entirely. */
  lemma {:induction false} PatchedStatusAbsorbs(s: map<string, StatusValue>, p1: map<string, StatusValue>, p2: map<string, StatusValue>)
    requires p1.Keys <= p2.Keys
    ensures PatchedStatus(PatchedStatus(s, p1), p2) == PatchedStatus(s, p2)
  {
    var lhs, rhs := PatchedStatus(PatchedStatus(s, p1), p2), PatchedStatus(s, p2);
    forall k ensures (k in lhs <==> k in rhs) && (k in lhs ==> lhs[k] == rhs[k]) {
      if k !in p2 {
        assert k !in p1;
      }
    }
  }

  /** Patching twice with the same patch is patching once. */
  lemma PatchStatusIdempotent(c: Cluster, namespace: string, name: string, patch: map<string, StatusValue>)
    requires WellKeyed(c)
    ensures PatchStatus(PatchStatus(c, namespace, name, patch), namespace, name, patch) == PatchStatus(c, namespace, name, patch)
  {
    var k := InstanceKey(namespace, name);
    if k !in c.faults && k in c.objects {
      PatchedStatusAbsorbs(c.objects[k].instance.status, patch, patch);
    }
  }

  /** A status patch followed by one that names all its keys is just the second. */
  lemma PatchStatusAbsorbs(c: Cluster, namespace: string, name: string, p1: map<string, StatusValue>, p2: map<string, StatusValue>)
    requires WellKeyed(c)
    requires p1.Keys <= p2.Keys
    ensures PatchStatus(PatchStatus(c, namespace, name, p1), namespace, name, p2) == PatchStatus(c, namespace, name, p2)
  {
    var k := InstanceKey(namespace, name);
    if k !in c.faults && k in c.objects {
      PatchedStatusAbsorbs(c.objects[k].instance.status, p1, p2);
      var c1 := PatchStatus(c, namespace, name, p1);
      assert c1.objects[k := Instance(c1.objects[k].instance.(status := PatchedStatus(c1.objects[k].instance.status, p2)))]
          == c.objects[k := Instance(c.objects[k].instance.(status := PatchedStatus(c.objects[k].instance.status, p2)))];
    }
  }

  /* ---------------- The store, changed call by call ---------------- */

  /** The cluster the handlers talk to. */
  class Store {
    var objects: map<Key, Object>
    const faults: map<Key, nat>

    constructor (objects: map<Key, Object>, faults: map<Key, nat>)
      ensures this.objects == objects && this.faults == faults
    {
      this.objects := objects;
      this.faults := faults;
    }

    function State(): Cluster
      reads this
    {
      Cluster(objects, faults)
    }

    method ReadObject(k: Key) returns (r: ReadResult)
      ensures r == Read(State(), k)
    {
      if k in faults {
        r := ReadFailed(ApiException(faults[k]));
      } else if k !in objects {
        r := ReadFailed(ApiException(NotFound));
      } else {
        r := Found(objects[k]);
      }
    }

    method CreateObject(k: Key, o: Object) returns (raised: Option<Raised>)
      modifies this
      ensures Step(State(), raised) == Create(old(State()), k, o)
    {
      if k in faults {
        raised := Some(ApiException(faults[k]));
      } else if k in objects {
        raised := Some(ApiException(Conflict));
      } else {
        objects := objects[k := o];
        raised := None;
      }
    }

    method ReplaceObject(k: Key, o: Object) returns (raised: Option<Raised>)
      modifies this
      ensures Step(State(), raised) == Replace(old(State()), k, o)
    {
      if k in faults {
        raised := Some(ApiException(faults[k]));
      } else if k !in objects {
        raised := Some(ApiException(NotFound));
      } else {
        objects := objects[k := o];
        raised := None;
      }
    }

    method DeleteObject(k: Key) returns (raised: Option<Raised>)
      modifies this
      ensures Step(State(), raised) == Delete(old(State()), k)
    {
      if k in faults {
        raised := Some(ApiException(faults[k]));
      } else if k !in objects {
        raised := Some(ApiException(NotFound));
      } else {
        objects := objects - {k};
        raised := None;
      }
    }

    /** `patch_status`, step by step: get, `update`, patch; API errors are swallowed. */
    method PatchInstanceStatus(namespace: string, name: string, patch: map<string, StatusValue>)
      requires WellKeyed(State())
      modifies this
      ensures State() == PatchStatus(old(State()), namespace, name, patch)
    {
      var k := InstanceKey(namespace, name);
      var current := ReadObject(k);
      if current.Found? {
        var inst := current.obj.instance;
        var merged := inst.status + patch;
        var _ := ReplaceObject(k, Instance(inst.(status := DropNulls(merged))));
      }
    }
  }
}

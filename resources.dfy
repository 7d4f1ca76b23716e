/** Descriptors of the Kubernetes objects the operator submits, holding the
    fields the operator sets. Every object carries a controller owner
    reference to its OdooInstance. */
module Resources {
  import opened Common
  import opened Types

  /** The owner reference: apiVersion `odoo.bemade.org/v1`, kind OdooInstance,
      controller and blockOwnerDeletion both true; only name and uid vary. */
  datatype OwnerReference = OwnerReference(name: string, uid: string)

  datatype Metadata = Metadata(
    name: string,
    namespace: string,
    labels: map<string, string>,
    annotations: map<string, string>,
    owner: OwnerReference)

  /** A PersistentVolumeClaim with access mode ReadWriteOnce. */
  datatype Pvc = Pvc(meta: Metadata, storageSize: string, storageClass: string)

  datatype ConfigMap = ConfigMap(meta: Metadata, data: map<string, string>)

  /** Secret data is stored base64-encoded; the encoding is kept symbolic. */
  datatype SecretValue = Base64Of(text: string)

  /** An Opaque Secret. */
  datatype Secret = Secret(meta: Metadata, data: map<string, SecretValue>)

  datatype VolumeSource = EmptyDir | Claim(claimName: string) | ConfigMapVolume(configMapName: string)

  datatype Volume = Volume(name: string, source: VolumeSource)

  datatype VolumeMount = VolumeMount(name: string, mountPath: string, subPath: Option<string>, readOnly: bool)

  /** A TCP container port. */
  datatype ContainerPort = ContainerPort(name: string, containerPort: int)

  /** An HTTP GET probe on the named port `http`. */
  datatype Probe = Probe(
    path: string,
    initialDelaySeconds: int,
    periodSeconds: int,
    timeoutSeconds: int,
    successThreshold: Option<int>,
    failureThreshold: int)

  datatype Container = Container(
    name: string,
    image: string,
    command: seq<string>,
    args: seq<string>,
    ports: seq<ContainerPort>,
    env: seq<EnvVar>,
    volumeMounts: seq<VolumeMount>,
    resources: Option<ResourceRequirements>,
    livenessProbe: Option<Probe>,
    readinessProbe: Option<Probe>)

  /** A Deployment; `initContainers` is None when the key is not set. */
  datatype Deployment = Deployment(
    meta: Metadata,
    replicas: int,
    selector: map<string, string>,
    podLabels: map<string, string>,
    containers: seq<Container>,
    initContainers: Option<seq<Container>>,
    volumes: seq<Volume>)

  /** A TCP service port; the target is a named container port. */
  datatype ServicePort = ServicePort(name: string, port: int, targetPort: string)

  datatype Service = Service(meta: Metadata, selector: map<string, string>, ports: seq<ServicePort>)

  /** One rule: path `/` of type Prefix to the service's `http` port. */
  datatype IngressRule = IngressRule(host: Option<string>, serviceName: string)

  datatype IngressTls = IngressTls(hosts: seq<Option<string>>, secretName: string)

  /** An Ingress; `tls` is None when the key is not set. */
  datatype Ingress = Ingress(
    meta: Metadata,
    className: string,
    rules: seq<IngressRule>,
    tls: Option<seq<IngressTls>>)

  /** The TLS entries an ingress declares: an unset key declares none. */
  function TlsEntries(i: Ingress): seq<IngressTls> {
    i.tls.GetOr([])
  }

  /** Every mount of `c` names a volume of the pod. */
  predicate MountsResolve(c: Container, volumes: seq<Volume>) {
    forall m :: m in c.volumeMounts ==> exists v :: v in volumes && v.name == m.name
  }

  /** The pod of `d` is well formed: every container's mounts name pod volumes. */
  predicate PodMountsResolve(d: Deployment) {
    && (forall c :: c in d.containers ==> MountsResolve(c, d.volumes))
    && (d.initContainers.Some? ==> forall c :: c in d.initContainers.value ==> MountsResolve(c, d.volumes))
  }
}

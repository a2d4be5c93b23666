/**
 The TlnDB resource, as `api/v1alpha1/tlndb_types.go` declares it, and the child
 objects the operator writes.  Parts of a spec that are only copied through
 (security contexts, scheduling, quantities, the settings of the optional
 children) are single opaque strings.
 */
module Api {

  datatype Option<+T> = None | Some(value: T)

  type StringMap = map<string, string>

  // ---- Spec -----------------------------------------------------------------

  datatype ImageSpec = ImageSpec(repository: string, tag: string, digest: string)

  datatype ConfigSpec = ConfigSpec(dbPath: string, tcp: string, http: string, socket: string, extraConfig: string)

  datatype EnvVar = EnvVar(name: string, value: string)

  datatype Volume = Volume(name: string, source: string)

  datatype Mount = Mount(name: string, path: string)

  datatype Persistence = Persistence(enabled: Option<bool>, existingClaim: string, claim: string)

  datatype ServiceOptions = ServiceOptions(kind: string, annotations: StringMap, labels: StringMap)

  /** An optional child: whether it is wanted, and everything its builder copies from the spec. */
  datatype Feature = Feature(enabled: bool, settings: string)

  datatype Metrics = Metrics(enabled: Option<bool>, port: int, monitor: Feature)

  datatype Spec = Spec(
    mode: string,
    readReplicas: int,
    oplogRetention: int,
    image: ImageSpec,
    replicas: Option<int>,
    config: ConfigSpec,
    configFrom: Option<string>,
    env: seq<EnvVar>,
    persistence: Persistence,
    service: ServiceOptions,
    ingress: Feature,
    networkPolicy: Feature,
    metrics: Metrics,
    pdb: Feature,
    hpa: Feature,
    podAnnotations: StringMap,
    serviceAccountName: string,
    additionalContainers: seq<Container>,
    additionalVolumes: seq<Volume>,
    additionalVolumeMounts: seq<Mount>,
    podSettings: string)

  // ---- Status ---------------------------------------------------------------

  /** `Unset` is the empty string. */
  datatype Phase = Unset | Provisioning | Running | Degraded | Failed | Terminating

  datatype ConditionType =
    | StatefulSetReady | ConfigMapReady | ServiceReady | RBACReady | NetworkPolicyReady | ServiceMonitorReady

  datatype Condition = Condition(
    kind: ConditionType, status: bool, reason: string, message: string, observedGeneration: int, since: int)

  datatype Status = Status(
    phase: Phase,
    conditions: seq<Condition>,
    observedGeneration: int,
    readyReplicas: int,
    currentImage: string,
    managedResources: seq<string>,
    lastUpdateTime: Option<int>)

  datatype TlnDB = TlnDB(
    name: string,
    namespace: string,
    uid: nat,
    generation: nat,
    deleting: bool,
    finalizers: set<string>,
    spec: Spec,
    status: Status)

  // ---- Children -------------------------------------------------------------

  datatype Kind =
    | ServiceAccount | Role | RoleBinding | ConfigMap | Service | StatefulSet
    | Ingress | NetworkPolicy | ServiceMonitor | PodDisruptionBudget | HorizontalPodAutoscaler

  datatype Key = Key(kind: Kind, namespace: string, name: string)

  datatype ContainerPort = ContainerPort(name: string, number: int)

  /** `probePorts` are the ports of the liveness, readiness and startup probes. */
  datatype Container = Container(
    name: string,
    image: string,
    args: seq<string>,
    ports: seq<ContainerPort>,
    env: seq<EnvVar>,
    mounts: seq<Mount>,
    probePorts: seq<int>)

  datatype Template = Template(
    labels: StringMap,
    annotations: StringMap,
    serviceAccount: string,
    containers: seq<Container>,
    volumes: seq<Volume>,
    settings: string)

  datatype StatefulSetSpec = StatefulSetSpec(
    replicas: int,
    serviceName: string,
    selector: StringMap,
    template: Template,
    claims: seq<Volume>)

  datatype StatefulSetStatus = StatefulSetStatus(observedGeneration: int, readyReplicas: int)

  datatype ClusterIp = Unassigned | Headless | Assigned(address: nat)

  /** `target` is the name of the container port the Service forwards to. */
  datatype ServicePort = ServicePort(name: string, number: int, target: string)

  datatype ServiceSpec = ServiceSpec(
    kind: string, clusterIp: ClusterIp, selector: StringMap, ports: seq<ServicePort>, publishNotReady: bool)

  datatype Body =
    | StatefulSetBody(sts: StatefulSetSpec, generation: nat, status: StatefulSetStatus)
    | ServiceBody(svc: ServiceSpec)
    | ConfigMapBody(data: StringMap)
    | RoleBody(configMap: string)
    | RoleBindingBody(roleRef: string, subject: string)
    | OtherBody(settings: string, ports: seq<int>)

  datatype Child = Child(labels: StringMap, annotations: StringMap, owner: Option<nat>, body: Body)

  /** The body a kind of object carries. */
  predicate OfKind(kind: Kind, body: Body) {
    match kind
    case StatefulSet => body.StatefulSetBody?
    case Service => body.ServiceBody?
    case ConfigMap => body.ConfigMapBody?
    case Role => body.RoleBody?
    case RoleBinding => body.RoleBindingBody?
    case _ => body.OtherBody?
  }
}

/**
 The children of an instance: which a spec asks for, under which key and with
 which content, and how a stored one is revised towards the desired one by the
 `createOrUpdate*` helpers of `internal/controller/tlndb_controller.go`.
 */
module Children {
  import opened Api
  import opened Common
  import opened Workloads
  import opened Services
  import ConfigYaml

  // ---- Which children ---------------------------------------------------------

  datatype ChildId =
    | AccountChild | RoleChild | BindingChild | ConfigChild | HeadlessChild
    | SetChild(role: RoleName)
    | WriteChild | ReadChild | ClientChild
    | IngressChild | PolicyChild | MonitorChild | BudgetChild | ScalerChild

  function KindOf(id: ChildId): Kind {
    match id
    case AccountChild => ServiceAccount
    case RoleChild => Kind.Role
    case BindingChild => RoleBinding
    case ConfigChild => ConfigMap
    case SetChild(_) => StatefulSet
    case HeadlessChild => Service
    case WriteChild => Service
    case ReadChild => Service
    case ClientChild => Service
    case IngressChild => Ingress
    case PolicyChild => NetworkPolicy
    case MonitorChild => ServiceMonitor
    case BudgetChild => PodDisruptionBudget
    case ScalerChild => HorizontalPodAutoscaler
  }

  function NameOf(name: string, id: ChildId): string {
    match id
    case ConfigChild => ConfigMapName(name)
    case HeadlessChild => HeadlessServiceName(name)
    case SetChild(role) => WorkloadName(name, role)
    case ReadChild => ReadServiceName(name)
    case _ => name
  }

  function KeyOf(inst: TlnDB, id: ChildId): Key { Key(KindOf(id), inst.namespace, NameOf(inst.name, id)) }

  function FollowerKey(inst: TlnDB): Key { KeyOf(inst, SetChild(Follower)) }

  predicate Wanted(spec: Spec, id: ChildId) {
    match id
    case AccountChild => spec.serviceAccountName == ""
    case RoleChild => spec.serviceAccountName == ""
    case BindingChild => spec.serviceAccountName == ""
    case ConfigChild => spec.configFrom.None?
    case HeadlessChild => true
    case SetChild(role) =>
      (match role
       case Standalone => !Replicated(spec)
       case Leader => Replicated(spec)
       case Follower => Replicated(spec) && spec.readReplicas > 0)
    case WriteChild => Replicated(spec)
    case ReadChild => Replicated(spec)
    case ClientChild => !Replicated(spec)
    case IngressChild => spec.ingress.enabled
    case PolicyChild => spec.networkPolicy.enabled
    case MonitorChild => spec.metrics.monitor.enabled
    case BudgetChild => spec.pdb.enabled
    case ScalerChild => spec.hpa.enabled
  }

  /** The only pruning the controller does. */
  predicate Prunes(spec: Spec) { Replicated(spec) && spec.readReplicas <= 0 }

  function OptionalChild(inst: TlnDB, settings: string, ports: seq<int>): Child {
    Child(CommonLabels(inst.name), map[], Some(inst.uid), OtherBody(settings, ports))
  }

  function DesiredService(inst: TlnDB, id: ChildId): (child: Child)
    ensures child.body.ServiceBody?
  {
    match id
    case WriteChild => ClientService(inst, RoleSelector(inst.name, Leader))
    case ReadChild => ClientService(inst, RoleSelector(inst.name, ReadRole(inst.spec)))
    case ClientChild => ClientService(inst, SelectorLabels(inst.name))
    case _ => HeadlessService(inst)
  }

  function PolicyPorts(spec: Spec): seq<int> {
    [GrpcPort(spec), HttpPort(spec)] + (if MetricsEnabled(spec) then [MetricsPort(spec)] else [])
  }

  function DesiredOther(inst: TlnDB, id: ChildId): (child: Child)
    ensures child.body.OtherBody?
  {
    match id
    case IngressChild => OptionalChild(inst, inst.spec.ingress.settings, [HttpPort(inst.spec)])
    case PolicyChild => OptionalChild(inst, inst.spec.networkPolicy.settings, PolicyPorts(inst.spec))
    case MonitorChild => OptionalChild(inst, inst.spec.metrics.monitor.settings, [])
    case BudgetChild => OptionalChild(inst, inst.spec.pdb.settings, [])
    case ScalerChild => OptionalChild(inst, inst.spec.hpa.settings, [])
    case _ => OptionalChild(inst, "", [])
  }

  function DesiredConfigMap(inst: TlnDB): (child: Child)
    ensures child.body.ConfigMapBody?
  {
    Child(CommonLabels(inst.name), map[], Some(inst.uid), ConfigMapBody(map[CONFIG_FILE_NAME := ConfigYaml.Render(inst.spec)]))
  }

  /** The object the builders return for a child, with its controller reference set. */
  function Desired(inst: TlnDB, configHash: string, id: ChildId): (child: Child)
    ensures OfKind(KindOf(id), child.body)
  {
    match KindOf(id)
    case Role => Child(CommonLabels(inst.name), map[], Some(inst.uid), RoleBody(ConfigMapName(inst.name)))
    case RoleBinding => Child(CommonLabels(inst.name), map[], Some(inst.uid), RoleBindingBody(inst.name, inst.name))
    case ConfigMap => DesiredConfigMap(inst)
    case Service => DesiredService(inst, id)
    case StatefulSet => Workload(inst, configHash, id.role)
    case _ => DesiredOther(inst, id)
  }

  lemma DesiredSet(inst: TlnDB, h: string, role: RoleName)
    ensures Desired(inst, h, SetChild(role)) == Workload(inst, h, role)
    ensures Workload(inst, h, role).body.StatefulSetBody? && Workload(inst, h, role).body.sts == SetSpec(inst, h, role)
  {
  }

  /** The keys of one spec are distinct. */
  lemma WantedKeysDiffer(inst: TlnDB, a: ChildId, b: ChildId)
    requires Wanted(inst.spec, a) && Wanted(inst.spec, b) && a != b
    ensures KeyOf(inst, a) != KeyOf(inst, b)
  {
    SuffixLengths(inst.name);
  }

  /** A pruned key is not a wanted one. */
  lemma PrunedKeyUnwanted(inst: TlnDB, id: ChildId)
    requires Prunes(inst.spec) && Wanted(inst.spec, id)
    ensures KeyOf(inst, id) != FollowerKey(inst)
  {
    SuffixLengths(inst.name);
  }

  lemma SuffixLengths(name: string)
    ensures |LeaderName(name)| == |name| + 7 && |FollowerName(name)| == |name| + 9
    ensures |HeadlessServiceName(name)| == |name| + 9 && |ReadServiceName(name)| == |name| + 5
  {
  }

  lemma KeyInFootprint(inst: TlnDB, id: ChildId)
    ensures InFootprint(inst.namespace, inst.name, KeyOf(inst, id))
  {
  }

  // ---- Revising a stored child ------------------------------------------------

  function HashOf(sts: StatefulSetSpec): string {
    if CONFIG_HASH_ANNOTATION in sts.template.annotations then sts.template.annotations[CONFIG_HASH_ANNOTATION] else ""
  }

  /** `statefulSetNeedsUpdate`. */
  predicate NeedsUpdate(existing: StatefulSetSpec, desired: StatefulSetSpec) {
    existing.replicas != desired.replicas
    || HashOf(existing) != HashOf(desired)
    || (existing.template.containers != [] && desired.template.containers != [] &&
        existing.template.containers[0].image != desired.template.containers[0].image)
  }

  /** The object a helper submits over the stored one, or nothing when it sees no difference. */
  function Revise(kind: Kind, existing: Child, desired: Child): (next: Option<Child>)
    requires OfKind(kind, existing.body) && OfKind(kind, desired.body)
    ensures next.Some? ==> OfKind(kind, next.value.body)
  {
    match kind
    case ServiceAccount => Some(existing.(labels := desired.labels))
    case ConfigMap => ReviseBody(existing, desired)
    case Role => ReviseBody(existing, desired)
    case RoleBinding => ReviseBody(existing, desired)
    case StatefulSet =>
      if !NeedsUpdate(existing.body.sts, desired.body.sts) then None
      else
        var sts := existing.body.sts.(replicas := desired.body.sts.replicas, template := desired.body.sts.template);
        Some(existing.(labels := desired.labels, body := existing.body.(sts := sts)))
    case Service =>
      var svc := desired.body.svc.(clusterIp := existing.body.svc.clusterIp);
      Some(existing.(labels := desired.labels, annotations := desired.annotations, body := ServiceBody(svc)))
    case Ingress =>
      Some(existing.(labels := desired.labels, annotations := desired.annotations, body := desired.body))
    case ServiceMonitor => Some(desired)
    case _ => Some(existing.(labels := desired.labels, body := desired.body))
  }

  function ReviseBody(existing: Child, desired: Child): Option<Child> {
    if existing.body == desired.body then None
    else Some(existing.(labels := desired.labels, body := desired.body))
  }

  // ---- What the server makes of a write ---------------------------------------

  /** A created object: a set starts at generation 1 with no status, a Service gets an address. */
  function Admit(child: Child, address: nat): (stored: Child)
    ensures forall kind :: OfKind(kind, child.body) ==> OfKind(kind, stored.body)
  {
    match child.body
    case StatefulSetBody(sts, _, _) => child.(body := StatefulSetBody(sts, 1, StatefulSetStatus(0, 0)))
    case ServiceBody(svc) =>
      if svc.clusterIp.Unassigned? then child.(body := ServiceBody(svc.(clusterIp := Assigned(address)))) else child
    case _ => child
  }

  /** An updated object: a set's status is not writable here, and its generation counts spec changes. */
  function Replace(existing: Child, submitted: Child): (stored: Child)
    ensures forall kind :: OfKind(kind, submitted.body) ==> OfKind(kind, stored.body)
  {
    if existing.body.StatefulSetBody? && submitted.body.StatefulSetBody? then
      var generation := if submitted.body.sts == existing.body.sts then existing.body.generation else existing.body.generation + 1;
      submitted.(body := StatefulSetBody(submitted.body.sts, generation, existing.body.status))
    else submitted
  }

  /** A stored child after a successful create-or-update. */
  function Reconciled(kind: Kind, existing: Option<Child>, desired: Child, address: nat): Child
    requires OfKind(kind, desired.body) && (existing.Some? ==> OfKind(kind, existing.value.body))
  {
    if existing.None? then Admit(desired, address)
    else match Revise(kind, existing.value, desired)
      case None => existing.value
      case Some(next) => Replace(existing.value, next)
  }

  // ---- Fixed points -----------------------------------------------------------

  /** Another create-or-update leaves the stored child as it is. */
  ghost predicate Settled(kind: Kind, stored: Child, desired: Child) {
    OfKind(kind, stored.body) && OfKind(kind, desired.body) &&
    Reconciled(kind, Some(stored), desired, 0) == stored
  }

  /** One successful create-or-update settles a child, whatever was stored. */
  lemma ReconciledIsSettled(kind: Kind, existing: Option<Child>, desired: Child, address: nat)
    requires OfKind(kind, desired.body) && (existing.Some? ==> OfKind(kind, existing.value.body))
    ensures Settled(kind, Reconciled(kind, existing, desired, address), desired)
  {
  }

  /** The fields each helper manages, spelled out. */
  predicate Agrees(kind: Kind, stored: Child, desired: Child)
    requires OfKind(kind, stored.body) && OfKind(kind, desired.body)
  {
    match kind
    case ServiceAccount => stored.labels == desired.labels
    case ConfigMap => stored.body == desired.body
    case Role => stored.body == desired.body
    case RoleBinding => stored.body == desired.body
    case StatefulSet =>
      stored.body.sts.replicas == desired.body.sts.replicas
      && HashOf(stored.body.sts) == HashOf(desired.body.sts)
      && stored.body.sts.template.containers != []
      && desired.body.sts.template.containers != []
      && stored.body.sts.template.containers[0].image == desired.body.sts.template.containers[0].image
    case Service =>
      stored.labels == desired.labels && stored.annotations == desired.annotations
      && stored.body.svc == desired.body.svc.(clusterIp := stored.body.svc.clusterIp)
    case Ingress => stored.labels == desired.labels && stored.annotations == desired.annotations && stored.body == desired.body
    case ServiceMonitor => stored == desired
    case _ => stored.labels == desired.labels && stored.body == desired.body
  }

  predicate HasContainers(kind: Kind, child: Child) {
    kind.StatefulSet? && child.body.StatefulSetBody? ==> child.body.sts.template.containers != []
  }

  /** Settled means agreement on exactly the managed fields, for sets that have a container. */
  lemma SettledIsAgreement(kind: Kind, stored: Child, desired: Child)
    requires OfKind(kind, stored.body) && OfKind(kind, desired.body)
    requires HasContainers(kind, stored) && HasContainers(kind, desired)
    ensures Settled(kind, stored, desired) <==> Agrees(kind, stored, desired)
  {
  }

  /** The container hypothesis is needed: a stored set without containers settles on any image. */
  lemma EmptySetIgnoresImage(sts: StatefulSetSpec, desired: StatefulSetSpec)
    requires sts.template.containers == [] && sts.replicas == desired.replicas && HashOf(sts) == HashOf(desired)
    ensures !NeedsUpdate(sts, desired)
  {
  }

  // ---- Keys as text -----------------------------------------------------------

  function KindText(kind: Kind): string {
    match kind
    case ServiceAccount => "ServiceAccount"
    case Role => "Role"
    case RoleBinding => "RoleBinding"
    case ConfigMap => "ConfigMap"
    case Service => "Service"
    case StatefulSet => "StatefulSet"
    case Ingress => "Ingress"
    case NetworkPolicy => "NetworkPolicy"
    case ServiceMonitor => "ServiceMonitor"
    case PodDisruptionBudget => "PodDisruptionBudget"
    case HorizontalPodAutoscaler => "HorizontalPodAutoscaler"
  }

  /** An entry of `status.managedResources`. */
  function KeyText(key: Key): string { KindText(key.kind) + "/" + key.name }
}

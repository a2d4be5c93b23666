/**
 What one pass of the controller does, as a function of the world it starts in.
 The pass is a list of steps; every step either moves one child towards its
 desired form, prunes the follower set, or patches the status.
 */
module Controller {
  import opened Api
  import opened Text
  import opened Common
  import opened Hashing
  import opened Workloads
  import opened Children
  import opened Cluster
  import ConfigYaml

  // ---- Conditions -------------------------------------------------------------

  function Refresh(old_: Condition, next: Condition): Condition {
    if old_.status == next.status then next.(since := old_.since) else next
  }

  /** `apimeta.SetStatusCondition`: replaces the first condition of its type, or appends. */
  function SetCondition(conditions: seq<Condition>, next: Condition): seq<Condition> {
    if conditions == [] then [next]
    else if conditions[0].kind == next.kind then [Refresh(conditions[0], next)] + conditions[1..]
    else [conditions[0]] + SetCondition(conditions[1..], next)
  }

  function FindCondition(conditions: seq<Condition>, kind: ConditionType): Option<Condition> {
    if conditions == [] then None
    else if conditions[0].kind == kind then Some(conditions[0])
    else FindCondition(conditions[1..], kind)
  }

  // ---- One child --------------------------------------------------------------

  datatype RawTarget = Target(key: Key, desired: Child)

  /** A key and the object wanted under it. */
  type Target = t: RawTarget | OfKind(t.key.kind, t.desired.body)
    witness Target(Key(ConfigMap, "", ""), Child(map[], map[], None, ConfigMapBody(map[])))

  /** PodDisruptionBudget and HorizontalPodAutoscaler updates that conflict are passed over. */
  predicate Lenient(kind: Kind) { kind.PodDisruptionBudget? || kind.HorizontalPodAutoscaler? }

  /** The shape all `createOrUpdate*` helpers share, for a copy with spec `author`; false is an error returned to the caller. */
  function Ensure(w: World, author: Spec, t: Target): (World, bool) {
    var (w1, fetch) := Get(w, t.key);
    match fetch
    case Unreachable => (w1, false)
    case Missing =>
      var (w2, reply) := Create(w1, author, t.key, t.desired);
      (w2, reply.Done?)
    case Found(stored) =>
      match Revise(t.key.kind, stored.obj, t.desired)
      case None => (w1, true)
      case Some(next) =>
        var (w2, reply) := Update(w1, author, t.key, stored.rv, next);
        (w2, reply.Done? || (reply.Conflicted? && Lenient(t.key.kind)))
  }

  /** `deleteStatefulSetIfExists`. */
  function DeleteIfExists(w: World, author: Spec, key: Key): (World, bool) {
    var (w1, fetch) := Get(w, key);
    match fetch
    case Unreachable => (w1, false)
    case Missing => (w1, true)
    case Found(_) =>
      var (w2, reply) := Delete(w1, author, key);
      (w2, reply.Done? || reply.NotFound?)
  }

  // ---- Status writes ----------------------------------------------------------

  /** Conflicts are passed over; the caller's copy then keeps the phase it did not store. */
  function SetPhase(w: World, rec: Record, phase: Phase): (World, Record, bool) {
    var next := rec.obj.status.(phase := phase, lastUpdateTime := Some(w.db.clock));
    var (w1, rec1, reply) := PatchStatus(w, rec, next);
    (w1, rec1, reply.Done? || reply.Conflicted?)
  }

  /** What a condition says. */
  datatype Note = Note(kind: ConditionType, status: bool, reason: string, message: string)

  function NoteCondition(inst: TlnDB, note: Note, now: int): Condition {
    Condition(note.kind, note.status, note.reason, note.message, inst.generation, now)
  }

  /** `setCondition`: no error is reported. */
  function Mark(w: World, rec: Record, note: Note): (World, Record) {
    var next := rec.obj.status.(conditions := SetCondition(rec.obj.status.conditions, NoteCondition(rec.obj, note, w.db.clock)));
    var (w1, rec1, _) := PatchStatus(w, rec, next);
    (w1, rec1)
  }

  // ---- A pass in progress -----------------------------------------------------

  /** The world, the controller's copy of the instance, the list of managed resources, and whether an error was returned. */
  datatype Pass = Pass(w: World, rec: Record, managed: seq<string>, failed: bool)

  datatype Step = EnsureStep(target: Target) | PruneStep(key: Key) | NoteStep(note: Note)

  function EnsureTarget(p: Pass, t: Target): Pass {
    var (w, ok) := Ensure(p.w, p.rec.obj.spec, t);
    if ok then p.(w := w, managed := p.managed + [KeyText(t.key)]) else p.(w := w, failed := true)
  }

  function Prune(p: Pass, key: Key): Pass {
    var (w, ok) := DeleteIfExists(p.w, p.rec.obj.spec, key);
    p.(w := w, failed := !ok)
  }

  function MarkPass(p: Pass, note: Note): Pass {
    var (w, rec) := Mark(p.w, p.rec, note);
    p.(w := w, rec := rec)
  }

  function Run(step: Step, p: Pass): Pass {
    match step
    case EnsureStep(target) => EnsureTarget(p, target)
    case PruneStep(key) => Prune(p, key)
    case NoteStep(note) => MarkPass(p, note)
  }

  /** Steps in order, up to the first error. */
  function RunAll(steps: seq<Step>, p: Pass): Pass
    decreases |steps|
  {
    if p.failed || steps == [] then p else RunAll(steps[1..], Run(steps[0], p))
  }

  lemma Unroll(steps: seq<Step>, p: Pass)
    requires steps != [] && !p.failed
    ensures RunAll(steps, p) == RunAll(steps[1..], Run(steps[0], p))
    ensures Run(steps[0], p).failed ==> RunAll(steps, p) == Run(steps[0], p)
    ensures |steps| == 1 ==> RunAll(steps, p) == Run(steps[0], p)
  {
  }

  // ---- What a spec asks for, part by part -------------------------------------

  function TargetOf(inst: TlnDB, configHash: string, id: ChildId): Target {
    Target(KeyOf(inst, id), Desired(inst, configHash, id))
  }

  function EnsureOf(inst: TlnDB, configHash: string, id: ChildId): Step { EnsureStep(TargetOf(inst, configHash, id)) }

  function Optionally(t: Option<Target>): seq<Step> { if t.Some? then [EnsureStep(t.value)] else [] }

  function IfWanted(inst: TlnDB, id: ChildId): Option<Target> {
    if Wanted(inst.spec, id) then Some(TargetOf(inst, "", id)) else None
  }

  const RBAC_OK := Note(RBACReady, true, "RBACReady", "RBAC reconciled")
  const CONFIG_OK := Note(ConfigMapReady, true, "ConfigMapReady", "ConfigMap reconciled")
  const EXTERNAL_OK := Note(ConfigMapReady, true, "ExternalConfigMapFound", "External ConfigMap found")
  const SERVICES_OK := Note(ServiceReady, true, "ServiceReady", "Services reconciled")
  const SERVICE_OK := Note(ServiceReady, true, "ServiceReady", "Service reconciled")
  const POLICY_OK := Note(NetworkPolicyReady, true, "NetworkPolicyReady", "NetworkPolicy reconciled")
  const MONITOR_OK := Note(ServiceMonitorReady, true, "ServiceMonitorReady", "ServiceMonitor reconciled")
  const MONITOR_MISSING := Note(ServiceMonitorReady, false, "ServiceMonitorCRDMissing", "ServiceMonitor not reconciled")

  function ExternalMissing(name: string): Note {
    Note(ConfigMapReady, false, "ExternalConfigMapNotFound", "referenced ConfigMap " + ConfigYaml.Quote(name) + " not found")
  }

  function AccessPlan(inst: TlnDB): seq<Step> {
    if inst.spec.serviceAccountName != "" then []
    else [EnsureOf(inst, "", AccountChild), EnsureOf(inst, "", RoleChild), EnsureOf(inst, "", BindingChild), NoteStep(RBAC_OK)]
  }

  function FollowerStep(inst: TlnDB, configHash: string): Step {
    if inst.spec.readReplicas > 0 then EnsureOf(inst, configHash, SetChild(Follower)) else PruneStep(FollowerKey(inst))
  }

  function ReplicatedPlan(inst: TlnDB, configHash: string): seq<Step> {
    [EnsureOf(inst, "", HeadlessChild), EnsureOf(inst, configHash, SetChild(Leader)), FollowerStep(inst, configHash),
     EnsureOf(inst, "", WriteChild), EnsureOf(inst, "", ReadChild), NoteStep(SERVICES_OK)]
  }

  function StandalonePlan(inst: TlnDB, configHash: string): seq<Step> {
    [EnsureOf(inst, "", HeadlessChild), EnsureOf(inst, configHash, SetChild(Standalone)),
     EnsureOf(inst, "", ClientChild), NoteStep(SERVICE_OK)]
  }

  function ServingPlan(inst: TlnDB, configHash: string): seq<Step> {
    if Replicated(inst.spec) then ReplicatedPlan(inst, configHash) else StandalonePlan(inst, configHash)
  }

  function NetworkPlan(inst: TlnDB): seq<Step> {
    Optionally(IfWanted(inst, IngressChild)) + Optionally(IfWanted(inst, PolicyChild))
    + (if inst.spec.networkPolicy.enabled then [NoteStep(POLICY_OK)] else [])
  }

  function AvailabilityPlan(inst: TlnDB): seq<Step> {
    Optionally(IfWanted(inst, BudgetChild)) + Optionally(IfWanted(inst, ScalerChild))
  }

  // ---- The parts that are not plain lists -------------------------------------

  ghost function ConfigHash(spec: Spec): string { Digest(map[CONFIG_FILE_NAME := ConfigYaml.Render(spec)]) }

  ghost function LoadExternal(p: Pass, name: string): (Pass, string) {
    var (w, fetch) := Get(p.w, Key(ConfigMap, p.rec.obj.namespace, name));
    match fetch
    case Unreachable => (p.(w := w, failed := true), "")
    case Missing => (MarkPass(p.(w := w, failed := true), ExternalMissing(name)), "")
    case Found(stored) => (MarkPass(p.(w := w), EXTERNAL_OK), Digest(stored.obj.body.data))
  }

  /** The configuration part: the rendered ConfigMap, or the external one, and its digest. */
  ghost function LoadConfig(p: Pass): (Pass, string) {
    if p.failed then (p, "")
    else if p.rec.obj.spec.configFrom.Some? then LoadExternal(p, p.rec.obj.spec.configFrom.value)
    else
      var q := EnsureTarget(p, TargetOf(p.rec.obj, "", ConfigChild));
      if q.failed then (q, "") else (MarkPass(q, CONFIG_OK), ConfigHash(p.rec.obj.spec))
  }

  /** Failing to reach the ServiceMonitor is noted, not returned. */
  function MonitorTarget(p: Pass, t: Target): Pass {
    var q := EnsureTarget(p, t);
    MarkPass(q.(failed := false), if q.failed then MONITOR_MISSING else MONITOR_OK)
  }

  function Monitor(p: Pass): Pass {
    if p.failed || !Wanted(p.rec.obj.spec, MonitorChild) then p
    else MonitorTarget(p, TargetOf(p.rec.obj, "", MonitorChild))
  }

  function PersistedStatus(inst: TlnDB, managed: seq<string>, now: int): Status {
    inst.status.(
      managedResources := Sort(managed),
      currentImage := ImageRef(inst.spec.image),
      lastUpdateTime := Some(now),
      observedGeneration := inst.generation)
  }

  function Persist(p: Pass): Pass {
    if p.failed then p
    else
      var (w, rec, reply) := PatchStatus(p.w, p.rec, PersistedStatus(p.rec.obj, p.managed, p.w.db.clock));
      p.(w := w, rec := rec, failed := !(reply.Done? || reply.Conflicted?))
  }

  // ---- reconcileResources -----------------------------------------------------

  ghost function ServeAndMore(p: Pass, configHash: string): Pass {
    var served := RunAll(ServingPlan(p.rec.obj, configHash), p);
    var networked := RunAll(NetworkPlan(served.rec.obj), served);
    var monitored := Monitor(networked);
    RunAll(AvailabilityPlan(monitored.rec.obj), monitored)
  }

  ghost function ReconcileResources(w: World, rec: Record): Pass {
    var accessed := RunAll(AccessPlan(rec.obj), Pass(w, rec, [], false));
    var (configured, configHash) := LoadConfig(accessed);
    Persist(ServeAndMore(configured, configHash))
  }

  // ---- Status of the primary set ----------------------------------------------

  function PrimaryRole(spec: Spec): RoleName { if Replicated(spec) then Leader else Standalone }

  function IntText(n: int): string { if n < 0 then "-" + Decimal(-n) else Decimal(n) }

  function ObservedPhase(body: Body, desiredReplicas: int): Phase
    requires body.StatefulSetBody?
  {
    if body.status.observedGeneration < body.generation then Provisioning
    else if body.status.readyReplicas < desiredReplicas then Degraded
    else Running
  }

  function ReadyNote(phase: Phase, ready: int, desired: int): Note {
    Note(StatefulSetReady, phase.Running?, if phase.Running? then "StatefulSetReady" else "StatefulSetNotReady",
         IntText(ready) + "/" + IntText(desired) + " replicas ready")
  }

  function ObservedStatus(inst: TlnDB, body: Body, now: int): Status
    requires body.StatefulSetBody?
  {
    var desired := Replicas(inst.spec, PrimaryRole(inst.spec));
    var phase := ObservedPhase(body, desired);
    var note := ReadyNote(phase, body.status.readyReplicas, desired);
    inst.status.(
      readyReplicas := body.status.readyReplicas,
      phase := phase,
      conditions := SetCondition(inst.status.conditions, NoteCondition(inst, note, now)))
  }

  datatype Result = Finished | Requeue | RequeueAfter(seconds: nat) | Errored

  /** What the primary set's state means for the status, once it was looked up. */
  function Report(w: World, rec: Record, fetch: Fetch<Stored>): (World, Result)
    requires fetch.Found? ==> fetch.value.obj.body.StatefulSetBody?
  {
    match fetch
    case Missing => (w, RequeueAfter(5))
    case Unreachable => (w, Errored)
    case Found(stored) =>
      var next := ObservedStatus(rec.obj, stored.obj.body, w.db.clock);
      var (w1, _, reply) := PatchStatus(w, rec, next);
      (w1, if reply.NotFound? || reply.Refused? then Errored else if next.phase.Running? then Finished else RequeueAfter(10))
  }

  function SyncStatus(w: World, rec: Record): (World, Result) {
    var (w1, fetch) := Get(w, KeyOf(rec.obj, SetChild(PrimaryRole(rec.obj.spec))));
    Report(w1, rec, fetch)
  }

  // ---- The whole pass ---------------------------------------------------------

  function ReconcileDeletion(w: World, rec: Record): (World, Result) {
    if FINALIZER !in rec.obj.finalizers then (w, Finished)
    else
      var (w1, rec1, ok) := SetPhase(w, rec, Terminating);
      if !ok then (w1, Errored)
      else
        var (w2, reply) := UpdateInstance(w1, rec1.(obj := rec1.obj.(finalizers := rec1.obj.finalizers - {FINALIZER})));
        (w2, if reply.Done? then Finished else Errored)
  }

  function AddFinalizer(w: World, rec: Record): (World, Result) {
    var (w1, reply) := UpdateInstance(w, rec.(obj := rec.obj.(finalizers := rec.obj.finalizers + {FINALIZER})));
    (w1, if reply.Done? then Requeue else Errored)
  }

  ghost function ReconcileActive(w: World, rec: Record): (World, Result) {
    var (w1, rec1, ok) := if rec.obj.status.phase.Unset? then SetPhase(w, rec, Provisioning) else (w, rec, true);
    if !ok then (w1, Errored)
    else
      var p := ReconcileResources(w1, rec1);
      if p.failed then (SetPhase(p.w, p.rec, Failed).0, Errored) else SyncStatus(p.w, p.rec)
  }

  ghost function Reconcile(w: World): (World, Result) {
    var (w1, fetch) := GetInstance(w);
    match fetch
    case Missing => (w1, Finished)
    case Unreachable => (w1, Errored)
    case Found(rec) =>
      if rec.obj.deleting then ReconcileDeletion(w1, rec)
      else if FINALIZER !in rec.obj.finalizers then AddFinalizer(w1, rec)
      else ReconcileActive(w1, rec)
  }
}

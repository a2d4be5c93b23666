/**
 What a pass answers and what it reports: when it fails, which phase it stores for
 the primary set, and that a deletion completes.
 */
module Answers {
  import opened Api
  import opened Common
  import opened Workloads
  import opened Children
  import opened Cluster
  import opened Controller
  import opened Plans
  import opened Calm
  import opened Ordering
  import opened CalmPass
  import opened Notes
  import opened Convergence
  import opened Fixpoint
  import opened Hashing
  import opened Anatomy
  import ConfigYaml

  // ---- The primary set and the phase -----------------------------------------------------

  /** The set whose readiness counts. */
  function PrimarySet(inst: TlnDB): Key {
    Key(StatefulSet, inst.namespace, if inst.spec.mode == "replicated" then inst.name + "-leader" else inst.name)
  }

  /** How many of its pods must be ready. */
  function WantedReady(spec: Spec): int {
    if spec.mode == "replicated" || spec.replicas.None? then 1 else spec.replicas.value
  }

  predicate CaughtUp(body: Body)
    requires body.StatefulSetBody?
  {
    body.generation <= body.status.observedGeneration
  }

  predicate EnoughReady(spec: Spec, body: Body)
    requires body.StatefulSetBody?
  {
    WantedReady(spec) <= body.status.readyReplicas
  }

  /** The status tells what the set shows, and the answer follows the phase. */
  predicate ReportsSet(inst: TlnDB, body: Body, result: Result)
    requires body.StatefulSetBody?
  {
    var status, ready := inst.status, FindCondition(inst.status.conditions, StatefulSetReady);
    (status.phase == Provisioning <==> !CaughtUp(body))
    && (status.phase == Running <==> CaughtUp(body) && EnoughReady(inst.spec, body))
    && (status.phase == Degraded <==> CaughtUp(body) && !EnoughReady(inst.spec, body))
    && status.readyReplicas == body.status.readyReplicas
    && ready.Some? && (ready.value.status <==> CaughtUp(body) && EnoughReady(inst.spec, body))
    && ready.value.message == IntText(body.status.readyReplicas) + "/" + IntText(WantedReady(inst.spec)) + " replicas ready"
    && ready.value.observedGeneration == inst.generation
    && result == (if CaughtUp(body) && EnoughReady(inst.spec, body) then Finished else RequeueAfter(10))
  }

  lemma PrimaryFields(inst: TlnDB)
    ensures PrimaryKey(inst) == PrimarySet(inst) && Replicas(inst.spec, PrimaryRole(inst.spec)) == WantedReady(inst.spec)
  {
  }

  lemma ReportsMeans(inst: TlnDB, body: Body, w: World)
    requires body.StatefulSetBody? && Reports(inst, body) && w.db.inst.Some? && w.db.inst.value.obj == inst
    ensures ReportsSet(inst, body, AnswerIn(w))
  {
    PrimaryFields(inst);
  }

  lemma DoneReports(inst: TlnDB, h: string, a: Objects, w: World)
    requires PassDone(inst, h, a, w)
    ensures PrimarySet(inst) in w.db.objs && ReportsSet(w.db.inst.value.obj, SetAt(w.db.objs, PrimarySet(inst)), AnswerIn(w))
  {
    PrimaryFields(inst);
    ReportsMeans(w.db.inst.value.obj, SetAt(w.db.objs, PrimaryKey(inst)), w);
  }

  /** An undisturbed pass reports the primary set it leaves, field by field, and answers accordingly. */
  lemma PassReports(w: World)
    requires w.schedule == [] && w.db.inst.Some? && Active(w.db.inst.value.obj)
    requires Admissible(w.db.inst.value.obj, w.db.objs)
    ensures var (w', result) := Reconcile(w);
      var key := PrimarySet(w.db.inst.value.obj);
      w'.db.inst.Some? && key in w'.db.objs && ReportsSet(w'.db.inst.value.obj, SetAt(w'.db.objs, key), result)
  {
    CalmReconcile(w);
    var inst := w.db.inst.value.obj;
    DoneReports(inst, HashFor(inst, w.db.objs), w.db.objs, Reconcile(w).0);
  }

  // ---- Conditions -----------------------------------------------------------------------------

  /** A condition of this type says True, for this reason, about this generation. */
  predicate TellsTrue(inst: TlnDB, kind: ConditionType, reason: string) {
    var told := FindCondition(inst.status.conditions, kind);
    told.Some? && told.value.status && told.value.reason == reason && told.value.observedGeneration == inst.generation
  }

  lemma NotedTells(inst: TlnDB, acts: seq<Act>, note: Note)
    requires AllNoted(inst.status.conditions, inst.generation, acts) && NoteAct(note) in acts && note.status
    ensures TellsTrue(inst, note.kind, note.reason)
  {
    var i :| 0 <= i < |acts| && acts[i] == NoteAct(note);
  }

  lemma NotesOfSpec(spec: Spec)
    ensures spec.serviceAccountName == "" ==> NoteAct(RBAC_OK) in AllActs(spec)
    ensures NoteAct(if spec.configFrom.Some? then EXTERNAL_OK else CONFIG_OK) in AllActs(spec)
    ensures NoteAct(if Replicated(spec) then SERVICES_OK else SERVICE_OK) in AllActs(spec)
    ensures spec.networkPolicy.enabled ==> NoteAct(POLICY_OK) in AllActs(spec)
    ensures spec.metrics.monitor.enabled ==> NoteAct(MONITOR_OK) in AllActs(spec)
  {
    assert spec.serviceAccountName == "" ==> AccessActs(spec)[3] == NoteAct(RBAC_OK);
    assert NoteAct(if spec.configFrom.Some? then EXTERNAL_OK else CONFIG_OK) in ConfigActs(spec);
    var serving := ServingActs(spec);
    assert serving[|serving| - 1] == NoteAct(if Replicated(spec) then SERVICES_OK else SERVICE_OK);
    assert spec.networkPolicy.enabled ==> NoteAct(POLICY_OK) in NetworkActs(spec);
    assert spec.metrics.monitor.enabled ==> MonitorActs(spec)[1] == NoteAct(MONITOR_OK);
  }

  /** The conditions an undisturbed pass leaves. */
  predicate ConditionsTold(inst: TlnDB) {
    (inst.spec.serviceAccountName == "" ==> TellsTrue(inst, RBACReady, "RBACReady"))
    && TellsTrue(inst, ConfigMapReady, if inst.spec.configFrom.Some? then "ExternalConfigMapFound" else "ConfigMapReady")
    && TellsTrue(inst, ServiceReady, "ServiceReady")
    && (inst.spec.networkPolicy.enabled ==> TellsTrue(inst, NetworkPolicyReady, "NetworkPolicyReady"))
    && (inst.spec.metrics.monitor.enabled ==> TellsTrue(inst, ServiceMonitorReady, "ServiceMonitorReady"))
  }

  lemma NotedConditions(inst: TlnDB)
    requires AllNoted(inst.status.conditions, inst.generation, AllActs(inst.spec))
    ensures ConditionsTold(inst)
  {
    var spec, acts := inst.spec, AllActs(inst.spec);
    NotesOfSpec(spec);
    if spec.serviceAccountName == "" { NotedTells(inst, acts, RBAC_OK); }
    NotedTells(inst, acts, if spec.configFrom.Some? then EXTERNAL_OK else CONFIG_OK);
    NotedTells(inst, acts, if Replicated(spec) then SERVICES_OK else SERVICE_OK);
    if spec.networkPolicy.enabled { NotedTells(inst, acts, POLICY_OK); }
    if spec.metrics.monitor.enabled { NotedTells(inst, acts, MONITOR_OK); }
  }

  /** An undisturbed pass tells, condition by condition, what it has reconciled. */
  lemma PassTells(w: World)
    requires w.schedule == [] && w.db.inst.Some? && Active(w.db.inst.value.obj)
    requires Admissible(w.db.inst.value.obj, w.db.objs)
    ensures var w' := Reconcile(w).0; w'.db.inst.Some? && ConditionsTold(w'.db.inst.value.obj)
  {
    CalmReconcile(w);
    NotedConditions(Reconcile(w).0.db.inst.value.obj);
  }

  // ---- Passes that fail --------------------------------------------------------------------

  lemma CalmFailedNote(p: Pass, note: Note)
    requires p.w.schedule == [] && p.w.db.inst == Some(p.rec)
    ensures var q := MarkPass(p, note);
      q.w.schedule == [] && q.w.db.inst == Some(q.rec) && q.w.db.objs == p.w.db.objs && q.failed == p.failed
      && OnlyConditions(p.rec.obj, q.rec.obj) && Noted(Conditions(q), p.rec.obj.generation, note)
  {
    var status := p.rec.obj.status;
    var condition := NoteCondition(p.rec.obj, note, p.w.db.clock);
    CalmPatch(p.w, p.rec, status.(conditions := SetCondition(status.conditions, condition)));
    SettingNotes(status.conditions, p.rec.obj, note, p.w.db.clock, note);
  }

  /** The external ConfigMap is not found: the pass stops there and says so. */
  lemma CalmLoadMissing(inst: TlnDB, p: Pass)
    requires On(inst, p) && inst.spec.configFrom.Some? && ExternalKey(inst) !in p.w.db.objs
    ensures var q := LoadConfig(p).0;
      q.failed && q.w.schedule == [] && q.w.db.inst == Some(q.rec) && q.w.db.objs == p.w.db.objs
      && OnlyConditions(inst, q.rec.obj) && Noted(Conditions(q), inst.generation, ExternalMissing(inst.spec.configFrom.value))
  {
    CalmFailedNote(p.(failed := true), ExternalMissing(inst.spec.configFrom.value));
    assert Get(p.w, ExternalKey(inst)) == (p.w, Missing);
    assert p.(w := p.w, failed := true) == p.(failed := true);
  }

  lemma FailedStaysPut(p: Pass, h: string)
    requires p.failed
    ensures Persist(ServeAndMore(p, h)) == p
  {
  }

  predicate AccessKind(kind: Kind) { kind.ServiceAccount? || kind.Role? || kind.RoleBinding? }

  lemma AccessTouchesAccess(inst: TlnDB, h: string, p: Pass, k: Key)
    requires IsCalm(p) && !AccessKind(k.kind)
    ensures SameAt(p.w.db.objs, RunAll(StepsOf(inst, h, AccessActs(inst.spec)), p).w.db.objs, k)
  {
    var acts := AccessActs(inst.spec);
    forall i | 0 <= i < |acts| ensures k !in StepKeys(StepsOf(inst, h, acts)[i]) {
      KeysOfAct(inst, h, acts[i]);
    }
    CalmFrame(StepsOf(inst, h, acts), p, k);
  }

  /** How `reconcileResources` ends without its ConfigMap. */
  ghost predicate Stopped(inst: TlnDB, a: Objects, p: Pass)
    requires inst.spec.configFrom.Some?
  {
    p.failed && p.w.schedule == [] && p.w.db.inst == Some(p.rec) && OnlyConditions(inst, p.rec.obj)
    && Noted(Conditions(p), inst.generation, ExternalMissing(inst.spec.configFrom.value))
    && forall k: Key | !AccessKind(k.kind) :: SameAt(a, p.w.db.objs, k)
  }

  lemma CalmResourcesStop(w: World, rec: Record)
    requires w.schedule == [] && w.db.inst == Some(rec) && !Admissible(rec.obj, w.db.objs)
    ensures Stopped(rec.obj, w.db.objs, ReconcileResources(w, rec))
  {
    var inst, p := rec.obj, Pass(w, rec, [], false);
    var accessed := RunAll(AccessPlan(inst), p);
    AccessIsActs(inst, "");
    RunActs(inst, "", AccessActs(inst.spec), p);
    forall k: Key | !AccessKind(k.kind) ensures SameAt(w.db.objs, accessed.w.db.objs, k) { AccessTouchesAccess(inst, "", p, k); }
    assert SameAt(w.db.objs, accessed.w.db.objs, ExternalKey(inst));
    CalmLoadMissing(inst, accessed);
    FailedStaysPut(LoadConfig(accessed).0, LoadConfig(accessed).1);
  }

  /** What a pass without its ConfigMap leaves and answers. */
  ghost predicate Failure(inst: TlnDB, a: Objects, w: World, result: Result)
    requires inst.spec.configFrom.Some?
  {
    result.Errored? && w.schedule == [] && w.db.inst.Some? &&
    var after := w.db.inst.value.obj;
    OnlyStatus(inst, after) && after.status.phase == Phase.Failed && after.status.observedGeneration == inst.status.observedGeneration
    && Noted(after.status.conditions, inst.generation, ExternalMissing(inst.spec.configFrom.value))
    && forall k: Key | !AccessKind(k.kind) :: SameAt(a, w.db.objs, k)
  }

  lemma StoppedFails(inst: TlnDB, a: Objects, p: Pass)
    requires inst.spec.configFrom.Some? && Stopped(inst, a, p)
    ensures Failure(inst, a, SetPhase(p.w, p.rec, Phase.Failed).0, Errored)
  {
    CalmPatch(p.w, p.rec, p.rec.obj.status.(phase := Phase.Failed, lastUpdateTime := Some(p.w.db.clock)));
  }

  lemma CalmActiveFails(w: World, rec: Record)
    requires w.schedule == [] && w.db.inst == Some(rec) && !Admissible(rec.obj, w.db.objs)
    ensures var (w', result) := ReconcileActive(w, rec); Failure(rec.obj, w.db.objs, w', result)
  {
    var w1, rec1 := w, rec;
    if rec.obj.status.phase.Unset? {
      CalmPatch(w, rec, rec.obj.status.(phase := Provisioning, lastUpdateTime := Some(w.db.clock)));
      w1, rec1 := SetPhase(w, rec, Provisioning).0, SetPhase(w, rec, Provisioning).1;
    }
    CalmResourcesStop(w1, rec1);
    StoppedFails(rec1.obj, w.db.objs, ReconcileResources(w1, rec1));
  }

  /** With nothing failing, a pass over an active instance errs if and only if the referenced ConfigMap is missing. */
  lemma PassErrsExactly(w: World)
    requires w.schedule == [] && w.db.inst.Some? && Active(w.db.inst.value.obj)
    ensures var inst, (w', result) := w.db.inst.value.obj, Reconcile(w);
      (result.Errored? <==> inst.spec.configFrom.Some? && Key(ConfigMap, inst.namespace, inst.spec.configFrom.value) !in w.db.objs)
      && (result.Errored? ==> inst.spec.configFrom.Some? && Failure(inst, w.db.objs, w', result))
  {
    if Admissible(w.db.inst.value.obj, w.db.objs) {
      CalmReconcile(w);
    } else {
      CalmActiveFails(w, w.db.inst.value);
    }
  }

  /** The failure is told in the condition: ConfigMapReady is False, with the reason. */
  lemma FailureIsTold(inst: TlnDB, a: Objects, w: World, result: Result)
    requires inst.spec.configFrom.Some? && Failure(inst, a, w, result)
    ensures var told := FindCondition(w.db.inst.value.obj.status.conditions, ConfigMapReady);
      told.Some? && !told.value.status && told.value.reason == "ExternalConfigMapNotFound" && told.value.observedGeneration == inst.generation
  {
  }

  // ---- Deletion --------------------------------------------------------------------------------

  /** With nothing failing, the pass over an instance being deleted lets it go, or leaves it to its other finalizers. */
  lemma DeletionCompletes(w: World)
    requires w.schedule == [] && w.db.inst.Some? && w.db.inst.value.obj.deleting
    ensures var inst, (w', result) := w.db.inst.value.obj, Reconcile(w);
      result.Finished? && w'.db.objs == w.db.objs &&
      if FINALIZER !in inst.finalizers then w' == w
      else if inst.finalizers == {FINALIZER} then w'.db.inst.None?
      else
        w'.db.inst.Some? &&
        var left := w'.db.inst.value.obj;
        left == inst.(finalizers := inst.finalizers - {FINALIZER}, status := left.status)
        && left.status == inst.status.(phase := Terminating, lastUpdateTime := left.status.lastUpdateTime)
  {
    var rec := w.db.inst.value;
    if FINALIZER in rec.obj.finalizers {
      CalmPatch(w, rec, rec.obj.status.(phase := Terminating, lastUpdateTime := Some(w.db.clock)));
      assert rec.obj.finalizers - {FINALIZER} == {} <==> rec.obj.finalizers == {FINALIZER};
    }
  }

  /** An instance that is gone needs nothing. */
  lemma MissingIsFinished(w: World)
    requires w.schedule == [] && w.db.inst.None?
    ensures Reconcile(w) == (w, Finished)
  {
  }

  // ---- The configuration that was stamped ----------------------------------------------------

  /** What a stored ConfigMap holds. */
  function DataAt(objs: Objects, key: Key): StringMap {
    if key.kind.ConfigMap? && key in objs then objs[key].obj.body.data else map[]
  }

  lemma PlacedConfig(a: Objects, b: Objects, t: Target)
    requires Placed(a, b, t) && t.key.kind.ConfigMap?
    ensures b[t.key].obj.body == t.desired.body
  {
  }

  lemma AfterConfig(inst: TlnDB, a: Objects, b: Objects)
    requires Admissible(inst, a) && ChildrenAfter(inst, HashFor(inst, a), a, b)
    ensures HashedConfig(inst) in b && HashFor(inst, a) == Digest(DataAt(b, HashedConfig(inst)))
    ensures inst.spec.configFrom.None? ==> DataAt(b, HashedConfig(inst)) == map["config.yaml" := ConfigYaml.Render(inst.spec)]
  {
    if inst.spec.configFrom.None? {
      var t := TargetOf(inst, HashFor(inst, a), ConfigChild);
      assert Wanted(inst.spec, ConfigChild) && Placed(a, b, t);
      PlacedConfig(a, b, t);
    } else {
      ExternalUnmanaged(inst);
      assert SameAt(a, b, ExternalKey(inst));
    }
  }

  /** After an undisturbed pass the digest it stamped is that of the ConfigMap its pods mount, as stored. */
  lemma StampedDigestIsStored(w: World)
    requires w.schedule == [] && w.db.inst.Some? && Active(w.db.inst.value.obj) && Admissible(w.db.inst.value.obj, w.db.objs)
    ensures var inst, objs := w.db.inst.value.obj, Reconcile(w).0.db.objs;
      HashedConfig(inst) in objs && HashFor(inst, w.db.objs) == Digest(DataAt(objs, HashedConfig(inst)))
      && (inst.spec.configFrom.None? ==> DataAt(objs, HashedConfig(inst)) == map["config.yaml" := ConfigYaml.Render(inst.spec)])
  {
    CalmReconcile(w);
    AfterConfig(w.db.inst.value.obj, w.db.objs, Reconcile(w).0.db.objs);
  }
}

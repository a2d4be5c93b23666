/**
 Fault-free passes: which children they leave, key by key, that one settles every
 child and that the next changes nothing.
 */
module Convergence {
  import opened Api
  import opened Text
  import opened Common
  import opened Workloads
  import opened Children
  import opened Cluster
  import opened Controller
  import opened Plans
  import opened Calm
  import opened Ordering
  import opened CalmPass
  import opened Notes

  // ---- What the acts of a spec are ------------------------------------------------------

  lemma EnsuresAreWanted(spec: Spec, id: ChildId)
    ensures EnsureAct(id) in AllActs(spec) <==> Wanted(spec, id)
  {
    assert EnsureAct(id) in AccessActs(spec) <==> Wanted(spec, id) && id in {AccountChild, RoleChild, BindingChild};
    assert EnsureAct(id) in ConfigActs(spec) <==> Wanted(spec, id) && id == ConfigChild;
    assert EnsureAct(id) in ServingActs(spec) <==>
      Wanted(spec, id) && (id.SetChild? || id in {HeadlessChild, WriteChild, ReadChild, ClientChild});
    assert EnsureAct(id) in NetworkActs(spec) <==> Wanted(spec, id) && id in {IngressChild, PolicyChild};
    assert EnsureAct(id) in MonitorActs(spec) <==> Wanted(spec, id) && id == MonitorChild;
    assert EnsureAct(id) in AvailabilityActs(spec) <==> Wanted(spec, id) && id in {BudgetChild, ScalerChild};
  }

  lemma PruningIsExact(spec: Spec)
    ensures PruneAct in AllActs(spec) <==> Prunes(spec)
  {
    assert PruneAct in ServingActs(spec) <==> Prunes(spec);
  }

  lemma {:induction false} TargetsOfActs(inst: TlnDB, h: string, acts: seq<Act>, t: Target)
    ensures t in TargetsOf(StepsOf(inst, h, acts)) <==> exists id :: EnsureAct(id) in acts && t == TargetOf(inst, h, id)
    decreases |acts|
  {
    if acts != [] {
      StepsOfRest(inst, h, acts);
      TargetsOfActs(inst, h, acts[1..], t);
      assert acts == [acts[0]] + acts[1..];
    }
  }

  lemma {:induction false} PrunedOfActs(inst: TlnDB, h: string, acts: seq<Act>)
    ensures PrunedOf(StepsOf(inst, h, acts)) == if PruneAct in acts then {FollowerKey(inst)} else {}
    decreases |acts|
  {
    if acts != [] {
      StepsOfRest(inst, h, acts);
      PrunedOfActs(inst, h, acts[1..]);
      assert acts == [acts[0]] + acts[1..];
    }
  }

  /** The keys a fault-free pass on this spec decides. */
  ghost predicate Managed(inst: TlnDB, k: Key) {
    (exists id :: Wanted(inst.spec, id) && KeyOf(inst, id) == k) || (Prunes(inst.spec) && k == FollowerKey(inst))
  }

  /** Every wanted child was placed, the follower set removed if the spec asks for none, and nothing else changed. */
  ghost predicate ChildrenAfter(inst: TlnDB, h: string, a: Objects, b: Objects) {
    (forall id | Wanted(inst.spec, id) :: Placed(a, b, TargetOf(inst, h, id)))
    && (Prunes(inst.spec) ==> FollowerKey(inst) !in b)
    && (forall k | !Managed(inst, k) :: SameAt(a, b, k))
  }

  lemma TouchedIsManaged(inst: TlnDB, h: string, k: Key)
    ensures var steps := StepsOf(inst, h, AllActs(inst.spec));
      k in Touched(TargetsOf(steps), PrunedOf(steps)) ==> Managed(inst, k)
  {
    var acts := AllActs(inst.spec);
    var steps := StepsOf(inst, h, acts);
    PruningIsExact(inst.spec);
    PrunedOfActs(inst, h, acts);
    if k in Touched(TargetsOf(steps), PrunedOf(steps)) && k !in PrunedOf(steps) {
      var t :| t in TargetsOf(steps) && t.key == k;
      TargetsOfActs(inst, h, acts, t);
      var id :| EnsureAct(id) in acts && t == TargetOf(inst, h, id);
      EnsuresAreWanted(inst.spec, id);
    }
  }

  lemma ExactlyIsChildrenAfter(inst: TlnDB, h: string, a: Objects, b: Objects)
    requires var steps := StepsOf(inst, h, AllActs(inst.spec)); Exactly(a, b, TargetsOf(steps), PrunedOf(steps))
    ensures ChildrenAfter(inst, h, a, b)
  {
    var acts := AllActs(inst.spec);
    forall id | Wanted(inst.spec, id) ensures Placed(a, b, TargetOf(inst, h, id)) {
      EnsuresAreWanted(inst.spec, id);
      TargetsOfActs(inst, h, acts, TargetOf(inst, h, id));
    }
    PruningIsExact(inst.spec);
    PrunedOfActs(inst, h, acts);
    forall k | !Managed(inst, k) ensures SameAt(a, b, k) {
      TouchedIsManaged(inst, h, k);
    }
  }

  // ---- reconcileResources -------------------------------------------------------------------

  /** The entries of `status.managedResources`, in the order the pass appends them. */
  ghost function ManagedTexts(inst: TlnDB, h: string): seq<string> { TextsOf(StepsOf(inst, h, AllActs(inst.spec))) }

  lemma CalmActs(inst: TlnDB, h: string, p: Pass)
    requires On(inst, p)
    ensures var q := RunAll(StepsOf(inst, h, AllActs(inst.spec)), p);
      On(inst, q) && ChildrenAfter(inst, h, p.w.db.objs, q.w.db.objs) && q.managed == p.managed + ManagedTexts(inst, h)
  {
    var steps := StepsOf(inst, h, AllActs(inst.spec));
    var q := RunAll(steps, p);
    ExactlyNothing(p.w.db.objs);
    AllOrdered(inst.spec);
    assert Touched({}, {}) == {};
    OrderedIsFresh(inst, h, AllActs(inst.spec), 0, 16, {});
    CalmRun(steps, p, p.w.db.objs, {}, {});
    assert {} + TargetsOf(steps) == TargetsOf(steps) && {} + PrunedOf(steps) == PrunedOf(steps);
    ExactlyIsChildrenAfter(inst, h, p.w.db.objs, q.w.db.objs);
  }

  /** What `reconcileResources` records about the pass. */
  predicate Recorded(before: TlnDB, texts: seq<string>, after: TlnDB) {
    after == before.(status := before.status.(
      conditions := after.status.conditions,
      managedResources := Sort(texts),
      currentImage := ImageRef(before.spec.image),
      lastUpdateTime := after.status.lastUpdateTime,
      observedGeneration := before.generation))
  }

  lemma CalmPersist(inst: TlnDB, p: Pass)
    requires On(inst, p)
    ensures var q := Persist(p);
      IsCalm(q) && q.w.db.objs == p.w.db.objs && Recorded(inst, p.managed, q.rec.obj) && Conditions(q) == Conditions(p)
  {
    CalmPatch(p.w, p.rec, PersistedStatus(p.rec.obj, p.managed, p.w.db.clock));
  }

  lemma CalmActsNote(inst: TlnDB, h: string, p: Pass)
    requires On(inst, p)
    ensures var q := RunAll(StepsOf(inst, h, AllActs(inst.spec)), p);
      AllNoted(Conditions(q), inst.generation, AllActs(inst.spec)) &&
      (AllNoted(Conditions(p), inst.generation, AllActs(inst.spec)) ==> Conditions(q) == Conditions(p))
  {
    AllNotesFit(inst.spec);
    ActsAreNoted(inst, h, AllActs(inst.spec), p);
    if AllNoted(Conditions(p), inst.generation, AllActs(inst.spec)) {
      NotedAlready(inst, h, AllActs(inst.spec), p);
    }
  }

  /** The outcome of a `reconcileResources` that nothing disturbs. */
  ghost predicate ResourcesDone(inst: TlnDB, h: string, a: Objects, p: Pass) {
    IsCalm(p)
    && ChildrenAfter(inst, h, a, p.w.db.objs)
    && Recorded(inst, ManagedTexts(inst, h), p.rec.obj)
    && AllNoted(Conditions(p), inst.generation, AllActs(inst.spec))
    && (AllNoted(inst.status.conditions, inst.generation, AllActs(inst.spec)) ==> Conditions(p) == inst.status.conditions)
  }

  lemma CalmResourcesDone(w: World, rec: Record)
    requires w.schedule == [] && w.db.inst == Some(rec) && Admissible(rec.obj, w.db.objs)
    ensures ResourcesDone(rec.obj, HashFor(rec.obj, w.db.objs), w.db.objs, ReconcileResources(w, rec))
  {
    var inst, h := rec.obj, HashFor(rec.obj, w.db.objs);
    var p := Pass(w, rec, [], false);
    var q := RunAll(StepsOf(inst, h, AllActs(inst.spec)), p);
    CalmResources(w, rec);
    CalmActs(inst, h, p);
    CalmActsNote(inst, h, p);
    assert [] + ManagedTexts(inst, h) == ManagedTexts(inst, h);
    CalmPersist(inst, q);
  }

  // ---- syncStatus -----------------------------------------------------------------------------

  function PrimaryKey(inst: TlnDB): (key: Key)
    ensures key.kind.StatefulSet?
  {
    KeyOf(inst, SetChild(PrimaryRole(inst.spec)))
  }

  /** The set stored under a key, or a set that never was. */
  function SetAt(objs: Objects, key: Key): (body: Body)
    ensures body.StatefulSetBody?
    ensures key.kind.StatefulSet? && key in objs ==> body == objs[key].obj.body
  {
    if key.kind.StatefulSet? && key in objs then objs[key].obj.body
    else StatefulSetBody(StatefulSetSpec(0, "", map[], Template(map[], map[], "", [], [], ""), []), 0, StatefulSetStatus(0, 0))
  }

  /** The status reports the primary set as stored. */
  predicate Reports(inst: TlnDB, body: Body)
    requires body.StatefulSetBody?
  {
    var desired := Replicas(inst.spec, PrimaryRole(inst.spec));
    var phase := ObservedPhase(body, desired);
    inst.status.phase == phase && inst.status.readyReplicas == body.status.readyReplicas
    && Noted(inst.status.conditions, inst.generation, ReadyNote(phase, body.status.readyReplicas, desired))
  }

  /** The instance differs in what `syncStatus` reports only. */
  predicate OnlyReport(before: TlnDB, after: TlnDB) {
    after == before.(status := before.status.(
      phase := after.status.phase, readyReplicas := after.status.readyReplicas, conditions := after.status.conditions))
  }

  lemma ReportKeepsNotes(conditions: seq<Condition>, inst: TlnDB, note: Note, now: int, acts: seq<Act>)
    requires AllNoted(conditions, inst.generation, acts) && NotesFit(inst.spec, acts) && note.kind.StatefulSetReady?
    ensures AllNoted(SetCondition(conditions, NoteCondition(inst, note, now)), inst.generation, acts)
  {
    forall i | 0 <= i < |acts| && acts[i].NoteAct?
      ensures Noted(SetCondition(conditions, NoteCondition(inst, note, now)), inst.generation, acts[i].note)
    {
      SettingNotes(conditions, inst, note, now, acts[i].note);
    }
  }

  lemma ObservedReports(inst: TlnDB, body: Body, now: int, acts: seq<Act>)
    requires body.StatefulSetBody? && AllNoted(inst.status.conditions, inst.generation, acts) && NotesFit(inst.spec, acts)
    ensures var after := inst.(status := ObservedStatus(inst, body, now));
      Reports(after, body) && OnlyReport(inst, after) && AllNoted(after.status.conditions, inst.generation, acts) &&
      (Reports(inst, body) ==> after == inst)
  {
    var desired := Replicas(inst.spec, PrimaryRole(inst.spec));
    var note := ReadyNote(ObservedPhase(body, desired), body.status.readyReplicas, desired);
    SettingNotes(inst.status.conditions, inst, note, now, note);
    ReportKeepsNotes(inst.status.conditions, inst, note, now, acts);
    if Reports(inst, body) {
      SettingAgainChangesNothing(inst.status.conditions, inst, note, now);
    }
  }

  /** What a pass that leaves this state answers. */
  function AnswerIn(w: World): Result {
    if w.db.inst.Some? && w.db.inst.value.obj.status.phase.Running? then Finished else RequeueAfter(10)
  }

  lemma CalmSync(w: World, rec: Record, key: Key, acts: seq<Act>)
    requires w.schedule == [] && w.db.inst == Some(rec) && key == PrimaryKey(rec.obj) && key in w.db.objs
    requires AllNoted(rec.obj.status.conditions, rec.obj.generation, acts) && NotesFit(rec.obj.spec, acts)
    ensures var (w', result) := SyncStatus(w, rec);
      w'.schedule == [] && w'.db.objs == w.db.objs && w'.db.inst.Some? && result == AnswerIn(w') &&
      var body, after := SetAt(w.db.objs, key), w'.db.inst.value.obj;
      Reports(after, body) && OnlyReport(rec.obj, after) && AllNoted(after.status.conditions, after.generation, acts) &&
      (Reports(rec.obj, body) ==> after == rec.obj)
  {
    var body := SetAt(w.db.objs, key);
    ObservedReports(rec.obj, body, w.db.clock, acts);
    CalmPatch(w, rec, ObservedStatus(rec.obj, body, w.db.clock));
  }

  // ---- The whole pass ---------------------------------------------------------------------------

  /** The instance is held and not being deleted: a pass works on its children. */
  predicate Active(inst: TlnDB) { !inst.deleting && FINALIZER in inst.finalizers }

  /** The status is up to date with the spec and the primary set. */
  ghost predicate StatusCurrent(inst: TlnDB, texts: seq<string>, body: Body)
    requires body.StatefulSetBody?
  {
    Reports(inst, body)
    && AllNoted(inst.status.conditions, inst.generation, AllActs(inst.spec))
    && inst.status.managedResources == Sort(texts)
    && inst.status.currentImage == ImageRef(inst.spec.image)
    && inst.status.observedGeneration == inst.generation
  }

  /** Nothing differs but `LastUpdateTime`. */
  predicate SameButTime(a: TlnDB, b: TlnDB) { b == a.(status := a.status.(lastUpdateTime := b.status.lastUpdateTime)) }

  /** The outcome of a fault-free pass over an active instance. */
  ghost predicate PassDone(inst: TlnDB, h: string, a: Objects, w: World) {
    w.schedule == [] && w.db.inst.Some? && OnlyStatus(inst, w.db.inst.value.obj)
    && ChildrenAfter(inst, h, a, w.db.objs)
    && PrimaryKey(inst) in w.db.objs
    && StatusCurrent(w.db.inst.value.obj, ManagedTexts(inst, h), SetAt(w.db.objs, PrimaryKey(inst)))
  }

  lemma PrimaryIsPlaced(inst: TlnDB, h: string, a: Objects, b: Objects)
    requires ChildrenAfter(inst, h, a, b)
    ensures PrimaryKey(inst) in b
  {
    var id := SetChild(PrimaryRole(inst.spec));
    assert Wanted(inst.spec, id);
    assert Placed(a, b, TargetOf(inst, h, id));
  }

  lemma RecordedIsCurrent(inst: TlnDB, texts: seq<string>, recorded: TlnDB, after: TlnDB, body: Body)
    requires Recorded(inst, texts, recorded) && OnlyReport(recorded, after)
    requires body.StatefulSetBody? && Reports(after, body)
    requires AllNoted(after.status.conditions, after.generation, AllActs(after.spec))
    ensures OnlyStatus(inst, after) && StatusCurrent(after, texts, body)
  {
  }

  lemma RecordedAgain(inst: TlnDB, texts: seq<string>, recorded: TlnDB, body: Body)
    requires Recorded(inst, texts, recorded) && body.StatefulSetBody? && StatusCurrent(inst, texts, body)
    requires recorded.status.conditions == inst.status.conditions
    ensures SameButTime(inst, recorded) && Reports(recorded, body)
  {
  }

  /** `w` is `p` after its `syncStatus`. */
  ghost predicate Synced(inst: TlnDB, texts: seq<string>, body: Body, p: Pass, w: World)
    requires body.StatefulSetBody?
  {
    w.schedule == [] && w.db.objs == p.w.db.objs && w.db.inst.Some? && OnlyStatus(inst, w.db.inst.value.obj)
    && StatusCurrent(w.db.inst.value.obj, texts, body)
    && (StatusCurrent(inst, texts, body) ==> SameButTime(inst, w.db.inst.value.obj))
  }

  lemma CalmSynced(inst: TlnDB, texts: seq<string>, key: Key, p: Pass)
    requires IsCalm(p) && Recorded(inst, texts, p.rec.obj) && key == PrimaryKey(inst) && key in p.w.db.objs
    requires AllNoted(Conditions(p), inst.generation, AllActs(inst.spec))
    requires AllNoted(inst.status.conditions, inst.generation, AllActs(inst.spec)) ==> Conditions(p) == inst.status.conditions
    ensures var (w, result) := SyncStatus(p.w, p.rec);
      Synced(inst, texts, SetAt(p.w.db.objs, key), p, w) && result == AnswerIn(w)
  {
    AllNotesFit(inst.spec);
    var body := SetAt(p.w.db.objs, key);
    CalmSync(p.w, p.rec, key, AllActs(inst.spec));
    var w := SyncStatus(p.w, p.rec).0;
    RecordedIsCurrent(inst, texts, p.rec.obj, w.db.inst.value.obj, body);
    if StatusCurrent(inst, texts, body) {
      RecordedAgain(inst, texts, p.rec.obj, body);
    }
  }

  lemma CalmFinish(inst: TlnDB, h: string, a: Objects, p: Pass)
    requires ResourcesDone(inst, h, a, p)
    ensures PrimaryKey(inst) in p.w.db.objs
    ensures var (w, result) := SyncStatus(p.w, p.rec);
      Synced(inst, ManagedTexts(inst, h), SetAt(p.w.db.objs, PrimaryKey(inst)), p, w) && result == AnswerIn(w)
  {
    PrimaryIsPlaced(inst, h, a, p.w.db.objs);
    CalmSynced(inst, ManagedTexts(inst, h), PrimaryKey(inst), p);
  }

  lemma SyncedIsDone(inst: TlnDB, h: string, a: Objects, p: Pass, w: World)
    requires ResourcesDone(inst, h, a, p) && PrimaryKey(inst) in p.w.db.objs
    requires Synced(inst, ManagedTexts(inst, h), SetAt(p.w.db.objs, PrimaryKey(inst)), p, w)
    ensures PassDone(inst, h, a, w)
  {
  }

  lemma SameChildrenAfter(inst: TlnDB, other: TlnDB, h: string, a: Objects, b: Objects)
    requires OnlyStatus(inst, other) && ChildrenAfter(other, h, a, b)
    ensures ChildrenAfter(inst, h, a, b)
  {
    forall id | Wanted(inst.spec, id) ensures Placed(a, b, TargetOf(inst, h, id)) {
      SameTargets(inst, other, h, id);
    }
    forall k | !Managed(inst, k) ensures SameAt(a, b, k) {
      assert !Managed(other, k);
    }
  }

  lemma SameTexts(inst: TlnDB, other: TlnDB, h: string)
    requires OnlyStatus(inst, other)
    ensures ManagedTexts(inst, h) == ManagedTexts(other, h)
  {
    SameSteps(inst, other, h, AllActs(inst.spec));
  }

  lemma SamePassDone(inst: TlnDB, other: TlnDB, h: string, a: Objects, w: World)
    requires OnlyStatus(inst, other) && PassDone(other, h, a, w)
    ensures PassDone(inst, h, a, w)
  {
    SameChildrenAfter(inst, other, h, a, w.db.objs);
    SameTexts(inst, other, h);
  }
}

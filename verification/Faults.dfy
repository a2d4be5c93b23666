/**
 What single failures lead to, under every schedule: which are passed over, which
 end the pass with an error, and what an answer promises about the server.
 */
module Faults {
  import opened Api
  import opened Common
  import opened Children
  import opened Cluster
  import opened Controller
  import opened Notes
  import opened Convergence
  import opened Answers
  import opened Anatomy
  import opened Invariants

  // ---- Status patches -----------------------------------------------------------------------

  /** A status patch sent now succeeds or conflicts: neither is an error to the controller. */
  predicate Tolerated(w: World) {
    var (w1, outcome) := Arrive(w);
    w1.db.inst.Some? && (outcome.Ok? || outcome.Conflict?)
  }

  lemma PatchTolerated(w: World, rec: Record, next: Status)
    ensures var (w', _, reply) := PatchStatus(w, rec, next);
      (reply.Done? || reply.Conflicted? <==> Tolerated(w)) && w'.db.objs == Arrive(w).0.db.objs
  {
  }

  /** If the first patch of a pass fails, the pass errs and touches no child; if it conflicts, the pass goes on as if it had not. */
  lemma FirstPatchDecides(w: World, rec: Record)
    requires rec.obj.status.phase.Unset?
    ensures !Tolerated(w) ==> var (w', result) := ReconcileActive(w, rec); result.Errored? && w'.db.objs == Arrive(w).0.db.objs
    ensures Tolerated(w) ==>
      var (w1, rec1, _) := SetPhase(w, rec, Provisioning);
      rec1.obj.status.phase.Provisioning? && ReconcileActive(w, rec) == ReconcileActive(w1, rec1)
  {
    PatchTolerated(w, rec, rec.obj.status.(phase := Provisioning, lastUpdateTime := Some(w.db.clock)));
  }

  /** Recording the pass fails exactly when its patch does, conflicts excepted. */
  lemma RecordingFails(p: Pass)
    requires !p.failed
    ensures Persist(p).failed <==> !Tolerated(p.w)
  {
    PatchTolerated(p.w, p.rec, PersistedStatus(p.rec.obj, p.managed, p.w.db.clock));
  }

  lemma ReportAnswers(w: World, rec: Record, body: Body)
    requires body.StatefulSetBody?
    ensures var result := Report(w, rec, Found(Stored(0, Child(map[], map[], None, body)))).1;
      result == if !Tolerated(w) then Errored
                else if CaughtUp(body) && EnoughReady(rec.obj.spec, body) then Finished else RequeueAfter(10)
  {
    PrimaryFields(rec.obj);
    PatchTolerated(w, rec, ObservedStatus(rec.obj, body, w.db.clock));
  }

  /** The answer of `syncStatus` under every schedule: it depends on the lookup, on the set that was found, and on the patch. */
  lemma SyncAnswers(w: World, rec: Record)
    ensures var (w1, outcome), key := Arrive(w), PrimarySet(rec.obj);
      SyncStatus(w, rec).1 ==
        if !outcome.Ok? then Errored
        else if key !in w1.db.objs then RequeueAfter(5)
        else if !Tolerated(w1) then Errored
        else if CaughtUp(SetAt(w1.db.objs, key)) && EnoughReady(rec.obj.spec, SetAt(w1.db.objs, key)) then Finished
        else RequeueAfter(10)
  {
    PrimaryFields(rec.obj);
    var (w1, outcome) := Arrive(w);
    if outcome.Ok? && PrimarySet(rec.obj) in w1.db.objs {
      ReportAnswers(w1, rec, SetAt(w1.db.objs, PrimarySet(rec.obj)));
    }
  }

  // ---- The finalizer ----------------------------------------------------------------------------

  /** Where the instance cannot be fetched the pass errs; where it is gone there is nothing to do. */
  lemma FetchDecides(w: World)
    ensures var (w1, outcome) := Arrive(w);
      (!outcome.Ok? ==> Reconcile(w) == (w1, Errored)) && (outcome.Ok? && w1.db.inst.None? ==> Reconcile(w) == (w1, Finished))
  {
  }

  lemma UpdateDone(w: World, rec: Record)
    requires UpdateInstance(w, rec).1.Done?
    ensures var after := UpdateInstance(w, rec).0.db.inst; after.Some? ==> after.value.obj.finalizers == rec.obj.finalizers
    ensures rec.obj.finalizers != {} ==> UpdateInstance(w, rec).0.db.inst.Some?
  {
  }

  /** Under every schedule the pass that adds the finalizer answers Requeue only once it is stored, and errs otherwise. */
  lemma AddedMeansHeld(w: World, rec: Record)
    ensures var (w', result) := AddFinalizer(w, rec);
      (result.Requeue? || result.Errored?) && (result.Requeue? ==> Held(w'.db))
  {
    var asked := rec.(obj := rec.obj.(finalizers := rec.obj.finalizers + {FINALIZER}));
    assert FINALIZER in asked.obj.finalizers;
    if UpdateInstance(w, asked).1.Done? { UpdateDone(w, asked); }
  }

  /** Under every schedule a deletion pass answers Finished only once the finalizer is gone, and errs otherwise. */
  lemma FinishedMeansReleased(w: World, rec: Record)
    requires FINALIZER in rec.obj.finalizers
    ensures var (w', result) := ReconcileDeletion(w, rec);
      (result.Finished? || result.Errored?) && (result.Finished? ==> !Held(w'.db))
  {
    var (w1, rec1, ok) := SetPhase(w, rec, Terminating);
    var asked := rec1.(obj := rec1.obj.(finalizers := rec1.obj.finalizers - {FINALIZER}));
    if ok && UpdateInstance(w1, asked).1.Done? { UpdateDone(w1, asked); }
  }

  /** If Terminating cannot be stored, the pass stops there and nothing is released; if that conflicts, the finalizer goes all the same. */
  lemma TerminatingFirst(w: World, rec: Record)
    requires FINALIZER in rec.obj.finalizers
    ensures !Tolerated(w) ==> ReconcileDeletion(w, rec) == (SetPhase(w, rec, Terminating).0, Errored)
    ensures Tolerated(w) ==>
      var (w1, rec1, _) := SetPhase(w, rec, Terminating);
      ReconcileDeletion(w, rec).0 == UpdateInstance(w1, rec1.(obj := rec1.obj.(finalizers := rec1.obj.finalizers - {FINALIZER}))).0
  {
    PatchTolerated(w, rec, rec.obj.status.(phase := Terminating, lastUpdateTime := Some(w.db.clock)));
  }

  // ---- Children -----------------------------------------------------------------------------------

  /** An update that conflicts: passed over for budgets and autoscalers, an error for every other kind. */
  lemma UpdateConflict(w: World, author: Spec, t: Target, rest: seq<Tick>)
    requires w.schedule == [Tick([], Ok), Tick([], Conflict)] + rest && t.key in w.db.objs
    requires Revise(t.key.kind, w.db.objs[t.key].obj, t.desired).Some?
    ensures var (w', ok) := Ensure(w, author, t);
      w'.db == w.db && (ok <==> t.key.kind == PodDisruptionBudget || t.key.kind == HorizontalPodAutoscaler)
  {
    var w1 := w.(schedule := w.schedule[1..]);
    assert Arrive(w) == (w1, Ok);
    assert w1.schedule == [Tick([], Conflict)] + rest;
    assert Arrive(w1) == (w1.(schedule := w1.schedule[1..]), Conflict);
  }

  predicate AllOk(schedule: seq<Tick>) { forall i | 0 <= i < |schedule| :: schedule[i].outcome.Ok? }

  lemma {:induction false} DisturbSchedule(w: World, steps: seq<EnvStep>)
    ensures DisturbAll(w, steps).schedule == w.schedule
    decreases |steps|
  {
    if steps != [] { DisturbSchedule(Disturb(w, steps[0]), steps[1..]); }
  }

  lemma ArriveOk(w: World)
    requires AllOk(w.schedule)
    ensures Arrive(w).1.Ok? && AllOk(Arrive(w).0.schedule)
  {
    if w.schedule != [] { DisturbSchedule(w.(schedule := w.schedule[1..]), w.schedule[0].before); }
  }

  /** Pruning succeeds whenever its calls do, also if the object disappears in between. */
  lemma PruningSucceeds(w: World, author: Spec, key: Key)
    requires AllOk(w.schedule)
    ensures var (w', ok) := DeleteIfExists(w, author, key); ok && key !in w'.db.objs
  {
    ArriveOk(w);
    ArriveOk(Arrive(w).0);
  }

  /** Whatever happens to the ServiceMonitor, the pass goes on; it is listed exactly when it is in place. */
  lemma MonitorNeverFails(p: Pass)
    ensures Monitor(p).failed == p.failed
    ensures !p.failed && p.rec.obj.spec.metrics.monitor.enabled ==>
      var t := TargetOf(p.rec.obj, "", MonitorChild);
      Monitor(p).managed == if Ensure(p.w, p.rec.obj.spec, t).1 then p.managed + ["ServiceMonitor/" + p.rec.obj.name] else p.managed
    ensures !p.rec.obj.spec.metrics.monitor.enabled ==> Monitor(p) == p
  {
    EntryText(KeyOf(p.rec.obj, MonitorChild));
  }

  /** A ServiceMonitor that cannot be reached is told in its condition. */
  lemma MonitorFailureIsTold(p: Pass)
    requires !p.failed && p.w.db.inst == Some(p.rec) && p.w.schedule == [Tick([], Error)] && p.rec.obj.spec.metrics.monitor.enabled
    ensures var told := FindCondition(Conditions(Monitor(p)), ServiceMonitorReady);
      told.Some? && !told.value.status && told.value.reason == "ServiceMonitorCRDMissing"
  {
    var t := TargetOf(p.rec.obj, "", MonitorChild);
    var w := p.w.(schedule := []);
    assert p.w.schedule[1..] == [];
    assert Arrive(p.w) == (w, Error);
    assert Ensure(p.w, p.rec.obj.spec, t) == (w, false);
    CalmFailedNote(p.(w := w), MONITOR_MISSING);
  }

  /** A ConfigMap that cannot be fetched ends the pass without saying that it is missing. */
  lemma UnreachableConfigSaysNothing(p: Pass)
    requires !p.failed && p.rec.obj.spec.configFrom.Some? && !Arrive(p.w).1.Ok?
    ensures LoadConfig(p).0 == p.(w := Arrive(p.w).0, failed := true)
  {
  }
}

/**
 Generation truthfulness of whole passes and whole runs.
 */
module TruthfulRuns {
  import opened Api
  import opened Common
  import opened Cluster
  import opened Controller
  import opened Plans
  import opened CalmPass
  import opened Convergence
  import opened Retry
  import opened Truth
  import opened Invariants
  import opened Safety
  import opened Runs

  // ---- reconcileResources -----------------------------------------------------------------

  lemma Forget(g: Goal, h: string, moment: nat, p: Pass)
    requires Underway(Sighted(g, h, moment), [], p)
    ensures g.seen.None? ==> Underway(g, [], p)
  {
    UnderwayTracked(Sighted(g, h, moment), [], p);
    UnderwayTracked(g, [], p);
  }

  lemma LoadedUnderway(g: Goal, h: string, done: seq<Step>, p: Pass)
    requires Spans(g, h) && g.seen.None? && done == [] + StepsOf(g.inst, h, AccessActs(g.inst.spec))
    requires Loaded(g, h, done, p) && !p.failed
    ensures Underway(g, [], Persist(ServeAndMore(p, h)))
    ensures var q := Persist(ServeAndMore(p, h)); q.failed || Achieved(g.inst, g.first, q.rec.obj, q.w)
  {
    var moment: nat :| Underway(Sighted(g, h, moment), done, p);
    var g' := Sighted(g, h, moment);
    assert Spans(g', h);
    ReachedAlone(g', done, p);
    ServeReached(g', h, done, p);
    PersistUnderway(g', h, ServeAndMore(p, h));
    Forget(g, h, moment, Persist(ServeAndMore(p, h)));
    var q := Persist(ServeAndMore(p, h));
    if !q.failed {
      UnderwayTracked(g', AllDone(g.inst, h), q);
      assert AchievedWith(g.inst, g.first, q.rec.obj, q.w, g');
    }
  }

  /** The work of a pass on `inst` is done: its configuration was seen and every other mandatory child is in place. */
  ghost predicate Achieved(inst: TlnDB, first: nat, copy: TlnDB, w: World) {
    exists g :: AchievedWith(inst, first, copy, w, g)
  }

  ghost predicate AchievedWith(inst: TlnDB, first: nat, copy: TlnDB, w: World, g: Goal) {
    g.inst == inst && g.first == first && g.seen.Some? && Tracked(g, AllDone(inst, g.seen.value.h), copy, w)
  }

  lemma ResourcesUnderway(g: Goal, h: string, w: World, rec: Record)
    requires Spans(g, h) && g.seen.None? && Underway(g, [], Pass(w, rec, [], false))
    requires g.inst.spec.configFrom.None? ==> h == ConfigHash(g.inst.spec)
    requires var loaded := LoadConfig(RunAll(AccessPlan(rec.obj), Pass(w, rec, [], false))); loaded.0.failed || loaded.1 == h
    ensures Underway(g, [], ReconcileResources(w, rec))
    ensures var q := ReconcileResources(w, rec); q.failed || Achieved(g.inst, g.first, q.rec.obj, q.w)
  {
    var p := Pass(w, rec, [], false);
    ReachedAlone(g, [], p);
    AccessReached(g, h, p);
    var accessed := RunAll(AccessPlan(rec.obj), p);
    var done := [] + StepsOf(g.inst, h, AccessActs(g.inst.spec));
    LoadReached(g, h, done, accessed);
    var (configured, h') := LoadConfig(accessed);
    if configured.failed {
      FailedStaysFailed(configured, h');
    } else {
      LoadedUnderway(g, h, done, configured);
    }
  }

  /** Which goal a pass has does not matter while nothing is done. */
  lemma FreshGoal(g: Goal, h: string, copy: TlnDB, w: World)
    requires Tracked(g, [], copy, w)
    ensures var g' := GoalFor(g.inst, h, w.db.objs, g.first); Spans(g', h) && Tracked(g', [], copy, w)
  {
    GoalSpans(g.inst, h, w.db.objs, g.first);
  }

  lemma LoadedHash(inst: TlnDB, p: Pass)
    requires Alike(inst, p.rec.obj)
    ensures var (q, h) := LoadConfig(p); q.failed || inst.spec.configFrom.Some? || h == ConfigHash(inst.spec)
  {
  }

  ghost predicate Tidy(inst: TlnDB, first: nat, copy: TlnDB, w: World) {
    exists g: Goal :: g.inst == inst && g.first == first && Tracked(g, [], copy, w)
  }

  lemma ResourcesTidy(inst: TlnDB, first: nat, w: World, rec: Record)
    requires Tidy(inst, first, rec.obj, w)
    ensures var p := ReconcileResources(w, rec);
      Tidy(inst, first, p.rec.obj, p.w) && (p.failed || Achieved(inst, first, p.rec.obj, p.w))
  {
    var g0: Goal :| g0.inst == inst && g0.first == first && Tracked(g0, [], rec.obj, w);
    var p := Pass(w, rec, [], false);
    var accessed := RunAll(AccessPlan(rec.obj), p);
    var loaded := LoadConfig(accessed).1;
    var h := if inst.spec.configFrom.None? then ConfigHash(inst.spec) else loaded;
    FreshGoal(g0, h, rec.obj, w);
    var g := GoalFor(inst, h, w.db.objs, first);
    UnderwayTracked(g, [], p);
    ReachedAlone(g, [], p);
    AccessReached(g, h, p);
    UnderwayCopy(g, [], accessed);
    LoadedHash(inst, accessed);
    ResourcesUnderway(g, h, w, rec);
    UnderwayTracked(g, [], ReconcileResources(w, rec));
  }

  lemma PatchTidy(inst: TlnDB, first: nat, w: World, rec: Record, next: Status)
    requires Tidy(inst, first, rec.obj, w) && next.observedGeneration == rec.obj.status.observedGeneration
    ensures var (w', rec', _) := PatchStatus(w, rec, next); Tidy(inst, first, rec'.obj, w')
  {
    var g: Goal :| g.inst == inst && g.first == first && Tracked(g, [], rec.obj, w);
    PatchTracked(g, [], w, rec, next);
  }

  lemma PhaseTidy(inst: TlnDB, first: nat, w: World, rec: Record, phase: Phase)
    requires Tidy(inst, first, rec.obj, w)
    ensures var (w', rec', _) := SetPhase(w, rec, phase); Tidy(inst, first, rec'.obj, w')
  {
    PatchTidy(inst, first, w, rec, rec.obj.status.(phase := phase, lastUpdateTime := Some(w.db.clock)));
  }

  lemma ArriveTidy(inst: TlnDB, first: nat, w: World, copy: TlnDB)
    requires Tidy(inst, first, copy, w)
    ensures Tidy(inst, first, copy, Arrive(w).0)
  {
    var g: Goal :| g.inst == inst && g.first == first && Tracked(g, [], copy, w);
    ArriveTracked(g, [], copy, w);
  }

  lemma SyncTidy(inst: TlnDB, first: nat, w: World, rec: Record)
    requires Tidy(inst, first, rec.obj, w)
    ensures TrueLog(first, SyncStatus(w, rec).0.log, SyncStatus(w, rec).0.db)
  {
    ArriveTidy(inst, first, w, rec.obj);
    var (w1, fetch) := Get(w, PrimaryKey(rec.obj));
    if fetch.Found? {
      PatchTidy(inst, first, w1, rec, ObservedStatus(rec.obj, fetch.value.obj.body, w1.db.clock));
    }
  }

  lemma WorkTidy(inst: TlnDB, first: nat, w: World, rec: Record)
    requires Tidy(inst, first, rec.obj, w)
    ensures var p := ReconcileResources(w, rec);
      var w' := if p.failed then SetPhase(p.w, p.rec, Failed).0 else SyncStatus(p.w, p.rec).0;
      TrueLog(first, w'.log, w'.db)
  {
    var p := ReconcileResources(w, rec);
    ResourcesTidy(inst, first, w, rec);
    if p.failed {
      PhaseTidy(inst, first, p.w, p.rec, Failed);
    } else {
      SyncTidy(inst, first, p.w, p.rec);
    }
  }

  lemma ActiveTidy(inst: TlnDB, first: nat, w: World, rec: Record)
    requires Tidy(inst, first, rec.obj, w)
    ensures TrueLog(first, ReconcileActive(w, rec).0.log, ReconcileActive(w, rec).0.db)
  {
    if rec.obj.status.phase.Unset? {
      PhaseTidy(inst, first, w, rec, Provisioning);
      var (w1, rec1, ok) := SetPhase(w, rec, Provisioning);
      if ok {
        WorkTidy(inst, first, w1, rec1);
      }
    } else {
      WorkTidy(inst, first, w, rec);
    }
  }

  // ---- What an answer means -------------------------------------------------------------------

  lemma ArriveAchieved(inst: TlnDB, first: nat, w: World, copy: TlnDB)
    requires Achieved(inst, first, copy, w)
    ensures Achieved(inst, first, copy, Arrive(w).0)
  {
    var g :| AchievedWith(inst, first, copy, w, g);
    ArriveTracked(g, AllDone(inst, g.seen.value.h), copy, w);
    assert AchievedWith(inst, first, copy, Arrive(w).0, g);
  }

  lemma PatchAchieved(inst: TlnDB, first: nat, w: World, rec: Record, next: Status)
    requires Achieved(inst, first, rec.obj, w) && next.observedGeneration == rec.obj.status.observedGeneration
    ensures var (w', rec', _) := PatchStatus(w, rec, next); Achieved(inst, first, rec'.obj, w')
  {
    var g :| AchievedWith(inst, first, rec.obj, w, g);
    PatchTracked(g, AllDone(inst, g.seen.value.h), w, rec, next);
    var (w', rec', _) := PatchStatus(w, rec, next);
    assert AchievedWith(inst, first, rec'.obj, w', g);
  }

  /** Since `first` the configuration was there with some digest, and now every other mandatory child built with it is in place. */
  ghost predicate InPlace(inst: TlnDB, first: nat, w: World) {
    exists n: nat, h | first <= n <= |w.log| :: Configured(inst, h, At(w.log, w.db, n).objs) && Complete(inst, h, w.db.objs)
  }

  lemma AchievedIsInPlace(inst: TlnDB, first: nat, copy: TlnDB, w: World)
    requires Achieved(inst, first, copy, w)
    ensures InPlace(inst, first, w)
  {
    var g :| AchievedWith(inst, first, copy, w, g);
    var n, h := g.seen.value.moment, g.seen.value.h;
    DoneIsComplete(inst, h, w.db.objs);
    assert Configured(inst, h, At(w.log, w.db, n).objs) && Complete(inst, h, w.db.objs);
  }

  lemma SyncAchieved(inst: TlnDB, first: nat, w: World, rec: Record)
    requires Achieved(inst, first, rec.obj, w)
    ensures InPlace(inst, first, SyncStatus(w, rec).0)
  {
    var key := PrimaryKey(rec.obj);
    ArriveAchieved(inst, first, w, rec.obj);
    FetchedSet(w, key);
    ReportAchieved(inst, first, Get(w, key).0, rec, Get(w, key).1);
  }

  lemma ReportAchieved(inst: TlnDB, first: nat, w: World, rec: Record, fetch: Fetch<Stored>)
    requires Achieved(inst, first, rec.obj, w) && (fetch.Found? ==> fetch.value.obj.body.StatefulSetBody?)
    ensures InPlace(inst, first, Report(w, rec, fetch).0)
  {
    if fetch.Found? {
      var next := ObservedStatus(rec.obj, fetch.value.obj.body, w.db.clock);
      PatchAchieved(inst, first, w, rec, next);
      var (w', rec', _) := PatchStatus(w, rec, next);
      AchievedIsInPlace(inst, first, rec'.obj, w');
    } else {
      AchievedIsInPlace(inst, first, rec.obj, w);
    }
  }

  lemma WorkAnswers(inst: TlnDB, first: nat, w: World, rec: Record)
    requires Tidy(inst, first, rec.obj, w)
    ensures var p := ReconcileResources(w, rec); p.failed || InPlace(inst, first, SyncStatus(p.w, p.rec).0)
  {
    var p := ReconcileResources(w, rec);
    ResourcesTidy(inst, first, w, rec);
    if !p.failed {
      SyncAchieved(inst, first, p.w, p.rec);
    }
  }

  lemma ActiveAnswers(inst: TlnDB, first: nat, w: World, rec: Record)
    requires Tidy(inst, first, rec.obj, w)
    ensures var (w', result) := ReconcileActive(w, rec); result.Errored? || InPlace(inst, first, w')
  {
    if rec.obj.status.phase.Unset? {
      PhaseTidy(inst, first, w, rec, Provisioning);
      var (w1, rec1, ok) := SetPhase(w, rec, Provisioning);
      WorkAnswers(inst, first, w1, rec1);
    } else {
      WorkAnswers(inst, first, w, rec);
    }
  }

  // ---- The other passes -----------------------------------------------------------------------

  lemma EnvNeverObserves(db: Db, step: EnvStep)
    ensures !Observes(db, ApplyEnv(db, step)) && (db.inst.None? ==> ApplyEnv(db, step).inst.None?)
  {
  }

  lemma {:induction false} DisturbTrue(first: nat, w: World, steps: seq<EnvStep>)
    requires TrueLog(first, w.log, w.db)
    ensures var w' := DisturbAll(w, steps); TrueLog(first, w'.log, w'.db)
    decreases |steps|
  {
    if steps != [] {
      EnvNeverObserves(w.db, steps[0]);
      TrueSnoc(first, w.log, Event(None, w.db, ApplyEnv(w.db, steps[0])));
      DisturbTrue(first, Disturb(w, steps[0]), steps[1..]);
    }
  }

  lemma ArriveTrue(first: nat, w: World)
    requires TrueLog(first, w.log, w.db)
    ensures var w' := Arrive(w).0; TrueLog(first, w'.log, w'.db)
  {
    if w.schedule != [] {
      DisturbTrue(first, w.(schedule := w.schedule[1..]), w.schedule[0].before);
    }
  }

  lemma AttemptTrue(first: nat, author: Spec, w: World, db: Db, outcome: Outcome)
    requires TrueLog(first, w.log, w.db) && !Observes(w.db, db) && (w.db.inst.None? ==> db.inst.None?)
    ensures var w' := Attempt(w, author, db, outcome).0; TrueLog(first, w'.log, w'.db)
  {
    TrueSnoc(first, w.log, Event(Some(author), w.db, db));
  }

  lemma UpdateTrue(first: nat, w: World, rec: Record)
    requires TrueLog(first, w.log, w.db)
    ensures var w' := UpdateInstance(w, rec).0; TrueLog(first, w'.log, w'.db)
  {
    ArriveTrue(first, w);
    var (w1, outcome) := Arrive(w);
    if w1.db.inst.Some? && w1.db.inst.value.rv == rec.rv {
      var next := w1.db.inst.value.obj.(finalizers := rec.obj.finalizers, spec := rec.obj.spec);
      var db := if next.deleting && next.finalizers == {} then w1.db.(inst := None) else PutInstance(w1.db, next);
      AttemptTrue(first, rec.obj.spec, w1, db, outcome);
    }
  }

  lemma TerminateTrue(first: nat, w: World, rec: Record)
    requires TrueLog(first, w.log, w.db)
    ensures var w' := SetPhase(w, rec, Terminating).0; TrueLog(first, w'.log, w'.db)
  {
    ArriveTrue(first, w);
    var next := rec.obj.status.(phase := Terminating, lastUpdateTime := Some(w.db.clock));
    var (w1, outcome) := Arrive(w);
    if w1.db.inst.Some? {
      var stored := w1.db.inst.value.obj;
      AttemptTrue(first, rec.obj.spec, w1, PutInstance(w1.db, stored.(status := MergeStatus(rec.obj.status, next, stored.status))), outcome);
    }
  }

  lemma DeletionTrue(first: nat, w: World, rec: Record)
    requires TrueLog(first, w.log, w.db)
    ensures var w' := ReconcileDeletion(w, rec).0; TrueLog(first, w'.log, w'.db)
  {
    TerminateTrue(first, w, rec);
    var (w1, rec1, ok) := SetPhase(w, rec, Terminating);
    UpdateTrue(first, w1, rec1.(obj := rec1.obj.(finalizers := rec1.obj.finalizers - {FINALIZER})));
  }

  // ---- Passes and runs ---------------------------------------------------------------------------

  lemma {:induction false} DisturbKeepsSchedule(w: World, steps: seq<EnvStep>)
    ensures DisturbAll(w, steps).schedule == w.schedule
    decreases |steps|
  {
    if steps != [] { DisturbKeepsSchedule(Disturb(w, steps[0]), steps[1..]); }
  }

  lemma ArriveFriendly(w: World)
    requires FriendlySchedule(w.schedule)
    ensures FriendlySchedule(Arrive(w).0.schedule)
  {
    if w.schedule != [] { DisturbKeepsSchedule(w.(schedule := w.schedule[1..]), w.schedule[0].before); }
  }

  lemma StartsTidy(s: Scope, first: nat, w: World)
    requires WorldOk(s, w) && w.db.inst.Some? && Active(w.db.inst.value.obj) && FriendlySchedule(w.schedule)
    requires TrueLog(first, w.log, w.db)
    ensures Tidy(w.db.inst.value.obj, first, w.db.inst.value.obj, w)
  {
    var inst := w.db.inst.value.obj;
    var g := GoalFor(inst, "", w.db.objs, first);
    GoalSpans(inst, "", w.db.objs, first);
    assert Tracked(g, [], inst, w);
  }

  lemma PassKeepsTruth(s: Scope, first: nat, w: World)
    requires WorldOk(s, w) && FriendlySchedule(w.schedule) && TrueLog(first, w.log, w.db)
    ensures var w' := Reconcile(w).0; TrueLog(first, w'.log, w'.db)
  {
    ArriveTrue(first, w);
    FirstCallKeeps(s, w);
    ArriveFriendly(w);
    var (w1, fetch) := GetInstance(w);
    if fetch.Found? {
      var rec := fetch.value;
      if rec.obj.deleting {
        DeletionTrue(first, w1, rec);
      } else if FINALIZER !in rec.obj.finalizers {
        UpdateTrue(first, w1, rec.(obj := rec.obj.(finalizers := rec.obj.finalizers + {FINALIZER})));
      } else {
        StartsTidy(s, first, w1);
        ActiveTidy(rec.obj, first, w1, rec);
      }
    }
  }

  /** Every generation a pass records is vouched for, by a configuration seen during that very pass. */
  lemma PassIsTruthful(s: Scope, w: World)
    requires WorldOk(s, w) && FriendlySchedule(w.schedule)
    ensures AllTruthful(|w.log|, Reconcile(w).0.log)
  {
    PassKeepsTruth(s, |w.log|, w);
  }

  /**
   Whatever fails and whoever interferes without editing the spec: a pass over an active instance that does not answer
   with an error has seen its configuration and leaves every other mandatory child in place.
   */
  lemma AnswerMeansInPlace(s: Scope, w: World)
    requires WorldOk(s, w) && FriendlySchedule(w.schedule)
    requires var found := Arrive(w).0.db.inst; found.Some? && Active(found.value.obj)
    ensures var (w', result) := Reconcile(w);
      result.Errored? || InPlace(Arrive(w).0.db.inst.value.obj, |w.log|, w')
  {
    ArriveTrue(|w.log|, w);
    FirstCallKeeps(s, w);
    ArriveFriendly(w);
    var (w1, fetch) := GetInstance(w);
    if fetch.Found? {
      StartsTidy(s, |w.log|, w1);
      ActiveAnswers(fetch.value.obj, |w.log|, w1, fetch.value);
    }
  }

  /** If nobody has touched the operator's ConfigMap since it was seen, it is in place when the generation is recorded. */
  lemma {:induction false} ConfigMapStaysInPlace(log: seq<Event>, n: nat, i: nat, t: Target)
    requires n <= i < |log| && Accomplished(log[n].before.objs, t)
    requires forall m | n <= m <= i :: t.key in log[m].after.objs && t.key in log[m].before.objs && log[m].after.objs[t.key] == log[m].before.objs[t.key]
    requires forall a, b | 0 <= a < |log| && 0 <= b < |log| && b == a + 1 :: log[b].before == log[a].after
    ensures Accomplished(log[i].after.objs, t)
    decreases i
  {
    if n < i {
      ConfigMapStaysInPlace(log, n, i - 1, t);
    }
  }

  predicate FriendlyItem(item: Item) { item.PassItem? ==> FriendlySchedule(item.schedule) }

  /**
   Over every run whose specs are edited between passes only: each recorded generation is
   vouched for when it is recorded, and the one stored at the end is among them.
   */
  lemma {:induction false} RunIsTruthful(s: Scope, first: nat, w: World, items: seq<Item>)
    requires WorldOk(s, w) && TrueLog(first, w.log, w.db)
    requires forall i | 0 <= i < |items| :: ItemOk(s, items[i]) && FriendlyItem(items[i])
    ensures var w' := Execute(w, items); TrueLog(first, w'.log, w'.db)
    decreases |items|
  {
    if items != [] {
      assert ItemOk(s, items[0]) && FriendlyItem(items[0]);
      match items[0]
      case PassItem(schedule) =>
        PassIsSafe(s, w.(schedule := schedule));
        PassKeepsTruth(s, first, w.(schedule := schedule));
        RunIsTruthful(s, first, Perform(w, items[0]), items[1..]);
      case EnvItem(steps) =>
        EnvironmentKeeps(s, w.(schedule := []), steps);
        DisturbTrue(first, w.(schedule := []), steps);
        RunIsTruthful(s, first, Perform(w, items[0]), items[1..]);
    }
  }
}

/**
 Generation truthfulness: calls may fail and others may interfere, but as long as
 the spec is left alone during the pass, a stored `observedGeneration` changes only
 when the work for that generation has been done.
 */
module Truth {
  import opened Api
  import opened Common
  import opened Hashing
  import opened Children
  import opened Cluster
  import opened Controller
  import opened Plans
  import opened CalmPass
  import opened Convergence
  import opened Retry
  import opened Safety

  // ---- What is promised ---------------------------------------------------------------

  /** In place; a budget or an autoscaler whose update conflicted may be left as it was. */
  ghost predicate Accomplished(objs: Objects, t: Target) {
    t.key in objs && (Lenient(t.key.kind) || Settled(t.key.kind, objs[t.key].obj, t.desired))
  }

  /** The configuration is there and has the digest `h`: the operator's own ConfigMap, in place, or the external one. */
  ghost predicate Configured(inst: TlnDB, h: string, objs: Objects) {
    if inst.spec.configFrom.None? then h == ConfigHash(inst.spec) && Accomplished(objs, TargetOf(inst, h, ConfigChild))
    else ExternalKey(inst) in objs && h == Digest(objs[ExternalKey(inst)].obj.body.data)
  }

  /** Every other wanted child is in place, the ServiceMonitor excepted, and an unwanted follower set is gone. */
  ghost predicate Complete(inst: TlnDB, h: string, objs: Objects) {
    (forall id | Wanted(inst.spec, id) && !id.MonitorChild? && !id.ConfigChild? :: Accomplished(objs, TargetOf(inst, h, id)))
    && (Prunes(inst.spec) ==> FollowerKey(inst) !in objs)
  }

  predicate Observes(before: Db, after: Db) {
    before.inst.Some? && after.inst.Some?
    && before.inst.value.obj.status.observedGeneration != after.inst.value.obj.status.observedGeneration
  }

  /** The observed generation is the stored one, or the one before a deletion request. */
  predicate NamesGeneration(inst: TlnDB) {
    inst.status.observedGeneration == inst.generation || (inst.deleting && inst.status.observedGeneration + 1 == inst.generation)
  }

  /**
   Event `i` recorded a generation for which the work was done: at moment `n`, with the same spec stored,
   the configuration was there with digest `h`, and now every child built with that digest is in place.
   */
  ghost predicate VouchedBy(log: seq<Event>, i: nat, n: nat, h: string)
    requires n <= i < |log|
  {
    log[i].after.inst.Some? && log[n].before.inst.Some? &&
    var inst := log[i].after.inst.value.obj;
    NamesGeneration(inst) && log[n].before.inst.value.obj.spec == inst.spec
    && Configured(inst, h, log[n].before.objs) && Complete(inst, h, log[i].after.objs)
  }

  ghost predicate Truthful(first: nat, log: seq<Event>, i: nat)
    requires i < |log|
  {
    Observes(log[i].before, log[i].after) ==> exists n: nat, h | first <= n <= i :: VouchedBy(log, i, n, h)
  }

  function Observed(db: Db): Option<int> { if db.inst.Some? then Some(db.inst.value.obj.status.observedGeneration) else None }

  /** Some event recorded the generation that is now stored, if any event recorded one at all. */
  ghost predicate Explained(first: nat, log: seq<Event>, db: Db) {
    db.inst.Some? ==>
      (forall i | first <= i < |log| :: !Observes(log[i].before, log[i].after))
      || exists i | first <= i < |log| :: Observes(log[i].before, log[i].after) && Observed(log[i].after) == Observed(db)
  }

  ghost predicate AllTruthful(first: nat, log: seq<Event>) { forall i | first <= i < |log| :: Truthful(first, log, i) }

  /** Since `first`, every recorded generation was vouched for, and the stored one was recorded. */
  ghost predicate TrueLog(first: nat, log: seq<Event>, db: Db) {
    first <= |log| && AllTruthful(first, log) && Explained(first, log, db)
  }

  // ---- A pass in progress ---------------------------------------------------------------

  /** During a pass others may do anything but edit the spec. */
  predicate Friendly(step: EnvStep) { !step.EditSpec? }

  predicate FriendlyTick(tick: Tick) { forall i | 0 <= i < |tick.before| :: Friendly(tick.before[i]) }

  predicate FriendlySchedule(schedule: seq<Tick>) { forall i | 0 <= i < |schedule| :: FriendlyTick(schedule[i]) }

  /** The same instance with the same spec. */
  predicate SameWork(a: TlnDB, b: TlnDB) { b == a.(status := b.status, generation := b.generation, deleting := b.deleting) }

  /** The copy is of this generation, or of the one before a deletion request. */
  predicate Current(copy: TlnDB, stored: TlnDB) {
    copy.generation == stored.generation || (stored.deleting && copy.generation + 1 == stored.generation)
  }

  /** What a step achieved and still holds; others may have edited a ConfigMap since. */
  ghost predicate Effect(objs: Objects, step: Step) {
    match step
    case EnsureStep(t) => t.key.kind.ConfigMap? || Accomplished(objs, t)
    case PruneStep(key) => key.kind.ConfigMap? || key !in objs
    case NoteStep(_) => true
  }

  ghost predicate Effects(objs: Objects, done: seq<Step>) { forall i | 0 <= i < |done| :: Effect(objs, done[i]) }

  ghost predicate Bounded(g: Goal, done: seq<Step>) {
    Exclusive(g) && FINALIZER in g.inst.finalizers && (forall i | 0 <= i < |done| :: Within(g, done[i]))
  }

  ghost predicate Versioned(db: Db) { forall k | k in db.objs :: db.objs[k].rv < db.clock }

  /** The state of a pass on `g.inst`, with the steps that are done. */
  ghost predicate Steady(g: Goal, done: seq<Step>, copy: TlnDB, db: Db) {
    Bounded(g, done) && Versioned(db) && db.inst.Some? && FINALIZER in db.inst.value.obj.finalizers
    && SameWork(g.inst, db.inst.value.obj) && SameWork(g.inst, copy)
    && Current(copy, db.inst.value.obj) && Effects(db.objs, done)
  }

  /** The server before event `n`, or now. */
  function At(log: seq<Event>, db: Db, n: nat): Db { if n < |log| then log[n].before else db }

  /** What the pass has seen was there at that moment. */
  ghost predicate Seen(g: Goal, log: seq<Event>, db: Db) {
    g.seen.Some? ==>
      g.first <= g.seen.value.moment <= |log| &&
      var then_ := At(log, db, g.seen.value.moment);
      then_.inst.Some? && then_.inst.value.obj.spec == g.inst.spec && Configured(g.inst, g.seen.value.h, then_.objs)
  }

  ghost predicate Tracked(g: Goal, done: seq<Step>, copy: TlnDB, w: World) {
    Steady(g, done, copy, w.db) && FriendlySchedule(w.schedule) && TrueLog(g.first, w.log, w.db) && Seen(g, w.log, w.db)
  }

  // ---- The log grows ----------------------------------------------------------------------

  lemma TruthfulStays(first: nat, log: seq<Event>, e: Event, i: nat)
    requires i < |log| && Truthful(first, log, i)
    ensures Truthful(first, log + [e], i)
  {
    if Observes(log[i].before, log[i].after) {
      var n: nat, h :| first <= n <= i && VouchedBy(log, i, n, h);
      assert VouchedBy(log + [e], i, n, h);
    }
  }

  lemma ExplainedSnoc(first: nat, log: seq<Event>, e: Event)
    requires first <= |log| && Explained(first, log, e.before) && (e.before.inst.None? ==> e.after.inst.None?)
    ensures Explained(first, log + [e], e.after)
  {
    var after := log + [e];
    assert after[|log|] == e && forall i | 0 <= i < |log| :: after[i] == log[i];
    if e.after.inst.Some? && !Observes(e.before, e.after) && exists i | first <= i < |log| :: Observes(log[i].before, log[i].after) {
      var i :| first <= i < |log| && Observes(log[i].before, log[i].after) && Observed(log[i].after) == Observed(e.before);
      assert Observes(after[i].before, after[i].after) && Observed(after[i].after) == Observed(e.after);
    }
  }

  lemma AllTruthfulSnoc(first: nat, log: seq<Event>, e: Event)
    requires AllTruthful(first, log) && Truthful(first, log + [e], |log|)
    ensures AllTruthful(first, log + [e])
  {
    EarlierStayTruthful(first, log, e);
  }

  lemma EarlierStayTruthful(first: nat, log: seq<Event>, e: Event)
    requires AllTruthful(first, log)
    ensures forall i | first <= i < |log| :: Truthful(first, log + [e], i)
  {
    forall i | first <= i < |log| ensures Truthful(first, log + [e], i) {
      assert Truthful(first, log, i);
      TruthfulStays(first, log, e, i);
    }
  }

  lemma TrueSnoc(first: nat, log: seq<Event>, e: Event)
    requires TrueLog(first, log, e.before) && Truthful(first, log + [e], |log|) && (e.before.inst.None? ==> e.after.inst.None?)
    ensures TrueLog(first, log + [e], e.after)
  {
    ExplainedSnoc(first, log, e);
    AllTruthfulSnoc(first, log, e);
  }

  lemma SeenSnoc(g: Goal, log: seq<Event>, e: Event)
    requires Seen(g, log, e.before)
    ensures Seen(g, log + [e], e.after)
  {
    if g.seen.Some? {
      assert At(log + [e], e.after, g.seen.value.moment) == At(log, e.before, g.seen.value.moment);
    }
  }

  // ---- The environment ------------------------------------------------------------------

  lemma AccomplishedSurvives(db: Db, step: EnvStep, t: Target)
    requires Accomplished(db.objs, t) && !t.key.kind.ConfigMap?
    ensures Accomplished(ApplyEnv(db, step).objs, t)
  {
  }

  lemma EffectSurvives(db: Db, env: EnvStep, step: Step)
    requires Effect(db.objs, step)
    ensures Effect(ApplyEnv(db, env).objs, step)
  {
    if step.EnsureStep? && !step.target.key.kind.ConfigMap? {
      AccomplishedSurvives(db, env, step.target);
    }
  }

  lemma EnvKeepsInstance(inst: TlnDB, copy: TlnDB, db: Db, env: EnvStep)
    requires Versioned(db) && db.inst.Some? && FINALIZER in db.inst.value.obj.finalizers && SameWork(inst, db.inst.value.obj)
    requires Current(copy, db.inst.value.obj) && Friendly(env)
    ensures var after := ApplyEnv(db, env);
      Versioned(after) && after.inst.Some? && FINALIZER in after.inst.value.obj.finalizers && SameWork(inst, after.inst.value.obj)
      && Current(copy, after.inst.value.obj) && !Observes(db, after)
  {
  }

  lemma EnvSteady(g: Goal, done: seq<Step>, copy: TlnDB, db: Db, env: EnvStep)
    requires Steady(g, done, copy, db) && Friendly(env)
    ensures Steady(g, done, copy, ApplyEnv(db, env)) && !Observes(db, ApplyEnv(db, env))
  {
    EnvKeepsInstance(g.inst, copy, db, env);
    forall i | 0 <= i < |done| ensures Effect(ApplyEnv(db, env).objs, done[i]) { EffectSurvives(db, env, done[i]); }
  }

  lemma {:induction false} DisturbTracked(g: Goal, done: seq<Step>, copy: TlnDB, w: World, steps: seq<EnvStep>)
    requires Tracked(g, done, copy, w) && forall i | 0 <= i < |steps| :: Friendly(steps[i])
    ensures Tracked(g, done, copy, DisturbAll(w, steps))
    decreases |steps|
  {
    if steps != [] {
      var e := Event(None, w.db, ApplyEnv(w.db, steps[0]));
      EnvSteady(g, done, copy, w.db, steps[0]);
      TrueSnoc(g.first, w.log, e);
      SeenSnoc(g, w.log, e);
      DisturbTracked(g, done, copy, Disturb(w, steps[0]), steps[1..]);
    }
  }

  lemma ArriveTracked(g: Goal, done: seq<Step>, copy: TlnDB, w: World)
    requires Tracked(g, done, copy, w)
    ensures Tracked(g, done, copy, Arrive(w).0)
  {
    if w.schedule != [] {
      assert FriendlyTick(w.schedule[0]);
      DisturbTracked(g, done, copy, w.(schedule := w.schedule[1..]), w.schedule[0].before);
    }
  }

  // ---- Calls ------------------------------------------------------------------------------

  lemma CommitTracked(g: Goal, done: seq<Step>, copy: TlnDB, w: World, db: Db)
    requires Tracked(g, [], copy, w) && Steady(g, done, copy, db)
    requires Truthful(g.first, w.log + [Event(Some(copy.spec), w.db, db)], |w.log|)
    ensures Tracked(g, done, copy, Commit(w, copy.spec, db))
  {
    var e := Event(Some(copy.spec), w.db, db);
    TrueSnoc(g.first, w.log, e);
    SeenSnoc(g, w.log, e);
  }

  lemma StillTracked(g: Goal, done: seq<Step>, more: seq<Step>, copy: TlnDB, w: World)
    requires Tracked(g, done + more, copy, w)
    ensures Tracked(g, done, copy, w)
  {
    assert forall i | 0 <= i < |done| :: (done + more)[i] == done[i];
  }

  /** A write that keeps what is done and adds to it, and that records nothing it cannot vouch for. */
  lemma AttemptTracked(g: Goal, done: seq<Step>, more: seq<Step>, copy: TlnDB, w: World, db: Db, outcome: Outcome)
    requires Tracked(g, done, copy, w) && Steady(g, done + more, copy, db)
    requires Truthful(g.first, w.log + [Event(Some(copy.spec), w.db, db)], |w.log|)
    ensures var (w', reply) := Attempt(w, copy.spec, db, outcome);
      Tracked(g, done, copy, w') && (reply.Done? ==> Tracked(g, done + more, copy, w'))
  {
    if outcome.Ok? || outcome.Lost? {
      assert [] + done == done;
      StillTracked(g, [], done, copy, w);
      CommitTracked(g, done + more, copy, w, db);
      StillTracked(g, done, more, copy, Commit(w, copy.spec, db));
    }
  }

  lemma AddDone(g: Goal, done: seq<Step>, copy: TlnDB, w: World, step: Step)
    requires Tracked(g, done, copy, w) && Within(g, step) && Effect(w.db.objs, step)
    ensures Tracked(g, done + [step], copy, w)
  {
  }

  lemma PutEffect(g: Goal, db: Db, t: Target, child: Child, step: Step)
    requires Exclusive(g) && t in g.placed && OfKind(t.key.kind, child.body) && Settled(t.key.kind, child, t.desired)
    requires Within(g, step) && (Effect(db.objs, step) || step == EnsureStep(t))
    ensures Effect(Put(db, t.key, child).objs, step)
  {
  }

  lemma PutSteady(g: Goal, done: seq<Step>, copy: TlnDB, db: Db, t: Target, child: Child)
    requires Steady(g, done, copy, db) && t in g.placed && OfKind(t.key.kind, child.body) && Settled(t.key.kind, child, t.desired)
    ensures Steady(g, done + [EnsureStep(t)], copy, Put(db, t.key, child)) && !Observes(db, Put(db, t.key, child))
  {
    var after := done + [EnsureStep(t)];
    forall i | 0 <= i < |after| ensures Effect(Put(db, t.key, child).objs, after[i]) {
      PutEffect(g, db, t, child, after[i]);
    }
  }

  lemma CreateTracked(g: Goal, done: seq<Step>, copy: TlnDB, w: World, t: Target)
    requires Tracked(g, done, copy, w) && t in g.placed
    ensures var (w', reply) := Create(w, copy.spec, t.key, t.desired);
      Tracked(g, done, copy, w') && (reply.Done? ==> Tracked(g, done + [EnsureStep(t)], copy, w'))
  {
    ArriveTracked(g, done, copy, w);
    var (w1, outcome) := Arrive(w);
    if t.key !in w1.db.objs {
      var child := Admit(t.desired, w1.db.clock);
      ReconciledIsSettled(t.key.kind, None, t.desired, w1.db.clock);
      PutSteady(g, done, copy, w1.db, t, child);
      AttemptTracked(g, done, [EnsureStep(t)], copy, w1, Put(w1.db, t.key, child), outcome);
    }
  }

  /** An update that reports success has settled its child; one that reports a conflict has found it. */
  lemma UpdateTracked(g: Goal, done: seq<Step>, copy: TlnDB, w: World, t: Target)
    requires Tracked(g, done, copy, w) && t in g.placed
    requires t.key in w.db.objs && Revise(t.key.kind, w.db.objs[t.key].obj, t.desired).Some?
    ensures var next := Revise(t.key.kind, w.db.objs[t.key].obj, t.desired).value;
      var (w', reply) := Update(w, copy.spec, t.key, w.db.objs[t.key].rv, next);
      Tracked(g, done, copy, w') && (reply.Done? ==> Tracked(g, done + [EnsureStep(t)], copy, w'))
      && (reply.Conflicted? ==> t.key in w'.db.objs)
  {
    var stored := w.db.objs[t.key];
    var next := Revise(t.key.kind, stored.obj, t.desired).value;
    ArriveTracked(g, done, copy, w);
    ArriveKeepsVersions(w, t.key);
    var (w1, outcome) := Arrive(w);
    if t.key in w1.db.objs && w1.db.objs[t.key].rv == stored.rv {
      var child := Replace(stored.obj, next);
      ReconciledIsSettled(t.key.kind, Some(stored.obj), t.desired, 0);
      PutSteady(g, done, copy, w1.db, t, child);
      AttemptTracked(g, done, [EnsureStep(t)], copy, w1, Put(w1.db, t.key, child), outcome);
    }
  }

  lemma EnsureTracked(g: Goal, done: seq<Step>, copy: TlnDB, w: World, t: Target)
    requires Tracked(g, done, copy, w) && t in g.placed
    ensures var (w', ok) := Ensure(w, copy.spec, t);
      Tracked(g, done, copy, w') && (ok ==> Tracked(g, done + [EnsureStep(t)], copy, w'))
  {
    ArriveTracked(g, done, copy, w);
    var (w1, fetch) := Get(w, t.key);
    if fetch.Missing? {
      CreateTracked(g, done, copy, w1, t);
    } else if fetch.Found? {
      var revised := Revise(t.key.kind, fetch.value.obj, t.desired);
      if revised.None? {
        AddDone(g, done, copy, w1, EnsureStep(t));
      } else {
        UpdateTracked(g, done, copy, w1, t);
        var (w2, reply) := Update(w1, copy.spec, t.key, fetch.value.rv, revised.value);
        if reply.Conflicted? && Lenient(t.key.kind) {
          AddDone(g, done, copy, w2, EnsureStep(t));
        }
      }
    }
  }

  lemma RemoveSteady(g: Goal, done: seq<Step>, copy: TlnDB, db: Db, key: Key)
    requires Steady(g, done, copy, db) && key in g.pruned
    ensures Steady(g, done + [PruneStep(key)], copy, Remove(db, key)) && !Observes(db, Remove(db, key))
  {
  }

  lemma PruneTracked(g: Goal, done: seq<Step>, copy: TlnDB, w: World, key: Key)
    requires Tracked(g, done, copy, w) && key in g.pruned
    ensures var (w', ok) := DeleteIfExists(w, copy.spec, key);
      Tracked(g, done, copy, w') && (ok ==> Tracked(g, done + [PruneStep(key)], copy, w'))
  {
    ArriveTracked(g, done, copy, w);
    var (w1, fetch) := Get(w, key);
    if fetch.Missing? {
      AddDone(g, done, copy, w1, PruneStep(key));
    } else if fetch.Found? {
      DeleteTracked(g, done, copy, w1, key);
    }
  }

  lemma DeleteTracked(g: Goal, done: seq<Step>, copy: TlnDB, w: World, key: Key)
    requires Tracked(g, done, copy, w) && key in g.pruned
    ensures var (w', reply) := Delete(w, copy.spec, key);
      Tracked(g, done, copy, w') && (reply.Done? || reply.NotFound? ==> Tracked(g, done + [PruneStep(key)], copy, w'))
  {
    ArriveTracked(g, done, copy, w);
    var (w1, outcome) := Arrive(w);
    if key in w1.db.objs {
      RemoveSteady(g, done, copy, w1.db, key);
      AttemptTracked(g, done, [PruneStep(key)], copy, w1, Remove(w1.db, key), outcome);
    } else {
      AddDone(g, done, copy, w1, PruneStep(key));
    }
  }

  /** A patch that does not touch the observed generation. */
  lemma PatchTracked(g: Goal, done: seq<Step>, w: World, rec: Record, next: Status)
    requires Tracked(g, done, rec.obj, w) && next.observedGeneration == rec.obj.status.observedGeneration
    ensures var (w', rec', _) := PatchStatus(w, rec, next); Tracked(g, done, rec'.obj, w')
  {
    ArriveTracked(g, done, rec.obj, w);
    var (w1, outcome) := Arrive(w);
    var stored := w1.db.inst.value.obj;
    var db := PutInstance(w1.db, stored.(status := MergeStatus(rec.obj.status, next, stored.status)));
    assert done + [] == done;
    AttemptTracked(g, done, [], rec.obj, w1, db, outcome);
  }

  lemma NoteTracked(g: Goal, done: seq<Step>, p: Pass, note: Note)
    requires Tracked(g, done, p.rec.obj, p.w)
    ensures var q := MarkPass(p, note); Tracked(g, done, q.rec.obj, q.w) && q.failed == p.failed
  {
    var status := p.rec.obj.status;
    PatchTracked(g, done, p.w, p.rec, status.(conditions := SetCondition(status.conditions, NoteCondition(p.rec.obj, note, p.w.db.clock))));
  }

  // ---- Steps --------------------------------------------------------------------------------

  /** A pass that has done these steps at least, whether it went on or failed. */
  ghost predicate Underway(g: Goal, done: seq<Step>, p: Pass) {
    exists more :: Tracked(g, done + more, p.rec.obj, p.w)
  }

  lemma UnderwayTracked(g: Goal, done: seq<Step>, p: Pass)
    ensures Underway(g, done, p) <==> Tracked(g, done, p.rec.obj, p.w)
  {
    if Tracked(g, done, p.rec.obj, p.w) {
      assert done + [] == done;
    }
    forall more | Tracked(g, done + more, p.rec.obj, p.w) ensures Tracked(g, done, p.rec.obj, p.w) {
      assert forall i | 0 <= i < |done| :: (done + more)[i] == done[i];
    }
  }

  lemma FewerDone(g: Goal, done: seq<Step>, more: seq<Step>, p: Pass)
    requires Underway(g, done + more, p)
    ensures Underway(g, done, p)
  {
    var rest :| Tracked(g, done + more + rest, p.rec.obj, p.w);
    assert done + more + rest == done + (more + rest);
  }

  lemma StepUnderway(g: Goal, done: seq<Step>, p: Pass, step: Step)
    requires Underway(g, done, p) && Within(g, step) && !p.failed
    ensures var q := Run(step, p); Underway(g, done, q) && (!q.failed ==> Underway(g, done + [step], q))
  {
    UnderwayTracked(g, done, p);
    var q := Run(step, p);
    UnderwayTracked(g, done, q);
    UnderwayTracked(g, done + [step], q);
    match step
    case EnsureStep(t) => EnsureTracked(g, done, p.rec.obj, p.w, t);
    case PruneStep(key) => PruneTracked(g, done, p.rec.obj, p.w, key);
    case NoteStep(note) =>
      NoteTracked(g, done, p, note);
      AddDone(g, done, q.rec.obj, q.w, step);
  }

  /** The steps that are done after a list of steps. */
  function DoneAfter(done: seq<Step>, steps: seq<Step>, p: Pass): seq<Step> { if p.failed then done else done + steps }

  lemma {:induction false} StepsUnderway(g: Goal, done: seq<Step>, p: Pass, steps: seq<Step>)
    requires Underway(g, done, p) && !p.failed && forall i | 0 <= i < |steps| :: Within(g, steps[i])
    ensures var q := RunAll(steps, p); Underway(g, DoneAfter(done, steps, q), q)
    decreases |steps|
  {
    if steps == [] {
      assert done + steps == done;
    } else {
      var q := Run(steps[0], p);
      StepUnderway(g, done, p, steps[0]);
      Unroll(steps, p);
      if !q.failed {
        StepsUnderway(g, done + [steps[0]], q, steps[1..]);
        RegroupDone(g, done, steps, RunAll(steps, p));
      }
    }
  }

  lemma RegroupDone(g: Goal, done: seq<Step>, steps: seq<Step>, r: Pass)
    requires steps != [] && Underway(g, DoneAfter(done + [steps[0]], steps[1..], r), r)
    ensures Underway(g, DoneAfter(done, steps, r), r)
  {
    if r.failed {
      FewerDone(g, done, [steps[0]], r);
    } else {
      assert done + [steps[0]] + steps[1..] == done + steps;
    }
  }

  // ---- Parts of a pass ------------------------------------------------------------------------

  /** The steps are done, unless the pass has failed. */
  ghost predicate Reached(g: Goal, done: seq<Step>, p: Pass) {
    Underway(g, [], p) && (p.failed || Underway(g, done, p))
  }

  lemma UnderwayCopy(g: Goal, done: seq<Step>, p: Pass)
    requires Underway(g, done, p)
    ensures SameWork(g.inst, p.rec.obj) && Alike(g.inst, p.rec.obj)
  {
  }

  lemma ActsReached(g: Goal, h: string, done: seq<Step>, p: Pass, acts: seq<Act>)
    requires Spans(g, h) && Reached(g, done, p) && AllAsked(g.inst.spec, acts)
    ensures var steps := StepsOf(g.inst, h, acts); Reached(g, done + steps, RunAll(steps, p))
  {
    var steps := StepsOf(g.inst, h, acts);
    if !p.failed {
      forall i | 0 <= i < |steps| ensures Within(g, steps[i]) { assert Asked(g.inst.spec, acts[i]); }
      StepsUnderway(g, done, p, steps);
      var q := RunAll(steps, p);
      assert [] + DoneAfter(done, steps, q) == DoneAfter(done, steps, q);
      FewerDone(g, [], DoneAfter(done, steps, q), q);
    }
  }

  lemma PlanReached(g: Goal, h: string, done: seq<Step>, p: Pass, plan: seq<Step>, acts: seq<Act>)
    requires Spans(g, h) && Reached(g, done, p) && AllAsked(g.inst.spec, acts)
    requires plan == StepsOf(p.rec.obj, h, acts)
    ensures Reached(g, done + StepsOf(g.inst, h, acts), RunAll(plan, p))
  {
    UnderwayCopy(g, [], p);
    SameSteps(g.inst, p.rec.obj, h, acts);
    ActsReached(g, h, done, p, acts);
  }

  lemma AccessReached(g: Goal, h: string, p: Pass)
    requires Spans(g, h) && Reached(g, [], p)
    ensures Reached(g, [] + StepsOf(g.inst, h, AccessActs(g.inst.spec)), RunAll(AccessPlan(p.rec.obj), p))
  {
    UnderwayCopy(g, [], p);
    AccessIsActs(p.rec.obj, h);
    PartsAreAsked(g.inst.spec);
    PlanReached(g, h, [], p, AccessPlan(p.rec.obj), AccessActs(g.inst.spec));
  }

  lemma ServingReached(g: Goal, h: string, done: seq<Step>, p: Pass)
    requires Spans(g, h) && Reached(g, done, p)
    ensures Reached(g, done + StepsOf(g.inst, h, ServingActs(g.inst.spec)), RunAll(ServingPlan(p.rec.obj, h), p))
  {
    UnderwayCopy(g, [], p);
    if Replicated(g.inst.spec) {
      ReplicatedIsActs(p.rec.obj, h);
    } else {
      StandaloneIsActs(p.rec.obj, h);
    }
    PartsAreAsked(g.inst.spec);
    PlanReached(g, h, done, p, ServingPlan(p.rec.obj, h), ServingActs(g.inst.spec));
  }

  lemma NetworkReached(g: Goal, h: string, done: seq<Step>, p: Pass)
    requires Spans(g, h) && Reached(g, done, p)
    ensures Reached(g, done + StepsOf(g.inst, h, NetworkActs(g.inst.spec)), RunAll(NetworkPlan(p.rec.obj), p))
  {
    UnderwayCopy(g, [], p);
    NetworkIsActs(p.rec.obj, h);
    PartsAreAsked(g.inst.spec);
    PlanReached(g, h, done, p, NetworkPlan(p.rec.obj), NetworkActs(g.inst.spec));
  }

  lemma AvailabilityReached(g: Goal, h: string, done: seq<Step>, p: Pass)
    requires Spans(g, h) && Reached(g, done, p)
    ensures Reached(g, done + StepsOf(g.inst, h, AvailabilityActs(g.inst.spec)), RunAll(AvailabilityPlan(p.rec.obj), p))
  {
    UnderwayCopy(g, [], p);
    AvailabilityIsActs(p.rec.obj, h);
    PartsAreAsked(g.inst.spec);
    PlanReached(g, h, done, p, AvailabilityPlan(p.rec.obj), AvailabilityActs(g.inst.spec));
  }

  lemma NoteUnderway(g: Goal, done: seq<Step>, p: Pass, note: Note)
    requires Underway(g, done, p)
    ensures Underway(g, done, MarkPass(p, note)) && MarkPass(p, note).failed == p.failed
  {
    UnderwayTracked(g, done, p);
    NoteTracked(g, done, p, note);
    UnderwayTracked(g, done, MarkPass(p, note));
  }

  lemma ReachedAlone(g: Goal, done: seq<Step>, p: Pass)
    requires Underway(g, done, p)
    ensures Underway(g, [], p) && Reached(g, done, p)
  {
    assert [] + done == done;
    FewerDone(g, [], done, p);
  }

  /** The ServiceMonitor is attempted, and what was done stays done. */
  lemma MonitorTargetReached(g: Goal, done: seq<Step>, p: Pass, t: Target)
    requires Underway(g, done, p) && t in g.placed && !p.failed
    ensures Reached(g, done, MonitorTarget(p, t)) && !MonitorTarget(p, t).failed
  {
    StepUnderway(g, done, p, EnsureStep(t));
    var q := EnsureTarget(p, t);
    var r := q.(failed := false);
    UnderwayTracked(g, done, q);
    UnderwayTracked(g, done, r);
    NoteUnderway(g, done, r, if q.failed then MONITOR_MISSING else MONITOR_OK);
    ReachedAlone(g, done, MonitorTarget(p, t));
  }

  lemma WantedWithin(g: Goal, h: string, inst: TlnDB, id: ChildId)
    requires Spans(g, h) && Alike(g.inst, inst) && Wanted(inst.spec, id) && !id.SetChild?
    ensures TargetOf(inst, "", id) in g.placed && TargetOf(inst, "", id) == TargetOf(g.inst, h, id)
  {
    HashOnlyInSets(inst, h, id);
    SameTargets(g.inst, inst, h, id);
  }

  lemma MonitorReached(g: Goal, h: string, done: seq<Step>, p: Pass)
    requires Spans(g, h) && Reached(g, done, p)
    ensures Reached(g, done, Monitor(p))
  {
    UnderwayCopy(g, [], p);
    if !p.failed && Wanted(p.rec.obj.spec, MonitorChild) {
      WantedWithin(g, h, p.rec.obj, MonitorChild);
      MonitorTargetReached(g, done, p, TargetOf(p.rec.obj, "", MonitorChild));
    }
  }

  // ---- Reading the configuration ----------------------------------------------------------------

  function Sighted(g: Goal, h: string, moment: nat): Goal { g.(seen := Some(Sighting(moment, h))) }

  lemma SeeNow(g: Goal, h: string, done: seq<Step>, p: Pass)
    requires Underway(g, done, p) && Configured(g.inst, h, p.w.db.objs)
    ensures Underway(Sighted(g, h, |p.w.log|), done, p)
  {
    var g' := Sighted(g, h, |p.w.log|);
    UnderwayTracked(g, done, p);
    assert Tracked(g', done, p.rec.obj, p.w);
    UnderwayTracked(g', done, p);
  }

  /** After the configuration part: it was seen with digest `h`, unless the pass has failed. */
  ghost predicate Loaded(g: Goal, h: string, done: seq<Step>, p: Pass) {
    if p.failed then Underway(g, [], p) else exists moment: nat :: Underway(Sighted(g, h, moment), done, p)
  }

  lemma {:induction false} DisturbVersioned(w: World, steps: seq<EnvStep>)
    requires Versioned(w.db)
    ensures Versioned(DisturbAll(w, steps).db)
    decreases |steps|
  {
    if steps != [] { DisturbVersioned(Disturb(w, steps[0]), steps[1..]); }
  }

  lemma ArriveVersioned(w: World)
    requires Versioned(w.db)
    ensures Versioned(Arrive(w).0.db)
  {
    if w.schedule != [] { DisturbVersioned(w.(schedule := w.schedule[1..]), w.schedule[0].before); }
  }

  lemma CreateAccomplishes(w: World, author: Spec, t: Target)
    ensures var (w', reply) := Create(w, author, t.key, t.desired); reply.Done? ==> Accomplished(w'.db.objs, t)
  {
    ReconciledIsSettled(t.key.kind, None, t.desired, Arrive(w).0.db.clock);
  }

  lemma UpdateAccomplishes(w: World, author: Spec, t: Target)
    requires Versioned(w.db) && t.key in w.db.objs && Revise(t.key.kind, w.db.objs[t.key].obj, t.desired).Some?
    ensures var next := Revise(t.key.kind, w.db.objs[t.key].obj, t.desired).value;
      var (w', reply) := Update(w, author, t.key, w.db.objs[t.key].rv, next);
      reply.Done? ==> Accomplished(w'.db.objs, t)
  {
    ArriveKeepsVersions(w, t.key);
    ReconciledIsSettled(t.key.kind, Some(w.db.objs[t.key].obj), t.desired, 0);
  }

  /** A create-or-update that reports success has its child in place at that moment. */
  lemma EnsureAccomplishes(w: World, author: Spec, t: Target)
    requires Versioned(w.db) && !Lenient(t.key.kind)
    ensures var (w', ok) := Ensure(w, author, t); ok ==> Accomplished(w'.db.objs, t)
  {
    ArriveVersioned(w);
    var (w1, fetch) := Get(w, t.key);
    if fetch.Missing? {
      CreateAccomplishes(w1, author, t);
    } else if fetch.Found? && Revise(t.key.kind, fetch.value.obj, t.desired).Some? {
      UpdateAccomplishes(w1, author, t);
    }
  }

  lemma LoadRendered(g: Goal, h: string, done: seq<Step>, p: Pass)
    requires Spans(g, h) && Underway(g, done, p) && !p.failed && g.inst.spec.configFrom.None? && h == ConfigHash(g.inst.spec)
    ensures Loaded(g, h, done, LoadConfig(p).0)
  {
    UnderwayCopy(g, done, p);
    WantedWithin(g, h, p.rec.obj, ConfigChild);
    var t := TargetOf(p.rec.obj, "", ConfigChild);
    var q := EnsureTarget(p, t);
    StepUnderway(g, done, p, EnsureStep(t));
    ReachedAlone(g, done, q);
    if !q.failed {
      UnderwayTracked(g, done, p);
      EnsureAccomplishes(p.w, p.rec.obj.spec, t);
      SeeNow(g, h, done, q);
      NoteUnderway(Sighted(g, h, |q.w.log|), done, q, CONFIG_OK);
    }
  }

  lemma LoadReferenced(g: Goal, h: string, done: seq<Step>, p: Pass)
    requires Underway(g, done, p) && !p.failed && g.inst.spec.configFrom.Some?
    requires LoadConfig(p).0.failed || LoadConfig(p).1 == h
    ensures Loaded(g, h, done, LoadConfig(p).0)
  {
    UnderwayCopy(g, done, p);
    UnderwayTracked(g, done, p);
    ArriveTracked(g, done, p.rec.obj, p.w);
    var inst := p.rec.obj;
    var (w, fetch) := Get(p.w, ExternalKey(inst));
    if fetch.Found? {
      var ok := p.(w := w);
      UnderwayTracked(g, done, ok);
      SeeNow(g, h, done, ok);
      NoteUnderway(Sighted(g, h, |w.log|), done, ok, EXTERNAL_OK);
    } else {
      var bad := p.(w := w, failed := true);
      UnderwayTracked(g, done, bad);
      NoteUnderway(g, done, bad, ExternalMissing(inst.spec.configFrom.value));
      ReachedAlone(g, done, LoadConfig(p).0);
    }
  }

  lemma LoadReached(g: Goal, h: string, done: seq<Step>, p: Pass)
    requires Spans(g, h) && Reached(g, done, p) && (g.inst.spec.configFrom.None? ==> h == ConfigHash(g.inst.spec))
    requires LoadConfig(p).0.failed || LoadConfig(p).1 == h
    ensures Loaded(g, h, done, LoadConfig(p).0)
  {
    if p.failed {
    } else if g.inst.spec.configFrom.None? {
      LoadRendered(g, h, done, p);
    } else {
      LoadReferenced(g, h, done, p);
    }
  }

  // ---- The rest ---------------------------------------------------------------------------------

  /** What is done when a pass comes to record its generation. */
  ghost function AllDone(inst: TlnDB, h: string): seq<Step> {
    var spec := inst.spec;
    [] + StepsOf(inst, h, AccessActs(spec)) + StepsOf(inst, h, ServingActs(spec))
    + StepsOf(inst, h, NetworkActs(spec)) + StepsOf(inst, h, AvailabilityActs(spec))
  }

  lemma ServeReached(g: Goal, h: string, done: seq<Step>, p: Pass)
    requires Spans(g, h) && Reached(g, done, p)
    ensures var spec := g.inst.spec;
      Reached(g, done + StepsOf(g.inst, h, ServingActs(spec)) + StepsOf(g.inst, h, NetworkActs(spec))
                 + StepsOf(g.inst, h, AvailabilityActs(spec)), ServeAndMore(p, h))
  {
    var spec := g.inst.spec;
    ServingReached(g, h, done, p);
    var done1 := done + StepsOf(g.inst, h, ServingActs(spec));
    var served := RunAll(ServingPlan(p.rec.obj, h), p);
    NetworkReached(g, h, done1, served);
    var done2 := done1 + StepsOf(g.inst, h, NetworkActs(spec));
    var networked := RunAll(NetworkPlan(served.rec.obj), served);
    MonitorReached(g, h, done2, networked);
    AvailabilityReached(g, h, done2, Monitor(networked));
  }

  // ---- Recording the generation -----------------------------------------------------------------

  lemma ActIsStep(inst: TlnDB, h: string, acts: seq<Act>, act: Act)
    requires act in acts
    ensures StepOf(inst, h, act) in StepsOf(inst, h, acts)
  {
    var i :| 0 <= i < |acts| && acts[i] == act;
    assert StepsOf(inst, h, acts)[i] == StepOf(inst, h, act);
  }

  lemma EveryWantedActed(spec: Spec, id: ChildId)
    requires Wanted(spec, id) && id != MonitorChild && id != ConfigChild
    ensures var act := EnsureAct(id);
      act in AccessActs(spec) || act in ServingActs(spec) || act in NetworkActs(spec) || act in AvailabilityActs(spec)
  {
    EnsuresAreWanted(spec, id);
  }

  lemma WantedIsDone(inst: TlnDB, h: string, id: ChildId)
    requires Wanted(inst.spec, id) && id != MonitorChild && id != ConfigChild
    ensures EnsureStep(TargetOf(inst, h, id)) in AllDone(inst, h)
  {
    var spec, act := inst.spec, EnsureAct(id);
    assert StepOf(inst, h, act) == EnsureStep(TargetOf(inst, h, id));
    EveryWantedActed(spec, id);
    if act in AccessActs(spec) { ActIsStep(inst, h, AccessActs(spec), act); }
    if act in ServingActs(spec) { ActIsStep(inst, h, ServingActs(spec), act); }
    if act in NetworkActs(spec) { ActIsStep(inst, h, NetworkActs(spec), act); }
    if act in AvailabilityActs(spec) { ActIsStep(inst, h, AvailabilityActs(spec), act); }
  }

  lemma PruneIsDone(inst: TlnDB, h: string)
    requires Prunes(inst.spec)
    ensures PruneStep(FollowerKey(inst)) in AllDone(inst, h)
  {
    assert PruneAct in ServingActs(inst.spec) by { assert ServingActs(inst.spec)[2] == PruneAct; }
    ActIsStep(inst, h, ServingActs(inst.spec), PruneAct);
  }

  lemma DoneIsComplete(inst: TlnDB, h: string, objs: Objects)
    requires Effects(objs, AllDone(inst, h))
    ensures Complete(inst, h, objs)
  {
    forall id | Wanted(inst.spec, id) && !id.MonitorChild? && !id.ConfigChild? ensures Accomplished(objs, TargetOf(inst, h, id)) {
      WantedIsDone(inst, h, id);
    }
    if Prunes(inst.spec) { PruneIsDone(inst, h); }
  }

  lemma CompleteAlike(a: TlnDB, b: TlnDB, h: string, objs: Objects)
    requires Alike(a, b) && Complete(a, h, objs)
    ensures Complete(b, h, objs)
  {
    forall id | Wanted(b.spec, id) && !id.MonitorChild? && !id.ConfigChild? ensures Accomplished(objs, TargetOf(b, h, id)) {
      SameTargets(a, b, h, id);
    }
  }

  lemma ConfiguredAlike(a: TlnDB, b: TlnDB, h: string, objs: Objects)
    requires Alike(a, b) && Configured(a, h, objs)
    ensures Configured(b, h, objs)
  {
    SameTargets(a, b, h, ConfigChild);
  }

  /** The server once the generation is recorded. */
  function RecordedDb(copy: TlnDB, managed: seq<string>, now: int, db: Db): Db
    requires db.inst.Some?
  {
    var stored := db.inst.value.obj;
    PutInstance(db, stored.(status := MergeStatus(copy.status, PersistedStatus(copy, managed, now), stored.status)))
  }

  lemma RecordingKeepsSteady(g: Goal, done: seq<Step>, copy: TlnDB, managed: seq<string>, now: int, db: Db)
    requires Steady(g, done, copy, db)
    ensures var after := RecordedDb(copy, managed, now, db);
      Steady(g, done, copy, after) && Alike(g.inst, after.inst.value.obj)
      && (Observes(db, after) ==> NamesGeneration(after.inst.value.obj))
  {
  }

  lemma RecordingIsVouched(g: Goal, h: string, copy: TlnDB, managed: seq<string>, now: int, log: seq<Event>, db: Db)
    requires Steady(g, AllDone(g.inst, h), copy, db) && Seen(g, log, db) && g.seen.Some? && g.seen.value.h == h
    requires Observes(db, RecordedDb(copy, managed, now, db))
    ensures var longer := log + [Event(Some(copy.spec), db, RecordedDb(copy, managed, now, db))];
      VouchedBy(longer, |log|, g.seen.value.moment, h)
  {
    var after, n := RecordedDb(copy, managed, now, db), g.seen.value.moment;
    var longer := log + [Event(Some(copy.spec), db, after)];
    RecordingKeepsSteady(g, AllDone(g.inst, h), copy, managed, now, db);
    DoneIsComplete(g.inst, h, db.objs);
    CompleteAlike(g.inst, after.inst.value.obj, h, after.objs);
    assert longer[n].before == At(log, db, n);
    ConfiguredAlike(g.inst, after.inst.value.obj, h, longer[n].before.objs);
  }

  lemma RecordingIsTruthful(g: Goal, h: string, copy: TlnDB, managed: seq<string>, now: int, log: seq<Event>, db: Db)
    requires Steady(g, AllDone(g.inst, h), copy, db) && Seen(g, log, db) && g.seen.Some? && g.seen.value.h == h
    ensures Truthful(g.first, log + [Event(Some(copy.spec), db, RecordedDb(copy, managed, now, db))], |log|)
  {
    if Observes(db, RecordedDb(copy, managed, now, db)) {
      RecordingIsVouched(g, h, copy, managed, now, log, db);
    }
  }

  lemma PersistUnderway(g: Goal, h: string, p: Pass)
    requires Reached(g, AllDone(g.inst, h), p) && g.seen.Some? && g.seen.value.h == h
    ensures Reached(g, AllDone(g.inst, h), Persist(p))
  {
    if !p.failed {
      var done, copy := AllDone(g.inst, h), p.rec.obj;
      UnderwayTracked(g, done, p);
      ArriveTracked(g, done, copy, p.w);
      var (w1, outcome) := Arrive(p.w);
      RecordingKeepsSteady(g, done, copy, p.managed, p.w.db.clock, w1.db);
      RecordingIsTruthful(g, h, copy, p.managed, p.w.db.clock, w1.log, w1.db);
      RecordTracked(g, done, p, w1, outcome);
    }
  }

  lemma RecordTracked(g: Goal, done: seq<Step>, p: Pass, w1: World, outcome: Outcome)
    requires !p.failed && (w1, outcome) == Arrive(p.w) && Tracked(g, done, p.rec.obj, w1)
    requires var db := RecordedDb(p.rec.obj, p.managed, p.w.db.clock, w1.db);
      Steady(g, done, p.rec.obj, db) && Truthful(g.first, w1.log + [Event(Some(p.rec.obj.spec), w1.db, db)], |w1.log|)
    ensures Reached(g, done, Persist(p))
  {
    var copy := p.rec.obj;
    assert done + [] == done;
    AttemptTracked(g, done, [], copy, w1, RecordedDb(copy, p.managed, p.w.db.clock, w1.db), outcome);
    UnderwayTracked(g, done, Persist(p));
    ReachedAlone(g, done, Persist(p));
  }
}

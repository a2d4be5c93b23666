/**
 Crash and retry: a pass may stop anywhere, with calls failing, conflicting or
 taking effect unseen; a complete pass after it leaves the children that a
 complete pass alone would have left, addresses chosen by the server aside.
 */
module Retry {
  import opened Api
  import opened Common
  import opened Children
  import opened Cluster
  import opened Controller
  import opened Plans
  import opened Calm
  import opened CalmPass
  import opened Convergence
  import opened Fixpoint

  /** Nobody else writes; calls may still end in any way. */
  predicate Undisturbed(w: World) { forall i | 0 <= i < |w.schedule| :: w.schedule[i].before == [] }

  /** When, as an index into the log, a pass saw its configuration, and the digest of what it saw. */
  datatype Sighting = Sighting(moment: nat, h: string)

  /** A pass on `inst` that found the children `start`: what it may place and prune, where its events begin, what it has read. */
  datatype Goal = Goal(inst: TlnDB, start: Objects, placed: set<Target>, pruned: set<Key>, first: nat, seen: Option<Sighting>)

  /** Each key has one fate. */
  ghost predicate Exclusive(g: Goal) {
    (forall t, u | t in g.placed && u in g.placed && t.key == u.key :: t == u)
    && (forall t | t in g.placed :: t.key !in g.pruned)
  }

  /** Under every key, the goal has been reached or not begun. */
  ghost predicate Partially(g: Goal, objs: Objects) {
    (forall t | t in g.placed :: SameAt(g.start, objs, t.key) || Placed(g.start, objs, t))
    && (forall k | k in g.pruned :: SameAt(g.start, objs, k) || k !in objs)
    && (forall k | k !in Touched(g.placed, g.pruned) :: SameAt(g.start, objs, k))
  }

  ghost predicate Midway(g: Goal, db: Db) {
    db.inst.Some? && OnlyStatus(g.inst, db.inst.value.obj) && Partially(g, db.objs)
  }

  /** Every state since the pass began is midway. */
  ghost predicate Traced(g: Goal, w: World) {
    Undisturbed(w) && Midway(g, w.db) && g.first <= |w.log| && forall i | g.first <= i < |w.log| :: Midway(g, w.log[i].after)
  }

  // ---- Stores ---------------------------------------------------------------------------

  /** Placing a target twice is placing it once. */
  lemma PlacedTwice(a: Objects, b: Objects, c: Objects, t: Target)
    requires SameAt(a, b, t.key) || Placed(a, b, t)
    requires Placed(b, c, t)
    ensures Placed(a, c, t)
  {
    if Placed(a, b, t) {
      PlacedIsSettled(a, b, t);
      SettledStays(b, c, t);
    }
  }

  lemma PlaceAgain(g: Goal, b: Objects, c: Objects, t: Target)
    requires Exclusive(g) && Partially(g, b) && t in g.placed
    requires Placed(b, c, t) && forall k | k != t.key :: SameAt(b, c, k)
    ensures Partially(g, c)
  {
    forall u | u in g.placed ensures SameAt(g.start, c, u.key) || Placed(g.start, c, u) {
      if u.key == t.key {
        PlacedTwice(g.start, b, c, t);
      } else {
        assert SameAt(b, c, u.key);
      }
    }
    forall k | k in g.pruned ensures SameAt(g.start, c, k) || k !in c { assert SameAt(b, c, k); }
    forall k | k !in Touched(g.placed, g.pruned) ensures SameAt(g.start, c, k) { assert SameAt(b, c, k); }
  }

  lemma PruneAgain(g: Goal, b: Objects, c: Objects, key: Key)
    requires Exclusive(g) && Partially(g, b) && key in g.pruned
    requires key !in c && forall k | k != key :: SameAt(b, c, k)
    ensures Partially(g, c)
  {
    forall u | u in g.placed ensures SameAt(g.start, c, u.key) || Placed(g.start, c, u) { assert SameAt(b, c, u.key); }
    forall k | k in g.pruned ensures SameAt(g.start, c, k) || k !in c {
      if k != key { assert SameAt(b, c, k); }
    }
    forall k | k !in Touched(g.placed, g.pruned) ensures SameAt(g.start, c, k) { assert SameAt(b, c, k); }
  }

  // ---- Calls ----------------------------------------------------------------------------

  lemma QuietArrival(w: World)
    requires Undisturbed(w)
    ensures var (w', _) := Arrive(w); Undisturbed(w') && w'.db == w.db && w'.log == w.log
  {
  }

  lemma ArrivalTraced(g: Goal, w: World)
    requires Traced(g, w)
    ensures Traced(g, Arrive(w).0) && Arrive(w).0.db == w.db
  {
    QuietArrival(w);
  }

  lemma AttemptTraced(g: Goal, author: Spec, w: World, db: Db, outcome: Outcome)
    requires Traced(g, w) && Midway(g, db)
    ensures Traced(g, Attempt(w, author, db, outcome).0)
  {
  }

  lemma PutTraced(g: Goal, author: Spec, w: World, t: Target, child: Child, outcome: Outcome)
    requires Exclusive(g) && Traced(g, w) && t in g.placed && OfKind(t.key.kind, child.body)
    requires exists address: nat :: child == Reconciled(t.key.kind, Lookup(w.db.objs, t.key), t.desired, address)
    ensures Traced(g, Attempt(w, author, Put(w.db, t.key, child), outcome).0)
  {
    var db := Put(w.db, t.key, child);
    PlaceAgain(g, w.db.objs, db.objs, t);
    AttemptTraced(g, author, w, db, outcome);
  }

  lemma EnsureTraced(g: Goal, author: Spec, w: World, t: Target)
    requires Exclusive(g) && Traced(g, w) && t in g.placed
    ensures Traced(g, Ensure(w, author, t).0)
  {
    var (w1, fetch) := Get(w, t.key);
    ArrivalTraced(g, w);
    match fetch {
      case Unreachable =>
      case Missing =>
        ArrivalTraced(g, w1);
        var (w2, outcome) := Arrive(w1);
        var child := Admit(t.desired, w2.db.clock);
        assert child == Reconciled(t.key.kind, Lookup(w2.db.objs, t.key), t.desired, w2.db.clock);
        PutTraced(g, author, w2, t, child, outcome);
      case Found(stored) =>
        var revised := Revise(t.key.kind, stored.obj, t.desired);
        if revised.Some? {
          ArrivalTraced(g, w1);
          var (w2, outcome) := Arrive(w1);
          var child := Replace(stored.obj, revised.value);
          assert child == Reconciled(t.key.kind, Lookup(w2.db.objs, t.key), t.desired, 0);
          PutTraced(g, author, w2, t, child, outcome);
        }
    }
  }

  lemma DeleteTraced(g: Goal, author: Spec, w: World, key: Key)
    requires Exclusive(g) && Traced(g, w) && key in g.pruned
    ensures Traced(g, DeleteIfExists(w, author, key).0)
  {
    var (w1, fetch) := Get(w, key);
    ArrivalTraced(g, w);
    if fetch.Found? {
      ArrivalTraced(g, w1);
      var (w2, outcome) := Arrive(w1);
      var db := Remove(w2.db, key);
      PruneAgain(g, w2.db.objs, db.objs, key);
      AttemptTraced(g, author, w2, db, outcome);
    }
  }

  lemma PatchTraced(g: Goal, w: World, rec: Record, next: Status)
    requires Traced(g, w) && OnlyStatus(g.inst, rec.obj)
    ensures var (w', rec', _) := PatchStatus(w, rec, next); Traced(g, w') && OnlyStatus(g.inst, rec'.obj)
  {
    var (w1, outcome) := Arrive(w);
    ArrivalTraced(g, w);
    var stored := w1.db.inst.value.obj;
    var db := PutInstance(w1.db, stored.(status := MergeStatus(rec.obj.status, next, stored.status)));
    AttemptTraced(g, rec.obj.spec, w1, db, outcome);
  }

  // ---- Steps ----------------------------------------------------------------------------

  ghost predicate Going(g: Goal, p: Pass) { Traced(g, p.w) && OnlyStatus(g.inst, p.rec.obj) }

  predicate Within(g: Goal, step: Step) {
    match step
    case EnsureStep(t) => t in g.placed
    case PruneStep(key) => key in g.pruned
    case NoteStep(_) => true
  }

  lemma NoteGoing(g: Goal, p: Pass, note: Note)
    requires Going(g, p)
    ensures Going(g, MarkPass(p, note))
  {
    var status := p.rec.obj.status;
    PatchTraced(g, p.w, p.rec, status.(conditions := SetCondition(status.conditions, NoteCondition(p.rec.obj, note, p.w.db.clock))));
  }

  lemma StepGoing(g: Goal, p: Pass, step: Step)
    requires Exclusive(g) && Going(g, p) && Within(g, step)
    ensures Going(g, Run(step, p))
  {
    match step
    case EnsureStep(t) => EnsureTraced(g, p.rec.obj.spec, p.w, t);
    case PruneStep(key) => DeleteTraced(g, p.rec.obj.spec, p.w, key);
    case NoteStep(note) => NoteGoing(g, p, note);
  }

  lemma {:induction false} StepsGoing(g: Goal, p: Pass, steps: seq<Step>)
    requires Exclusive(g) && Going(g, p) && forall i | 0 <= i < |steps| :: Within(g, steps[i])
    ensures Going(g, RunAll(steps, p))
    decreases |steps|
  {
    if steps != [] && !p.failed {
      StepGoing(g, p, steps[0]);
      StepsGoing(g, Run(steps[0], p), steps[1..]);
    }
  }

  // ---- Parts of a pass --------------------------------------------------------------------

  /** The goal is what the spec asks for, with the digest `h`. */
  ghost predicate Spans(g: Goal, h: string) {
    Exclusive(g)
    && (forall id | Wanted(g.inst.spec, id) :: TargetOf(g.inst, h, id) in g.placed)
    && (Prunes(g.inst.spec) ==> FollowerKey(g.inst) in g.pruned)
    && (forall k | k in Touched(g.placed, g.pruned) :: Managed(g.inst, k))
  }

  /** And `h` is the digest of the configuration found at the start. */
  ghost predicate Covers(g: Goal, h: string) {
    Spans(g, h) && Admissible(g.inst, g.start) && h == HashFor(g.inst, g.start)
  }

  predicate Asked(spec: Spec, act: Act) {
    match act
    case EnsureAct(id) => Wanted(spec, id)
    case PruneAct => Prunes(spec)
    case NoteAct(_) => true
  }

  predicate AllAsked(spec: Spec, acts: seq<Act>) { forall i | 0 <= i < |acts| :: Asked(spec, acts[i]) }

  lemma PartsAreAsked(spec: Spec)
    ensures AllAsked(spec, AccessActs(spec)) && AllAsked(spec, ServingActs(spec)) && AllAsked(spec, NetworkActs(spec))
    ensures AllAsked(spec, AvailabilityActs(spec))
  {
  }

  lemma ActsGoing(g: Goal, h: string, p: Pass, inst: TlnDB, acts: seq<Act>)
    requires Covers(g, h) && Going(g, p) && OnlyStatus(g.inst, inst) && AllAsked(g.inst.spec, acts)
    ensures Going(g, RunAll(StepsOf(inst, h, acts), p))
  {
    var steps := StepsOf(inst, h, acts);
    forall i | 0 <= i < |steps| ensures Within(g, steps[i]) {
      assert Asked(g.inst.spec, acts[i]);
      if acts[i].EnsureAct? {
        SameTargets(g.inst, inst, h, acts[i].id);
      }
    }
    StepsGoing(g, p, steps);
  }

  lemma AccessGoing(g: Goal, h: string, p: Pass)
    requires Covers(g, h) && Going(g, p)
    ensures Going(g, RunAll(AccessPlan(p.rec.obj), p))
  {
    AccessIsActs(p.rec.obj, h);
    PartsAreAsked(g.inst.spec);
    ActsGoing(g, h, p, p.rec.obj, AccessActs(g.inst.spec));
  }

  lemma ServingGoing(g: Goal, h: string, p: Pass)
    requires Covers(g, h) && Going(g, p)
    ensures Going(g, RunAll(ServingPlan(p.rec.obj, h), p))
  {
    if Replicated(g.inst.spec) {
      ReplicatedIsActs(p.rec.obj, h);
    } else {
      StandaloneIsActs(p.rec.obj, h);
    }
    PartsAreAsked(g.inst.spec);
    ActsGoing(g, h, p, p.rec.obj, ServingActs(g.inst.spec));
  }

  lemma NetworkGoing(g: Goal, h: string, p: Pass)
    requires Covers(g, h) && Going(g, p)
    ensures Going(g, RunAll(NetworkPlan(p.rec.obj), p))
  {
    NetworkIsActs(p.rec.obj, h);
    PartsAreAsked(g.inst.spec);
    ActsGoing(g, h, p, p.rec.obj, NetworkActs(g.inst.spec));
  }

  lemma AvailabilityGoing(g: Goal, h: string, p: Pass)
    requires Covers(g, h) && Going(g, p)
    ensures Going(g, RunAll(AvailabilityPlan(p.rec.obj), p))
  {
    AvailabilityIsActs(p.rec.obj, h);
    PartsAreAsked(g.inst.spec);
    ActsGoing(g, h, p, p.rec.obj, AvailabilityActs(g.inst.spec));
  }

  lemma WantedTarget(g: Goal, h: string, inst: TlnDB, id: ChildId)
    requires Covers(g, h) && OnlyStatus(g.inst, inst) && Wanted(inst.spec, id) && !id.SetChild?
    ensures TargetOf(inst, "", id) in g.placed
  {
    HashOnlyInSets(inst, h, id);
    SameTargets(g.inst, inst, h, id);
  }

  lemma MonitorTargetGoing(g: Goal, p: Pass, t: Target)
    requires Exclusive(g) && Going(g, p) && t in g.placed
    ensures Going(g, MonitorTarget(p, t))
  {
    var q := EnsureTarget(p, t);
    EnsureTraced(g, p.rec.obj.spec, p.w, t);
    NoteGoing(g, q.(failed := false), if q.failed then MONITOR_MISSING else MONITOR_OK);
  }

  lemma MonitorGoing(g: Goal, h: string, p: Pass)
    requires Covers(g, h) && Going(g, p)
    ensures Going(g, Monitor(p))
  {
    if !p.failed && Wanted(p.rec.obj.spec, MonitorChild) {
      WantedTarget(g, h, p.rec.obj, MonitorChild);
      MonitorTargetGoing(g, p, TargetOf(p.rec.obj, "", MonitorChild));
    }
  }

  lemma LoadExternalGoing(g: Goal, h: string, p: Pass)
    requires Covers(g, h) && Going(g, p) && !p.failed && p.rec.obj.spec.configFrom.Some?
    ensures var (q, h') := LoadConfig(p); Going(g, q) && (q.failed || h' == h)
  {
    var inst := p.rec.obj;
    var (w, fetch) := Get(p.w, ExternalKey(inst));
    ArrivalTraced(g, p.w);
    ExternalUnmanaged(g.inst);
    assert SameAt(g.start, w.db.objs, ExternalKey(inst));
    NoteGoing(g, p.(w := w, failed := true), ExternalMissing(inst.spec.configFrom.value));
    NoteGoing(g, p.(w := w), EXTERNAL_OK);
  }

  lemma LoadGoing(g: Goal, h: string, p: Pass)
    requires Covers(g, h) && Going(g, p)
    ensures var (q, h') := LoadConfig(p); Going(g, q) && (q.failed || h' == h)
  {
    if p.failed {
    } else if p.rec.obj.spec.configFrom.Some? {
      LoadExternalGoing(g, h, p);
    } else {
      var t := TargetOf(p.rec.obj, "", ConfigChild);
      WantedTarget(g, h, p.rec.obj, ConfigChild);
      EnsureTraced(g, p.rec.obj.spec, p.w, t);
      NoteGoing(g, EnsureTarget(p, t), CONFIG_OK);
    }
  }

  lemma FailedStaysFailed(p: Pass, h: string)
    requires p.failed
    ensures ServeAndMore(p, h) == p
  {
  }

  lemma ServeGoing(g: Goal, h: string, p: Pass)
    requires Covers(g, h) && Going(g, p)
    ensures Going(g, ServeAndMore(p, h))
  {
    var served := RunAll(ServingPlan(p.rec.obj, h), p);
    ServingGoing(g, h, p);
    var networked := RunAll(NetworkPlan(served.rec.obj), served);
    NetworkGoing(g, h, served);
    MonitorGoing(g, h, networked);
    AvailabilityGoing(g, h, Monitor(networked));
  }

  lemma PersistGoing(g: Goal, p: Pass)
    requires Going(g, p)
    ensures Going(g, Persist(p))
  {
    PatchTraced(g, p.w, p.rec, PersistedStatus(p.rec.obj, p.managed, p.w.db.clock));
  }

  lemma ResourcesGoing(g: Goal, h: string, w: World, rec: Record)
    requires Covers(g, h) && Going(g, Pass(w, rec, [], false))
    ensures Going(g, ReconcileResources(w, rec))
  {
    var p := Pass(w, rec, [], false);
    AccessGoing(g, h, p);
    var accessed := RunAll(AccessPlan(rec.obj), p);
    LoadGoing(g, h, accessed);
    var (configured, h') := LoadConfig(accessed);
    if configured.failed {
      FailedStaysFailed(configured, h');
    } else {
      ServeGoing(g, h, configured);
      PersistGoing(g, ServeAndMore(configured, h));
    }
  }

  // ---- The whole pass -----------------------------------------------------------------------

  lemma SyncTraced(g: Goal, w: World, rec: Record)
    requires Traced(g, w) && OnlyStatus(g.inst, rec.obj)
    ensures Traced(g, SyncStatus(w, rec).0)
  {
    var (w1, fetch) := Get(w, PrimaryKey(rec.obj));
    ArrivalTraced(g, w);
    if fetch.Found? {
      PatchTraced(g, w1, rec, ObservedStatus(rec.obj, fetch.value.obj.body, w1.db.clock));
    }
  }

  lemma PhaseTraced(g: Goal, w: World, rec: Record, phase: Phase)
    requires Traced(g, w) && OnlyStatus(g.inst, rec.obj)
    ensures var (w', rec', _) := SetPhase(w, rec, phase); Traced(g, w') && OnlyStatus(g.inst, rec'.obj)
  {
    PatchTraced(g, w, rec, rec.obj.status.(phase := phase, lastUpdateTime := Some(w.db.clock)));
  }

  lemma WorkTraced(g: Goal, h: string, w: World, rec: Record)
    requires Covers(g, h) && Traced(g, w) && OnlyStatus(g.inst, rec.obj)
    ensures var p := ReconcileResources(w, rec);
      Traced(g, if p.failed then SetPhase(p.w, p.rec, Failed).0 else SyncStatus(p.w, p.rec).0)
  {
    var p := ReconcileResources(w, rec);
    ResourcesGoing(g, h, w, rec);
    if p.failed {
      PhaseTraced(g, p.w, p.rec, Failed);
    } else {
      SyncTraced(g, p.w, p.rec);
    }
  }

  lemma ActiveTraced(g: Goal, h: string, w: World, rec: Record)
    requires Covers(g, h) && Traced(g, w) && OnlyStatus(g.inst, rec.obj)
    ensures Traced(g, ReconcileActive(w, rec).0)
  {
    if rec.obj.status.phase.Unset? {
      PhaseTraced(g, w, rec, Provisioning);
      var (w1, rec1, ok) := SetPhase(w, rec, Provisioning);
      WorkTraced(g, h, w1, rec1);
    } else {
      WorkTraced(g, h, w, rec);
    }
  }

  lemma PassTraced(g: Goal, h: string, w: World)
    requires Covers(g, h) && Traced(g, w) && Active(g.inst)
    ensures Traced(g, Reconcile(w).0)
  {
    var (w1, fetch) := GetInstance(w);
    ArrivalTraced(g, w);
    if fetch.Found? {
      ActiveTraced(g, h, w1, fetch.value);
    }
  }

  // ---- Retrying -------------------------------------------------------------------------------

  ghost function GoalFor(inst: TlnDB, h: string, objs: Objects, first: nat): Goal {
    var steps := StepsOf(inst, h, AllActs(inst.spec));
    Goal(inst, objs, TargetsOf(steps), PrunedOf(steps), first, None)
  }

  lemma TargetKeys(inst: TlnDB, h: string, t: Target)
    requires t in TargetsOf(StepsOf(inst, h, AllActs(inst.spec)))
    ensures exists id :: Wanted(inst.spec, id) && t == TargetOf(inst, h, id)
  {
    TargetsOfActs(inst, h, AllActs(inst.spec), t);
    var id :| EnsureAct(id) in AllActs(inst.spec) && t == TargetOf(inst, h, id);
    EnsuresAreWanted(inst.spec, id);
  }

  lemma GoalIsExclusive(inst: TlnDB, h: string, objs: Objects, first: nat)
    ensures Exclusive(GoalFor(inst, h, objs, first))
  {
    var steps := StepsOf(inst, h, AllActs(inst.spec));
    PrunedOfActs(inst, h, AllActs(inst.spec));
    PruningIsExact(inst.spec);
    forall t, u | t in TargetsOf(steps) && u in TargetsOf(steps) && t.key == u.key ensures t == u {
      TargetKeys(inst, h, t);
      TargetKeys(inst, h, u);
      var i :| Wanted(inst.spec, i) && t == TargetOf(inst, h, i);
      var j :| Wanted(inst.spec, j) && u == TargetOf(inst, h, j);
      if i != j { WantedKeysDiffer(inst, i, j); }
    }
    forall t | t in TargetsOf(steps) ensures t.key !in PrunedOf(steps) {
      TargetKeys(inst, h, t);
      var i :| Wanted(inst.spec, i) && t == TargetOf(inst, h, i);
      if Prunes(inst.spec) { PrunedKeyUnwanted(inst, i); }
    }
  }

  lemma GoalSpans(inst: TlnDB, h: string, objs: Objects, first: nat)
    ensures Spans(GoalFor(inst, h, objs, first), h)
  {
    var g := GoalFor(inst, h, objs, first);
    GoalIsExclusive(inst, h, objs, first);
    forall id | Wanted(inst.spec, id) ensures TargetOf(inst, h, id) in g.placed {
      EnsuresAreWanted(inst.spec, id);
      TargetsOfActs(inst, h, AllActs(inst.spec), TargetOf(inst, h, id));
    }
    PrunedOfActs(inst, h, AllActs(inst.spec));
    PruningIsExact(inst.spec);
    forall k | k in Touched(g.placed, g.pruned) ensures Managed(inst, k) { TouchedIsManaged(inst, h, k); }
  }

  /** Where a pass from `w` can stop: before its first write or after any later one. */
  ghost predicate CanStopAt(w: World, db: Db) {
    var after := Reconcile(w).0;
    db == w.db || exists i | |w.log| <= i < |after.log| :: after.log[i].after == db
  }

  lemma StopsMidway(w: World, db: Db)
    requires Undisturbed(w) && w.db.inst.Some? && Active(w.db.inst.value.obj)
    requires Admissible(w.db.inst.value.obj, w.db.objs) && CanStopAt(w, db)
    ensures var inst := w.db.inst.value.obj; Midway(GoalFor(inst, HashFor(inst, w.db.objs), w.db.objs, |w.log|), db)
  {
    var inst := w.db.inst.value.obj;
    var h := HashFor(inst, w.db.objs);
    var g := GoalFor(inst, h, w.db.objs, |w.log|);
    GoalSpans(inst, h, w.db.objs, |w.log|);
    StartsTraced(g, w);
    PassTraced(g, h, w);
    TracedStop(g, w, Reconcile(w).0, db);
  }

  lemma StartsTraced(g: Goal, w: World)
    requires Undisturbed(w) && w.db.inst.Some? && g.inst == w.db.inst.value.obj && g.start == w.db.objs && g.first == |w.log|
    ensures Traced(g, w)
  {
  }

  lemma TracedStop(g: Goal, w: World, after: World, db: Db)
    requires Traced(g, w) && Traced(g, after) && g.first == |w.log|
    requires db == w.db || exists i | |w.log| <= i < |after.log| :: after.log[i].after == db
    ensures Midway(g, db)
  {
  }

  /** A complete pass from a midway state ends where one from the start ends. */
  lemma CompletedFrom(inst: TlnDB, h: string, g: Goal, b: Objects, c: Objects)
    requires Covers(g, h) && inst == g.inst && Partially(g, b) && ChildrenAfter(inst, h, b, c)
    ensures ChildrenAfter(inst, h, g.start, c)
  {
    forall id | Wanted(inst.spec, id) ensures Placed(g.start, c, TargetOf(inst, h, id)) {
      PlacedTwice(g.start, b, c, TargetOf(inst, h, id));
    }
    forall k | !Managed(inst, k) ensures SameAt(g.start, c, k) {
      assert SameAt(g.start, b, k) && SameAt(b, c, k);
    }
  }

  function Calmed(db: Db): World { World(db, [], []) }

  lemma RetryCompletes(w: World, db: Db)
    requires Undisturbed(w) && w.db.inst.Some? && Active(w.db.inst.value.obj)
    requires Admissible(w.db.inst.value.obj, w.db.objs) && CanStopAt(w, db)
    ensures var inst := w.db.inst.value.obj;
      ChildrenAfter(inst, HashFor(inst, w.db.objs), w.db.objs, Reconcile(Calmed(db)).0.db.objs)
  {
    var inst := w.db.inst.value.obj;
    var h := HashFor(inst, w.db.objs);
    StopsMidway(w, db);
    MidwayCompletes(inst, h, w.db.objs, |w.log|, db);
  }

  lemma MidwayHash(inst: TlnDB, h: string, a: Objects, first: nat, db: Db)
    requires Admissible(inst, a) && h == HashFor(inst, a) && Midway(GoalFor(inst, h, a, first), db)
    ensures var stored := db.inst.value.obj; Admissible(stored, db.objs) && HashFor(stored, db.objs) == h
  {
    if inst.spec.configFrom.Some? {
      GoalSpans(inst, h, a, first);
      ExternalUnmanaged(inst);
      assert SameAt(a, db.objs, ExternalKey(inst));
    }
  }

  lemma MidwayCompletes(inst: TlnDB, h: string, a: Objects, first: nat, db: Db)
    requires Active(inst) && Admissible(inst, a) && h == HashFor(inst, a) && Midway(GoalFor(inst, h, a, first), db)
    ensures ChildrenAfter(inst, h, a, Reconcile(Calmed(db)).0.db.objs)
  {
    var g := GoalFor(inst, h, a, first);
    var c := Reconcile(Calmed(db)).0.db.objs;
    MidwayHash(inst, h, a, first, db);
    CalmReconcile(Calmed(db));
    SameChildrenAfter(inst, db.inst.value.obj, h, db.objs, c);
    GoalSpans(inst, h, a, first);
    CompletedFrom(inst, h, g, db.objs, c);
  }

  // ---- Equal up to the address -----------------------------------------------------------------

  /** A child without the address the server chose for it. */
  function Unaddressed(child: Child): Child {
    if child.body.ServiceBody? && child.body.svc.clusterIp.Assigned? then
      child.(body := ServiceBody(child.body.svc.(clusterIp := Unassigned)))
    else child
  }

  ghost predicate SameUnaddressed(a: Objects, b: Objects, k: Key) {
    (k in a <==> k in b) && (k in a ==> Unaddressed(a[k].obj) == Unaddressed(b[k].obj))
  }

  lemma PlacedAlike(a: Objects, b: Objects, c: Objects, t: Target)
    requires Placed(a, b, t) && Placed(a, c, t)
    ensures SameUnaddressed(b, c, t.key)
  {
  }

  lemma AfterAlike(inst: TlnDB, h: string, a: Objects, b: Objects, c: Objects)
    requires ChildrenAfter(inst, h, a, b) && ChildrenAfter(inst, h, a, c)
    ensures forall k :: SameUnaddressed(b, c, k)
  {
    forall k ensures SameUnaddressed(b, c, k) {
      if Managed(inst, k) {
        if !(Prunes(inst.spec) && k == FollowerKey(inst)) {
          var id :| Wanted(inst.spec, id) && KeyOf(inst, id) == k;
          PlacedAlike(a, b, c, TargetOf(inst, h, id));
        }
      } else {
        assert SameAt(a, b, k) && SameAt(a, c, k);
      }
    }
  }

  /** Wherever a faulty pass stops, a complete pass then leaves what a complete pass alone leaves. */
  lemma CrashRetry(w: World, db: Db)
    requires Undisturbed(w) && w.db.inst.Some? && Active(w.db.inst.value.obj)
    requires Admissible(w.db.inst.value.obj, w.db.objs) && CanStopAt(w, db)
    ensures forall k :: SameUnaddressed(Reconcile(Calmed(w.db)).0.db.objs, Reconcile(Calmed(db)).0.db.objs, k)
  {
    var inst := w.db.inst.value.obj;
    var h := HashFor(inst, w.db.objs);
    CalmReconcile(Calmed(w.db));
    RetryCompletes(w, db);
    AfterAlike(inst, h, w.db.objs, Reconcile(Calmed(w.db)).0.db.objs, Reconcile(Calmed(db)).0.db.objs);
  }
}

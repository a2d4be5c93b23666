/**
 Whole passes and whole runs: every pass keeps the invariants, so every run of
 passes, faults and interference does.
 */
module Runs {
  import opened Api
  import opened Common
  import opened Children
  import opened Cluster
  import opened Controller
  import opened Invariants
  import opened Safety

  // ---- The plans fit ------------------------------------------------------------

  ghost predicate Own(s: Scope, inst: TlnDB) {
    inst.name == s.name && inst.namespace == s.namespace && SpecOk(s, inst.spec)
  }

  lemma TargetFits(s: Scope, inst: TlnDB, configHash: string, id: ChildId)
    requires Own(s, inst)
    requires id.SetChild? ==> RoleFits(id.role, inst.spec) && (s.steady ==> configHash == ConfigHash(inst.spec))
    ensures TargetOk(s, inst.spec, TargetOf(inst, configHash, id))
  {
    KeyInFootprint(inst, id);
    if id.SetChild? {
      assert BuiltBy(s, TargetOf(inst, configHash, id), id.role, Source(inst, configHash));
    }
  }

  lemma AccessFits(s: Scope, inst: TlnDB)
    requires Own(s, inst)
    ensures PlanFits(s, inst.spec, AccessPlan(inst))
  {
    TargetFits(s, inst, "", AccountChild);
    TargetFits(s, inst, "", RoleChild);
    TargetFits(s, inst, "", BindingChild);
  }

  lemma EnsureFits(s: Scope, inst: TlnDB, configHash: string, id: ChildId)
    requires Own(s, inst)
    requires id.SetChild? ==> RoleFits(id.role, inst.spec) && (s.steady ==> configHash == ConfigHash(inst.spec))
    ensures StepFits(s, inst.spec, EnsureOf(inst, configHash, id))
  {
    TargetFits(s, inst, configHash, id);
  }

  lemma FollowerFits(s: Scope, inst: TlnDB, configHash: string)
    requires Own(s, inst) && (s.steady ==> configHash == ConfigHash(inst.spec))
    requires Replicated(inst.spec)
    ensures StepFits(s, inst.spec, FollowerStep(inst, configHash))
  {
    if inst.spec.readReplicas > 0 { EnsureFits(s, inst, configHash, SetChild(Follower)); }
    KeyInFootprint(inst, SetChild(Follower));
  }

  lemma SixFit(s: Scope, spec: Spec, a: Step, b: Step, c: Step, d: Step, e: Step, f: Step)
    requires StepFits(s, spec, a) && StepFits(s, spec, b) && StepFits(s, spec, c) && StepFits(s, spec, d) && StepFits(s, spec, e) && StepFits(s, spec, f)
    requires !a.NoteStep? && !b.NoteStep? && !c.NoteStep? && !d.NoteStep? && !e.NoteStep?
    ensures PlanFits(s, spec, [a, b, c, d, e, f])
  {
  }

  lemma ReplicatedFits(s: Scope, inst: TlnDB, configHash: string)
    requires Own(s, inst) && (s.steady ==> configHash == ConfigHash(inst.spec))
    requires Replicated(inst.spec)
    ensures PlanFits(s, inst.spec, ReplicatedPlan(inst, configHash))
  {
    EnsureFits(s, inst, "", HeadlessChild);
    EnsureFits(s, inst, configHash, SetChild(Leader));
    FollowerFits(s, inst, configHash);
    EnsureFits(s, inst, "", WriteChild);
    EnsureFits(s, inst, "", ReadChild);
    SixFit(s, inst.spec, EnsureOf(inst, "", HeadlessChild), EnsureOf(inst, configHash, SetChild(Leader)), FollowerStep(inst, configHash),
           EnsureOf(inst, "", WriteChild), EnsureOf(inst, "", ReadChild), NoteStep(SERVICES_OK));
  }

  lemma StandaloneFits(s: Scope, inst: TlnDB, configHash: string)
    requires Own(s, inst) && (s.steady ==> configHash == ConfigHash(inst.spec))
    requires !Replicated(inst.spec)
    ensures PlanFits(s, inst.spec, StandalonePlan(inst, configHash))
  {
    TargetFits(s, inst, "", HeadlessChild);
    TargetFits(s, inst, configHash, SetChild(Standalone));
    TargetFits(s, inst, "", ClientChild);
  }

  lemma OptionalFits(s: Scope, inst: TlnDB)
    requires Own(s, inst)
    ensures PlanFits(s, inst.spec, NetworkPlan(inst)) && PlanFits(s, inst.spec, AvailabilityPlan(inst))
  {
    TargetFits(s, inst, "", IngressChild);
    TargetFits(s, inst, "", PolicyChild);
    TargetFits(s, inst, "", BudgetChild);
    TargetFits(s, inst, "", ScalerChild);
  }

  // ---- The parts of a pass --------------------------------------------------------

  lemma LoadExternalKeeps(s: Scope, p: Pass, name: string)
    requires PassOk(s, p)
    ensures PassOk(s, LoadExternal(p, name).0)
  {
    ArriveKeeps(s, Working, p.rec, p.w);
    var (w, fetch) := Get(p.w, Key(ConfigMap, p.rec.obj.namespace, name));
    if fetch.Missing? {
      MarkKeeps(s, p.rec, w, ExternalMissing(name));
    } else if fetch.Found? {
      MarkKeeps(s, p.rec, w, EXTERNAL_OK);
    }
  }

  /** In a steady run the digest is that of the spec the pass goes on with. */
  lemma LoadConfigKeeps(s: Scope, p: Pass)
    requires PassOk(s, p)
    ensures var (q, h) := LoadConfig(p);
      PassOk(s, q) && (s.steady && !q.failed ==> h == ConfigHash(q.rec.obj.spec))
  {
    if p.failed {
    } else if p.rec.obj.spec.configFrom.Some? {
      LoadExternalKeeps(s, p, p.rec.obj.spec.configFrom.value);
    } else {
      var t := TargetOf(p.rec.obj, "", ConfigChild);
      TargetFits(s, p.rec.obj, "", ConfigChild);
      EnsureKeeps(s, p.rec, p.w, t);
      var q := EnsureTarget(p, t);
      MarkKeeps(s, q.rec, q.w, CONFIG_OK);
    }
  }

  lemma MonitorKeeps(s: Scope, p: Pass, t: Target)
    requires PassOk(s, p) && TargetOk(s, p.rec.obj.spec, t)
    ensures PassOk(s, MonitorTarget(p, t))
  {
    EnsureKeeps(s, p.rec, p.w, t);
    var q := EnsureTarget(p, t);
    MarkKeeps(s, q.rec, q.w, MONITOR_MISSING);
    MarkKeeps(s, q.rec, q.w, MONITOR_OK);
  }

  lemma PersistKeeps(s: Scope, p: Pass)
    requires PassOk(s, p)
    ensures PassOk(s, Persist(p))
  {
    if !p.failed {
      PatchKeeps(s, p.rec, p.w, PersistedStatus(p.rec.obj, p.managed, p.w.db.clock));
    }
  }

  lemma ServingKeeps(s: Scope, p: Pass, h: string)
    requires PassOk(s, p) && (s.steady && !p.failed ==> h == ConfigHash(p.rec.obj.spec))
    ensures PassOk(s, RunAll(ServingPlan(p.rec.obj, h), p))
  {
    if !p.failed {
      if Replicated(p.rec.obj.spec) { ReplicatedFits(s, p.rec.obj, h); } else { StandaloneFits(s, p.rec.obj, h); }
      PlanKeeps(s, ServingPlan(p.rec.obj, h), p);
    }
  }

  lemma NetworkKeeps(s: Scope, p: Pass)
    requires PassOk(s, p)
    ensures PassOk(s, RunAll(NetworkPlan(p.rec.obj), p)) && PassOk(s, RunAll(AvailabilityPlan(p.rec.obj), p))
  {
    OptionalFits(s, p.rec.obj);
    PlanKeeps(s, NetworkPlan(p.rec.obj), p);
    PlanKeeps(s, AvailabilityPlan(p.rec.obj), p);
  }

  lemma MonitorPartKeeps(s: Scope, p: Pass)
    requires PassOk(s, p)
    ensures PassOk(s, Monitor(p))
  {
    TargetFits(s, p.rec.obj, "", MonitorChild);
    if !p.failed && Wanted(p.rec.obj.spec, MonitorChild) {
      MonitorKeeps(s, p, TargetOf(p.rec.obj, "", MonitorChild));
    }
  }

  lemma ServeAndMoreKeeps(s: Scope, p: Pass, h: string)
    requires PassOk(s, p) && (s.steady && !p.failed ==> h == ConfigHash(p.rec.obj.spec))
    ensures PassOk(s, ServeAndMore(p, h))
  {
    ServingKeeps(s, p, h);
    var served := RunAll(ServingPlan(p.rec.obj, h), p);
    NetworkKeeps(s, served);
    var networked := RunAll(NetworkPlan(served.rec.obj), served);
    MonitorPartKeeps(s, networked);
    NetworkKeeps(s, Monitor(networked));
  }

  lemma ResourcesKeep(s: Scope, w: World, rec: Record)
    requires WorldOk(s, w) && Relies(s, Working, rec, w.db)
    ensures PassOk(s, ReconcileResources(w, rec))
  {
    var start := Pass(w, rec, [], false);
    AccessFits(s, rec.obj);
    PlanKeeps(s, AccessPlan(rec.obj), start);
    var accessed := RunAll(AccessPlan(rec.obj), start);
    LoadConfigKeeps(s, accessed);
    var (configured, h) := LoadConfig(accessed);
    ServeAndMoreKeeps(s, configured, h);
    PersistKeeps(s, ServeAndMore(configured, h));
  }

  // ---- The three kinds of pass ------------------------------------------------------

  lemma WorkKeeps(s: Scope, w: World, rec: Record)
    requires WorldOk(s, w) && Relies(s, Working, rec, w.db)
    ensures var p := ReconcileResources(w, rec);
      Safe(s, if p.failed then SetPhase(p.w, p.rec, Failed).0 else SyncStatus(p.w, p.rec).0)
  {
    var p := ReconcileResources(w, rec);
    ResourcesKeep(s, w, rec);
    if p.failed {
      FailedPhaseKeeps(s, p.rec, p.w);
    } else {
      SyncKeeps(s, p.rec, p.w);
    }
  }

  lemma ActiveKeeps(s: Scope, w: World, rec: Record)
    requires WorldOk(s, w) && Relies(s, Working, rec, w.db)
    ensures Safe(s, ReconcileActive(w, rec).0)
  {
    if rec.obj.status.phase.Unset? {
      FirstPhaseKeeps(s, rec, w);
      var (w1, rec1, ok) := SetPhase(w, rec, Provisioning);
      WorkKeeps(s, w1, rec1);
    } else {
      WorkKeeps(s, w, rec);
    }
  }

  lemma InstanceAttemptKeeps(s: Scope, author: Spec, w: World, db: Db, outcome: Outcome)
    requires WorldOk(s, w) && EventOk(s, Event(Some(author), w.db, db))
    ensures WorldOk(s, Attempt(w, author, db, outcome).0)
  {
    LogSnoc(s, w.log, Event(Some(author), w.db, db));
  }

  lemma UpdateInstanceKeeps(s: Scope, mode: Mode, rec: Record, w: World)
    requires WorldOk(s, w) && Relies(s, mode, rec, w.db)
    ensures WorldOk(s, UpdateInstance(w, rec).0)
  {
    ArriveKeeps(s, mode, rec, w);
    var (w1, outcome) := Arrive(w);
    if w1.db.inst.Some? && w1.db.inst.value.rv == rec.rv {
      var stored := w1.db.inst.value.obj;
      var next := stored.(finalizers := rec.obj.finalizers, spec := rec.obj.spec);
      if next.deleting && next.finalizers == {} {
        InstanceGoneOk(s, rec.obj.spec, w1.db);
        InstanceAttemptKeeps(s, rec.obj.spec, w1, w1.db.(inst := None), outcome);
      } else {
        InstanceWriteOk(s, rec.obj.spec, w1.db, next);
        InstanceAttemptKeeps(s, rec.obj.spec, w1, PutInstance(w1.db, next), outcome);
      }
    }
  }

  lemma InstanceGoneOk(s: Scope, author: Spec, db: Db)
    requires DbOk(s, db)
    ensures EventOk(s, Event(Some(author), db, db.(inst := None)))
  {
  }

  lemma TerminatingOk(s: Scope, rec: Record, w: World, next: Status)
    requires WorldOk(s, w) && Relies(s, Ending, rec, w.db)
    requires next.phase.Terminating? && next == rec.obj.status.(phase := Terminating, lastUpdateTime := next.lastUpdateTime)
    ensures WorldOk(s, PatchStatus(w, rec, next).0)
  {
    ArriveKeeps(s, Ending, rec, w);
    var (w1, outcome) := Arrive(w);
    if w1.db.inst.Some? {
      var stored := w1.db.inst.value.obj;
      var after := stored.(status := MergeStatus(rec.obj.status, next, stored.status));
      InstanceWriteOk(s, rec.obj.spec, w1.db, after);
      InstanceAttemptKeeps(s, rec.obj.spec, w1, PutInstance(w1.db, after), outcome);
    }
  }

  lemma TerminatingRelies(s: Scope, rec: Record, w: World, next: Status)
    requires WorldOk(s, w) && Relies(s, Ending, rec, w.db)
    ensures var (w', rec', _) := PatchStatus(w, rec, next); Relies(s, Ending, rec', w'.db)
  {
    ArriveKeeps(s, Ending, rec, w);
  }

  lemma DeletionKeeps(s: Scope, w: World, rec: Record)
    requires WorldOk(s, w) && Relies(s, Ending, rec, w.db)
    ensures WorldOk(s, ReconcileDeletion(w, rec).0)
  {
    if FINALIZER in rec.obj.finalizers {
      var next := rec.obj.status.(phase := Terminating, lastUpdateTime := Some(w.db.clock));
      TerminatingOk(s, rec, w, next);
      TerminatingRelies(s, rec, w, next);
      var (w1, rec1, ok) := SetPhase(w, rec, Terminating);
      UpdateInstanceKeeps(s, Ending, rec1.(obj := rec1.obj.(finalizers := rec1.obj.finalizers - {FINALIZER})), w1);
    }
  }

  // ---- Passes and runs ----------------------------------------------------------------

  lemma {:induction false} EnvironmentKeeps(s: Scope, w: World, steps: seq<EnvStep>)
    requires WorldOk(s, w) && forall i | 0 <= i < |steps| :: StepOk(s, steps[i])
    ensures WorldOk(s, DisturbAll(w, steps)) && DisturbAll(w, steps).schedule == w.schedule
    decreases |steps|
  {
    if steps != [] {
      EnvKeeps(s, w.db, steps[0]);
      LogSnoc(s, w.log, Event(None, w.db, ApplyEnv(w.db, steps[0])));
      EnvironmentKeeps(s, Disturb(w, steps[0]), steps[1..]);
    }
  }

  lemma FirstCallKeeps(s: Scope, w: World)
    requires WorldOk(s, w)
    ensures WorldOk(s, Arrive(w).0)
  {
    if w.schedule != [] {
      assert TickOk(s, w.schedule[0]);
      EnvironmentKeeps(s, w.(schedule := w.schedule[1..]), w.schedule[0].before);
    }
  }

  /** Every pass, under every schedule, produces allowed events only. */
  lemma PassIsSafe(s: Scope, w: World)
    requires WorldOk(s, w)
    ensures WorldOk(s, Reconcile(w).0)
  {
    FirstCallKeeps(s, w);
    var (w1, fetch) := GetInstance(w);
    if fetch.Found? {
      var rec := fetch.value;
      if rec.obj.deleting {
        DeletionKeeps(s, w1, rec);
      } else if FINALIZER !in rec.obj.finalizers {
        UpdateInstanceKeeps(s, Holding, rec.(obj := rec.obj.(finalizers := rec.obj.finalizers + {FINALIZER})), w1);
      } else {
        ActiveKeeps(s, w1, rec);
      }
    }
  }

  /** Passes are serial; between two of them others act freely. */
  datatype Item = PassItem(schedule: seq<Tick>) | EnvItem(steps: seq<EnvStep>)

  predicate ItemOk(s: Scope, item: Item) {
    match item
    case PassItem(schedule) => ScheduleOk(s, schedule)
    case EnvItem(steps) => forall i | 0 <= i < |steps| :: StepOk(s, steps[i])
  }

  ghost function Perform(w: World, item: Item): World {
    match item
    case PassItem(schedule) => Reconcile(w.(schedule := schedule)).0.(schedule := [])
    case EnvItem(steps) => DisturbAll(w.(schedule := []), steps)
  }

  ghost function Execute(w: World, items: seq<Item>): World
    decreases |items|
  {
    if items == [] then w else Execute(Perform(w, items[0]), items[1..])
  }

  /**
   Every event of every run is allowed: immutable fields stay, children are written
   only under the finalizer and only in the footprint, the stored status is coherent
   after every call, generations are observed truthfully in order, Terminating stays,
   and every set has a provenance.
   */
  lemma {:induction false} RunIsSafe(s: Scope, w: World, items: seq<Item>)
    requires WorldOk(s, w) && forall i | 0 <= i < |items| :: ItemOk(s, items[i])
    ensures WorldOk(s, Execute(w, items))
    decreases |items|
  {
    if items != [] {
      match items[0]
      case PassItem(schedule) =>
        PassIsSafe(s, w.(schedule := schedule));
        RunIsSafe(s, Perform(w, items[0]), items[1..]);
      case EnvItem(steps) =>
        EnvironmentKeeps(s, w.(schedule := []), steps);
        RunIsSafe(s, Perform(w, items[0]), items[1..]);
    }
  }
}

/**
 A pass that nothing disturbs runs all its acts: `reconcileResources` as one list
 of steps, with the notes it leaves in the status.
 */
module CalmPass {
  import opened Api
  import opened Common
  import opened Hashing
  import opened Children
  import opened Cluster
  import opened Controller
  import opened Plans
  import opened Calm
  import opened Ordering

  function ExternalKey(inst: TlnDB): Key
    requires inst.spec.configFrom.Some?
  {
    Key(ConfigMap, inst.namespace, inst.spec.configFrom.value)
  }

  /** A referenced ConfigMap exists. */
  predicate Admissible(inst: TlnDB, objs: Objects) { inst.spec.configFrom.Some? ==> ExternalKey(inst) in objs }

  /** The digest a pass stamps on the pod templates. */
  ghost function HashFor(inst: TlnDB, objs: Objects): string
    requires Admissible(inst, objs)
  {
    if inst.spec.configFrom.Some? then Digest(objs[ExternalKey(inst)].obj.body.data) else ConfigHash(inst.spec)
  }

  // ---- Calm lists keep the copy up to date ------------------------------------------

  lemma CalmRunStep(step: Step, p: Pass)
    requires IsCalm(p)
    ensures IsCalm(Run(step, p)) && OnlyConditions(p.rec.obj, Run(step, p).rec.obj)
  {
    match step
    case EnsureStep(t) => CalmEnsure(p, t);
    case PruneStep(k) => CalmPrune(p, k);
    case NoteStep(note) => CalmNote(p, note);
  }

  lemma {:induction false} CalmRunAll(steps: seq<Step>, p: Pass)
    requires IsCalm(p)
    ensures IsCalm(RunAll(steps, p)) && OnlyConditions(p.rec.obj, RunAll(steps, p).rec.obj)
    decreases |steps|
  {
    if steps != [] {
      CalmRunStep(steps[0], p);
      CalmRunAll(steps[1..], Run(steps[0], p));
    }
  }

  /** The builders read nothing but these. */
  predicate Alike(a: TlnDB, b: TlnDB) { a.name == b.name && a.namespace == b.namespace && a.uid == b.uid && a.spec == b.spec }

  lemma SameTargets(a: TlnDB, b: TlnDB, h: string, id: ChildId)
    requires Alike(a, b)
    ensures TargetOf(a, h, id) == TargetOf(b, h, id)
  {
  }

  lemma SameSteps(a: TlnDB, b: TlnDB, h: string, acts: seq<Act>)
    requires Alike(a, b)
    ensures StepsOf(a, h, acts) == StepsOf(b, h, acts)
  {
    forall i | 0 <= i < |acts| ensures StepOf(a, h, acts[i]) == StepOf(b, h, acts[i]) {
      if acts[i].EnsureAct? {
        SameTargets(a, b, h, acts[i].id);
      }
    }
  }

  lemma StepsOfConcat(inst: TlnDB, h: string, a: seq<Act>, b: seq<Act>)
    ensures StepsOf(inst, h, a + b) == StepsOf(inst, h, a) + StepsOf(inst, h, b)
  {
  }

  // ---- Part by part -----------------------------------------------------------------

  /** A pass on `inst` is between two of its parts. */
  predicate On(inst: TlnDB, p: Pass) { IsCalm(p) && OnlyConditions(inst, p.rec.obj) }

  lemma RunActs(inst: TlnDB, h: string, acts: seq<Act>, p: Pass)
    requires On(inst, p)
    ensures On(inst, RunAll(StepsOf(inst, h, acts), p))
  {
    CalmRunAll(StepsOf(inst, h, acts), p);
  }

  lemma CalmServing(inst: TlnDB, h: string, p: Pass)
    requires On(inst, p)
    ensures RunAll(ServingPlan(p.rec.obj, h), p) == RunAll(StepsOf(inst, h, ServingActs(inst.spec)), p)
  {
    SameSteps(inst, p.rec.obj, h, ServingActs(inst.spec));
    if Replicated(inst.spec) {
      ReplicatedIsActs(p.rec.obj, h);
    } else {
      StandaloneIsActs(p.rec.obj, h);
    }
  }

  lemma CalmNetwork(inst: TlnDB, h: string, p: Pass)
    requires On(inst, p)
    ensures RunAll(NetworkPlan(p.rec.obj), p) == RunAll(StepsOf(inst, h, NetworkActs(inst.spec)), p)
  {
    SameSteps(inst, p.rec.obj, h, NetworkActs(inst.spec));
    NetworkIsActs(p.rec.obj, h);
  }

  lemma CalmAvailability(inst: TlnDB, h: string, p: Pass)
    requires On(inst, p)
    ensures RunAll(AvailabilityPlan(p.rec.obj), p) == RunAll(StepsOf(inst, h, AvailabilityActs(inst.spec)), p)
  {
    SameSteps(inst, p.rec.obj, h, AvailabilityActs(inst.spec));
    AvailabilityIsActs(p.rec.obj, h);
  }

  lemma RunTwo(t: Target, note: Note, p: Pass)
    requires IsCalm(p)
    ensures RunAll([EnsureStep(t), NoteStep(note)], p) == MarkPass(EnsureTarget(p, t), note)
  {
    var steps := [EnsureStep(t), NoteStep(note)];
    CalmEnsure(p, t);
    Unroll(steps, p);
    Unroll(steps[1..], EnsureTarget(p, t));
  }

  lemma StepsOfTwo(inst: TlnDB, h: string, id: ChildId, note: Note)
    requires !id.SetChild?
    ensures StepsOf(inst, h, [EnsureAct(id), NoteAct(note)]) == [EnsureStep(TargetOf(inst, "", id)), NoteStep(note)]
  {
    HashOnlyInSets(inst, h, id);
  }

  lemma CalmMonitorTarget(t: Target, p: Pass)
    requires IsCalm(p)
    ensures MonitorTarget(p, t) == RunAll([EnsureStep(t), NoteStep(MONITOR_OK)], p)
  {
    CalmEnsure(p, t);
    RunTwo(t, MONITOR_OK, p);
    assert EnsureTarget(p, t).(failed := false) == EnsureTarget(p, t);
  }

  lemma CalmMonitor(inst: TlnDB, h: string, p: Pass)
    requires On(inst, p)
    ensures Monitor(p) == RunAll(StepsOf(inst, h, MonitorActs(inst.spec)), p)
  {
    if Wanted(inst.spec, MonitorChild) {
      StepsOfTwo(inst, h, MonitorChild, MONITOR_OK);
      SameTargets(inst, p.rec.obj, "", MonitorChild);
      CalmMonitorTarget(TargetOf(inst, "", MonitorChild), p);
    }
  }

  lemma CalmLoadRendered(inst: TlnDB, p: Pass)
    requires On(inst, p) && inst.spec.configFrom.None?
    ensures LoadConfig(p) == (RunAll(StepsOf(inst, ConfigHash(inst.spec), ConfigActs(inst.spec)), p), ConfigHash(inst.spec))
  {
    StepsOfTwo(inst, ConfigHash(inst.spec), ConfigChild, CONFIG_OK);
    SameTargets(inst, p.rec.obj, "", ConfigChild);
    var t := TargetOf(inst, "", ConfigChild);
    CalmEnsure(p, t);
    RunTwo(t, CONFIG_OK, p);
  }

  lemma CalmLoadExternal(inst: TlnDB, h: string, p: Pass)
    requires On(inst, p) && inst.spec.configFrom.Some? && Admissible(inst, p.w.db.objs)
    ensures LoadConfig(p) == (RunAll(StepsOf(inst, h, ConfigActs(inst.spec)), p), HashFor(inst, p.w.db.objs))
  {
    assert StepsOf(inst, h, ConfigActs(inst.spec)) == [NoteStep(EXTERNAL_OK)];
    Unroll([NoteStep(EXTERNAL_OK)], p);
    var w := p.w;
    assert Get(w, ExternalKey(inst)).0 == w;
    assert p.(w := w) == p;
  }

  // ---- The external ConfigMap is out of the pass's reach ------------------------------

  lemma CalmFrameStep(step: Step, p: Pass, k: Key)
    requires IsCalm(p) && k !in StepKeys(step)
    ensures SameAt(p.w.db.objs, Run(step, p).w.db.objs, k)
  {
    match step
    case EnsureStep(t) =>
      assert t in StepTargets(step);
      CalmEnsure(p, t);
    case PruneStep(key) => CalmPrune(p, key);
    case NoteStep(note) => CalmNote(p, note);
  }

  lemma {:induction false} CalmFrame(steps: seq<Step>, p: Pass, k: Key)
    requires IsCalm(p) && forall i | 0 <= i < |steps| :: k !in StepKeys(steps[i])
    ensures SameAt(p.w.db.objs, RunAll(steps, p).w.db.objs, k)
    decreases |steps|
  {
    if steps != [] {
      CalmRunStep(steps[0], p);
      CalmFrameStep(steps[0], p, k);
      CalmFrame(steps[1..], Run(steps[0], p), k);
    }
  }

  lemma AccessKeepsConfig(inst: TlnDB, h: string, p: Pass, k: Key)
    requires IsCalm(p) && k.kind.ConfigMap?
    ensures SameAt(p.w.db.objs, RunAll(StepsOf(inst, h, AccessActs(inst.spec)), p).w.db.objs, k)
  {
    var acts := AccessActs(inst.spec);
    forall i | 0 <= i < |acts| ensures k !in StepKeys(StepsOf(inst, h, acts)[i]) {
      KeysOfAct(inst, h, acts[i]);
    }
    CalmFrame(StepsOf(inst, h, acts), p, k);
  }

  // ---- All of reconcileResources ------------------------------------------------------

  lemma CalmLoad(inst: TlnDB, h: string, p: Pass)
    requires On(inst, p) && Admissible(inst, p.w.db.objs) && h == HashFor(inst, p.w.db.objs)
    ensures LoadConfig(p) == (RunAll(StepsOf(inst, h, ConfigActs(inst.spec)), p), h)
  {
    if inst.spec.configFrom.None? {
      CalmLoadRendered(inst, p);
    } else {
      CalmLoadExternal(inst, h, p);
    }
  }

  lemma RunActsConcat(inst: TlnDB, h: string, a: seq<Act>, b: seq<Act>, p: Pass)
    ensures RunAll(StepsOf(inst, h, a + b), p) == RunAll(StepsOf(inst, h, b), RunAll(StepsOf(inst, h, a), p))
  {
    StepsOfConcat(inst, h, a, b);
    RunAllConcat(StepsOf(inst, h, a), StepsOf(inst, h, b), p);
  }

  lemma CalmServe(inst: TlnDB, h: string, p: Pass)
    requires On(inst, p)
    ensures ServeAndMore(p, h) == RunAll(StepsOf(inst, h, LaterActs(inst.spec)), p)
  {
    var spec := inst.spec;
    var served := RunAll(StepsOf(inst, h, ServingActs(spec)), p);
    CalmServing(inst, h, p);
    RunActs(inst, h, ServingActs(spec), p);
    var networked := RunAll(StepsOf(inst, h, NetworkActs(spec)), served);
    CalmNetwork(inst, h, served);
    RunActs(inst, h, NetworkActs(spec), served);
    var monitored := RunAll(StepsOf(inst, h, MonitorActs(spec)), networked);
    CalmMonitor(inst, h, networked);
    RunActs(inst, h, MonitorActs(spec), networked);
    CalmAvailability(inst, h, monitored);
    RunActsConcat(inst, h, MonitorActs(spec), AvailabilityActs(spec), networked);
    RunActsConcat(inst, h, NetworkActs(spec), MonitorActs(spec) + AvailabilityActs(spec), served);
    RunActsConcat(inst, h, ServingActs(spec), NetworkActs(spec) + (MonitorActs(spec) + AvailabilityActs(spec)), p);
  }

  /** `reconcileResources` without disturbance is its list of acts, then the status patch. */
  lemma CalmResources(w: World, rec: Record)
    requires w.schedule == [] && w.db.inst == Some(rec) && Admissible(rec.obj, w.db.objs)
    ensures ReconcileResources(w, rec) ==
      Persist(RunAll(StepsOf(rec.obj, HashFor(rec.obj, w.db.objs), AllActs(rec.obj.spec)), Pass(w, rec, [], false)))
  {
    var inst, spec, h := rec.obj, rec.obj.spec, HashFor(rec.obj, w.db.objs);
    var p := Pass(w, rec, [], false);
    var accessed := RunAll(StepsOf(inst, h, AccessActs(spec)), p);
    AccessIsActs(inst, h);
    RunActs(inst, h, AccessActs(spec), p);
    if spec.configFrom.Some? {
      AccessKeepsConfig(inst, h, p, ExternalKey(inst));
    }
    var configured := RunAll(StepsOf(inst, h, ConfigActs(spec)), accessed);
    CalmLoad(inst, h, accessed);
    RunActs(inst, h, ConfigActs(spec), accessed);
    CalmServe(inst, h, configured);
    RunActsConcat(inst, h, ConfigActs(spec), LaterActs(spec), accessed);
    RunActsConcat(inst, h, AccessActs(spec), ConfigActs(spec) + LaterActs(spec), p);
  }
}

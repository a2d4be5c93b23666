/**
 Conditions over passes that nothing disturbs: every note a pass makes stays in
 the status, and making it again changes nothing.
 */
module Notes {
  import opened Api
  import opened Common
  import opened Children
  import opened Controller
  import opened Plans
  import opened Calm
  import opened Ordering
  import opened CalmPass

  /** The condition of the note's type says what the note says, about this generation. */
  predicate Noted(conditions: seq<Condition>, generation: int, note: Note) {
    var found := FindCondition(conditions, note.kind);
    found.Some? && found.value == Condition(note.kind, note.status, note.reason, note.message, generation, found.value.since)
  }

  lemma {:induction false} SettingNotes(conditions: seq<Condition>, inst: TlnDB, note: Note, now: int, other: Note)
    ensures var after := SetCondition(conditions, NoteCondition(inst, note, now));
      Noted(after, inst.generation, note) &&
      (other.kind != note.kind && Noted(conditions, inst.generation, other) ==> Noted(after, inst.generation, other))
  {
    if conditions != [] && conditions[0].kind != note.kind {
      SettingNotes(conditions[1..], inst, note, now, other);
    }
  }

  /** A condition's transition time moves exactly when its status does, or when it is new. */
  lemma {:induction false} TransitionTime(conditions: seq<Condition>, next: Condition)
    ensures var was, now := FindCondition(conditions, next.kind), FindCondition(SetCondition(conditions, next), next.kind);
      now == Some(if was.Some? && was.value.status == next.status then next.(since := was.value.since) else next)
  {
    if conditions != [] && conditions[0].kind != next.kind {
      TransitionTime(conditions[1..], next);
    }
  }

  lemma {:induction false} SettingAgainChangesNothing(conditions: seq<Condition>, inst: TlnDB, note: Note, now: int)
    requires Noted(conditions, inst.generation, note)
    ensures SetCondition(conditions, NoteCondition(inst, note, now)) == conditions
  {
    if conditions[0].kind != note.kind {
      SettingAgainChangesNothing(conditions[1..], inst, note, now);
    }
  }

  // ---- The notes of a pass ----------------------------------------------------------------

  /** What a fault-free pass notes under a condition type, if it notes anything. */
  function NoteFor(spec: Spec, kind: ConditionType): Note {
    match kind
    case RBACReady => RBAC_OK
    case ConfigMapReady => if spec.configFrom.Some? then EXTERNAL_OK else CONFIG_OK
    case ServiceReady => if Replicated(spec) then SERVICES_OK else SERVICE_OK
    case NetworkPolicyReady => POLICY_OK
    case ServiceMonitorReady => MONITOR_OK
    case StatefulSetReady => ReadyNote(Unset, 0, 0)
  }

  predicate NotesFit(spec: Spec, acts: seq<Act>) {
    forall i | 0 <= i < |acts| && acts[i].NoteAct? ::
      acts[i].note == NoteFor(spec, acts[i].note.kind) && !acts[i].note.kind.StatefulSetReady?
  }

  lemma AllNotesFit(spec: Spec)
    ensures NotesFit(spec, AllActs(spec))
  {
    assert NotesFit(spec, AccessActs(spec)) && NotesFit(spec, ConfigActs(spec)) && NotesFit(spec, ServingActs(spec));
    assert NotesFit(spec, NetworkActs(spec)) && NotesFit(spec, MonitorActs(spec)) && NotesFit(spec, AvailabilityActs(spec));
  }

  /** Every note of the list is in the conditions. */
  predicate AllNoted(conditions: seq<Condition>, generation: int, acts: seq<Act>) {
    forall i | 0 <= i < |acts| && acts[i].NoteAct? :: Noted(conditions, generation, acts[i].note)
  }

  function Conditions(p: Pass): seq<Condition> { p.rec.obj.status.conditions }

  lemma StepKeepsNoted(inst: TlnDB, h: string, act: Act, p: Pass, note: Note)
    requires On(inst, p) && Noted(Conditions(p), inst.generation, note)
    requires act.NoteAct? && act.note.kind == note.kind ==> act.note == note
    ensures Noted(Conditions(Run(StepOf(inst, h, act), p)), inst.generation, note)
  {
    match act
    case EnsureAct(id) => CalmEnsure(p, TargetOf(inst, h, id));
    case PruneAct => CalmPrune(p, FollowerKey(inst));
    case NoteAct(n) =>
      CalmNote(p, n);
      SettingNotes(Conditions(p), p.rec.obj, n, p.w.db.clock, note);
  }

  lemma {:induction false} ActsKeepNoted(inst: TlnDB, h: string, acts: seq<Act>, p: Pass, note: Note)
    requires On(inst, p) && Noted(Conditions(p), inst.generation, note)
    requires NotesFit(inst.spec, acts) && note == NoteFor(inst.spec, note.kind)
    ensures Noted(Conditions(RunAll(StepsOf(inst, h, acts), p)), inst.generation, note)
    decreases |acts|
  {
    if acts != [] {
      StepsOfRest(inst, h, acts);
      StepKeepsNoted(inst, h, acts[0], p, note);
      CalmRunStep(StepOf(inst, h, acts[0]), p);
      ActsKeepNoted(inst, h, acts[1..], Run(StepOf(inst, h, acts[0]), p), note);
    }
  }

  lemma {:induction false} ActsAreNoted(inst: TlnDB, h: string, acts: seq<Act>, p: Pass)
    requires On(inst, p) && NotesFit(inst.spec, acts)
    ensures AllNoted(Conditions(RunAll(StepsOf(inst, h, acts), p)), inst.generation, acts)
    decreases |acts|
  {
    if acts != [] {
      var q := Run(StepOf(inst, h, acts[0]), p);
      StepsOfRest(inst, h, acts);
      CalmRunStep(StepOf(inst, h, acts[0]), p);
      if acts[0].NoteAct? {
        CalmNote(p, acts[0].note);
        SettingNotes(Conditions(p), p.rec.obj, acts[0].note, p.w.db.clock, acts[0].note);
        ActsKeepNoted(inst, h, acts[1..], q, acts[0].note);
      }
      ActsAreNoted(inst, h, acts[1..], q);
    }
  }

  lemma StepChangesNothing(inst: TlnDB, h: string, act: Act, p: Pass)
    requires On(inst, p) && (act.NoteAct? ==> Noted(Conditions(p), inst.generation, act.note))
    ensures Conditions(Run(StepOf(inst, h, act), p)) == Conditions(p)
  {
    match act
    case EnsureAct(id) => CalmEnsure(p, TargetOf(inst, h, id));
    case PruneAct => CalmPrune(p, FollowerKey(inst));
    case NoteAct(n) =>
      CalmNote(p, n);
      SettingAgainChangesNothing(Conditions(p), p.rec.obj, n, p.w.db.clock);
  }

  /** Where every note is already in the status, a list of acts leaves the status alone. */
  lemma {:induction false} NotedAlready(inst: TlnDB, h: string, acts: seq<Act>, p: Pass)
    requires On(inst, p) && AllNoted(Conditions(p), inst.generation, acts)
    ensures Conditions(RunAll(StepsOf(inst, h, acts), p)) == Conditions(p)
    decreases |acts|
  {
    if acts != [] {
      StepsOfRest(inst, h, acts);
      StepChangesNothing(inst, h, acts[0], p);
      CalmRunStep(StepOf(inst, h, acts[0]), p);
      NotedAlready(inst, h, acts[1..], Run(StepOf(inst, h, acts[0]), p));
    }
  }
}

/**
 The plan of a pass as a list of acts on children, and what a pass that nothing
 disturbs does with it.
 */
module Plans {
  import opened Api
  import opened Common
  import opened Children
  import opened Controller

  datatype Act = EnsureAct(id: ChildId) | PruneAct | NoteAct(note: Note)

  function StepOf(inst: TlnDB, h: string, act: Act): Step {
    match act
    case EnsureAct(id) => EnsureOf(inst, h, id)
    case PruneAct => PruneStep(FollowerKey(inst))
    case NoteAct(note) => NoteStep(note)
  }

  function StepsOf(inst: TlnDB, h: string, acts: seq<Act>): (steps: seq<Step>)
    ensures |steps| == |acts|
  {
    seq(|acts|, i requires 0 <= i < |acts| => StepOf(inst, h, acts[i]))
  }

  function AccessActs(spec: Spec): seq<Act> {
    if spec.serviceAccountName != "" then []
    else [EnsureAct(AccountChild), EnsureAct(RoleChild), EnsureAct(BindingChild), NoteAct(RBAC_OK)]
  }

  function ConfigActs(spec: Spec): seq<Act> {
    if spec.configFrom.Some? then [NoteAct(EXTERNAL_OK)] else [EnsureAct(ConfigChild), NoteAct(CONFIG_OK)]
  }

  function FollowerAct(spec: Spec): Act { if spec.readReplicas > 0 then EnsureAct(SetChild(Follower)) else PruneAct }

  function ServingActs(spec: Spec): seq<Act> {
    if Replicated(spec) then
      [EnsureAct(HeadlessChild), EnsureAct(SetChild(Leader)), FollowerAct(spec),
       EnsureAct(WriteChild), EnsureAct(ReadChild), NoteAct(SERVICES_OK)]
    else
      [EnsureAct(HeadlessChild), EnsureAct(SetChild(Standalone)), EnsureAct(ClientChild), NoteAct(SERVICE_OK)]
  }

  function Act1(spec: Spec, id: ChildId): seq<Act> { if Wanted(spec, id) then [EnsureAct(id)] else [] }

  function NetworkActs(spec: Spec): seq<Act> {
    Act1(spec, IngressChild) + Act1(spec, PolicyChild) + (if spec.networkPolicy.enabled then [NoteAct(POLICY_OK)] else [])
  }

  function MonitorActs(spec: Spec): seq<Act> {
    if Wanted(spec, MonitorChild) then [EnsureAct(MonitorChild), NoteAct(MONITOR_OK)] else []
  }

  function AvailabilityActs(spec: Spec): seq<Act> { Act1(spec, BudgetChild) + Act1(spec, ScalerChild) }

  function AllActs(spec: Spec): seq<Act> {
    AccessActs(spec) + (ConfigActs(spec) + (ServingActs(spec) + (NetworkActs(spec) + (MonitorActs(spec) + AvailabilityActs(spec)))))
  }

  lemma HashOnlyInSets(inst: TlnDB, h: string, id: ChildId)
    requires !id.SetChild?
    ensures TargetOf(inst, "", id) == TargetOf(inst, h, id)
  {
  }

  lemma AccessIsActs(inst: TlnDB, h: string)
    ensures AccessPlan(inst) == StepsOf(inst, h, AccessActs(inst.spec))
  {
    HashOnlyInSets(inst, h, AccountChild);
    HashOnlyInSets(inst, h, RoleChild);
    HashOnlyInSets(inst, h, BindingChild);
  }

  lemma ReplicatedIsActs(inst: TlnDB, h: string)
    requires Replicated(inst.spec)
    ensures ReplicatedPlan(inst, h) == StepsOf(inst, h, ServingActs(inst.spec))
  {
    HashOnlyInSets(inst, h, HeadlessChild);
    HashOnlyInSets(inst, h, WriteChild);
    HashOnlyInSets(inst, h, ReadChild);
  }

  lemma StandaloneIsActs(inst: TlnDB, h: string)
    requires !Replicated(inst.spec)
    ensures StandalonePlan(inst, h) == StepsOf(inst, h, ServingActs(inst.spec))
  {
    HashOnlyInSets(inst, h, HeadlessChild);
    HashOnlyInSets(inst, h, ClientChild);
  }

  lemma NetworkIsActs(inst: TlnDB, h: string)
    ensures NetworkPlan(inst) == StepsOf(inst, h, NetworkActs(inst.spec))
  {
    HashOnlyInSets(inst, h, IngressChild);
    HashOnlyInSets(inst, h, PolicyChild);
  }

  lemma AvailabilityIsActs(inst: TlnDB, h: string)
    ensures AvailabilityPlan(inst) == StepsOf(inst, h, AvailabilityActs(inst.spec))
  {
    HashOnlyInSets(inst, h, BudgetChild);
    HashOnlyInSets(inst, h, ScalerChild);
  }
}

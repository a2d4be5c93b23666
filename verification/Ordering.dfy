/**
 The acts of one pass go through the children in a fixed order, so no key is
 touched twice.
 */
module Ordering {
  import opened Api
  import opened Common
  import opened Children
  import opened Controller
  import opened Plans
  import opened Calm

  function Rank(id: ChildId): nat {
    match id
    case AccountChild => 0
    case RoleChild => 1
    case BindingChild => 2
    case ConfigChild => 3
    case HeadlessChild => 4
    case SetChild(role) => (match role case Leader => 5 case Follower => 6 case Standalone => 9)
    case WriteChild => 7
    case ReadChild => 8
    case ClientChild => 10
    case IngressChild => 11
    case PolicyChild => 12
    case MonitorChild => 13
    case BudgetChild => 14
    case ScalerChild => 15
  }

  /** The acts go up in rank, within bounds, and are all asked for. */
  predicate Ordered(spec: Spec, acts: seq<Act>, lo: nat, hi: nat) {
    if acts == [] then lo <= hi
    else match acts[0]
      case EnsureAct(id) => Wanted(spec, id) && lo <= Rank(id) < hi && Ordered(spec, acts[1..], Rank(id) + 1, hi)
      case PruneAct => Prunes(spec) && lo <= 6 < hi && Ordered(spec, acts[1..], 7, hi)
      case NoteAct(_) => Ordered(spec, acts[1..], lo, hi)
  }

  lemma {:induction false} OrderedConcat(spec: Spec, a: seq<Act>, b: seq<Act>, lo: nat, mid: nat, hi: nat)
    requires Ordered(spec, a, lo, mid) && Ordered(spec, b, mid, hi) && mid <= hi
    ensures Ordered(spec, a + b, lo, hi)
  {
    if a == [] {
      assert a + b == b;
      OrderedFrom(spec, b, lo, mid, hi);
    } else {
      assert (a + b)[1..] == a[1..] + b && (a + b)[0] == a[0];
      match a[0]
      case EnsureAct(id) => OrderedConcat(spec, a[1..], b, Rank(id) + 1, mid, hi);
      case PruneAct => OrderedConcat(spec, a[1..], b, 7, mid, hi);
      case NoteAct(_) => OrderedConcat(spec, a[1..], b, lo, mid, hi);
    }
  }

  lemma {:induction false} OrderedFrom(spec: Spec, acts: seq<Act>, lo: nat, mid: nat, hi: nat)
    requires lo <= mid && Ordered(spec, acts, mid, hi)
    ensures Ordered(spec, acts, lo, hi)
  {
    if acts != [] && acts[0].NoteAct? {
      OrderedFrom(spec, acts[1..], lo, mid, hi);
    }
  }

  ghost predicate TakenBelow(inst: TlnDB, k: Key, lo: nat) {
    (exists id :: Wanted(inst.spec, id) && Rank(id) < lo && KeyOf(inst, id) == k)
    || (Prunes(inst.spec) && k == FollowerKey(inst) && 6 < lo)
  }

  lemma NotTaken(inst: TlnDB, id: ChildId)
    requires Wanted(inst.spec, id)
    ensures !TakenBelow(inst, KeyOf(inst, id), Rank(id))
  {
    forall other | Wanted(inst.spec, other) && Rank(other) < Rank(id) ensures KeyOf(inst, other) != KeyOf(inst, id) {
      WantedKeysDiffer(inst, other, id);
    }
    if Prunes(inst.spec) {
      PrunedKeyUnwanted(inst, id);
    }
  }

  lemma FollowerNotTaken(inst: TlnDB)
    requires Prunes(inst.spec)
    ensures !TakenBelow(inst, FollowerKey(inst), 6)
  {
    forall other | Wanted(inst.spec, other) ensures KeyOf(inst, other) != FollowerKey(inst) {
      PrunedKeyUnwanted(inst, other);
    }
  }

  lemma TakenFrom(inst: TlnDB, k: Key, lo: nat, hi: nat)
    requires TakenBelow(inst, k, lo) && lo <= hi
    ensures TakenBelow(inst, k, hi)
  {
  }

  lemma StepsOfRest(inst: TlnDB, h: string, acts: seq<Act>)
    requires acts != []
    ensures StepsOf(inst, h, acts)[0] == StepOf(inst, h, acts[0])
    ensures StepsOf(inst, h, acts)[1..] == StepsOf(inst, h, acts[1..])
  {
  }

  lemma KeysOfAct(inst: TlnDB, h: string, act: Act)
    ensures StepKeys(StepOf(inst, h, act)) ==
      match act case EnsureAct(id) => {KeyOf(inst, id)} case PruneAct => {FollowerKey(inst)} case NoteAct(_) => {}
  {
    if act.EnsureAct? {
      var t := TargetOf(inst, h, act.id);
      assert t in StepTargets(StepOf(inst, h, act));
    }
  }

  lemma {:induction false} OrderedIsFresh(inst: TlnDB, h: string, acts: seq<Act>, lo: nat, hi: nat, touched: set<Key>)
    requires Ordered(inst.spec, acts, lo, hi) && forall k | k in touched :: TakenBelow(inst, k, lo)
    ensures FreshKeys(StepsOf(inst, h, acts), touched)
    decreases |acts|
  {
    if acts != [] {
      StepsOfRest(inst, h, acts);
      KeysOfAct(inst, h, acts[0]);
      var next := touched + StepKeys(StepOf(inst, h, acts[0]));
      match acts[0]
      case EnsureAct(id) =>
        NotTaken(inst, id);
        forall k | k in touched ensures TakenBelow(inst, k, Rank(id)) { TakenFrom(inst, k, lo, Rank(id)); }
        forall k | k in next ensures TakenBelow(inst, k, Rank(id) + 1) {
          if k in touched { TakenFrom(inst, k, Rank(id), Rank(id) + 1); }
        }
        OrderedIsFresh(inst, h, acts[1..], Rank(id) + 1, hi, next);
      case PruneAct =>
        FollowerNotTaken(inst);
        forall k | k in touched ensures TakenBelow(inst, k, 6) { TakenFrom(inst, k, lo, 6); }
        forall k | k in next ensures TakenBelow(inst, k, 7) {
          if k in touched { TakenFrom(inst, k, 6, 7); }
        }
        OrderedIsFresh(inst, h, acts[1..], 7, hi, next);
      case NoteAct(_) =>
        assert next == touched;
        OrderedIsFresh(inst, h, acts[1..], lo, hi, touched);
    }
  }

  lemma OneOrdered(spec: Spec, id: ChildId)
    ensures Ordered(spec, Act1(spec, id), Rank(id), Rank(id) + 1)
  {
    assert [EnsureAct(id)][1..] == [];
  }

  lemma NotesOrdered(spec: Spec, note: Note, lo: nat)
    ensures Ordered(spec, [NoteAct(note)], lo, lo) && Ordered(spec, [], lo, lo)
  {
    assert [NoteAct(note)][1..] == [];
  }

  lemma AccessOrdered(spec: Spec)
    ensures Ordered(spec, AccessActs(spec), 0, 3)
  {
    if spec.serviceAccountName == "" {
      NotesOrdered(spec, RBAC_OK, 3);
      OneOrdered(spec, AccountChild);
      OneOrdered(spec, RoleChild);
      OneOrdered(spec, BindingChild);
      OrderedConcat(spec, Act1(spec, BindingChild), [NoteAct(RBAC_OK)], 2, 3, 3);
      OrderedConcat(spec, Act1(spec, RoleChild), Act1(spec, BindingChild) + [NoteAct(RBAC_OK)], 1, 2, 3);
      OrderedConcat(spec, Act1(spec, AccountChild), Act1(spec, RoleChild) + (Act1(spec, BindingChild) + [NoteAct(RBAC_OK)]), 0, 1, 3);
      assert AccessActs(spec) == Act1(spec, AccountChild) + (Act1(spec, RoleChild) + (Act1(spec, BindingChild) + [NoteAct(RBAC_OK)]));
    }
  }

  lemma ConfigOrdered(spec: Spec)
    ensures Ordered(spec, ConfigActs(spec), 3, 4)
  {
    NotesOrdered(spec, EXTERNAL_OK, 4);
    NotesOrdered(spec, CONFIG_OK, 4);
    OneOrdered(spec, ConfigChild);
    OrderedConcat(spec, Act1(spec, ConfigChild), [NoteAct(CONFIG_OK)], 3, 4, 4);
    OrderedFrom(spec, [NoteAct(EXTERNAL_OK)], 3, 4, 4);
  }

  lemma NetworkOrdered(spec: Spec)
    ensures Ordered(spec, NetworkActs(spec), 11, 13)
  {
    NotesOrdered(spec, POLICY_OK, 13);
    OneOrdered(spec, IngressChild);
    OneOrdered(spec, PolicyChild);
    var note := if spec.networkPolicy.enabled then [NoteAct(POLICY_OK)] else [];
    OrderedConcat(spec, Act1(spec, IngressChild), Act1(spec, PolicyChild), 11, 12, 13);
    OrderedConcat(spec, Act1(spec, IngressChild) + Act1(spec, PolicyChild), note, 11, 13, 13);
  }

  lemma MonitorOrdered(spec: Spec)
    ensures Ordered(spec, MonitorActs(spec), 13, 14)
  {
    NotesOrdered(spec, MONITOR_OK, 14);
    OneOrdered(spec, MonitorChild);
    OrderedConcat(spec, Act1(spec, MonitorChild), [NoteAct(MONITOR_OK)], 13, 14, 14);
  }

  lemma AvailabilityOrdered(spec: Spec)
    ensures Ordered(spec, AvailabilityActs(spec), 14, 16)
  {
    OneOrdered(spec, BudgetChild);
    OneOrdered(spec, ScalerChild);
    OrderedConcat(spec, Act1(spec, BudgetChild), Act1(spec, ScalerChild), 14, 15, 16);
  }

  lemma ServingOrdered(spec: Spec)
    ensures Ordered(spec, ServingActs(spec), 4, 11)
  {
    var acts := ServingActs(spec);
    if Replicated(spec) {
      assert acts[1..][1..][1..] == [EnsureAct(WriteChild), EnsureAct(ReadChild), NoteAct(SERVICES_OK)];
      var tail := [EnsureAct(WriteChild), EnsureAct(ReadChild), NoteAct(SERVICES_OK)];
      assert tail[1..] == [EnsureAct(ReadChild), NoteAct(SERVICES_OK)] && tail[1..][1..] == [NoteAct(SERVICES_OK)];
      assert Ordered(spec, tail[1..][1..], 9, 11);
      assert Ordered(spec, tail, 7, 11);
      assert Ordered(spec, acts[1..][1..], 6, 11);
    } else {
      assert acts[1..][1..] == [EnsureAct(ClientChild), NoteAct(SERVICE_OK)];
      assert Ordered(spec, acts[1..][1..], 10, 11);
    }
  }

  /** What comes after the configuration. */
  function LaterActs(spec: Spec): seq<Act> {
    ServingActs(spec) + (NetworkActs(spec) + (MonitorActs(spec) + AvailabilityActs(spec)))
  }

  lemma LaterOrdered(spec: Spec)
    ensures Ordered(spec, LaterActs(spec), 4, 16)
  {
    ServingOrdered(spec);
    NetworkOrdered(spec);
    MonitorOrdered(spec);
    AvailabilityOrdered(spec);
    var a5 := MonitorActs(spec) + AvailabilityActs(spec);
    OrderedConcat(spec, MonitorActs(spec), AvailabilityActs(spec), 13, 14, 16);
    OrderedConcat(spec, NetworkActs(spec), a5, 11, 13, 16);
    OrderedConcat(spec, ServingActs(spec), NetworkActs(spec) + a5, 4, 11, 16);
  }

  lemma AllOrdered(spec: Spec)
    ensures Ordered(spec, AllActs(spec), 0, 16)
  {
    AccessOrdered(spec);
    ConfigOrdered(spec);
    LaterOrdered(spec);
    OrderedConcat(spec, ConfigActs(spec), LaterActs(spec), 3, 4, 16);
    OrderedConcat(spec, AccessActs(spec), ConfigActs(spec) + LaterActs(spec), 0, 3, 16);
  }
}

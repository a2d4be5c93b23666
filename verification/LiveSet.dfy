/**
 Which children exist after a sequence of specs, each followed by a fault-free
 pass, and what `status.managedResources` then lists.
 */
module LiveSet {
  import opened Api
  import opened Steps
  import opened Text
  import opened Common
  import opened Children
  import opened Cluster
  import opened Controller
  import opened Plans
  import opened Calm
  import opened Ordering
  import opened CalmPass
  import opened Convergence
  import opened Fixpoint

  // ---- Entries of managedResources name their keys ---------------------------------------

  lemma KindTextHasNoSlash(kind: Kind)
    ensures '/' !in KindText(kind)
  {
  }

  lemma KindTextInjective(a: Kind, b: Kind)
    requires KindText(a) == KindText(b)
    ensures a == b
  {
    assert |KindText(a)| == |KindText(b)|;
    assert |KindText(a)| == 14 ==> KindText(a)[7] == KindText(b)[7];
    assert |KindText(a)| == 11 || |KindText(a)| == 7 ==> KindText(a)[0] == KindText(b)[0];
  }

  lemma PrefixLengths(a: string, x: string, b: string, y: string)
    requires a + "/" + x == b + "/" + y && '/' !in b
    ensures |b| <= |a|
  {
    var s := b + "/" + y;
    assert s == a + "/" + x && s[|a|] == '/';
    assert forall i | 0 <= i < |b| :: s[i] == b[i] && b[i] != '/';
  }

  lemma KeyTextInjective(a: Key, b: Key)
    requires KeyText(a) == KeyText(b)
    ensures a.kind == b.kind && a.name == b.name
  {
    var x, y := KindText(a.kind), KindText(b.kind);
    KindTextHasNoSlash(a.kind);
    KindTextHasNoSlash(b.kind);
    PrefixLengths(x, a.name, y, b.name);
    PrefixLengths(y, b.name, x, a.name);
    assert KeyText(a)[..|x|] == x && KeyText(b)[..|y|] == y;
    KindTextInjective(a.kind, b.kind);
    assert KeyText(a)[|x| + 1..] == a.name && KeyText(b)[|y| + 1..] == b.name;
  }

  // ---- The children of a spec ------------------------------------------------------------

  const EVERY_CHILD: set<ChildId> :=
    {AccountChild, RoleChild, BindingChild, ConfigChild, HeadlessChild, SetChild(Standalone), SetChild(Leader), SetChild(Follower),
     WriteChild, ReadChild, ClientChild, IngressChild, PolicyChild, MonitorChild, BudgetChild, ScalerChild}

  function DesiredKeys(inst: TlnDB): set<Key> {
    set id | id in EVERY_CHILD && Wanted(inst.spec, id) :: KeyOf(inst, id)
  }

  /** The children of a spec, by its fields and by their names. */
  predicate NamedByFields(inst: TlnDB, k: Key) {
    var spec, named := inst.spec, (kind, suffix) => Key(kind, inst.namespace, inst.name + suffix);
    k == named(Service, "-headless") || k == Key(Service, inst.namespace, inst.name)
    || (spec.serviceAccountName == "" && k.namespace == inst.namespace && k.name == inst.name && k.kind in {ServiceAccount, Role, RoleBinding})
    || (spec.configFrom.None? && k == named(ConfigMap, "-config"))
    || (spec.mode == "replicated" && (k == named(StatefulSet, "-leader") || k == named(Service, "-read")))
    || (spec.mode == "replicated" && spec.readReplicas > 0 && k == named(StatefulSet, "-follower"))
    || (spec.mode != "replicated" && k == Key(StatefulSet, inst.namespace, inst.name))
    || (spec.ingress.enabled && k == Key(Ingress, inst.namespace, inst.name))
    || (spec.networkPolicy.enabled && k == Key(NetworkPolicy, inst.namespace, inst.name))
    || (spec.metrics.monitor.enabled && k == Key(ServiceMonitor, inst.namespace, inst.name))
    || (spec.pdb.enabled && k == Key(PodDisruptionBudget, inst.namespace, inst.name))
    || (spec.hpa.enabled && k == Key(HorizontalPodAutoscaler, inst.namespace, inst.name))
  }

  lemma WantedIsNamed(inst: TlnDB, id: ChildId)
    requires Wanted(inst.spec, id)
    ensures NamedByFields(inst, KeyOf(inst, id))
  {
  }

  lemma NamedIsWanted(inst: TlnDB, k: Key) returns (id: ChildId)
    requires NamedByFields(inst, k)
    ensures Wanted(inst.spec, id) && KeyOf(inst, id) == k
  {
    var replicated := inst.spec.mode == "replicated";
    match k.kind
    case ServiceAccount => id := AccountChild;
    case Role => id := RoleChild;
    case RoleBinding => id := BindingChild;
    case ConfigMap => id := ConfigChild;
    case Ingress => id := IngressChild;
    case NetworkPolicy => id := PolicyChild;
    case ServiceMonitor => id := MonitorChild;
    case PodDisruptionBudget => id := BudgetChild;
    case HorizontalPodAutoscaler => id := ScalerChild;
    case Service =>
      id := if k.name == inst.name + "-headless" then HeadlessChild
            else if k.name == inst.name + "-read" then ReadChild else if replicated then WriteChild else ClientChild;
    case StatefulSet =>
      id := if !replicated then SetChild(Standalone)
            else if k.name == inst.name + "-leader" then SetChild(Leader) else SetChild(Follower);
  }

  /** A spec asks for exactly these children. */
  lemma DesiredByFields(inst: TlnDB, k: Key)
    ensures k in DesiredKeys(inst) <==> NamedByFields(inst, k)
  {
    if k in DesiredKeys(inst) {
      var id :| id in EVERY_CHILD && Wanted(inst.spec, id) && KeyOf(inst, id) == k;
      WantedIsNamed(inst, id);
    }
    if NamedByFields(inst, k) {
      var id := NamedIsWanted(inst, k);
      EveryChild(id);
    }
  }

  lemma EveryChild(id: ChildId)
    ensures id in EVERY_CHILD
  {
    if id.SetChild? {
      match id.role
      case Standalone =>
      case Leader =>
      case Follower =>
    }
  }

  function TextOf(inst: TlnDB, id: ChildId): string { KeyText(KeyOf(inst, id)) }

  lemma TextsDiffer(inst: TlnDB, a: ChildId, b: ChildId)
    requires Wanted(inst.spec, a) && Wanted(inst.spec, b) && a != b
    ensures TextOf(inst, a) != TextOf(inst, b)
  {
    WantedKeysDiffer(inst, a, b);
    if TextOf(inst, a) == TextOf(inst, b) {
      KeyTextInjective(KeyOf(inst, a), KeyOf(inst, b));
    }
  }

  /** An entry that some act of the list appends. */
  ghost predicate Listed(inst: TlnDB, acts: seq<Act>, text: string) {
    exists id :: EnsureAct(id) in acts && text == TextOf(inst, id)
  }

  lemma {:induction false} TextsOfActs(inst: TlnDB, h: string, acts: seq<Act>, text: string)
    ensures text in TextsOf(StepsOf(inst, h, acts)) <==> Listed(inst, acts, text)
    decreases |acts|
  {
    if acts != [] {
      StepsOfRest(inst, h, acts);
      TextsOfActs(inst, h, acts[1..], text);
      ListedFirstOrLater(inst, acts, text);
    }
  }

  lemma ListedFirstOrLater(inst: TlnDB, acts: seq<Act>, text: string)
    requires acts != []
    ensures Listed(inst, acts, text) <==> (acts[0].EnsureAct? && text == TextOf(inst, acts[0].id)) || Listed(inst, acts[1..], text)
  {
    assert acts == [acts[0]] + acts[1..];
  }

  lemma {:induction false} OrderedIdsAreLater(spec: Spec, acts: seq<Act>, lo: nat, hi: nat, id: ChildId)
    requires Ordered(spec, acts, lo, hi) && EnsureAct(id) in acts
    ensures Wanted(spec, id) && lo <= Rank(id)
  {
    if acts[0] != EnsureAct(id) {
      var next := match acts[0] case EnsureAct(first) => Rank(first) + 1 case PruneAct => 7 case NoteAct(_) => lo;
      OrderedIdsAreLater(spec, acts[1..], next, hi, id);
    }
  }

  lemma HeadNotRepeated(inst: TlnDB, h: string, acts: seq<Act>, hi: nat, id: ChildId)
    requires Wanted(inst.spec, id) && Ordered(inst.spec, acts, Rank(id) + 1, hi)
    ensures TextOf(inst, id) !in TextsOf(StepsOf(inst, h, acts))
  {
    TextsOfActs(inst, h, acts, TextOf(inst, id));
    forall other | EnsureAct(other) in acts ensures TextOf(inst, other) != TextOf(inst, id) {
      OrderedIdsAreLater(inst.spec, acts, Rank(id) + 1, hi, other);
      TextsDiffer(inst, other, id);
    }
  }

  lemma ConsDistinct(x: string, rest: seq<string>)
    requires x !in rest && Distinct(rest)
    ensures Distinct([x] + rest)
  {
  }

  lemma {:induction false} OrderedTextsDistinct(inst: TlnDB, h: string, acts: seq<Act>, lo: nat, hi: nat)
    requires Ordered(inst.spec, acts, lo, hi)
    ensures Distinct(TextsOf(StepsOf(inst, h, acts)))
    decreases |acts|
  {
    if acts != [] {
      StepsOfRest(inst, h, acts);
      match acts[0]
      case EnsureAct(id) =>
        HeadNotRepeated(inst, h, acts[1..], hi, id);
        OrderedTextsDistinct(inst, h, acts[1..], Rank(id) + 1, hi);
        ConsDistinct(TextOf(inst, id), TextsOf(StepsOf(inst, h, acts[1..])));
      case PruneAct => OrderedTextsDistinct(inst, h, acts[1..], 7, hi);
      case NoteAct(_) => OrderedTextsDistinct(inst, h, acts[1..], lo, hi);
    }
  }

  lemma ListedIsDesired(inst: TlnDB, text: string)
    ensures Listed(inst, AllActs(inst.spec), text) <==> exists k :: k in DesiredKeys(inst) && text == KeyText(k)
  {
    if Listed(inst, AllActs(inst.spec), text) {
      var id :| EnsureAct(id) in AllActs(inst.spec) && text == TextOf(inst, id);
      EnsuresAreWanted(inst.spec, id);
      EveryChild(id);
      assert KeyOf(inst, id) in DesiredKeys(inst);
    }
    forall k | k in DesiredKeys(inst) && text == KeyText(k) ensures Listed(inst, AllActs(inst.spec), text) {
      var id :| id in EVERY_CHILD && Wanted(inst.spec, id) && KeyOf(inst, id) == k;
      EnsuresAreWanted(inst.spec, id);
      assert EnsureAct(id) in AllActs(inst.spec) && text == TextOf(inst, id);
    }
  }

  /** `managedResources` is strictly sorted and lists exactly the desired children. */
  ghost predicate ListsDesired(inst: TlnDB, entries: seq<string>) {
    Sorted(entries) && Distinct(entries) &&
    forall text :: text in entries <==> exists k :: k in DesiredKeys(inst) && text == KeyText(k)
  }

  lemma ManagedTextsListDesired(inst: TlnDB, h: string)
    ensures ListsDesired(inst, Sort(ManagedTexts(inst, h)))
  {
    var texts := ManagedTexts(inst, h);
    AllOrdered(inst.spec);
    OrderedTextsDistinct(inst, h, AllActs(inst.spec), 0, 16);
    SortOfDistinct(texts);
    forall text ensures text in Sort(texts) <==> exists k :: k in DesiredKeys(inst) && text == KeyText(k) {
      TextsOfActs(inst, h, AllActs(inst.spec), text);
      ListedIsDesired(inst, text);
    }
  }

  // ---- The live set of a run ---------------------------------------------------------------

  /** The keys after one fault-free pass. */
  function LiveAfter(inst: TlnDB, live: set<Key>): set<Key> {
    (live + DesiredKeys(inst)) - (if Prunes(inst.spec) then {FollowerKey(inst)} else {})
  }

  /** The keys after the first `n` specs. */
  function Live(inst: TlnDB, specs: seq<Spec>, n: nat, live: set<Key>): set<Key>
    requires n <= |specs|
  {
    if n == 0 then live else LiveAfter(inst.(spec := specs[n - 1]), Live(inst, specs, n - 1, live))
  }

  lemma ChildrenAreLive(inst: TlnDB, h: string, a: Objects, b: Objects)
    requires ChildrenAfter(inst, h, a, b)
    ensures b.Keys == LiveAfter(inst, a.Keys)
  {
    forall k ensures k in b <==> k in LiveAfter(inst, a.Keys) {
      if k in DesiredKeys(inst) {
        var id :| id in EVERY_CHILD && Wanted(inst.spec, id) && KeyOf(inst, id) == k;
        assert Placed(a, b, TargetOf(inst, h, id));
        if Prunes(inst.spec) { PrunedKeyUnwanted(inst, id); }
      } else if !(Prunes(inst.spec) && k == FollowerKey(inst)) {
        forall id | Wanted(inst.spec, id) ensures KeyOf(inst, id) != k { EveryChild(id); }
        assert SameAt(a, b, k);
      }
    }
  }

  /** The spec is edited and a pass follows, undisturbed. */
  ghost predicate Serves(w: World, spec: Spec, w': World) { NextPass(Disturb(w, EditSpec(spec)), w') }

  /** Every spec of the list is served in turn. */
  ghost predicate SpecRun(run: seq<World>, specs: seq<Spec>) {
    |run| == |specs| + 1 && run[0].schedule == [] && run[0].db.inst.Some? && Active(run[0].db.inst.value.obj)
    && exists list | list == specs :: ServesAll(run, list)
  }

  ghost predicate ServesAll(run: seq<World>, specs: seq<Spec>) {
    |run| == |specs| + 1 && forall i: nat | i < |specs| :: ServesAt(run, specs, i)
  }

  ghost predicate ServesAt(run: seq<World>, specs: seq<Spec>, i: nat)
    requires i < |specs| && |run| == |specs| + 1
  {
    Serves(run[i], specs[i], run[i + 1])
  }

  /** Every spec that refers to an external ConfigMap finds it. */
  predicate AllAdmissible(inst: TlnDB, specs: seq<Spec>, live: set<Key>) {
    forall i | 0 <= i < |specs| && specs[i].configFrom.Some? ::
      Key(ConfigMap, inst.namespace, specs[i].configFrom.value) in Live(inst, specs, i, live)
  }

  /** Another generation of the same instance. */
  predicate Successor(a: TlnDB, b: TlnDB) { b == a.(spec := b.spec, generation := b.generation, status := b.status) }

  lemma SuccessorLive(inst: TlnDB, next: TlnDB, live: set<Key>)
    requires Successor(inst, next)
    ensures LiveAfter(next, live) == LiveAfter(inst.(spec := next.spec), live)
  {
    var other := inst.(spec := next.spec);
    forall id ensures KeyOf(next, id) == KeyOf(other, id) {}
    assert DesiredKeys(next) == DesiredKeys(other);
  }

  /** One edit and one pass. */
  lemma ServedOnce(w: World, spec: Spec, w': World)
    requires w.schedule == [] && w.db.inst.Some? && Active(w.db.inst.value.obj) && Serves(w, spec, w')
    requires spec.configFrom.Some? ==> Key(ConfigMap, w.db.inst.value.obj.namespace, spec.configFrom.value) in w.db.objs
    ensures w'.schedule == [] && w'.db.inst.Some?
    ensures var inst, next := w.db.inst.value.obj, w'.db.inst.value.obj;
      Successor(inst, next) && next.spec == spec && w'.db.objs.Keys == LiveAfter(next, w.db.objs.Keys)
      && ListsDesired(next, next.status.managedResources)
  {
    var edited := Disturb(w, EditSpec(spec));
    var inst := edited.db.inst.value.obj;
    var h := HashFor(inst, edited.db.objs);
    CalmReconcile(edited);
    ChildrenAreLive(inst, h, w.db.objs, w'.db.objs);
    var next := w'.db.inst.value.obj;
    SuccessorLive(inst, next, w.db.objs.Keys);
    assert inst.(spec := next.spec) == inst;
    SameTexts(inst, next, h);
    ManagedTextsListDesired(next, h);
  }

  lemma DesiredAreLive(inst: TlnDB, live: set<Key>)
    ensures DesiredKeys(inst) <= LiveAfter(inst, live)
  {
    if Prunes(inst.spec) {
      forall id | Wanted(inst.spec, id) ensures KeyOf(inst, id) != FollowerKey(inst) { PrunedKeyUnwanted(inst, id); }
    }
  }

  /** State `n` of a run that began with `inst` and the keys `live`. */
  ghost predicate AtSpec(inst: TlnDB, specs: seq<Spec>, live: set<Key>, n: nat, w: World)
    requires n <= |specs|
  {
    w.schedule == [] && w.db.inst.Some? && Successor(inst, w.db.inst.value.obj)
    && w.db.objs.Keys == Live(inst, specs, n, live)
    && (n > 0 ==>
          var now := w.db.inst.value.obj;
          now.spec == specs[n - 1] && ListsDesired(now, now.status.managedResources) && DesiredKeys(now) <= w.db.objs.Keys)
  }

  lemma NextSpec(inst: TlnDB, specs: seq<Spec>, live: set<Key>, n: nat, m: nat, w: World, w': World)
    requires n < |specs| && m == n + 1 && Active(inst) && AllAdmissible(inst, specs, live)
    requires Kept(inst, specs, live, n, w) && Serves(w, specs[n], w')
    ensures Kept(inst, specs, live, m, w')
  {
    ServedOnce(w, specs[n], w');
    var next := w'.db.inst.value.obj;
    SuccessorLive(inst, next, w.db.objs.Keys);
    DesiredAreLive(next, w.db.objs.Keys);
    assert AtSpec(inst, specs, live, m, w');
  }

  /**
   The live set is the fold of the specs over the initial keys: each spec adds what it wants, and
   only the follower set ever goes.  `managedResources` lists the last spec's children, all present.
   */
  lemma LiveSetIsExact(run: seq<World>, specs: seq<Spec>, n: nat)
    requires SpecRun(run, specs) && n <= |specs|
    requires AllAdmissible(run[0].db.inst.value.obj, specs, run[0].db.objs.Keys)
    ensures AtSpec(run[0].db.inst.value.obj, specs, run[0].db.objs.Keys, n, run[n])
  {
    ReachesSpec(run[0].db.inst.value.obj, run[0].db.objs.Keys, run, specs, n);
  }

  /** The invariant of a run as one fact. */
  ghost predicate Kept(inst: TlnDB, specs: seq<Spec>, live: set<Key>, n: nat, w: World) {
    exists m: nat | m == n :: m <= |specs| && AtSpec(inst, specs, live, m, w)
  }

  lemma SpecServed(run: seq<World>, specs: seq<Spec>, n: nat, m: nat)
    requires SpecRun(run, specs) && n < |specs| && m == n + 1
    ensures Serves(run[n], specs[n], run[m])
  {
    assert ServesAt(run, specs, n);
    assert run[m] == run[n + 1];
  }

  lemma ReachesSpec(inst: TlnDB, live: set<Key>, run: seq<World>, specs: seq<Spec>, n: nat)
    requires SpecRun(run, specs) && n <= |specs| && run[0].db.inst.value.obj == inst && run[0].db.objs.Keys == live
    requires AllAdmissible(inst, specs, live)
    ensures Kept(inst, specs, live, n, run[n])
  {
    var holds := (k: nat) => k < |run| && Kept(inst, specs, live, k, run[k]);
    assert AtSpec(inst, specs, live, 0, run[0]);
    forall k: nat, next: nat | 0 <= k < n && next == k + 1 && holds(k) ensures holds(next) {
      SpecServed(run, specs, k, next);
      NextSpec(inst, specs, live, k, next, run[k], run[next]);
    }
    Climb(holds, 0, n);
  }
}

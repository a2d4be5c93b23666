/**
 What the safety of runs means for whoever looks at the server at two moments of a
 run, whatever failed and whoever interfered in between.
 */
module Histories {
  import opened Api
  import opened Common
  import opened Cluster
  import opened Controller
  import opened Invariants
  import opened Runs

  /** A run starts in order, and each of its items is allowed. */
  ghost predicate RunOk(s: Scope, w: World, items: seq<Item>) {
    WorldOk(s, w) && forall i | 0 <= i < |items| :: ItemOk(s, items[i])
  }

  /** The server before event `i`, or at the end. */
  function Moment(w: World, i: nat): Db
    requires i <= |w.log|
  {
    if i < |w.log| then w.log[i].before else w.db
  }

  lemma NextMoment(s: Scope, w: World, i: nat)
    requires WorldOk(s, w) && i < |w.log|
    ensures Moment(w, i + 1) == w.log[i].after
  {
    if i + 1 < |w.log| {
      var j := i + 1;
      assert w.log[j].before == w.log[i].after;
    }
  }

  /** A newly created instance in an empty namespace is a start in order. */
  lemma FreshStartIsOk(s: Scope, inst: TlnDB)
    requires inst.name == s.name && inst.namespace == s.namespace && !inst.deleting && SpecOk(s, inst.spec)
    requires inst.status == Status(Unset, [], 0, 0, "", [], None)
    ensures WorldOk(s, World(Db(1, Some(Record(0, inst)), map[]), [], []))
  {
  }

  // ---- Immutable fields -----------------------------------------------------------------

  function ChildAt(w: World, n: nat, key: Key): (found: Option<Child>)
    requires n <= |w.log|
    ensures found.Some? ==> OfKind(key.kind, found.value.body)
  {
    if key in Moment(w, n).objs then Some(Moment(w, n).objs[key].obj) else None
  }

  ghost predicate PresentThroughout(w: World, i: nat, j: nat, key: Key)
    requires i <= j <= |w.log|
  {
    forall n | i <= n <= j :: ChildAt(w, n, key).Some?
  }

  /** The child before and after event `n`, if it exists at both moments, differs in mutable fields only. */
  ghost predicate EvolvesAt(w: World, n: nat, key: Key)
    requires n < |w.log|
  {
    ChildAt(w, n, key).Some? && ChildAt(w, n + 1, key).Some? ==> Evolves(ChildAt(w, n, key).value, ChildAt(w, n + 1, key).value)
  }

  lemma EventEvolves(s: Scope, w: World, n: nat, key: Key)
    requires WorldOk(s, w) && n < |w.log|
    ensures EvolvesAt(w, n, key)
  {
    NextMoment(s, w, n);
    assert EventOk(s, w.log[n]);
  }

  lemma {:induction false} EvolvesBetween(w: World, i: nat, j: nat, key: Key)
    requires i <= j <= |w.log| && PresentThroughout(w, i, j, key)
    requires forall n | 0 <= n < |w.log| :: EvolvesAt(w, n, key)
    ensures Evolves(ChildAt(w, i, key).value, ChildAt(w, j, key).value)
    decreases j
  {
    if i < j {
      EvolvesBetween(w, i, j - 1, key);
      assert EvolvesAt(w, j - 1, key);
    }
  }

  /**
   In every run: as long as an object exists, a set keeps its selector, its service name and its
   claim templates, a Service its address and a binding its role.
   */
  lemma RunKeepsImmutables(s: Scope, w: World, items: seq<Item>, i: nat, j: nat, key: Key)
    requires RunOk(s, w, items) && i <= j <= |Execute(w, items).log| && PresentThroughout(Execute(w, items), i, j, key)
    ensures Evolves(ChildAt(Execute(w, items), i, key).value, ChildAt(Execute(w, items), j, key).value)
  {
    var end := Execute(w, items);
    RunIsSafe(s, w, items);
    forall n | 0 <= n < |end.log| ensures EvolvesAt(end, n, key) { EventEvolves(s, end, n, key); }
    EvolvesBetween(end, i, j, key);
  }

  lemma SelectorMatchesTemplate(s: Scope, key: Key, sts: StatefulSetSpec, v: Provenance)
    requires Explains(s, key, sts, v)
    ensures Selects(sts.selector, sts.template.labels)
  {
    SelectionIsExact(s.name, s.name, v.role, v.role);
  }

  lemma MomentIsOk(s: Scope, w: World, i: nat)
    requires WorldOk(s, w) && i <= |w.log|
    ensures DbOk(s, Moment(w, i))
  {
    if i > 0 {
      NextMoment(s, w, i - 1);
      assert EventOk(s, w.log[i - 1]);
    }
  }

  /** In every run, every set of the instance selects its own pods. */
  lemma RunKeepsSelectors(s: Scope, w: World, items: seq<Item>, i: nat, key: Key)
    requires RunOk(s, w, items) && i <= |Execute(w, items).log|
    requires key.kind.StatefulSet? && InFootprint(s.namespace, s.name, key) && key in Moment(Execute(w, items), i).objs
    ensures var sts := Moment(Execute(w, items), i).objs[key].obj.body.sts; Selects(sts.selector, sts.template.labels)
  {
    RunIsSafe(s, w, items);
    MomentIsOk(s, Execute(w, items), i);
    SetSelectsItself(s, Moment(Execute(w, items), i), key);
  }

  lemma SetSelectsItself(s: Scope, db: Db, key: Key)
    requires DbOk(s, db) && key.kind.StatefulSet? && InFootprint(s.namespace, s.name, key) && key in db.objs
    ensures var sts := db.objs[key].obj.body.sts; Selects(sts.selector, sts.template.labels)
  {
    var child := db.objs[key].obj;
    assert ChildOk(s, key, child);
    var v :| Explains(s, key, child.body.sts, v);
    SelectorMatchesTemplate(s, key, child.body.sts, v);
  }

  // ---- The instance over time -------------------------------------------------------------

  /** What later moments keep of earlier ones. */
  predicate Grows(before: TlnDB, after: TlnDB) {
    before.generation <= after.generation
    && before.status.observedGeneration <= after.status.observedGeneration
    && (before.status.phase.Terminating? ==> after.status.phase.Terminating?)
    && (before.deleting ==> after.deleting)
  }

  lemma {:induction false} GrowsThroughout(s: Scope, w: World, i: nat, j: nat)
    requires WorldOk(s, w) && i <= j <= |w.log| && forall n | i <= n <= j :: Moment(w, n).inst.Some?
    ensures Grows(Moment(w, i).inst.value.obj, Moment(w, j).inst.value.obj)
    decreases j
  {
    if i < j {
      GrowsThroughout(s, w, i, j - 1);
      NextMoment(s, w, j - 1);
      assert EventOk(s, w.log[j - 1]) && Moment(w, j - 1).inst.Some? && Moment(w, j).inst.Some?;
    }
  }

  /** Terminating is absorbing, and the observed generation only grows and is never ahead. */
  lemma RunGrows(s: Scope, w: World, items: seq<Item>, i: nat, j: nat)
    requires RunOk(s, w, items)
    requires i <= j <= |Execute(w, items).log| && forall n | i <= n <= j :: Moment(Execute(w, items), n).inst.Some?
    ensures var before, after := Moment(Execute(w, items), i).inst.value.obj, Moment(Execute(w, items), j).inst.value.obj;
      Grows(before, after) && after.status.observedGeneration <= after.generation
  {
    RunIsSafe(s, w, items);
    GrowsThroughout(s, Execute(w, items), i, j);
    MomentIsOk(s, Execute(w, items), j);
  }

  /** At every moment a phase of Running comes with a true StatefulSetReady condition, and Terminating with a deletion. */
  lemma RunStatusIsCoherent(s: Scope, w: World, items: seq<Item>, i: nat)
    requires RunOk(s, w, items) && i <= |Execute(w, items).log| && Moment(Execute(w, items), i).inst.Some?
    ensures var inst := Moment(Execute(w, items), i).inst.value.obj;
      (inst.status.phase.Running? ==> ReadyTrue(inst.status)) && (inst.status.phase.Terminating? ==> inst.deleting)
  {
    RunIsSafe(s, w, items);
    MomentIsOk(s, Execute(w, items), i);
  }

  // ---- Who writes what, and when ------------------------------------------------------------

  /** An event changes what is stored under a key. */
  predicate Changes(e: Event, key: Key) {
    (key in e.before.objs) != (key in e.after.objs) || (key in e.before.objs && e.before.objs[key] != e.after.objs[key])
  }

  /** Every child write of the controller happens while the stored instance carries the finalizer, and in its footprint. */
  lemma RunWritesUnderFinalizer(s: Scope, w: World, items: seq<Item>, i: nat, key: Key)
    requires RunOk(s, w, items) && i < |Execute(w, items).log|
    requires Execute(w, items).log[i].author.Some? && Changes(Execute(w, items).log[i], key)
    ensures Held(Execute(w, items).log[i].before) && InFootprint(s.namespace, s.name, key)
  {
    RunIsSafe(s, w, items);
    ChangeIsOwn(s, Execute(w, items).log[i], key);
  }

  lemma ChangeIsOwn(s: Scope, e: Event, key: Key)
    requires EventOk(s, e) && e.author.Some? && Changes(e, key)
    ensures Held(e.before) && InFootprint(s.namespace, s.name, key)
  {
  }

  /** Instances whose names are not suffix-related leave each other's children alone. */
  lemma RunLeavesOthersAlone(s: Scope, other: string, w: World, items: seq<Item>, i: nat, key: Key)
    requires RunOk(s, w, items) && i < |Execute(w, items).log| && Execute(w, items).log[i].author.Some?
    requires other != s.name && !SuffixRelated(s.name, other) && InFootprint(s.namespace, other, key)
    ensures !Changes(Execute(w, items).log[i], key)
  {
    FootprintsDisjoint(s.namespace, s.name, other);
    RunIsSafe(s, w, items);
    var e := Execute(w, items).log[i];
    assert EventOk(s, e);
    assert !InFootprint(s.namespace, s.name, key);
    assert Changes(e, key) ==> InFootprint(s.namespace, s.name, key);
  }

  // ---- Passes on an instance being deleted ----------------------------------------------------

  /** Since `first` the controller has written no child, and the instance is being deleted or gone. */
  ghost predicate HandsOff(first: nat, w: World) {
    first <= |w.log| && (forall i | first <= i < |w.log| && w.log[i].author.Some? :: w.log[i].before.objs == w.log[i].after.objs)
    && (w.db.inst.Some? ==> w.db.inst.value.obj.deleting)
  }

  lemma {:induction false} DisturbHandsOff(first: nat, w: World, steps: seq<EnvStep>)
    requires HandsOff(first, w)
    ensures HandsOff(first, DisturbAll(w, steps))
    decreases |steps|
  {
    if steps != [] { DisturbHandsOff(first, Disturb(w, steps[0]), steps[1..]); }
  }

  lemma ArriveHandsOff(first: nat, w: World)
    requires HandsOff(first, w)
    ensures HandsOff(first, Arrive(w).0)
  {
    if w.schedule != [] { DisturbHandsOff(first, w.(schedule := w.schedule[1..]), w.schedule[0].before); }
  }

  lemma PatchHandsOff(first: nat, w: World, rec: Record, next: Status)
    requires HandsOff(first, w)
    ensures HandsOff(first, PatchStatus(w, rec, next).0)
  {
    ArriveHandsOff(first, w);
  }

  lemma UpdateHandsOff(first: nat, w: World, rec: Record)
    requires HandsOff(first, w)
    ensures HandsOff(first, UpdateInstance(w, rec).0)
  {
    ArriveHandsOff(first, w);
  }

  /** Whatever happens during it, a pass that starts with a deletion timestamp touches no child. */
  lemma DeletionTouchesNoChild(w: World)
    requires w.db.inst.Some? && w.db.inst.value.obj.deleting
    ensures HandsOff(|w.log|, Reconcile(w).0)
  {
    ArriveHandsOff(|w.log|, w);
    var (w1, fetch) := GetInstance(w);
    if fetch.Found? && FINALIZER in fetch.value.obj.finalizers {
      var rec := fetch.value;
      PatchHandsOff(|w.log|, w1, rec, rec.obj.status.(phase := Terminating, lastUpdateTime := Some(w1.db.clock)));
      var (w2, rec2, ok) := SetPhase(w1, rec, Terminating);
      UpdateHandsOff(|w.log|, w2, rec2.(obj := rec2.obj.(finalizers := rec2.obj.finalizers - {FINALIZER})));
    }
  }
}

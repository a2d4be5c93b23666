/**
 A spec edited during a pass: the whole runs behind the two hypotheses on edits.
 The edit reaches the server just before the patch that notes the configuration, so
 the reply brings the new spec into a pass that has already taken the old digest.
 */
module MidPassEdit {
  import opened Api
  import opened Text
  import opened Common
  import opened Workloads
  import opened Children
  import opened Cluster
  import opened Controller
  import opened Plans
  import opened Calm
  import opened Ordering
  import opened CalmPass
  import opened Convergence
  import opened Fixpoint
  import opened LiveSet
  import opened Truth
  import opened Invariants
  import opened Runs
  import opened Topology
  import opened Detection

  const QUIET := Tick([], Ok)

  /** The instance, the ConfigMap's Get and its Create pass quietly; the edit comes with the status patch. */
  function EditSchedule(spec: Spec): seq<Tick> { [QUIET, QUIET, QUIET, Tick([EditSpec(spec)], Ok)] }

  /** An instance at work, with a service account of its own and a rendered configuration not yet stored. */
  predicate Begins(db: Db) {
    db.inst.Some? &&
    var inst := db.inst.value.obj;
    Active(inst) && !inst.status.phase.Unset? && inst.spec.serviceAccountName != "" && inst.spec.configFrom.None?
    && KeyOf(inst, ConfigChild) !in db.objs
  }

  function Edited(inst: TlnDB, spec: Spec): TlnDB { inst.(spec := spec, generation := inst.generation + 1) }

  // ---- Up to the edit ---------------------------------------------------------------------

  lemma QuietArrive(w: World)
    requires w.schedule != [] && w.schedule[0] == QUIET
    ensures Arrive(w) == (w.(schedule := w.schedule[1..]), Ok)
  {
  }

  /** Get finds nothing, Create stores the target. */
  lemma QuietCreate(p: Pass, t: Target, rest: seq<Tick>)
    requires !p.failed && p.w.schedule == [QUIET, QUIET] + rest && t.key !in p.w.db.objs
    ensures var q := EnsureTarget(p, t);
      !q.failed && q.rec == p.rec && q.w.schedule == rest && q.w.db.inst == p.w.db.inst
      && forall k | k != t.key :: SameAt(p.w.db.objs, q.w.db.objs, k)
  {
    QuietArrive(p.w);
    var w1 := p.w.(schedule := p.w.schedule[1..]);
    assert w1.schedule == [QUIET] + rest;
    QuietArrive(w1);
    assert w1.schedule[1..] == rest;
  }

  /** The reply to the patch brings the edited spec. */
  lemma EditedReply(q: Pass, spec: Spec, note: Note)
    requires q.w.db.inst == Some(q.rec) && !q.failed && q.w.schedule == [Tick([EditSpec(spec)], Ok)]
    ensures var r := MarkPass(q, note);
      On(Edited(q.rec.obj, spec), r) && r.w.db.objs == q.w.db.objs
  {
    var w := q.w.(schedule := []);
    assert q.w.schedule[1..] == [] && [EditSpec(spec)][1..] == [];
    assert DisturbAll(w, [EditSpec(spec)]) == DisturbAll(Disturb(w, EditSpec(spec)), []);
    var status := q.rec.obj.status;
    PatchIsFaithful(status, status.(conditions := SetCondition(status.conditions, NoteCondition(q.rec.obj, note, q.w.db.clock))));
  }

  /** The configuration part ends with the digest of the old spec and a copy of the new one. */
  lemma SplitLoad(p: Pass, spec: Spec)
    requires !p.failed && p.w.db.inst == Some(p.rec) && p.rec.obj.spec.configFrom.None?
    requires KeyOf(p.rec.obj, ConfigChild) !in p.w.db.objs && p.w.schedule == [QUIET, QUIET, Tick([EditSpec(spec)], Ok)]
    ensures var (r, h) := LoadConfig(p);
      h == ConfigHash(p.rec.obj.spec) && On(Edited(p.rec.obj, spec), r)
      && forall k | k != KeyOf(p.rec.obj, ConfigChild) :: SameAt(p.w.db.objs, r.w.db.objs, k)
  {
    var t := TargetOf(p.rec.obj, "", ConfigChild);
    assert p.w.schedule == [QUIET, QUIET] + [Tick([EditSpec(spec)], Ok)];
    QuietCreate(p, t, [Tick([EditSpec(spec)], Ok)]);
    EditedReply(EnsureTarget(p, t), spec, CONFIG_OK);
  }

  // ---- After the edit -----------------------------------------------------------------------

  /** What the rest of the pass leaves, `h` being the digest taken before the edit. */
  ghost predicate Rest(inst: TlnDB, h: string, a: Objects, p: Pass) {
    IsCalm(p) && OnlyStatus(inst, p.rec.obj) && p.rec.obj.status.observedGeneration == inst.generation
    && (forall id | Wanted(inst.spec, id) && 4 <= Rank(id) :: Placed(a, p.w.db.objs, TargetOf(inst, h, id)))
    && SameAt(a, p.w.db.objs, KeyOf(inst, AccountChild))
  }

  lemma {:induction false} LaterHas(spec: Spec, id: ChildId)
    requires Wanted(spec, id) && 4 <= Rank(id)
    ensures EnsureAct(id) in LaterActs(spec)
  {
    EnsuresAreWanted(spec, id);
  }

  lemma LaterLeavesAccount(inst: TlnDB, h: string)
    ensures var steps := StepsOf(inst, h, LaterActs(inst.spec)); KeyOf(inst, AccountChild) !in Touched(TargetsOf(steps), PrunedOf(steps))
  {
    var acts, steps := LaterActs(inst.spec), StepsOf(inst, h, LaterActs(inst.spec));
    PrunedOfActs(inst, h, acts);
    forall t | t in TargetsOf(steps) ensures t.key != KeyOf(inst, AccountChild) {
      TargetsOfActs(inst, h, acts, t);
      var id :| EnsureAct(id) in acts && t == TargetOf(inst, h, id);
      LaterIsNotAccount(inst.spec, id);
    }
  }

  lemma LaterIsNotAccount(spec: Spec, id: ChildId)
    requires EnsureAct(id) in LaterActs(spec)
    ensures !KindOf(id).ServiceAccount?
  {
    LaterOrdered(spec);
    OrderedIdsAreLater(spec, LaterActs(spec), 4, 16, id);
  }

  lemma LaterChildren(inst: TlnDB, h: string, p: Pass)
    requires On(inst, p)
    ensures var q := ServeAndMore(p, h);
      On(inst, q)
      && (forall id | Wanted(inst.spec, id) && 4 <= Rank(id) :: Placed(p.w.db.objs, q.w.db.objs, TargetOf(inst, h, id)))
      && SameAt(p.w.db.objs, q.w.db.objs, KeyOf(inst, AccountChild))
  {
    var acts, steps := LaterActs(inst.spec), StepsOf(inst, h, LaterActs(inst.spec));
    var a, q := p.w.db.objs, ServeAndMore(p, h);
    CalmServe(inst, h, p);
    RunActs(inst, h, acts, p);
    LaterRun(inst, h, p);
    forall id | Wanted(inst.spec, id) && 4 <= Rank(id) ensures Placed(a, q.w.db.objs, TargetOf(inst, h, id)) {
      LaterHas(inst.spec, id);
      TargetsOfActs(inst, h, acts, TargetOf(inst, h, id));
    }
    LaterLeavesAccount(inst, h);
  }

  lemma LaterRun(inst: TlnDB, h: string, p: Pass)
    requires On(inst, p)
    ensures var steps := StepsOf(inst, h, LaterActs(inst.spec));
      Exactly(p.w.db.objs, RunAll(steps, p).w.db.objs, TargetsOf(steps), PrunedOf(steps))
  {
    var steps := StepsOf(inst, h, LaterActs(inst.spec));
    ExactlyNothing(p.w.db.objs);
    LaterOrdered(inst.spec);
    assert Touched({}, {}) == {};
    OrderedIsFresh(inst, h, LaterActs(inst.spec), 4, 16, {});
    CalmRun(steps, p, p.w.db.objs, {}, {});
    assert {} + TargetsOf(steps) == TargetsOf(steps) && {} + PrunedOf(steps) == PrunedOf(steps);
  }

  lemma RestOfPass(inst: TlnDB, h: string, r: Pass)
    requires On(inst, r)
    ensures Rest(inst, h, r.w.db.objs, Persist(ServeAndMore(r, h)))
  {
    LaterChildren(inst, h, r);
    CalmPersist(inst, ServeAndMore(r, h));
  }

  // ---- The whole pass -------------------------------------------------------------------------

  /** What an undisturbed `syncStatus` leaves alone. */
  lemma CalmSyncKeeps(w: World, rec: Record)
    requires w.schedule == [] && w.db.inst == Some(rec)
    ensures var w' := SyncStatus(w, rec).0;
      w'.schedule == [] && w'.db.objs == w.db.objs && w'.db.inst.Some? && OnlyStatus(rec.obj, w'.db.inst.value.obj)
      && w'.db.inst.value.obj.status.observedGeneration == rec.obj.status.observedGeneration
  {
    var key := PrimaryKey(rec.obj);
    if key in w.db.objs {
      CalmPatch(w, rec, ObservedStatus(rec.obj, w.db.objs[key].obj.body, w.db.clock));
    }
  }

  /** A pass that was split by the edit: children of the new spec with the digest of the old one, and the new generation recorded. */
  ghost predicate Split(inst: TlnDB, h: string, a: Objects, w: World) {
    w.schedule == [] && w.db.inst.Some? && OnlyStatus(inst, w.db.inst.value.obj)
    && w.db.inst.value.obj.status.observedGeneration == inst.generation
    && (forall id | Wanted(inst.spec, id) && 4 <= Rank(id) :: Placed(a, w.db.objs, TargetOf(inst, h, id)))
    && SameAt(a, w.db.objs, KeyOf(inst, AccountChild))
  }

  lemma SplitFrom(inst: TlnDB, h: string, a: Objects, b: Objects, w: World)
    requires Split(inst, h, b, w) && forall k | k != KeyOf(inst, ConfigChild) :: SameAt(a, b, k)
    ensures Split(inst, h, a, w)
  {
    forall id | Wanted(inst.spec, id) && 4 <= Rank(id) ensures Placed(a, w.db.objs, TargetOf(inst, h, id)) {
      assert Placed(b, w.db.objs, TargetOf(inst, h, id)) && SameAt(a, b, KeyOf(inst, id));
    }
    assert SameAt(a, b, KeyOf(inst, AccountChild));
  }

  lemma SplitSync(inst: TlnDB, h: string, a: Objects, p: Pass)
    requires Rest(inst, h, a, p)
    ensures Split(inst, h, a, SyncStatus(p.w, p.rec).0)
  {
    CalmSyncKeeps(p.w, p.rec);
  }

  lemma SplitWork(w: World, rec: Record, spec: Spec)
    requires Begins(w.db) && w.db.inst == Some(rec) && w.schedule == [QUIET, QUIET, Tick([EditSpec(spec)], Ok)]
    ensures var p := ReconcileResources(w, rec);
      !p.failed && Split(Edited(rec.obj, spec), ConfigHash(rec.obj.spec), w.db.objs, SyncStatus(p.w, p.rec).0)
  {
    var p := Pass(w, rec, [], false);
    var inst, h := Edited(rec.obj, spec), ConfigHash(rec.obj.spec);
    assert RunAll(AccessPlan(rec.obj), p) == p;
    SplitLoad(p, spec);
    var r := LoadConfig(p).0;
    RestOfPass(inst, h, r);
    var end := Persist(ServeAndMore(r, h));
    SplitSync(inst, h, r.w.db.objs, end);
    SplitFrom(inst, h, w.db.objs, r.w.db.objs, SyncStatus(end.w, end.rec).0);
  }

  lemma SplitPass(w: World, spec: Spec)
    requires Begins(w.db) && w.schedule == EditSchedule(spec)
    ensures var inst := w.db.inst.value.obj;
      Split(Edited(inst, spec), ConfigHash(inst.spec), w.db.objs, Reconcile(w).0)
  {
    QuietArrive(w);
    var w1 := w.(schedule := w.schedule[1..]);
    assert w1.schedule == [QUIET, QUIET, Tick([EditSpec(spec)], Ok)];
    SplitWork(w1, w.db.inst.value, spec);
  }

  // ---- A generation nobody worked on --------------------------------------------------------------

  /**
   If the edited spec wants a service account that is not there, the pass records its generation and the
   account is still missing: the recorded generation is not complete, whatever digest one assumes.
   */
  lemma UnworkedGenerationIsRecorded(w: World, spec: Spec)
    requires Begins(w.db) && w.schedule == EditSchedule(spec)
    requires spec.serviceAccountName == "" && KeyOf(w.db.inst.value.obj, AccountChild) !in w.db.objs
    ensures var old_, w' := w.db.inst.value.obj, Reconcile(w).0;
      w'.db.inst.Some? &&
      var now := w'.db.inst.value.obj;
      now.spec == spec && now.generation == old_.generation + 1 && now.status.observedGeneration == now.generation
      && forall h :: !Complete(now, h, w'.db.objs)
  {
    SplitPass(w, spec);
    var w' := Reconcile(w).0;
    var now := w'.db.inst.value.obj;
    assert KeyOf(now, AccountChild) !in w'.db.objs;
    forall h ensures !Complete(now, h, w'.db.objs) {
      assert Wanted(now.spec, AccountChild) && TargetOf(now, h, AccountChild).key !in w'.db.objs;
    }
  }

  // ---- A wrong wiring nobody notices ---------------------------------------------------------------

  /** The edit during the pass, the edit back, and one undisturbed pass. */
  function ThereAndBack(old_: Spec, spec: Spec): seq<Item> {
    [PassItem(EditSchedule(spec)), EnvItem([EditSpec(old_)]), PassItem([])]
  }

  /** The set that the split pass created. */
  lemma SplitSet(inst: TlnDB, h: string, a: Objects, w: World, role: RoleName)
    requires Split(inst, h, a, w) && Wanted(inst.spec, SetChild(role)) && KeyOf(inst, SetChild(role)) !in a
    ensures var key := KeyOf(inst, SetChild(role)); key in w.db.objs && SetOf(w.db.objs, key) == SetSpec(inst, h, role)
  {
    var t := TargetOf(inst, h, SetChild(role));
    TargetSet(inst, h, role);
    assert Placed(a, w.db.objs, t);
    CreatedSet(a, w.db.objs, t);
  }

  lemma CreatedSet(a: Objects, b: Objects, t: Target)
    requires Placed(a, b, t) && t.key.kind.StatefulSet? && t.key !in a
    ensures t.key in b && SetOf(b, t.key) == t.desired.body.sts
  {
  }

  /** A pass that sees nothing to update leaves the set as it is. */
  lemma UnnoticedSet(a: Objects, b: Objects, t: Target)
    requires Placed(a, b, t) && t.key.kind.StatefulSet? && t.key in a && !NeedsUpdate(SetOf(a, t.key), t.desired.body.sts)
    ensures t.key in b && SetOf(b, t.key) == SetOf(a, t.key)
  {
  }

  lemma DoneLeavesSet(inst: TlnDB, h: string, a: Objects, b: Objects, role: RoleName, key: Key, sts: StatefulSetSpec)
    requires ChildrenAfter(inst, h, a, b) && Wanted(inst.spec, SetChild(role)) && key == KeyOf(inst, SetChild(role))
    requires key in a && SetOf(a, key) == sts && !NeedsUpdate(sts, SetSpec(inst, h, role))
    ensures key in b && SetOf(b, key) == sts
  {
    var t := TargetOf(inst, h, SetChild(role));
    TargetSet(inst, h, role);
    assert Placed(a, b, t);
    UnnoticedSet(a, b, t);
  }

  lemma PassLeavesSet(w: World, inst: TlnDB, role: RoleName, key: Key, sts: StatefulSetSpec)
    requires w.schedule == [] && w.db.inst.Some? && inst == w.db.inst.value.obj && Active(inst) && inst.spec.configFrom.None?
    requires Wanted(inst.spec, SetChild(role)) && key == KeyOf(inst, SetChild(role)) && key in w.db.objs && SetOf(w.db.objs, key) == sts
    requires !NeedsUpdate(sts, SetSpec(inst, ConfigHash(inst.spec), role))
    ensures var w' := Reconcile(w).0;
      w'.db.inst.Some? && OnlyStatus(inst, w'.db.inst.value.obj) && key in w'.db.objs && SetOf(w'.db.objs, key) == sts
  {
    CalmReconcile(w);
    DoneLeavesSet(inst, ConfigHash(inst.spec), w.db.objs, Reconcile(w).0.db.objs, role, key, sts);
  }

  /** What the run has come to: the test is satisfied, the wiring is not. */
  ghost predicate Miswired(db: Db, old_: TlnDB, role: RoleName) {
    db.inst.Some? &&
    var inst, key := db.inst.value.obj, KeyOf(old_, SetChild(role));
    inst.spec == old_.spec && inst.name == old_.name && inst.namespace == old_.namespace && key in db.objs
    && !NeedsUpdate(SetOf(db.objs, key), SetSpec(inst, ConfigHash(inst.spec), role))
    && !WiredAs(SetOf(db.objs, key), inst, role)
  }

  /** The edit keeps replicas and image and changes a port; both specs want the set. */
  predicate OnlyPortsDiffer(a: Spec, b: Spec, role: RoleName) {
    Clean(a) && Clean(b) && Wanted(a, SetChild(role)) && Wanted(b, SetChild(role))
    && Replicas(a, role) == Replicas(b, role) && a.image == b.image
    && (GrpcPort(a) != GrpcPort(b) || HttpPort(a) != HttpPort(b))
  }

  lemma SplitSetEscapes(edited: TlnDB, back: TlnDB, role: RoleName)
    requires OnlyPortsDiffer(back.spec, edited.spec, role) && edited.name == back.name && edited.namespace == back.namespace
    ensures var sts, h := SetSpec(edited, ConfigHash(back.spec), role), ConfigHash(back.spec);
      !NeedsUpdate(sts, SetSpec(back, h, role)) && !WiredAs(sts, back, role)
  {
    StampedHash(edited, ConfigHash(back.spec), role);
    StampedHash(back, ConfigHash(back.spec), role);
    WiredMeansPorts(edited, ConfigHash(back.spec), back, role);
  }

  /** The user edits the spec back. */
  lemma EditBack(w: World, spec: Spec)
    requires w.schedule == [] && w.db.inst.Some?
    ensures var w' := DisturbAll(w, [EditSpec(spec)]);
      w'.schedule == [] && w'.db.objs == w.db.objs && w'.db.inst.Some? && w'.db.inst.value.obj == Edited(w.db.inst.value.obj, spec)
  {
    assert [EditSpec(spec)][1..] == [];
    assert DisturbAll(w, [EditSpec(spec)]) == DisturbAll(Disturb(w, EditSpec(spec)), []);
  }

  /** Once the spec is back, the next pass sees nothing to do. */
  lemma BackAgain(inst: TlnDB, spec: Spec, a: Objects, w: World, role: RoleName)
    requires Active(inst) && OnlyPortsDiffer(inst.spec, spec, role) && KeyOf(inst, SetChild(role)) !in a
    requires Split(Edited(inst, spec), ConfigHash(inst.spec), a, w)
    ensures Miswired(Reconcile(DisturbAll(w, [EditSpec(inst.spec)])).0.db, inst, role)
  {
    var edited, key := Edited(inst, spec), KeyOf(inst, SetChild(role));
    var sts := SetSpec(edited, ConfigHash(inst.spec), role);
    SplitSet(edited, ConfigHash(inst.spec), a, w, role);
    EditBack(w, inst.spec);
    var w' := DisturbAll(w, [EditSpec(inst.spec)]);
    var back := w'.db.inst.value.obj;
    SplitSetEscapes(edited, back, role);
    PassLeavesSet(w', back, role, key, sts);
    StillMiswired(edited, back, Reconcile(w').0.db.inst.value.obj, role);
  }

  lemma StillMiswired(edited: TlnDB, back: TlnDB, after: TlnDB, role: RoleName)
    requires OnlyPortsDiffer(back.spec, edited.spec, role) && edited.name == back.name && edited.namespace == back.namespace
    requires OnlyStatus(back, after)
    ensures var sts := SetSpec(edited, ConfigHash(after.spec), role);
      !NeedsUpdate(sts, SetSpec(after, ConfigHash(after.spec), role)) && !WiredAs(sts, after, role)
  {
    SplitSetEscapes(edited, after, role);
  }

  lemma RunUnrolled(w: World, a: Item, b: Item, c: Item)
    ensures Execute(w, [a, b, c]) == Perform(Perform(Perform(w, a), b), c)
  {
    assert [a, b, c][1..] == [b, c] && [b, c][1..] == [c] && [c][1..] == [];
    ExecuteOne(w, [a, b, c]);
    ExecuteOne(Perform(w, a), [b, c]);
    ExecuteOne(Perform(Perform(w, a), b), [c]);
  }

  lemma ExecuteOne(w: World, items: seq<Item>)
    requires items != []
    ensures Execute(w, items) == Execute(Perform(w, items[0]), items[1..])
    ensures |items| == 1 ==> Execute(w, items) == Perform(w, items[0])
  {
  }

  /**
   A run in which nothing fails: the spec is edited during a pass and edited back after it, and one more pass
   ends with a set that satisfies the update test for the stored spec and listens on the other spec's ports.
   */
  lemma MidPassEditMiswires(w: World, spec: Spec, role: RoleName)
    requires Begins(w.db)
    requires var inst := w.db.inst.value.obj; OnlyPortsDiffer(inst.spec, spec, role) && KeyOf(inst, SetChild(role)) !in w.db.objs
    ensures var inst := w.db.inst.value.obj;
      Miswired(Execute(w, ThereAndBack(inst.spec, spec)).db, inst, role)
  {
    var inst := w.db.inst.value.obj;
    var start := w.(schedule := EditSchedule(spec));
    SplitPass(start, spec);
    BackAgain(inst, spec, w.db.objs, Reconcile(start).0, role);
    ThereAndBackRun(w, inst.spec, spec, Reconcile(start).0);
  }

  lemma ThereAndBackRun(w: World, old_: Spec, spec: Spec, split: World)
    requires split == Reconcile(w.(schedule := EditSchedule(spec))).0 && split.schedule == [] && split.db.inst.Some?
    ensures Execute(w, ThereAndBack(old_, spec)).db == Reconcile(DisturbAll(split, [EditSpec(old_)])).0.db
  {
    var a, b, c := PassItem(EditSchedule(spec)), EnvItem([EditSpec(old_)]), PassItem([]);
    var back := DisturbAll(split, [EditSpec(old_)]);
    EditBack(split, old_);
    RunUnrolled(w, a, b, c);
    assert split.(schedule := []) == split && back.(schedule := []) == back;
    assert Perform(w, a) == split;
    assert Perform(split, b) == back;
  }

  function WithPort(spec: Spec, port: nat): Spec { spec.(config := spec.config.(tcp := "" + ":" + Decimal(port))) }

  /** So for every clean standalone spec and every other port, starting from an empty namespace. */
  lemma AnyOtherPortIsMissed(inst: TlnDB, port: nat)
    requires Active(inst) && !inst.status.phase.Unset? && inst.spec.serviceAccountName != "" && Clean(inst.spec) && !Replicated(inst.spec)
    requires 1 <= port <= 65535 && port != GrpcPort(inst.spec)
    ensures var w := World(Db(1, Some(Record(0, inst)), map[]), [], []);
      Miswired(Execute(w, ThereAndBack(inst.spec, WithPort(inst.spec, port))).db, inst, Standalone)
  {
    FormattedPortParsesBack("", port, DEFAULT_GRPC_PORT);
    assert GrpcPort(WithPort(inst.spec, port)) == port;
    MidPassEditMiswires(World(Db(1, Some(Record(0, inst)), map[]), [], []), WithPort(inst.spec, port), Standalone);
  }
}

/**
 Safety over every schedule: whatever fails and whoever interferes between two
 calls of the controller, every event is one that `Invariants` allows.
 */
module Safety {
  import opened Api
  import opened Common
  import opened Workloads
  import opened Children
  import opened Cluster
  import opened Controller
  import opened Invariants

  // ---- The environment --------------------------------------------------------

  lemma PutKeeps(s: Scope, db: Db, key: Key, child: Child)
    requires DbOk(s, db) && OfKind(key.kind, child.body) && ChildOk(s, key, child)
    ensures DbOk(s, Put(db, key, child))
  {
  }

  lemma PutInstanceKeeps(s: Scope, db: Db, inst: TlnDB)
    requires DbOk(s, db) && InstanceOk(s, inst)
    ensures DbOk(s, PutInstance(db, inst))
  {
  }

  lemma RemoveKeeps(s: Scope, db: Db, key: Key)
    requires DbOk(s, db)
    ensures DbOk(s, Remove(db, key))
  {
  }

  lemma StatusIsFree(s: Scope, key: Key, child: Child, status: StatefulSetStatus)
    requires ChildOk(s, key, child) && child.body.StatefulSetBody?
    ensures ChildOk(s, key, child.(body := child.body.(status := status)))
  {
  }

  /** A write that leaves the specs of sets alone, by anyone. */
  lemma PlainWriteOk(s: Scope, author: Option<Spec>, db: Db, key: Key, child: Child)
    requires DbOk(s, db) && OfKind(key.kind, child.body) && ChildOk(s, key, child)
    requires key in db.objs ==> Evolves(db.objs[key].obj, child)
    requires author.Some? ==> Held(db) && InFootprint(s.namespace, s.name, key)
    requires SetsAuthored(s, Event(author, db, Put(db, key, child)))
    ensures EventOk(s, Event(author, db, Put(db, key, child)))
  {
    PutKeeps(s, db, key, child);
  }

  lemma KeepsSets(s: Scope, author: Option<Spec>, db: Db, key: Key, child: Child)
    requires OfKind(key.kind, child.body) && (key.kind.StatefulSet? ==> key in db.objs && db.objs[key].obj.body.sts == child.body.sts)
    ensures SetsAuthored(s, Event(author, db, Put(db, key, child)))
  {
    var e := Event(author, db, Put(db, key, child));
    forall k ensures !WritesSet(e, k) {
      assert SetIn(e.after, k) == SetIn(e.before, k);
    }
  }

  lemma OutsideWriteOk(s: Scope, db: Db, key: Key, child: Child)
    requires DbOk(s, db) && OfKind(key.kind, child.body) && ChildOk(s, key, child)
    requires key in db.objs ==> Evolves(db.objs[key].obj, child)
    requires key.kind.StatefulSet? ==> key in db.objs && db.objs[key].obj.body.sts == child.body.sts
    ensures EventOk(s, Event(None, db, Put(db, key, child)))
  {
    KeepsSets(s, None, db, key, child);
    PlainWriteOk(s, None, db, key, child);
  }

  lemma ReportKeeps(s: Scope, db: Db, key: Key, child: Child, status: StatefulSetStatus)
    requires DbOk(s, db) && key.kind.StatefulSet? && key in db.objs && child == db.objs[key].obj
    ensures EventOk(s, Event(None, db, Put(db, key, child.(body := child.body.(status := status)))))
  {
    StatusIsFree(s, key, child, status);
    OutsideWriteOk(s, db, key, child.(body := child.body.(status := status)));
  }

  lemma ConfigMapKeeps(s: Scope, db: Db, key: Key, child: Child)
    requires DbOk(s, db) && key.kind.ConfigMap? && child.body.ConfigMapBody?
    ensures EventOk(s, Event(None, db, Put(db, key, child)))
  {
    if key in db.objs { assert OfKind(key.kind, db.objs[key].obj.body); }
    OutsideWriteOk(s, db, key, child);
  }

  lemma EditConfigMapKeeps(s: Scope, db: Db, namespace: string, name: string, data: StringMap)
    requires DbOk(s, db)
    ensures EventOk(s, Event(None, db, ApplyEnv(db, EditConfigMap(namespace, name, data))))
  {
    var key := Key(ConfigMap, namespace, name);
    if key in db.objs {
      ConfigMapKeeps(s, db, key, db.objs[key].obj.(body := ConfigMapBody(data)));
    } else {
      ConfigMapKeeps(s, db, key, Child(map[], map[], None, ConfigMapBody(data)));
    }
  }

  lemma NothingHappened(s: Scope, db: Db)
    requires DbOk(s, db)
    ensures EventOk(s, Event(None, db, db))
  {
  }

  lemma InstanceEditKeeps(s: Scope, db: Db, inst: TlnDB)
    requires DbOk(s, db) && InstanceOk(s, inst) && db.inst.Some? && InstanceEvolves(false, db.inst.value.obj, inst)
    ensures EventOk(s, Event(None, db, PutInstance(db, inst)))
  {
    PutInstanceKeeps(s, db, inst);
  }

  lemma InstanceStepKeeps(s: Scope, db: Db, step: EnvStep)
    requires DbOk(s, db) && StepOk(s, step) && (step.EditSpec? || step.RequestDeletion?)
    ensures EventOk(s, Event(None, db, ApplyEnv(db, step)))
  {
    NothingHappened(s, db);
    if db.inst.Some? {
      var inst := db.inst.value.obj;
      if step.EditSpec? {
        InstanceEditKeeps(s, db, inst.(spec := step.spec, generation := inst.generation + 1));
      } else if !inst.deleting && inst.finalizers != {} {
        InstanceEditKeeps(s, db, inst.(deleting := true, generation := inst.generation + 1));
      }
    }
  }

  lemma RemovalKeeps(s: Scope, db: Db, key: Key)
    requires DbOk(s, db)
    ensures EventOk(s, Event(None, db, Remove(db, key)))
  {
    RemovalIsAuthored(s, None, db, key);
    RemoveKeeps(s, db, key);
  }

  /** Every environment step is an allowed event. */
  lemma EnvKeeps(s: Scope, db: Db, step: EnvStep)
    requires DbOk(s, db) && StepOk(s, step)
    ensures EventOk(s, Event(None, db, ApplyEnv(db, step)))
  {
    match step
    case EditSpec(_) => InstanceStepKeeps(s, db, step);
    case RequestDeletion => InstanceStepKeeps(s, db, step);
    case ReportStatus(key, status) =>
      NothingHappened(s, db);
      if key.kind.StatefulSet? && key in db.objs { ReportKeeps(s, db, key, db.objs[key].obj, status); }
    case EditConfigMap(namespace, name, data) => EditConfigMapKeeps(s, db, namespace, name, data);
    case RemoveConfigMap(namespace, name) => RemovalKeeps(s, db, Key(ConfigMap, namespace, name));
  }

  /** What the controller relies on survives interference. */
  lemma EnvKeepsReliance(s: Scope, mode: Mode, rec: Record, db: Db, step: EnvStep)
    requires DbOk(s, db) && Relies(s, mode, rec, db) && Interferes(s, step)
    ensures Relies(s, mode, rec, ApplyEnv(db, step))
  {
  }

  // ---- Versions ---------------------------------------------------------------

  /** An object whose version is older than `clock` is as it was when the clock showed that. */
  ghost predicate Since(clock: nat, before: Objects, after: Objects, key: Key) {
    key in after && after[key].rv < clock ==> key in before && after[key] == before[key]
  }

  lemma EnvKeepsVersions(db: Db, step: EnvStep, key: Key)
    ensures Since(db.clock, db.objs, ApplyEnv(db, step).objs, key) && db.clock <= ApplyEnv(db, step).clock
  {
  }

  lemma {:induction false} DisturbKeepsVersions(w: World, steps: seq<EnvStep>, key: Key)
    ensures Since(w.db.clock, w.db.objs, DisturbAll(w, steps).db.objs, key)
    ensures w.db.clock <= DisturbAll(w, steps).db.clock
    decreases |steps|
  {
    if steps != [] {
      EnvKeepsVersions(w.db, steps[0], key);
      DisturbKeepsVersions(Disturb(w, steps[0]), steps[1..], key);
    }
  }

  // ---- Arriving at the server ---------------------------------------------------

  lemma LogSnoc(s: Scope, log: seq<Event>, e: Event)
    requires LogOk(s, log) && Chained(log, e.before) && EventOk(s, e) && DbOk(s, e.before)
    ensures LogOk(s, log + [e]) && Chained(log + [e], e.after)
  {
    ChainSnoc(log, e);
    var longer := log + [e];
    forall i | 0 <= i < |longer| ensures EventOk(s, longer[i]) {
      assert longer[i] == if i < |log| then log[i] else e;
    }
    assert longer[0] == if log != [] then log[0] else e;
  }

  lemma ChainSnoc(log: seq<Event>, e: Event)
    requires Chained(log, e.before)
    ensures Chained(log + [e], e.after)
  {
  }

  lemma {:induction false} DisturbKeeps(s: Scope, mode: Mode, rec: Record, w: World, steps: seq<EnvStep>)
    requires WorldOk(s, w) && Relies(s, mode, rec, w.db)
    requires forall i | 0 <= i < |steps| :: Interferes(s, steps[i])
    ensures WorldOk(s, DisturbAll(w, steps)) && Relies(s, mode, rec, DisturbAll(w, steps).db)
    ensures DisturbAll(w, steps).schedule == w.schedule
    decreases |steps|
  {
    if steps != [] {
      EnvKeeps(s, w.db, steps[0]);
      EnvKeepsReliance(s, mode, rec, w.db, steps[0]);
      LogSnoc(s, w.log, Event(None, w.db, ApplyEnv(w.db, steps[0])));
      DisturbKeeps(s, mode, rec, Disturb(w, steps[0]), steps[1..]);
    }
  }

  lemma ArriveKeeps(s: Scope, mode: Mode, rec: Record, w: World)
    requires WorldOk(s, w) && Relies(s, mode, rec, w.db)
    ensures WorldOk(s, Arrive(w).0) && Relies(s, mode, rec, Arrive(w).0.db)
  {
    if w.schedule != [] {
      assert TickOk(s, w.schedule[0]);
      DisturbKeeps(s, mode, rec, w.(schedule := w.schedule[1..]), w.schedule[0].before);
    }
  }

  lemma ArriveKeepsVersions(w: World, key: Key)
    ensures Since(w.db.clock, w.db.objs, Arrive(w).0.db.objs, key) && w.db.clock <= Arrive(w).0.db.clock
  {
    if w.schedule != [] {
      DisturbKeepsVersions(w.(schedule := w.schedule[1..]), w.schedule[0].before, key);
    }
  }

  // ---- Writing children ---------------------------------------------------------

  lemma CommitKeeps(s: Scope, mode: Mode, rec: Record, w: World, db: Db)
    requires WorldOk(s, w) && EventOk(s, Event(Some(rec.obj.spec), w.db, db)) && Relies(s, mode, rec, db)
    ensures WorldOk(s, Commit(w, rec.obj.spec, db)) && Relies(s, mode, rec, Commit(w, rec.obj.spec, db).db)
  {
    LogSnoc(s, w.log, Event(Some(rec.obj.spec), w.db, db));
  }

  lemma AttemptKeeps(s: Scope, mode: Mode, rec: Record, w: World, db: Db, outcome: Outcome)
    requires WorldOk(s, w) && Relies(s, mode, rec, w.db)
    requires EventOk(s, Event(Some(rec.obj.spec), w.db, db)) && Relies(s, mode, rec, db)
    ensures WorldOk(s, Attempt(w, rec.obj.spec, db, outcome).0) && Relies(s, mode, rec, Attempt(w, rec.obj.spec, db, outcome).0.db)
  {
    CommitKeeps(s, mode, rec, w, db);
  }

  /** A target the instance's own builders could have produced; a set, from the given spec. */
  ghost predicate TargetOk(s: Scope, spec: Spec, t: Target) {
    InFootprint(s.namespace, s.name, t.key)
    && (t.key.kind.StatefulSet? ==> exists role, src: Source :: src.inst.spec == spec && BuiltBy(s, t, role, src))
    && (t.key.kind.RoleBinding? ==> t.desired.body.roleRef == s.name)
  }

  ghost predicate BuiltBy(s: Scope, t: Target, role: RoleName, src: Source) {
    SourceOk(s, src) && RoleFits(role, src.inst.spec) && t.key == Key(StatefulSet, s.namespace, WorkloadName(s.name, role)) &&
    t.desired.body.sts == SetSpec(src.inst, src.configHash, role)
  }

  lemma AdmittedIsOk(s: Scope, spec: Spec, t: Target, address: nat)
    requires TargetOk(s, spec, t)
    ensures ChildOk(s, t.key, Admit(t.desired, address))
  {
    if t.key.kind.StatefulSet? {
      var role, src: Source :| src.inst.spec == spec && BuiltBy(s, t, role, src);
      assert Explains(s, t.key, t.desired.body.sts, Provenance(role, src, src));
    }
  }

  lemma SameKeySameRole(s: Scope, key: Key, a: RoleName, b: RoleName)
    requires key.name == WorkloadName(s.name, a) && key.name == WorkloadName(s.name, b)
    ensures a == b
  {
    SuffixLengths(s.name);
  }

  /** Rewriting replicas and template records the new writer. */
  lemma RewrittenIsExplained(s: Scope, spec: Spec, t: Target, sts: StatefulSetSpec)
    requires TargetOk(s, spec, t) && t.key.kind.StatefulSet? && exists v :: Explains(s, t.key, sts, v)
    ensures var desired := t.desired.body.sts;
      exists v :: Explains(s, t.key, sts.(replicas := desired.replicas, template := desired.template), v)
  {
    var role, src: Source :| src.inst.spec == spec && BuiltBy(s, t, role, src);
    var v :| Explains(s, t.key, sts, v);
    SameKeySameRole(s, t.key, role, v.role);
    var next := sts.(replicas := t.desired.body.sts.replicas, template := t.desired.body.sts.template);
    assert Explains(s, t.key, next, v.(writer := src));
  }

  lemma RevisionEvolves(kind: Kind, existing: Child, desired: Child)
    requires OfKind(kind, existing.body) && OfKind(kind, desired.body) && Revise(kind, existing, desired).Some?
    requires kind.RoleBinding? ==> existing.body.roleRef == desired.body.roleRef
    ensures Evolves(existing, Replace(existing, Revise(kind, existing, desired).value))
  {
  }

  /** A revision keeps the immutable fields and a provenance. */
  lemma RevisedIsOk(s: Scope, spec: Spec, t: Target, existing: Child)
    requires TargetOk(s, spec, t) && OfKind(t.key.kind, existing.body) && ChildOk(s, t.key, existing)
    requires Revise(t.key.kind, existing, t.desired).Some?
    ensures var next := Replace(existing, Revise(t.key.kind, existing, t.desired).value);
      ChildOk(s, t.key, next) && Evolves(existing, next)
  {
    RevisionEvolves(t.key.kind, existing, t.desired);
    if t.key.kind.StatefulSet? {
      RewrittenIsExplained(s, spec, t, existing.body.sts);
    }
  }

  lemma OwnWriteOk(s: Scope, rec: Record, db: Db, key: Key, child: Child)
    requires DbOk(s, db) && Relies(s, Working, rec, db)
    requires InFootprint(s.namespace, s.name, key) && OfKind(key.kind, child.body) && ChildOk(s, key, child)
    requires key in db.objs ==> Evolves(db.objs[key].obj, child)
    requires SetsAuthored(s, Event(Some(rec.obj.spec), db, Put(db, key, child)))
    ensures EventOk(s, Event(Some(rec.obj.spec), db, Put(db, key, child))) && Relies(s, Working, rec, Put(db, key, child))
  {
    PlainWriteOk(s, Some(rec.obj.spec), db, key, child);
  }

  /** The set that is written follows the target, so the target's spec is its author. */
  lemma TargetIsAuthored(s: Scope, spec: Spec, db: Db, t: Target, child: Child)
    requires TargetOk(s, spec, t) && OfKind(t.key.kind, child.body)
    requires t.key.kind.StatefulSet? ==>
      var desired := t.desired.body.sts;
      child.body.sts == if t.key in db.objs then db.objs[t.key].obj.body.sts.(replicas := desired.replicas, template := desired.template) else desired
    ensures SetsAuthored(s, Event(Some(spec), db, Put(db, t.key, child)))
  {
    var e := Event(Some(spec), db, Put(db, t.key, child));
    forall k | WritesSet(e, k) ensures AuthoredBy(s, spec, k, SetIn(e.before, k), SetIn(e.after, k).value) {
      assert k == t.key;
      var role, src: Source :| src.inst.spec == spec && BuiltBy(s, t, role, src);
      assert WrittenFrom(s, k, SetIn(e.before, k), SetIn(e.after, k).value, role, src);
    }
  }

  lemma RemovalIsAuthored(s: Scope, author: Option<Spec>, db: Db, key: Key)
    ensures SetsAuthored(s, Event(author, db, Remove(db, key)))
  {
    var e := Event(author, db, Remove(db, key));
    forall k ensures !WritesSet(e, k) {
      assert SetIn(e.after, k).Some? ==> SetIn(e.after, k) == SetIn(e.before, k);
    }
  }

  lemma OwnDeleteOk(s: Scope, rec: Record, db: Db, key: Key)
    requires DbOk(s, db) && Relies(s, Working, rec, db) && InFootprint(s.namespace, s.name, key)
    ensures EventOk(s, Event(Some(rec.obj.spec), db, Remove(db, key))) && Relies(s, Working, rec, Remove(db, key))
  {
    RemovalIsAuthored(s, Some(rec.obj.spec), db, key);
    RemoveKeeps(s, db, key);
  }

  lemma CreatedOk(s: Scope, rec: Record, db: Db, t: Target)
    requires DbOk(s, db) && Relies(s, Working, rec, db) && TargetOk(s, rec.obj.spec, t) && t.key !in db.objs
    ensures var after := Put(db, t.key, Admit(t.desired, db.clock));
      EventOk(s, Event(Some(rec.obj.spec), db, after)) && Relies(s, Working, rec, after)
  {
    AdmittedIsOk(s, rec.obj.spec, t, db.clock);
    TargetIsAuthored(s, rec.obj.spec, db, t, Admit(t.desired, db.clock));
    OwnWriteOk(s, rec, db, t.key, Admit(t.desired, db.clock));
  }

  lemma CreateKeeps(s: Scope, rec: Record, w: World, t: Target)
    requires WorldOk(s, w) && Relies(s, Working, rec, w.db) && TargetOk(s, rec.obj.spec, t)
    ensures var w' := Create(w, rec.obj.spec, t.key, t.desired).0; WorldOk(s, w') && Relies(s, Working, rec, w'.db)
  {
    ArriveKeeps(s, Working, rec, w);
    var (w1, outcome) := Arrive(w);
    if t.key !in w1.db.objs {
      CreatedOk(s, rec, w1.db, t);
      AttemptKeeps(s, Working, rec, w1, Put(w1.db, t.key, Admit(t.desired, w1.db.clock)), outcome);
    }
  }

  lemma UpdatedOk(s: Scope, rec: Record, db: Db, t: Target, existing: Child, next: Child)
    requires DbOk(s, db) && Relies(s, Working, rec, db) && TargetOk(s, rec.obj.spec, t)
    requires t.key in db.objs && db.objs[t.key].obj == existing && Revise(t.key.kind, existing, t.desired) == Some(next)
    ensures var after := Put(db, t.key, Replace(existing, next));
      EventOk(s, Event(Some(rec.obj.spec), db, after)) && Relies(s, Working, rec, after)
  {
    RevisedIsOk(s, rec.obj.spec, t, existing);
    RevisedIsAuthored(s, rec.obj.spec, db, t, existing, next);
    OwnWriteOk(s, rec, db, t.key, Replace(existing, next));
  }

  lemma RevisedIsAuthored(s: Scope, spec: Spec, db: Db, t: Target, existing: Child, next: Child)
    requires TargetOk(s, spec, t) && t.key in db.objs && db.objs[t.key].obj == existing
    requires Revise(t.key.kind, existing, t.desired) == Some(next)
    ensures SetsAuthored(s, Event(Some(spec), db, Put(db, t.key, Replace(existing, next))))
  {
    TargetIsAuthored(s, spec, db, t, Replace(existing, next));
  }

  lemma UpdateKeeps(s: Scope, rec: Record, w: World, t: Target)
    requires WorldOk(s, w) && Relies(s, Working, rec, w.db) && TargetOk(s, rec.obj.spec, t)
    requires t.key in w.db.objs && Revise(t.key.kind, w.db.objs[t.key].obj, t.desired).Some?
    ensures var next := Revise(t.key.kind, w.db.objs[t.key].obj, t.desired).value;
      var w' := Update(w, rec.obj.spec, t.key, w.db.objs[t.key].rv, next).0;
      WorldOk(s, w') && Relies(s, Working, rec, w'.db)
  {
    var stored := w.db.objs[t.key];
    var next := Revise(t.key.kind, stored.obj, t.desired).value;
    ArriveKeeps(s, Working, rec, w);
    ArriveKeepsVersions(w, t.key);
    var (w1, outcome) := Arrive(w);
    if t.key in w1.db.objs && w1.db.objs[t.key].rv == stored.rv {
      UpdatedOk(s, rec, w1.db, t, stored.obj, next);
      AttemptKeeps(s, Working, rec, w1, Put(w1.db, t.key, Replace(stored.obj, next)), outcome);
    }
  }

  lemma EnsureKeeps(s: Scope, rec: Record, w: World, t: Target)
    requires WorldOk(s, w) && Relies(s, Working, rec, w.db) && TargetOk(s, rec.obj.spec, t)
    ensures var w' := Ensure(w, rec.obj.spec, t).0; WorldOk(s, w') && Relies(s, Working, rec, w'.db)
  {
    ArriveKeeps(s, Working, rec, w);
    var (w1, fetch) := Get(w, t.key);
    if fetch.Missing? {
      CreateKeeps(s, rec, w1, t);
    } else if fetch.Found? && Revise(t.key.kind, fetch.value.obj, t.desired).Some? {
      UpdateKeeps(s, rec, w1, t);
    }
  }

  lemma DeleteKeeps(s: Scope, rec: Record, w: World, key: Key)
    requires WorldOk(s, w) && Relies(s, Working, rec, w.db) && InFootprint(s.namespace, s.name, key)
    ensures var w' := DeleteIfExists(w, rec.obj.spec, key).0; WorldOk(s, w') && Relies(s, Working, rec, w'.db)
  {
    ArriveKeeps(s, Working, rec, w);
    var (w1, fetch) := Get(w, key);
    if fetch.Found? {
      ArriveKeeps(s, Working, rec, w1);
      var (w2, outcome) := Arrive(w1);
      if key in w2.db.objs {
        OwnDeleteOk(s, rec, w2.db, key);
        AttemptKeeps(s, Working, rec, w2, Remove(w2.db, key), outcome);
      }
    }
  }

  // ---- Writing status -----------------------------------------------------------

  /** Patches that leave the phase and the readiness condition alone, or that set them together. */
  predicate PatchOk(copy: TlnDB, next: Status) {
    (next.observedGeneration == copy.status.observedGeneration || next.observedGeneration == copy.generation)
    && !next.phase.Terminating?
    && ((next.phase == copy.status.phase && Ready(next) == Ready(copy.status)) || Coherent(next))
  }

  /** After such a patch the pass can go on, even if the patch failed. */
  predicate Continues(copy: TlnDB, next: Status) {
    (next.phase == copy.status.phase || copy.status.phase.Unset?) && Ready(next) == Ready(copy.status)
  }

  /** The merged status is coherent although the base of the patch may be stale. */
  lemma MergedIsOk(s: Scope, copy: TlnDB, stored: TlnDB, next: Status)
    requires InstanceOk(s, stored) && InWork(s, copy, stored) && PatchOk(copy, next)
    ensures var after := stored.(status := MergeStatus(copy.status, next, stored.status));
      InstanceOk(s, after) && InstanceEvolves(true, stored, after)
  {
  }

  lemma MergedCanGoOn(s: Scope, copy: TlnDB, stored: TlnDB, next: Status)
    requires InstanceOk(s, stored) && InWork(s, copy, stored) && PatchOk(copy, next) && Continues(copy, next)
    ensures var after := stored.(status := MergeStatus(copy.status, next, stored.status));
      InWork(s, after, after) && InWork(s, copy.(status := next), after) && InWork(s, copy.(status := next), stored)
  {
  }

  lemma InstanceWriteOk(s: Scope, author: Spec, db: Db, inst: TlnDB)
    requires DbOk(s, db) && db.inst.Some? && InstanceOk(s, inst) && InstanceEvolves(true, db.inst.value.obj, inst)
    ensures EventOk(s, Event(Some(author), db, PutInstance(db, inst)))
  {
    PutInstanceKeeps(s, db, inst);
  }

  /** A patch at the end of a pass: nothing is relied on afterwards. */
  lemma LastPatchKeeps(s: Scope, rec: Record, w: World, next: Status)
    requires WorldOk(s, w) && Relies(s, Working, rec, w.db) && PatchOk(rec.obj, next)
    ensures WorldOk(s, PatchStatus(w, rec, next).0)
  {
    ArriveKeeps(s, Working, rec, w);
    var (w1, outcome) := Arrive(w);
    var stored := w1.db.inst.value.obj;
    var after := stored.(status := MergeStatus(rec.obj.status, next, stored.status));
    MergedIsOk(s, rec.obj, stored, next);
    InstanceWriteOk(s, rec.obj.spec, w1.db, after);
    LogSnoc(s, w1.log, Event(Some(rec.obj.spec), w1.db, PutInstance(w1.db, after)));
  }

  /** A patch during a pass. */
  lemma PatchKeeps(s: Scope, rec: Record, w: World, next: Status)
    requires WorldOk(s, w) && Relies(s, Working, rec, w.db) && PatchOk(rec.obj, next) && Continues(rec.obj, next)
    ensures var (w', rec', _) := PatchStatus(w, rec, next);
      WorldOk(s, w') && Relies(s, Working, rec', w'.db) && (s.steady ==> rec'.obj.spec == rec.obj.spec)
  {
    LastPatchKeeps(s, rec, w, next);
    ArriveKeeps(s, Working, rec, w);
    var (w1, outcome) := Arrive(w);
    var stored := w1.db.inst.value.obj;
    MergedCanGoOn(s, rec.obj, stored, next);
  }

  lemma {:induction false} OtherConditionsKeepReady(conditions: seq<Condition>, next: Condition)
    requires !next.kind.StatefulSetReady?
    ensures FindCondition(SetCondition(conditions, next), StatefulSetReady) == FindCondition(conditions, StatefulSetReady)
  {
    if conditions != [] && conditions[0].kind != next.kind {
      OtherConditionsKeepReady(conditions[1..], next);
      assert ([conditions[0]] + SetCondition(conditions[1..], next))[1..] == SetCondition(conditions[1..], next);
    } else if conditions != [] {
      assert ([Refresh(conditions[0], next)] + conditions[1..])[1..] == conditions[1..];
    } else {
      assert [next][1..] == [];
    }
  }

  lemma {:induction false} SetConditionIsFound(conditions: seq<Condition>, next: Condition)
    ensures var found := FindCondition(SetCondition(conditions, next), next.kind);
      found.Some? && found.value.status == next.status
  {
    if conditions != [] && conditions[0].kind != next.kind {
      SetConditionIsFound(conditions[1..], next);
      assert ([conditions[0]] + SetCondition(conditions[1..], next))[1..] == SetCondition(conditions[1..], next);
    }
  }

  lemma MarkKeeps(s: Scope, rec: Record, w: World, note: Note)
    requires WorldOk(s, w) && Relies(s, Working, rec, w.db) && !note.kind.StatefulSetReady?
    ensures var (w', rec') := Mark(w, rec, note);
      WorldOk(s, w') && Relies(s, Working, rec', w'.db) && (s.steady ==> rec'.obj.spec == rec.obj.spec)
  {
    var condition := NoteCondition(rec.obj, note, w.db.clock);
    OtherConditionsKeepReady(rec.obj.status.conditions, condition);
    PatchKeeps(s, rec, w, rec.obj.status.(conditions := SetCondition(rec.obj.status.conditions, condition)));
  }

  lemma FirstPhaseKeeps(s: Scope, rec: Record, w: World)
    requires WorldOk(s, w) && Relies(s, Working, rec, w.db) && rec.obj.status.phase.Unset?
    ensures var (w', rec', _) := SetPhase(w, rec, Provisioning);
      WorldOk(s, w') && Relies(s, Working, rec', w'.db)
  {
    PatchKeeps(s, rec, w, rec.obj.status.(phase := Provisioning, lastUpdateTime := Some(w.db.clock)));
  }

  lemma FailedPhaseKeeps(s: Scope, rec: Record, w: World)
    requires WorldOk(s, w) && Relies(s, Working, rec, w.db)
    ensures WorldOk(s, SetPhase(w, rec, Failed).0)
  {
    LastPatchKeeps(s, rec, w, rec.obj.status.(phase := Phase.Failed, lastUpdateTime := Some(w.db.clock)));
  }

  lemma SyncKeeps(s: Scope, rec: Record, w: World)
    requires WorldOk(s, w) && Relies(s, Working, rec, w.db)
    ensures Safe(s, SyncStatus(w, rec).0)
  {
    var key := KeyOf(rec.obj, SetChild(PrimaryRole(rec.obj.spec)));
    GetKeeps(s, rec, w, key);
    FetchedSet(w, key);
    ReportedKeeps(s, rec, Get(w, key).0, Get(w, key).1);
  }

  lemma FetchedSet(w: World, key: Key)
    requires key.kind.StatefulSet?
    ensures Get(w, key).1.Found? ==> Get(w, key).1.value.obj.body.StatefulSetBody?
  {
  }

  /** The invariants, as one fact. */
  ghost predicate Safe(s: Scope, w: World) { exists scope | scope == s :: WorldOk(scope, w) }

  /** The invariants and what the pass relies on, as one fact. */
  ghost predicate InOrder(s: Scope, rec: Record, w: World) {
    exists mode | mode == Working :: WorldOk(s, w) && Relies(s, mode, rec, w.db)
  }

  lemma ReportedKeeps(s: Scope, rec: Record, w: World, fetch: Fetch<Stored>)
    requires InOrder(s, rec, w) && (fetch.Found? ==> fetch.value.obj.body.StatefulSetBody?)
    ensures Safe(s, Report(w, rec, fetch).0)
  {
    if fetch.Found? {
      ReportStatusKeeps(s, rec, w, fetch.value.obj.body);
    }
  }

  lemma GetKeeps(s: Scope, rec: Record, w: World, key: Key)
    requires WorldOk(s, w) && Relies(s, Working, rec, w.db)
    ensures InOrder(s, rec, Get(w, key).0)
  {
    ArriveKeeps(s, Working, rec, w);
  }

  lemma ReportStatusKeeps(s: Scope, rec: Record, w: World, body: Body)
    requires WorldOk(s, w) && Relies(s, Working, rec, w.db) && body.StatefulSetBody?
    ensures WorldOk(s, PatchStatus(w, rec, ObservedStatus(rec.obj, body, w.db.clock)).0)
  {
    ObservedIsCoherent(rec.obj, body, w.db.clock);
    LastPatchKeeps(s, rec, w, ObservedStatus(rec.obj, body, w.db.clock));
  }

  lemma ObservedIsCoherent(inst: TlnDB, body: Body, now: int)
    requires body.StatefulSetBody?
    ensures PatchOk(inst, ObservedStatus(inst, body, now))
  {
    var desired := Replicas(inst.spec, PrimaryRole(inst.spec));
    var phase := ObservedPhase(body, desired);
    var note := ReadyNote(phase, body.status.readyReplicas, desired);
    SetConditionIsFound(inst.status.conditions, NoteCondition(inst, note, now));
  }

  // ---- Steps and plans ----------------------------------------------------------

  ghost predicate PassOk(s: Scope, p: Pass) { WorldOk(s, p.w) && Relies(s, Working, p.rec, p.w.db) }

  ghost predicate StepFits(s: Scope, spec: Spec, step: Step) {
    match step
    case EnsureStep(target) => TargetOk(s, spec, target)
    case PruneStep(key) => InFootprint(s.namespace, s.name, key)
    case NoteStep(note) => !note.kind.StatefulSetReady?
  }

  /** Every step suits the spec of the copy; only the last can change that copy. */
  ghost predicate PlanFits(s: Scope, spec: Spec, steps: seq<Step>) {
    forall i | 0 <= i < |steps| :: StepFits(s, spec, steps[i]) && (steps[i].NoteStep? ==> i == |steps| - 1)
  }

  lemma StepKeeps(s: Scope, step: Step, p: Pass)
    requires PassOk(s, p) && StepFits(s, p.rec.obj.spec, step)
    ensures PassOk(s, Run(step, p)) && (s.steady || !step.NoteStep? ==> Run(step, p).rec.obj.spec == p.rec.obj.spec)
  {
    match step
    case EnsureStep(target) => EnsureKeeps(s, p.rec, p.w, target);
    case PruneStep(key) => DeleteKeeps(s, p.rec, p.w, key);
    case NoteStep(note) => MarkKeeps(s, p.rec, p.w, note);
  }

  /** A plan made of the instance's own targets keeps every invariant, for every schedule. */
  lemma {:induction false} PlanKeeps(s: Scope, steps: seq<Step>, p: Pass)
    requires PassOk(s, p) && PlanFits(s, p.rec.obj.spec, steps)
    ensures PassOk(s, RunAll(steps, p)) && (s.steady ==> RunAll(steps, p).rec.obj.spec == p.rec.obj.spec)
    decreases |steps|
  {
    if !p.failed && steps != [] {
      assert StepFits(s, p.rec.obj.spec, steps[0]);
      StepKeeps(s, steps[0], p);
      PlanKeeps(s, steps[1..], Run(steps[0], p));
    }
  }
}

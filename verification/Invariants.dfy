/**
 What every reachable state of the server satisfies, and what every single event
 respects.  `Safety` proves both for all schedules.
 */
module Invariants {
  import opened Api
  import opened Common
  import opened Workloads
  import opened Cluster
  import opened Controller

  /**
   The instance a run is about.  In a `steady` run specs are edited only between
   passes, and every spec is `Clean`: its configuration is rendered, not external,
   and it sets no config-hash annotation of its own.  In a `plain` run no spec is
   replicated.
   */
  datatype Scope = Scope(namespace: string, name: string, steady: bool, plain: bool)

  predicate Clean(spec: Spec) { spec.configFrom.None? && CONFIG_HASH_ANNOTATION !in spec.podAnnotations }

  predicate SpecOk(s: Scope, spec: Spec) { (s.steady ==> Clean(spec)) && (s.plain ==> !Replicated(spec)) }

  // ---- Where a StatefulSet comes from -----------------------------------------

  /** An instance as some pass held it, and the digest that pass computed. */
  datatype Source = Source(inst: TlnDB, configHash: string)

  ghost predicate SourceOk(s: Scope, src: Source) {
    src.inst.name == s.name && src.inst.namespace == s.namespace &&
    SpecOk(s, src.inst.spec) && (s.steady ==> src.configHash == ConfigHash(src.inst.spec))
  }

  /** A spec asks for either the standalone set or the other two. */
  predicate RoleFits(role: RoleName, spec: Spec) { role.Standalone? <==> !Replicated(spec) }

  /** The pass that created the set and the pass that last wrote its replicas and template. */
  datatype Provenance = Provenance(role: RoleName, creator: Source, writer: Source)

  ghost predicate Explains(s: Scope, key: Key, sts: StatefulSetSpec, v: Provenance) {
    SourceOk(s, v.creator) && SourceOk(s, v.writer) &&
    RoleFits(v.role, v.creator.inst.spec) && RoleFits(v.role, v.writer.inst.spec) &&
    key == Key(StatefulSet, s.namespace, WorkloadName(s.name, v.role)) &&
    var created := SetSpec(v.creator.inst, v.creator.configHash, v.role);
    var written := SetSpec(v.writer.inst, v.writer.configHash, v.role);
    sts == created.(replicas := written.replicas, template := written.template)
  }

  predicate Carries(labels: StringMap, name: string) { INSTANCE_LABEL in labels && labels[INSTANCE_LABEL] == name }

  /** Sets in the footprint have a provenance; other sets of the namespace do not pose as the instance's. */
  ghost predicate ChildOk(s: Scope, key: Key, child: Child) {
    match child.body
    case StatefulSetBody(sts, _, _) =>
      if InFootprint(s.namespace, s.name, key) then exists v :: Explains(s, key, sts, v)
      else key.namespace == s.namespace ==> !Carries(sts.template.labels, s.name)
    case RoleBindingBody(roleRef, _) => InFootprint(s.namespace, s.name, key) ==> roleRef == s.name
    case _ => true
  }

  // ---- States -----------------------------------------------------------------

  function Ready(status: Status): Option<Condition> { FindCondition(status.conditions, StatefulSetReady) }

  predicate ReadyTrue(status: Status) { Ready(status).Some? && Ready(status).value.status }

  /** A stored phase of Running comes with a StatefulSetReady condition of True. */
  predicate Coherent(status: Status) { status.phase.Running? ==> ReadyTrue(status) }

  predicate InstanceOk(s: Scope, inst: TlnDB) {
    inst.name == s.name && inst.namespace == s.namespace
    && inst.status.observedGeneration <= inst.generation
    && (inst.status.phase.Terminating? ==> inst.deleting)
    && (inst.deleting ==> inst.finalizers != {})
    && Coherent(inst.status)
    && SpecOk(s, inst.spec)
  }

  ghost predicate ChildrenOk(s: Scope, db: Db) {
    forall k | k in db.objs :: ChildOk(s, k, db.objs[k].obj) && db.objs[k].rv < db.clock
  }

  ghost predicate DbOk(s: Scope, db: Db) {
    (db.inst.Some? ==> InstanceOk(s, db.inst.value.obj) && db.inst.value.rv < db.clock) && ChildrenOk(s, db)
  }

  // ---- Events -----------------------------------------------------------------

  /** The fields no write may change once an object exists. */
  predicate Evolves(before: Child, after: Child) {
    (before.body.StatefulSetBody? && after.body.StatefulSetBody? ==>
       before.body.sts.selector == after.body.sts.selector
       && before.body.sts.serviceName == after.body.sts.serviceName
       && before.body.sts.claims == after.body.sts.claims)
    && (before.body.ServiceBody? && after.body.ServiceBody? ==> before.body.svc.clusterIp == after.body.svc.clusterIp)
    && (before.body.RoleBindingBody? && after.body.RoleBindingBody? ==> before.body.roleRef == after.body.roleRef)
  }

  predicate Held(db: Db) { db.inst.Some? && FINALIZER in db.inst.value.obj.finalizers }

  /** The controller writes children of its own instance only, and only while that instance is held by the finalizer. */
  ghost predicate WritesOwnChildren(s: Scope, before: Db, after: Db) {
    before.objs != after.objs ==>
      Held(before) &&
      forall k | (k in before.objs) != (k in after.objs) || (k in before.objs && before.objs[k] != after.objs[k]) ::
        InFootprint(s.namespace, s.name, k)
  }

  predicate InstanceEvolves(byController: bool, before: TlnDB, after: TlnDB) {
    before.generation <= after.generation
    && before.status.observedGeneration <= after.status.observedGeneration
    && (before.status.phase.Terminating? ==> after.status.phase.Terminating?)
    && (before.deleting ==> after.deleting)
    && (byController ==> before.spec == after.spec && before.generation == after.generation)
    && (before.generation == after.generation ==> before.spec == after.spec)
  }

  function SetIn(db: Db, key: Key): Option<StatefulSetSpec> {
    if key.kind.StatefulSet? && key in db.objs then Some(db.objs[key].obj.body.sts) else None
  }

  /** The event creates the set or changes its spec. */
  predicate WritesSet(e: Event, key: Key) { SetIn(e.after, key).Some? && SetIn(e.before, key) != SetIn(e.after, key) }

  /** What is written is what `src` builds; an update takes replicas and template from it. */
  ghost predicate WrittenFrom(s: Scope, key: Key, was: Option<StatefulSetSpec>, now: StatefulSetSpec, role: RoleName, src: Source) {
    SourceOk(s, src) && RoleFits(role, src.inst.spec) && key == Key(StatefulSet, s.namespace, WorkloadName(s.name, role)) &&
    var built := SetSpec(src.inst, src.configHash, role);
    now == if was.None? then built else was.value.(replicas := built.replicas, template := built.template)
  }

  ghost predicate AuthoredBy(s: Scope, spec: Spec, key: Key, was: Option<StatefulSetSpec>, now: StatefulSetSpec) {
    exists role, src: Source :: src.inst.spec == spec && WrittenFrom(s, key, was, now, role, src)
  }

  /** Only the controller writes sets, and what it writes follows the spec of the copy it holds. */
  ghost predicate SetsAuthored(s: Scope, e: Event) {
    forall k | WritesSet(e, k) ::
      e.author.Some? && AuthoredBy(s, e.author.value, k, SetIn(e.before, k), SetIn(e.after, k).value)
  }

  ghost predicate EventOk(s: Scope, e: Event) {
    DbOk(s, e.after) && SetsAuthored(s, e)
    && (forall k | k in e.before.objs && k in e.after.objs :: Evolves(e.before.objs[k].obj, e.after.objs[k].obj))
    && (e.author.Some? ==> WritesOwnChildren(s, e.before, e.after))
    && (e.before.inst.Some? && e.after.inst.Some? ==>
          InstanceEvolves(e.author.Some?, e.before.inst.value.obj, e.after.inst.value.obj))
  }

  /** Every event is allowed, and the first one began in order. */
  ghost predicate LogOk(s: Scope, log: seq<Event>) {
    (forall i | 0 <= i < |log| :: EventOk(s, log[i])) && (log != [] ==> DbOk(s, log[0].before))
  }

  /** Each event begins where the one before it ended, and the last one ended in `db`. */
  ghost predicate Chained(log: seq<Event>, db: Db) {
    (forall i, j | 0 <= i < |log| && 0 <= j < |log| && j == i + 1 :: log[j].before == log[i].after)
    && (log != [] ==> log[|log| - 1].after == db)
  }

  // ---- Schedules --------------------------------------------------------------

  /** The specs that are installed suit the run. */
  predicate StepOk(s: Scope, step: EnvStep) { step.EditSpec? ==> SpecOk(s, step.spec) }

  /** And during a pass a steady run leaves the spec alone. */
  predicate Interferes(s: Scope, step: EnvStep) { step.EditSpec? ==> !s.steady && SpecOk(s, step.spec) }

  predicate TickOk(s: Scope, tick: Tick) { forall i | 0 <= i < |tick.before| :: Interferes(s, tick.before[i]) }

  predicate ScheduleOk(s: Scope, schedule: seq<Tick>) { forall i | 0 <= i < |schedule| :: TickOk(s, schedule[i]) }

  ghost predicate WorldOk(s: Scope, w: World) {
    DbOk(s, w.db) && LogOk(s, w.log) && Chained(w.log, w.db) && ScheduleOk(s, w.schedule)
  }

  // ---- What the controller may rely on during a pass ---------------------------

  /** Adding the finalizer, a normal pass, and a pass on an instance being deleted. */
  datatype Mode = Holding | Working | Ending

  /** A copy is as old as its resource version says. */
  predicate Snapshot(s: Scope, rec: Record, db: Db) {
    rec.obj.name == s.name && rec.obj.namespace == s.namespace && rec.rv < db.clock
    && SpecOk(s, rec.obj.spec)
    && (db.inst.Some? && db.inst.value.rv == rec.rv ==> db.inst.value.obj.spec == rec.obj.spec)
  }

  /** During a normal pass: the instance stays, the stored status is the copy's except for writes that failed. */
  predicate InWork(s: Scope, copy: TlnDB, stored: TlnDB) {
    FINALIZER in stored.finalizers
    && copy.generation <= stored.generation
    && stored.status.observedGeneration <= copy.generation
    && !stored.status.phase.Terminating? && !copy.status.phase.Terminating?
    && (stored.status.phase == copy.status.phase || stored.status.phase.Unset?)
    && Ready(stored.status) == Ready(copy.status)
    && (s.steady ==> stored.spec == copy.spec)
  }

  predicate Relies(s: Scope, mode: Mode, rec: Record, db: Db) {
    Snapshot(s, rec, db) &&
    match mode
    case Holding => true
    case Working => db.inst.Some? && InWork(s, rec.obj, db.inst.value.obj)
    case Ending => db.inst.Some? ==> db.inst.value.obj.deleting
  }
}

/**
 The API server: the stored instance and the stored children, with resource
 versions; what other parties may do to them; and the calls a controller makes.
 A schedule says, call by call, what others do first and how the call ends, so a
 statement about all schedules is a statement about all interleavings and faults.
 */
module Cluster {
  import opened Api
  import opened Children

  datatype Stored = Stored(rv: nat, obj: Child)

  predicate Typed(objs: map<Key, Stored>) { forall k | k in objs :: OfKind(k.kind, objs[k].obj.body) }

  /** Objects are stored under their kind. */
  type Objects = objs: map<Key, Stored> | Typed(objs) witness map[]

  datatype Record = Record(rv: nat, obj: TlnDB)

  /** `clock` is the next resource version, the next address, and the time of day. */
  datatype Db = Db(clock: nat, inst: Option<Record>, objs: Objects)

  // ---- The environment --------------------------------------------------------

  datatype EnvStep =
    | EditSpec(spec: Spec)
    | RequestDeletion
    | ReportStatus(key: Key, status: StatefulSetStatus)
    | EditConfigMap(namespace: string, name: string, data: StringMap)
    | RemoveConfigMap(namespace: string, name: string)

  function Put(db: Db, key: Key, child: Child): Db
    requires OfKind(key.kind, child.body)
  {
    db.(clock := db.clock + 1, objs := db.objs[key := Stored(db.clock, child)])
  }

  function Remove(db: Db, key: Key): Db { db.(objs := db.objs - {key}) }

  function PutInstance(db: Db, inst: TlnDB): Db {
    db.(clock := db.clock + 1, inst := Some(Record(db.clock, inst)))
  }

  function ApplyEnv(db: Db, step: EnvStep): Db {
    match step
    case EditSpec(spec) =>
      if db.inst.None? then db
      else
        var inst := db.inst.value.obj;
        PutInstance(db, inst.(spec := spec, generation := inst.generation + 1))
    case RequestDeletion =>
      if db.inst.None? || db.inst.value.obj.deleting then db
      else
        var inst := db.inst.value.obj;
        if inst.finalizers == {} then db.(inst := None)
        else PutInstance(db, inst.(deleting := true, generation := inst.generation + 1))
    case ReportStatus(key, status) =>
      if !key.kind.StatefulSet? || key !in db.objs then db
      else
        var child := db.objs[key].obj;
        Put(db, key, child.(body := child.body.(status := status)))
    case EditConfigMap(namespace, name, data) =>
      var key := Key(ConfigMap, namespace, name);
      if key in db.objs then Put(db, key, db.objs[key].obj.(body := ConfigMapBody(data)))
      else Put(db, key, Child(map[], map[], None, ConfigMapBody(data)))
    case RemoveConfigMap(namespace, name) => Remove(db, Key(ConfigMap, namespace, name))
  }

  // ---- Worlds -----------------------------------------------------------------

  /** How a call ends.  `Lost` is a write the server applied and the caller saw fail. */
  datatype Outcome = Ok | Conflict | Error | Lost

  datatype Tick = Tick(before: seq<EnvStep>, outcome: Outcome)

  /** One change of the server: by another party, or by the controller with the spec of the copy it held. */
  datatype Event = Event(author: Option<Spec>, before: Db, after: Db)

  /** The server, what will happen at the coming calls (nothing and success, once the schedule is used up), and what has happened. */
  datatype World = World(db: Db, schedule: seq<Tick>, log: seq<Event>)

  function Disturb(w: World, step: EnvStep): World {
    var db := ApplyEnv(w.db, step);
    w.(db := db, log := w.log + [Event(None, w.db, db)])
  }

  function DisturbAll(w: World, steps: seq<EnvStep>): World
    decreases |steps|
  {
    if steps == [] then w else DisturbAll(Disturb(w, steps[0]), steps[1..])
  }

  /** A call reaches the server. */
  function Arrive(w: World): (World, Outcome) {
    if w.schedule == [] then (w, Ok)
    else (DisturbAll(w.(schedule := w.schedule[1..]), w.schedule[0].before), w.schedule[0].outcome)
  }

  function Commit(w: World, author: Spec, db: Db): World {
    w.(db := db, log := w.log + [Event(Some(author), w.db, db)])
  }

  // ---- Calls ------------------------------------------------------------------

  datatype Fetch<+T> = Found(value: T) | Missing | Unreachable

  datatype Reply = Done | NotFound | Conflicted | Refused

  function Attempt(w: World, author: Spec, db: Db, outcome: Outcome): (World, Reply) {
    match outcome
    case Ok => (Commit(w, author, db), Done)
    case Lost => (Commit(w, author, db), Refused)
    case Conflict => (w, Conflicted)
    case Error => (w, Refused)
  }

  function Get(w: World, key: Key): (r: (World, Fetch<Stored>))
    ensures r.1.Found? ==> OfKind(key.kind, r.1.value.obj.body)
  {
    var (w1, outcome) := Arrive(w);
    (w1, if !outcome.Ok? then Unreachable else if key in w1.db.objs then Found(w1.db.objs[key]) else Missing)
  }

  function GetInstance(w: World): (World, Fetch<Record>) {
    var (w1, outcome) := Arrive(w);
    (w1, if !outcome.Ok? then Unreachable else if w1.db.inst.Some? then Found(w1.db.inst.value) else Missing)
  }

  function Create(w: World, author: Spec, key: Key, child: Child): (World, Reply)
    requires OfKind(key.kind, child.body)
  {
    var (w1, outcome) := Arrive(w);
    if key in w1.db.objs then (w1, Refused)
    else Attempt(w1, author, Put(w1.db, key, Admit(child, w1.db.clock)), outcome)
  }

  function Update(w: World, author: Spec, key: Key, rv: nat, child: Child): (World, Reply)
    requires OfKind(key.kind, child.body)
  {
    var (w1, outcome) := Arrive(w);
    if key !in w1.db.objs then (w1, NotFound)
    else if w1.db.objs[key].rv != rv then (w1, Conflicted)
    else Attempt(w1, author, Put(w1.db, key, Replace(w1.db.objs[key].obj, child)), outcome)
  }

  function Delete(w: World, author: Spec, key: Key): (World, Reply) {
    var (w1, outcome) := Arrive(w);
    if key !in w1.db.objs then (w1, NotFound)
    else Attempt(w1, author, Remove(w1.db, key), outcome)
  }

  /** Writes metadata and spec, never status; an instance being deleted goes when its last finalizer goes. */
  function UpdateInstance(w: World, rec: Record): (World, Reply) {
    var (w1, outcome) := Arrive(w);
    if w1.db.inst.None? then (w1, NotFound)
    else
      var stored := w1.db.inst.value;
      if stored.rv != rec.rv then (w1, Conflicted)
      else
        var next := stored.obj.(finalizers := rec.obj.finalizers, spec := rec.obj.spec);
        var db := if next.deleting && next.finalizers == {} then w1.db.(inst := None) else PutInstance(w1.db, next);
        Attempt(w1, rec.obj.spec, db, outcome)
  }

  /** A merge patch carries the fields that differ between `base` and `next`. */
  function MergeStatus(base: Status, next: Status, stored: Status): Status {
    Status(
      if base.phase == next.phase then stored.phase else next.phase,
      if base.conditions == next.conditions then stored.conditions else next.conditions,
      if base.observedGeneration == next.observedGeneration then stored.observedGeneration else next.observedGeneration,
      if base.readyReplicas == next.readyReplicas then stored.readyReplicas else next.readyReplicas,
      if base.currentImage == next.currentImage then stored.currentImage else next.currentImage,
      if base.managedResources == next.managedResources then stored.managedResources else next.managedResources,
      if base.lastUpdateTime == next.lastUpdateTime then stored.lastUpdateTime else next.lastUpdateTime)
  }

  /** `Status().Patch`: on success the caller's copy becomes the stored instance, otherwise it keeps the intended status. */
  function PatchStatus(w: World, rec: Record, next: Status): (World, Record, Reply) {
    var (w1, outcome) := Arrive(w);
    var intended := rec.(obj := rec.obj.(status := next));
    if w1.db.inst.None? then (w1, intended, NotFound)
    else
      var stored := w1.db.inst.value.obj;
      var db := PutInstance(w1.db, stored.(status := MergeStatus(rec.obj.status, next, stored.status)));
      var (w2, reply) := Attempt(w1, rec.obj.spec, db, outcome);
      (w2, if reply.Done? then db.inst.value else intended, reply)
  }
}

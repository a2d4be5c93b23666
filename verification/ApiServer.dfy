/**
 The API server as an object whose methods are the calls of the controller's
 client.  Each method does exactly what the function of the same name says.
 */
module ApiServers {
  import opened Api
  import opened Children
  import opened Cluster

  class ApiServer {
    var db: Db
    var schedule: seq<Tick>
    ghost var log: seq<Event>

    ghost function State(): World
      reads this
    {
      World(db, schedule, log)
    }

    constructor (db: Db, schedule: seq<Tick>)
      ensures State() == World(db, schedule, [])
    {
      this.db, this.schedule, this.log := db, schedule, [];
    }

    method Apply(steps: seq<EnvStep>)
      modifies this
      ensures State() == DisturbAll(old(State()), steps)
    {
      var i := 0;
      while i < |steps|
        invariant 0 <= i <= |steps|
        invariant DisturbAll(State(), steps[i..]) == DisturbAll(old(State()), steps)
      {
        var next := ApplyEnv(db, steps[i]);
        log := log + [Event(None, db, next)];
        db := next;
        assert steps[i..][1..] == steps[i + 1..];
        i := i + 1;
      }
    }

    method Arrive() returns (outcome: Outcome)
      modifies this
      ensures (State(), outcome) == Cluster.Arrive(old(State()))
    {
      outcome := Ok;
      if schedule != [] {
        var tick := schedule[0];
        schedule := schedule[1..];
        Apply(tick.before);
        outcome := tick.outcome;
      }
    }

    method Attempt(ghost author: Spec, next: Db, outcome: Outcome) returns (reply: Reply)
      modifies this
      ensures (State(), reply) == Cluster.Attempt(old(State()), author, next, outcome)
    {
      match outcome
      case Conflict => reply := Conflicted;
      case Error => reply := Refused;
      case _ =>
        log := log + [Event(Some(author), db, next)];
        db := next;
        reply := if outcome.Ok? then Done else Refused;
    }

    method Get(key: Key) returns (fetch: Fetch<Stored>)
      modifies this
      ensures (State(), fetch) == Cluster.Get(old(State()), key)
    {
      var outcome := Arrive();
      fetch := if !outcome.Ok? then Unreachable else if key in db.objs then Found(db.objs[key]) else Missing;
    }

    method GetInstance() returns (fetch: Fetch<Record>)
      modifies this
      ensures (State(), fetch) == Cluster.GetInstance(old(State()))
    {
      var outcome := Arrive();
      fetch := if !outcome.Ok? then Unreachable else if db.inst.Some? then Found(db.inst.value) else Missing;
    }

    method Create(ghost author: Spec, key: Key, child: Child) returns (reply: Reply)
      requires OfKind(key.kind, child.body)
      modifies this
      ensures (State(), reply) == Cluster.Create(old(State()), author, key, child)
    {
      var outcome := Arrive();
      if key in db.objs {
        reply := Refused;
      } else {
        reply := Attempt(author, Put(db, key, Admit(child, db.clock)), outcome);
      }
    }

    method Update(ghost author: Spec, key: Key, rv: nat, child: Child) returns (reply: Reply)
      requires OfKind(key.kind, child.body)
      modifies this
      ensures (State(), reply) == Cluster.Update(old(State()), author, key, rv, child)
    {
      var outcome := Arrive();
      if key !in db.objs {
        reply := NotFound;
      } else if db.objs[key].rv != rv {
        reply := Conflicted;
      } else {
        reply := Attempt(author, Put(db, key, Replace(db.objs[key].obj, child)), outcome);
      }
    }

    method Delete(ghost author: Spec, key: Key) returns (reply: Reply)
      modifies this
      ensures (State(), reply) == Cluster.Delete(old(State()), author, key)
    {
      var outcome := Arrive();
      if key !in db.objs {
        reply := NotFound;
      } else {
        reply := Attempt(author, Remove(db, key), outcome);
      }
    }

    method UpdateInstance(rec: Record) returns (reply: Reply)
      modifies this
      ensures (State(), reply) == Cluster.UpdateInstance(old(State()), rec)
    {
      var outcome := Arrive();
      if db.inst.None? {
        reply := NotFound;
      } else if db.inst.value.rv != rec.rv {
        reply := Conflicted;
      } else {
        var next := db.inst.value.obj.(finalizers := rec.obj.finalizers, spec := rec.obj.spec);
        var after := if next.deleting && next.finalizers == {} then db.(inst := None) else PutInstance(db, next);
        reply := Attempt(rec.obj.spec, after, outcome);
      }
    }

    method PatchStatus(rec: Record, next: Status) returns (local: Record, reply: Reply)
      modifies this
      ensures (State(), local, reply) == Cluster.PatchStatus(old(State()), rec, next)
    {
      var outcome := Arrive();
      local := rec.(obj := rec.obj.(status := next));
      if db.inst.None? {
        reply := NotFound;
      } else {
        var stored := db.inst.value.obj;
        var after := PutInstance(db, stored.(status := MergeStatus(rec.obj.status, next, stored.status)));
        reply := Attempt(rec.obj.spec, after, outcome);
        if reply.Done? {
          local := after.inst.value;
        }
      }
    }
  }
}

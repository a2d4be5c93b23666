/**
 Routing after a fault-free pass, whatever the run before it did.
 */
module Routing {
  import opened Api
  import opened Text
  import opened Common
  import opened Children
  import opened Cluster
  import opened Controller
  import opened CalmPass
  import opened Convergence
  import opened Fixpoint
  import opened LiveSet
  import opened Invariants
  import opened Runs
  import opened Topology
  import opened Detection

  /** A fault-free pass over an active instance is about to start. */
  ghost predicate ReadyToPass(s: Scope, w: World) {
    WorldOk(s, w) && w.schedule == [] && w.db.inst.Some? && Active(w.db.inst.value.obj)
    && Admissible(w.db.inst.value.obj, w.db.objs)
  }

  /** How Services route after the pass. */
  ghost predicate Routed(s: Scope, inst: TlnDB, objs: Objects) {
    (inst.spec.mode == "replicated" ==> SingleWriter(inst, objs) && (ReadsServed(inst, objs) <==> inst.spec.readReplicas >= 0))
    && (inst.spec.mode != "replicated" ==>
          (OnlyOwnPods(inst, objs) <==> LeaderSet(inst) !in objs && FollowerSet(inst) !in objs))
    && (s.plain ==> OnlyOwnPods(inst, objs))
    && Sized(inst, objs)
  }

  lemma SettledIsRouted(s: Scope, inst: TlnDB, h: string, db: Db)
    requires ChildrenOk(s, db) && inst.name == s.name && inst.namespace == s.namespace && SpecOk(s, inst.spec)
    requires AllSettled(inst, h, db.objs)
    ensures Routed(s, inst, db.objs)
  {
    SettledIsSized(inst, h, db.objs);
    if Replicated(inst.spec) {
      SettledHasSingleWriter(s, inst, h, db);
      SettledServesReads(s, inst, h, db);
    } else {
      SettledStandaloneRouting(s, inst, h, db);
      if s.plain { PlainHasNoLeftovers(s, inst, db); }
    }
  }

  lemma PassSettles(s: Scope, w: World)
    requires ReadyToPass(s, w)
    ensures var inst, w' := w.db.inst.value.obj, Reconcile(w).0;
      AllSettled(inst, HashFor(inst, w.db.objs), w'.db.objs) && ChildrenOk(s, w'.db)
  {
    CalmReconcile(w);
    var inst := w.db.inst.value.obj;
    AfterIsSettled(inst, HashFor(inst, w.db.objs), w.db.objs, Reconcile(w).0.db.objs);
    PassIsSafe(s, w);
  }

  lemma PassRoutes(s: Scope, w: World)
    requires ReadyToPass(s, w)
    ensures Routed(s, w.db.inst.value.obj, Reconcile(w).0.db.objs)
  {
    PassSettles(s, w);
    var inst := w.db.inst.value.obj;
    SettledIsRouted(s, inst, HashFor(inst, w.db.objs), Reconcile(w).0.db);
  }

  /**
   After every run, faults, interference and mode switches included, one fault-free pass leaves a single
   writer behind the write Service, and read and standalone Services that route as stated.
   */
  lemma RunRoutes(s: Scope, w: World, items: seq<Item>)
    requires WorldOk(s, w) && (forall i | 0 <= i < |items| :: ItemOk(s, items[i]))
    requires var w1 := Execute(w, items).(schedule := []);
      w1.db.inst.Some? && Active(w1.db.inst.value.obj) && Admissible(w1.db.inst.value.obj, w1.db.objs)
    ensures var w1 := Execute(w, items).(schedule := []);
      Routed(s, w1.db.inst.value.obj, Reconcile(w1).0.db.objs)
  {
    RunIsSafe(s, w, items);
    PassRoutes(s, Execute(w, items).(schedule := []));
  }

  // ---- Followers and the write Service ----------------------------------------------------------

  lemma SettledNeedsNothing(objs: Objects, t: Target)
    requires SettledAt(objs, t) && t.key.kind.StatefulSet?
    ensures !NeedsUpdate(SetOf(objs, t.key), t.desired.body.sts)
  {
  }

  lemma SettledFollowerPort(s: Scope, inst: TlnDB, db: Db)
    requires s.steady && ChildrenOk(s, db) && Own(s, inst) && Unmistakable(inst.spec)
    requires AllSettled(inst, ConfigHash(inst.spec), db.objs) && Replicated(inst.spec) && FollowerSet(inst) in db.objs
    ensures OwnGrpcPort(SetOf(db.objs, FollowerSet(inst))) == Some(GrpcPort(inst.spec))
  {
    var h, key := ConfigHash(inst.spec), FollowerSet(inst);
    ChildNames(inst);
    assert Wanted(inst.spec, SetChild(Follower));
    TargetSet(inst, h, Follower);
    SettledNeedsNothing(db.objs, TargetOf(inst, h, SetChild(Follower)));
    StoredDetection(s, db, key, Follower, inst);
    TemplateWiring(inst, h, Follower);
  }

  /**
   In steady runs, after an undisturbed pass, followers replicate from the address of the Service that reaches
   exactly the leader, at the gRPC port that Service serves.
   */
  lemma FollowersReplicateFromLeader(s: Scope, w: World)
    requires s.steady && ReadyToPass(s, w) && Unmistakable(w.db.inst.value.obj.spec) && w.db.inst.value.obj.spec.mode == "replicated"
    ensures var inst, objs := w.db.inst.value.obj, Reconcile(w).0.db.objs;
      var service, port := MainService(inst), GrpcPort(inst.spec);
      ServesGrpc(objs, service, port)
      && (forall k | k in objs && k.kind.StatefulSet? :: Reaches(objs, service, k) <==> k == LeaderSet(inst))
      && (FollowerSet(inst) in objs ==>
            ReplicationSource(SetOf(objs, FollowerSet(inst))) ==
              Some(inst.name + "." + inst.namespace + ".svc.cluster.local" + ":" + Decimal(port)))
  {
    PassRoutes(s, w);
    PassSettles(s, w);
    var inst, db := w.db.inst.value.obj, Reconcile(w).0.db;
    if FollowerSet(inst) in db.objs {
      SettledFollowerPort(s, inst, db);
    }
  }

  // ---- From replicated to standalone ----------------------------------------------------------

  lemma ServedIsOk(s: Scope, w: World, spec: Spec, w': World)
    requires WorldOk(s, w) && SpecOk(s, spec) && Serves(w, spec, w')
    ensures WorldOk(s, w')
  {
    assert DisturbAll(w, [EditSpec(spec)]) == Disturb(w, EditSpec(spec)) by { assert [EditSpec(spec)][1..] == []; }
    EnvironmentKeeps(s, w, [EditSpec(spec)]);
    PassIsSafe(s, Disturb(w, EditSpec(spec)));
  }

  /** The spec's external ConfigMap, if it refers to one, is there. */
  predicate Finds(w: World, spec: Spec) {
    w.db.inst.Some? && (spec.configFrom.Some? ==> Key(ConfigMap, w.db.inst.value.obj.namespace, spec.configFrom.value) in w.db.objs)
  }

  lemma LeaderStays(w: World, replicated: Spec, standalone: Spec, w1: World, w2: World)
    requires w.schedule == [] && w.db.inst.Some? && Active(w.db.inst.value.obj)
    requires Replicated(replicated) && !Replicated(standalone) && Finds(w, replicated) && Finds(w1, standalone)
    requires Serves(w, replicated, w1) && Serves(w1, standalone, w2)
    ensures w2.db.inst.Some? && w2.schedule == [] && w2.db.inst.value.obj.spec == standalone
    ensures KeyOf(w2.db.inst.value.obj, SetChild(Leader)) in w2.db.objs
  {
    ServedOnce(w, replicated, w1);
    ServedOnce(w1, standalone, w2);
    var one, two := w1.db.inst.value.obj, w2.db.inst.value.obj;
    var leader := KeyOf(one, SetChild(Leader));
    assert Wanted(one.spec, SetChild(Leader)) && SetChild(Leader) in EVERY_CHILD;
    assert leader in DesiredKeys(one);
    DesiredAreLive(one, w.db.objs.Keys);
    assert leader in LiveAfter(two, w1.db.objs.Keys);
  }

  /** Switching a replicated instance to standalone leaves the leader set behind, and the Service keeps reaching its pods. */
  lemma LeftoverLeaderIsReached(s: Scope, w: World, replicated: Spec, standalone: Spec, w1: World, w2: World)
    requires WorldOk(s, w) && SpecOk(s, replicated) && SpecOk(s, standalone)
    requires w.schedule == [] && w.db.inst.Some? && Active(w.db.inst.value.obj)
    requires Replicated(replicated) && !Replicated(standalone) && Finds(w, replicated) && Finds(w1, standalone)
    requires Serves(w, replicated, w1) && Serves(w1, standalone, w2)
    ensures w2.db.inst.Some? && !OnlyOwnPods(w2.db.inst.value.obj, w2.db.objs)
    ensures var inst := w2.db.inst.value.obj; Reaches(w2.db.objs, MainService(inst), LeaderSet(inst))
  {
    LeaderStays(w, replicated, standalone, w1, w2);
    ServedIsOk(s, w, replicated, w1);
    ServedIsOk(s, w1, standalone, w2);
    ServedOnce(w, replicated, w1);
    var h := ServedSettles(w1, standalone, w2);
    StoredLeaderIsReached(s, w2.db.inst.value.obj, h, w2.db);
  }

  lemma StoredLeaderIsReached(s: Scope, inst: TlnDB, h: string, db: Db)
    requires ChildrenOk(s, db) && inst.name == s.name && inst.namespace == s.namespace
    requires AllSettled(inst, h, db.objs) && !Replicated(inst.spec) && KeyOf(inst, SetChild(Leader)) in db.objs
    ensures !OnlyOwnPods(inst, db.objs) && Reaches(db.objs, MainService(inst), LeaderSet(inst))
  {
    ChildNames(inst);
    SettledStandaloneRouting(s, inst, h, db);
    ClientReachesLeader(s, inst, h, db);
  }

  lemma ClientReachesLeader(s: Scope, inst: TlnDB, h: string, db: Db)
    requires ChildrenOk(s, db) && inst.name == s.name && inst.namespace == s.namespace
    requires AllSettled(inst, h, db.objs) && !Replicated(inst.spec) && LeaderSet(inst) in db.objs
    ensures Reaches(db.objs, MainService(inst), LeaderSet(inst))
  {
    ChildNames(inst);
    ServiceSelector(inst, h, db.objs, ClientChild, SelectorLabels(inst.name));
    BareServiceReach(s, db, MainService(inst));
  }

  lemma ServedSettles(w: World, spec: Spec, w': World) returns (h: string)
    requires w.schedule == [] && w.db.inst.Some? && Active(w.db.inst.value.obj) && Finds(w, spec) && Serves(w, spec, w')
    ensures w'.db.inst.Some? && AllSettled(w'.db.inst.value.obj, h, w'.db.objs)
  {
    var edited := Disturb(w, EditSpec(spec));
    var inst := edited.db.inst.value.obj;
    h := HashFor(inst, edited.db.objs);
    CalmReconcile(edited);
    AfterIsSettled(inst, h, edited.db.objs, w'.db.objs);
    SettledForOther(inst, w'.db.inst.value.obj, h, w'.db.objs);
  }
}

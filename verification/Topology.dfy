/**
 Which pods each Service reaches, and which pods write.  A set's pods carry the
 labels and run the containers of its template.
 */
module Topology {
  import opened Api
  import opened Text
  import opened Common
  import opened Workloads
  import opened Services
  import opened Children
  import opened Cluster
  import opened Controller
  import opened Fixpoint
  import opened Invariants

  // ---- The names users and clients know ---------------------------------------------------

  function MainService(inst: TlnDB): Key { Key(Service, inst.namespace, inst.name) }
  function ReadService(inst: TlnDB): Key { Key(Service, inst.namespace, inst.name + "-read") }
  function MainSet(inst: TlnDB): Key { Key(StatefulSet, inst.namespace, inst.name) }
  function LeaderSet(inst: TlnDB): Key { Key(StatefulSet, inst.namespace, inst.name + "-leader") }
  function FollowerSet(inst: TlnDB): Key { Key(StatefulSet, inst.namespace, inst.name + "-follower") }

  /** The children stand under those names: the write Service and the standalone one share theirs. */
  lemma ChildNames(inst: TlnDB)
    ensures KeyOf(inst, WriteChild) == MainService(inst) && KeyOf(inst, ClientChild) == MainService(inst)
    ensures KeyOf(inst, ReadChild) == ReadService(inst)
    ensures KeyOf(inst, SetChild(Standalone)) == MainSet(inst) && KeyOf(inst, SetChild(Leader)) == LeaderSet(inst)
    ensures FollowerKey(inst) == FollowerSet(inst)
    ensures KeyOf(inst, HeadlessChild) == Key(Service, inst.namespace, inst.name + "-headless")
    ensures KeyOf(inst, ConfigChild) == Key(ConfigMap, inst.namespace, inst.name + "-config")
  {
  }

  function SetOf(objs: Objects, key: Key): StatefulSetSpec
    requires key in objs && key.kind.StatefulSet?
  {
    objs[key].obj.body.sts
  }

  function ServiceOf(objs: Objects, key: Key): ServiceSpec
    requires key in objs && key.kind.Service?
  {
    objs[key].obj.body.svc
  }

  /** The Service selects the pods of the set; Services select in their own namespace. */
  predicate Reaches(objs: Objects, service: Key, workload: Key) {
    service.kind.Service? && service in objs && workload.kind.StatefulSet? && workload in objs
    && service.namespace == workload.namespace
    && Selects(ServiceOf(objs, service).selector, SetOf(objs, workload).template.labels)
  }

  /** The role the database process of a set's pods takes: the last `TLNDB_ROLE` wins. */
  function ProcessRole(sts: StatefulSetSpec): Option<string> {
    if sts.template.containers == [] then None else LastEnv(sts.template.containers[0].env, "TLNDB_ROLE")
  }

  // ---- Stored sets ------------------------------------------------------------------------

  lemma RoleInFootprint(s: Scope, role: RoleName)
    ensures InFootprint(s.namespace, s.name, Key(StatefulSet, s.namespace, WorkloadName(s.name, role)))
  {
  }

  lemma ExplainedRole(s: Scope, key: Key, sts: StatefulSetSpec, v: Provenance, role: RoleName)
    requires Explains(s, key, sts, v) && key.name == WorkloadName(s.name, role)
    ensures v.role == role
  {
    SuffixLengths(s.name);
  }

  lemma ExplainedSet(s: Scope, key: Key, sts: StatefulSetSpec, v: Provenance)
    requires Explains(s, key, sts, v)
    ensures sts.template.labels == WithRole(CommonLabels(s.name), v.role)
    ensures !v.role.Standalone? ==> ProcessRole(sts) == Some(RoleText(v.role)) && !s.plain
  {
    if !v.role.Standalone? {
      RoleEnvWins(v.writer.inst, v.role);
    }
  }

  lemma StoredSet(s: Scope, db: Db, key: Key, role: RoleName)
    requires ChildrenOk(s, db) && key == Key(StatefulSet, s.namespace, WorkloadName(s.name, role)) && key in db.objs
    ensures SetOf(db.objs, key).template.labels == WithRole(CommonLabels(s.name), role)
    ensures !role.Standalone? ==> ProcessRole(SetOf(db.objs, key)) == Some(RoleText(role)) && !s.plain
  {
    var child := db.objs[key].obj;
    RoleInFootprint(s, role);
    assert ChildOk(s, key, child) && InFootprint(s.namespace, s.name, key) && child.body.StatefulSetBody?;
    var v :| Explains(s, key, child.body.sts, v);
    ExplainedRole(s, key, child.body.sts, v, role);
    ExplainedSet(s, key, child.body.sts, v);
  }

  lemma ForeignSet(s: Scope, db: Db, key: Key, selector: StringMap)
    requires ChildrenOk(s, db) && key.kind.StatefulSet? && key in db.objs && !InFootprint(s.namespace, s.name, key)
    requires key.namespace == s.namespace
    requires INSTANCE_LABEL in selector && selector[INSTANCE_LABEL] == s.name
    ensures !Selects(selector, SetOf(db.objs, key).template.labels)
  {
    assert ChildOk(s, key, db.objs[key].obj);
  }

  lemma FootprintRole(s: Scope, key: Key) returns (role: RoleName)
    requires key.kind.StatefulSet? && InFootprint(s.namespace, s.name, key)
    ensures key == Key(StatefulSet, s.namespace, WorkloadName(s.name, role))
  {
    role := if key.name == s.name then Standalone else if key.name == LeaderName(s.name) then Leader else Follower;
  }

  /** In its namespace a role selector selects the set of that role and no other, the bare selector every set of the instance. */
  lemma SelectorReach(s: Scope, db: Db, key: Key, role: RoleName)
    requires ChildrenOk(s, db) && key.kind.StatefulSet? && key in db.objs && key.namespace == s.namespace
    ensures var labels := SetOf(db.objs, key).template.labels;
      (Selects(RoleSelector(s.name, role), labels) <==> key == Key(StatefulSet, s.namespace, WorkloadName(s.name, role)))
      && (Selects(SelectorLabels(s.name), labels) <==> InFootprint(s.namespace, s.name, key))
  {
    if InFootprint(s.namespace, s.name, key) {
      var own := FootprintRole(s, key);
      StoredSet(s, db, key, own);
      SelectionIsExact(s.name, s.name, role, own);
      SuffixLengths(s.name);
    } else {
      LabelKeysDiffer();
      ForeignSet(s, db, key, RoleSelector(s.name, role));
      ForeignSet(s, db, key, SelectorLabels(s.name));
      OutsideKey(s, key, role);
    }
  }

  lemma OutsideKey(s: Scope, key: Key, role: RoleName)
    requires !InFootprint(s.namespace, s.name, key)
    ensures key != Key(StatefulSet, s.namespace, WorkloadName(s.name, role))
  {
  }

  // ---- Settled children -------------------------------------------------------------------

  lemma SettledService(objs: Objects, t: Target)
    requires SettledAt(objs, t) && t.key.kind.Service?
    ensures ServiceOf(objs, t.key).selector == t.desired.body.svc.selector
  {
  }

  lemma SettledSet(objs: Objects, t: Target)
    requires SettledAt(objs, t) && t.key.kind.StatefulSet?
    ensures SetOf(objs, t.key).replicas == t.desired.body.sts.replicas
  {
  }

  lemma ServiceSelector(inst: TlnDB, h: string, objs: Objects, id: ChildId, selector: StringMap)
    requires AllSettled(inst, h, objs) && Wanted(inst.spec, id) && id in {WriteChild, ReadChild, ClientChild}
    requires selector == DesiredService(inst, id).body.svc.selector
    ensures KeyOf(inst, id) in objs && ServiceOf(objs, KeyOf(inst, id)).selector == selector
  {
    SettledService(objs, TargetOf(inst, h, id));
  }

  lemma TargetSet(inst: TlnDB, h: string, role: RoleName)
    ensures var t := TargetOf(inst, h, SetChild(role));
      t.key == KeyOf(inst, SetChild(role)) && t.key.kind.StatefulSet? && t.desired.body.sts == SetSpec(inst, h, role)
  {
    DesiredSet(inst, h, role);
  }

  lemma SetReplicas(inst: TlnDB, h: string, objs: Objects, role: RoleName)
    requires AllSettled(inst, h, objs) && Wanted(inst.spec, SetChild(role))
    ensures var key := KeyOf(inst, SetChild(role)); key in objs && SetOf(objs, key).replicas == Replicas(inst.spec, role)
  {
    SettledSet(objs, TargetOf(inst, h, SetChild(role)));
  }

  /** How many pods each set has: one leader, the read replicas, or what the spec says of a standalone set. */
  ghost predicate Sized(inst: TlnDB, objs: Objects) {
    if inst.spec.mode == "replicated" then
      LeaderSet(inst) in objs && SetOf(objs, LeaderSet(inst)).replicas == 1
      && (FollowerSet(inst) in objs <==> inst.spec.readReplicas > 0)
      && (FollowerSet(inst) in objs ==> SetOf(objs, FollowerSet(inst)).replicas == inst.spec.readReplicas)
    else
      MainSet(inst) in objs
      && SetOf(objs, MainSet(inst)).replicas == if inst.spec.replicas.Some? then inst.spec.replicas.value else 1
  }

  lemma SettledIsSized(inst: TlnDB, h: string, objs: Objects)
    requires AllSettled(inst, h, objs)
    ensures Sized(inst, objs)
  {
    ChildNames(inst);
    if Replicated(inst.spec) {
      SetReplicas(inst, h, objs, Leader);
      if inst.spec.readReplicas > 0 { SetReplicas(inst, h, objs, Follower); }
    } else {
      SetReplicas(inst, h, objs, Standalone);
    }
  }

  /** The headless Service reaches every set of the instance; it and the client Services serve the gRPC port. */
  lemma SettledHeadless(s: Scope, inst: TlnDB, h: string, db: Db)
    requires ChildrenOk(s, db) && inst.name == s.name && inst.namespace == s.namespace && AllSettled(inst, h, db.objs)
    ensures var headless := Key(Service, inst.namespace, inst.name + "-headless");
      ServesGrpc(db.objs, headless, GrpcPort(inst.spec))
      && forall k | k in db.objs && k.kind.StatefulSet? :: Reaches(db.objs, headless, k) <==> InFootprint(s.namespace, s.name, k)
  {
    var t := TargetOf(inst, h, HeadlessChild);
    ChildNames(inst);
    assert Wanted(inst.spec, HeadlessChild) && SettledAt(db.objs, t);
    HeadlessTarget(inst, h);
    SettledService(db.objs, t);
    SettledPorts(db.objs, t);
    BareServiceReach(s, db, t.key);
  }

  lemma HeadlessTarget(inst: TlnDB, h: string)
    ensures var t := TargetOf(inst, h, HeadlessChild);
      t.key == KeyOf(inst, HeadlessChild) && t.desired.body.svc.selector == SelectorLabels(inst.name)
      && t.desired.body.svc.ports == ServicePorts(inst.spec)
  {
  }

  // ---- Replicated: one writer ----------------------------------------------------------------

  /** The write Service reaches exactly the one leader pod; leader pods lead and follower pods follow. */
  ghost predicate SingleWriter(inst: TlnDB, objs: Objects) {
    var write, leader, follower := MainService(inst), LeaderSet(inst), FollowerSet(inst);
    (forall k | k in objs && k.kind.StatefulSet? :: Reaches(objs, write, k) <==> k == leader)
    && leader in objs && SetOf(objs, leader).replicas == 1 && ProcessRole(SetOf(objs, leader)) == Some("leader")
    && write in objs
    && (follower in objs ==> ProcessRole(SetOf(objs, follower)) == Some("follower"))
    && ServesGrpc(objs, write, GrpcPort(inst.spec))
    && (follower in objs ==> FollowsService(SetOf(objs, follower), write))
  }

  /** The first port of the Service is the gRPC port. */
  predicate ServesGrpc(objs: Objects, service: Key, port: int) {
    service.kind.Service? && service in objs && ServiceOf(objs, service).ports != []
    && ServiceOf(objs, service).ports[0] == ServicePort("grpc", port, "grpc")
  }

  /** Where the database process of a set's pods replicates from: the last `TLNDB_REPLICATE_FROM` wins. */
  function ReplicationSource(sts: StatefulSetSpec): Option<string> {
    if sts.template.containers == [] then None else LastEnv(sts.template.containers[0].env, "TLNDB_REPLICATE_FROM")
  }

  /** The gRPC port the set's pods listen on. */
  function OwnGrpcPort(sts: StatefulSetSpec): Option<int> {
    if sts.template.containers == [] || sts.template.containers[0].ports == [] then None
    else Some(sts.template.containers[0].ports[0].number)
  }

  /** The pods replicate from the Service's DNS name, at the gRPC port they listen on themselves. */
  predicate FollowsService(sts: StatefulSetSpec, service: Key) {
    OwnGrpcPort(sts).Some? && 1 <= OwnGrpcPort(sts).value <= 65535 &&
    ReplicationSource(sts) ==
      Some(service.name + "." + service.namespace + ".svc.cluster.local" + ":" + Decimal(OwnGrpcPort(sts).value))
  }

  lemma ExplainedFollower(s: Scope, key: Key, sts: StatefulSetSpec, v: Provenance)
    requires Explains(s, key, sts, v) && v.role.Follower?
    ensures FollowsService(sts, Key(Service, s.namespace, s.name)) && OwnGrpcPort(sts) == Some(GrpcPort(v.writer.inst.spec))
  {
    RoleEnvWins(v.writer.inst, Follower);
    assert TemplateOf(v.writer.inst, v.writer.configHash, Follower).containers[0].ports[0].number == GrpcPort(v.writer.inst.spec);
  }

  lemma StoredFollower(s: Scope, db: Db, key: Key)
    requires ChildrenOk(s, db) && key == Key(StatefulSet, s.namespace, WorkloadName(s.name, Follower)) && key in db.objs
    ensures FollowsService(SetOf(db.objs, key), Key(Service, s.namespace, s.name))
  {
    var child := db.objs[key].obj;
    RoleInFootprint(s, Follower);
    assert ChildOk(s, key, child) && InFootprint(s.namespace, s.name, key) && child.body.StatefulSetBody?;
    var v :| Explains(s, key, child.body.sts, v);
    ExplainedRole(s, key, child.body.sts, v, Follower);
    ExplainedFollower(s, key, child.body.sts, v);
  }

  lemma SettledPorts(objs: Objects, t: Target)
    requires SettledAt(objs, t) && t.key.kind.Service?
    ensures ServiceOf(objs, t.key).ports == t.desired.body.svc.ports
  {
  }

  lemma ServicePortsStored(inst: TlnDB, h: string, objs: Objects, id: ChildId)
    requires AllSettled(inst, h, objs) && Wanted(inst.spec, id) && id in {WriteChild, ReadChild, ClientChild}
    ensures ServesGrpc(objs, KeyOf(inst, id), GrpcPort(inst.spec))
  {
    SettledPorts(objs, TargetOf(inst, h, id));
  }

  lemma RoleServiceReach(s: Scope, db: Db, service: Key, role: RoleName, workload: Key)
    requires ChildrenOk(s, db) && service.kind.Service? && service in db.objs && service.namespace == s.namespace
    requires ServiceOf(db.objs, service).selector == RoleSelector(s.name, role)
    requires workload == Key(StatefulSet, s.namespace, WorkloadName(s.name, role))
    ensures forall k | k in db.objs && k.kind.StatefulSet? :: Reaches(db.objs, service, k) <==> k == workload
  {
    forall k | k in db.objs && k.kind.StatefulSet? ensures Reaches(db.objs, service, k) <==> k == workload {
      if k.namespace == s.namespace { SelectorReach(s, db, k, role); }
    }
  }

  lemma SettledHasSingleWriter(s: Scope, inst: TlnDB, h: string, db: Db)
    requires ChildrenOk(s, db) && inst.name == s.name && inst.namespace == s.namespace
    requires AllSettled(inst, h, db.objs) && Replicated(inst.spec)
    ensures SingleWriter(inst, db.objs)
  {
    var leader, follower := KeyOf(inst, SetChild(Leader)), FollowerKey(inst);
    ServiceSelector(inst, h, db.objs, WriteChild, RoleSelector(inst.name, Leader));
    RoleServiceReach(s, db, KeyOf(inst, WriteChild), Leader, leader);
    SetReplicas(inst, h, db.objs, Leader);
    StoredSet(s, db, leader, Leader);
    ServicePortsStored(inst, h, db.objs, WriteChild);
    ChildNames(inst);
    if follower in db.objs {
      StoredSet(s, db, follower, Follower);
      StoredFollower(s, db, follower);
    }
  }

  /** The read Service reaches a set with at least one pod. */
  ghost predicate ReadsServed(inst: TlnDB, objs: Objects) {
    exists k :: Reaches(objs, ReadService(inst), k) && SetOf(objs, k).replicas >= 1
  }

  /** Reads are served exactly when the number of read replicas is not negative. */
  lemma SettledServesReads(s: Scope, inst: TlnDB, h: string, db: Db)
    requires ChildrenOk(s, db) && inst.name == s.name && inst.namespace == s.namespace
    requires AllSettled(inst, h, db.objs) && Replicated(inst.spec)
    ensures ReadsServed(inst, db.objs) <==> inst.spec.readReplicas >= 0
  {
    var role := ReadRole(inst.spec);
    var key := KeyOf(inst, SetChild(role));
    ServiceSelector(inst, h, db.objs, ReadChild, RoleSelector(inst.name, role));
    RoleServiceReach(s, db, KeyOf(inst, ReadChild), role, key);
    if inst.spec.readReplicas >= 0 {
      SetReplicas(inst, h, db.objs, role);
      assert Reaches(db.objs, KeyOf(inst, ReadChild), key);
    }
  }

  // ---- Standalone ------------------------------------------------------------------------------

  /** The Service reaches the pods of the standalone set and no others. */
  ghost predicate OnlyOwnPods(inst: TlnDB, objs: Objects) {
    var service, own := MainService(inst), MainSet(inst);
    Reaches(objs, service, own) && forall k | k in objs && k.kind.StatefulSet? && k != own :: !Reaches(objs, service, k)
  }

  lemma BareServiceReach(s: Scope, db: Db, service: Key)
    requires ChildrenOk(s, db) && service.kind.Service? && service in db.objs && service.namespace == s.namespace
    requires ServiceOf(db.objs, service).selector == SelectorLabels(s.name)
    ensures forall k | k in db.objs && k.kind.StatefulSet? :: Reaches(db.objs, service, k) <==> InFootprint(s.namespace, s.name, k)
  {
    forall k | k in db.objs && k.kind.StatefulSet?
      ensures Reaches(db.objs, service, k) <==> InFootprint(s.namespace, s.name, k)
    {
      if k.namespace == s.namespace { SelectorReach(s, db, k, Standalone); }
    }
  }

  lemma OtherSets(s: Scope, objs: Objects)
    ensures (forall k | k in objs && k.kind.StatefulSet? && k.name != s.name :: !InFootprint(s.namespace, s.name, k)) <==>
            Key(StatefulSet, s.namespace, LeaderName(s.name)) !in objs && Key(StatefulSet, s.namespace, FollowerName(s.name)) !in objs
  {
    SuffixLengths(s.name);
    assert InFootprint(s.namespace, s.name, Key(StatefulSet, s.namespace, LeaderName(s.name)));
    assert InFootprint(s.namespace, s.name, Key(StatefulSet, s.namespace, FollowerName(s.name)));
  }

  lemma OnlyOwnMeans(s: Scope, objs: Objects, service: Key, own: Key)
    requires forall k | k in objs && k.kind.StatefulSet? :: Reaches(objs, service, k) <==> InFootprint(s.namespace, s.name, k)
    requires own == Key(StatefulSet, s.namespace, s.name) && own in objs
    ensures (Reaches(objs, service, own) && forall k | k in objs && k.kind.StatefulSet? && k != own :: !Reaches(objs, service, k)) <==>
            forall k | k in objs && k.kind.StatefulSet? && k.name != s.name :: !InFootprint(s.namespace, s.name, k)
  {
    assert Reaches(objs, service, own);
    if forall k | k in objs && k.kind.StatefulSet? && k.name != s.name :: !InFootprint(s.namespace, s.name, k) {
      forall k | k in objs && k.kind.StatefulSet? && k != own ensures !Reaches(objs, service, k) {
        assert InFootprint(s.namespace, s.name, k) ==> k.name != s.name;
      }
    }
  }

  /** That is so exactly when no leader or follower set is left over. */
  lemma SettledStandaloneRouting(s: Scope, inst: TlnDB, h: string, db: Db)
    requires ChildrenOk(s, db) && inst.name == s.name && inst.namespace == s.namespace
    requires AllSettled(inst, h, db.objs) && !Replicated(inst.spec)
    ensures OnlyOwnPods(inst, db.objs) <==> LeaderSet(inst) !in db.objs && FollowerSet(inst) !in db.objs
  {
    var service, own := KeyOf(inst, ClientChild), KeyOf(inst, SetChild(Standalone));
    ServiceSelector(inst, h, db.objs, ClientChild, SelectorLabels(inst.name));
    SetReplicas(inst, h, db.objs, Standalone);
    BareServiceReach(s, db, service);
    OnlyOwnIffNoOthers(s, inst, db.objs);
  }

  lemma OnlyOwnIffNoOthers(s: Scope, inst: TlnDB, objs: Objects)
    requires inst.name == s.name && inst.namespace == s.namespace && KeyOf(inst, SetChild(Standalone)) in objs
    requires forall k | k in objs && k.kind.StatefulSet? ::
      Reaches(objs, KeyOf(inst, ClientChild), k) <==> InFootprint(s.namespace, s.name, k)
    ensures OnlyOwnPods(inst, objs) <==> LeaderSet(inst) !in objs && FollowerSet(inst) !in objs
  {
    OnlyOwnMeans(s, objs, KeyOf(inst, ClientChild), KeyOf(inst, SetChild(Standalone)));
    OtherSets(s, objs);
  }

  /** In runs that were never replicated there is nothing to be left over. */
  lemma PlainHasNoLeftovers(s: Scope, inst: TlnDB, db: Db)
    requires ChildrenOk(s, db) && inst.name == s.name && inst.namespace == s.namespace && s.plain
    ensures LeaderSet(inst) !in db.objs && FollowerSet(inst) !in db.objs
  {
    if KeyOf(inst, SetChild(Leader)) in db.objs { StoredSet(s, db, KeyOf(inst, SetChild(Leader)), Leader); }
    if FollowerKey(inst) in db.objs { StoredSet(s, db, FollowerKey(inst), Follower); }
  }
}

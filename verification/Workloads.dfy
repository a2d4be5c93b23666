/**
 The StatefulSets: `internal/resources/statefulset.go`.
 */
module Workloads {
  import opened Api
  import opened Text
  import opened Common

  // ---- What each role adds ----------------------------------------------------

  function WorkloadName(name: string, role: RoleName): string {
    match role
    case Standalone => name
    case Leader => LeaderName(name)
    case Follower => FollowerName(name)
  }

  function RetentionEnv(retention: int): seq<EnvVar> {
    if retention <= 0 then [] else [EnvVar("TLNDB_OPLOG_RETENTION", Decimal(retention))]
  }

  /** The variables the operator injects after the user's own. */
  function RoleEnv(inst: TlnDB, role: RoleName): seq<EnvVar> {
    match role
    case Standalone => []
    case Leader => [EnvVar("TLNDB_ROLE", RoleText(Leader))] + RetentionEnv(inst.spec.oplogRetention)
    case Follower =>
      [EnvVar("TLNDB_ROLE", RoleText(Follower)), EnvVar("TLNDB_REPLICATE_FROM", LeaderAddr(inst))]
      + RetentionEnv(inst.spec.oplogRetention)
  }

  function Replicas(spec: Spec, role: RoleName): int {
    match role
    case Standalone => if spec.replicas.Some? then spec.replicas.value else 1
    case Leader => 1
    case Follower => spec.readReplicas
  }

  function WorkloadSelector(name: string, role: RoleName): StringMap {
    if role.Standalone? then SelectorLabels(name) else RoleSelector(name, role)
  }

  // ---- The pod template -------------------------------------------------------

  function PodAnnotations(spec: Spec, configHash: string): StringMap {
    map[CONFIG_HASH_ANNOTATION := configHash] + spec.podAnnotations
  }

  function ContainerPorts(spec: Spec): seq<ContainerPort> {
    [ContainerPort("grpc", GrpcPort(spec)), ContainerPort("http", HttpPort(spec))]
    + (if MetricsEnabled(spec) then [ContainerPort("metrics", MetricsPort(spec))] else [])
  }

  function MainContainer(spec: Spec, extraEnv: seq<EnvVar>): Container {
    Container(
      "tlndb",
      ImageRef(spec.image),
      ["--config", "/etc/tlndb/config.yaml"],
      ContainerPorts(spec),
      spec.env + extraEnv,
      [Mount(CONFIG_VOLUME, "/etc/tlndb"), Mount(DATA_VOLUME, "/data")] + spec.additionalVolumeMounts,
      [HttpPort(spec), HttpPort(spec), HttpPort(spec)])
  }

  predicate PersistenceEnabled(spec: Spec) { spec.persistence.enabled.None? || spec.persistence.enabled.value }

  /** A claim per pod, rather than an emptyDir or an existing claim. */
  predicate NeedsClaim(spec: Spec) { PersistenceEnabled(spec) && spec.persistence.existingClaim == "" }

  function DataVolumes(spec: Spec): seq<Volume> {
    if !PersistenceEnabled(spec) then [Volume(DATA_VOLUME, "emptyDir")]
    else if spec.persistence.existingClaim != "" then [Volume(DATA_VOLUME, "claim/" + spec.persistence.existingClaim)]
    else []
  }

  function ConfigSource(inst: TlnDB): string {
    if inst.spec.configFrom.Some? && inst.spec.configFrom.value != "" then inst.spec.configFrom.value
    else ConfigMapName(inst.name)
  }

  function Volumes(inst: TlnDB): seq<Volume> {
    [Volume(CONFIG_VOLUME, "configMap/" + ConfigSource(inst))] + DataVolumes(inst.spec) + inst.spec.additionalVolumes
  }

  function Claims(spec: Spec): seq<Volume> {
    if NeedsClaim(spec) then [Volume(DATA_VOLUME, spec.persistence.claim)] else []
  }

  function ServiceAccountName(inst: TlnDB): string {
    if inst.spec.serviceAccountName != "" then inst.spec.serviceAccountName else inst.name
  }

  function TemplateOf(inst: TlnDB, configHash: string, role: RoleName): Template {
    Template(
      WithRole(CommonLabels(inst.name), role),
      PodAnnotations(inst.spec, configHash),
      ServiceAccountName(inst),
      [MainContainer(inst.spec, RoleEnv(inst, role))] + inst.spec.additionalContainers,
      Volumes(inst),
      inst.spec.podSettings)
  }

  function SetSpec(inst: TlnDB, configHash: string, role: RoleName): StatefulSetSpec {
    StatefulSetSpec(
      Replicas(inst.spec, role),
      HeadlessServiceName(inst.name),
      WorkloadSelector(inst.name, role),
      TemplateOf(inst, configHash, role),
      Claims(inst.spec))
  }

  /** The desired StatefulSet of a role. */
  function Workload(inst: TlnDB, configHash: string, role: RoleName): Child {
    Child(
      WithRole(CommonLabels(inst.name), role), map[], Some(inst.uid),
      StatefulSetBody(SetSpec(inst, configHash, role), 0, StatefulSetStatus(0, 0)))
  }

  // ---- The builders, as the source writes them --------------------------------

  method BuildMainContainer(spec: Spec, extraEnv: seq<EnvVar>) returns (c: Container)
    ensures c == MainContainer(spec, extraEnv)
  {
    var ports := [ContainerPort("grpc", GrpcPort(spec)), ContainerPort("http", HttpPort(spec))];
    if MetricsEnabled(spec) {
      ports := ports + [ContainerPort("metrics", MetricsPort(spec))];
    }
    var mounts := [Mount(CONFIG_VOLUME, "/etc/tlndb"), Mount(DATA_VOLUME, "/data")];
    mounts := mounts + spec.additionalVolumeMounts;
    c := Container("tlndb", ImageRef(spec.image), ["--config", "/etc/tlndb/config.yaml"], ports,
                   spec.env + extraEnv, mounts, [HttpPort(spec), HttpPort(spec), HttpPort(spec)]);
  }

  method BuildVolumes(inst: TlnDB) returns (volumes: seq<Volume>)
    ensures volumes == Volumes(inst)
  {
    var spec := inst.spec;
    volumes := [Volume(CONFIG_VOLUME, "configMap/" + ConfigSource(inst))];
    if !PersistenceEnabled(spec) {
      volumes := volumes + [Volume(DATA_VOLUME, "emptyDir")];
    } else if spec.persistence.existingClaim != "" {
      volumes := volumes + [Volume(DATA_VOLUME, "claim/" + spec.persistence.existingClaim)];
    }
    volumes := volumes + spec.additionalVolumes;
  }

  method BuildTemplate(inst: TlnDB, configHash: string, role: RoleName, labels: StringMap) returns (template: Template)
    requires labels == WithRole(CommonLabels(inst.name), role)
    ensures template == TemplateOf(inst, configHash, role)
  {
    var annotations := CopyInto(map[CONFIG_HASH_ANNOTATION := configHash], inst.spec.podAnnotations);
    var main := BuildMainContainer(inst.spec, RoleEnv(inst, role));
    var volumes := BuildVolumes(inst);
    template := Template(labels, annotations, ServiceAccountName(inst),
                         [main] + inst.spec.additionalContainers, volumes, inst.spec.podSettings);
  }

  method BuildLabels(name: string, role: RoleName) returns (labels: StringMap)
    ensures labels == WithRole(CommonLabels(name), role)
  {
    labels := CopyInto(map[], CommonLabels(name));
    assert map[] + CommonLabels(name) == CommonLabels(name);
    labels := labels[ROLE_LABEL := RoleText(role)];
  }

  method BuildWorkload(inst: TlnDB, configHash: string, role: RoleName) returns (child: Child)
    ensures child == Workload(inst, configHash, role)
  {
    var selector := SelectorLabels(inst.name);
    if !role.Standalone? {
      selector := RoleSelector(inst.name, role);
    }
    var labels := BuildLabels(inst.name, role);
    var template := BuildTemplate(inst, configHash, role, labels);
    var claims: seq<Volume> := [];
    if PersistenceEnabled(inst.spec) && inst.spec.persistence.existingClaim == "" {
      claims := [Volume(DATA_VOLUME, inst.spec.persistence.claim)];
    }
    var spec := StatefulSetSpec(Replicas(inst.spec, role), HeadlessServiceName(inst.name), selector, template, claims);
    child := Child(labels, map[], Some(inst.uid), StatefulSetBody(spec, 0, StatefulSetStatus(0, 0)));
  }

  // ---- Environment precedence -------------------------------------------------

  /** The value a container sees: of several entries with one name, the last. */
  function LastEnv(env: seq<EnvVar>, name: string): Option<string> {
    if env == [] then None
    else if env[|env|-1].name == name then Some(env[|env|-1].value)
    else LastEnv(env[..|env|-1], name)
  }

  lemma {:induction false} LaterEnvWins(user: seq<EnvVar>, injected: seq<EnvVar>, name: string)
    ensures LastEnv(user + injected, name) ==
            (if LastEnv(injected, name).Some? then LastEnv(injected, name) else LastEnv(user, name))
  {
    if injected == [] {
      assert user + injected == user;
    } else {
      var front := injected[..|injected|-1];
      assert (user + injected)[..|user + injected|-1] == user + front;
      LaterEnvWins(user, front, name);
    }
  }

  lemma EnvNamesDiffer()
    ensures "TLNDB_OPLOG_RETENTION" != "TLNDB_ROLE" && "TLNDB_REPLICATE_FROM" != "TLNDB_ROLE"
    ensures "TLNDB_OPLOG_RETENTION" != "TLNDB_REPLICATE_FROM"
  {
    assert |"TLNDB_ROLE"| == 10 && |"TLNDB_OPLOG_RETENTION"| == 21 && |"TLNDB_REPLICATE_FROM"| == 20;
  }

  lemma InjectedEnv(first: seq<EnvVar>, retention: int, name: string)
    requires name != "TLNDB_OPLOG_RETENTION"
    ensures LastEnv(first + RetentionEnv(retention), name) == LastEnv(first, name)
  {
    LaterEnvWins(first, RetentionEnv(retention), name);
    assert RetentionEnv(retention) != [] ==> RetentionEnv(retention)[..0] == [];
  }

  /** Whatever the user's own variables, a leader pod runs as leader and a follower pod as follower of the write Service. */
  lemma RoleEnvWins(inst: TlnDB, role: RoleName)
    requires !role.Standalone?
    ensures LastEnv(MainContainer(inst.spec, RoleEnv(inst, role)).env, "TLNDB_ROLE") == Some(RoleText(role))
    ensures role.Follower? ==>
      LastEnv(MainContainer(inst.spec, RoleEnv(inst, role)).env, "TLNDB_REPLICATE_FROM") == Some(LeaderAddr(inst))
  {
    EnvNamesDiffer();
    LaterEnvWins(inst.spec.env, RoleEnv(inst, role), "TLNDB_ROLE");
    LaterEnvWins(inst.spec.env, RoleEnv(inst, role), "TLNDB_REPLICATE_FROM");
    var own := EnvVar("TLNDB_ROLE", RoleText(role));
    if role.Leader? {
      InjectedEnv([own], inst.spec.oplogRetention, "TLNDB_ROLE");
    } else {
      var from := EnvVar("TLNDB_REPLICATE_FROM", LeaderAddr(inst));
      assert [own, from][..1] == [own];
      InjectedEnv([own, from], inst.spec.oplogRetention, "TLNDB_ROLE");
      InjectedEnv([own, from], inst.spec.oplogRetention, "TLNDB_REPLICATE_FROM");
    }
  }

  // ---- Data volume backing ----------------------------------------------------

  function CountNamed(volumes: seq<Volume>, name: string): nat {
    if volumes == [] then 0 else (if volumes[0].name == name then 1 else 0) + CountNamed(volumes[1..], name)
  }

  lemma {:induction false} CountNamedConcat(a: seq<Volume>, b: seq<Volume>, name: string)
    ensures CountNamed(a + b, name) == CountNamed(a, name) + CountNamed(b, name)
  {
    if a == [] {
      assert a + b == b;
    } else {
      assert (a + b)[1..] == a[1..] + b;
      CountNamedConcat(a[1..], b, name);
    }
  }

  /** What provides the volume behind the `/data` mount: claim templates and template volumes named "data". */
  function DataBackings(sts: StatefulSetSpec): nat {
    CountNamed(sts.claims, DATA_VOLUME) + CountNamed(sts.template.volumes, DATA_VOLUME)
  }

  /** A template brings its own data volume exactly when its spec asks for no claim. */
  lemma TemplateDataVolumes(inst: TlnDB)
    requires CountNamed(inst.spec.additionalVolumes, DATA_VOLUME) == 0
    ensures CountNamed(Volumes(inst), DATA_VOLUME) == if NeedsClaim(inst.spec) then 0 else 1
  {
    var config := [Volume(CONFIG_VOLUME, "configMap/" + ConfigSource(inst))];
    assert |CONFIG_VOLUME| == 6 && |DATA_VOLUME| == 4;
    CountNamedConcat(config + DataVolumes(inst.spec), inst.spec.additionalVolumes, DATA_VOLUME);
    CountNamedConcat(config, DataVolumes(inst.spec), DATA_VOLUME);
    assert config[1..] == [];
    assert DataVolumes(inst.spec) != [] ==> DataVolumes(inst.spec)[1..] == [];
  }
}

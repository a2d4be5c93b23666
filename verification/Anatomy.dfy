/**
 What the builders produce, in the fields of the spec and in the words of the
 objects themselves: volumes, mounts, ports, images, environment and names that
 must fit together across several objects.
 */
module Anatomy {
  import opened Api
  import opened Text
  import opened Common
  import opened Workloads
  import opened Services
  import opened Children
  import ConfigYaml

  // ---- Data ---------------------------------------------------------------------------------

  /** Pods claim volumes of their own: persistence is not switched off and no claim is given. */
  predicate ClaimsPerPod(spec: Spec) { spec.persistence.enabled != Some(false) && spec.persistence.existingClaim == "" }

  lemma ClaimsMeans(spec: Spec)
    ensures NeedsClaim(spec) <==> ClaimsPerPod(spec)
  {
  }

  lemma VolumesByCase(inst: TlnDB)
    ensures var spec := inst.spec;
      var config := [Volume("config", "configMap/" + ConfigSource(inst))];
      if spec.persistence.enabled == Some(false) then Volumes(inst) == config + [Volume("data", "emptyDir")] + spec.additionalVolumes
      else if spec.persistence.existingClaim != "" then
        Volumes(inst) == config + [Volume("data", "claim/" + spec.persistence.existingClaim)] + spec.additionalVolumes
      else Volumes(inst) == config + [] + spec.additionalVolumes
  {
  }

  lemma ClaimsByCase(spec: Spec)
    ensures Claims(spec) == if ClaimsPerPod(spec) then [Volume("data", spec.persistence.claim)] else []
  {
  }

  /** Where the data goes: a claim per pod, the given claim, or, only when persistence is switched off, an emptyDir. */
  lemma DataByCase(inst: TlnDB, h: string, role: RoleName)
    ensures var spec, sts := inst.spec, SetSpec(inst, h, role);
      var config := [Volume("config", "configMap/" + ConfigSource(inst))];
      if spec.persistence.enabled == Some(false) then
        sts.claims == [] && sts.template.volumes == config + [Volume("data", "emptyDir")] + spec.additionalVolumes
      else if spec.persistence.existingClaim != "" then
        sts.claims == []
        && sts.template.volumes == config + [Volume("data", "claim/" + spec.persistence.existingClaim)] + spec.additionalVolumes
      else
        sts.claims == [Volume("data", spec.persistence.claim)] && sts.template.volumes == config + [] + spec.additionalVolumes
  {
    VolumesByCase(inst);
    ClaimsByCase(inst.spec);
  }

  // ---- Configuration ---------------------------------------------------------------------------

  /** The ConfigMap whose digest a pass takes. */
  function HashedConfig(inst: TlnDB): Key {
    Key(ConfigMap, inst.namespace, if inst.spec.configFrom.Some? then inst.spec.configFrom.value else inst.name + "-config")
  }

  /** Pods mount the ConfigMap whose digest is stamped on them, unless the reference is the empty name. */
  lemma MountedIsHashed(inst: TlnDB, h: string, role: RoleName)
    ensures SetSpec(inst, h, role).template.volumes[0] == Volume("config", "configMap/" + HashedConfig(inst).name)
            <==> inst.spec.configFrom != Some("")
  {
    DataByCase(inst, h, role);
    var mounted, hashed := "configMap/" + ConfigSource(inst), "configMap/" + HashedConfig(inst).name;
    assert mounted[10..] == ConfigSource(inst) && hashed[10..] == HashedConfig(inst).name;
    assert |inst.name + "-config"| >= 7;
  }

  lemma MainMounts(spec: Spec, env: seq<EnvVar>)
    ensures var main := MainContainer(spec, env);
      |main.mounts| >= 2 && main.mounts[0] == Mount("config", "/etc/tlndb") && main.mounts[1] == Mount("data", "/data")
      && |main.args| == 2 && main.args[0] == "--config" && main.args[1] == "/etc/tlndb/config.yaml"
  {
  }

  lemma ConfigPath()
    ensures "/etc/tlndb" + "/" + CONFIG_FILE_NAME == "/etc/tlndb/config.yaml"
  {
  }

  /** The server reads the file of the mounted configuration, and its default database lies on the data mount. */
  lemma PathsAreMounted(spec: Spec, env: seq<EnvVar>)
    ensures var main := MainContainer(spec, env);
      |main.mounts| >= 2 && main.mounts[0].name == "config" && main.mounts[1].name == "data"
      && |main.args| == 2 && main.args[1] == main.mounts[0].path + "/" + CONFIG_FILE_NAME
      && (spec.config.dbPath == "" ==> ConfigYaml.Effective(spec).db == main.mounts[1].path + "/tlndb.bbolt")
  {
    MainMounts(spec, env);
    ConfigPath();
    assert "/data" + "/tlndb.bbolt" == "/data/tlndb.bbolt";
  }

  // ---- Ports ---------------------------------------------------------------------------------------

  /** A blank address is the well-known port, for the server and for the container. */
  lemma DefaultPorts(spec: Spec)
    ensures spec.config.tcp == "" ==> ConfigYaml.Effective(spec).tcp == ":" + Decimal(9899) && GrpcPort(spec) == 9899
    ensures spec.config.http == "" ==> ConfigYaml.Effective(spec).http == ":" + Decimal(8080) && HttpPort(spec) == 8080
  {
  }

  /** Metrics are on unless switched off; then server, container and Service agree on the port, and otherwise none has one. */
  lemma MetricsEverywhere(spec: Spec, env: seq<EnvVar>)
    ensures var port: nat := if spec.metrics.port > 0 then spec.metrics.port else 9090;
      var containerPorts, servicePorts := MainContainer(spec, env).ports, ServicePorts(spec);
      if spec.metrics.enabled != Some(false) then
        ConfigYaml.Effective(spec).metrics == Some(":" + Decimal(port))
        && |containerPorts| == 3 && containerPorts[2] == ContainerPort("metrics", port)
        && |servicePorts| == 3 && servicePorts[2] == ServicePort("metrics", port, "metrics")
      else
        ConfigYaml.Effective(spec).metrics.None? && |containerPorts| == 2 && |servicePorts| == 2
  {
  }

  // ---- Images --------------------------------------------------------------------------------------

  /** A digest makes the tag irrelevant; blank parts mean the published repository and the latest tag. */
  lemma ImageParts(image: ImageSpec, tag: string)
    ensures image.digest != "" ==> ImageRef(image) == ImageRef(image.(tag := tag))
    ensures image.repository != "" && image.digest != "" ==> ImageRef(image) == image.repository + "@" + image.digest
    ensures image.repository != "" && image.digest == "" && image.tag != "" ==> ImageRef(image) == image.repository + ":" + image.tag
    ensures ImageRef(image.(repository := "")) == ImageRef(image.(repository := "ghcr.io/opentalon/tln-db"))
    ensures ImageRef(image.(tag := "")) == ImageRef(image.(tag := "latest"))
  {
  }

  // ---- Identity ------------------------------------------------------------------------------------

  /** Pods run as the account the operator creates, which is bound to the role that reads the rendered ConfigMap. */
  lemma AccessIsWired(inst: TlnDB, h: string, role: RoleName)
    ensures inst.spec.serviceAccountName == "" ==>
      var account := KeyOf(inst, AccountChild).name;
      SetSpec(inst, h, role).template.serviceAccount == account
      && Desired(inst, h, BindingChild).body == RoleBindingBody(KeyOf(inst, RoleChild).name, account)
      && Desired(inst, h, RoleChild).body == RoleBody(inst.name + "-config")
    ensures inst.spec.serviceAccountName != "" ==>
      SetSpec(inst, h, role).template.serviceAccount == inst.spec.serviceAccountName && !Wanted(inst.spec, AccountChild)
  {
  }

  /** Sets are governed by the headless Service, which has no address and publishes pods that are not ready. */
  lemma SetsAreGoverned(inst: TlnDB, h: string, role: RoleName)
    ensures SetSpec(inst, h, role).serviceName == KeyOf(inst, HeadlessChild).name == inst.name + "-headless"
    ensures Desired(inst, h, HeadlessChild) == HeadlessService(inst)
    ensures var svc := HeadlessService(inst).body.svc; svc.clusterIp.Headless? && svc.publishNotReady
  {
  }

  /** A leader or follower set selects the pods of its role only; a standalone set's selector names no role and selects them all. */
  lemma SetSelectors(inst: TlnDB, h: string, role: RoleName, other: TlnDB, podRole: RoleName)
    ensures Selects(SetSpec(inst, h, role).selector, SetSpec(other, h, podRole).template.labels) <==>
      inst.name == other.name && (role == Standalone || role == podRole)
  {
    SelectionIsExact(inst.name, other.name, role, podRole);
  }

  /** A positive retention reaches leader and follower pods whatever the user sets; otherwise the user's value stands. */
  lemma RetentionReaches(inst: TlnDB, role: RoleName)
    requires !role.Standalone?
    ensures LastEnv(MainContainer(inst.spec, RoleEnv(inst, role)).env, "TLNDB_OPLOG_RETENTION") ==
      if inst.spec.oplogRetention > 0 then Some(Decimal(inst.spec.oplogRetention)) else LastEnv(inst.spec.env, "TLNDB_OPLOG_RETENTION")
  {
    EnvNamesDiffer();
    var own := RoleEnv(inst, role);
    LaterEnvWins(inst.spec.env, own, "TLNDB_OPLOG_RETENTION");
    if inst.spec.oplogRetention > 0 {
      assert own[|own| - 1] == EnvVar("TLNDB_OPLOG_RETENTION", Decimal(inst.spec.oplogRetention));
    } else {
      var first := EnvVar("TLNDB_ROLE", RoleText(role));
      InjectedNothing(first);
      if role.Leader? {
        assert own == [first];
      } else {
        var from := EnvVar("TLNDB_REPLICATE_FROM", LeaderAddr(inst));
        assert own == [first, from] && own[..1] == [first];
      }
    }
  }

  lemma InjectedNothing(v: EnvVar)
    requires v.name == "TLNDB_ROLE"
    ensures LastEnv([v], "TLNDB_OPLOG_RETENTION").None?
  {
    EnvNamesDiffer();
    assert [v][..0] == [];
  }

  /** User labels win over the common ones on client Services, and the type defaults to ClusterIP. */
  lemma ClientServiceLabels(inst: TlnDB, selector: StringMap, k: string)
    ensures var child := ClientService(inst, selector);
      (k in inst.spec.service.labels ==> k in child.labels && child.labels[k] == inst.spec.service.labels[k])
      && (k !in inst.spec.service.labels && k in CommonLabels(inst.name) ==> k in child.labels && child.labels[k] == CommonLabels(inst.name)[k])
      && child.annotations == inst.spec.service.annotations
      && child.body.svc.kind == (if inst.spec.service.kind == "" then "ClusterIP" else inst.spec.service.kind)
  {
  }

  /** Every child is owned by the instance, so that the garbage collector finds it, and the operator's own labels name it. */
  lemma ChildrenAreOwned(inst: TlnDB, h: string, id: ChildId)
    ensures Desired(inst, h, id).owner == Some(inst.uid)
    ensures KindOf(id) != Service ==>
      INSTANCE_LABEL in Desired(inst, h, id).labels && Desired(inst, h, id).labels[INSTANCE_LABEL] == inst.name
  {
    PodLabels(inst.name, Standalone);
    LabelKeysDiffer();
    if id.SetChild? { PodLabels(inst.name, id.role); }
  }

  // ---- What the user adds ----------------------------------------------------------------------------

  /** Extra containers, mounts, annotations and settings reach the pods. */
  lemma TemplateCarriesUser(inst: TlnDB, h: string, role: RoleName, k: string)
    ensures var spec, template := inst.spec, SetSpec(inst, h, role).template;
      template.containers != [] && template.containers[1..] == spec.additionalContainers
      && |template.containers[0].mounts| >= 2 && template.containers[0].mounts[2..] == spec.additionalVolumeMounts
      && (k in spec.podAnnotations ==> k in template.annotations && template.annotations[k] == spec.podAnnotations[k])
      && template.containers[0].image == ImageRef(spec.image) && template.settings == spec.podSettings
  {
  }

  /** The digest is stamped on the pods, unless the user sets that annotation. */
  lemma DigestIsStamped(inst: TlnDB, h: string, role: RoleName)
    requires "db.tlndb.io/config-hash" !in inst.spec.podAnnotations
    ensures var annotations := SetSpec(inst, h, role).template.annotations;
      "db.tlndb.io/config-hash" in annotations && annotations["db.tlndb.io/config-hash"] == h
  {
  }

  /** Every other variable has the value the user gave it. */
  lemma UserEnvReaches(inst: TlnDB, role: RoleName, name: string)
    requires role.Standalone? || name !in {"TLNDB_ROLE", "TLNDB_REPLICATE_FROM", "TLNDB_OPLOG_RETENTION"}
    ensures LastEnv(MainContainer(inst.spec, RoleEnv(inst, role)).env, name) == LastEnv(inst.spec.env, name)
  {
    LaterEnvWins(inst.spec.env, RoleEnv(inst, role), name);
    if !role.Standalone? {
      NothingInjected(RoleEnv(inst, role), name);
    }
  }

  lemma {:induction false} NothingInjected(env: seq<EnvVar>, name: string)
    requires forall i | 0 <= i < |env| :: env[i].name != name
    ensures LastEnv(env, name).None?
  {
    if env != [] { NothingInjected(env[..|env| - 1], name); }
  }

  // ---- The optional children ---------------------------------------------------------------------------

  function OwnPart(spec: Spec, kind: Kind): string {
    match kind
    case Ingress => spec.ingress.settings
    case NetworkPolicy => spec.networkPolicy.settings
    case ServiceMonitor => spec.metrics.monitor.settings
    case PodDisruptionBudget => spec.pdb.settings
    case HorizontalPodAutoscaler => spec.hpa.settings
    case _ => ""
  }

  /** Each optional child carries its own part of the spec, and the Ingress the HTTP port. */
  lemma OptionalContents(inst: TlnDB, h: string, id: ChildId)
    requires id in {IngressChild, PolicyChild, MonitorChild, BudgetChild, ScalerChild}
    ensures var body := DesiredOther(inst, id).body;
      Desired(inst, h, id).body == body && body.settings == OwnPart(inst.spec, KindOf(id))
      && (id == IngressChild ==> body.ports == [HttpPort(inst.spec)])
  {
  }

  /** The NetworkPolicy allows the ports the pods serve. */
  lemma PolicyAllowsPods(inst: TlnDB, env: seq<EnvVar>)
    ensures var ports := MainContainer(inst.spec, env).ports;
      DesiredOther(inst, PolicyChild).body.ports == seq(|ports|, i requires 0 <= i < |ports| => ports[i].number)
  {
  }

  // ---- Names -------------------------------------------------------------------------------------------

  function Word(kind: Kind): string {
    match kind
    case ServiceAccount => "ServiceAccount/"
    case Role => "Role/"
    case RoleBinding => "RoleBinding/"
    case ConfigMap => "ConfigMap/"
    case Service => "Service/"
    case StatefulSet => "StatefulSet/"
    case Ingress => "Ingress/"
    case NetworkPolicy => "NetworkPolicy/"
    case ServiceMonitor => "ServiceMonitor/"
    case PodDisruptionBudget => "PodDisruptionBudget/"
    case HorizontalPodAutoscaler => "HorizontalPodAutoscaler/"
  }

  /** An entry of `status.managedResources` is the kind's own name, a slash and the object's name. */
  lemma EntryText(key: Key)
    ensures KeyText(key) == Word(key.kind) + key.name
  {
    assert KindText(key.kind) + "/" == Word(key.kind);
  }

  // ---- Revising --------------------------------------------------------------------------------------------

  /** What an update writes, and that everything else on the stored object stays. */
  lemma RevisionIsExact(kind: Kind, existing: Child, desired: Child, next: Child)
    requires OfKind(kind, existing.body) && OfKind(kind, desired.body) && Revise(kind, existing, desired) == Some(next)
    ensures next.labels == desired.labels
    ensures next.owner == if kind == ServiceMonitor then desired.owner else existing.owner
    ensures next.annotations == if kind in {Service, Ingress, ServiceMonitor} then desired.annotations else existing.annotations
    ensures kind == StatefulSet ==>
      next.body.sts == existing.body.sts.(replicas := desired.body.sts.replicas, template := desired.body.sts.template)
      && next.body.generation == existing.body.generation && next.body.status == existing.body.status
    ensures kind == Service ==> next.body.svc == desired.body.svc.(clusterIp := existing.body.svc.clusterIp)
    ensures kind == ServiceAccount ==> next.body == existing.body
    ensures kind !in {StatefulSet, Service, ServiceAccount} ==> next.body == desired.body
  {
  }

  /** When there is an update at all: on any difference of the compared fields, and always for the kinds that compare nothing. */
  lemma RevisionHappens(kind: Kind, existing: Child, desired: Child)
    requires OfKind(kind, existing.body) && OfKind(kind, desired.body)
    ensures Revise(kind, existing, desired).Some? <==>
      match kind
      case ConfigMap => existing.body != desired.body
      case Role => existing.body != desired.body
      case RoleBinding => existing.body != desired.body
      case StatefulSet => NeedsUpdate(existing.body.sts, desired.body.sts)
      case _ => true
  {
  }
}

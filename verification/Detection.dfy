/**
 The change-detection chain.  `statefulSetNeedsUpdate` compares replicas, one hash
 and one image; what that comparison covers, and what escapes it.
 */
module Detection {
  import opened Api
  import opened Text
  import opened Common
  import opened Hashing
  import opened Workloads
  import opened Anatomy
  import opened Children
  import opened Cluster
  import opened Controller
  import opened Invariants
  import opened Runs
  import opened Histories
  import opened Topology
  import opened Authorship
  import ConfigYaml

  /** What is hashed for a spec. */
  ghost function HashedText(spec: Spec): string { Preimage(map[CONFIG_FILE_NAME := ConfigYaml.Render(spec)]) }

  lemma EqualHashEqualText(a: Spec, b: Spec)
    requires NoCollision(HashedText(a), HashedText(b))
    ensures ConfigHash(a) == ConfigHash(b) <==> ConfigYaml.Render(a) == ConfigYaml.Render(b)
  {
    if ConfigHash(a) == ConfigHash(b) {
      SingleKeyInjective(CONFIG_FILE_NAME, ConfigYaml.Render(a), ConfigYaml.Render(b));
    }
  }

  lemma StampedHash(inst: TlnDB, h: string, role: RoleName)
    ensures HashOf(SetSpec(inst, h, role)) ==
      if CONFIG_HASH_ANNOTATION in inst.spec.podAnnotations then inst.spec.podAnnotations[CONFIG_HASH_ANNOTATION] else h
  {
  }

  /** Between sets of clean specs the test sees replicas, the rendered text and the image, and nothing else. */
  lemma DetectsExactly(a: TlnDB, b: TlnDB, role: RoleName)
    requires Clean(a.spec) && Clean(b.spec) && NoCollision(HashedText(a.spec), HashedText(b.spec))
    ensures NeedsUpdate(SetSpec(a, ConfigHash(a.spec), role), SetSpec(b, ConfigHash(b.spec), role)) <==>
      Replicas(a.spec, role) != Replicas(b.spec, role)
      || ConfigYaml.Render(a.spec) != ConfigYaml.Render(b.spec)
      || ImageRef(a.spec.image) != ImageRef(b.spec.image)
  {
    EqualHashEqualText(a.spec, b.spec);
    StampedHash(a, ConfigHash(a.spec), role);
    StampedHash(b, ConfigHash(b.spec), role);
  }

  // ---- What it covers -----------------------------------------------------------------------

  /** The parts of a template that follow from the configuration. */
  datatype Wiring = Wiring(grpc: int, http: int, probes: seq<int>, replicateFrom: Option<string>)

  function WiringOf(template: Template, role: RoleName): Wiring
    requires template.containers != [] && |template.containers[0].ports| >= 2
  {
    var main := template.containers[0];
    Wiring(main.ports[0].number, main.ports[1].number, main.probePorts,
           if role.Follower? then LastEnv(main.env, "TLNDB_REPLICATE_FROM") else None)
  }

  lemma TemplateWiring(inst: TlnDB, h: string, role: RoleName)
    ensures var main := TemplateOf(inst, h, role).containers[0];
      |main.ports| >= 2 && main.ports[0].name == "grpc" && main.ports[1].name == "http"
    ensures WiringOf(TemplateOf(inst, h, role), role) ==
      Wiring(GrpcPort(inst.spec), HttpPort(inst.spec), [HttpPort(inst.spec), HttpPort(inst.spec), HttpPort(inst.spec)],
             if role.Follower? then Some(LeaderAddr(inst)) else None)
  {
    if role.Follower? { RoleEnvWins(inst, role); }
  }

  lemma EqualTextEqualWiring(a: TlnDB, b: TlnDB, ha: string, hb: string, role: RoleName)
    requires ConfigYaml.Render(a.spec) == ConfigYaml.Render(b.spec) && a.name == b.name && a.namespace == b.namespace
    ensures |TemplateOf(a, ha, role).containers[0].ports| >= 2 && |TemplateOf(b, hb, role).containers[0].ports| >= 2
    ensures WiringOf(TemplateOf(a, ha, role), role) == WiringOf(TemplateOf(b, hb, role), role)
  {
    TemplateWiring(a, ha, role);
    TemplateWiring(b, hb, role);
    ConfigYaml.EqualTextEqualPorts(a.spec, b.spec);
  }

  /**
   In a steady run, whenever the test sees no difference between a stored set and the desired one, the
   stored template's ports, probe ports and replication source are the desired ones.  The one assumption
   on the hash concerns the two texts it was computed from.
   */
  lemma DetectionIsSound(s: Scope, key: Key, sts: StatefulSetSpec, v: Provenance, inst: TlnDB)
    requires s.steady && Explains(s, key, sts, v) && Own(s, inst)
    requires NoCollision(HashedText(v.writer.inst.spec), HashedText(inst.spec))
    requires !NeedsUpdate(sts, SetSpec(inst, ConfigHash(inst.spec), v.role))
    ensures var desired := TemplateOf(inst, ConfigHash(inst.spec), v.role);
      sts.template.containers != [] && |sts.template.containers[0].ports| >= 2 && |desired.containers[0].ports| >= 2
      && WiringOf(sts.template, v.role) == WiringOf(desired, v.role)
  {
    var writer := v.writer.inst;
    StampedHash(writer, v.writer.configHash, v.role);
    StampedHash(inst, ConfigHash(inst.spec), v.role);
    EqualHashEqualText(writer.spec, inst.spec);
    EqualTextEqualWiring(writer, inst, v.writer.configHash, ConfigHash(inst.spec), v.role);
  }

  /** With nothing appended to either configuration, all container ports are covered, the metrics port included. */
  lemma BlankExtraCoversMetrics(a: Spec, b: Spec)
    requires ConfigYaml.Extra(a) == "" && ConfigYaml.Extra(b) == "" && ConfigYaml.Render(a) == ConfigYaml.Render(b)
    ensures ContainerPorts(a) == ContainerPorts(b)
  {
    ConfigYaml.EqualTextExactly(a, b);
    ConfigYaml.EqualTextEqualPorts(a, b);
    if MetricsEnabled(a) {
      assert ConfigYaml.Listen(MetricsPort(a))[1..] == Decimal(MetricsPort(a));
      assert ConfigYaml.Listen(MetricsPort(b))[1..] == Decimal(MetricsPort(b));
    }
  }

  /** No other rendered configuration has this one's hash. */
  ghost predicate Unmistakable(spec: Spec) { forall other: Spec :: NoCollision(HashedText(other), HashedText(spec)) }

  /** The wiring of a stored set is the one the instance wants. */
  ghost predicate WiredAs(sts: StatefulSetSpec, inst: TlnDB, role: RoleName) {
    var desired := TemplateOf(inst, ConfigHash(inst.spec), role);
    sts.template.containers != [] && |sts.template.containers[0].ports| >= 2 && |desired.containers[0].ports| >= 2
    && WiringOf(sts.template, role) == WiringOf(desired, role)
  }

  lemma StoredDetection(s: Scope, db: Db, key: Key, role: RoleName, inst: TlnDB)
    requires s.steady && ChildrenOk(s, db) && Own(s, inst) && Unmistakable(inst.spec)
    requires key == Key(StatefulSet, s.namespace, WorkloadName(s.name, role)) && key in db.objs
    requires !NeedsUpdate(SetOf(db.objs, key), SetSpec(inst, ConfigHash(inst.spec), role))
    ensures WiredAs(SetOf(db.objs, key), inst, role)
  {
    var child := db.objs[key].obj;
    RoleInFootprint(s, role);
    assert ChildOk(s, key, child) && InFootprint(s.namespace, s.name, key) && child.body.StatefulSetBody?;
    var v :| Explains(s, key, child.body.sts, v);
    ExplainedRole(s, key, child.body.sts, v, role);
    assert NoCollision(HashedText(v.writer.inst.spec), HashedText(inst.spec));
    DetectionIsSound(s, key, child.body.sts, v, inst);
  }

  /** At every moment of every steady run, for every clean spec the user may install next. */
  lemma RunDetectionIsSound(s: Scope, w: World, items: seq<Item>, i: nat, key: Key, role: RoleName, inst: TlnDB)
    requires s.steady && RunOk(s, w, items) && i <= |Execute(w, items).log| && Own(s, inst) && Unmistakable(inst.spec)
    requires key == Key(StatefulSet, s.namespace, WorkloadName(s.name, role)) && key in Moment(Execute(w, items), i).objs
    requires !NeedsUpdate(SetOf(Moment(Execute(w, items), i).objs, key), SetSpec(inst, ConfigHash(inst.spec), role))
    ensures WiredAs(SetOf(Moment(Execute(w, items), i).objs, key), inst, role)
  {
    RunIsSafe(s, w, items);
    MomentIsOk(s, Execute(w, items), i);
    StoredDetection(s, Moment(Execute(w, items), i), key, role, inst);
  }

  /**
   A set with the template of `t` and the digest of `d` that passes the test for `inst`: it is wired as `inst`
   wants if and only if `t` and `d` have the same ports.  Passes whose spec is edited in between are the case `t != d`.
   */
  lemma DetectionIsExact(t: TlnDB, d: Spec, inst: TlnDB, role: RoleName)
    requires Clean(t.spec) && Clean(inst.spec) && t.name == inst.name && t.namespace == inst.namespace
    requires NoCollision(HashedText(d), HashedText(inst.spec))
    requires !NeedsUpdate(SetSpec(t, ConfigHash(d), role), SetSpec(inst, ConfigHash(inst.spec), role))
    ensures WiredAs(SetSpec(t, ConfigHash(d), role), inst, role) <==> GrpcPort(t.spec) == GrpcPort(d) && HttpPort(t.spec) == HttpPort(d)
  {
    StampedHash(t, ConfigHash(d), role);
    StampedHash(inst, ConfigHash(inst.spec), role);
    EqualHashEqualText(d, inst.spec);
    ConfigYaml.EqualTextEqualPorts(d, inst.spec);
    WiredMeansPorts(t, ConfigHash(d), inst, role);
  }

  lemma WiredMeansPorts(t: TlnDB, h: string, inst: TlnDB, role: RoleName)
    requires t.name == inst.name && t.namespace == inst.namespace
    ensures WiredAs(SetSpec(t, h, role), inst, role) <==> GrpcPort(t.spec) == GrpcPort(inst.spec) && HttpPort(t.spec) == HttpPort(inst.spec)
  {
    TemplateWiring(t, h, role);
    TemplateWiring(inst, ConfigHash(inst.spec), role);
    if GrpcPort(t.spec) == GrpcPort(inst.spec) {
      assert LeaderAddr(t) == LeaderAddr(inst);
    }
  }

  lemma ExplainedWiring(s: Scope, key: Key, sts: StatefulSetSpec, creator: Spec, writer: Spec, role: RoleName, inst: TlnDB)
    requires ExplainedBy(s, key, sts, creator, writer) && key.name == WorkloadName(s.name, role)
    requires inst.name == s.name && inst.namespace == s.namespace
    ensures WiredAs(sts, inst, role) <==> GrpcPort(writer) == GrpcPort(inst.spec) && HttpPort(writer) == HttpPort(inst.spec)
  {
    var v: Provenance :| v.creator.inst.spec == creator && v.writer.inst.spec == writer && Explains(s, key, sts, v);
    ExplainedRole(s, key, sts, v, role);
    WiredMeansPorts(v.writer.inst, v.writer.configHash, inst, role);
    assert sts.template == TemplateOf(v.writer.inst, v.writer.configHash, role);
  }

  /** So in every run, edits at any time included: a stored set is wired as wanted exactly when its last writer had the wanted ports. */
  lemma RunWiring(s: Scope, w: World, items: seq<Item>, key: Key, role: RoleName, c: nat, l: nat, i: nat, inst: TlnDB)
    requires RunOk(s, w, items) && WrittenBy(HistoryOf(Execute(w, items), key), c, l, i)
    requires key.name == WorkloadName(s.name, role) && inst.name == s.name && inst.namespace == s.namespace
    ensures var h := HistoryOf(Execute(w, items), key);
      h.authors[l].Some? &&
      (WiredAs(h.states[i].value, inst, role) <==>
         GrpcPort(h.authors[l].value) == GrpcPort(inst.spec) && HttpPort(h.authors[l].value) == HttpPort(inst.spec))
  {
    RunSetsAreAuthored(s, w, items, key, c, l, i);
    var h := HistoryOf(Execute(w, items), key);
    ExplainedWiring(s, key, h.states[i].value, h.authors[c].value, h.authors[l].value, role, inst);
  }

  /**
   And a set whose digest is that of the spec it was built from passes the test only for specs with the same ports.
   In steady runs every set is of that kind.
   */
  lemma HonestDigestIsSound(t: TlnDB, inst: TlnDB, role: RoleName)
    requires Clean(t.spec) && Clean(inst.spec) && t.name == inst.name && t.namespace == inst.namespace
    requires NoCollision(HashedText(t.spec), HashedText(inst.spec))
    requires !NeedsUpdate(SetSpec(t, ConfigHash(t.spec), role), SetSpec(inst, ConfigHash(inst.spec), role))
    ensures WiredAs(SetSpec(t, ConfigHash(t.spec), role), inst, role)
  {
    DetectionIsExact(t, t.spec, inst, role);
  }

  // ---- What escapes it ------------------------------------------------------------------------

  /** A changed retention, switching it on or off included, is not noticed, although the pods are to run with it. */
  lemma RetentionEscapes(inst: TlnDB, role: RoleName, retention: int)
    requires !role.Standalone? && inst.spec.oplogRetention != retention && (inst.spec.oplogRetention > 0 || retention > 0)
    ensures var next := inst.(spec := inst.spec.(oplogRetention := retention));
      !NeedsUpdate(SetSpec(inst, ConfigHash(inst.spec), role), SetSpec(next, ConfigHash(next.spec), role))
      && RoleEnv(inst, role) != RoleEnv(next, role)
  {
    var next := inst.(spec := inst.spec.(oplogRetention := retention));
    RetentionNotRendered(inst.spec, retention);
    SameHashEscapes(inst, next, ConfigHash(inst.spec), role);
    RetentionIsVisible(inst, next, role);
  }

  lemma RetentionNotRendered(spec: Spec, retention: int)
    ensures ConfigHash(spec.(oplogRetention := retention)) == ConfigHash(spec)
  {
    var next := spec.(oplogRetention := retention);
    assert ConfigYaml.Effective(next) == ConfigYaml.Effective(spec) && ConfigYaml.Extra(next) == ConfigYaml.Extra(spec);
  }

  /** With one digest, one image, one number of replicas and the same annotations, nothing else is compared. */
  lemma SameHashEscapes(a: TlnDB, b: TlnDB, h: string, role: RoleName)
    requires a.spec.podAnnotations == b.spec.podAnnotations && a.spec.image == b.spec.image
    requires Replicas(a.spec, role) == Replicas(b.spec, role)
    ensures !NeedsUpdate(SetSpec(a, h, role), SetSpec(b, h, role))
  {
    StampedHash(a, h, role);
    StampedHash(b, h, role);
  }

  lemma RetentionIsVisible(a: TlnDB, b: TlnDB, role: RoleName)
    requires !role.Standalone? && a.spec.oplogRetention != b.spec.oplogRetention
    requires a.spec.oplogRetention > 0 || b.spec.oplogRetention > 0
    ensures RoleEnv(a, role) != RoleEnv(b, role)
  {
    var n := if role.Leader? then 1 else 2;
    assert |RoleEnv(a, role)| == (if a.spec.oplogRetention > 0 then n + 1 else n);
    assert |RoleEnv(b, role)| == (if b.spec.oplogRetention > 0 then n + 1 else n);
    if a.spec.oplogRetention > 0 && b.spec.oplogRetention > 0 {
      assert RoleEnv(a, role)[n].value == Decimal(a.spec.oplogRetention);
      assert RoleEnv(b, role)[n].value == Decimal(b.spec.oplogRetention);
    }
  }

  /** Appended text that imitates the metrics line hides that metrics were switched off. */
  lemma MetricsEscape(inst: TlnDB, role: RoleName)
    requires MetricsEnabled(inst.spec) && ConfigYaml.Extra(inst.spec) == ""
    ensures var next := inst.(spec := ConfigYaml.Imitation(inst.spec));
      !NeedsUpdate(SetSpec(inst, ConfigHash(inst.spec), role), SetSpec(next, ConfigHash(next.spec), role))
      && ContainerPorts(inst.spec) != ContainerPorts(next.spec)
  {
    var next := inst.(spec := ConfigYaml.Imitation(inst.spec));
    ConfigYaml.MetricsLineCanBeImitated(inst.spec);
    StampedHash(inst, ConfigHash(inst.spec), role);
    StampedHash(next, ConfigHash(next.spec), role);
    assert |ContainerPorts(inst.spec)| == 3 && |ContainerPorts(next.spec)| == 2;
  }

  /** A user annotation under the hash key hides every change of configuration. */
  lemma AnnotationEscapes(a: TlnDB, b: TlnDB, role: RoleName)
    requires CONFIG_HASH_ANNOTATION in a.spec.podAnnotations && a.spec.podAnnotations == b.spec.podAnnotations
    requires Replicas(a.spec, role) == Replicas(b.spec, role) && a.spec.image == b.spec.image
    ensures !NeedsUpdate(SetSpec(a, ConfigHash(a.spec), role), SetSpec(b, ConfigHash(b.spec), role))
  {
    StampedHash(a, ConfigHash(a.spec), role);
    StampedHash(b, ConfigHash(b.spec), role);
  }

  // ---- Data volume backing -------------------------------------------------------------------

  /** The data mount has one backing exactly when creator and last writer agree on whether pods claim their own volume. */
  lemma DataVolumeBacking(s: Scope, key: Key, sts: StatefulSetSpec, v: Provenance)
    requires Explains(s, key, sts, v) && CountNamed(v.writer.inst.spec.additionalVolumes, DATA_VOLUME) == 0
    ensures DataBackings(sts) == 1 <==> ClaimsPerPod(v.creator.inst.spec) == ClaimsPerPod(v.writer.inst.spec)
    ensures ClaimsPerPod(v.creator.inst.spec) && !ClaimsPerPod(v.writer.inst.spec) ==> DataBackings(sts) == 2
    ensures !ClaimsPerPod(v.creator.inst.spec) && ClaimsPerPod(v.writer.inst.spec) ==> DataBackings(sts) == 0
  {
    ClaimsMeans(v.creator.inst.spec);
    ClaimsMeans(v.writer.inst.spec);
    TemplateDataVolumes(v.writer.inst);
    ClaimCount(v.creator.inst.spec);
  }

  lemma ExplainedBacking(s: Scope, key: Key, sts: StatefulSetSpec, creator: Spec, writer: Spec)
    requires ExplainedBy(s, key, sts, creator, writer) && CountNamed(writer.additionalVolumes, DATA_VOLUME) == 0
    ensures DataBackings(sts) == 1 <==> ClaimsPerPod(creator) == ClaimsPerPod(writer)
    ensures ClaimsPerPod(creator) && !ClaimsPerPod(writer) ==> DataBackings(sts) == 2
    ensures !ClaimsPerPod(creator) && ClaimsPerPod(writer) ==> DataBackings(sts) == 0
  {
    var v: Provenance :| v.creator.inst.spec == creator && v.writer.inst.spec == writer && Explains(s, key, sts, v);
    DataVolumeBacking(s, key, sts, v);
  }

  /**
   At every moment of every run, specs edited at any time included: with `c` the event that created the set and
   `l` the one that last wrote it, the backing depends on the specs the controller held at those two events.
   */
  lemma RunDataBacking(s: Scope, w: World, items: seq<Item>, key: Key, c: nat, l: nat, i: nat)
    requires RunOk(s, w, items) && WrittenBy(HistoryOf(Execute(w, items), key), c, l, i)
    ensures var h := HistoryOf(Execute(w, items), key);
      h.authors[c].Some? && h.authors[l].Some? &&
      var creator, writer, sts := h.authors[c].value, h.authors[l].value, h.states[i].value;
      CountNamed(writer.additionalVolumes, DATA_VOLUME) == 0 ==>
        (DataBackings(sts) == 1 <==> ClaimsPerPod(creator) == ClaimsPerPod(writer))
        && (ClaimsPerPod(creator) && !ClaimsPerPod(writer) ==> DataBackings(sts) == 2)
        && (!ClaimsPerPod(creator) && ClaimsPerPod(writer) ==> DataBackings(sts) == 0)
  {
    RunSetsAreAuthored(s, w, items, key, c, l, i);
    var h := HistoryOf(Execute(w, items), key);
    if CountNamed(h.authors[l].value.additionalVolumes, DATA_VOLUME) == 0 {
      ExplainedBacking(s, key, h.states[i].value, h.authors[c].value, h.authors[l].value);
    }
  }

  lemma ClaimCount(spec: Spec)
    ensures CountNamed(Claims(spec), DATA_VOLUME) == if NeedsClaim(spec) then 1 else 0
  {
    assert Claims(spec) != [] ==> Claims(spec)[1..] == [];
  }

  /** At creation there is always exactly one. */
  lemma BackedAtCreation(inst: TlnDB, h: string, role: RoleName, address: nat)
    requires CountNamed(inst.spec.additionalVolumes, DATA_VOLUME) == 0
    ensures DataBackings(Admit(Workload(inst, h, role), address).body.sts) == 1
  {
    TemplateDataVolumes(inst);
    ClaimCount(inst.spec);
  }
}

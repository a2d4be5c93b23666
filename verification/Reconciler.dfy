/**
 The controller as the source writes it: `internal/controller/tlndb_controller.go`.
 Every method is proved to do what the function of `Controller` it is named after
 (or, for the create-or-update helpers, `Ensure`) says, for every schedule of
 faults and interference.
 */
module Reconciler {
  import opened Api
  import opened Text
  import opened Common
  import opened Hashing
  import opened Workloads
  import opened Services
  import opened Children
  import opened Cluster
  import opened ApiServers
  import C = Controller
  import opened ConfigYaml

  // ---- The controller's copy of the instance ----------------------------------

  /** The object `instance` points to: every status write goes through it, and every patch response overwrites it. */
  class InstanceCopy {
    var rec: Record

    constructor (rec: Record)
      ensures this.rec == rec
    {
      this.rec := rec;
    }
  }

  class TlnDBReconciler {
    const server: ApiServer

    constructor (server: ApiServer)
      ensures this.server == server
    {
      this.server := server;
    }

    // ---- Create-or-update helpers -----------------------------------------------

    method CreateOrUpdateConfigMap(instance: InstanceCopy, key: Key, desired: Child) returns (ok: bool)
      requires key.kind.ConfigMap? && OfKind(key.kind, desired.body)
      modifies server
      ensures (server.State(), ok) == C.Ensure(old(server.State()), instance.rec.obj.spec, C.Target(key, desired))
    {
      var fetch := server.Get(key);
      match fetch
      case Unreachable => ok := false;
      case Missing =>
        var reply := server.Create(instance.rec.obj.spec, key, desired);
        ok := reply.Done?;
      case Found(existing) =>
        ok := true;
        if existing.obj.body.data != desired.body.data {
          var next := existing.obj.(body := desired.body, labels := desired.labels);
          var reply := server.Update(instance.rec.obj.spec, key, existing.rv, next);
          ok := reply.Done?;
        }
    }

    method CreateOrUpdateServiceAccount(instance: InstanceCopy, key: Key, desired: Child) returns (ok: bool)
      requires key.kind.ServiceAccount? && OfKind(key.kind, desired.body)
      modifies server
      ensures (server.State(), ok) == C.Ensure(old(server.State()), instance.rec.obj.spec, C.Target(key, desired))
    {
      var fetch := server.Get(key);
      match fetch
      case Unreachable => ok := false;
      case Missing =>
        var reply := server.Create(instance.rec.obj.spec, key, desired);
        ok := reply.Done?;
      case Found(existing) =>
        var next := existing.obj.(labels := desired.labels);
        var reply := server.Update(instance.rec.obj.spec, key, existing.rv, next);
        ok := reply.Done?;
    }

    method CreateOrUpdateRole(instance: InstanceCopy, key: Key, desired: Child) returns (ok: bool)
      requires key.kind.Role? && OfKind(key.kind, desired.body)
      modifies server
      ensures (server.State(), ok) == C.Ensure(old(server.State()), instance.rec.obj.spec, C.Target(key, desired))
    {
      var fetch := server.Get(key);
      match fetch
      case Unreachable => ok := false;
      case Missing =>
        var reply := server.Create(instance.rec.obj.spec, key, desired);
        ok := reply.Done?;
      case Found(existing) =>
        ok := true;
        if existing.obj.body.configMap != desired.body.configMap {
          var next := existing.obj.(body := desired.body, labels := desired.labels);
          var reply := server.Update(instance.rec.obj.spec, key, existing.rv, next);
          ok := reply.Done?;
        }
    }

    method CreateOrUpdateRoleBinding(instance: InstanceCopy, key: Key, desired: Child) returns (ok: bool)
      requires key.kind.RoleBinding? && OfKind(key.kind, desired.body)
      modifies server
      ensures (server.State(), ok) == C.Ensure(old(server.State()), instance.rec.obj.spec, C.Target(key, desired))
    {
      var fetch := server.Get(key);
      match fetch
      case Unreachable => ok := false;
      case Missing =>
        var reply := server.Create(instance.rec.obj.spec, key, desired);
        ok := reply.Done?;
      case Found(existing) =>
        ok := true;
        if existing.obj.body.roleRef != desired.body.roleRef || existing.obj.body.subject != desired.body.subject {
          var next := existing.obj.(body := RoleBindingBody(desired.body.roleRef, desired.body.subject), labels := desired.labels);
          var reply := server.Update(instance.rec.obj.spec, key, existing.rv, next);
          ok := reply.Done?;
        }
    }

    method CreateOrUpdateStatefulSet(instance: InstanceCopy, key: Key, desired: Child) returns (ok: bool)
      requires key.kind.StatefulSet? && OfKind(key.kind, desired.body)
      modifies server
      ensures (server.State(), ok) == C.Ensure(old(server.State()), instance.rec.obj.spec, C.Target(key, desired))
    {
      var fetch := server.Get(key);
      match fetch
      case Unreachable => ok := false;
      case Missing =>
        var reply := server.Create(instance.rec.obj.spec, key, desired);
        ok := reply.Done?;
      case Found(existing) =>
        var set_ := existing.obj.body.sts;
        if !NeedsUpdate(set_, desired.body.sts) {
          return true;
        }
        set_ := set_.(replicas := desired.body.sts.replicas);
        set_ := set_.(template := desired.body.sts.template);
        var next := existing.obj.(labels := desired.labels, body := existing.obj.body.(sts := set_));
        var reply := server.Update(instance.rec.obj.spec, key, existing.rv, next);
        ok := reply.Done?;
    }

    method CreateOrUpdateService(instance: InstanceCopy, key: Key, desired: Child) returns (ok: bool)
      requires key.kind.Service? && OfKind(key.kind, desired.body)
      modifies server
      ensures (server.State(), ok) == C.Ensure(old(server.State()), instance.rec.obj.spec, C.Target(key, desired))
    {
      var fetch := server.Get(key);
      match fetch
      case Unreachable => ok := false;
      case Missing =>
        var reply := server.Create(instance.rec.obj.spec, key, desired);
        ok := reply.Done?;
      case Found(existing) =>
        var svc := desired.body.svc.(clusterIp := existing.obj.body.svc.clusterIp);
        var next := existing.obj.(body := ServiceBody(svc), labels := desired.labels, annotations := desired.annotations);
        var reply := server.Update(instance.rec.obj.spec, key, existing.rv, next);
        ok := reply.Done?;
    }

    method CreateOrUpdateIngress(instance: InstanceCopy, key: Key, desired: Child) returns (ok: bool)
      requires key.kind.Ingress? && OfKind(key.kind, desired.body)
      modifies server
      ensures (server.State(), ok) == C.Ensure(old(server.State()), instance.rec.obj.spec, C.Target(key, desired))
    {
      var fetch := server.Get(key);
      match fetch
      case Unreachable => ok := false;
      case Missing =>
        var reply := server.Create(instance.rec.obj.spec, key, desired);
        ok := reply.Done?;
      case Found(existing) =>
        var next := existing.obj.(body := desired.body, labels := desired.labels, annotations := desired.annotations);
        var reply := server.Update(instance.rec.obj.spec, key, existing.rv, next);
        ok := reply.Done?;
    }

    method CreateOrUpdateNetworkPolicy(instance: InstanceCopy, key: Key, desired: Child) returns (ok: bool)
      requires key.kind.NetworkPolicy? && OfKind(key.kind, desired.body)
      modifies server
      ensures (server.State(), ok) == C.Ensure(old(server.State()), instance.rec.obj.spec, C.Target(key, desired))
    {
      var fetch := server.Get(key);
      match fetch
      case Unreachable => ok := false;
      case Missing =>
        var reply := server.Create(instance.rec.obj.spec, key, desired);
        ok := reply.Done?;
      case Found(existing) =>
        var next := existing.obj.(body := desired.body, labels := desired.labels);
        var reply := server.Update(instance.rec.obj.spec, key, existing.rv, next);
        ok := reply.Done?;
    }

    method CreateOrUpdateServiceMonitor(instance: InstanceCopy, key: Key, desired: Child) returns (ok: bool)
      requires key.kind.ServiceMonitor? && OfKind(key.kind, desired.body)
      modifies server
      ensures (server.State(), ok) == C.Ensure(old(server.State()), instance.rec.obj.spec, C.Target(key, desired))
    {
      var fetch := server.Get(key);
      match fetch
      case Unreachable => ok := false;
      case Missing =>
        var reply := server.Create(instance.rec.obj.spec, key, desired);
        ok := reply.Done?;
      case Found(existing) =>
        var reply := server.Update(instance.rec.obj.spec, key, existing.rv, desired);
        ok := reply.Done?;
    }

    /** PodDisruptionBudgets and HorizontalPodAutoscalers: update conflicts are swallowed. */
    method CreateOrUpdateAvailability(instance: InstanceCopy, key: Key, desired: Child) returns (ok: bool)
      requires C.Lenient(key.kind) && OfKind(key.kind, desired.body)
      modifies server
      ensures (server.State(), ok) == C.Ensure(old(server.State()), instance.rec.obj.spec, C.Target(key, desired))
    {
      var fetch := server.Get(key);
      match fetch
      case Unreachable => ok := false;
      case Missing =>
        var reply := server.Create(instance.rec.obj.spec, key, desired);
        ok := reply.Done?;
      case Found(existing) =>
        var next := existing.obj.(body := desired.body, labels := desired.labels);
        var reply := server.Update(instance.rec.obj.spec, key, existing.rv, next);
        ok := reply.Done? || reply.Conflicted?;
    }

    method DeleteStatefulSetIfExists(ghost author: Spec, key: Key) returns (ok: bool)
      modifies server
      ensures (server.State(), ok) == C.DeleteIfExists(old(server.State()), author, key)
    {
      var fetch := server.Get(key);
      match fetch
      case Unreachable => ok := false;
      case Missing => ok := true;
      case Found(_) =>
        var reply := server.Delete(author, key);
        ok := reply.Done? || reply.NotFound?;
    }

    // ---- Status helpers ---------------------------------------------------------

    method SetPhase(instance: InstanceCopy, phase: Phase) returns (ok: bool)
      modifies server, instance
      ensures (server.State(), instance.rec, ok) == C.SetPhase(old(server.State()), old(instance.rec), phase)
    {
      var next := instance.rec.obj.status;
      next := next.(phase := phase);
      next := next.(lastUpdateTime := Some(server.db.clock));
      var local, reply := server.PatchStatus(instance.rec, next);
      instance.rec := local;
      ok := reply.Done? || reply.Conflicted?;
    }

    method SetCondition(instance: InstanceCopy, note: C.Note)
      modifies server, instance
      ensures (server.State(), instance.rec) == C.Mark(old(server.State()), old(instance.rec), note)
    {
      var status := instance.rec.obj.status;
      var condition := C.NoteCondition(instance.rec.obj, note, server.db.clock);
      var next := status.(conditions := C.SetCondition(status.conditions, condition));
      var local, _ := server.PatchStatus(instance.rec, next);
      instance.rec := local;
    }

    // ---- The parts of reconcileResources ----------------------------------------

    /** The pass so far, as a value. */
    ghost function Progress(instance: InstanceCopy, managed: seq<string>, ok: bool): C.Pass
      reads server, instance
    {
      C.Pass(server.State(), instance.rec, managed, !ok)
    }

    /** Calls the helper for the kind, and lists the object once it is in place. */
    method Apply(instance: InstanceCopy, managed0: seq<string>, t: C.Target) returns (managed: seq<string>, ok: bool)
      modifies server
      ensures Progress(instance, managed, ok) == C.EnsureTarget(old(Progress(instance, managed0, true)), t)
    {
      managed := managed0;
      match t.key.kind {
      case ServiceAccount => ok := CreateOrUpdateServiceAccount(instance, t.key, t.desired);
      case Role => ok := CreateOrUpdateRole(instance, t.key, t.desired);
      case RoleBinding => ok := CreateOrUpdateRoleBinding(instance, t.key, t.desired);
      case ConfigMap => ok := CreateOrUpdateConfigMap(instance, t.key, t.desired);
      case Service => ok := CreateOrUpdateService(instance, t.key, t.desired);
      case StatefulSet => ok := CreateOrUpdateStatefulSet(instance, t.key, t.desired);
      case Ingress => ok := CreateOrUpdateIngress(instance, t.key, t.desired);
      case NetworkPolicy => ok := CreateOrUpdateNetworkPolicy(instance, t.key, t.desired);
      case ServiceMonitor => ok := CreateOrUpdateServiceMonitor(instance, t.key, t.desired);
      case PodDisruptionBudget => ok := CreateOrUpdateAvailability(instance, t.key, t.desired);
      case HorizontalPodAutoscaler => ok := CreateOrUpdateAvailability(instance, t.key, t.desired);
      }
      if ok {
        managed := managed + [KeyText(t.key)];
      }
    }

    method ApplyAccess(instance: InstanceCopy, account: C.Target, role: C.Target, binding: C.Target)
      returns (managed: seq<string>, ok: bool)
      modifies server, instance
      ensures Progress(instance, managed, ok) ==
        C.RunAll([C.EnsureStep(account), C.EnsureStep(role), C.EnsureStep(binding), C.NoteStep(C.RBAC_OK)],
                 old(Progress(instance, [], true)))
    {
      ghost var all := [C.EnsureStep(account), C.EnsureStep(role), C.EnsureStep(binding), C.NoteStep(C.RBAC_OK)];
      ghost var p0 := Progress(instance, [], true);
      managed, ok := Apply(instance, [], account);
      ghost var p1 := Progress(instance, managed, ok);
      C.Unroll(all, p0);
      if !ok { return; }
      managed, ok := Apply(instance, managed, role);
      ghost var p2 := Progress(instance, managed, ok);
      C.Unroll(all[1..], p1);
      if !ok { return; }
      managed, ok := Apply(instance, managed, binding);
      ghost var p3 := Progress(instance, managed, ok);
      C.Unroll(all[1..][1..], p2);
      if !ok { return; }
      SetCondition(instance, C.RBAC_OK);
      C.Unroll(all[1..][1..][1..], p3);
    }

    method ReconcileAccess(instance: InstanceCopy) returns (managed: seq<string>, ok: bool)
      modifies server, instance
      ensures Progress(instance, managed, ok) == C.RunAll(C.AccessPlan(old(instance.rec.obj)), old(Progress(instance, [], true)))
    {
      managed, ok := [], true;
      var inst := instance.rec.obj;
      if inst.spec.serviceAccountName == "" {
        managed, ok := ApplyAccess(instance, C.TargetOf(inst, "", AccountChild), C.TargetOf(inst, "", RoleChild), C.TargetOf(inst, "", BindingChild));
      }
    }

    method ReconcileConfig(instance: InstanceCopy, managed0: seq<string>) returns (managed: seq<string>, configHash: string, ok: bool)
      modifies server, instance
      ensures (Progress(instance, managed, ok), configHash) == C.LoadConfig(old(Progress(instance, managed0, true)))
    {
      managed, configHash := managed0, "";
      var inst := instance.rec.obj;
      if inst.spec.configFrom.Some? {
        var fetch := server.Get(Key(ConfigMap, inst.namespace, inst.spec.configFrom.value));
        match fetch
        case Unreachable => ok := false;
        case Missing =>
          SetCondition(instance, C.ExternalMissing(inst.spec.configFrom.value));
          ok := false;
        case Found(external) =>
          configHash := HashStringData(external.obj.body.data);
          SetCondition(instance, C.EXTERNAL_OK);
          ok := true;
      } else {
        var text := RenderConfigYaml(inst.spec);
        var data := map[CONFIG_FILE_NAME := text];
        var cm := Child(CommonLabels(inst.name), map[], Some(inst.uid), ConfigMapBody(data));
        managed, ok := Apply(instance, managed, C.Target(KeyOf(inst, ConfigChild), cm));
        if !ok { return; }
        configHash := HashStringData(data);
        SetCondition(instance, C.CONFIG_OK);
      }
    }

    /** The order in replicated mode; without followers a left-over set is pruned. */
    method ApplyReplicated(instance: InstanceCopy, managed0: seq<string>, headless: C.Target, leader: C.Target,
                           followers: Option<C.Target>, followerKey: Key, write: C.Target, read: C.Target)
      returns (managed: seq<string>, ok: bool)
      modifies server, instance
      ensures Progress(instance, managed, ok) ==
        C.RunAll([C.EnsureStep(headless), C.EnsureStep(leader),
                  if followers.Some? then C.EnsureStep(followers.value) else C.PruneStep(followerKey),
                  C.EnsureStep(write), C.EnsureStep(read), C.NoteStep(C.SERVICES_OK)],
                 old(Progress(instance, managed0, true)))
    {
      ghost var follower := if followers.Some? then C.EnsureStep(followers.value) else C.PruneStep(followerKey);
      ghost var tail := [C.EnsureStep(write), C.EnsureStep(read), C.NoteStep(C.SERVICES_OK)];
      ghost var all := [C.EnsureStep(headless), C.EnsureStep(leader), follower] + tail;
      assert all == [C.EnsureStep(headless), C.EnsureStep(leader), follower, C.EnsureStep(write), C.EnsureStep(read), C.NoteStep(C.SERVICES_OK)];
      ghost var p0 := Progress(instance, managed0, true);
      managed, ok := Apply(instance, managed0, headless);
      ghost var p1 := Progress(instance, managed, ok);
      C.Unroll(all, p0);
      if !ok { return; }
      managed, ok := Apply(instance, managed, leader);
      ghost var p2 := Progress(instance, managed, ok);
      C.Unroll(all[1..], p1);
      if !ok { return; }
      if followers.Some? {
        managed, ok := Apply(instance, managed, followers.value);
      } else {
        ok := DeleteStatefulSetIfExists(instance.rec.obj.spec, followerKey);
      }
      ghost var p3 := Progress(instance, managed, ok);
      C.Unroll(all[1..][1..], p2);
      if !ok { return; }
      assert all[1..][1..][1..] == tail;
      managed, ok := ApplyClients(instance, managed, write, read);
    }

    method ApplyClients(instance: InstanceCopy, managed0: seq<string>, write: C.Target, read: C.Target)
      returns (managed: seq<string>, ok: bool)
      modifies server, instance
      ensures Progress(instance, managed, ok) ==
        C.RunAll([C.EnsureStep(write), C.EnsureStep(read), C.NoteStep(C.SERVICES_OK)], old(Progress(instance, managed0, true)))
    {
      ghost var all := [C.EnsureStep(write), C.EnsureStep(read), C.NoteStep(C.SERVICES_OK)];
      ghost var p0 := Progress(instance, managed0, true);
      managed, ok := Apply(instance, managed0, write);
      ghost var p1 := Progress(instance, managed, ok);
      C.Unroll(all, p0);
      if !ok { return; }
      managed, ok := Apply(instance, managed, read);
      ghost var p2 := Progress(instance, managed, ok);
      C.Unroll(all[1..], p1);
      if !ok { return; }
      SetCondition(instance, C.SERVICES_OK);
      C.Unroll(all[1..][1..], p2);
    }

    method ApplyStandalone(instance: InstanceCopy, managed0: seq<string>, headless: C.Target, sts: C.Target, client: C.Target)
      returns (managed: seq<string>, ok: bool)
      modifies server, instance
      ensures Progress(instance, managed, ok) ==
        C.RunAll([C.EnsureStep(headless), C.EnsureStep(sts), C.EnsureStep(client), C.NoteStep(C.SERVICE_OK)],
                 old(Progress(instance, managed0, true)))
    {
      ghost var all := [C.EnsureStep(headless), C.EnsureStep(sts), C.EnsureStep(client), C.NoteStep(C.SERVICE_OK)];
      ghost var p0 := Progress(instance, managed0, true);
      managed, ok := Apply(instance, managed0, headless);
      ghost var p1 := Progress(instance, managed, ok);
      C.Unroll(all, p0);
      if !ok { return; }
      managed, ok := Apply(instance, managed, sts);
      ghost var p2 := Progress(instance, managed, ok);
      C.Unroll(all[1..], p1);
      if !ok { return; }
      managed, ok := Apply(instance, managed, client);
      ghost var p3 := Progress(instance, managed, ok);
      C.Unroll(all[1..][1..], p2);
      if !ok { return; }
      SetCondition(instance, C.SERVICE_OK);
      C.Unroll(all[1..][1..][1..], p3);
    }

    method BuildSet(inst: TlnDB, configHash: string, role: RoleName) returns (t: C.Target)
      ensures t == C.TargetOf(inst, configHash, SetChild(role))
    {
      var sts := BuildWorkload(inst, configHash, role);
      DesiredSet(inst, configHash, role);
      t := C.Target(KeyOf(inst, SetChild(role)), sts);
    }

    method BuildClient(inst: TlnDB, id: ChildId) returns (t: C.Target)
      requires id in {WriteChild, ReadChild, ClientChild}
      ensures t == C.TargetOf(inst, "", id)
    {
      var selector := SelectorLabels(inst.name);
      if id == WriteChild {
        selector := RoleSelector(inst.name, Leader);
      } else if id == ReadChild {
        var role := Follower;
        if inst.spec.readReplicas == 0 { role := Leader; }
        selector := RoleSelector(inst.name, role);
      }
      var svc := ServiceWith(inst, selector);
      t := C.Target(KeyOf(inst, id), svc);
    }

    method ReconcileServing(instance: InstanceCopy, managed0: seq<string>, h: string) returns (managed: seq<string>, ok: bool)
      modifies server, instance
      ensures Progress(instance, managed, ok) == C.RunAll(C.ServingPlan(old(instance.rec.obj), h), old(Progress(instance, managed0, true)))
    {
      var inst := instance.rec.obj;
      var headless := C.TargetOf(inst, "", HeadlessChild);
      if Replicated(inst.spec) {
        var leader := BuildSet(inst, h, Leader);
        var followers: Option<C.Target> := None;
        if inst.spec.readReplicas > 0 {
          var set_ := BuildSet(inst, h, Follower);
          followers := Some(set_);
        }
        var write := BuildClient(inst, WriteChild);
        var read := BuildClient(inst, ReadChild);
        managed, ok := ApplyReplicated(instance, managed0, headless, leader, followers, FollowerKey(inst), write, read);
      } else {
        var sts := BuildSet(inst, h, Standalone);
        var client := BuildClient(inst, ClientChild);
        managed, ok := ApplyStandalone(instance, managed0, headless, sts, client);
      }
    }

    method ApplyNetworking(instance: InstanceCopy, managed0: seq<string>, ingress: Option<C.Target>, policy: Option<C.Target>)
      returns (managed: seq<string>, ok: bool)
      modifies server, instance
      ensures Progress(instance, managed, ok) ==
        C.RunAll(C.Optionally(ingress) + C.Optionally(policy) + (if policy.Some? then [C.NoteStep(C.POLICY_OK)] else []),
                 old(Progress(instance, managed0, true)))
    {
      managed, ok := managed0, true;
      ghost var notes := if policy.Some? then [C.NoteStep(C.POLICY_OK)] else [];
      ghost var tail := C.Optionally(policy) + notes;
      ghost var p0 := Progress(instance, managed0, true);
      assert C.Optionally(ingress) + C.Optionally(policy) + notes == C.Optionally(ingress) + tail;
      if ingress.Some? {
        C.Unroll(C.Optionally(ingress) + tail, p0);
        assert (C.Optionally(ingress) + tail)[1..] == tail;
        managed, ok := Apply(instance, managed, ingress.value);
        if !ok { return; }
      } else {
        assert C.Optionally(ingress) + tail == tail;
      }
      ghost var p1 := Progress(instance, managed, true);
      if policy.Some? {
        C.Unroll(tail, p1);
        assert tail[1..] == notes;
        managed, ok := Apply(instance, managed, policy.value);
        if !ok { return; }
        ghost var p2 := Progress(instance, managed, true);
        SetCondition(instance, C.POLICY_OK);
        C.Unroll(notes, p2);
      } else {
        assert tail == [];
      }
    }

    method ReconcileNetworking(instance: InstanceCopy, managed0: seq<string>) returns (managed: seq<string>, ok: bool)
      modifies server, instance
      ensures Progress(instance, managed, ok) == C.RunAll(C.NetworkPlan(old(instance.rec.obj)), old(Progress(instance, managed0, true)))
    {
      var inst := instance.rec.obj;
      var ingress := if inst.spec.ingress.enabled then Some(C.TargetOf(inst, "", IngressChild)) else None;
      var policy := if inst.spec.networkPolicy.enabled then Some(C.TargetOf(inst, "", PolicyChild)) else None;
      managed, ok := ApplyNetworking(instance, managed0, ingress, policy);
    }

    method ApplyMonitor(instance: InstanceCopy, managed0: seq<string>, t: C.Target) returns (managed: seq<string>)
      modifies server, instance
      ensures Progress(instance, managed, true) == C.MonitorTarget(old(Progress(instance, managed0, true)), t)
    {
      var ok;
      managed, ok := Apply(instance, managed0, t);
      if !ok {
        SetCondition(instance, C.MONITOR_MISSING);
      } else {
        SetCondition(instance, C.MONITOR_OK);
      }
    }

    method ReconcileMonitor(instance: InstanceCopy, managed0: seq<string>) returns (managed: seq<string>)
      modifies server, instance
      ensures Progress(instance, managed, true) == C.Monitor(old(Progress(instance, managed0, true)))
    {
      managed := managed0;
      var inst := instance.rec.obj;
      if inst.spec.metrics.monitor.enabled {
        managed := ApplyMonitor(instance, managed, C.TargetOf(inst, "", MonitorChild));
      }
    }

    method ApplyAvailability(instance: InstanceCopy, managed0: seq<string>, budget: Option<C.Target>, scaler: Option<C.Target>)
      returns (managed: seq<string>, ok: bool)
      modifies server
      ensures Progress(instance, managed, ok) ==
        C.RunAll(C.Optionally(budget) + C.Optionally(scaler), old(Progress(instance, managed0, true)))
    {
      managed, ok := managed0, true;
      ghost var p0, tail := Progress(instance, managed0, true), C.Optionally(scaler);
      if budget.Some? {
        C.Unroll(C.Optionally(budget) + tail, p0);
        assert (C.Optionally(budget) + tail)[1..] == tail;
        managed, ok := Apply(instance, managed, budget.value);
        if !ok { return; }
      } else {
        assert C.Optionally(budget) + tail == tail;
      }
      ghost var p1 := Progress(instance, managed, true);
      if scaler.Some? {
        C.Unroll(tail, p1);
        managed, ok := Apply(instance, managed, scaler.value);
      }
    }

    method ReconcileAvailability(instance: InstanceCopy, managed0: seq<string>) returns (managed: seq<string>, ok: bool)
      modifies server
      ensures Progress(instance, managed, ok) == C.RunAll(C.AvailabilityPlan(instance.rec.obj), old(Progress(instance, managed0, true)))
    {
      var inst := instance.rec.obj;
      var budget := if inst.spec.pdb.enabled then Some(C.TargetOf(inst, "", BudgetChild)) else None;
      var scaler := if inst.spec.hpa.enabled then Some(C.TargetOf(inst, "", ScalerChild)) else None;
      assert C.AvailabilityPlan(inst) == C.Optionally(budget) + C.Optionally(scaler);
      managed, ok := ApplyAvailability(instance, managed0, budget, scaler);
    }

    method PersistManaged(instance: InstanceCopy, managed: seq<string>) returns (ok: bool)
      modifies server, instance
      ensures Progress(instance, managed, ok) == C.Persist(old(Progress(instance, managed, true)))
    {
      var inst := instance.rec.obj;
      var sorted := Sort(managed);
      var next := inst.status;
      next := next.(managedResources := sorted);
      next := next.(currentImage := ImageRef(inst.spec.image));
      next := next.(lastUpdateTime := Some(server.db.clock));
      next := next.(observedGeneration := inst.generation);
      var local, reply := server.PatchStatus(instance.rec, next);
      instance.rec := local;
      ok := reply.Done? || reply.Conflicted?;
    }

    method ServeAndMore(instance: InstanceCopy, managed0: seq<string>, h: string) returns (managed: seq<string>, ok: bool)
      modifies server, instance
      ensures Progress(instance, managed, ok) == C.ServeAndMore(old(Progress(instance, managed0, true)), h)
    {
      managed, ok := ReconcileServing(instance, managed0, h);
      if !ok { return; }
      managed, ok := ReconcileNetworking(instance, managed);
      if !ok { return; }
      managed := ReconcileMonitor(instance, managed);
      managed, ok := ReconcileAvailability(instance, managed);
    }

    method ReconcileResources(instance: InstanceCopy) returns (ok: bool)
      modifies server, instance
      ensures var p := C.ReconcileResources(old(server.State()), old(instance.rec));
        server.State() == p.w && instance.rec == p.rec && ok == !p.failed
    {
      var managed;
      managed, ok := ReconcileAccess(instance);
      if !ok { return; }
      var configHash;
      managed, configHash, ok := ReconcileConfig(instance, managed);
      if !ok { return; }
      managed, ok := ServeAndMore(instance, managed, configHash);
      if !ok { return; }
      ok := PersistManaged(instance, managed);
    }

    // ---- The pass ---------------------------------------------------------------

    method SyncStatus(instance: InstanceCopy) returns (result: C.Result)
      modifies server, instance
      ensures (server.State(), result) == C.SyncStatus(old(server.State()), old(instance.rec))
    {
      var inst := instance.rec.obj;
      var primary := if Replicated(inst.spec) then Leader else Standalone;
      var fetch := server.Get(KeyOf(inst, SetChild(primary)));
      match fetch
      case Missing => result := C.RequeueAfter(5);
      case Unreachable => result := C.Errored;
      case Found(stored) =>
        var desiredReplicas := 1;
        if !Replicated(inst.spec) && inst.spec.replicas.Some? {
          desiredReplicas := inst.spec.replicas.value;
        }
        var body := stored.obj.body;
        var ready := body.status.readyReplicas;
        var phase: Phase;
        if body.status.observedGeneration < body.generation {
          phase := Provisioning;
        } else if ready < desiredReplicas {
          phase := Degraded;
        } else {
          phase := Running;
        }
        var note := C.ReadyNote(phase, ready, desiredReplicas);
        var next := inst.status;
        next := next.(readyReplicas := ready);
        next := next.(phase := phase);
        next := next.(conditions := C.SetCondition(next.conditions, C.NoteCondition(inst, note, server.db.clock)));
        var local, reply := server.PatchStatus(instance.rec, next);
        instance.rec := local;
        if reply.NotFound? || reply.Refused? {
          result := C.Errored;
        } else {
          result := if phase != Running then C.RequeueAfter(10) else C.Finished;
        }
    }

    method ReconcileDeletion(instance: InstanceCopy) returns (result: C.Result)
      modifies server, instance
      ensures (server.State(), result) == C.ReconcileDeletion(old(server.State()), old(instance.rec))
    {
      if FINALIZER !in instance.rec.obj.finalizers {
        return C.Finished;
      }
      var ok := SetPhase(instance, Terminating);
      if !ok {
        return C.Errored;
      }
      var inst := instance.rec.obj;
      instance.rec := instance.rec.(obj := inst.(finalizers := inst.finalizers - {FINALIZER}));
      var reply := server.UpdateInstance(instance.rec);
      result := if reply.Done? then C.Finished else C.Errored;
    }

    /** One pass, from the request to its result. */
    method Reconcile() returns (result: C.Result)
      modifies server
      ensures (server.State(), result) == C.Reconcile(old(server.State()))
    {
      var fetch := server.GetInstance();
      match fetch
      case Missing => result := C.Finished;
      case Unreachable => result := C.Errored;
      case Found(rec) =>
        var instance := new InstanceCopy(rec);
        if rec.obj.deleting {
          result := ReconcileDeletion(instance);
          return;
        }
        if FINALIZER !in rec.obj.finalizers {
          var reply := server.UpdateInstance(rec.(obj := rec.obj.(finalizers := rec.obj.finalizers + {FINALIZER})));
          return if reply.Done? then C.Requeue else C.Errored;
        }
        if rec.obj.status.phase.Unset? {
          var set_ := SetPhase(instance, Provisioning);
          if !set_ {
            return C.Errored;
          }
        }
        var ok := ReconcileResources(instance);
        if !ok {
          var _ := SetPhase(instance, Phase.Failed);
          return C.Errored;
        }
        result := SyncStatus(instance);
    }
  }
}

/**
 The Services: `internal/resources/service.go`.
 */
module Services {
  import opened Api
  import opened Common
  import opened Workloads

  function ServicePorts(spec: Spec): seq<ServicePort> {
    [ServicePort("grpc", GrpcPort(spec), "grpc"), ServicePort("http", HttpPort(spec), "http")]
    + (if MetricsEnabled(spec) then [ServicePort("metrics", MetricsPort(spec), "metrics")] else [])
  }

  /** A client-facing Service with the given selector. */
  function ClientService(inst: TlnDB, selector: StringMap): Child {
    var options := inst.spec.service;
    Child(
      CommonLabels(inst.name) + options.labels, options.annotations, Some(inst.uid),
      ServiceBody(ServiceSpec(
        if options.kind == "" then "ClusterIP" else options.kind,
        Unassigned, selector, ServicePorts(inst.spec), false)))
  }

  function HeadlessService(inst: TlnDB): Child {
    Child(
      CommonLabels(inst.name), map[], Some(inst.uid),
      ServiceBody(ServiceSpec("", Headless, SelectorLabels(inst.name), ServicePorts(inst.spec), true)))
  }

  /** Reads go to the followers, or to the leader when there are none. */
  function ReadRole(spec: Spec): RoleName { if spec.readReplicas == 0 then Leader else Follower }

  method BuildServicePorts(spec: Spec) returns (ports: seq<ServicePort>)
    ensures ports == ServicePorts(spec)
  {
    ports := [ServicePort("grpc", GrpcPort(spec), "grpc"), ServicePort("http", HttpPort(spec), "http")];
    if MetricsEnabled(spec) {
      ports := ports + [ServicePort("metrics", MetricsPort(spec), "metrics")];
    }
  }

  method ServiceWith(inst: TlnDB, selector: StringMap) returns (child: Child)
    ensures child == ClientService(inst, selector)
  {
    var options := inst.spec.service;
    var kind := options.kind;
    if kind == "" { kind := "ClusterIP"; }
    var labels := CopyInto(map[], CommonLabels(inst.name));
    assert map[] + CommonLabels(inst.name) == CommonLabels(inst.name);
    labels := CopyInto(labels, options.labels);
    var ports := BuildServicePorts(inst.spec);
    child := Child(labels, options.annotations, Some(inst.uid),
                   ServiceBody(ServiceSpec(kind, Unassigned, selector, ports, false)));
  }

  // ---- Wiring -----------------------------------------------------------------

  /** The container port a named target resolves to. */
  function Resolve(ports: seq<ContainerPort>, target: string): Option<int> {
    if ports == [] then None
    else if ports[0].name == target then Some(ports[0].number)
    else Resolve(ports[1..], target)
  }

  /**
   Every Service port reaches, through its named target, the container port of the same
   number; the probes use the HTTP one; and the leader address parses back to the
   gRPC port of the write Service.
   */
  lemma PortsAreWired(inst: TlnDB, extraEnv: seq<EnvVar>, i: nat)
    requires i < |ServicePorts(inst.spec)|
    ensures var main, port := MainContainer(inst.spec, extraEnv), ServicePorts(inst.spec)[i];
      Resolve(main.ports, port.target) == Some(port.number) &&
      main.probePorts == [HttpPort(inst.spec), HttpPort(inst.spec), HttpPort(inst.spec)] &&
      Resolve(main.ports, "http") == Some(main.probePorts[0])
    ensures ServicePorts(inst.spec)[0].name == "grpc"
    ensures forall def :: PortFromAddr(LeaderAddr(inst), def) == ServicePorts(inst.spec)[0].number
  {
    var ports := ContainerPorts(inst.spec);
    assert "grpc"[0] == 'g' && "http"[0] == 'h' && "metrics"[0] == 'm';
    assert Resolve(ports, "grpc") == Some(GrpcPort(inst.spec));
    assert ports[1..][0] == ports[1];
    assert Resolve(ports, "http") == Resolve(ports[1..], "http");
    if MetricsEnabled(inst.spec) {
      assert ports[1..][1..][0] == ports[2];
      assert Resolve(ports, "metrics") == Resolve(ports[1..][1..], "metrics");
    }
    forall def ensures PortFromAddr(LeaderAddr(inst), def) == GrpcPort(inst.spec) {
      FormattedPortParsesBack(inst.name + "." + inst.namespace + ".svc.cluster.local", GrpcPort(inst.spec), def);
    }
  }
}

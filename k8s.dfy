/** k8s.py: builds the Deployment and Service objects for an image and submits
    them, Deployment first, Service only when some port mapping is valid. */
module K8s {
  import opened Wrappers
  import opened KubeObjects
  import opened KubeApi

  /** One entry of the `ports` list: a dict whose keys may be absent (`None`). */
  datatype PortMapping = PortMapping(port: Option<int>, targetPort: Option<int>, protocol: Option<string>)

  /** `p.get('port')` is truthy: the key is present and the port is not 0. */
  predicate IsValid(p: PortMapping) {
    p.port.Some? && p.port.value != 0
  }

  /** `[p for p in ports if p.get('port')]`. */
  function ValidPorts(ports: seq<PortMapping>): (r: seq<PortMapping>)
    ensures |r| <= |ports|
    ensures forall i :: 0 <= i < |r| ==> IsValid(r[i])
    ensures forall p :: p in r <==> p in ports && IsValid(p)
  {
    if ports == [] then []
    else (if IsValid(ports[0]) then [ports[0]] else []) + ValidPorts(ports[1..])
  }

  /** The filter keeps order: filtering a concatenation filters each part. */
  lemma {:induction false} ValidPortsAppend(a: seq<PortMapping>, b: seq<PortMapping>)
    ensures ValidPorts(a + b) == ValidPorts(a) + ValidPorts(b)
  {
    if a == [] {
      assert a + b == b;
    } else {
      assert (a + b)[0] == a[0];
      assert (a + b)[1..] == a[1..] + b;
      ValidPortsAppend(a[1..], b);
    }
  }

  /** The filter changes a list exactly when some mapping in it is invalid. */
  lemma {:induction false} ValidPortsUnchanged(ports: seq<PortMapping>)
    ensures ValidPorts(ports) == ports <==> forall i :: 0 <= i < |ports| ==> IsValid(ports[i])
  {
    if ports != [] {
      ValidPortsUnchanged(ports[1..]);
      if !IsValid(ports[0]) {
        assert |ValidPorts(ports)| < |ports|;
      }
    }
  }

  /** Filtering twice is filtering once, so the second filter inside
      `create_service_object` drops nothing from the list `k8s_deploy` passes. */
  lemma ValidPortsIdempotent(ports: seq<PortMapping>)
    ensures ValidPorts(ValidPorts(ports)) == ValidPorts(ports)
  {
    ValidPortsUnchanged(ValidPorts(ports));
  }

  /** `p.get('target_port', p.get('port'))` for a valid mapping. */
  function TargetPort(p: PortMapping): int
    requires IsValid(p)
  {
    p.targetPort.GetOr(p.port.value)
  }

  /** The `V1ServicePort` built for one valid mapping: protocol and target port
      default only when their own key is absent. */
  function ServicePortOf(p: PortMapping): (r: ServicePort)
    requires IsValid(p)
    ensures r.port == p.port.value && r.port != 0
    ensures p.protocol.None? ==> r.protocol == "TCP"
    ensures p.protocol.Some? ==> r.protocol == p.protocol.value
    ensures p.targetPort.None? ==> r.targetPort == r.port
    ensures p.targetPort.Some? ==> r.targetPort == p.targetPort.value
  {
    ServicePort(p.protocol.GetOr("TCP"), p.port.value, TargetPort(p))
  }

  /** The comprehension of `create_service_object`, which filters and maps in one
      pass: its rules are, one to one and in order, those of the valid mappings. */
  function ServiceRules(ports: seq<PortMapping>): (r: seq<ServicePort>)
    ensures |r| == |ValidPorts(ports)|
    ensures forall i :: 0 <= i < |r| ==> r[i] == ServicePortOf(ValidPorts(ports)[i])
  {
    if ports == [] then []
    else if IsValid(ports[0]) then [ServicePortOf(ports[0])] + ServiceRules(ports[1..])
    else ServiceRules(ports[1..])
  }

  /** `create_service_object(name, ports)`. */
  function ServiceObject(name: string, ports: seq<PortMapping>): Service {
    Service("v1", "Service", ObjectMeta(Some(name), None),
            ServiceSpec(map["app" := name], "LoadBalancer", ServiceRules(ports)))
  }

  /** What `create_service_object` promises: named `name`, selecting the pods
      labelled `app=name`, load-balanced, with one rule per valid mapping. */
  lemma ServiceObjectShape(name: string, ports: seq<PortMapping>)
    ensures var s := ServiceObject(name, ports);
      && s.apiVersion == "v1" && s.kind == "Service"
      && s.metadata.name == Some(name)
      && s.spec.selector == map["app" := name]
      && s.spec.serviceType == "LoadBalancer"
      && |s.spec.ports| == |ValidPorts(ports)|
      && forall i :: 0 <= i < |s.spec.ports| ==>
           var p := ValidPorts(ports)[i];
           && s.spec.ports[i].port == p.port.value
           && s.spec.ports[i].protocol == p.protocol.GetOr("TCP")
           && s.spec.ports[i].targetPort == p.targetPort.GetOr(p.port.value)
  {
  }

  /** `[V1ContainerPort(container_port=p) for p in ports]`. */
  function ContainerPorts(ports: seq<int>): seq<ContainerPort> {
    if ports == [] then [] else [ContainerPort(ports[0])] + ContainerPorts(ports[1..])
  }

  lemma {:induction false} ContainerPortsRoundTrip(ports: seq<int>)
    ensures PortNumbers(ContainerPorts(ports)) == ports
  {
    if ports != [] {
      ContainerPortsRoundTrip(ports[1..]);
    }
  }

  /** `create_deployment_object(image, name, ports=[], replicas=1)`. */
  function DeploymentObject(image: string, name: string, ports: seq<int> := [], replicas: int := 1): Deployment {
    var container := Container(name, image, ContainerPorts(ports));
    var template := PodTemplateSpec(ObjectMeta(None, Some(map["app" := name])), PodSpec([container]));
    Deployment("extensions/v1beta1", "Deployment", ObjectMeta(Some(name + "-deployment"), None),
               DeploymentSpec(replicas, template))
  }

  /** What `create_deployment_object` promises: one container running `image`
      under `name`, whose ports are exactly `ports`, in pods labelled
      `app=name`, in a deployment named `name-deployment`; one replica unless
      asked otherwise. */
  lemma DeploymentObjectShape(image: string, name: string, ports: seq<int>, replicas: int)
    ensures var d := DeploymentObject(image, name, ports, replicas);
      && d.apiVersion == "extensions/v1beta1" && d.kind == "Deployment"
      && d.metadata.name == Some(name + "-deployment")
      && d.spec.replicas == replicas
      && d.spec.template.metadata.labels == Some(map["app" := name])
      && |d.spec.template.spec.containers| == 1
      && d.spec.template.spec.containers[0].name == name
      && d.spec.template.spec.containers[0].image == image
      && ExposedPorts(d) == ports
    ensures DeploymentObject(image, name, ports).spec.replicas == 1
  {
    var d := DeploymentObject(image, name, ports, replicas);
    ContainerPortsRoundTrip(ports);
    assert PortsOfContainers(d.spec.template.spec.containers[1..]) == [];
  }

  /** `p_target_list`: the target port of each valid mapping, in order. */
  function TargetPorts(valid: seq<PortMapping>): seq<int>
    requires forall i :: 0 <= i < |valid| ==> IsValid(valid[i])
  {
    seq(|valid|, i requires 0 <= i < |valid| => TargetPort(valid[i]))
  }

  /** The requests `k8s_deploy` issues when none of them raises. */
  function DeployPlan(image: string, name: string, ports: seq<PortMapping>, namespace: string): seq<Request> {
    var valid := ValidPorts(ports);
    var deployment := DeploymentObject(image, name, TargetPorts(valid));
    [DeploymentCreate(namespace, deployment)]
      + (if |valid| == 0 then [] else [ServiceCreate(namespace, ServiceObject(name, valid))])
  }

  /** The submission rule: the Deployment comes first; a Service follows, in the
      same namespace, exactly when some mapping is valid; nothing else is sent.
      The Deployment's container ports are the target ports of the valid
      mappings, not their public ports. */
  lemma DeployPlanOrder(image: string, name: string, ports: seq<PortMapping>, namespace: string)
    ensures var plan := DeployPlan(image, name, ports, namespace);
      && 1 <= |plan| <= 2
      && (forall r :: r in plan ==> r.Namespace() == namespace)
      && plan[0].DeploymentCreate?
      && (|plan| == 2 <==> exists p :: p in ports && IsValid(p))
      && (|plan| == 2 ==> plan[1].ServiceCreate?)
      && |ExposedPorts(plan[0].deployment)| == |ValidPorts(ports)|
      && forall i :: 0 <= i < |ValidPorts(ports)| ==>
           var p := ValidPorts(ports)[i];
           ExposedPorts(plan[0].deployment)[i] == p.targetPort.GetOr(p.port.value)
  {
    var valid := ValidPorts(ports);
    DeploymentObjectShape(image, name, TargetPorts(valid), 1);
    if |valid| > 0 {
      assert valid[0] in valid;
    }
  }

  /** When `k8s_deploy` creates a Service, it routes to the Deployment's pods:
      its selector matches their labels and its target ports are, one to one and
      in order, the Deployment's container ports. */
  lemma {:induction false} ServiceMatchesDeployment(image: string, name: string, ports: seq<PortMapping>)
    ensures var valid := ValidPorts(ports);
      var d := DeploymentObject(image, name, TargetPorts(valid));
      var s := ServiceObject(name, valid);
      && Selects(s, d)
      && |s.spec.ports| == |ExposedPorts(d)|
      && forall i :: 0 <= i < |s.spec.ports| ==> s.spec.ports[i].targetPort == ExposedPorts(d)[i]
  {
    var valid := ValidPorts(ports);
    ValidPortsIdempotent(ports);
    DeploymentObjectShape(image, name, TargetPorts(valid), 1);
  }

  /** `create_deployment(api_instance, deployment, namespace='default')`. */
  method CreateDeployment(cluster: Cluster, deployment: Deployment, namespace: string := "default") returns (ok: bool)
    modifies cluster`log
    ensures cluster.log == old(cluster.log) + [DeploymentCreate(namespace, deployment)]
    ensures ok == !cluster.rejects(old(cluster.log), DeploymentCreate(namespace, deployment))
  {
    ok := cluster.CreateNamespacedDeployment(deployment, namespace);
  }

  /** `k8s_deploy(image, name, ports=[], namespace='default')`: issues
      `DeployPlan` one call at a time and stops at the first call that raises. */
  method K8sDeploy(cluster: Cluster, image: string, name: string, ports: seq<PortMapping> := [], namespace: string := "default")
    returns (outcome: Result<(), Failure>)
    modifies cluster`log
    ensures var run := Exec(old(cluster.log), DeployPlan(image, name, ports, namespace), cluster.rejects);
      cluster.log == run.log && outcome == Outcome(run)
  {
    var validList := ValidPorts(ports);
    var targetList := TargetPorts(validList);
    var deployment := DeploymentObject(image, name, targetList);
    var ok := CreateDeployment(cluster, deployment, namespace);
    if !ok {
      return Err(Rejected(DeploymentCreate(namespace, deployment)));
    }
    if |validList| == 0 {
      return Ok(());
    }
    var service := ServiceObject(name, validList);
    ok := cluster.CreateNamespacedService(namespace, service);
    if !ok {
      return Err(Rejected(ServiceCreate(namespace, service)));
    }
    return Ok(());
  }

  /** The one port mapping of the local command: `{'port': 80}`. */
  const NginxPorts: seq<PortMapping> := [PortMapping(Some(80), None, None)]

  /** `main()`: loads the local kubeconfig, then deploys `nginx` on port 80. */
  method LocalMain(cluster: Cluster) returns (outcome: Result<(), Failure>)
    modifies cluster
    ensures cluster.configLoads == old(cluster.configLoads) + 1
    ensures !cluster.kubeconfigPresent ==> cluster.log == old(cluster.log) && outcome == Err(ConfigNotFound)
    ensures cluster.kubeconfigPresent ==>
      var run := Exec(old(cluster.log), DeployPlan("nginx", "nginx", NginxPorts, "default"), cluster.rejects);
      cluster.log == run.log && outcome == Outcome(run)
  {
    var loaded := cluster.LoadKubeConfig();
    if !loaded {
      return Err(ConfigNotFound);
    }
    outcome := K8sDeploy(cluster, "nginx", "nginx", NginxPorts);
  }

  /** The local command's requests: a deployment `nginx-deployment` with one
      replica and container port 80, then a Service forwarding TCP 80 to 80. */
  lemma NginxScenario()
    ensures DeployPlan("nginx", "nginx", NginxPorts, "default") ==
      [ DeploymentCreate("default", DeploymentObject("nginx", "nginx", [80])),
        ServiceCreate("default", Service("v1", "Service", ObjectMeta(Some("nginx"), None),
          ServiceSpec(map["app" := "nginx"], "LoadBalancer", [ServicePort("TCP", 80, 80)]))) ]
    ensures var d := DeploymentObject("nginx", "nginx", [80]);
      d.metadata.name == Some("nginx-deployment") && d.spec.replicas == 1 && ExposedPorts(d) == [80]
  {
    assert ValidPorts(NginxPorts) == NginxPorts;
    assert TargetPorts(NginxPorts) == [80];
    assert ServiceRules(NginxPorts) == [ServicePort("TCP", 80, 80)];
    assert "nginx" + "-deployment" == "nginx-deployment";
    DeploymentObjectShape("nginx", "nginx", [80], 1);
  }
}

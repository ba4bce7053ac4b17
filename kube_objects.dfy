/** The Kubernetes client objects that the deployment code fills in, as plain
    values. Only the fields the code sets are modelled; every other field of the
    client classes keeps its (absent) default and is left out. */
module KubeObjects {
  import opened Wrappers

  type Labels = map<string, string>

  /** `V1ObjectMeta`: the code sets either a name or labels, never both. */
  datatype ObjectMeta = ObjectMeta(name: Option<string>, labels: Option<Labels>)

  /** `V1ServicePort`: one forwarding rule of a Service. */
  datatype ServicePort = ServicePort(protocol: string, port: int, targetPort: int)

  /** `V1ServiceSpec`; `serviceType` is the client's `type` field. */
  datatype ServiceSpec = ServiceSpec(selector: Labels, serviceType: string, ports: seq<ServicePort>)

  /** `V1Service`. */
  datatype Service = Service(apiVersion: string, kind: string, metadata: ObjectMeta, spec: ServiceSpec)

  /** `V1ContainerPort`. */
  datatype ContainerPort = ContainerPort(containerPort: int)

  /** `V1Container`. */
  datatype Container = Container(name: string, image: string, ports: seq<ContainerPort>)

  /** `V1PodSpec`. */
  datatype PodSpec = PodSpec(containers: seq<Container>)

  /** `V1PodTemplateSpec`. */
  datatype PodTemplateSpec = PodTemplateSpec(metadata: ObjectMeta, spec: PodSpec)

  /** `ExtensionsV1beta1DeploymentSpec`. */
  datatype DeploymentSpec = DeploymentSpec(replicas: int, template: PodTemplateSpec)

  /** `ExtensionsV1beta1Deployment`. */
  datatype Deployment = Deployment(apiVersion: string, kind: string, metadata: ObjectMeta, spec: DeploymentSpec)

  /** One create call sent to the control plane: `create_namespaced_deployment`
      or `create_namespaced_service`, with its namespace and body. */
  datatype Request =
    | DeploymentCreate(namespace: string, deployment: Deployment)
    | ServiceCreate(namespace: string, service: Service)
  {
    function Namespace(): string {
      match this
      case DeploymentCreate(ns, _) => ns
      case ServiceCreate(ns, _) => ns
    }
  }

  /** The container ports a deployment's pods expose, over all its containers, in order. */
  function ExposedPorts(d: Deployment): seq<int> {
    PortsOfContainers(d.spec.template.spec.containers)
  }

  function PortsOfContainers(cs: seq<Container>): seq<int> {
    if cs == [] then [] else PortNumbers(cs[0].ports) + PortsOfContainers(cs[1..])
  }

  function PortNumbers(ps: seq<ContainerPort>): seq<int> {
    if ps == [] then [] else [ps[0].containerPort] + PortNumbers(ps[1..])
  }

  /** A Service routes to a Deployment's pods when every key of its selector is
      a pod label of the deployment's template, with the same value. */
  predicate Selects(s: Service, d: Deployment) {
    var labels := d.spec.template.metadata.labels;
    labels.Some? &&
    forall k :: k in s.spec.selector ==> k in labels.value && labels.value[k] == s.spec.selector[k]
  }
}

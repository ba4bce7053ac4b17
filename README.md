# trigger-build: image notification to Kubernetes create requests

This project models the core of `trigger-build`. The code reacts to an
"image published" notification. It derives a deployment name from the image
reference. It then asks the Kubernetes control plane to create a Deployment
that runs the image. When some port mapping is valid, it also asks for a
LoadBalancer Service in front of it.

Modules, one per source file plus the types they share:

- `Wrappers` (wrappers.dfy): `Option`, used for dict keys that may be absent, and `Result`, used for calls that may raise.
- `KubeObjects` (kube_objects.dfy): the Kubernetes client objects the code fills in (`V1Service`, `V1ServicePort`, `ExtensionsV1beta1Deployment`, `V1Container`, …) as plain datatypes. It also has the `Request` sent for each create call.
- `KubeApi` (kube_api.dfy): the cluster client as a class `Cluster`.
  - `log` holds every create request issued, in order.
  - `configLoads` counts kubeconfig loads.
  - The control plane's answer is a fixed function `rejects(history, request)`. A rejected call is still issued, then raises.
  - `Exec` is the reference meaning of a straight-line list of calls with no exception handling. Each call runs in turn, and the first rejected call is the last one issued.
- `K8s` (k8s.py): port filtering and defaulting, the Service and Deployment builders, the submission rule of `k8s_deploy`, and `main`.
- `LambdaFunction` (lambda_function.py): name derivation, `deploy`, and the per-record loop of `lambda_handler`.

Behaviour of the code worth noting:

- The name is derived by cutting at the first `:` first, and only then taking what follows the last `/`. So `localhost:5000/app:v1` is named `localhost`.
- The handler passes no ports to `k8s_deploy`, so the event path never creates a Service.
- The loop has no exception handling. A failing record ends the handler, and the records after it are not deployed.
- The code has no explicit host/token connection path; see "## Left out".

## Model

| member | source | states |
|---|---|---|
| `KubeApi.Exec` | k8s.py:64-71 | the issued requests are the starting log plus a prefix of the plan; every issued request but the last was accepted; the last was rejected exactly when the run failed, and a run that did not fail issued the whole plan |
| `KubeApi.ExecAppend` | lambda_function.py:14-17 | running `a` then `b` equals running `a + b`; `b` runs only if nothing in `a` raised |
| `KubeApi.Cluster.LoadKubeConfig` | k8s.py:78 | one more config load; it succeeds exactly when a kubeconfig is present |
| `KubeApi.Cluster.CreateNamespacedDeployment` | k8s.py:50-52 | appends a Deployment create in the namespace to the log; reports whether the control plane accepted it |
| `KubeApi.Cluster.CreateNamespacedService` | k8s.py:71 | appends a Service create in the namespace to the log; reports whether the control plane accepted it |
| `K8s.ValidPorts` | k8s.py:60 | a mapping is kept exactly when it is in the input and its `port` is present and non-zero |
| `K8s.ValidPortsAppend` | k8s.py:60 | the filter keeps input order: filtering `a + b` is filtering `a`, then `b` |
| `K8s.ValidPortsUnchanged` | k8s.py:18 | the filter leaves a list unchanged exactly when every mapping in it is valid |
| `K8s.ValidPortsIdempotent` | k8s.py:60 | filtering twice equals filtering once, so the second filter in `create_service_object` drops nothing |
| `K8s.ServicePortOf` | k8s.py:14-17 | a rule keeps the mapping's port; protocol is the mapping's own if present, else `TCP`; target port is the mapping's own if present, else its own port |
| `K8s.ServiceRules` | k8s.py:14-19 | the Service's rules match the valid mappings one to one and in order; each rule depends only on its own mapping |
| `K8s.ServiceObjectShape` | k8s.py:5-21 | the Service is `v1`/`Service`, named `name`, selects exactly `{"app": name}`, has type `LoadBalancer`, and has one defaulted rule per valid mapping |
| `K8s.ContainerPortsRoundTrip` | k8s.py:24 | reading the container port numbers back gives the input list |
| `K8s.DeploymentObjectShape` | k8s.py:23-45 | the Deployment is named `name-deployment` and has the given replicas (1 by default); its pods are labelled `{"app": name}`; it has exactly one container, named `name`, running `image`, whose ports are the input list element for element |
| `K8s.DeployPlanOrder` | k8s.py:56-71 | the Deployment create is first; a Service create follows exactly when some mapping is valid; nothing else is sent; all in the same namespace; the container ports are the target ports of the valid mappings |
| `K8s.ServiceMatchesDeployment` | k8s.py:60-69 | the Service's selector matches the Deployment's pod labels; its target ports equal the Deployment's container ports, in order |
| `K8s.IsValid` | k8s.py:60 | the `p.get('port')` test: the key is present and the port is non-zero; see `ValidPorts` |
| `K8s.TargetPort` | k8s.py:61 | `p.get('target_port', p.get('port'))` for one valid mapping; see `ServicePortOf` and `DeployPlanOrder` |
| `K8s.TargetPorts` | k8s.py:61 | `p_target_list`, one target port per valid mapping in order; see `DeployPlanOrder` |
| `K8s.ServiceObject` | k8s.py:5-21 | `create_service_object`; see `ServiceObjectShape` |
| `K8s.ContainerPorts` | k8s.py:24 | the container-port comprehension; see `ContainerPortsRoundTrip` |
| `K8s.DeploymentObject` | k8s.py:23-45 | `create_deployment_object`; see `DeploymentObjectShape` |
| `K8s.DeployPlan` | k8s.py:56-71 | the requests of `k8s_deploy` when none raises; see `DeployPlanOrder`, `ServiceMatchesDeployment` and `K8sDeploy` |
| `LambdaFunction.RecordPlan` | lambda_function.py:7-10 | the requests of one `deploy` call when none raises; see `RecordPlanSingle` |
| `LambdaFunction.HandlerPlan` | lambda_function.py:14-17 | the requests of the handler's loop when none raises; see `HandlerPlanShape` and `LambdaHandler` |
| `K8s.CreateDeployment` | k8s.py:48-53 | issues one Deployment create in the namespace (default `default`) and reports acceptance |
| `K8s.K8sDeploy` | k8s.py:56-71 | the log grows by exactly the run of the plan, stopping at the first rejected call; it returns normally exactly when no call raised |
| `K8s.LocalMain` | k8s.py:74-79 | loads the config once; without a kubeconfig it fails and issues nothing; otherwise it runs the nginx plan |
| `K8s.NginxScenario` | k8s.py:79 | nginx gives `nginx-deployment` with 1 replica and container port 80, then a Service with the single rule TCP 80 to 80 |
| `LambdaFunction.BeforeFirst` | lambda_function.py:9 | the result is a prefix without the separator; it ends at the first separator or at the end of the input |
| `LambdaFunction.AfterLast` | lambda_function.py:9 | the result is a suffix without the separator; it starts after the last separator or at the start of the input |
| `LambdaFunction.BeforeFirstUnique` | lambda_function.py:9 | any prefix with those properties is the result of `BeforeFirst` |
| `LambdaFunction.AfterLastUnique` | lambda_function.py:9 | any suffix with those properties is the result of `AfterLast` |
| `LambdaFunction.DeriveName` | lambda_function.py:9 | a derived name contains neither `:` nor `/`; a reference with neither is its own name |
| `LambdaFunction.DeriveNameRegistryPort` | lambda_function.py:9 | for `host:rest`, where the host has no `:` or `/`, the derived name is the host |
| `LambdaFunction.DeriveNameTaggedPath` | lambda_function.py:9 | for `path/app:tag`, where `app` has no `/` and the path no `:`, the derived name is `app` |
| `LambdaFunction.DeriveNameUntaggedPath` | lambda_function.py:9 | for `path/app`, where `app` has no `/` and neither part has `:`, the derived name is `app` |
| `LambdaFunction.DeriveNameLocalRegistry` | lambda_function.py:9 | `localhost:5000/app:v1` is named `localhost` |
| `LambdaFunction.DeriveNameRemoteRegistry` | lambda_function.py:9 | `reg.example.com/team/app:v1.2` is named `app` |
| `LambdaFunction.ResolveName` | lambda_function.py:9 | a present, non-empty name is used unchanged; otherwise the name is derived from the image |
| `LambdaFunction.RecordPlanSingle` | lambda_function.py:7-10 | one record issues exactly one Deployment create, in `default`, for the full image reference, with no container ports and no Service |
| `LambdaFunction.RequestsAppend` | lambda_function.py:14-17 | a per-record loop's requests for `a + b` are those for `a` followed by those for `b` |
| `LambdaFunction.RequestsPrefix` | lambda_function.py:14-17 | the loop's requests for the first `i + 1` records extend those for the first `i` with record `i`'s requests |
| `LambdaFunction.HandlerPlanShape` | lambda_function.py:14-17 | one Deployment create per record, in record order, and never a Service create |
| `LambdaFunction.LoopStep` | lambda_function.py:14-17 | deploying record `i` continues the run of the records before it; if it raises, that ends the whole run |
| `LambdaFunction.Deploy` | lambda_function.py:7-10 | the log grows by the run of the record's single Deployment create; the result says whether it raised |
| `LambdaFunction.LambdaHandler` | lambda_function.py:12-20 | loads the config once; without a kubeconfig it fails and issues nothing; otherwise the log grows by the run of all records' requests in order, stopping at the first rejection; it returns `{}` exactly when nothing raised |

## Left out

- Explicit host/token connection (TLS flag, bearer token): the code has no such path; only `config.load_kube_config()` is used.
- The control plane's own behaviour: whether a request succeeds is an arbitrary fixed function of the earlier requests and the request. The returned status objects are not modelled.
- `print` output, including the echo of `api_response.status`: logging only.
- Decoding `record['Sns']['Message']` with `json.loads`, and the script entry point that reads the event from standard input: input plumbing. Records are given directly as `(registry, image, name)`.
- A notification without an `image` key: the code raises at the split when `name` is absent or empty; with a non-empty `name` it submits a Deployment whose container has no image. The model takes `image` as a string.
- Port mapping values beyond `int` and `str`: `port` and `target_port` are optional integers and `protocol` an optional string. `None` means the key is absent, so a key present with the value `None` is not modelled. A `target_port` given as a named port (IntOrString) is not modelled either.
- The unused `watch` import and `registry` argument (only printed): they have no effect.
- Constructing the API client objects (`ExtensionsV1beta1Api()`, `CoreV1Api()`): it cannot fail in the model, so only the create calls and the kubeconfig load can raise.

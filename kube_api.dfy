/** The cluster control plane as the deployment code sees it: two create calls
    and the loading of the local kubeconfig. The remote side is not modelled;
    its answer to each call is a fixed function of the calls issued before. */
module KubeApi {
  import opened Wrappers
  import opened KubeObjects

  /** How the control plane answers: `rejects(history, r)` holds when request
      `r`, issued after `history`, fails (unreachable, unauthorised, invalid,
      already exists); the client library then raises. */
  type Rejection = (seq<Request>, Request) -> bool

  /** Why a deployment did not complete. */
  datatype Failure =
    | ConfigNotFound              // `config.load_kube_config()` raised
    | Rejected(request: Request)  // a create call raised; nothing after it ran

  /** The requests issued by running `plan` one call at a time after `log`, and
      the request that raised, if one did. */
  datatype Run = Run(log: seq<Request>, rejected: Option<Request>)

  /** Reference semantics of a straight-line sequence of create calls without
      any exception handling: each request is issued in turn; the first one the
      control plane rejects is still issued, and nothing after it is. */
  function Exec(log: seq<Request>, plan: seq<Request>, rejects: Rejection): (run: Run)
    ensures |log| <= |run.log| <= |log| + |plan|
    ensures run.log == log + plan[..|run.log| - |log|]
    ensures run.rejected.None? ==> run.log == log + plan
    ensures run.rejected.Some? ==> |log| < |run.log| && run.rejected.value == run.log[|run.log| - 1]
    ensures forall i :: |log| <= i < |run.log| ==>
              (rejects(run.log[..i], run.log[i]) <==> run.rejected.Some? && i == |run.log| - 1)
    decreases |plan|
  {
    if plan == [] then
      Run(log, None)
    else if rejects(log, plan[0]) then
      Run(log + [plan[0]], Some(plan[0]))
    else
      var run := Exec(log + [plan[0]], plan[1..], rejects);
      assert run.log[..|log|] == log;
      run
  }

  /** Running `a` and then `b` is running `a + b`: `b` runs only when `a`
      raised nothing. */
  lemma {:induction false} ExecAppend(log: seq<Request>, a: seq<Request>, b: seq<Request>, rejects: Rejection)
    ensures Exec(log, a + b, rejects) ==
              (var first := Exec(log, a, rejects);
               if first.rejected.Some? then first else Exec(first.log, b, rejects))
    decreases |a|
  {
    if a == [] {
      assert a + b == b;
    } else {
      assert (a + b)[0] == a[0];
      assert (a + b)[1..] == a[1..] + b;
      if !rejects(log, a[0]) {
        ExecAppend(log + [a[0]], a[1..], b, rejects);
      }
    }
  }

  /** The outcome a caller sees after a run: `None` returned, or the exception. */
  function Outcome(run: Run): (r: Result<(), Failure>)
    ensures r.Ok? <==> run.rejected.None?
  {
    match run.rejected
    case None => Ok(())
    case Some(req) => Err(Rejected(req))
  }

  /** The API client bound to one cluster. `log` is every create request issued
      to it, in order. */
  class Cluster {
    var log: seq<Request>
    var configLoads: nat
    const kubeconfigPresent: bool
    const rejects: Rejection

    constructor (kubeconfigPresent: bool, rejects: Rejection)
      ensures log == [] && configLoads == 0
      ensures this.kubeconfigPresent == kubeconfigPresent && this.rejects == rejects
    {
      log := [];
      configLoads := 0;
      this.kubeconfigPresent := kubeconfigPresent;
      this.rejects := rejects;
    }

    /** `config.load_kube_config()`: reads the local kubeconfig; raises when
        there is none. */
    method LoadKubeConfig() returns (ok: bool)
      modifies this`configLoads
      ensures configLoads == old(configLoads) + 1
      ensures ok == kubeconfigPresent
    {
      configLoads := configLoads + 1;
      ok := kubeconfigPresent;
    }

    /** `ExtensionsV1beta1Api().create_namespaced_deployment(body, namespace)`. */
    method CreateNamespacedDeployment(body: Deployment, namespace: string) returns (ok: bool)
      modifies this`log
      ensures log == old(log) + [DeploymentCreate(namespace, body)]
      ensures ok == !rejects(old(log), DeploymentCreate(namespace, body))
    {
      ok := !rejects(log, DeploymentCreate(namespace, body));
      log := log + [DeploymentCreate(namespace, body)];
    }

    /** `CoreV1Api().create_namespaced_service(namespace, body)`. */
    method CreateNamespacedService(namespace: string, body: Service) returns (ok: bool)
      modifies this`log
      ensures log == old(log) + [ServiceCreate(namespace, body)]
      ensures ok == !rejects(old(log), ServiceCreate(namespace, body))
    {
      ok := !rejects(log, ServiceCreate(namespace, body));
      log := log + [ServiceCreate(namespace, body)];
    }
  }
}

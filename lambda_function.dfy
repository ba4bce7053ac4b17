/** lambda_function.py: the event handler. Each record of the event names an
    image; the handler deploys each one, in order, with no ports. */
module LambdaFunction {
  import opened Wrappers
  import opened KubeObjects
  import opened KubeApi
  import opened K8s

  /** Python's `s.split(c)[0]`: the part of `s` before the first `c`, or all of
      `s` when `c` does not occur. */
  function BeforeFirst(s: string, c: char): (r: string)
    ensures r <= s
    ensures c !in r
    ensures |r| == |s| || s[|r|] == c
  {
    if s == [] || s[0] == c then [] else [s[0]] + BeforeFirst(s[1..], c)
  }

  /** Python's `s.split(c).pop()`: the part of `s` after the last `c`, or all of
      `s` when `c` does not occur. */
  function AfterLast(s: string, c: char): (r: string)
    ensures |r| <= |s| && r == s[|s| - |r|..]
    ensures c !in r
    ensures |r| == |s| || s[|s| - |r| - 1] == c
  {
    if s == [] || s[|s| - 1] == c then [] else AfterLast(s[..|s| - 1], c) + [s[|s| - 1]]
  }

  /** `image.split(':')[0].split('/').pop()`: cut at the first `:`, then keep
      what follows the last `/` of that prefix. The result is one piece of the
      reference with no separator in it; a reference without separators is its
      own name. */
  function DeriveName(image: string): (r: string)
    ensures ':' !in r && '/' !in r
    ensures ':' !in image && '/' !in image ==> r == image
  {
    var repo := BeforeFirst(image, ':');
    var r := AfterLast(repo, '/');
    assert forall x :: x in r ==> x in repo;
    r
  }

  /** `BeforeFirst` is the only prefix with no `c` that ends at a `c` or at the
      end of `s`. */
  lemma BeforeFirstUnique(s: string, c: char, k: nat)
    requires k <= |s|
    requires forall j :: 0 <= j < k ==> s[j] != c
    requires k == |s| || s[k] == c
    ensures BeforeFirst(s, c) == s[..k]
  {
  }

  /** `AfterLast` is the only suffix with no `c` that starts after a `c` or at
      the start of `s`. */
  lemma AfterLastUnique(s: string, c: char, k: nat)
    requires k <= |s|
    requires forall j :: k <= j < |s| ==> s[j] != c
    requires k == 0 || s[k - 1] == c
    ensures AfterLast(s, c) == s[k..]
  {
  }

  /** The cut at the first `:` comes first: for a registry host with a port
      number, `host:port/path`, the derived name is the host. */
  lemma DeriveNameRegistryPort(host: string, rest: string)
    requires ':' !in host && '/' !in host
    ensures DeriveName(host + ":" + rest) == host
  {
    var image := host + ":" + rest;
    BeforeFirstUnique(image, ':', |host|);
    assert image[..|host|] == host;
    AfterLastUnique(host, '/', 0);
    assert host[0..] == host;
  }

  /** For a tagged path, `path/app:tag`, the derived name is the last segment. */
  lemma DeriveNameTaggedPath(path: string, app: string, tag: string)
    requires ':' !in path && ':' !in app && '/' !in app
    ensures DeriveName(path + "/" + app + ":" + tag) == app
  {
    var image := path + "/" + app + ":" + tag;
    var repo := path + "/" + app;
    assert image == repo + ":" + tag;
    BeforeFirstUnique(image, ':', |repo|);
    assert image[..|repo|] == repo;
    AfterLastUnique(repo, '/', |path| + 1);
    assert repo[|path| + 1..] == app;
  }

  /** For an untagged path, `path/app`, the derived name is the last segment. */
  lemma DeriveNameUntaggedPath(path: string, app: string)
    requires ':' !in path && ':' !in app && '/' !in app
    ensures DeriveName(path + "/" + app) == app
  {
    var image := path + "/" + app;
    BeforeFirstUnique(image, ':', |image|);
    assert image[..|image|] == image;
    AfterLastUnique(image, '/', |path| + 1);
    assert image[|path| + 1..] == app;
  }

  // The two concrete references below are passed as parameters fixed by a
  // `requires`: a string literal written directly under `DeriveName` makes the
  // verifier unfold the recursive cuts character by character and run out of
  // resources, while a parameter lets it use the general lemmas above.

  /** `localhost:5000/app:v1` is named `localhost`. */
  lemma DeriveNameLocalRegistry(image: string)
    requires image == "localhost:5000/app:v1"
    ensures DeriveName(image) == "localhost"
  {
    assert image == "localhost" + ":" + "5000/app:v1";
    DeriveNameRegistryPort("localhost", "5000/app:v1");
  }

  /** `reg.example.com/team/app:v1.2` is named `app`. */
  lemma DeriveNameRemoteRegistry(image: string)
    requires image == "reg.example.com/team/app:v1.2"
    ensures DeriveName(image) == "app"
  {
    assert image == "reg.example.com/team" + "/" + "app" + ":" + "v1.2";
    DeriveNameTaggedPath("reg.example.com/team", "app", "v1.2");
  }

  /** `name or image.split(':')[0].split('/').pop()`: a given, non-empty name is
      used unchanged; otherwise the name is derived from the image. */
  function ResolveName(image: string, name: Option<string>): (r: string)
    ensures name.Some? && name.value != "" ==> r == name.value
    ensures name.None? || name.value == "" ==> r == DeriveName(image)
  {
    if name.Some? && name.value != "" then name.value else DeriveName(image)
  }

  /** One notification after decoding: `msg.get('registry')`, `msg.get('image')`,
      `msg.get('name')`. */
  datatype Record = Record(registry: Option<string>, image: string, name: Option<string>)

  /** The requests `deploy(registry, image, name)` issues for one record when
      none raises: `k8s_deploy(image, name)` with the default ports and namespace. */
  function RecordPlan(record: Record): seq<Request> {
    DeployPlan(record.image, ResolveName(record.image, record.name), [], "default")
  }

  /** With no ports, `deploy` creates exactly one Deployment, for the full image
      reference, in namespace `default`, and no Service. */
  lemma RecordPlanSingle(record: Record)
    ensures RecordPlan(record) ==
      [DeploymentCreate("default", DeploymentObject(record.image, ResolveName(record.image, record.name), []))]
    ensures var d := DeploymentObject(record.image, ResolveName(record.image, record.name), []);
      d.spec.template.spec.containers[0].image == record.image && ExposedPorts(d) == []
  {
    assert TargetPorts([]) == [];
    DeploymentObjectShape(record.image, ResolveName(record.image, record.name), [], 1);
  }

  /** The requests of a loop that runs `plan` for each record in turn. */
  function Requests(records: seq<Record>, plan: Record -> seq<Request>): seq<Request> {
    if records == [] then [] else plan(records[0]) + Requests(records[1..], plan)
  }

  /** The requests the handler's loop issues when none raises. */
  function HandlerPlan(records: seq<Record>): seq<Request> {
    Requests(records, RecordPlan)
  }

  lemma {:induction false} RequestsAppend(a: seq<Record>, b: seq<Record>, plan: Record -> seq<Request>)
    ensures Requests(a + b, plan) == Requests(a, plan) + Requests(b, plan)
  {
    if a == [] {
      assert a + b == b;
    } else {
      assert (a + b)[0] == a[0];
      assert (a + b)[1..] == a[1..] + b;
      RequestsAppend(a[1..], b, plan);
    }
  }

  /** The loop's requests for the first `i + 1` records extend those for the
      first `i` with record `i`'s, and all its requests extend both. */
  lemma {:induction false} RequestsPrefix(records: seq<Record>, i: nat, plan: Record -> seq<Request>)
    requires i < |records|
    ensures Requests(records[..i + 1], plan) == Requests(records[..i], plan) + plan(records[i])
    ensures Requests(records, plan) == Requests(records[..i + 1], plan) + Requests(records[i + 1..], plan)
  {
    assert records[..i + 1] == records[..i] + [records[i]];
    RequestsAppend(records[..i], [records[i]], plan);
    assert [records[i]][1..] == [];
    assert records == records[..i + 1] + records[i + 1..];
    RequestsAppend(records[..i + 1], records[i + 1..], plan);
  }

  /** One Deployment create per record, in record order, and never a Service. */
  lemma {:induction false} HandlerPlanShape(records: seq<Record>)
    ensures |HandlerPlan(records)| == |records|
    ensures forall i :: 0 <= i < |records| ==>
      HandlerPlan(records)[i] ==
        DeploymentCreate("default", DeploymentObject(records[i].image, ResolveName(records[i].image, records[i].name), []))
    ensures forall r :: r in HandlerPlan(records) ==> r.DeploymentCreate?
  {
    if records != [] {
      RecordPlanSingle(records[0]);
      HandlerPlanShape(records[1..]);
    }
  }

  /** One turn of the handler's loop: after the first `i` records ran without an
      exception, running record `i` continues the run of the whole loop, and
      ends it when record `i` raises. */
  lemma {:induction false} LoopStep(start: seq<Request>, records: seq<Record>, i: nat, plan: Record -> seq<Request>, rejects: Rejection)
    requires i < |records|
    requires Exec(start, Requests(records[..i], plan), rejects).rejected.None?
    ensures var before := Exec(start, Requests(records[..i], plan), rejects);
      var step := Exec(before.log, plan(records[i]), rejects);
      && step == Exec(start, Requests(records[..i + 1], plan), rejects)
      && (step.rejected.Some? ==> step == Exec(start, Requests(records, plan), rejects))
  {
    RequestsPrefix(records, i, plan);
    ExecAppend(start, Requests(records[..i], plan), plan(records[i]), rejects);
    ExecAppend(start, Requests(records[..i + 1], plan), Requests(records[i + 1..], plan), rejects);
  }

  /** `deploy(registry, image, name=None)`; `registry` is only printed. */
  method Deploy(cluster: Cluster, registry: Option<string>, image: string, name: Option<string> := None)
    returns (outcome: Result<(), Failure>)
    modifies cluster`log
    ensures var run := Exec(old(cluster.log), RecordPlan(Record(registry, image, name)), cluster.rejects);
      cluster.log == run.log && outcome == Outcome(run)
  {
    var resolved := ResolveName(image, name);
    outcome := K8sDeploy(cluster, image, resolved);
  }

  /** `lambda_handler(event, context)`: loads the kubeconfig once, then deploys
      each record in order. An exception from one record ends the handler, so
      the records after it are not deployed; `{}` is returned when none raised. */
  method LambdaHandler(cluster: Cluster, records: seq<Record>) returns (result: Result<map<string, string>, Failure>)
    modifies cluster
    ensures cluster.configLoads == old(cluster.configLoads) + 1
    ensures !cluster.kubeconfigPresent ==> cluster.log == old(cluster.log) && result == Err(ConfigNotFound)
    ensures cluster.kubeconfigPresent ==>
      var run := Exec(old(cluster.log), HandlerPlan(records), cluster.rejects);
      && cluster.log == run.log
      && (result.Ok? <==> run.rejected.None?)
      && (result.Ok? ==> result.value == map[])
      && (result.Err? ==> run.rejected.Some? && result.error == Rejected(run.rejected.value))
  {
    var loaded := cluster.LoadKubeConfig();
    if !loaded {
      return Err(ConfigNotFound);
    }
    ghost var start := old(cluster.log);
    var i := 0;
    while i < |records|
      invariant 0 <= i <= |records|
      invariant cluster.configLoads == old(cluster.configLoads) + 1
      invariant cluster.log == Exec(start, Requests(records[..i], RecordPlan), cluster.rejects).log
      invariant Exec(start, Requests(records[..i], RecordPlan), cluster.rejects).rejected.None?
    {
      var record := records[i];
      var outcome := Deploy(cluster, record.registry, record.image, record.name);
      LoopStep(start, records, i, RecordPlan, cluster.rejects);
      if outcome.Err? {
        return Err(outcome.error);
      }
      i := i + 1;
    }
    assert records[..i] == records;
    return Ok(map[]);
  }
}

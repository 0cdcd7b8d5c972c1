/**
 * What both steps share: the read-only run context, string maps standing for
 * action inputs, environment, outputs and the cross-invocation state store,
 * the requests sent to the deployments API, the log of API calls a step makes,
 * and the API itself as a record of operations that answer or fail.
 */
module Platform {
  import opened Wrappers

  /** `github.context`: owner and repository, the workflow run id and the current job's name. */
  datatype Context = Context(owner: string, repo: string, runId: nat, job: string)

  /** Inputs, environment variables, step outputs and saved state are all string maps. */
  type StringMap = map<string, string>

  /** A key that is not set reads as the empty string, as `getInput` and `getState` return it. */
  function Get(m: StringMap, key: string): string {
    if key in m then m[key] else ""
  }

  /** JavaScript `a || b` on strings: the empty string is falsy. */
  function OrElse(a: string, b: string): string {
    if a != "" then a else b
  }

  predicate StartsWith(s: string, prefix: string) {
    |prefix| <= |s| && s[..|prefix|] == prefix
  }

  // Keys of the cross-invocation state store
  const DeploymentIdKey := "deployment-id"
  const TokenKey := "token"
  const EnvironmentKey := "environment"
  const EnvironmentUrlKey := "environment-url"
  const LogUrlKey := "log-url"

  /** The `state` of a deployment status: `in_progress`, or one of the two terminal states. */
  datatype DeploymentState = InProgress | Success | Failure {
    predicate IsTerminal() {
      Success? || Failure?
    }
  }

  /** Parameters of `repos.createDeployment`. */
  datatype DeploymentRequest = DeploymentRequest(
    owner: string,
    repo: string,
    ref: string,
    environment: string,
    autoMerge: bool,
    requiredContexts: seq<string>,
    productionEnvironment: bool,
    transientEnvironment: bool)

  /**
   * Parameters of `repos.createDeploymentStatus`. `deploymentId` is `None` when the
   * value sent is not a number (`undefined`, or `NaN` from `parseInt`); an optional
   * URL is `None` when the property is absent from the request.
   */
  datatype StatusRequest = StatusRequest(
    owner: string,
    repo: string,
    deploymentId: Option<nat>,
    state: DeploymentState,
    environment: string,
    description: string,
    logUrl: Option<string>,
    environmentUrl: Option<string>)

  /** Parameters of `actions.listJobsForWorkflowRun` and `actions.getWorkflowRun`. */
  datatype RunRequest = RunRequest(owner: string, repo: string, runId: nat)

  /** One entry of a run's job list; a `None` conclusion is a job that has not completed. */
  datatype Job = Job(name: string, conclusion: Option<string>)

  /** One API call a step attempted, whatever its answer was. */
  datatype ApiCall =
    | CreateDeployment(deployment: DeploymentRequest)
    | CreateDeploymentStatus(status: StatusRequest)
    | ListJobsForWorkflowRun(run: RunRequest)
    | GetWorkflowRun(run: RunRequest)

  /**
   * The remote API, one operation per endpoint. Each answers a request with a
   * value or fails with a message. A created deployment is `Some(id)`, or
   * `None` when the response carries no `id`; a workflow run is its conclusion.
   */
  datatype Api = Api(
    createDeployment: DeploymentRequest -> Result<Option<nat>>,
    createDeploymentStatus: StatusRequest -> Result<()>,
    listJobsForWorkflowRun: RunRequest -> Result<seq<Job>>,
    getWorkflowRun: RunRequest -> Result<Option<string>>)

  /** How a step ends: normally, or through `core.setFailed(message)`. */
  datatype Exit = Passed | Failed(message: string)

  /**
   * Everything a step does that is visible afterwards: the API calls it made in
   * order, its outputs, the state store it leaves, its warnings and its exit.
   */
  datatype Step = Step(
    calls: seq<ApiCall>,
    outputs: StringMap,
    store: StringMap,
    warnings: seq<string>,
    exit: Exit)

  /** A call that put a status on deployment `id`: a status request for `id` that the API accepted. */
  predicate Records(c: ApiCall, id: nat, api: Api) {
    && c.CreateDeploymentStatus?
    && c.status.deploymentId == Some(id)
    && api.createDeploymentStatus(c.status).Ok?
  }

  /**
   * The statuses deployment `id` holds after a sequence of calls, in order: one
   * per status request for `id` that the API accepted. A refused request adds
   * nothing.
   */
  function StatusLog(calls: seq<ApiCall>, id: nat, api: Api): seq<DeploymentState> {
    if calls == [] then []
    else
      (if Records(calls[0], id, api) then [calls[0].status.state] else [])
      + StatusLog(calls[1..], id, api)
  }

  /** The status log of two call sequences run one after the other is the concatenation of their logs. */
  lemma {:induction false} StatusLogAppend(a: seq<ApiCall>, b: seq<ApiCall>, id: nat, api: Api)
    ensures StatusLog(a + b, id, api) == StatusLog(a, id, api) + StatusLog(b, id, api)
  {
    if a == [] {
      assert a + b == b;
    } else {
      assert (a + b)[0] == a[0];
      assert (a + b)[1..] == a[1..] + b;
      StatusLogAppend(a[1..], b, id, api);
    }
  }

  /** Calls that create no deployment status leave no trace in any deployment's status log. */
  lemma {:induction false} StatusLogWithoutStatusCalls(calls: seq<ApiCall>, id: nat, api: Api)
    requires forall k :: 0 <= k < |calls| ==> !calls[k].CreateDeploymentStatus?
    ensures StatusLog(calls, id, api) == []
  {
    if calls != [] {
      assert forall k :: 0 <= k < |calls[1..]| ==> calls[1..][k] == calls[k + 1];
      StatusLogWithoutStatusCalls(calls[1..], id, api);
    }
  }

  /** A single call adds its state to the log of `id` exactly when it put a status on `id`. */
  lemma StatusLogSingle(c: ApiCall, id: nat, api: Api)
    ensures StatusLog([c], id, api) == if Records(c, id, api) then [c.status.state] else []
  {
    assert [c][1..] == [];
  }

  /** The end of a step that throws: `core.setFailed("Action failed: " + message)`, nothing written. */
  function Abort(calls: seq<ApiCall>, store: StringMap, message: string): (r: Step)
    ensures r.calls == calls && r.store == store && r.outputs == map[] && r.warnings == []
    ensures r.exit.Failed? && StartsWith(r.exit.message, "Action failed: ")
    ensures r.exit.message[|"Action failed: "|..] == message
  {
    Step(calls, map[], store, [], Failed("Action failed: " + message))
  }
}

/**
 * The "begin" step of the TypeScript action (src/index.ts): resolve inputs,
 * create a deployment, mark it `in_progress` with a link to the run's log,
 * publish outputs and save what the finalize step needs.
 */
module Begin {
  import opened Wrappers
  import opened Platform
  import Decimal

  /** The inputs after `getInputs` has applied its fallbacks. */
  datatype Inputs = Inputs(token: string, ref: string, environment: string, environmentUrl: string)

  /**
   * `getInputs`: each input falls back to the CI environment or to a default.
   * The trailing `|| ""` of the token and ref chains changes nothing, and the
   * environment can never come out empty.
   */
  function GetInputs(inputs: StringMap, env: StringMap): (r: Inputs)
    ensures Get(inputs, "token") != "" ==> r.token == Get(inputs, "token")
    ensures Get(inputs, "token") == "" ==> r.token == Get(env, "GITHUB_TOKEN")
    ensures Get(inputs, "ref") != "" ==> r.ref == Get(inputs, "ref")
    ensures Get(inputs, "ref") == "" && Get(env, "GITHUB_HEAD_REF") != "" ==> r.ref == Get(env, "GITHUB_HEAD_REF")
    ensures Get(inputs, "ref") == "" && Get(env, "GITHUB_HEAD_REF") == "" ==> r.ref == Get(env, "GITHUB_REF")
    ensures r.environment != ""
    ensures Get(inputs, "environment") != "" ==> r.environment == Get(inputs, "environment")
    ensures r.environment == "production" <==> Get(inputs, "environment") in {"", "production"}
    ensures r.environmentUrl == Get(inputs, "environment-url")
  {
    Inputs(
      OrElse(Get(inputs, "token"), OrElse(Get(env, "GITHUB_TOKEN"), "")),
      OrElse(Get(inputs, "ref"), OrElse(Get(env, "GITHUB_HEAD_REF"), OrElse(Get(env, "GITHUB_REF"), ""))),
      OrElse(Get(inputs, "environment"), "production"),
      OrElse(Get(inputs, "environment-url"), ""))
  }

  /** The create-deployment request: never auto-merged, no required contexts, never transient. */
  function DeploymentRequestFor(ctx: Context, i: Inputs): (r: DeploymentRequest)
    ensures r.owner == ctx.owner && r.repo == ctx.repo
    ensures r.ref == i.ref && r.environment == i.environment
    ensures r.productionEnvironment <==> i.environment == "production"
    ensures !r.autoMerge && r.requiredContexts == [] && !r.transientEnvironment
  {
    DeploymentRequest(
      ctx.owner, ctx.repo, i.ref, i.environment,
      autoMerge := false,
      requiredContexts := [],
      productionEnvironment := i.environment == "production",
      transientEnvironment := false)
  }

  /** The page of the current workflow run. */
  function LogUrl(ctx: Context): (url: string)
    ensures var prefix := "https://github.com/" + ctx.owner + "/" + ctx.repo + "/actions/runs/";
      && StartsWith(url, prefix)
      && Decimal.AllDigits(url[|prefix|..])
      && Decimal.ParseInt(url[|prefix|..]) == Some(ctx.runId)
      && url[|prefix|..] == Decimal.FromNat(ctx.runId)
  {
    var prefix := "https://github.com/" + ctx.owner + "/" + ctx.repo + "/actions/runs/";
    var url := prefix + Decimal.FromNat(ctx.runId);
    assert url[..|prefix|] == prefix && url[|prefix|..] == Decimal.FromNat(ctx.runId);
    Decimal.ParseIntFromNat(ctx.runId);
    url
  }

  /** The status that marks a freshly created deployment as in progress. */
  function InProgressRequest(ctx: Context, i: Inputs, id: nat): (r: StatusRequest)
    ensures r.owner == ctx.owner && r.repo == ctx.repo
    ensures r.deploymentId == Some(id) && r.state == InProgress
    ensures r.environment == i.environment && r.description == "Deployment in progress"
    ensures r.logUrl == Some(LogUrl(ctx)) && r.environmentUrl == None
  {
    StatusRequest(
      ctx.owner, ctx.repo, Some(id), InProgress, i.environment, "Deployment in progress",
      logUrl := Some(LogUrl(ctx)),
      environmentUrl := None)
  }

  /** The deployment id a create-deployment answer carries, if it is a usable one. */
  function CreatedId(answer: Result<Option<nat>>): Option<nat> {
    if answer.Ok? then answer.value else None
  }

  const InvalidResponse := "Failed to create deployment: Invalid response"

  /**
   * The `domain` output and the warnings computing it logs. `host` stands for
   * `new URL(u).host`, `None` when the constructor throws.
   */
  function Domain(environmentUrl: string, host: string -> Option<string>): (r: (string, seq<string>))
    ensures environmentUrl == "" ==> r == ("", [])
    ensures r.0 != "" ==> host(environmentUrl) == Some(r.0)
    ensures environmentUrl != "" && host(environmentUrl).Some? ==> r.0 == host(environmentUrl).value
    ensures r.1 != [] <==> environmentUrl != "" && host(environmentUrl).None?
    ensures environmentUrl != "" && host(environmentUrl).None? ==>
      r == ("", ["Failed to parse domain from URL: " + environmentUrl])
    ensures |r.1| <= 1
  {
    if environmentUrl == "" then ("", [])
    else match host(environmentUrl)
      case Some(h) => (h, [])
      case None => ("", ["Failed to parse domain from URL: " + environmentUrl])
  }

  /** The state store after a successful begin: the five keys written, every other key kept. */
  ghost predicate SavedFor(before: StringMap, after: StringMap, id: nat, i: Inputs, logUrl: string) {
    && after.Keys == before.Keys + {DeploymentIdKey, TokenKey, EnvironmentKey, EnvironmentUrlKey, LogUrlKey}
    && after[DeploymentIdKey] == Decimal.FromNat(id)
    && after[TokenKey] == i.token
    && after[EnvironmentKey] == i.environment
    && after[EnvironmentUrlKey] == i.environmentUrl
    && after[LogUrlKey] == logUrl
    && forall k :: k in before && k !in {DeploymentIdKey, TokenKey, EnvironmentKey, EnvironmentUrlKey, LogUrlKey} ==> after[k] == before[k]
  }

  /** `saveState` of the five keys, in source order. */
  function Save(store: StringMap, id: nat, i: Inputs, logUrl: string): (after: StringMap)
    ensures SavedFor(store, after, id, i, logUrl)
  {
    store[DeploymentIdKey := Decimal.FromNat(id)][TokenKey := i.token]
         [EnvironmentKey := i.environment][EnvironmentUrlKey := i.environmentUrl]
         [LogUrlKey := logUrl]
  }

  /** The four step outputs. */
  function Outputs(id: nat, i: Inputs, domain: string): (r: StringMap)
    ensures r.Keys == {"deployment-id", "environment", "url", "domain"}
    ensures r["deployment-id"] == Decimal.FromNat(id) && Decimal.ParseInt(r["deployment-id"]) == Some(id)
    ensures r["environment"] == i.environment && r["url"] == i.environmentUrl && r["domain"] == domain
  {
    Decimal.ParseIntFromNat(id);
    map["deployment-id" := Decimal.FromNat(id), "environment" := i.environment,
        "url" := i.environmentUrl, "domain" := domain]
  }

  /**
   * `run` of the begin step. It fails, leaving the store as it found it, when
   * either API call fails or the deployment comes back without an id; otherwise
   * it has made exactly one create call and one `in_progress` status for the new
   * id and has saved the five keys.
   */
  function Run(ctx: Context, inputs: StringMap, env: StringMap, api: Api,
               host: string -> Option<string>, store: StringMap): (r: Step)
    ensures r.exit.Failed? ==> r.store == store && r.outputs == map[]
    ensures r.exit.Failed? ==> StartsWith(r.exit.message, "Action failed: ")
    ensures 1 <= |r.calls| <= 2
    ensures r.calls[0] == CreateDeployment(DeploymentRequestFor(ctx, GetInputs(inputs, env)))
    ensures var answer := api.createDeployment(r.calls[0].deployment);
      && (answer.Err? ==> r.exit == Failed("Action failed: " + answer.message) && |r.calls| == 1)
      && (answer == Ok(None) ==> r.exit == Failed("Action failed: " + InvalidResponse) && |r.calls| == 1)
      && (|r.calls| == 2 <==> CreatedId(answer).Some?)
    ensures |r.calls| == 2 ==>
      r.calls[1] == CreateDeploymentStatus(InProgressRequest(ctx, GetInputs(inputs, env),
                                                             CreatedId(api.createDeployment(r.calls[0].deployment)).value))
    ensures r.exit.Passed? <==> |r.calls| == 2 && api.createDeploymentStatus(r.calls[1].status).Ok?
    ensures |r.calls| == 2 && api.createDeploymentStatus(r.calls[1].status).Err? ==>
      r.exit == Failed("Action failed: " + api.createDeploymentStatus(r.calls[1].status).message)
    ensures r.exit.Passed? ==>
      var i := GetInputs(inputs, env);
      var id := r.calls[1].status.deploymentId.value;
      && SavedFor(store, r.store, id, i, LogUrl(ctx))
      && r.outputs == Outputs(id, i, Domain(i.environmentUrl, host).0)
      && r.warnings == Domain(i.environmentUrl, host).1
  {
    var i := GetInputs(inputs, env);
    var request := DeploymentRequestFor(ctx, i);
    var create := CreateDeployment(request);
    match api.createDeployment(request)
    case Err(m) => Abort([create], store, m)
    case Ok(None) => Abort([create], store, InvalidResponse)
    case Ok(Some(id)) =>
      var logUrl := LogUrl(ctx);
      var status := InProgressRequest(ctx, i, id);
      var calls := [create, CreateDeploymentStatus(status)];
      match api.createDeploymentStatus(status)
      case Err(m) => Abort(calls, store, m)
      case Ok(_) =>
        var (domain, warnings) := Domain(i.environmentUrl, host);
        Step(calls, Outputs(id, i, domain), Save(store, id, i, logUrl), warnings, Passed)
  }
}

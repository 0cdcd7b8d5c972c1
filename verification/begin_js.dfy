/**
 * The "begin" step of the plain-JavaScript action (index.js): three required
 * inputs, a create call, an `in_progress` status without a log link, one
 * output and four saved keys.
 */
module BeginJs {
  import opened Wrappers
  import opened Platform
  import Decimal
  import Begin

  /** The first required input, in reading order, that is empty. */
  function MissingInput(inputs: StringMap): (r: Option<string>)
    ensures r.None? <==> Get(inputs, "token") != "" && Get(inputs, "ref") != "" && Get(inputs, "environment") != ""
    ensures r.Some? ==> r.value in {"token", "ref", "environment"} && Get(inputs, r.value) == ""
    ensures r == Some("ref") ==> Get(inputs, "token") != ""
    ensures r == Some("environment") ==> Get(inputs, "token") != "" && Get(inputs, "ref") != ""
  {
    if Get(inputs, "token") == "" then Some("token")
    else if Get(inputs, "ref") == "" then Some("ref")
    else if Get(inputs, "environment") == "" then Some("environment")
    else None
  }

  /**
   * The inputs as `run` reads them once all required ones are present; no
   * fallback applies, so each is the value given.
   */
  function ReadInputs(inputs: StringMap): (i: Begin.Inputs)
    requires MissingInput(inputs).None?
    ensures i.token == Get(inputs, "token") && i.ref == Get(inputs, "ref")
    ensures i.environment == Get(inputs, "environment") && i.environmentUrl == Get(inputs, "environment-url")
    ensures i.token != "" && i.ref != "" && i.environment != ""
  {
    Begin.Inputs(Get(inputs, "token"), Get(inputs, "ref"), Get(inputs, "environment"), Get(inputs, "environment-url"))
  }

  /**
   * The status that marks the deployment in progress; the id is whatever the
   * create call returned, `undefined` included, and no log URL is sent.
   */
  function InProgressRequest(ctx: Context, i: Begin.Inputs, id: Option<nat>): (r: StatusRequest)
    ensures r.owner == ctx.owner && r.repo == ctx.repo
    ensures r.deploymentId == id && r.state == InProgress
    ensures r.environment == i.environment && r.description == "Deployment in progress"
    ensures r.logUrl == None && r.environmentUrl == None
  {
    StatusRequest(ctx.owner, ctx.repo, id, InProgress, i.environment, "Deployment in progress",
                  logUrl := None, environmentUrl := None)
  }

  /** How `setOutput` and `saveState` render the id: its numeral, or "" for `undefined`. */
  function IdText(id: Option<nat>): (s: string)
    ensures s == "" <==> id.None?
    ensures id.Some? ==> s == Decimal.FromNat(id.value) && Decimal.ParseInt(s) == id
  {
    match id
    case None => ""
    case Some(n) =>
      Decimal.ParseIntFromNat(n);
      Decimal.FromNat(n)
  }

  /** The store after a successful begin: four keys written, `log-url` not among them. */
  ghost predicate SavedFor(before: StringMap, after: StringMap, id: Option<nat>, i: Begin.Inputs) {
    && after.Keys == before.Keys + {DeploymentIdKey, TokenKey, EnvironmentKey, EnvironmentUrlKey}
    && after[DeploymentIdKey] == IdText(id)
    && after[TokenKey] == i.token
    && after[EnvironmentKey] == i.environment
    && after[EnvironmentUrlKey] == i.environmentUrl
    && forall k :: k in before && k !in {DeploymentIdKey, TokenKey, EnvironmentKey, EnvironmentUrlKey} ==> after[k] == before[k]
  }

  function Save(store: StringMap, id: Option<nat>, i: Begin.Inputs): (after: StringMap)
    ensures SavedFor(store, after, id, i)
    ensures LogUrlKey in after <==> LogUrlKey in store
  {
    store[DeploymentIdKey := IdText(id)][TokenKey := i.token]
         [EnvironmentKey := i.environment][EnvironmentUrlKey := i.environmentUrl]
  }

  /**
   * `run` of the begin step. A missing required input fails it before any
   * call; a failing call fails it with the store untouched; otherwise it made
   * one create call and one `in_progress` status and saved four keys.
   */
  function Run(ctx: Context, inputs: StringMap, api: Api, store: StringMap): (r: Step)
    ensures r.exit.Failed? ==> r.store == store && r.outputs == map[]
    ensures r.exit.Failed? ==> StartsWith(r.exit.message, "Action failed: ")
    ensures MissingInput(inputs).Some? ==>
      r.calls == [] && r.exit == Failed("Action failed: " + ("Input required and not supplied: " + MissingInput(inputs).value))
    ensures MissingInput(inputs).None? ==>
      var i := ReadInputs(inputs);
      var answer := api.createDeployment(Begin.DeploymentRequestFor(ctx, i));
      && 1 <= |r.calls| <= 2
      && r.calls[0] == CreateDeployment(Begin.DeploymentRequestFor(ctx, i))
      && (answer.Err? ==> r.exit == Failed("Action failed: " + answer.message) && |r.calls| == 1)
      && (answer.Ok? ==> r.calls == [r.calls[0], CreateDeploymentStatus(InProgressRequest(ctx, i, answer.value))])
      && (r.exit.Passed? <==> answer.Ok? && api.createDeploymentStatus(InProgressRequest(ctx, i, answer.value)).Ok?)
      && (answer.Ok? && api.createDeploymentStatus(InProgressRequest(ctx, i, answer.value)).Err? ==>
            r.exit == Failed("Action failed: " + api.createDeploymentStatus(InProgressRequest(ctx, i, answer.value)).message))
      && (r.exit.Passed? ==>
            SavedFor(store, r.store, answer.value, i) && r.outputs == map["deployment-id" := IdText(answer.value)])
    ensures r.exit.Passed? ==> (LogUrlKey in r.store <==> LogUrlKey in store)
  {
    match MissingInput(inputs)
    case Some(name) => Abort([], store, "Input required and not supplied: " + name)
    case None =>
      var i := ReadInputs(inputs);
      var request := Begin.DeploymentRequestFor(ctx, i);
      var create := CreateDeployment(request);
      match api.createDeployment(request)
      case Err(m) => Abort([create], store, m)
      case Ok(id) =>
        var status := InProgressRequest(ctx, i, id);
        var calls := [create, CreateDeploymentStatus(status)];
        match api.createDeploymentStatus(status)
        case Err(m) => Abort(calls, store, m)
        case Ok(_) => Step(calls, map["deployment-id" := IdText(id)], Save(store, id, i), [], Passed)
  }
}

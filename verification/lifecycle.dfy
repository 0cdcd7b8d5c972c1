/**
 * The two steps of one job together: begin writes the state store and puts
 * the first status on the deployment, finalize reads the store and sends the
 * terminal status, which the deployment holds only if the API accepts it.
 */
module Lifecycle {
  import opened Wrappers
  import opened Platform
  import Decimal
  import Begin
  import Finalize
  import BeginJs
  import FinalizeJs

  /** The id a successful TypeScript begin saves reads back, in finalize, as the id the API returned. */
  lemma SavedIdRoundTrip(ctx: Context, inputs: StringMap, env: StringMap, api: Api,
                         host: string -> Option<string>, store: StringMap)
    requires Begin.Run(ctx, inputs, env, api, host, store).exit.Passed?
    ensures var b := Begin.Run(ctx, inputs, env, api, host, store);
      && b.calls[1].status.deploymentId.Some?
      && Decimal.ParseInt(Get(b.store, DeploymentIdKey)) == b.calls[1].status.deploymentId
  {
    var b := Begin.Run(ctx, inputs, env, api, host, store);
    Decimal.ParseIntFromNat(b.calls[1].status.deploymentId.value);
  }

  /** A passing TypeScript begin leaves the deployment it created holding one status, `in_progress`. */
  lemma BeginLog(ctx: Context, inputs: StringMap, env: StringMap, api: Api,
                 host: string -> Option<string>, store: StringMap)
    requires Begin.Run(ctx, inputs, env, api, host, store).exit.Passed?
    ensures var b := Begin.Run(ctx, inputs, env, api, host, store);
      StatusLog(b.calls, b.calls[1].status.deploymentId.value, api) == [InProgress]
  {
    var b := Begin.Run(ctx, inputs, env, api, host, store);
    var id := b.calls[1].status.deploymentId.value;
    assert b.calls == [b.calls[0]] + [b.calls[1]];
    StatusLogSingle(b.calls[0], id, api);
    StatusLogSingle(b.calls[1], id, api);
    StatusLogAppend([b.calls[0]], [b.calls[1]], id, api);
  }

  /**
   * The TypeScript finalize with saved state sends one terminal status for the
   * saved id; the deployment gains that status exactly when the API accepts
   * it, and nothing otherwise.
   */
  lemma FinalizeLog(ctx: Context, api: Api, store: StringMap, id: nat)
    requires Finalize.GetSavedState(store).Some?
    requires Decimal.ParseInt(Get(store, DeploymentIdKey)) == Some(id)
    ensures var f := Finalize.Run(ctx, api, store);
      var last := f.calls[|f.calls| - 1].status;
      && last.state.IsTerminal()
      && StatusLog(f.calls, id, api) == (if api.createDeploymentStatus(last).Ok? then [last.state] else [])
  {
    var f := Finalize.Run(ctx, api, store);
    var n := |f.calls|;
    var front := f.calls[..n - 1];
    assert f.calls == front + [f.calls[n - 1]];
    StatusLogWithoutStatusCalls(front, id, api);
    StatusLogSingle(f.calls[n - 1], id, api);
    StatusLogAppend(front, [f.calls[n - 1]], id, api);
  }

  /**
   * What a passing TypeScript begin with a non-empty token hands to finalize:
   * saved state to act on, whose deployment id parses back to the created id,
   * and the resolved environment.
   */
  lemma BeginHandsOver(ctx: Context, inputs: StringMap, env: StringMap, api: Api,
                       host: string -> Option<string>, store: StringMap)
    requires Begin.Run(ctx, inputs, env, api, host, store).exit.Passed?
    requires Begin.GetInputs(inputs, env).token != ""
    ensures var b := Begin.Run(ctx, inputs, env, api, host, store);
      && Finalize.GetSavedState(b.store).Some?
      && Decimal.ParseInt(Get(b.store, DeploymentIdKey)) == b.calls[1].status.deploymentId
      && Finalize.GetSavedState(b.store).value.environment == Begin.GetInputs(inputs, env).environment
  {
    SavedIdRoundTrip(ctx, inputs, env, api, host, store);
  }

  /**
   * A TypeScript begin that passed, with a non-empty token, followed by
   * finalize: the new deployment holds `in_progress`, then the terminal status
   * finalize sends for the saved environment if the API accepts it. A refused
   * final status leaves the deployment `in_progress`.
   */
  lemma BeginThenFinalize(ctx: Context, inputs: StringMap, env: StringMap, api: Api,
                          host: string -> Option<string>, store: StringMap)
    requires Begin.Run(ctx, inputs, env, api, host, store).exit.Passed?
    requires Begin.GetInputs(inputs, env).token != ""
    ensures var b := Begin.Run(ctx, inputs, env, api, host, store);
      var f := Finalize.Run(ctx, api, b.store);
      var id := b.calls[1].status.deploymentId.value;
      var last := f.calls[|f.calls| - 1].status;
      && last.state.IsTerminal()
      && last.environment == Begin.GetInputs(inputs, env).environment
      && StatusLog(b.calls + f.calls, id, api) ==
           [InProgress] + (if api.createDeploymentStatus(last).Ok? then [last.state] else [])
  {
    var b := Begin.Run(ctx, inputs, env, api, host, store);
    var id := b.calls[1].status.deploymentId.value;
    BeginHandsOver(ctx, inputs, env, api, host, store);
    var f := Finalize.Run(ctx, api, b.store);
    BeginLog(ctx, inputs, env, api, host, store);
    FinalizeLog(ctx, api, b.store, id);
    StatusLogAppend(b.calls, f.calls, id, api);
  }

  /**
   * When the TypeScript begin fails on a store with no deployment id, finalize
   * finds nothing to update and makes no call.
   */
  lemma FailedBeginLeavesNothingToFinalize(ctx: Context, inputs: StringMap, env: StringMap, api: Api,
                                           host: string -> Option<string>, store: StringMap)
    requires Get(store, DeploymentIdKey) == ""
    requires Begin.Run(ctx, inputs, env, api, host, store).exit.Failed?
    ensures Finalize.Run(ctx, api, Begin.Run(ctx, inputs, env, api, host, store).store).calls == []
  {
  }

  /**
   * When index.js gets a deployment without an id, it still passes, but it
   * saves an empty deployment id, so post.js makes no call.
   */
  lemma JsBeginWithoutIdLeavesNothingToFinalize(ctx: Context, inputs: StringMap, api: Api,
                                                store: StringMap, env: StringMap)
    requires BeginJs.Run(ctx, inputs, api, store).exit.Passed?
    requires BeginJs.Run(ctx, inputs, api, store).calls[1].status.deploymentId.None?
    ensures FinalizeJs.Run(ctx, api, BeginJs.Run(ctx, inputs, api, store).store, env).calls == []
  {
  }

  /** A passing index.js leaves the deployment it got back holding one status, `in_progress`. */
  lemma JsBeginLog(ctx: Context, inputs: StringMap, api: Api, store: StringMap)
    requires BeginJs.Run(ctx, inputs, api, store).exit.Passed?
    requires BeginJs.Run(ctx, inputs, api, store).calls[1].status.deploymentId.Some?
    ensures var b := BeginJs.Run(ctx, inputs, api, store);
      StatusLog(b.calls, b.calls[1].status.deploymentId.value, api) == [InProgress]
  {
    var b := BeginJs.Run(ctx, inputs, api, store);
    var id := b.calls[1].status.deploymentId.value;
    assert b.calls == [b.calls[0]] + [b.calls[1]];
    StatusLogSingle(b.calls[0], id, api);
    StatusLogSingle(b.calls[1], id, api);
    StatusLogAppend([b.calls[0]], [b.calls[1]], id, api);
  }

  /**
   * post.js with saved state sends one terminal status for the saved id; the
   * deployment gains that status exactly when the API accepts it.
   */
  lemma JsFinalizeLog(ctx: Context, api: Api, store: StringMap, env: StringMap, id: nat)
    requires Finalize.GetSavedState(store).Some?
    requires Decimal.ParseInt(Get(store, DeploymentIdKey)) == Some(id)
    ensures var f := FinalizeJs.Run(ctx, api, store, env);
      var last := f.calls[0].status;
      && last.state.IsTerminal()
      && StatusLog(f.calls, id, api) == (if api.createDeploymentStatus(last).Ok? then [last.state] else [])
  {
    var f := FinalizeJs.Run(ctx, api, store, env);
    StatusLogSingle(f.calls[0], id, api);
    assert f.calls == [f.calls[0]];
  }

  /**
   * index.js that passed with an id, followed by post.js: the deployment
   * holds `in_progress`, then the terminal status post.js sends if the API
   * accepts it; a refused final status leaves it `in_progress`.
   */
  lemma JsBeginThenFinalize(ctx: Context, inputs: StringMap, api: Api, store: StringMap, env: StringMap)
    requires BeginJs.Run(ctx, inputs, api, store).exit.Passed?
    requires BeginJs.Run(ctx, inputs, api, store).calls[1].status.deploymentId.Some?
    ensures var b := BeginJs.Run(ctx, inputs, api, store);
      var f := FinalizeJs.Run(ctx, api, b.store, env);
      var last := f.calls[0].status;
      && last.state.IsTerminal()
      && StatusLog(b.calls + f.calls, b.calls[1].status.deploymentId.value, api) ==
           [InProgress] + (if api.createDeploymentStatus(last).Ok? then [last.state] else [])
  {
    var b := BeginJs.Run(ctx, inputs, api, store);
    var id := b.calls[1].status.deploymentId.value;
    assert Get(b.store, DeploymentIdKey) == BeginJs.IdText(Some(id));
    assert Finalize.GetSavedState(b.store).Some?;
    var f := FinalizeJs.Run(ctx, api, b.store, env);
    JsBeginLog(ctx, inputs, api, store);
    JsFinalizeLog(ctx, api, b.store, env, id);
    StatusLogAppend(b.calls, f.calls, id, api);
  }

  /**
   * Given the same saved state, the two post-steps send the same terminal
   * status when the signal post.js reads names the job status post.ts finds.
   */
  lemma FinalizeVariantsAgree(ctx: Context, api: Api, store: StringMap, env: StringMap)
    requires Finalize.GetSavedState(store).Some?
    requires Get(env, "GITHUB_JOB_STATUS") == Finalize.JobStatusName(Finalize.GetJobStatus(ctx, api).status)
    ensures var ts := Finalize.Run(ctx, api, store);
      var js := FinalizeJs.Run(ctx, api, store, env);
      ts.calls[|ts.calls| - 1] == js.calls[0]
  {
    FinalizeJs.AgreesWithDetermineDeploymentState(Get(env, "GITHUB_JOB_STATUS"));
  }
}

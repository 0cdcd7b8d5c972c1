/**
 * The "finalize" post-step of the plain-JavaScript action (post.js): the job
 * status comes from the `GITHUB_JOB_STATUS` environment variable instead of
 * the API, and every value it does not recognise reads as success.
 */
module FinalizeJs {
  import opened Wrappers
  import opened Platform
  import Decimal
  import Finalize

  /**
   * The state and description for the status signal: an unset or empty signal
   * is "success"; "failure" and "cancelled" are failures; anything else is a
   * success.
   */
  function SignalVerdict(signal: string): (v: Finalize.Verdict)
    ensures v.state.IsTerminal()
    ensures v.state == Failure <==> signal == "failure" || signal == "cancelled"
    ensures v.description == "Deployment cancelled" <==> signal == "cancelled"
    ensures v.description == "Deployment failed" <==> signal == "failure"
    ensures v.state == Success ==> v.description == "Deployment completed successfully"
  {
    var jobStatus := OrElse(signal, "success");
    if jobStatus == "failure" || jobStatus == "cancelled" then
      Finalize.Verdict(Failure, if jobStatus == "cancelled" then "Deployment cancelled" else "Deployment failed")
    else
      Finalize.Verdict(Success, "Deployment completed successfully")
  }

  /**
   * The two post-steps decide alike: on the three job statuses, and on every
   * other string too, since both fall back to success.
   */
  lemma {:induction false} AgreesWithDetermineDeploymentState(signal: string)
    ensures SignalVerdict(signal) == Finalize.DetermineDeploymentState(signal)
  {
    if signal == "success" {
    } else if signal == "failure" {
    } else if signal == "cancelled" {
    } else {
      assert SignalVerdict(signal) == Finalize.SuccessVerdict;
    }
  }

  /** An unrecognised signal reports the deployment as successful. */
  lemma UnknownSignalIsSuccess(signal: string)
    requires !Finalize.IsKnownStatus(signal)
    ensures SignalVerdict(signal) == Finalize.SuccessVerdict
  {
  }

  /**
   * `run` of the post-step. Without a saved id and token it makes no call;
   * otherwise exactly one, a terminal status for the saved id. It always
   * passes and leaves the store alone.
   */
  function Run(ctx: Context, api: Api, store: StringMap, env: StringMap): (r: Step)
    ensures r.exit == Passed
    ensures r.store == store && r.outputs == map[]
    ensures Finalize.GetSavedState(store).None? ==> r.calls == []
    ensures Finalize.GetSavedState(store).Some? ==>
      && |r.calls| == 1
      && r.calls[0].CreateDeploymentStatus?
      && r.calls[0].status.state.IsTerminal()
      && r.calls[0].status.deploymentId == Decimal.ParseInt(Get(store, DeploymentIdKey))
      && r.calls[0].status == Finalize.FinalStatusRequest(ctx, Finalize.GetSavedState(store).value,
                                                          SignalVerdict(Get(env, "GITHUB_JOB_STATUS")))
    ensures r.warnings != [] ==> Finalize.GetSavedState(store).Some? && api.createDeploymentStatus(r.calls[0].status).Err?
  {
    match Finalize.GetSavedState(store)
    case None => Step([], map[], store, [], Passed)
    case Some(saved) =>
      var request := Finalize.FinalStatusRequest(ctx, saved, SignalVerdict(Get(env, "GITHUB_JOB_STATUS")));
      match api.createDeploymentStatus(request)
      case Err(m) => Step([CreateDeploymentStatus(request)], map[], store, ["Failed to update deployment status: " + m], Passed)
      case Ok(_) => Step([CreateDeploymentStatus(request)], map[], store, [], Passed)
  }
}

/**
 * The "finalize" post-step of the TypeScript action (src/post.ts): read the
 * saved state, learn how the job ended from the Actions API, and send one
 * terminal status for the deployment. It never fails the job.
 */
module Finalize {
  import opened Wrappers
  import opened Platform
  import Decimal

  /** The four strings the begin step saved. */
  datatype SavedState = SavedState(deploymentId: string, token: string, environment: string, environmentUrl: string)

  /** How the job ended, as the post-step sees it. */
  datatype JobStatus = JobSuccess | JobFailure | JobCancelled

  /** The text the status is handed on as. */
  function JobStatusName(s: JobStatus): string {
    match s
    case JobSuccess => "success"
    case JobFailure => "failure"
    case JobCancelled => "cancelled"
  }

  /** A terminal state with the description that goes with it. */
  datatype Verdict = Verdict(state: DeploymentState, description: string)

  const SuccessVerdict := Verdict(Success, "Deployment completed successfully")
  const FailureVerdict := Verdict(Failure, "Deployment failed")
  const CancelledVerdict := Verdict(Failure, "Deployment cancelled")

  /**
   * `getSavedState`: nothing to finalize when the deployment id or the token is
   * empty; otherwise the four saved strings as they were stored.
   */
  function GetSavedState(store: StringMap): (r: Option<SavedState>)
    ensures r.None? <==> Get(store, DeploymentIdKey) == "" || Get(store, TokenKey) == ""
    ensures r.Some? ==> r.value.deploymentId == Get(store, DeploymentIdKey) && r.value.token == Get(store, TokenKey)
    ensures r.Some? ==> r.value.environment == Get(store, EnvironmentKey)
    ensures r.Some? ==> r.value.environmentUrl == Get(store, EnvironmentUrlKey)
    ensures r.Some? ==> r.value.deploymentId != "" && r.value.token != ""
  {
    var deploymentId := Get(store, DeploymentIdKey);
    var token := Get(store, TokenKey);
    if deploymentId == "" || token == "" then None
    else Some(SavedState(deploymentId, token, Get(store, EnvironmentKey), Get(store, EnvironmentUrlKey)))
  }

  /**
   * `determineDeploymentState`: the state is always terminal, and it is a
   * failure exactly for "failure" and "cancelled"; any other string, known or
   * not, reports success.
   */
  function DetermineDeploymentState(jobStatus: string): (r: Verdict)
    ensures r.state.IsTerminal()
    ensures r.state == Failure <==> jobStatus == "failure" || jobStatus == "cancelled"
    ensures r.description == "Deployment cancelled" <==> jobStatus == "cancelled"
    ensures r.description == "Deployment failed" <==> jobStatus == "failure"
    ensures r.state == Success ==> r.description == "Deployment completed successfully"
  {
    match jobStatus
    case "success" => SuccessVerdict
    case "failure" => FailureVerdict
    case "cancelled" => CancelledVerdict
    case _ => SuccessVerdict
  }

  /** The statuses `determineDeploymentState` names explicitly. */
  predicate IsKnownStatus(jobStatus: string) {
    jobStatus == "success" || jobStatus == "failure" || jobStatus == "cancelled"
  }

  /** The verdict each job status deserves, with no fallback case. */
  function VerdictOf(s: JobStatus): Verdict {
    match s
    case JobSuccess => SuccessVerdict
    case JobFailure => FailureVerdict
    case JobCancelled => CancelledVerdict
  }

  /**
   * What `run` hands to `determineDeploymentState` always has its own case:
   * the fallback is unreachable, and the deployment is reported successful
   * exactly when the job status is success.
   */
  lemma DetermineOnJobStatus(s: JobStatus)
    ensures IsKnownStatus(JobStatusName(s))
    ensures DetermineDeploymentState(JobStatusName(s)) == VerdictOf(s)
    ensures DetermineDeploymentState(JobStatusName(s)).state == Success <==> s == JobSuccess
  {
    match s
    case JobSuccess =>
    case JobFailure =>
    case JobCancelled =>
  }

  /**
   * A job or run conclusion as a job status: "success", "failure" and
   * "timed_out", "cancelled"; anything else, `null` included, is a failure.
   */
  function MapConclusion(conclusion: Option<string>): (r: JobStatus)
    ensures r == JobSuccess <==> conclusion == Some("success")
    ensures r == JobCancelled <==> conclusion == Some("cancelled")
    ensures conclusion == Some("timed_out") ==> r == JobFailure
  {
    match conclusion
    case Some("success") => JobSuccess
    case Some("failure") => JobFailure
    case Some("timed_out") => JobFailure
    case Some("cancelled") => JobCancelled
    case _ => JobFailure
  }

  /** The conclusion values the mapping names explicitly. */
  predicate IsKnownConclusion(c: string) {
    c == "success" || c == "failure" || c == "timed_out" || c == "cancelled"
  }

  /** The job `run` is looking for: the current job, once it has concluded. */
  predicate IsMainJob(job: Job, name: string) {
    job.name == name && job.conclusion.Some?
  }

  /** `jobs.find(...)`: the index of the first main job, if any. */
  function FindMainJob(jobs: seq<Job>, name: string): (r: Option<nat>)
    ensures r.None? <==> forall k :: 0 <= k < |jobs| ==> !IsMainJob(jobs[k], name)
    ensures r.Some? ==> r.value < |jobs| && IsMainJob(jobs[r.value], name)
    ensures r.Some? ==> forall k :: 0 <= k < r.value ==> !IsMainJob(jobs[k], name)
  {
    if jobs == [] then None
    else if IsMainJob(jobs[0], name) then Some(0)
    else match FindMainJob(jobs[1..], name)
      case None => None
      case Some(k) => Some(k + 1)
  }

  /** The job status `getJobStatus` settles on, the calls it made and its warnings. */
  datatype Probe = Probe(status: JobStatus, calls: seq<ApiCall>, warnings: seq<string>)

  /** JavaScript's rendering of a conclusion in a template string. */
  function ConclusionText(c: Option<string>): string {
    match c
    case Some(s) => s
    case None => "null"
  }

  function RunRequestFor(ctx: Context): RunRequest {
    RunRequest(ctx.owner, ctx.repo, ctx.runId)
  }

  /** The run-level fallback of `getJobStatus`, after no main job was found. */
  function RunFallback(ctx: Context, api: Api, listed: ApiCall): (p: Probe)
    ensures p.calls == [listed, GetWorkflowRun(RunRequestFor(ctx))]
    ensures api.getWorkflowRun(RunRequestFor(ctx)).Err? ==> p.status == JobFailure
    ensures api.getWorkflowRun(RunRequestFor(ctx)).Ok? ==>
      p.status == MapConclusion(api.getWorkflowRun(RunRequestFor(ctx)).value)
  {
    var missing := "Could not find completed main job, checking workflow run status";
    var calls := [listed, GetWorkflowRun(RunRequestFor(ctx))];
    match api.getWorkflowRun(RunRequestFor(ctx))
    case Err(m) => Probe(JobFailure, calls, [missing, "Failed to get job status: " + m])
    case Ok(c) => Probe(MapConclusion(c), calls, [missing, "Workflow conclusion: " + ConclusionText(c)])
  }

  /**
   * `getJobStatus`: the conclusion of the first concluded job named like the
   * current one; failing that, the conclusion of the whole run; any failed
   * lookup is a failure. It only reads: it never creates anything.
   */
  function GetJobStatus(ctx: Context, api: Api): (p: Probe)
    ensures 1 <= |p.calls| <= 2
    ensures p.calls[0] == ListJobsForWorkflowRun(RunRequestFor(ctx))
    ensures forall k :: 0 <= k < |p.calls| ==> p.calls[k].ListJobsForWorkflowRun? || p.calls[k].GetWorkflowRun?
    ensures var listed := api.listJobsForWorkflowRun(RunRequestFor(ctx));
      && (listed.Err? ==> p.status == JobFailure && |p.calls| == 1)
      && (listed.Ok? && FindMainJob(listed.value, ctx.job).Some? ==>
            p.status == MapConclusion(listed.value[FindMainJob(listed.value, ctx.job).value].conclusion)
            && |p.calls| == 1)
      && (listed.Ok? && FindMainJob(listed.value, ctx.job).None? ==>
            p == RunFallback(ctx, api, p.calls[0]))
  {
    var listed := ListJobsForWorkflowRun(RunRequestFor(ctx));
    match api.listJobsForWorkflowRun(RunRequestFor(ctx))
    case Err(m) => Probe(JobFailure, [listed], ["Failed to get job status: " + m])
    case Ok(jobs) =>
      match FindMainJob(jobs, ctx.job)
      case None => RunFallback(ctx, api, listed)
      case Some(k) =>
        var c := jobs[k].conclusion;
        var warnings := if c.Some? && IsKnownConclusion(c.value) then []
                        else ["Unknown job conclusion: " + ConclusionText(c) + ", assuming failure"];
        Probe(MapConclusion(c), [listed], warnings)
  }

  /**
   * The terminal status request: the id is `parseInt(deploymentId, 10)`, and
   * `environment_url` is attached exactly when a URL was saved and the state is
   * success.
   */
  function FinalStatusRequest(ctx: Context, saved: SavedState, v: Verdict): (r: StatusRequest)
    ensures r.owner == ctx.owner && r.repo == ctx.repo
    ensures r.deploymentId == Decimal.ParseInt(saved.deploymentId)
    ensures r.state == v.state && r.description == v.description
    ensures r.environment == saved.environment && r.logUrl == None
    ensures r.environmentUrl.Some? <==> saved.environmentUrl != "" && v.state == Success
    ensures r.environmentUrl.Some? ==> r.environmentUrl.value == saved.environmentUrl
  {
    StatusRequest(
      ctx.owner, ctx.repo, Decimal.ParseInt(saved.deploymentId), v.state, saved.environment, v.description,
      logUrl := None,
      environmentUrl := if saved.environmentUrl != "" && v.state == Success then Some(saved.environmentUrl) else None)
  }

  /**
   * `run` of the post-step. Without saved state it makes no call; otherwise its
   * last call, and its only status call, is one terminal status for the saved
   * id. Whatever the API does, the step passes and leaves the store alone.
   */
  function Run(ctx: Context, api: Api, store: StringMap): (r: Step)
    ensures r.exit == Passed
    ensures r.store == store && r.outputs == map[]
    ensures GetSavedState(store).None? ==> r.calls == []
    ensures GetSavedState(store).Some? ==>
      && 2 <= |r.calls| <= 3
      && r.calls[|r.calls| - 1].CreateDeploymentStatus?
      && r.calls[|r.calls| - 1].status.state.IsTerminal()
      && r.calls[|r.calls| - 1].status.deploymentId == Decimal.ParseInt(Get(store, DeploymentIdKey))
      && forall k :: 0 <= k < |r.calls| - 1 ==> !r.calls[k].CreateDeploymentStatus?
    ensures GetSavedState(store).Some? ==>
      var probe := GetJobStatus(ctx, api);
      r.calls == probe.calls +
        [CreateDeploymentStatus(FinalStatusRequest(ctx, GetSavedState(store).value,
                                                   DetermineDeploymentState(JobStatusName(probe.status))))]
  {
    match GetSavedState(store)
    case None => Step([], map[], store, [], Passed)
    case Some(saved) =>
      var probe := GetJobStatus(ctx, api);
      var verdict := DetermineDeploymentState(JobStatusName(probe.status));
      var request := FinalStatusRequest(ctx, saved, verdict);
      var calls := probe.calls + [CreateDeploymentStatus(request)];
      match api.createDeploymentStatus(request)
      case Err(m) => Step(calls, map[], store, probe.warnings + ["Failed to update deployment status: " + m], Passed)
      case Ok(_) => Step(calls, map[], store, probe.warnings, Passed)
  }

  /**
   * The deployment is reported successful exactly when the platform said the
   * job succeeded: the first concluded job of this name concluded "success",
   * or there was none and the run concluded "success".
   */
  lemma SuccessOnlyWhenJobSucceeded(ctx: Context, api: Api, store: StringMap)
    requires GetSavedState(store).Some?
    ensures var r := Run(ctx, api, store);
      var listed := api.listJobsForWorkflowRun(RunRequestFor(ctx));
      var run := api.getWorkflowRun(RunRequestFor(ctx));
      r.calls[|r.calls| - 1].status.state == Success <==>
        && listed.Ok?
        && match FindMainJob(listed.value, ctx.job)
           case Some(k) => listed.value[k].conclusion == Some("success")
           case None => run == Ok(Some("success"))
  {
    DetermineOnJobStatus(GetJobStatus(ctx, api).status);
  }
}

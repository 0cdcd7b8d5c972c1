# deployment-actions, modelled in Dafny

The repository is a pair of GitHub Actions steps, each written twice: a
TypeScript pair (`src/index.ts`, `src/post.ts`) and an older plain-JavaScript
pair (`index.js`, `post.js`).

- **Begin** (`index`) creates a deployment and marks it `in_progress`. It then
  publishes step outputs and saves a few strings in the job's cross-invocation
  state store.
- **Finalize** (`post`) reads those strings back and works out how the job
  ended. It then sends one terminal status, `success` or `failure`, for the
  same deployment. It never fails the job.

This model treats each step as a pure transition. The inputs are:

- the action inputs and the environment variables, as string maps;
- the run context (owner, repo, run id, job name);
- the remote API, given as a record of operations that each answer or fail;
- the state store, as a string map.

The result is a `Platform.Step`: the API calls made, in order, plus the outputs,
the store left behind, the warnings and how the step exited.

Modules:

- `Wrappers`: `Option` (JavaScript `null`/`undefined`) and `Result` (a value, or the message of a thrown `Error`).
- `Decimal`: `n.toString()` and `parseInt(s, 10)` for deployment ids, and their round trip.
- `Platform`: the context, requests, call log, API record and state-store keys. It also defines the status log: the statuses a deployment holds, one for each status request for it that the API accepted.
- `Begin`, `Finalize`: the TypeScript steps.
- `BeginJs`, `FinalizeJs`: the JavaScript steps.
- `Lifecycle`: begin followed by finalize, and how the two variants compare.

Facts about the code worth knowing:

- In `post.js`, an unrecognised `GITHUB_JOB_STATUS` value reports the deployment as a **success**, with no warning.
- `index.js` does not save `log-url` and sends no log URL. Only `src/index.ts` does both.
- `determineDeploymentState` (`src/post.ts`) and the `post.js` mapping agree on **every** string, not only the three job statuses. Both fall back to success. What differs is where the status comes from. `src/post.ts` maps unknown conclusions to failure before the fallback is reached. `post.js` feeds the raw environment value straight in.

## Model

| member | source | states |
|---|---|---|
| Decimal.FromNat | src/index.ts:86 | `deploymentId.toString()` is never empty and is all digits; it starts with "0" only when the id is 0, and is then exactly "0" |
| Decimal.ParseInt | src/post.ts:155 | `parseInt` is NaN exactly when the text does not start with a digit; on an all-digit string it is that string's value |
| Decimal.ParseIntFromNat | src/post.ts:155 | reading the saved id with `parseInt(…, 10)` gives back the id that `toString()` wrote |
| Begin.GetInputs | src/index.ts:11-27 | token is the input, else `GITHUB_TOKEN`; ref is the input, else `GITHUB_HEAD_REF`, else `GITHUB_REF`; the trailing empty-string default changes nothing; environment is never empty and is "production" exactly when the input is unset or "production"; the URL defaults to "" |
| Begin.DeploymentRequestFor | src/index.ts:38-47 | `production_environment` holds exactly when the environment is "production"; `auto_merge` and `transient_environment` are false; `required_contexts` is empty; ref and environment are the resolved inputs |
| Begin.Domain | src/index.ts:74-83 | an empty URL gives domain "" and no warning; a URL that does not parse gives "" and exactly one warning, "Failed to parse domain from URL: <url>"; otherwise the domain is the parsed host, with no warning |
| Begin.LogUrl | src/index.ts:61 | the log URL is `https://github.com/<owner>/<repo>/actions/runs/` followed by exactly the run id's numeral, which reads back as the run id |
| Begin.InProgressRequest | src/index.ts:64-72 | the first status is `in_progress` for the created id, with description "Deployment in progress", the resolved environment, the run's log URL and no environment URL |
| Begin.Outputs | src/index.ts:86-89 | exactly four outputs: deployment-id (exactly the id's numeral, which reads back as the id), environment, url (the raw environment URL) and domain |
| Begin.Save | src/index.ts:91-96 | the store gains exactly the five keys (deployment-id as the id's numeral, token, environment, environment-url, log-url); every other key keeps its value |
| Platform.Abort | src/index.ts:97-101 | a step that throws ends with "Action failed: " followed by the error's message, makes no further call, and writes no output, state or warning |
| Begin.Run | src/index.ts:29-102 | a failed create call, or a response without an id, fails the step with "Action failed: " and that error's message after one call; a failed status call fails it with "Action failed: " and that call's message; otherwise exactly one `in_progress` status with the run's log URL follows for the new id; the step passes exactly when that status call succeeds; on failure the store and outputs are untouched; on success the five keys and four outputs are written |
| Finalize.GetSavedState | src/post.ts:13-29 | nothing to finalize exactly when deployment-id or token is empty; otherwise the four stored strings, unchanged |
| Finalize.DetermineDeploymentState | src/post.ts:31-58 | the state is always terminal; it is failure exactly for "failure" and "cancelled", each with its own description; every other string, unknown ones included, is success with "Deployment completed successfully" |
| Finalize.DetermineOnJobStatus | src/post.ts:144-145 | the job status `run` passes in always has its own case, so the success fallback is unreachable; the verdict is success exactly when the job status is success |
| Finalize.MapConclusion | src/post.ts:92-119 | a conclusion maps to success exactly for "success" and to cancelled exactly for "cancelled"; "timed_out", "failure", null and anything else map to failure |
| Finalize.FindMainJob | src/post.ts:74-76 | finds the first job with the current job's name and a non-null conclusion, or none exactly when no such job exists |
| Finalize.RunFallback | src/post.ts:78-103 | with no main job, the run's conclusion is fetched and mapped the same way; a failed fetch is a failure |
| Finalize.GetJobStatus | src/post.ts:60-128 | the job list is always queried first; a failed lookup is a failure; a found main job decides by its conclusion; otherwise the run conclusion decides; only read calls are made |
| Finalize.FinalStatusRequest | src/post.ts:152-165 | the request goes to the context's owner and repo; the id sent is `parseInt` of the saved id; state and description are the verdict's; the environment is the saved one; `environment_url` is present exactly when a URL was saved and the state is success; no log URL |
| Finalize.Run | src/post.ts:130-178 | always passes and leaves the store alone; with no saved state it makes no call; otherwise its last call, and its only status call, is one terminal status for the parsed saved id |
| Finalize.SuccessOnlyWhenJobSucceeded | src/post.ts:60-145 | finalize reports success exactly when the first concluded job of this name concluded "success", or when there is no such job and the run concluded "success" |
| BeginJs.MissingInput | index.js:7-9 | reports the first of token, ref and environment, in that order, that is empty; reports none exactly when all three are present |
| BeginJs.ReadInputs | index.js:7-10 | with the required inputs present, each input is taken as given, with no fallback |
| BeginJs.InProgressRequest | index.js:32-39 | the first status is `in_progress` for whatever id the create call returned, with description "Deployment in progress", the environment input, and neither a log URL nor an environment URL |
| BeginJs.IdText | index.js:42-45 | a present id is written as exactly its numeral, which `parseInt` reads back; a missing id is written as "" |
| BeginJs.Save | index.js:45-48 | the store gains exactly deployment-id, token, environment and environment-url; log-url is not written |
| BeginJs.Run | index.js:4-53 | a missing required input fails the step before any call; a failing call fails it with "Action failed: " and that call's error message, leaving the store untouched; otherwise one create call and one `in_progress` status (no log URL) for the returned id; on success the four keys and the deployment-id output are written |
| FinalizeJs.SignalVerdict | post.js:23-30 | an unset signal counts as success; "failure" and "cancelled" are failures with their own descriptions; every other value is a success |
| FinalizeJs.AgreesWithDetermineDeploymentState | post.js:24-30 | the `post.js` mapping equals `determineDeploymentState` on every string, the three job statuses included |
| FinalizeJs.UnknownSignalIsSuccess | post.js:23-30 | a signal other than the three job statuses reports success |
| FinalizeJs.Run | post.js:4-57 | always passes and leaves the store alone; with no saved id or token it makes no call; otherwise exactly one terminal status for `parseInt` of the saved id; `environment_url` follows the success rule; a warning appears only when that call fails |
| Lifecycle.SavedIdRoundTrip | src/index.ts:92 | the deployment-id a passing begin saves parses back to the id the API returned |
| Lifecycle.BeginLog | src/index.ts:38-72 | a passing begin leaves its new deployment holding exactly one status, `in_progress` |
| Lifecycle.BeginHandsOver | src/index.ts:91-96 | a passing begin with a non-empty token leaves saved state that finalize acts on; its deployment id parses back to the created id, and its environment is the resolved one |
| Lifecycle.FinalizeLog | src/post.ts:144-177 | finalize with saved state sends one terminal status for the saved id; the deployment gains that status exactly when the API accepts the call, and nothing when the call fails and the error is swallowed |
| Lifecycle.BeginThenFinalize | src/post.ts:132-177 | a passing begin with a non-empty token, then finalize: the deployment holds `in_progress`, followed by the terminal status finalize sends for the saved environment exactly when the API accepts it; a refused final status leaves it `in_progress` |
| Lifecycle.FailedBeginLeavesNothingToFinalize | src/index.ts:97-101 | when begin fails and the store had no deployment id, finalize makes no call |
| Lifecycle.JsBeginWithoutIdLeavesNothingToFinalize | index.js:28-45 | when `index.js` gets a deployment without an id, it saves an empty deployment-id, and `post.js` then makes no call |
| Lifecycle.JsBeginLog | index.js:17-39 | a passing `index.js` with an id leaves that deployment holding exactly one status, `in_progress` |
| Lifecycle.JsFinalizeLog | post.js:12-56 | `post.js` with saved state sends one terminal status for the parsed saved id; the deployment gains it exactly when the API accepts the call |
| Lifecycle.JsBeginThenFinalize | post.js:12-56 | `index.js` passing with an id, then `post.js`: the deployment holds `in_progress`, followed by the terminal status exactly when the API accepts it; a refused final status leaves it `in_progress` |
| Lifecycle.FinalizeVariantsAgree | post.js:24-30 | given the same saved state, both post-steps send the same terminal status when `GITHUB_JOB_STATUS` names the job status that `src/post.ts` finds |

## Left out

- The GitHub REST API and Octokit: each endpoint is an abstract operation (`Platform.Api`) that answers or fails. A call is logged whether it succeeds or not.
- `github.getOctokit(token)`: client construction is treated as infallible. In particular, the model does not capture that `@actions/github` refuses an empty token; that library is not part of this model. This is why `Lifecycle.BeginThenFinalize` assumes a non-empty token.
- `@actions/core`:
  - Inputs, outputs, state and the environment are plain string maps, and an unset key reads as "".
  - `getInput`'s whitespace trimming is not modelled.
  - The "Input required and not supplied: <name>" text that `BeginJs.Run` produces is `@actions/core`'s message, reproduced as is.
  - Info log lines are omitted; warnings are kept.
- WHATWG `new URL(u).host` is a parameter `host: string -> Option<string>`, with `None` when the constructor throws. Only the empty and failure cases are specified.
- Decimal.ParseInt: models `parseInt` only for text without leading blanks, a sign or a `0x` prefix. The radix-less call in `post.js` behaves the same on such text.
- Ids beyond 2^53 lose precision as JavaScript numbers. The model treats ids as unbounded naturals.
- Thrown values that are not `Error` instances ("Unknown error occurred"): every failure in the model carries a message.
- async/Promise sequencing: each step is one sequential transition.
- Running finalize twice: the source has no guard against it, so the model claims no idempotence. A second run would append a second terminal status.

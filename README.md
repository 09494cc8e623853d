# Automated rollback controller, modelled in Dafny

The rollback service receives Alertmanager webhook deliveries. When a batch
holds a firing alert of severity `critical` or `warning`, it redeploys the
known-good image `app:v1` over the candidate image `app:v2` with
`docker-compose` (or `docker compose`). It records the stable image as
current only when the tool exits with 0. When the stable image is already
current, it answers "already stable" and starts nothing.

The model has four modules:

- `AlertPolicy` (`alert_policy.dfy`) holds the alert records and the policy.
  Firing alerts are filtered, missing `labels` or `severity` reads as `""`,
  and the result is one of three decisions. Each decision is proved equivalent
  to an independent definition over the alert batch.
- `DeployExecutor` (`deploy_executor.dfy`) holds tool selection, the compose
  command, the `APP_IMAGE` environment update and the "not found" sentinel
  `(127, "", "docker-compose (or docker) not found in PATH")`.
- `RollbackController` (`rollback_controller.dfy`) holds one webhook call as a
  function `Step` and the class `Controller`. The class owns the mutable
  `currentImage` field, which starts as `app:v2`. Its method
  `HandleAlertBatch` is proved equal to `Step`. `Replay` runs deliveries one
  after another. Lemmas over `Replay` prove that the stable image is
  absorbing, that a successful rollback is idempotent, that at most one
  delivery rolls back, and that batches which do not qualify change nothing.
- `Scenarios` (`scenarios.dfy`) checks concrete deliveries: critical, resolved,
  info, a failing tool, a missing `alerts` field, and the same alert sent
  twice to a fresh controller.

Each external call is a parameter:

- `shutil.which` becomes the set of binaries on the PATH (`Host.path`).
- `os.environ` becomes `Host.env`.
- The compose directory becomes `Host.composeDir`.
- `subprocess.run` becomes the `ProcessResult` the tool would report if
  started. The model records which `Invocation` (argv, cwd, env) was started,
  so "the tool is never started" can be stated.

Points where the model follows the handler's exact behaviour:

- A batch with firing alerts but no critical or warning one answers
  `NoActionTaken`, the handler's "no action taken".
- The state is a plain field, read and then written by the same call.
- An exception raised by `subprocess.run` is not caught (see "Left out").
- When no tool is found, the executor returns exit code 127. The controller
  treats it like any nonzero code, which gives `Failed("", <message>)`.

## Model

| member | source | states |
|---|---|---|
| `AlertPolicy.AlertsOf` | devops-rollback-demo/rollback_service/rollback_service.py:49 | a payload without `alerts` is the empty batch; otherwise its alerts as given |
| `AlertPolicy.FiringAlerts` | devops-rollback-demo/rollback_service/rollback_service.py:50 | every alert kept by the filter is firing, so an alert without a status is never kept, and the filter never grows the batch |
| `AlertPolicy.FiringAlertsFromBatch` | devops-rollback-demo/rollback_service/rollback_service.py:50 | every kept alert comes from the batch |
| `AlertPolicy.FiringAlertsKeepsFiring` | devops-rollback-demo/rollback_service/rollback_service.py:50 | every alert whose status is `firing` is kept |
| `AlertPolicy.FiringAlertsSingle` | devops-rollback-demo/rollback_service/rollback_service.py:50 | a one-alert batch keeps its alert exactly when it is firing |
| `AlertPolicy.FiringAlertsConcat` | devops-rollback-demo/rollback_service/rollback_service.py:50 | filtering two batches joined is the two filtered batches joined, so the filter keeps order and multiplicity like the comprehension |
| `AlertPolicy.NoFiringIffEmpty` | devops-rollback-demo/rollback_service/rollback_service.py:50-51 | the firing list is empty exactly when no alert of the batch is firing |
| `AlertPolicy.Severities` | devops-rollback-demo/rollback_service/rollback_service.py:55 | one severity per firing alert, position by position, `""` when `labels` or `severity` is missing |
| `AlertPolicy.ActionableIffQualifies` | devops-rollback-demo/rollback_service/rollback_service.py:55-58 | `'critical' in severities or 'warning' in severities` holds exactly when some firing alert of the batch is critical or warning |
| `AlertPolicy.ActionableSeverityQualifies` | devops-rollback-demo/rollback_service/rollback_service.py:55-58 | an actionable entry of the severity list comes from a firing alert of the batch |
| `AlertPolicy.QualifyingHasActionableSeverity` | devops-rollback-demo/rollback_service/rollback_service.py:55-58 | a firing critical or warning alert puts its severity in the list |
| `AlertPolicy.Evaluate` | devops-rollback-demo/rollback_service/rollback_service.py:50-58 | NoFiring iff no alert is firing; ActionRequired iff some firing alert is critical or warning; otherwise NoActionRequired |
| `AlertPolicy.MissingSeverityIsInert` | devops-rollback-demo/rollback_service/rollback_service.py:55-58 | removing an alert that has no `labels` or no `severity` from the batch (the later alerts shift down by one) never changes whether the batch qualifies, so such an alert never triggers action |
| `AlertPolicy.QualifiesWithout` | devops-rollback-demo/rollback_service/rollback_service.py:55-58 | a batch that qualifies still does without an alert of empty severity |
| `AlertPolicy.QualifiesWith` | devops-rollback-demo/rollback_service/rollback_service.py:55-58 | adding an alert never stops a batch from qualifying |
| `DeployExecutor.PathJoin` | devops-rollback-demo/rollback_service/rollback_service.py:32 | POSIX join of a directory and a relative file name: the directory, then a `/` unless it is empty or already ends in one, then the file name |
| `DeployExecutor.FindComposeCmd` | devops-rollback-demo/rollback_service/rollback_service.py:14-22 | the chosen binary is on the PATH; the prefix is `docker-compose` or `docker compose`; `docker compose` only when `docker-compose` is absent; none exactly when both are absent |
| `DeployExecutor.WithImage` | devops-rollback-demo/rollback_service/rollback_service.py:25-26 | `APP_IMAGE` maps to the image, and every other key is present and bound as in the host environment |
| `DeployExecutor.ComposeInvocation` | devops-rollback-demo/rollback_service/rollback_service.py:24-32 | no invocation exactly when no tool is found; otherwise argv is the prefix followed by `-f <dir>/docker-compose.yml up -d --no-deps --force-recreate app`, cwd is the compose directory, and env is the host env with `APP_IMAGE` set |
| `DeployExecutor.RunComposeWithImage` | devops-rollback-demo/rollback_service/rollback_service.py:24-35 | starts exactly `ComposeInvocation`, whose binary is on the PATH; returns the sentinel `(127, "", "docker-compose (or docker) not found in PATH")` when nothing is started, else the process's code, stdout and stderr |
| `RollbackController.Step` | devops-rollback-demo/rollback_service/rollback_service.py:49-76 | no firing alert gives NoFiringAlerts; firing alerts without critical or warning give NoActionTaken; a qualifying batch on the stable image gives AlreadyStable; in all three, no tool is started and the image is unchanged. Otherwise the redeploy target is always `app:v1`: exit 0 gives RolledBack(app:v1, stdout) and the stable image; a nonzero code gives Failed(stdout, stderr) and leaves the image; a missing tool gives Failed("", message). The image changes only by a rollback to `app:v1` |
| `RollbackController.Replay` | devops-rollback-demo/rollback_service/rollback_service.py:59-76 | over any sequence of serialised deliveries, the current image is always the initial one or `app:v1`, and every started invocation deploys `app:v1` |
| `RollbackController.StableIsAbsorbing` | devops-rollback-demo/rollback_service/rollback_service.py:60-62 | from the stable image, every later delivery keeps it, none starts the tool, and every qualifying one answers AlreadyStable |
| `RollbackController.RollbackIsIdempotent` | devops-rollback-demo/rollback_service/rollback_service.py:59-71 | from a non-stable image (the initial `app:v2` included), a qualifying delivery whose run exits 0 rolls back. The tool is then started exactly once, and every later qualifying delivery answers AlreadyStable |
| `RollbackController.QuietAfterRollbackCons` | devops-rollback-demo/rollback_service/rollback_service.py:60-70 | prepending an outcome keeps "only informational outcomes after a rollback" |
| `RollbackController.AtMostOneRollback` | devops-rollback-demo/rollback_service/rollback_service.py:59-73 | in any order of deliveries, after a RolledBack outcome every later outcome is informational, so at most one delivery rolls back |
| `RollbackController.InertStep` | devops-rollback-demo/rollback_service/rollback_service.py:50-58 | a delivery that does not qualify starts nothing, keeps the image, and answers NoFiringAlerts or NoActionTaken |
| `RollbackController.InertBatchesChangeNothing` | devops-rollback-demo/rollback_service/rollback_service.py:50-76 | a run of deliveries none of which qualifies never starts the tool, never changes the image, and gets only NoFiringAlerts or NoActionTaken |
| `RollbackController.Controller.constructor` | devops-rollback-demo/rollback_service/rollback_service.py:12 | the controller starts with `app:v2` current and no tool started |
| `RollbackController.Controller.HandleAlertBatch` | devops-rollback-demo/rollback_service/rollback_service.py:49-76 | the outcome, the new `currentImage` and the invocations started are exactly those of `Step` from the old image |
| `Scenarios.CriticalAlertRollsBack` | devops-rollback-demo/rollback_service/rollback_service.py:58-71 | one firing critical alert on `app:v2`, with a tool that exits 0, rolls back to `app:v1` and reports the tool's stdout |
| `Scenarios.ResolvedAlertIsIgnored` | devops-rollback-demo/rollback_service/rollback_service.py:50-53 | a resolved critical alert gives NoFiringAlerts with nothing changed |
| `Scenarios.InfoAlertTakesNoAction` | devops-rollback-demo/rollback_service/rollback_service.py:55-58 | a firing `info` alert gives NoActionTaken with nothing changed |
| `Scenarios.ComposeErrorIsReported` | devops-rollback-demo/rollback_service/rollback_service.py:63-73 | a tool that exits 1 with stderr "compose error" gives Failed("", "compose error") and leaves `app:v2` current |
| `Scenarios.NoToolIsReported` | devops-rollback-demo/rollback_service/rollback_service.py:27-29 | with an empty PATH, a critical alert on `app:v2` gives Failed("", "docker-compose (or docker) not found in PATH"), starts nothing and keeps `app:v2` |
| `Scenarios.MissingAlertsField` | devops-rollback-demo/rollback_service/rollback_service.py:49-53 | a payload without `alerts` gives NoFiringAlerts |
| `Scenarios.RepeatedAlertRollsBackOnce` | devops-rollback-demo/rollback_service/rollback_service.py:59-71 | a fresh controller that gets the same critical alert twice answers RolledBack, then AlreadyStable |

## Left out

- Flask setup, routing, the GET `/` status handler and HTTP status codes (200, 400, 500) are transport. `Outcome` carries what the handler reports.
- JSON parsing and its "invalid json" 400 path: the model starts from an already parsed `Payload`.
- JSON values of other types (a non-string `status` or `severity`, a `labels` that is not an object, alerts that are not objects) are not modelled. Alert fields are optional strings and an optional string map.
- `threading.Lock`: the model is sequential. Each handler call is one atomic step, and `Replay` is the serialised order the lock enforces.
- `shutil.which` and `subprocess.run` are foreign calls. `Host.path` and the `ProcessResult` parameter stand for them.
- A failure to spawn the tool (`subprocess.run` raising, for example when the binary vanishes after `which` found it) is not caught by the source. The handler then raises. The model has no such path.
- `print` logging is observability only.
- `os.path.abspath` and `os.path.dirname(__file__)`: the compose directory is the opaque `Host.composeDir`. Only the POSIX `os.path.join` of the file name is modelled.
- `devops-rollback-demo/app/app.js` is an Express server with metrics and simulated latency. It is not part of this model.

/**
 * Concrete webhook deliveries and what the controller answers to them.
 */
module Scenarios {
  import opened Wrappers
  import opened AlertPolicy
  import opened DeployExecutor
  import opened RollbackController

  function OneAlert(status: string, severity: string): Payload {
    Payload(Some([Alert(Some(status), Some(map[SeverityLabel := severity]))]))
  }

  /** A resolved alert is not firing, whatever its severity. */
  lemma ResolvedAlertIsIgnored(current: string, host: Host, run: ProcessResult)
    ensures Step(current, OneAlert("resolved", "critical"), host, run) == StepResult(NoFiringAlerts, current, None)
  {
    var alerts := AlertsOf(OneAlert("resolved", "critical"));
    assert !IsFiring(alerts[0]);
  }

  /** A firing alert of severity "info" asks for no action. */
  lemma InfoAlertTakesNoAction(current: string, host: Host, run: ProcessResult)
    ensures Step(current, OneAlert("firing", "info"), host, run) == StepResult(NoActionTaken, current, None)
  {
    var alerts := AlertsOf(OneAlert("firing", "info"));
    assert IsFiring(alerts[0]) && !IsActionable(Severity(alerts[0]));
  }

  /** A failing tool run reports its error output and leaves the candidate image current. */
  lemma ComposeErrorIsReported(host: Host)
    requires Docker in host.path
    ensures var s := Step(NextImage, OneAlert("firing", "warning"), host, ProcessResult(1, "", "compose error"));
            s.outcome == Failed("", "compose error") && s.image == NextImage && s.started.Some?
  {
    var alerts := AlertsOf(OneAlert("firing", "warning"));
    assert IsFiring(alerts[0]) && IsActionable(Severity(alerts[0]));
  }

  /** With neither compose tool on the PATH, a critical alert reports the "not found" failure and starts nothing. */
  lemma NoToolIsReported(env: map<string, string>, composeDir: string, run: ProcessResult)
    ensures Step(NextImage, OneAlert("firing", "critical"), Host({}, env, composeDir), run)
            == StepResult(Failed("", "docker-compose (or docker) not found in PATH"), NextImage, None)
  {
    var alerts := AlertsOf(OneAlert("firing", "critical"));
    assert IsFiring(alerts[0]) && IsActionable(Severity(alerts[0]));
  }

  /** A payload without `alerts` is a batch without firing alerts. */
  lemma MissingAlertsField(current: string, host: Host, run: ProcessResult)
    ensures Step(current, Payload(None), host, run) == StepResult(NoFiringAlerts, current, None)
  {
  }

  /**
   * A fresh controller receiving the same critical alert twice: the first
   * delivery rolls back, the second finds the stable image and starts nothing.
   */
  method RepeatedAlertRollsBackOnce(host: Host, out: string) returns (first: Outcome, second: Outcome)
    requires DockerCompose in host.path
    ensures first == RolledBack(StableImage, out)
    ensures second == AlreadyStable
  {
    var c := new Controller();
    CriticalAlertRollsBack(host, out);
    first := c.HandleAlertBatch(OneAlert("firing", "critical"), host, ProcessResult(0, out, ""));
    var alerts := AlertsOf(OneAlert("firing", "critical"));
    assert IsFiring(alerts[0]) && IsActionable(Severity(alerts[0]));
    second := c.HandleAlertBatch(OneAlert("firing", "critical"), host, ProcessResult(0, out, ""));
    assert |c.spawned| == 1;
  }

  /** A critical firing alert on the candidate image rolls back to the stable image and reports the tool's output. */
  lemma CriticalAlertRollsBack(host: Host, out: string)
    requires DockerCompose in host.path
    ensures var s := Step(NextImage, OneAlert("firing", "critical"), host, ProcessResult(0, out, ""));
            s.outcome == RolledBack(StableImage, out) && s.image == StableImage && s.started.Some?
  {
    var alerts := AlertsOf(OneAlert("firing", "critical"));
    assert IsFiring(alerts[0]) && IsActionable(Severity(alerts[0]));
  }
}

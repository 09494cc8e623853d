/**
 * The alert policy of the rollback webhook: which alerts of an
 * Alertmanager batch are firing, what severity each carries, and whether
 * the batch asks for a rollback.
 */
module AlertPolicy {
  import opened Wrappers

  /** One alert of the batch. Both `status` and the `labels` object may be absent. */
  datatype Alert = Alert(status: Option<string>, labels: Option<map<string, string>>)

  /** The parsed webhook body; its `alerts` field may be absent. */
  datatype Payload = Payload(alerts: Option<seq<Alert>>)

  /** The three verdicts of the policy. */
  datatype Decision = NoFiring | ActionRequired | NoActionRequired

  const FiringStatus := "firing"
  const SeverityLabel := "severity"
  const Critical := "critical"
  const Warning := "warning"

  /** The alerts of a payload; a payload without `alerts` is an empty batch. */
  function AlertsOf(p: Payload): (alerts: seq<Alert>)
    ensures p.alerts.None? ==> alerts == []
    ensures p.alerts.Some? ==> alerts == p.alerts.value
  {
    p.alerts.GetOr([])
  }

  /** An alert is firing when it has a `status` equal to "firing"; no status means not firing. */
  predicate IsFiring(a: Alert) {
    a.status == Some(FiringStatus)
  }

  /** The severity label of an alert, "" when `labels` or `severity` is absent. */
  function Severity(a: Alert): string {
    var labels := a.labels.GetOr(map[]);
    if SeverityLabel in labels then labels[SeverityLabel] else ""
  }

  /** The severities that make the controller act. */
  predicate IsActionable(severity: string) {
    severity == Critical || severity == Warning
  }

  /** Reference definition: the batch has no firing alert. */
  ghost predicate NoneFiring(alerts: seq<Alert>) {
    forall i :: 0 <= i < |alerts| ==> !IsFiring(alerts[i])
  }

  /** Reference definition: some firing alert of the batch has an actionable severity. */
  ghost predicate Qualifies(alerts: seq<Alert>) {
    exists i :: 0 <= i < |alerts| && IsFiring(alerts[i]) && IsActionable(Severity(alerts[i]))
  }

  /** The firing alerts of the batch, in the order they arrived. */
  function FiringAlerts(alerts: seq<Alert>): (firing: seq<Alert>)
    ensures |firing| <= |alerts|
    ensures forall j :: 0 <= j < |firing| ==> IsFiring(firing[j])
  {
    if alerts == [] then []
    else if IsFiring(alerts[0]) then [alerts[0]] + FiringAlerts(alerts[1..])
    else FiringAlerts(alerts[1..])
  }

  /** Every alert the filter keeps comes from the batch. */
  lemma {:induction false} FiringAlertsFromBatch(alerts: seq<Alert>)
    ensures forall j :: 0 <= j < |FiringAlerts(alerts)| ==> FiringAlerts(alerts)[j] in alerts
  {
    if alerts != [] {
      FiringAlertsFromBatch(alerts[1..]);
      var firing := FiringAlerts(alerts);
      var rest := FiringAlerts(alerts[1..]);
      forall j | 0 <= j < |firing| ensures firing[j] in alerts {
        if IsFiring(alerts[0]) && j > 0 {
          assert firing[j] == rest[j - 1];
        }
      }
    }
  }

  /** Every firing alert of the batch is kept by the filter. */
  lemma {:induction false} FiringAlertsKeepsFiring(alerts: seq<Alert>)
    ensures forall i :: 0 <= i < |alerts| && IsFiring(alerts[i]) ==> alerts[i] in FiringAlerts(alerts)
  {
    if alerts != [] {
      FiringAlertsKeepsFiring(alerts[1..]);
      var firing := FiringAlerts(alerts);
      forall i | 0 <= i < |alerts| && IsFiring(alerts[i]) ensures alerts[i] in firing {
        if i > 0 {
          assert alerts[i] == alerts[1..][i - 1];
        }
      }
    }
  }

  /**
   * The filter is the order-preserving one: it keeps a single alert exactly
   * when it is firing (FiringAlertsSingle), and filtering a concatenation
   * concatenates the filtered parts (FiringAlertsConcat). These two facts
   * determine it on every batch.
   */
  lemma FiringAlertsSingle(a: Alert)
    ensures FiringAlerts([a]) == if IsFiring(a) then [a] else []
  {
    assert [a][1..] == [];
  }

  lemma {:induction false} FiringAlertsConcat(xs: seq<Alert>, ys: seq<Alert>)
    ensures FiringAlerts(xs + ys) == FiringAlerts(xs) + FiringAlerts(ys)
    decreases xs
  {
    if xs == [] {
      assert xs + ys == ys;
    } else {
      var zs := xs + ys;
      assert zs[0] == xs[0] && zs[1..] == xs[1..] + ys;
      FiringAlertsConcat(xs[1..], ys);
      var tail := FiringAlerts(xs[1..]) + FiringAlerts(ys);
      assert FiringAlerts(zs[1..]) == tail;
      if IsFiring(xs[0]) {
        assert FiringAlerts(zs) == [xs[0]] + tail;
        assert FiringAlerts(xs) == [xs[0]] + FiringAlerts(xs[1..]);
        assert [xs[0]] + tail == ([xs[0]] + FiringAlerts(xs[1..])) + FiringAlerts(ys);
      } else {
        assert FiringAlerts(zs) == tail;
        assert FiringAlerts(xs) == FiringAlerts(xs[1..]);
      }
    }
  }

  /** The severity of each alert of `firing`, position by position. */
  function Severities(firing: seq<Alert>): (severities: seq<string>)
    ensures |severities| == |firing|
    ensures forall j :: 0 <= j < |firing| ==> severities[j] == Severity(firing[j])
  {
    if firing == [] then [] else [Severity(firing[0])] + Severities(firing[1..])
  }

  /**
   * The policy: no firing alert gives NoFiring; otherwise the batch asks for
   * action exactly when some firing alert is critical or warning.
   */
  function Evaluate(alerts: seq<Alert>): (d: Decision)
    ensures d == NoFiring <==> NoneFiring(alerts)
    ensures d == ActionRequired <==> Qualifies(alerts)
  {
    var firing := FiringAlerts(alerts);
    NoFiringIffEmpty(alerts);
    if firing == [] then
      NoFiring
    else
      var severities := Severities(firing);
      ActionableIffQualifies(alerts);
      if Critical in severities || Warning in severities then ActionRequired else NoActionRequired
  }

  lemma NoFiringIffEmpty(alerts: seq<Alert>)
    ensures FiringAlerts(alerts) == [] <==> NoneFiring(alerts)
  {
    if FiringAlerts(alerts) != [] {
      FiringAlertsFromBatch(alerts);
      var a := FiringAlerts(alerts)[0];
      assert a in alerts;
      var i :| 0 <= i < |alerts| && alerts[i] == a;
      assert IsFiring(alerts[i]);
    }
  }

  /** The membership test of the source agrees with the reference definition. */
  lemma ActionableIffQualifies(alerts: seq<Alert>)
    ensures var severities := Severities(FiringAlerts(alerts));
            (Critical in severities || Warning in severities) <==> Qualifies(alerts)
  {
    var severities := Severities(FiringAlerts(alerts));
    if Critical in severities || Warning in severities {
      ActionableSeverityQualifies(alerts);
    }
    if Qualifies(alerts) {
      QualifyingHasActionableSeverity(alerts);
    }
  }

  lemma ActionableSeverityQualifies(alerts: seq<Alert>)
    requires var severities := Severities(FiringAlerts(alerts));
             Critical in severities || Warning in severities
    ensures Qualifies(alerts)
  {
    var firing := FiringAlerts(alerts);
    var severities := Severities(firing);
    FiringAlertsFromBatch(alerts);
    var j :| 0 <= j < |severities| && IsActionable(severities[j]);
    assert firing[j] in alerts;
    var i :| 0 <= i < |alerts| && alerts[i] == firing[j];
    assert IsFiring(alerts[i]) && IsActionable(Severity(alerts[i]));
  }

  lemma QualifyingHasActionableSeverity(alerts: seq<Alert>)
    requires Qualifies(alerts)
    ensures var severities := Severities(FiringAlerts(alerts));
            Critical in severities || Warning in severities
  {
    var firing := FiringAlerts(alerts);
    var severities := Severities(firing);
    var i :| 0 <= i < |alerts| && IsFiring(alerts[i]) && IsActionable(Severity(alerts[i]));
    FiringAlertsKeepsFiring(alerts);
    assert alerts[i] in firing;
    var j :| 0 <= j < |firing| && firing[j] == alerts[i];
    assert severities[j] == Severity(alerts[i]);
    assert severities[j] in severities;
  }

  /** The batch without its alert at position `i`. */
  function Without(alerts: seq<Alert>, i: nat): (rest: seq<Alert>)
    requires i < |alerts|
    ensures |rest| == |alerts| - 1
    ensures forall k :: 0 <= k < i ==> rest[k] == alerts[k]
    ensures forall k :: i <= k < |rest| ==> rest[k] == alerts[k + 1]
  {
    alerts[..i] + alerts[i + 1..]
  }

  /** An alert without `labels`, or without `severity` among them, never makes a batch qualify. */
  lemma MissingSeverityIsInert(alerts: seq<Alert>, i: nat)
    requires i < |alerts|
    requires alerts[i].labels.None? || SeverityLabel !in alerts[i].labels.value
    ensures Qualifies(alerts) <==> Qualifies(Without(alerts, i))
  {
    if Qualifies(alerts) {
      QualifiesWithout(alerts, i);
    }
    if Qualifies(Without(alerts, i)) {
      QualifiesWith(alerts, i);
    }
  }

  lemma QualifiesWithout(alerts: seq<Alert>, i: nat)
    requires i < |alerts| && Severity(alerts[i]) == ""
    requires Qualifies(alerts)
    ensures Qualifies(Without(alerts, i))
  {
    var rest := Without(alerts, i);
    var k :| 0 <= k < |alerts| && IsFiring(alerts[k]) && IsActionable(Severity(alerts[k]));
    assert k != i;
    var k' := if k < i then k else k - 1;
    assert rest[k'] == alerts[k];
    assert IsFiring(rest[k']) && IsActionable(Severity(rest[k']));
  }

  lemma QualifiesWith(alerts: seq<Alert>, i: nat)
    requires i < |alerts|
    requires Qualifies(Without(alerts, i))
    ensures Qualifies(alerts)
  {
    var rest := Without(alerts, i);
    var k' :| 0 <= k' < |rest| && IsFiring(rest[k']) && IsActionable(Severity(rest[k']));
    var k := if k' < i then k' else k' + 1;
    assert rest[k'] == alerts[k];
    assert IsFiring(alerts[k]) && IsActionable(Severity(alerts[k]));
  }
}

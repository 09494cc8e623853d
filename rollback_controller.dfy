/**
 * The rollback controller behind the `/webhook` endpoint: it evaluates an
 * alert batch, and when the batch asks for action and the service is not
 * already on the stable image, redeploys the stable image and records it as
 * current once the deployment tool exits with 0.
 */
module RollbackController {
  import opened Wrappers
  import opened AlertPolicy
  import opened DeployExecutor

  /** The known-good image rolled back to. */
  const StableImage := "app:v1"
  /** The candidate image assumed running when the service starts. */
  const NextImage := "app:v2"

  /** What one webhook call reports to its caller. */
  datatype Outcome =
    | NoFiringAlerts
    | NoActionTaken
    | AlreadyStable
    | RolledBack(image: string, out: string)
    | Failed(out: string, err: string)
  {
    /** The outcomes that neither start the deployment tool nor change the state. */
    predicate IsInformational() {
      NoFiringAlerts? || NoActionTaken? || AlreadyStable?
    }
  }

  /** One handler call as a value: its outcome, the current image afterwards, and the tool invocation it started, if any. */
  datatype StepResult = StepResult(outcome: Outcome, image: string, started: Option<Invocation>)

  /**
   * One webhook call from current image `current`. `run` is what the
   * deployment tool reports if it is started.
   */
  function Step(current: string, payload: Payload, host: Host, run: ProcessResult): (s: StepResult)
    // no firing alert: nothing happens
    ensures NoneFiring(AlertsOf(payload)) ==> s == StepResult(NoFiringAlerts, current, None)
    // firing alerts, none critical or warning: nothing happens
    ensures !NoneFiring(AlertsOf(payload)) && !Qualifies(AlertsOf(payload)) ==>
              s == StepResult(NoActionTaken, current, None)
    // a qualifying batch on the stable image: short-circuit, no tool started
    ensures Qualifies(AlertsOf(payload)) && current == StableImage ==>
              s == StepResult(AlreadyStable, current, None)
    // a qualifying batch elsewhere: the tool is asked to deploy the stable image
    ensures Qualifies(AlertsOf(payload)) && current != StableImage ==>
              s.started == ComposeInvocation(StableImage, host)
    // no compose tool: a failure carrying the sentinel message, nothing started, state kept
    ensures Qualifies(AlertsOf(payload)) && current != StableImage && FindComposeCmd(host.path).None? ==>
              s == StepResult(Failed("", NotFoundMessage), current, None)
    ensures s.started.None? && !s.outcome.IsInformational() ==>
              s.outcome == Failed("", NotFoundMessage) && s.image == current
    // exit code 0: rolled back, state is the stable image
    ensures s.started.Some? && run.code == 0 ==>
              s.outcome == RolledBack(StableImage, run.out) && s.image == StableImage
    // any other exit code: failure with both outputs, state kept
    ensures s.started.Some? && run.code != 0 ==>
              s.outcome == Failed(run.out, run.err) && s.image == current
    // the only target ever deployed is the stable image
    ensures s.started.Some? ==> ImageVariable in s.started.value.env && s.started.value.env[ImageVariable] == StableImage
    // the state changes only by a rollback to the stable image
    ensures s.image != current ==> s.image == StableImage && s.outcome == RolledBack(StableImage, run.out)
    ensures s.outcome.RolledBack? ==> s.image == StableImage && s.started.Some? && run.code == 0
  {
    match Evaluate(AlertsOf(payload))
    case NoFiring => StepResult(NoFiringAlerts, current, None)
    case NoActionRequired => StepResult(NoActionTaken, current, None)
    case ActionRequired =>
      if current == StableImage then StepResult(AlreadyStable, current, None)
      else
        var started := ComposeInvocation(StableImage, host);
        var r := if started.None? then NotFound else run;
        if r.code == 0 then StepResult(RolledBack(StableImage, r.out), StableImage, started)
        else StepResult(Failed(r.out, r.err), current, started)
  }

  /** The tool invocations a step started, as a sequence. */
  function StartedSeq(started: Option<Invocation>): seq<Invocation> {
    if started.None? then [] else [started.value]
  }

  /** One delivery of the webhook: the payload, the host as it is at that moment, and what the tool would report. */
  datatype Delivery = Delivery(payload: Payload, host: Host, run: ProcessResult)

  /** The observable history of a run of deliveries. */
  datatype Trace = Trace(outcomes: seq<Outcome>, image: string, started: seq<Invocation>)

  /** Whether a delivery's batch asks for a rollback. */
  ghost predicate Qualifying(d: Delivery) {
    Qualifies(AlertsOf(d.payload))
  }

  /** Deliveries handled one after another, each call atomic (the lock serialises them). */
  function Replay(current: string, ds: seq<Delivery>): (t: Trace)
    ensures |t.outcomes| == |ds|
    ensures t.image == current || t.image == StableImage
    ensures forall j :: 0 <= j < |t.started| ==>
              ImageVariable in t.started[j].env && t.started[j].env[ImageVariable] == StableImage
    decreases ds
  {
    if ds == [] then Trace([], current, [])
    else
      var s := Step(current, ds[0].payload, ds[0].host, ds[0].run);
      var rest := Replay(s.image, ds[1..]);
      Trace([s.outcome] + rest.outcomes, rest.image, StartedSeq(s.started) + rest.started)
  }

  /**
   * Once the stable image is current it stays current: no delivery starts
   * the tool again, and every qualifying one is answered "already stable".
   */
  lemma {:induction false} StableIsAbsorbing(ds: seq<Delivery>)
    ensures var t := Replay(StableImage, ds);
            && t.image == StableImage
            && t.started == []
            && (forall i :: 0 <= i < |ds| ==> t.outcomes[i].IsInformational())
            && (forall i :: 0 <= i < |ds| && Qualifying(ds[i]) ==> t.outcomes[i] == AlreadyStable)
  {
    if ds != [] {
      StableIsAbsorbing(ds[1..]);
      var t := Replay(StableImage, ds);
      var rest := Replay(StableImage, ds[1..]);
      assert t.outcomes[1..] == rest.outcomes;
      forall i | 1 <= i < |ds|
        ensures t.outcomes[i].IsInformational()
        ensures Qualifying(ds[i]) ==> t.outcomes[i] == AlreadyStable
      {
        assert t.outcomes[i] == rest.outcomes[i - 1] && ds[i] == ds[1..][i - 1];
      }
    }
  }

  /**
   * A successful rollback is idempotent: after a qualifying delivery whose
   * deployment exits with 0, the tool has been started exactly once and
   * every later qualifying delivery is answered "already stable".
   */
  lemma RollbackIsIdempotent(current: string, ds: seq<Delivery>)
    requires current != StableImage
    requires |ds| > 0 && Qualifying(ds[0])
    requires FindComposeCmd(ds[0].host.path).Some? && ds[0].run.code == 0
    ensures var t := Replay(current, ds);
            && t.outcomes[0] == RolledBack(StableImage, ds[0].run.out)
            && t.image == StableImage
            && t.started == [ComposeInvocation(StableImage, ds[0].host).value]
            && (forall i :: 1 <= i < |ds| ==> t.outcomes[i].IsInformational())
            && (forall i :: 1 <= i < |ds| && Qualifying(ds[i]) ==> t.outcomes[i] == AlreadyStable)
  {
    StableIsAbsorbing(ds[1..]);
    var t := Replay(current, ds);
    var rest := Replay(StableImage, ds[1..]);
    forall i | 1 <= i < |ds|
      ensures t.outcomes[i].IsInformational()
      ensures Qualifying(ds[i]) ==> t.outcomes[i] == AlreadyStable
    {
      assert t.outcomes[i] == rest.outcomes[i - 1] && ds[i] == ds[1..][i - 1];
    }
  }

  /** After a rollback in `os`, every later outcome is informational. */
  ghost predicate QuietAfterRollback(os: seq<Outcome>) {
    forall i, j :: 0 <= i < j < |os| && os[i].RolledBack? ==> os[j].IsInformational()
  }

  lemma QuietAfterRollbackCons(o: Outcome, os: seq<Outcome>)
    requires QuietAfterRollback(os)
    requires o.RolledBack? ==> forall k :: 0 <= k < |os| ==> os[k].IsInformational()
    ensures QuietAfterRollback([o] + os)
  {
    var os' := [o] + os;
    forall i, j | 0 <= i < j < |os'| && os'[i].RolledBack?
      ensures os'[j].IsInformational()
    {
      assert os'[j] == os[j - 1];
      if i > 0 {
        assert os'[i] == os[i - 1];
      }
    }
  }

  /**
   * However the deliveries are ordered, at most one of them rolls back, and
   * after it none starts the tool or fails.
   */
  lemma {:induction false} AtMostOneRollback(current: string, ds: seq<Delivery>)
    ensures QuietAfterRollback(Replay(current, ds).outcomes)
    decreases ds
  {
    if ds != [] {
      var s := Step(current, ds[0].payload, ds[0].host, ds[0].run);
      var rest := Replay(s.image, ds[1..]);
      assert Replay(current, ds).outcomes == [s.outcome] + rest.outcomes;
      if s.outcome.RolledBack? {
        StableIsAbsorbing(ds[1..]);
      }
      AtMostOneRollback(s.image, ds[1..]);
      QuietAfterRollbackCons(s.outcome, rest.outcomes);
    }
  }

  /** A delivery that does not qualify leaves everything as it was. */
  lemma InertStep(current: string, d: Delivery)
    requires !Qualifying(d)
    ensures var s := Step(current, d.payload, d.host, d.run);
            && s.image == current && s.started.None?
            && (s.outcome == NoFiringAlerts || s.outcome == NoActionTaken)
  {
  }

  /**
   * Deliveries none of which qualifies never start the tool and never change
   * the current image.
   */
  lemma {:induction false} InertBatchesChangeNothing(current: string, ds: seq<Delivery>)
    requires forall i :: 0 <= i < |ds| ==> !Qualifying(ds[i])
    ensures var t := Replay(current, ds);
            && t.image == current
            && t.started == []
            && (forall i :: 0 <= i < |ds| ==> t.outcomes[i] == NoFiringAlerts || t.outcomes[i] == NoActionTaken)
    decreases ds
  {
    if ds != [] {
      InertStep(current, ds[0]);
      var tail := ds[1..];
      assert forall i :: 0 <= i < |tail| ==> !Qualifying(tail[i]) by {
        forall i | 0 <= i < |tail| ensures !Qualifying(tail[i]) {
          assert tail[i] == ds[i + 1];
        }
      }
      InertBatchesChangeNothing(current, tail);
      var t := Replay(current, ds);
      var rest := Replay(current, tail);
      forall i | 1 <= i < |ds|
        ensures t.outcomes[i] == NoFiringAlerts || t.outcomes[i] == NoActionTaken
      {
        assert t.outcomes[i] == rest.outcomes[i - 1];
      }
    }
  }

  /** The service's process-wide deployment state. */
  class Controller {
    /** The image believed to be running. */
    var currentImage: string
    /** Every start of the deployment tool so far. */
    ghost var spawned: seq<Invocation>

    constructor ()
      ensures currentImage == NextImage && spawned == []
    {
      currentImage := NextImage;
      spawned := [];
    }

    /** The `/webhook` handler on an already parsed payload; `run` is what the tool reports if started. */
    method HandleAlertBatch(payload: Payload, host: Host, run: ProcessResult) returns (outcome: Outcome)
      modifies this
      ensures var s := Step(old(currentImage), payload, host, run);
              && outcome == s.outcome
              && currentImage == s.image
              && spawned == old(spawned) + StartedSeq(s.started)
    {
      var alerts := AlertsOf(payload);
      var decision := Evaluate(alerts);
      if decision == NoFiring {
        return NoFiringAlerts;
      }
      if decision == ActionRequired {
        if currentImage == StableImage {
          return AlreadyStable;
        }
        var code, out, err, started := RunComposeWithImage(StableImage, host, run);
        spawned := spawned + StartedSeq(started);
        if code == 0 {
          currentImage := StableImage;
          return RolledBack(StableImage, out);
        } else {
          return Failed(out, err);
        }
      }
      return NoActionTaken;
    }
  }
}

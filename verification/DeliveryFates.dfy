/** How a forward task can come to its end, over all runs: the converse of the paths in `DeliveryMethods`. A file is set
    aside only when every attempt was made and failed, left only on shutdown, and removed only after a success. */
module DeliveryFates {
  import opened Delivery
  import opened DeliverySafety
  import opened DeliveryRuns
  import opened DeliveryWire

  // ---------------------------------------------------------------- counting a task's steps

  /** Steps of task `i` of one kind, from step `j` to step `k`. */
  function Times(steps: seq<Step>, j: nat, k: nat, i: nat, kind: TaskStep -> bool): nat
    requires j <= k <= |steps|
  {
    if k == j then 0
    else
      var step := steps[k - 1];
      Times(steps, j, k - 1, i, kind) + if step.Forward? && step.i == i && kind(step.forward) then 1 else 0
  }

  predicate Fails(step: TaskStep) {
    step.ForwardErr?
  }

  predicate Succeeds(step: TaskStep) {
    step.ForwardOk?
  }

  predicate Expires(step: TaskStep) {
    step.TimerFires?
  }

  /** What a task has done since it read its file: attempts begun, failed and succeeded, and backoff timers expired. */
  datatype Tally = Tally(begun: nat, failed: nat, succeeded: nat, expired: nat)

  function TallyOf(steps: seq<Step>, j: nat, k: nat, i: nat): Tally
    requires j <= k <= |steps|
  {
    Tally(Times(steps, j, k, i, Begins), Times(steps, j, k, i, Fails), Times(steps, j, k, i, Succeeds),
          Times(steps, j, k, i, Expires))
  }

  /** The tally that a task's phase stands for: every attempt but a current or successful one has failed, and between
      each two its backoff timer has expired. */
  predicate Fitting(maxRetries: nat, p: TaskPhase, y: Tally) {
    match p
    case Transcribing(_) => y == Tally(0, 0, 0, 0)
    case Trying(a, _) => y == Tally(a + 1, a, 0, a) && a <= maxRetries
    case Waiting(a, _, fired) => y == Tally(a + 1, a + 1, 0, if fired then a + 1 else a) && a < maxRetries
    case Succeeded(_) => y.begun == y.failed + 1 && y.succeeded == 1 && y.expired == y.failed <= maxRetries
    case GaveUp(_) => y == Tally(maxRetries + 1, maxRetries + 1, 0, maxRetries)
    case _ => true
  }

  predicate Adds(y: Tally, step: TaskStep, y': Tally) {
    && y'.begun == y.begun + (if Begins(step) then 1 else 0)
    && y'.failed == y.failed + (if Fails(step) then 1 else 0)
    && y'.succeeded == y.succeeded + (if Succeeds(step) then 1 else 0)
    && y'.expired == y.expired + (if Expires(step) then 1 else 0)
  }

  lemma OwnStepFits(c: Settings, s: State, i: nat, step: TaskStep, y: Tally, y': Tally)
    requires TaskEnabled(c, s, i, step) && !step.Read? && Fitting(c.maxRetries, s.tasks[i].phase, y)
             && Adds(y, step, y')
    ensures Fitting(c.maxRetries, PhaseAfter(c, s, i, step), y')
  {
  }

  /** Nobody else moves the task. */
  lemma PhaseStays(c: Settings, s: State, step: Step, s': State, i: nat)
    requires DownOk(s) && Moves(c, s, step, s') && i < |s.tasks| && i < |s'.tasks|
    ensures if step.Forward? && step.i == i then s'.tasks[i].phase == PhaseAfter(c, s, i, step.forward)
            else s'.tasks[i].phase == s.tasks[i].phase
  {
    match step
    case Server(_) => assert s'.tasks == s.tasks;
    case Drain(_) => assert s.tasks <= s'.tasks;
    case Forward(_, _) =>
    case Process(_) =>
  }

  /** The tally fits at state `k`, if the task has read and is not done. */
  ghost predicate FitsAt(c: Settings, states: seq<State>, steps: seq<Step>, j: nat, k: nat, i: nat) {
    && |states| == |steps| + 1 && j < k <= |steps| && i < |states[k].tasks|
    && Fitting(c.maxRetries, states[k].tasks[i].phase, TallyOf(steps, j + 1, k, i))
  }

  lemma FitsNext(c: Settings, states: seq<State>, steps: seq<Step>, j: nat, k: nat, i: nat)
    requires SettingsOk(c) && Run(c, states, steps) && FitsAt(c, states, steps, j, k, i) && k < |steps|
    requires PastRead(states[k].tasks[i].phase) && i < |states[k + 1].tasks|
    ensures FitsAt(c, states, steps, j, k + 1, i)
  {
    var y, y', step := TallyOf(steps, j + 1, k, i), TallyOf(steps, j + 1, k + 1, i), steps[k];
    DownInRuns(c, states, steps, k);
    RunStep(c, states, steps, k);
    PhaseStays(c, states[k], step, states[k + 1], i);
    if step.Forward? && step.i == i {
      assert Adds(y, step.forward, y');
      OwnStepFits(c, states[k], i, step.forward, y, y');
    } else {
      assert y' == y;
    }
  }

  lemma FitsFirst(c: Settings, states: seq<State>, steps: seq<Step>, j: nat, i: nat)
    requires Run(c, states, steps) && j < |steps| && steps[j] == Forward(i, Read)
    ensures FitsAt(c, states, steps, j, j + 1, i)
  {
    RunStep(c, states, steps, j);
  }

  /** The task has held on to what it read at step `j`. */
  ghost predicate HoldsSince(states: seq<State>, j: nat, k: nat, i: nat) {
    j < k < |states| && forall x {:trigger states[x]} :: j < x <= k ==>
      i < |states[x].tasks| && PastRead(states[x].tasks[i].phase)
  }

  lemma {:induction false} FitsThroughout(c: Settings, states: seq<State>, steps: seq<Step>, j: nat, k: nat, i: nat)
    requires SettingsOk(c) && Run(c, states, steps) && HoldsSince(states, j, k, i) && steps[j] == Forward(i, Read)
    ensures FitsAt(c, states, steps, j, k, i)
    decreases k
  {
    if k == j + 1 {
      FitsFirst(c, states, steps, j, i);
    } else {
      FitsThroughout(c, states, steps, j, k - 1, i);
      FitsNext(c, states, steps, j, k - 1, i);
    }
  }

  lemma ReadAt(c: Settings, states: seq<State>, steps: seq<Step>, m: nat, i: nat) returns (j: nat)
    requires SettingsOk(c) && Run(c, states, steps) && m < |states|
    requires i < |states[m].tasks| && PastRead(states[m].tasks[i].phase)
    ensures j < m && steps[j] == Forward(i, Read) && HoldsSince(states, j, m, i)
  {
    var t, clips;
    j, t, clips := ReadOfHeld(c, states, steps, m, i);
  }

  // ---------------------------------------------------------------- the theorem

  /** What the steps of the task since its Read must have been when it lets go of the file in this way. */
  predicate FateFits(maxRetries: nat, cancelled: bool, step: TaskStep, y: Tally) {
    match step
    // the file is removed, or its removal fails: one success, after failures only
    case Remove => y.succeeded == 1 && y.begun == y.failed + 1 <= maxRetries + 1 && y.expired == y.failed
    case RemoveFails => y.succeeded == 1 && y.begun == y.failed + 1 <= maxRetries + 1 && y.expired == y.failed
    // it is set aside, or that fails: every attempt was made, after its backoff, and all of them failed
    case Bury => y == Tally(maxRetries + 1, maxRetries + 1, 0, maxRetries)
    case BuryFails => y == Tally(maxRetries + 1, maxRetries + 1, 0, maxRetries)
    // it is left for the next start: on shutdown only, while waiting after a failed attempt that was not the last
    case LeavePending => cancelled && y.succeeded == 0 && 0 < y.begun == y.failed <= maxRetries
                         && y.failed - 1 <= y.expired <= y.failed
    case _ => false
  }

  predicate LetsGoOfMessage(step: TaskStep) {
    step.Remove? || step.RemoveFails? || step.Bury? || step.BuryFails? || step.LeavePending?
  }

  lemma LettingGoFits(c: Settings, s: State, i: nat, step: TaskStep, y: Tally)
    requires TaskEnabled(c, s, i, step) && LetsGoOfMessage(step) && PastRead(s.tasks[i].phase)
    requires Fitting(c.maxRetries, s.tasks[i].phase, y)
    ensures FateFits(c.maxRetries, s.cancelled, step, y)
  {
  }

  lemma HoldsAMessage(c: Settings, states: seq<State>, steps: seq<Step>, m: nat, i: nat, step: TaskStep)
    requires SettingsOk(c) && Run(c, states, steps) && m < |steps|
    requires steps[m] == Forward(i, step) && LetsGoOfMessage(step)
    ensures TaskEnabled(c, states[m], i, step) && PastRead(states[m].tasks[i].phase)
  {
    InvReachable(c, states, steps, m);
    RunStep(c, states, steps, m);
  }

  /** Over all runs: whenever a forward task lets go of its file, the attempts it made since it read the file, at step
      `j`, are those of `Queues.FateOf`. In particular a message is set aside only after `maxRetries + 1` failures. */
  lemma EveryRunEndsByItsFate(c: Settings, states: seq<State>, steps: seq<Step>, m: nat, i: nat, step: TaskStep)
      returns (j: nat)
    requires SettingsOk(c) && Run(c, states, steps) && m < |steps|
    requires steps[m] == Forward(i, step) && LetsGoOfMessage(step)
    ensures j < m && steps[j] == Forward(i, Read)
    ensures FateFits(c.maxRetries, states[m].cancelled, step, TallyOf(steps, j + 1, m, i))
  {
    HoldsAMessage(c, states, steps, m, i, step);
    j := ReadAt(c, states, steps, m, i);
    FitsThroughout(c, states, steps, j, m, i);
    LettingGoFits(c, states[m], i, step, TallyOf(steps, j + 1, m, i));
  }
}

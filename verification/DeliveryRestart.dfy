/** Start-up recovery: whatever a process leaves in `pending`, the first drain of the next one gives a
    forward task to. */
module DeliveryRestart {
  import opened Delivery
  import opened DeliverySafety
  import opened DeliveryRuns
  import opened DeliveryProgress
  import opened DeliveryStability

  /** A task was spawned for the name; a task stays in the list when it has ended. */
  ghost predicate HasTask(s: State, name: string) {
    exists i :: 0 <= i < |s.tasks| && s.tasks[i].name == name
  }

  /** The process has started and not read the directory yet. */
  predicate Starting(s: State) {
    s.up && s.worker == Listing(false) && s.tasks == [] && s.inFlight == {}
  }

  /** The first drain is under way: a listed name is still to be considered and free, or has a task. */
  ghost predicate Recovering(s: State, listed: set<string>) {
    && s.up && s.worker.Draining?
    && forall n :: n in listed ==> (n in s.worker.left && n !in s.inFlight) || HasTask(s, n)
  }

  /** A step before the end of the first drain. */
  predicate DuringRecovery(step: Step) {
    SameProcess(step) && step != Drain(ListFails) && step != Drain(DrainDone)
  }

  // ---------------------------------------------------------------- before the listing

  lemma RestartStarts(c: Settings, s: State, step: Step, s': State)
    requires SettingsOk(c) && DirOk(c, s) && DownOk(s) && Moves(c, s, step, s') && step.Process?
             && step.process.Restart?
    ensures Starting(s') && Pending(c, s) <= Pending(c, s')
  {
    forall n | n in Pending(c, s) ensures n in s'.pending {
      assert n == c.names.file(s.pending[n].record.id);
    }
  }

  lemma StartingStep(c: Settings, s: State, step: Step, s': State)
    requires SettingsOk(c) && Starting(s) && Moves(c, s, step, s') && DuringRecovery(step)
    ensures Pending(c, s) <= Pending(c, s')
    ensures if step == Drain(List) then Recovering(s', Pending(c, s)) else Starting(s')
  {
    if step.Server? {
      forall n | n in Pending(c, s) ensures n in s'.pending { ServerKeepsFinalNames(c, s, step.server, n); }
    }
  }

  // ---------------------------------------------------------------- after the listing

  lemma TaskOutlivesWorker(c: Settings, s: State, step: WorkerStep, n: string)
    requires WorkerEnabled(s, step) && HasTask(s, n)
    ensures HasTask(WorkerApply(c, s, step), n)
  {
    var i :| 0 <= i < |s.tasks| && s.tasks[i].name == n;
    assert WorkerApply(c, s, step).tasks[i] == s.tasks[i];
  }

  lemma RecoveringClaim(c: Settings, s: State, name: string, listed: set<string>)
    requires Recovering(s, listed) && WorkerEnabled(s, Claim(name))
    ensures Recovering(WorkerApply(c, s, Claim(name)), listed)
  {
    var s' := WorkerApply(c, s, Claim(name));
    forall n | n in listed ensures (n in s'.worker.left && n !in s'.inFlight) || HasTask(s', n) {
      if HasTask(s, n) {
        TaskOutlivesWorker(c, s, Claim(name), n);
      } else if n == name {
        assert s'.tasks[|s.tasks|] == Task(name, Queued);
      }
    }
  }

  lemma RecoveringForward(c: Settings, s: State, i: nat, step: TaskStep, listed: set<string>)
    requires Recovering(s, listed) && TaskEnabled(c, s, i, step)
    ensures Recovering(TaskApply(c, s, i, step), listed)
  {
    var s' := TaskApply(c, s, i, step);
    forall n | n in listed && HasTask(s, n) ensures HasTask(s', n) {
      var j :| 0 <= j < |s.tasks| && s.tasks[j].name == n;
      assert s'.tasks[j].name == n;
    }
  }

  lemma RecoveringStep(c: Settings, s: State, step: Step, s': State, listed: set<string>)
    requires Recovering(s, listed) && Moves(c, s, step, s') && DuringRecovery(step)
    ensures Recovering(s', listed)
  {
    match step
    case Server(_) => assert s'.tasks == s.tasks && s'.worker == s.worker && s'.inFlight == s.inFlight;
    case Drain(st) => RecoveringClaim(c, s, st.name, listed);
    case Forward(i, st) => RecoveringForward(c, s, i, st, listed);
    case Process(_) => assert s'.tasks == s.tasks && s'.worker == s.worker && s'.inFlight == s.inFlight;
  }

  // ---------------------------------------------------------------- the run

  /** Where start-up stands at state `k`: before the listing, or after the one at step `l`. */
  ghost predicate StartUp(c: Settings, states: seq<State>, steps: seq<Step>, r: nat, k: nat, l: nat)
    requires |states| == |steps| + 1 && r < k < |states|
  {
    if l == k then Starting(states[k]) && Pending(c, states[r]) <= Pending(c, states[k])
    else r < l < k && steps[l] == Drain(List) && Pending(c, states[r]) <= Pending(c, states[l])
         && Recovering(states[k], Pending(c, states[l]))
  }

  lemma StartUpStep(c: Settings, states: seq<State>, steps: seq<Step>, r: nat, k: nat, l: nat) returns (l': nat)
    requires SettingsOk(c) && |states| == |steps| + 1 && r < k < |steps| && StartUp(c, states, steps, r, k, l)
    requires Moves(c, states[k], steps[k], states[k + 1]) && DuringRecovery(steps[k])
    ensures StartUp(c, states, steps, r, k + 1, l')
  {
    if l == k {
      StartingStep(c, states[k], steps[k], states[k + 1]);
      l' := if steps[k] == Drain(List) then k else k + 1;
    } else {
      RecoveringStep(c, states[k], steps[k], states[k + 1], Pending(c, states[l]));
      l' := l;
    }
  }

  lemma StartUpBegins(c: Settings, states: seq<State>, steps: seq<Step>, r: nat)
    requires SettingsOk(c) && Run(c, states, steps) && r < |steps| && steps[r].Process? && steps[r].process.Restart?
    ensures StartUp(c, states, steps, r, r + 1, r + 1)
  {
    InvReachable(c, states, steps, r);
    RunStep(c, states, steps, r);
    RestartStarts(c, states[r], steps[r], states[r + 1]);
  }

  ghost predicate StartedUp(c: Settings, states: seq<State>, steps: seq<Step>, r: nat, k: nat)
    requires |states| == |steps| + 1 && r < k < |states|
  {
    exists l: nat :: StartUp(c, states, steps, r, k, l)
  }

  /** What `StartUpStep` says about this index of the run. */
  ghost predicate GoesOn(c: Settings, states: seq<State>, steps: seq<Step>, r: nat, k: nat)
    requires |states| == |steps| + 1 && r < k < |steps|
  {
    StartedUp(c, states, steps, r, k) && DuringRecovery(steps[k]) ==> StartedUp(c, states, steps, r, k + 1)
  }

  lemma GoesOnInRuns(c: Settings, states: seq<State>, steps: seq<Step>, r: nat, k: nat)
    requires SettingsOk(c) && Run(c, states, steps) && r < k < |steps|
    ensures GoesOn(c, states, steps, r, k)
  {
    RunStep(c, states, steps, k);
    if StartedUp(c, states, steps, r, k) && DuringRecovery(steps[k]) {
      var l: nat :| StartUp(c, states, steps, r, k, l);
      var l' := StartUpStep(c, states, steps, r, k, l);
    }
  }

  lemma {:induction false} StartUpReachable(c: Settings, states: seq<State>, steps: seq<Step>, r: nat, k: nat)
    requires |states| == |steps| + 1 && r < k < |states| && StartUp(c, states, steps, r, r + 1, r + 1)
    requires forall j {:trigger GoesOn(c, states, steps, r, j)} :: r < j < k ==> GoesOn(c, states, steps, r, j)
    requires forall j {:trigger steps[j]} :: r < j < k ==> DuringRecovery(steps[j])
    ensures StartedUp(c, states, steps, r, k)
    decreases k
  {
    if k > r + 1 {
      StartUpReachable(c, states, steps, r, k - 1);
      assert GoesOn(c, states, steps, r, k - 1) && DuringRecovery(steps[k - 1]);
    }
  }

  /** When the first drain after a restart ends, whoever else moved meanwhile, every final file that its listing
      met has been given a task, and these include every file that was on disk at the restart. */
  lemma NextStartPicksUpEverything(c: Settings, states: seq<State>, steps: seq<Step>, r: nat, d: nat) returns (l: nat)
    requires SettingsOk(c) && Run(c, states, steps) && r < d < |steps|
    requires steps[r].Process? && steps[r].process.Restart? && steps[d] == Drain(DrainDone)
    requires forall j {:trigger steps[j]} :: r < j < d ==> DuringRecovery(steps[j])
    ensures r < l < d && steps[l] == Drain(List) && Pending(c, states[r]) <= Pending(c, states[l])
    ensures forall n :: n in Pending(c, states[l]) ==> HasTask(states[d], n)
  {
    StartUpBegins(c, states, steps, r);
    forall k | r < k < d ensures GoesOn(c, states, steps, r, k) {
      GoesOnInRuns(c, states, steps, r, k);
    }
    StartUpReachable(c, states, steps, r, d);
    l :| StartUp(c, states, steps, r, d, l);
    RunStep(c, states, steps, d);
  }
}

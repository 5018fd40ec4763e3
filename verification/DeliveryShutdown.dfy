/** Orderly shutdown, over runs: before the worker joins its tasks it has listed the directory once more, and every
    file that this listing met has been dealt with by then. */
module DeliveryShutdown {
  import opened Delivery
  import opened DeliverySafety
  import opened DeliveryRuns
  import opened DeliveryProgress
  import opened DeliveryStability
  import opened DeliveryWakeup
  import opened Inductions

  // ---------------------------------------------------------------- the worker's way out

  predicate InFinalDrain(w: Worker) {
    w.Draining? && w.final
  }

  predicate LeavingLoop(w: Worker) {
    w == Listing(true) || InFinalDrain(w) || w.Joining?
  }

  lemma JoiningComesFrom(c: Settings, s: State, step: Step, s': State)
    requires Moves(c, s, step, s') && s'.worker.Joining? && !s.worker.Joining?
    ensures (step == Drain(DrainDone) && InFinalDrain(s.worker))
            || (step == Drain(ListFails) && s.worker == Listing(true))
  {
  }

  lemma FinalDrainComesFrom(c: Settings, s: State, step: Step, s': State)
    requires Moves(c, s, step, s') && InFinalDrain(s'.worker) && !InFinalDrain(s.worker)
    ensures step == Drain(List) && s.worker == Listing(true)
  {
  }

  lemma FinalListingComesFrom(c: Settings, s: State, step: Step, s': State)
    requires Moves(c, s, step, s') && s'.worker == Listing(true) && s.worker != Listing(true)
    ensures step == Drain(WakeCancelled)
  {
  }

  lemma StaysInDrain(c: Settings, s: State, step: Step, s': State)
    requires Moves(c, s, step, s') && InFinalDrain(s.worker) && InFinalDrain(s'.worker)
    ensures WithinDrain(step)
  {
  }

  /** Where the worker began to join, and where it began its final drain, if it did. */
  lemma JoinedFrom(c: Settings, states: seq<State>, steps: seq<Step>, d: nat) returns (l: nat, e: nat)
    requires Run(c, states, steps) && d < |steps| && steps[d] == Drain(Join)
    ensures l <= e < d && states[l].worker == Listing(true)
    ensures if l == e then steps[l] == Drain(ListFails) else steps[l] == Drain(List) && steps[e] == Drain(DrainDone)
    ensures forall x {:trigger states[x]} :: l < x <= e ==> InFinalDrain(states[x].worker)
    ensures forall x {:trigger states[x]} :: e < x <= d ==> states[x].worker.Joining?
  {
    RunStep(c, states, steps, d);
    var joining := (k: nat) => k < |states| && states[k].worker.Joining?;
    e := LastChange(joining, 0, d);
    assert joining(e + 1);
    RunStep(c, states, steps, e);
    JoiningComesFrom(c, states[e], steps[e], states[e + 1]);
    if steps[e] == Drain(ListFails) {
      l := e;
    } else {
      l := DrainedFrom(c, states, steps, e);
    }
    forall x {:trigger states[x]} | e < x <= d ensures states[x].worker.Joining? { assert joining(x); }
  }

  lemma DrainedFrom(c: Settings, states: seq<State>, steps: seq<Step>, e: nat) returns (l: nat)
    requires Run(c, states, steps) && e < |states| && InFinalDrain(states[e].worker)
    ensures l < e && steps[l] == Drain(List) && states[l].worker == Listing(true)
    ensures forall x {:trigger states[x]} :: l < x <= e ==> InFinalDrain(states[x].worker)
  {
    var draining := (k: nat) => k < |states| && InFinalDrain(states[k].worker);
    l := LastChange(draining, 0, e);
    assert draining(l + 1);
    RunStep(c, states, steps, l);
    FinalDrainComesFrom(c, states[l], steps[l], states[l + 1]);
    forall x {:trigger states[x]} | l < x <= e ensures InFinalDrain(states[x].worker) { assert draining(x); }
  }

  lemma ListedFrom(c: Settings, states: seq<State>, steps: seq<Step>, l: nat) returns (w: nat)
    requires Run(c, states, steps) && l < |states| && states[l].worker == Listing(true)
    ensures w < l && steps[w] == Drain(WakeCancelled)
    ensures forall x {:trigger states[x]} :: w < x <= l ==> states[x].worker == Listing(true)
  {
    var listing := (k: nat) => k < |states| && states[k].worker == Listing(true);
    w := LastChange(listing, 0, l);
    assert listing(w + 1);
    RunStep(c, states, steps, w);
    FinalListingComesFrom(c, states[w], steps[w], states[w + 1]);
    forall x {:trigger states[x]} | w < x <= l ensures states[x].worker == Listing(true) { assert listing(x); }
  }

  // ---------------------------------------------------------------- the directory meanwhile

  /** The worker has been cancelled, so no handler is left and nothing arrives. */
  lemma NothingArrives(c: Settings, states: seq<State>, steps: seq<Step>, x: nat)
    requires SettingsOk(c) && Run(c, states, steps) && x < |steps|
    requires LeavingLoop(states[x].worker) || steps[x] == Drain(WakeCancelled)
    ensures states[x].cancelled && states[x].handlers == map[] && !steps[x].Server?
  {
    GoodReachable(c, states, steps, x);
    RunStep(c, states, steps, x);
    CancelledIsQuiet(c, states[x], steps[x], states[x + 1]);
  }

  lemma CancelledIsQuiet(c: Settings, s: State, step: Step, s': State)
    requires DownOk(s) && CancelOk(s) && Moves(c, s, step, s')
    requires LeavingLoop(s.worker) || step == Drain(WakeCancelled)
    ensures s.cancelled && s.handlers == map[] && !step.Server?
  {
  }

  lemma StaysInProcess(c: Settings, s: State, step: Step, s': State)
    requires DownOk(s) && Moves(c, s, step, s') && LeavingLoop(s'.worker)
    ensures SameProcess(step)
  {
  }

  /** The task removes the file or sets it aside. */
  predicate LetsGo(s: State, step: Step, name: string) {
    step.Forward? && (step.forward.Remove? || step.forward.Bury?) && step.i < |s.tasks| && s.tasks[step.i].name == name
  }

  /** The task ends its run and leaves the file where it is. */
  predicate GivesBack(s: State, step: Step, name: string) {
    step.Forward? && Abandons(step.forward) && step.i < |s.tasks| && s.tasks[step.i].name == name
  }

  lemma PendingStep(c: Settings, s: State, step: Step, s': State, name: string)
    requires SettingsOk(c) && Moves(c, s, step, s') && SameProcess(step) && name in Pending(c, s)
             && !LetsGo(s, step, name)
    ensures name in Pending(c, s')
  {
    match step
    case Server(st) => ServerKeepsFinalNames(c, s, st, name);
    case Drain(_) =>
    case Forward(_, _) =>
    case Process(_) =>
  }

  lemma PendingUnlessLetGo(c: Settings, states: seq<State>, steps: seq<Step>, a: nat, b: nat, name: string)
    requires SettingsOk(c) && Run(c, states, steps) && a <= b < |states| && name in Pending(c, states[a])
    requires forall x {:trigger steps[x]} :: a <= x < b ==> SameProcess(steps[x])
    ensures name in Pending(c, states[b])
            || exists x {:trigger steps[x]} :: a <= x < b && LetsGo(states[x], steps[x], name)
  {
    if forall x {:trigger steps[x]} :: a <= x < b ==> !LetsGo(states[x], steps[x], name) {
      var p := (k: nat) => k < |states| && name in Pending(c, states[k]);
      forall k: nat | a <= k < b ensures Links(p, k) {
        var step := steps[k];
        RunStep(c, states, steps, k);
        if p(k) {
          PendingStep(c, states[k], step, states[k + 1], name);
        }
      }
      Chain(p, a, b);
    }
  }

  // ---------------------------------------------------------------- the final drain

  /** The process is being shut down, and the step enqueues nothing. */
  ghost predicate NothingEnters(c: Settings, s: State, step: Step) {
    SameProcess(step) && s.cancelled && PublishedName(c, s, step).None?
  }

  /** The drain considered the name, and that gave it a task unless a returned task still held it. */
  ghost predicate Considered(states: seq<State>, steps: seq<Step>, l: nat, d: nat, name: string)
    requires |states| == |steps| + 1 && l < d < |states|
  {
    exists j {:trigger steps[j]} :: l < j < d && steps[j] == Drain(Claim(name))
      && (Attended(states[j + 1], name) <==> !Races(states[j], steps[j], name))
  }

  /** The worker never joins its tasks without a final drain. After it has seen the cancellation, at step `w`, nothing
      arrives any more, it lists the directory at step `l`, and unless that listing fails it considers every file that
      is there. A file that was there at `w` is, unless a task has removed it or set it aside since. */
  lemma JoinFollowsTheFinalDrain(c: Settings, states: seq<State>, steps: seq<Step>, d: nat) returns (w: nat, l: nat)
    requires SettingsOk(c) && Run(c, states, steps) && d < |steps| && steps[d] == Drain(Join)
    ensures w < l < d && steps[w] == Drain(WakeCancelled) && (steps[l] == Drain(List) || steps[l] == Drain(ListFails))
    ensures forall x {:trigger steps[x]} :: w <= x < d ==> NothingEnters(c, states[x], steps[x])
    ensures forall name :: name in Pending(c, states[w]) ==>
              name in Pending(c, states[l])
              || exists x {:trigger steps[x]} :: w <= x < l && LetsGo(states[x], steps[x], name)
    ensures steps[l] == Drain(List) ==>
              forall name :: name in Pending(c, states[l]) ==> Considered(states, steps, l, d, name)
  {
    var e;
    l, e := JoinedFrom(c, states, steps, d);
    w := ListedFrom(c, states, steps, l);
    forall x | w <= x < d ensures NothingEnters(c, states[x], steps[x]) {
      QuietOnTheWayOut(c, states, steps, w, l, e, d, x);
    }
    forall name | name in Pending(c, states[w])
      ensures name in Pending(c, states[l])
              || exists x {:trigger steps[x]} :: w <= x < l && LetsGo(states[x], steps[x], name)
    {
      PendingUnlessLetGo(c, states, steps, w, l, name);
    }
    if steps[l] == Drain(List) {
      forall name | name in Pending(c, states[l]) ensures Considered(states, steps, l, d, name) {
        EveryListedIsConsidered(c, states, steps, l, e, d, name);
      }
    }
  }

  lemma QuietOnTheWayOut(c: Settings, states: seq<State>, steps: seq<Step>, w: nat, l: nat, e: nat, d: nat, x: nat)
    requires SettingsOk(c) && Run(c, states, steps) && w < l <= e < d < |states| && w <= x < d
    requires steps[w] == Drain(WakeCancelled) && states[d].worker.Joining?
    requires forall x {:trigger states[x]} :: w < x <= l ==> states[x].worker == Listing(true)
    requires forall x {:trigger states[x]} :: l < x <= e ==> InFinalDrain(states[x].worker)
    requires forall x {:trigger states[x]} :: e < x <= d ==> states[x].worker.Joining?
    ensures NothingEnters(c, states[x], steps[x])
  {
    var s, s' := states[x], states[x + 1];
    NothingArrives(c, states, steps, x);
    InvReachable(c, states, steps, x);
    RunStep(c, states, steps, x);
    StaysInProcess(c, s, steps[x], s');
  }

  lemma EveryListedIsConsidered(c: Settings, states: seq<State>, steps: seq<Step>, l: nat, e: nat, d: nat,
                                name: string)
    requires SettingsOk(c) && Run(c, states, steps) && l < e < d <= |steps|
    requires steps[l] == Drain(List) && steps[e] == Drain(DrainDone) && name in Pending(c, states[l])
    requires forall x {:trigger states[x]} :: l < x <= e ==> InFinalDrain(states[x].worker)
    ensures Considered(states, steps, l, d, name)
  {
    forall x {:trigger steps[x]} | l < x < e ensures WithinDrain(steps[x]) {
      var s, s' := states[x], states[x + 1];
      RunStep(c, states, steps, x);
      StaysInDrain(c, s, steps[x], s');
    }
    var j := ListedIsConsidered(c, states, steps, l, e, name);
  }

  // ---------------------------------------------------------------- and what becomes of the files

  lemma AttendedStep(c: Settings, s: State, step: Step, s': State, name: string)
    requires Moves(c, s, step, s') && SameProcess(step) && Attended(s, name) && name in s'.pending
    requires !GivesBack(s, step, name)
    ensures Attended(s', name)
  {
    match step
    case Server(_) => AttendedSame(c, s, s', name);
    case Drain(_) => AttendedGrows(s, s', name);
    case Forward(i, st) => AttendedForward(c, s, i, st, name);
    case Process(_) => AttendedSame(c, s, s', name);
  }

  lemma AttendedForward(c: Settings, s: State, i: nat, step: TaskStep, name: string)
    requires TaskEnabled(c, s, i, step) && Attended(s, name) && name in TaskApply(c, s, i, step).pending
    requires !(Abandons(step) && s.tasks[i].name == name)
    ensures Attended(TaskApply(c, s, i, step), name)
  {
    var s' := TaskApply(c, s, i, step);
    var j :| 0 <= j < |s.tasks| && s.tasks[j].name == name && Claims(s.tasks[j]) && !s.tasks[j].phase.Finished?;
    if j == i {
      StaysAttentive(c, s, i, step);
      assert s'.tasks[i] == Task(name, PhaseAfter(c, s, i, step));
    } else {
      assert s'.tasks[j] == s.tasks[j];
    }
  }

  /** The file is gone, or a task has given it back since step `j`. */
  ghost predicate Settled(states: seq<State>, steps: seq<Step>, j: nat, d: nat, name: string)
    requires |states| == |steps| + 1 && j < d < |states|
  {
    name !in states[d].pending || exists y {:trigger steps[y]} :: j < y < d && GivesBack(states[y], steps[y], name)
  }

  lemma AttendedIsSettled(c: Settings, states: seq<State>, steps: seq<Step>, j: nat, d: nat, name: string)
    requires SettingsOk(c) && Run(c, states, steps) && j < d < |states| && c.names.isJson(name)
    requires Attended(states[j + 1], name) && !Attended(states[d], name)
    requires forall x {:trigger steps[x]} :: j < x < d ==> NothingEnters(c, states[x], steps[x])
    ensures Settled(states, steps, j, d, name)
  {
    var unattended := (k: nat) => k < |states| && !Attended(states[k], name);
    var y := LastChange(unattended, j + 1, d);
    assert unattended(y + 1);
    var step := steps[y];
    RunStep(c, states, steps, y);
    if !GivesBack(states[y], step, name) && name in states[y + 1].pending {
      AttendedStep(c, states[y], step, states[y + 1], name);
    } else if !GivesBack(states[y], step, name) {
      RecordsAreStable(c, states, steps, y + 1, d, name);
    }
  }

  /** After the listing at step `l` the drain considered the name; it was raced then, or is settled by now. */
  ghost predicate DealtWith(states: seq<State>, steps: seq<Step>, l: nat, d: nat, name: string)
    requires |states| == |steps| + 1 && l < d < |states|
  {
    exists j {:trigger steps[j]} :: l < j < d && steps[j] == Drain(Claim(name))
      && (Races(states[j], steps[j], name) || Settled(states, steps, j, d, name))
  }

  lemma AllHaveEnded(c: Settings, states: seq<State>, steps: seq<Step>, d: nat, name: string)
    requires Run(c, states, steps) && d < |steps| && steps[d] == Drain(Join)
    ensures !Attended(states[d], name)
  {
    RunStep(c, states, steps, d);
  }

  lemma ConsideredIsDealtWith(c: Settings, states: seq<State>, steps: seq<Step>, l: nat, d: nat, name: string)
    requires SettingsOk(c) && Run(c, states, steps) && l < d < |steps| && steps[d] == Drain(Join)
    requires c.names.isJson(name) && Considered(states, steps, l, d, name)
    requires forall x {:trigger steps[x]} :: l < x < d ==> NothingEnters(c, states[x], steps[x])
    ensures DealtWith(states, steps, l, d, name)
  {
    AllHaveEnded(c, states, steps, d, name);
    var j :| l < j < d && steps[j] == Drain(Claim(name))
             && (Attended(states[j + 1], name) <==> !Races(states[j], steps[j], name));
    if !Races(states[j], steps[j], name) {
      AttendedIsSettled(c, states, steps, j, d, name);
    }
  }

  /** So shutdown leaves no file untouched: by the time the worker joins, each file that the final listing met is gone,
      was given back by its task after the drain had considered it, or was passed over in a race. */
  lemma ShutdownTriesEveryFile(c: Settings, states: seq<State>, steps: seq<Step>, d: nat)
      returns (w: nat, l: nat)
    requires SettingsOk(c) && Run(c, states, steps) && d < |steps| && steps[d] == Drain(Join)
    ensures w < l < d && steps[w] == Drain(WakeCancelled) && (steps[l] == Drain(List) || steps[l] == Drain(ListFails))
    ensures steps[l] == Drain(List) ==>
              forall name :: name in Pending(c, states[l]) ==> DealtWith(states, steps, l, d, name)
  {
    w, l := JoinFollowsTheFinalDrain(c, states, steps, d);
    if steps[l] == Drain(List) {
      forall name | name in Pending(c, states[l]) ensures DealtWith(states, steps, l, d, name) {
        assert Considered(states, steps, l, d, name);
        ConsideredIsDealtWith(c, states, steps, l, d, name);
      }
    }
  }
}

/** Bounded progress of the queue in every fair run: however forwards turn out and whoever moves when, as long as
    nothing new is enqueued, nothing crashes and no file operation fails, `pending` empties and stays empty. */
module DeliveryFairness {
  import opened Queues
  import opened Delivery
  import opened DeliverySafety
  import opened DeliveryProgress
  import opened Inductions

  // ---------------------------------------------------------------- fair runs

  ghost predicate CanMove(c: Settings, s: State, i: nat) {
    exists step :: TaskEnabled(c, s, i, step) && Smooth(Forward(i, step))
  }

  predicate MovesTask(step: Step, i: nat) {
    step.Forward? && step.i == i
  }

  /** After step `k` the worker moves again. */
  ghost predicate WorkerMoves(steps: nat -> Step, k: nat) {
    exists m: nat :: k <= m && steps(m).Drain?
  }

  /** Step `m` is one of task `i`, or one at which it cannot move. */
  ghost predicate HasItsTurn(c: Settings, states: nat -> State, steps: nat -> Step, i: nat, m: nat) {
    MovesTask(steps(m), i) || !CanMove(c, states(m), i)
  }

  /** After step `k` task `i` moves, or there is a moment at which it cannot. */
  ghost predicate TaskMoves(c: Settings, states: nat -> State, steps: nat -> Step, k: nat, i: nat) {
    exists m: nat :: k <= m && HasItsTurn(c, states, steps, i, m)
  }

  /** An infinite run of smooth steps in which the worker keeps moving (its timer expires, its directory is read)
      and no task that stays able to move is passed over for ever. */
  ghost predicate FairRun(c: Settings, states: nat -> State, steps: nat -> Step) {
    && (forall k: nat {:trigger steps(k)} :: Moves(c, states(k), steps(k), states(k + 1)) && Smooth(steps(k)))
    && (forall k: nat {:trigger WorkerMoves(steps, k)} :: WorkerMoves(steps, k))
    && (forall k: nat, i: nat {:trigger TaskMoves(c, states, steps, k, i)} ::
          i < |states(k).tasks| ==> TaskMoves(c, states, steps, k, i))
  }

  lemma StepAt(c: Settings, states: nat -> State, steps: nat -> Step, k: nat)
    requires FairRun(c, states, steps)
    ensures Moves(c, states(k), steps(k), states(k + 1)) && Smooth(steps(k))
  {
    var step := steps(k);
  }

  /** In regular operation. */
  ghost predicate Running(c: Settings, s: State) {
    Good(c, s) && s.up && !s.cancelled
  }

  lemma RunningStep(c: Settings, s: State, step: Step, s': State)
    requires SettingsOk(c) && Running(c, s) && Moves(c, s, step, s') && Smooth(step)
    ensures Running(c, s') && Potential(c, s') <= Potential(c, s)
    ensures Productive(s, step) ==> Potential(c, s') < Potential(c, s)
  {
    GoodStep(c, s, step);
    StaysUp(c, s, step);
    SmoothStepsUseUpPotential(c, s, step);
  }

  lemma RunningAt(c: Settings, states: nat -> State, steps: nat -> Step, k: nat)
    requires SettingsOk(c) && FairRun(c, states, steps) && Running(c, states(k))
    ensures Running(c, states(k + 1)) && Potential(c, states(k + 1)) <= Potential(c, states(k))
    ensures Productive(states(k), steps(k)) ==> Potential(c, states(k + 1)) < Potential(c, states(k))
  {
    StepAt(c, states, steps, k);
    RunningStep(c, states(k), steps(k), states(k + 1));
  }

  lemma RunningThroughout(c: Settings, states: nat -> State, steps: nat -> Step, k: nat)
    requires SettingsOk(c) && FairRun(c, states, steps) && Running(c, states(0))
    ensures Running(c, states(k))
  {
    var p := (j: nat) => Running(c, states(j));
    forall j: nat | j < k ensures Links(p, j) {
      if p(j) {
        RunningAt(c, states, steps, j);
      }
    }
    Chain(p, 0, k);
  }

  /** A fair run in regular operation. */
  ghost predicate Regular(c: Settings, states: nat -> State, steps: nat -> Step) {
    SettingsOk(c) && FairRun(c, states, steps) &&
    forall k: nat {:trigger Running(c, states(k))} :: Running(c, states(k))
  }

  lemma PotentialAt(c: Settings, states: nat -> State, steps: nat -> Step, k: nat)
    requires Regular(c, states, steps)
    ensures Potential(c, states(k + 1)) <= Potential(c, states(k))
    ensures Productive(states(k), steps(k)) ==> Potential(c, states(k + 1)) < Potential(c, states(k))
  {
    assert Running(c, states(k));
    RunningAt(c, states, steps, k);
  }

  // ---------------------------------------------------------------- while nothing productive happens

  /** All that counts is as it was. */
  ghost predicate Frozen(c: Settings, s: State, s': State) {
    s'.tasks == s.tasks && s'.permits == s.permits && s'.inFlight == s.inFlight && Pending(c, s') == Pending(c, s)
  }

  lemma UnproductiveServer(c: Settings, s: State, step: ServerStep)
    requires SettingsOk(c) && ServerEnabled(c, s, step) && !step.RenameTmp?
    ensures Frozen(c, s, ServerApply(c, s, step)) && ServerApply(c, s, step).worker == s.worker
  {
    ServerKeepsPending(c, s, step);
  }

  lemma UnproductiveStep(c: Settings, s: State, step: Step, s': State)
    requires SettingsOk(c) && Moves(c, s, step, s') && Smooth(step) && !Productive(s, step)
    ensures Frozen(c, s, s') && (!step.Drain? ==> s'.worker == s.worker)
  {
    match step
    case Server(st) => UnproductiveServer(c, s, st);
    case Drain(_) =>
    case Forward(_, _) =>
    case Process(_) =>
  }

  ghost predicate NoneProductive(states: nat -> State, steps: nat -> Step, k: nat, m: nat) {
    forall j: nat {:trigger steps(j)} :: k <= j < m ==> !Productive(states(j), steps(j))
  }

  lemma {:induction false} FrozenWhile(c: Settings, states: nat -> State, steps: nat -> Step, k: nat, m: nat)
    requires SettingsOk(c) && FairRun(c, states, steps) && NoneProductive(states, steps, k, m) && k <= m
    ensures Frozen(c, states(k), states(m))
    decreases m - k
  {
    if k < m {
      FrozenWhile(c, states, steps, k, m - 1);
      StepAt(c, states, steps, m - 1);
      UnproductiveStep(c, states(m - 1), steps(m - 1), states(m));
    }
  }

  // ---------------------------------------------------------------- a task that can move

  predicate Ready(s: State, i: nat) {
    i < |s.tasks| && (HoldsPermit(s.tasks[i]) || (s.tasks[i].phase.Queued? && s.permits > 0))
  }

  lemma ReadyCanMove(c: Settings, s: State, i: nat)
    requires Running(c, s) && Ready(s, i)
    ensures CanMove(c, s, i)
  {
    if HoldsPermit(s.tasks[i]) {
      var step := HolderProgresses(c, s, i);
    } else {
      assert TaskEnabled(c, s, i, Acquire) && Smooth(Forward(i, Acquire));
    }
  }

  lemma ReadyStays(c: Settings, states: nat -> State, steps: nat -> Step, k: nat, m: nat, i: nat)
    requires Regular(c, states, steps) && NoneProductive(states, steps, k, m) && k <= m && Ready(states(k), i)
    ensures CanMove(c, states(m), i)
  {
    FrozenWhile(c, states, steps, k, m);
    assert Running(c, states(m));
    ReadyCanMove(c, states(m), i);
  }

  lemma FairToTask(c: Settings, states: nat -> State, steps: nat -> Step, k: nat, i: nat) returns (m: nat)
    requires FairRun(c, states, steps) && i < |states(k).tasks|
    ensures k <= m && HasItsTurn(c, states, steps, i, m)
  {
    assert TaskMoves(c, states, steps, k, i);
    m :| k <= m && HasItsTurn(c, states, steps, i, m);
  }

  /** If a task is ready, something productive happens. */
  lemma ReadyTaskMoves(c: Settings, states: nat -> State, steps: nat -> Step, k: nat, i: nat) returns (m: nat)
    requires Regular(c, states, steps) && Ready(states(k), i)
    ensures k <= m && Productive(states(m), steps(m))
  {
    m := FairToTask(c, states, steps, k, i);
    if NoneProductive(states, steps, k, m) {
      ReadyStays(c, states, steps, k, m, i);
    } else {
      m := ProductiveBetween(states, steps, k, m);
    }
  }

  lemma ProductiveBetween(states: nat -> State, steps: nat -> Step, k: nat, m: nat) returns (j: nat)
    requires !NoneProductive(states, steps, k, m)
    ensures k <= j && Productive(states(j), steps(j))
  {
    j :| k <= j < m && Productive(states(j), steps(j));
  }

  // ---------------------------------------------------------------- the worker alone

  predicate AllEnded(s: State) {
    forall j :: 0 <= j < |s.tasks| ==> s.tasks[j].phase.Ended?
  }

  /** With no task left, every unproductive step of the worker brings the next spawn closer. */
  lemma DrainComesRound(c: Settings, s: State, step: WorkerStep)
    requires SettingsOk(c) && Running(c, s) && WorkerEnabled(s, step) && !step.ListFails? && !Spawns(s, step)
    requires AllEnded(s) && Pending(c, s) != {}
    ensures CycleRank(WorkerApply(c, s, step)) < CycleRank(s)
  {
    assert s.inFlight == {};
  }

  lemma RankAt(c: Settings, states: nat -> State, steps: nat -> Step, k: nat, m: nat)
    requires Regular(c, states, steps) && NoneProductive(states, steps, k, m) && k <= m
    requires AllEnded(states(k)) && Pending(c, states(k)) != {} && !Productive(states(m), steps(m))
    ensures if steps(m).Drain? then CycleRank(states(m + 1)) < CycleRank(states(m))
            else CycleRank(states(m + 1)) == CycleRank(states(m))
  {
    FrozenWhile(c, states, steps, k, m);
    StepAt(c, states, steps, m);
    if steps(m).Drain? {
      DrainComesRound(c, states(m), steps(m).drain);
    } else {
      UnproductiveStep(c, states(m), steps(m), states(m + 1));
    }
  }

  lemma RankFalls(c: Settings, states: nat -> State, steps: nat -> Step, k: nat, m: nat)
    requires Regular(c, states, steps) && NoneProductive(states, steps, k, m) && k <= m
    requires AllEnded(states(k)) && Pending(c, states(k)) != {}
    ensures CycleRank(states(m)) <= CycleRank(states(k))
  {
    var rank := (j: nat) => CycleRank(states(j));
    var never := (j: nat) => false;
    forall j: nat | k <= j < m ensures FallsAt(rank, never, j) {
      var step := steps(j);
      RankAt(c, states, steps, k, j);
    }
    Descends(rank, never, k, m);
  }

  lemma WorkerIsFair(c: Settings, states: nat -> State, steps: nat -> Step, k: nat) returns (m: nat)
    requires FairRun(c, states, steps)
    ensures k <= m && steps(m).Drain?
  {
    assert WorkerMoves(steps, k);
    m :| k <= m && steps(m).Drain?;
  }

  /** If no task is left but a file is pending, the worker comes round to it. */
  lemma {:induction false} WorkerComesRound(c: Settings, states: nat -> State, steps: nat -> Step, k: nat)
      returns (m: nat)
    requires Regular(c, states, steps)
    requires AllEnded(states(k)) && Pending(c, states(k)) != {}
    ensures k <= m && Productive(states(m), steps(m))
    decreases CycleRank(states(k))
  {
    m := WorkerIsFair(c, states, steps, k);
    if !NoneProductive(states, steps, k, m) {
      m := ProductiveBetween(states, steps, k, m);
    } else if !Productive(states(m), steps(m)) {
      RankFalls(c, states, steps, k, m);
      RankAt(c, states, steps, k, m);
      FrozenWhile(c, states, steps, k, m + 1);
      m := WorkerComesRound(c, states, steps, m + 1);
    }
  }

  // ---------------------------------------------------------------- the theorem

  /** Nothing is pending and nothing is under way. */
  ghost predicate Settled(c: Settings, s: State) {
    Pending(c, s) == {} && AllEnded(s)
  }

  /** Until everything is settled, something productive is still to come. */
  lemma UnsettledGoesOn(c: Settings, states: nat -> State, steps: nat -> Step, k: nat) returns (m: nat)
    requires Regular(c, states, steps) && !Settled(c, states(k))
    ensures k <= m && Productive(states(m), steps(m))
  {
    if AllEnded(states(k)) {
      m := WorkerComesRound(c, states, steps, k);
    } else {
      assert Running(c, states(k));
      var i := SomeTaskIsReady(c, states(k));
      m := ReadyTaskMoves(c, states, steps, k, i);
    }
  }

  lemma LastProductiveStep(c: Settings, states: nat -> State, steps: nat -> Step) returns (n: nat)
    requires Regular(c, states, steps)
    ensures forall m: nat {:trigger steps(m)} :: n <= m ==> !Productive(states(m), steps(m))
  {
    ghost var p := (k: nat) => Potential(c, states(k));
    ghost var q := (k: nat) => Productive(states(k), steps(k));
    forall j: nat ensures FallsAt(p, q, j) {
      PotentialAt(c, states, steps, j);
    }
    n := LastDescent(p, q, 0);
    forall m: nat | n <= m ensures !Productive(states(m), steps(m)) {
      assert !q(m);
    }
  }

  /** In every fair run from a state of regular operation, whatever the forwards do, there is a moment from which on
      nothing is pending and every forward task has ended. */
  lemma FairRunsEmptyTheQueue(c: Settings, states: nat -> State, steps: nat -> Step) returns (n: nat)
    requires SettingsOk(c) && FairRun(c, states, steps) && Running(c, states(0))
    ensures forall m: nat :: n <= m ==> Settled(c, states(m))
  {
    forall k: nat ensures Running(c, states(k)) { RunningThroughout(c, states, steps, k); }
    n := LastProductiveStep(c, states, steps);
    if !Settled(c, states(n)) {
      var m := UnsettledGoesOn(c, states, steps, n);
      var step := steps(m);
    }
    forall m: nat | n <= m ensures Settled(c, states(m)) {
      FrozenWhile(c, states, steps, n, m);
    }
  }

  // ---------------------------------------------------------------- fair runs exist

  /** The worker rests: everything is settled and the last listing found nothing amiss. */
  ghost predicate AtRest(c: Settings, s: State) {
    Settled(c, s) && s.worker == Idle(false) && s.h.missed == {}
  }

  /** How far a settled worker without listed names is from rest. */
  function RestRank(s: State): nat {
    match s.worker
    case Idle(ticked) => if ticked then 3 else if s.h.missed == {} then 0 else 4
    case Listing(_) => 2
    case Draining(_, _) => if s.h.missed == {} then 1 else 5
    case _ => 0
  }

  lemma NoneInFlight(c: Settings, s: State)
    requires Running(c, s) && AllEnded(s)
    ensures s.inFlight == {} && Looping(s.worker) && !s.worker.LateIdle?
  {
  }

  lemma SettledProgresses(c: Settings, s: State) returns (step: WorkerStep)
    requires s.up && s.inFlight == {} && Looping(s.worker) && !s.worker.LateIdle?
    requires Settled(c, s) && !AtRest(c, s)
    ensures WorkerEnabled(s, step) && !step.ListFails?
    ensures Spawns(s, step) || RestRank(WorkerApply(c, s, step)) < RestRank(s)
  {
    match s.worker {
      case Idle(ticked) => step := if ticked then WakeTicked else Tick;
      case Listing(_) =>
        step := List;
        assert FinalNames(s.pending, c.names.isJson) == {};
      case Draining(left, _) =>
        if left == {} {
          step := DrainDone;
        } else {
          var name :| name in left;
          step := Claim(name);
        }
      case _ =>
    }
  }

  /** Two stages: until the queue is settled, and from there to rest. */
  ghost function Distance(c: Settings, s: State): (int, int) {
    if Settled(c, s) then (0, RestRank(s)) else (1, CycleRank(s))
  }

  /** A smooth step that is productive or comes closer. */
  lemma NextTowardsRest(c: Settings, s: State) returns (step: Step)
    requires SettingsOk(c) && Running(c, s) && !AtRest(c, s)
    ensures Enabled(c, s, step) && Smooth(step) && !step.Server?
    ensures Productive(s, step)
            || (if Settled(c, s) then RestRank(Apply(c, s, step)) < RestRank(s)
                else CycleRank(Apply(c, s, step)) < CycleRank(s))
  {
    if Settled(c, s) {
      NoneInFlight(c, s);
      var st := SettledProgresses(c, s);
      step := Drain(st);
    } else {
      step := WorkIsNeverStuck(c, s);
    }
  }

  lemma CloserToRest(c: Settings, s: State, step: Step, s': State)
    requires SettingsOk(c) && Moves(c, s, step, s') && Smooth(step) && !Productive(s, step)
    requires if Settled(c, s) then RestRank(s') < RestRank(s) else CycleRank(s') < CycleRank(s)
    ensures Distance(c, s').0 == Distance(c, s).0 && 0 <= Distance(c, s').1 < Distance(c, s).1
  {
    UnproductiveStep(c, s, step, s');
  }

  lemma TowardsRest(c: Settings, s: State) returns (step: Step, s': State)
    requires SettingsOk(c) && Running(c, s) && !AtRest(c, s)
    ensures Moves(c, s, step, s') && Smooth(step) && Running(c, s') && Potential(c, s') <= Potential(c, s)
    ensures Potential(c, s') < Potential(c, s)
            || (Distance(c, s').0 == Distance(c, s).0 && 0 <= Distance(c, s').1 < Distance(c, s).1)
  {
    step := NextTowardsRest(c, s);
    s' := Apply(c, s, step);
    RunningStep(c, s, step, s');
    if !Productive(s, step) {
      CloserToRest(c, s, step, s');
    }
  }

  /** A finite stretch of smooth steps. */
  ghost predicate SmoothAt(c: Settings, states: seq<State>, steps: seq<Step>, k: nat)
    requires |states| == |steps| + 1 && k < |steps|
  {
    Moves(c, states[k], steps[k], states[k + 1]) && Smooth(steps[k])
  }

  ghost predicate LeadsToRest(c: Settings, s: State, states: seq<State>, steps: seq<Step>) {
    && |states| == |steps| + 1 && states[0] == s && states[|steps|].up && AtRest(c, states[|steps|])
    && forall k {:trigger SmoothAt(c, states, steps, k)} :: 0 <= k < |steps| ==> SmoothAt(c, states, steps, k)
  }

  lemma OneStepMore(c: Settings, s: State, step: Step, s': State, states: seq<State>, steps: seq<Step>)
    requires Moves(c, s, step, s') && Smooth(step) && LeadsToRest(c, s', states, steps)
    ensures LeadsToRest(c, s, [s] + states, [step] + steps)
  {
    var states', steps' := [s] + states, [step] + steps;
    forall k | 0 <= k < |steps'| ensures SmoothAt(c, states', steps', k) {
      if k > 0 {
        assert states'[k] == states[k - 1] && steps'[k] == steps[k - 1] && states'[k + 1] == states[k];
        assert SmoothAt(c, states, steps, k - 1);
      }
    }
  }

  /** From every state of regular operation the worker can come to rest. */
  lemma {:induction false} ComesToRest(c: Settings, s: State) returns (states: seq<State>, steps: seq<Step>)
    requires SettingsOk(c) && Running(c, s)
    ensures LeadsToRest(c, s, states, steps)
    decreases Potential(c, s), Distance(c, s).0, Distance(c, s).1
  {
    if AtRest(c, s) {
      states, steps := [s], [];
    } else {
      var step, s' := TowardsRest(c, s);
      states, steps := ComesToRest(c, s');
      OneStepMore(c, s, step, s', states, steps);
      states, steps := [s] + states, [step] + steps;
    }
  }

  /** A worker at rest going round its loop: the tick, the wake-up, an empty listing. */
  function IdleWorker(k: nat): Worker {
    if k % 4 == 0 then Idle(false) else if k % 4 == 1 then Idle(true)
    else if k % 4 == 2 then Listing(false) else Draining({}, false)
  }

  function IdleStep(k: nat): Step {
    Drain(if k % 4 == 0 then Tick else if k % 4 == 1 then WakeTicked else if k % 4 == 2 then List else DrainDone)
  }

  lemma IdleMoves(c: Settings, s: State, k: nat)
    requires s.up && !s.cancelled && Settled(c, s) && s.h.missed == {}
    ensures Moves(c, s.(worker := IdleWorker(k)), IdleStep(k), s.(worker := IdleWorker(k + 1))) && Smooth(IdleStep(k))
  {
    assert FinalNames(s.pending, c.names.isJson) == {};
  }

  lemma EndedCannotMove(c: Settings, s: State, i: nat)
    requires AllEnded(s)
    ensures !CanMove(c, s, i)
  {
  }

  /** First the stretch, then idling for ever. */
  function StateThen(path: seq<State>, k: nat): State
    requires path != []
  {
    var n := |path| - 1;
    if k < n then path[k] else path[n].(worker := IdleWorker(k - n))
  }

  function StepThen(first: seq<Step>, k: nat): Step {
    if k < |first| then first[k] else IdleStep(k - |first|)
  }

  lemma MovesThen(c: Settings, s: State, path: seq<State>, first: seq<Step>, k: nat)
    requires LeadsToRest(c, s, path, first) && !path[|first|].cancelled
    ensures Moves(c, StateThen(path, k), StepThen(first, k), StateThen(path, k + 1)) && Smooth(StepThen(first, k))
  {
    var n := |first|;
    if k < n {
      assert SmoothAt(c, path, first, k);
      assert path[n].(worker := IdleWorker(0)) == path[n];
    } else {
      IdleMoves(c, path[n], k - n);
    }
  }

  lemma RestingIsFair(c: Settings, s: State, path: seq<State>, first: seq<Step>)
      returns (states: nat -> State, steps: nat -> Step)
    requires LeadsToRest(c, s, path, first) && !path[|first|].cancelled
    ensures FairRun(c, states, steps) && states(0) == s
  {
    states, steps := (k: nat) => StateThen(path, k), (k: nat) => StepThen(first, k);
    forall k: nat ensures Moves(c, states(k), steps(k), states(k + 1)) && Smooth(steps(k)) {
      MovesThen(c, s, path, first, k);
    }
    forall k: nat ensures WorkerMoves(steps, k) {
      var m: nat := k + |first|;
      assert steps(m) == IdleStep(k);
    }
    forall k: nat, i: nat | i < |states(k).tasks| ensures TaskMoves(c, states, steps, k, i) {
      var m: nat := k + |first|;
      EndedCannotMove(c, states(m), i);
      assert HasItsTurn(c, states, steps, i, m);
    }
    assert path[|first|].(worker := IdleWorker(0)) == path[|first|];
  }

  lemma {:induction false} NeverCancelled(c: Settings, s: State, states: seq<State>, steps: seq<Step>, k: nat)
    requires LeadsToRest(c, s, states, steps) && k < |states| && s.up && !s.cancelled
    ensures states[k].up && !states[k].cancelled
  {
    if k > 0 {
      NeverCancelled(c, s, states, steps, k - 1);
      assert SmoothAt(c, states, steps, k - 1);
      StaysUp(c, states[k - 1], steps[k - 1]);
    }
  }

  /** Fair runs start from every state of regular operation: the theorem is not about nothing. */
  lemma FairRunsExist(c: Settings, s: State) returns (states: nat -> State, steps: nat -> Step)
    requires SettingsOk(c) && Running(c, s)
    ensures FairRun(c, states, steps) && states(0) == s
  {
    var path, first := ComesToRest(c, s);
    NeverCancelled(c, s, path, first, |first|);
    states, steps := RestingIsFair(c, s, path, first);
  }
}

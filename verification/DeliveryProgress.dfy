/** Liveness of the delivery protocol as measures: orderly shutdown ends, and without new messages,
    crashes and file errors the queue empties. */
module DeliveryProgress {
  import opened Transcription
  import opened Queues
  import opened Delivery
  import opened DeliverySafety
  import opened DeliveryRuns
  import opened Inductions
  import TtlSets

  // ---------------------------------------------------------------- paths and measures

  ghost predicate Playable(c: Settings, s: State, steps: seq<Step>)
    decreases |steps|
  {
    steps == [] || (Enabled(c, s, steps[0]) && Playable(c, Apply(c, s, steps[0]), steps[1..]))
  }

  ghost function After(c: Settings, s: State, steps: seq<Step>): State
    requires Playable(c, s, steps)
    decreases |steps|
  {
    if steps == [] then s else After(c, Apply(c, s, steps[0]), steps[1..])
  }

  /** Steps a task in an attempt can still take: three for every retry left, then failing for good,
      moving the file, and leaving. */
  function TryingRank(maxRetries: nat, attempt: nat): nat {
    4 + 3 * (if attempt <= maxRetries then maxRetries - attempt else 0)
  }

  function Remaining(maxRetries: nat, p: TaskPhase): nat {
    match p
    case Queued => TryingRank(maxRetries, 0) + 3
    case Permitted => TryingRank(maxRetries, 0) + 2
    case Transcribing(_) => TryingRank(maxRetries, 0) + 1
    case Trying(k, _) => TryingRank(maxRetries, k)
    case Waiting(k, _, fired) => TryingRank(maxRetries, k + 1) + (if fired then 1 else 2)
    case Succeeded(_) => 3
    case GaveUp(_) => 3
    case Unparsable => 3
    case Finished => 2
    case Releasing => 1
    case Ended => 0
  }

  function WorkLeft(maxRetries: nat): Task -> nat {
    (t: Task) => Remaining(maxRetries, t.phase)
  }

  lemma TaskStepWorks(c: Settings, s: State, i: nat, step: TaskStep)
    requires TaskEnabled(c, s, i, step)
    ensures Remaining(c.maxRetries, PhaseAfter(c, s, i, step)) < Remaining(c.maxRetries, s.tasks[i].phase)
  {
  }

  lemma TaskStepDecreasesWork(c: Settings, s: State, i: nat, step: TaskStep)
    requires TaskEnabled(c, s, i, step)
    ensures Sum(TaskApply(c, s, i, step).tasks, WorkLeft(c.maxRetries)) < Sum(s.tasks, WorkLeft(c.maxRetries))
  {
    TaskStepWorks(c, s, i, step);
    SumUpdate(s.tasks, i, Task(s.tasks[i].name, PhaseAfter(c, s, i, step)), WorkLeft(c.maxRetries));
  }

  /** No run of `process_file` exceeds its retries. */
  ghost predicate AttemptsOk(c: Settings, s: State) {
    forall i :: 0 <= i < |s.tasks| ==>
      && (s.tasks[i].phase.Trying? ==> s.tasks[i].phase.attempt <= c.maxRetries)
      && (s.tasks[i].phase.Waiting? ==> s.tasks[i].phase.attempt < c.maxRetries)
  }

  /** Only a cancelled worker leaves its loop, and cancellation waits for the handlers. */
  predicate CancelOk(s: State) {
    && (s.up && !s.cancelled ==> Looping(s.worker))
    && (s.cancelled ==> s.handlers == map[])
    && (s.worker.LateIdle? ==> s.cancelled)
  }

  predicate Looping(w: Worker) {
    InSelect(w) || (w.Listing? && !w.final) || (w.Draining? && !w.final)
  }

  lemma ExtrasStep(c: Settings, s: State, step: Step)
    requires AttemptsOk(c, s) && CancelOk(s) && DownOk(s) && Enabled(c, s, step)
    ensures AttemptsOk(c, Apply(c, s, step)) && CancelOk(Apply(c, s, step))
  {
    match step
    case Server(st) => ExtrasServer(c, s, st);
    case Drain(st) => ExtrasWorker(c, s, st);
    case Forward(i, st) => ExtrasForward(c, s, i, st);
    case Process(_) =>
  }

  lemma ExtrasWorker(c: Settings, s: State, step: WorkerStep)
    requires AttemptsOk(c, s) && CancelOk(s) && WorkerEnabled(s, step)
    ensures AttemptsOk(c, WorkerApply(c, s, step)) && CancelOk(WorkerApply(c, s, step))
  {
  }

  lemma ExtrasForward(c: Settings, s: State, i: nat, step: TaskStep)
    requires AttemptsOk(c, s) && CancelOk(s) && TaskEnabled(c, s, i, step)
    ensures AttemptsOk(c, TaskApply(c, s, i, step)) && CancelOk(TaskApply(c, s, i, step))
  {
  }

  lemma ExtrasServer(c: Settings, s: State, step: ServerStep)
    requires AttemptsOk(c, s) && CancelOk(s) && ServerEnabled(c, s, step)
    ensures AttemptsOk(c, ServerApply(c, s, step)) && CancelOk(ServerApply(c, s, step))
  {
    assert s.cancelled ==> false;
    assert ServerApply(c, s, step).tasks == s.tasks;
  }

  ghost predicate Good(c: Settings, s: State) {
    Inv(c, s) && AttemptsOk(c, s) && CancelOk(s)
  }

  lemma GoodStep(c: Settings, s: State, step: Step)
    requires SettingsOk(c) && Good(c, s) && Enabled(c, s, step)
    ensures Good(c, Apply(c, s, step))
  {
    InvStep(c, s, step);
    ExtrasStep(c, s, step);
  }

  lemma {:induction false} GoodReachable(c: Settings, states: seq<State>, steps: seq<Step>, k: nat)
    requires SettingsOk(c) && Run(c, states, steps) && k < |states|
    ensures Good(c, states[k])
  {
    if k > 0 {
      GoodReachable(c, states, steps, k - 1);
      RunStep(c, states, steps, k - 1);
      GoodStep(c, states[k - 1], steps[k - 1]);
    }
  }

  /** One run of `process_file` makes at most `max_retries + 1` attempts. */
  lemma AttemptsAreBounded(c: Settings, states: seq<State>, steps: seq<Step>, k: nat, i: nat)
    requires SettingsOk(c) && Run(c, states, steps) && k < |states| && i < |states[k].tasks|
    requires states[k].tasks[i].phase.Trying?
    ensures states[k].tasks[i].phase.attempt + 1 <= c.maxRetries + 1
  {
    GoodReachable(c, states, steps, k);
  }

  // ---------------------------------------------------------------- orderly shutdown

  /** A step of a cancelled process that neither crashes nor is left. Timers may expire and file operations
      may fail. */
  ghost predicate CancelledStep(c: Settings, s: State, step: Step) {
    s.up && s.cancelled && Enabled(c, s, step) && !step.Process?
  }

  /** And no timer expires any more. */
  ghost predicate ShutdownStep(c: Settings, s: State, step: Step) {
    CancelledStep(c, s, step) && step != Drain(Tick) && !(step.Forward? && step.forward.TimerFires?)
  }

  /** Listings still to come. */
  function ListingsLeft(s: State): nat {
    var wake := if s.notified then 1 else 0;
    match s.worker
    case Idle(_) => 2 + wake
    case LateIdle => 1 + wake
    case Listing(final) => if final then 1 else 2 + wake
    case Draining(_, final) => if final then 0 else 1 + wake
    case Joining => 0
    case Exited => 0
  }

  function Left(s: State): set<string> {
    if s.worker.Draining? then s.worker.left else {}
  }

  function LoopRank(w: Worker): nat {
    match w
    case Draining(_, _) => 5
    case Idle(ticked) => if ticked then 3 else 4
    case LateIdle => 3
    case Listing(_) => 2
    case Joining => 1
    case Exited => 0
  }

  /** The lexicographic measure of shutdown. */
  ghost predicate Closer(c: Settings, s: State, s': State) {
    var w := WorkLeft(c.maxRetries);
    || ListingsLeft(s') < ListingsLeft(s)
    || (ListingsLeft(s') == ListingsLeft(s) && |Left(s')| < |Left(s)|)
    || (ListingsLeft(s') == ListingsLeft(s) && |Left(s')| == |Left(s)| && Sum(s'.tasks, w) < Sum(s.tasks, w))
    || (ListingsLeft(s') == ListingsLeft(s) && |Left(s')| == |Left(s)| && Sum(s'.tasks, w) == Sum(s.tasks, w)
        && LoopRank(s'.worker) < LoopRank(s.worker))
  }

  lemma ShutdownWorker(c: Settings, s: State, step: WorkerStep)
    requires s.cancelled && WorkerEnabled(s, step)
    ensures Closer(c, s, WorkerApply(c, s, step))
  {
    if step.Claim? {
      var left' := s.worker.left - {step.name};
      assert |s.worker.left| == |left'| + 1;
      assert Left(WorkerApply(c, s, step)) == left';
    }
  }

  /** Every step of a cancelled process brings its end closer. */
  lemma ShutdownAdvances(c: Settings, s: State, step: Step)
    requires CancelOk(s) && CancelledStep(c, s, step)
    ensures Closer(c, s, Apply(c, s, step))
  {
    match step
    case Server(_) => assert false;
    case Drain(st) => ShutdownWorker(c, s, st);
    case Forward(i, st) => TaskStepDecreasesWork(c, s, i, st);
    case Process(_) => assert false;
  }

  /** A task with a permit can always move, without waiting for a timer. */
  lemma HolderMoves(c: Settings, s: State, i: nat) returns (step: TaskStep)
    requires Good(c, s) && s.up && s.cancelled && i < |s.tasks| && HoldsPermit(s.tasks[i])
    ensures TaskEnabled(c, s, i, step) && !step.TimerFires?
  {
    var name, p := s.tasks[i].name, s.tasks[i].phase;
    match p {
      case Permitted => step := ReadStep(c, s, i);
      case Transcribing(held) => step := Transcribe(seq(|AudioItems(held.media)|, _ => FetchFailed));
      case Trying(_, _) => step := ForwardOk;
      case Waiting(_, _, _) => step := LeavePending;
      case Succeeded(_) => step := Remove;
      case GaveUp(_) => step := Bury;
      case Finished => step := Unclaim;
      case Releasing => step := Release;
      case Unparsable =>
      case Queued =>
      case Ended =>
    }
  }

  /** Reading succeeds or finds the file gone; it never finds garbage. */
  lemma ReadStep(c: Settings, s: State, i: nat) returns (step: TaskStep)
    requires Good(c, s) && s.up && i < |s.tasks| && s.tasks[i].phase.Permitted?
    ensures TaskEnabled(c, s, i, step) && (step.Read? || step.ReadGone?)
  {
    var name := s.tasks[i].name;
    if name in s.pending {
      assert c.names.isJson(name);
      step := Read;
    } else {
      step := ReadGone;
    }
  }

  /** Some task can move unless all have ended: a queued one gets a permit, or a holder exists. */
  lemma SomeTaskIsReady(c: Settings, s: State) returns (i: nat)
    requires SettingsOk(c) && Good(c, s) && s.up
    requires exists j :: 0 <= j < |s.tasks| && !s.tasks[j].phase.Ended?
    ensures i < |s.tasks| && (HoldsPermit(s.tasks[i]) || (s.tasks[i].phase.Queued? && s.permits > 0))
  {
    i :| 0 <= i < |s.tasks| && !s.tasks[i].phase.Ended?;
    if s.tasks[i].phase.Queued? && s.permits == 0 {
      i := SumWitness(s.tasks, PermitWeight());
    }
  }

  /** While the worker waits, a task can move or all are done. */
  lemma JoiningIsNeverStuck(c: Settings, s: State) returns (step: Step)
    requires SettingsOk(c) && Good(c, s) && s.up && s.cancelled && s.worker.Joining?
    ensures ShutdownStep(c, s, step)
  {
    if forall j :: 0 <= j < |s.tasks| ==> s.tasks[j].phase.Ended? {
      step := Drain(Join);
    } else {
      var i := SomeTaskIsReady(c, s);
      if HoldsPermit(s.tasks[i]) {
        var st := HolderMoves(c, s, i);
        step := Forward(i, st);
      } else {
        step := Forward(i, Acquire);
      }
    }
  }

  /** A cancelled process that has not ended can take a step. */
  lemma ShutdownIsNeverStuck(c: Settings, s: State) returns (step: Step)
    requires SettingsOk(c) && Good(c, s) && s.up && s.cancelled && !s.worker.Exited?
    ensures ShutdownStep(c, s, step)
  {
    match s.worker {
      case Idle(_) => step := Drain(WakeCancelled);
      case LateIdle => step := Drain(WakeCancelled);
      case Listing(_) => step := Drain(List);
      case Draining(left, _) =>
        if left == {} {
          step := Drain(DrainDone);
        } else {
          var name :| name in left;
          step := Drain(Claim(name));
        }
      case Joining => step := JoiningIsNeverStuck(c, s);
      case Exited =>
    }
  }

  /** A cancelled process goes on until its worker has left. Forwards fail and timers expire as they like. */
  ghost predicate ShutdownRun(c: Settings, states: nat -> State, steps: nat -> Step) {
    && Good(c, states(0)) && states(0).up && states(0).cancelled
    && forall k: nat {:trigger steps(k)} :: !states(k).worker.Exited? ==>
         Moves(c, states(k), steps(k), states(k + 1)) && !steps(k).Process?
  }

  /** However the steps are chosen, the final drain and the wait come to an end. */
  lemma EveryShutdownEnds(c: Settings, states: nat -> State, steps: nat -> Step)
    requires SettingsOk(c) && ShutdownRun(c, states, steps)
    ensures exists n: nat :: states(n).worker.Exited?
  {
    if forall k: nat :: !states(k).worker.Exited? {
      forall k: nat ensures ClosesAt(c, states, k) {
        StoppingThroughout(c, states, steps, k);
        StoppingAt(c, states, steps, k);
      }
      NoEndlessDescent(c, states, 0);
    }
  }

  ghost predicate Stopping(c: Settings, s: State) {
    Good(c, s) && s.up && s.cancelled
  }

  lemma StoppingStep(c: Settings, s: State, step: Step, s': State)
    requires SettingsOk(c) && Stopping(c, s) && Moves(c, s, step, s') && !step.Process?
    ensures Stopping(c, s') && Closer(c, s, s')
  {
    GoodStep(c, s, step);
    ShutdownAdvances(c, s, step);
  }

  lemma StoppingAt(c: Settings, states: nat -> State, steps: nat -> Step, k: nat)
    requires SettingsOk(c) && ShutdownRun(c, states, steps) && Stopping(c, states(k)) && !states(k).worker.Exited?
    ensures Stopping(c, states(k + 1)) && ClosesAt(c, states, k)
  {
    var step := steps(k);
    StoppingStep(c, states(k), step, states(k + 1));
  }

  lemma StoppingThroughout(c: Settings, states: nat -> State, steps: nat -> Step, k: nat)
    requires SettingsOk(c) && ShutdownRun(c, states, steps) && forall j: nat :: !states(j).worker.Exited?
    ensures Stopping(c, states(k))
  {
    var p := (j: nat) => Stopping(c, states(j));
    forall j: nat | j < k ensures Links(p, j) {
      if p(j) {
        StoppingAt(c, states, steps, j);
      }
    }
    Chain(p, 0, k);
  }

  ghost predicate ClosesAt(c: Settings, states: nat -> State, k: nat) {
    Closer(c, states(k), states(k + 1))
  }

  /** The measure is well-founded. */
  lemma {:induction false} NoEndlessDescent(c: Settings, states: nat -> State, k: nat)
    requires forall j: nat {:trigger ClosesAt(c, states, j)} :: j >= k ==> ClosesAt(c, states, j)
    ensures false
    decreases ListingsLeft(states(k)), |Left(states(k))|, Sum(states(k).tasks, WorkLeft(c.maxRetries)),
              LoopRank(states(k).worker)
  {
    assert ClosesAt(c, states, k);
    NoEndlessDescent(c, states, k + 1);
  }

  /** Once the worker has left, no task is under way: an undelivered message is in `pending` or in
      `dead`. */
  lemma AfterShutdownNothingIsLost(c: Settings, s: State, id: string)
    requires Good(c, s) && s.up && s.worker.Exited? && id in s.h.enqueued && id !in s.h.delivered
    ensures c.names.file(id) in s.pending || c.names.file(id) in s.dead
    ensures s.inFlight == {} && forall i :: 0 <= i < |s.tasks| ==> s.tasks[i].phase.Ended?
  {
    assert Accounted(c, s, id);
  }

  // ---------------------------------------------------------------- attempts after cancellation

  /** Attempts a task can still begin while no backoff timer expires. */
  function MayBegin(p: TaskPhase): nat {
    if p.Queued? || p.Permitted? || p.Transcribing? || (p.Waiting? && p.fired) then 1 else 0
  }

  /** A task that has yet to be spawned has its one attempt before it. */
  function Allowance(s: State, i: nat): nat {
    if i < |s.tasks| then MayBegin(s.tasks[i].phase) else 1
  }

  /** Attempts that task `i` begins. */
  function BeginsOf(steps: seq<Step>, i: nat): nat {
    if steps == [] then 0
    else (if steps[0].Forward? && steps[0].i == i && Begins(steps[0].forward) then 1 else 0) + BeginsOf(steps[1..], i)
  }

  /** Backoff timers of task `i` that expire. */
  function ExpiriesOf(steps: seq<Step>, i: nat): nat {
    if steps == [] then 0 else (if steps[0] == Forward(i, TimerFires) then 1 else 0) + ExpiriesOf(steps[1..], i)
  }

  ghost predicate CancelledPath(c: Settings, s: State, steps: seq<Step>)
    decreases |steps|
  {
    steps == [] || (CancelledStep(c, s, steps[0]) && CancelledPath(c, Apply(c, s, steps[0]), steps[1..]))
  }

  /** A wait whose timer has not expired is not followed by another attempt. */
  lemma AllowanceStep(c: Settings, s: State, step: Step, i: nat)
    requires CancelledStep(c, s, step) && CancelOk(s)
    ensures BeginsOf([step], i) + Allowance(Apply(c, s, step), i) <= Allowance(s, i) + ExpiriesOf([step], i)
  {
    assert [step][1..] == [];
  }

  /** After cancellation each task, present or still to be spawned, begins at most one attempt more than its backoff
      timers expire, and no more than these if it was in an attempt or waiting with its timer still running. So it
      begins at most one further attempt when its timer has not expired by the time it sees the cancellation. */
  lemma {:induction false} AtMostOneFurtherAttempt(c: Settings, s: State, steps: seq<Step>, i: nat)
    requires SettingsOk(c) && Good(c, s) && CancelledPath(c, s, steps)
    ensures BeginsOf(steps, i) <= Allowance(s, i) + ExpiriesOf(steps, i) <= 1 + ExpiriesOf(steps, i)
    decreases |steps|
  {
    if steps != [] {
      assert [steps[0]][1..] == [];
      AllowanceStep(c, s, steps[0], i);
      GoodStep(c, s, steps[0]);
      AtMostOneFurtherAttempt(c, Apply(c, s, steps[0]), steps[1..], i);
    }
  }

  // ---------------------------------------------------------------- the queue empties

  /** A step of regular operation while nothing new is enqueued: no crash, exit or cancellation, and
      no file operation fails. Forwards may fail, handlers and timers go on. */
  predicate Smooth(step: Step) {
    match step
    case Server(st) => !st.RenameTmp?
    case Drain(st) => !st.ListFails?
    case Forward(_, st) => !st.ReadFails? && !st.ReadBad? && !st.RemoveFails? && !st.BuryFails?
    case Process(_) => false
  }

  /** The step does something about a message, as opposed to going round the worker's loop. */
  predicate Productive(s: State, step: Step) {
    step.Forward? || (step.Drain? && Spawns(s, step.drain))
  }

  function Pending(c: Settings, s: State): set<string> {
    FinalNames(s.pending, c.names.isJson)
  }

  /** Names whose task has still to come to a result. */
  function Active(tasks: seq<Task>): set<string> {
    set i | 0 <= i < |tasks| && Claims(tasks[i]) && !tasks[i].phase.Finished? :: tasks[i].name
  }

  /** What it may cost to spawn a task and let it run. */
  function TaskCost(c: Settings): nat {
    TryingRank(c.maxRetries, 0) + 4
  }

  /** Every name pending or listed may yet cost one task that finds nothing, every pending name without
      an active task one more that does the work, and every task what it has left. */
  ghost function Potential(c: Settings, s: State): nat {
    Times(TaskCost(c), |Pending(c, s) + Left(s)|) + Times(TaskCost(c), |Pending(c, s) - Active(s.tasks)|)
    + Sum(s.tasks, WorkLeft(c.maxRetries))
  }

  function Times(k: nat, n: nat): nat {
    if n == 0 then 0 else k + Times(k, n - 1)
  }

  lemma {:induction false} TimesGrows(k: nat, m: nat, n: nat)
    requires m <= n
    ensures Times(k, m) <= Times(k, n)
    ensures m < n ==> Times(k, m) + k <= Times(k, n)
    decreases n
  {
    if m < n {
      TimesGrows(k, m, n - 1);
    }
  }

  lemma Fewer(k: nat, a: set<string>, b: set<string>)
    requires a <= b
    ensures Times(k, |a|) <= Times(k, |b|)
    ensures a != b ==> Times(k, |a|) + k <= Times(k, |b|)
  {
    TtlSets.Monotone(a, b);
    if a != b {
      var rest := b - a;
      assert b == a + rest && rest != {};
      assert |b| == |a| + |rest|;
    }
    TimesGrows(k, |a|, |b|);
  }

  lemma SamePotential(c: Settings, s: State, s': State)
    requires Pending(c, s') == Pending(c, s) && s'.tasks == s.tasks && s'.worker == s.worker
    ensures Potential(c, s') == Potential(c, s)
  {
  }

  /** Short of a rename, handlers touch temporary files only. */
  lemma ServerKeepsPending(c: Settings, s: State, step: ServerStep)
    requires SettingsOk(c) && ServerEnabled(c, s, step) && !step.RenameTmp?
    ensures Pending(c, ServerApply(c, s, step)) == Pending(c, s)
  {
    if step.CreateTmp? || step.WriteTmp? {
      assert !c.names.isJson(c.names.tmp(s.handlers[step.n].msg.id));
    }
  }

  lemma PotentialServer(c: Settings, s: State, step: ServerStep)
    requires SettingsOk(c) && ServerEnabled(c, s, step) && !step.RenameTmp?
    ensures Potential(c, ServerApply(c, s, step)) == Potential(c, s)
  {
    ServerKeepsPending(c, s, step);
    SamePotential(c, s, ServerApply(c, s, step));
  }

  lemma PotentialSpawn(c: Settings, s: State, name: string)
    requires TasksOk(c, s) && WorkerEnabled(s, Claim(name)) && name !in s.inFlight
    ensures Potential(c, WorkerApply(c, s, Claim(name))) < Potential(c, s)
  {
    var s' := WorkerApply(c, s, Claim(name));
    var t := Task(name, Queued);
    SumAppend(s.tasks, t, WorkLeft(c.maxRetries));
    var todo, todo' := Pending(c, s) - Active(s.tasks), Pending(c, s') - Active(s'.tasks);
    ActiveAppend(s.tasks, t);
    Fewer(TaskCost(c), todo', todo);
    Fewer(TaskCost(c), Pending(c, s') + Left(s'), Pending(c, s) + Left(s));
    if name in Pending(c, s) {
      assert name in todo && name !in todo';
    } else {
      assert name in Pending(c, s) + Left(s) && name !in Pending(c, s') + Left(s');
    }
  }

  lemma ActiveAppend(tasks: seq<Task>, t: Task)
    requires t.phase.Queued?
    ensures Active(tasks + [t]) == Active(tasks) + {t.name}
  {
    var tasks' := tasks + [t];
    assert tasks'[|tasks|] == t;
    forall n | n in Active(tasks) ensures n in Active(tasks') {
      var i :| 0 <= i < |tasks| && Claims(tasks[i]) && !tasks[i].phase.Finished? && tasks[i].name == n;
      assert tasks'[i] == tasks[i];
    }
  }

  lemma PotentialLoop(c: Settings, s: State, step: WorkerStep)
    requires WorkerEnabled(s, step) && !step.ListFails? && !Spawns(s, step)
    ensures Potential(c, WorkerApply(c, s, step)) <= Potential(c, s)
  {
    var s' := WorkerApply(c, s, step);
    Fewer(TaskCost(c), Pending(c, s') + Left(s'), Pending(c, s) + Left(s));
  }

  /** A task that stops being active leaves no pending file behind. */
  lemma ActiveAfter(c: Settings, s: State, i: nat, step: TaskStep)
    requires TaskEnabled(c, s, i, step) && Smooth(Forward(i, step)) && !s.cancelled
    ensures var s' := TaskApply(c, s, i, step); Pending(c, s') - Active(s'.tasks) <= Pending(c, s) - Active(s.tasks)
  {
    var s' := TaskApply(c, s, i, step);
    forall n | n in Pending(c, s') && n in Active(s.tasks) ensures n in Active(s'.tasks) {
      var j :| 0 <= j < |s.tasks| && Claims(s.tasks[j]) && !s.tasks[j].phase.Finished? && s.tasks[j].name == n;
      if j == i {
        assert Claims(s'.tasks[i]) && !s'.tasks[i].phase.Finished?;
      } else {
        assert s'.tasks[j] == s.tasks[j];
      }
    }
  }

  lemma PotentialForward(c: Settings, s: State, i: nat, step: TaskStep)
    requires TaskEnabled(c, s, i, step) && Smooth(Forward(i, step)) && !s.cancelled
    ensures Potential(c, TaskApply(c, s, i, step)) < Potential(c, s)
  {
    var s' := TaskApply(c, s, i, step);
    TaskStepDecreasesWork(c, s, i, step);
    ActiveAfter(c, s, i, step);
    Fewer(TaskCost(c), Pending(c, s') - Active(s'.tasks), Pending(c, s) - Active(s.tasks));
    Fewer(TaskCost(c), Pending(c, s') + Left(s'), Pending(c, s) + Left(s));
  }

  /** Smooth steps never add work, and every productive one uses some up. */
  lemma SmoothStepsUseUpPotential(c: Settings, s: State, step: Step)
    requires SettingsOk(c) && Good(c, s) && !s.cancelled && Enabled(c, s, step) && Smooth(step)
    ensures Potential(c, Apply(c, s, step)) <= Potential(c, s)
    ensures Productive(s, step) ==> Potential(c, Apply(c, s, step)) < Potential(c, s)
  {
    match step
    case Server(st) => PotentialServer(c, s, st);
    case Drain(st) =>
      if Spawns(s, st) {
        PotentialSpawn(c, s, st.name);
      } else {
        PotentialLoop(c, s, st);
      }
    case Forward(i, st) => PotentialForward(c, s, i, st);
    case Process(_) => assert false;
  }

  ghost predicate SmoothPath(c: Settings, s: State, steps: seq<Step>)
    decreases |steps|
  {
    steps == [] || (Enabled(c, s, steps[0]) && Smooth(steps[0]) && SmoothPath(c, Apply(c, s, steps[0]), steps[1..]))
  }

  ghost function ProductiveSteps(c: Settings, s: State, steps: seq<Step>): nat
    requires SmoothPath(c, s, steps)
    decreases |steps|
  {
    if steps == [] then 0
    else (if Productive(s, steps[0]) then 1 else 0) + ProductiveSteps(c, Apply(c, s, steps[0]), steps[1..])
  }

  lemma StaysUncancelled(c: Settings, s: State, step: Step)
    requires Enabled(c, s, step) && Smooth(step) && !s.cancelled
    ensures !Apply(c, s, step).cancelled
  {
  }

  /** However long the worker runs smoothly, it takes a bounded number of productive steps. */
  lemma {:induction false} ProductiveStepsAreBounded(c: Settings, s: State, steps: seq<Step>)
    requires SettingsOk(c) && Good(c, s) && !s.cancelled && SmoothPath(c, s, steps)
    ensures ProductiveSteps(c, s, steps) <= Potential(c, s)
    decreases |steps|
  {
    if steps != [] {
      var step, s' := steps[0], Apply(c, s, steps[0]);
      SmoothStepsUseUpPotential(c, s, step);
      GoodStep(c, s, step);
      StaysUncancelled(c, s, step);
      ProductiveStepsAreBounded(c, s', steps[1..]);
    }
  }

  function CycleRank(s: State): nat {
    match s.worker
    case Draining(left, _) => if left == {} then 4 else 0
    case Idle(ticked) => if ticked then 2 else 3
    case LateIdle => 0
    case Listing(_) => 1
    case Joining => 0
    case Exited => 0
  }

  lemma HolderProgresses(c: Settings, s: State, i: nat) returns (step: TaskStep)
    requires Good(c, s) && s.up && i < |s.tasks| && HoldsPermit(s.tasks[i])
    ensures TaskEnabled(c, s, i, step) && Smooth(Forward(i, step))
  {
    match s.tasks[i].phase {
      case Permitted => step := ReadStep(c, s, i);
      case Transcribing(held) => step := Transcribe(seq(|AudioItems(held.media)|, _ => FetchFailed));
      case Trying(_, _) => step := ForwardOk;
      case Waiting(_, _, fired) => step := if fired then Retry else TimerFires;
      case Succeeded(_) => step := Remove;
      case GaveUp(_) => step := Bury;
      case Finished => step := Unclaim;
      case Releasing => step := Release;
      case Unparsable =>
      case Queued =>
      case Ended =>
    }
  }

  /** The worker's own next step when no task is left. */
  lemma LoopProgresses(c: Settings, s: State) returns (step: WorkerStep)
    requires SettingsOk(c) && Good(c, s) && s.up && !s.cancelled && Pending(c, s) != {}
    requires forall j :: 0 <= j < |s.tasks| ==> s.tasks[j].phase.Ended?
    ensures WorkerEnabled(s, step) && !step.ListFails?
    ensures Spawns(s, step) || CycleRank(WorkerApply(c, s, step)) < CycleRank(s)
  {
    assert s.inFlight == {};
    match s.worker {
      case Idle(ticked) => step := if ticked then WakeTicked else Tick;
      case LateIdle =>
      case Listing(_) => step := List;
      case Draining(left, _) =>
        if left == {} {
          step := DrainDone;
        } else {
          var name :| name in left;
          step := Claim(name);
        }
      case Joining =>
      case Exited =>
    }
  }

  /** While something is pending or under way, some smooth step brings the end closer. */
  lemma WorkIsNeverStuck(c: Settings, s: State) returns (step: Step)
    requires SettingsOk(c) && Good(c, s) && s.up && !s.cancelled
    requires Pending(c, s) != {} || exists j :: 0 <= j < |s.tasks| && !s.tasks[j].phase.Ended?
    ensures Enabled(c, s, step) && Smooth(step) && !step.Server?
    ensures Productive(s, step) || CycleRank(Apply(c, s, step)) < CycleRank(s)
  {
    if exists j :: 0 <= j < |s.tasks| && !s.tasks[j].phase.Ended? {
      var i := SomeTaskIsReady(c, s);
      if HoldsPermit(s.tasks[i]) {
        var st := HolderProgresses(c, s, i);
        step := Forward(i, st);
      } else {
        step := Forward(i, Acquire);
      }
    } else {
      var st := LoopProgresses(c, s);
      step := Drain(st);
    }
  }

  lemma FirstThenRest(c: Settings, s: State, step: Step, rest: seq<Step>)
    requires Enabled(c, s, step) && Smooth(step)
    requires SmoothPath(c, Apply(c, s, step), rest) && Playable(c, Apply(c, s, step), rest)
    ensures SmoothPath(c, s, [step] + rest) && Playable(c, s, [step] + rest)
    ensures After(c, s, [step] + rest) == After(c, Apply(c, s, step), rest)
  {
    assert ([step] + rest)[1..] == rest;
  }

  lemma StaysUp(c: Settings, s: State, step: Step)
    requires Enabled(c, s, step) && Smooth(step) && s.up && !s.cancelled
    ensures Apply(c, s, step).up && !Apply(c, s, step).cancelled
  {
  }

  /** From every state the worker can empty the queue by itself, whatever it was doing. */
  lemma {:induction false} QueueCanEmpty(c: Settings, s: State) returns (steps: seq<Step>)
    requires SettingsOk(c) && Good(c, s) && s.up && !s.cancelled
    ensures SmoothPath(c, s, steps) && Playable(c, s, steps)
    ensures Pending(c, After(c, s, steps)) == {}
    ensures forall j :: 0 <= j < |After(c, s, steps).tasks| ==> After(c, s, steps).tasks[j].phase.Ended?
    decreases Potential(c, s), CycleRank(s)
  {
    if Pending(c, s) == {} && forall j :: 0 <= j < |s.tasks| ==> s.tasks[j].phase.Ended? {
      steps := [];
    } else {
      var step := WorkIsNeverStuck(c, s);
      SmoothStepsUseUpPotential(c, s, step);
      GoodStep(c, s, step);
      StaysUp(c, s, step);
      var rest := QueueCanEmpty(c, Apply(c, s, step));
      FirstThenRest(c, s, step, rest);
      steps := [step] + rest;
    }
  }
}

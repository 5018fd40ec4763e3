/** The whole chain, from webhook to turn: over any timed run of the delivery protocol, the turns that the adapter
    starts for one id are at most the runs of `process_file` for it, and these are accounted for by enqueues,
    failed file operations, shutdowns and crashes.

    Scheduling is ideal as in `EndToEnd`, and requests take effect at the adapter in the order of their instants. */
module DeliveryTurns {
  import opened Delivery
  import opened DeliverySafety
  import opened DeliveryRuns
  import opened DeliveryProgress
  import opened DeliveryStability
  import opened Backoffs
  import opened Inductions
  import Adapters
  import EndToEnd

  // ---------------------------------------------------------------- runs are accounted for

  /** A task is sending, or has sent, the message of this id. */
  ghost predicate Underway(s: State, id: string) {
    exists i :: 0 <= i < |s.tasks| && HasMessage(s.tasks[i].phase) && s.tasks[i].phase.held.id == id
  }

  /** Each run needs a file of its own: one enqueued, or left by a run that could not finish with it. */
  ghost predicate RunsOk(c: Settings, s: State, id: string) {
    s.h.runs[id] + (if c.names.file(id) in s.pending && !Underway(s, id) then 1 else 0)
    <= s.h.enqueued[id] + s.h.failedRemoves[id] + s.h.givenBack[id] + s.h.crashes
  }

  lemma SameTasksUnderway(s: State, s': State, id: string)
    requires s'.tasks == s.tasks
    ensures Underway(s, id) <==> Underway(s', id)
  {
  }

  lemma RunsServer(c: Settings, s: State, step: ServerStep, id: string)
    requires SettingsOk(c) && DirOk(c, s) && RunsOk(c, s, id) && ServerEnabled(c, s, step)
    ensures RunsOk(c, ServerApply(c, s, step), id)
  {
    var s' := ServerApply(c, s, step);
    SameTasksUnderway(s, s', id);
    if c.names.file(id) in s'.pending && c.names.file(id) !in s.pending {
      assert step.RenameTmp? && s.handlers[step.n].msg.id == id;
    }
  }

  lemma RunsWorker(c: Settings, s: State, step: WorkerStep, id: string)
    requires RunsOk(c, s, id) && WorkerEnabled(s, step)
    ensures RunsOk(c, WorkerApply(c, s, step), id)
  {
    if Underway(s, id) {
      var i :| 0 <= i < |s.tasks| && HasMessage(s.tasks[i].phase) && s.tasks[i].phase.held.id == id;
      assert WorkerApply(c, s, step).tasks[i] == s.tasks[i];
    }
  }

  /** How one step of a task changes what is under way. */
  lemma UnderwayForward(c: Settings, s: State, i: nat, step: TaskStep, id: string)
    requires SettingsOk(c) && TasksOk(c, s) && HeldOk(c, s) && TaskEnabled(c, s, i, step)
    ensures var s' := TaskApply(c, s, i, step); var p, p' := s.tasks[i].phase, PhaseAfter(c, s, i, step);
            if HasMessage(p') && p'.held.id == id then
              Underway(s', id) && (Underway(s, id) <==> HasMessage(p)) && c.names.file(id) in s.pending
            else if HasMessage(p) && p.held.id == id then Underway(s, id) && !Underway(s', id)
            else Underway(s, id) <==> Underway(s', id)
  {
    var s' := TaskApply(c, s, i, step);
    forall j | 0 <= j < |s.tasks| && j != i && PastRead(s.tasks[i].phase) && PastRead(s.tasks[j].phase)
      ensures s.tasks[j].phase.held.id != s.tasks[i].phase.held.id
    {
      OneHolder(c, s, i, j);
    }
    assert forall j :: 0 <= j < |s.tasks| && j != i ==> s'.tasks[j] == s.tasks[j];
    assert s'.tasks[i].phase == PhaseAfter(c, s, i, step);
  }

  /** How one step of a task changes the counters and the file. */
  lemma CountersForward(c: Settings, s: State, i: nat, step: TaskStep, id: string)
    requires SettingsOk(c) && TaskEnabled(c, s, i, step)
    ensures var s' := TaskApply(c, s, i, step); var p := s.tasks[i].phase;
            && s'.h.enqueued == s.h.enqueued && s'.h.crashes == s.h.crashes
            && s'.h.runs[id] == s.h.runs[id] + (if step.Transcribe? && p.held.id == id then 1 else 0)
            && s'.h.failedRemoves[id] + s'.h.givenBack[id] == s.h.failedRemoves[id] + s.h.givenBack[id]
               + (if HasMessage(p) && Abandons(step) && p.held.id == id then 1 else 0)
  {
  }

  /** A task that lets go of its message without giving the file back has removed it. */
  lemma FileForward(c: Settings, s: State, i: nat, step: TaskStep, id: string)
    requires SettingsOk(c) && HeldOk(c, s) && TaskEnabled(c, s, i, step)
    ensures var s' := TaskApply(c, s, i, step); var p := s.tasks[i].phase;
            && (c.names.file(id) in s'.pending ==> c.names.file(id) in s.pending)
            && (HasMessage(p) && p.held.id == id && !HasMessage(PhaseAfter(c, s, i, step)) && !Abandons(step) ==>
                  c.names.file(id) !in s'.pending)
  {
  }

  lemma RunsForward(c: Settings, s: State, i: nat, step: TaskStep, id: string)
    requires SettingsOk(c) && TasksOk(c, s) && HeldOk(c, s) && RunsOk(c, s, id) && TaskEnabled(c, s, i, step)
    ensures RunsOk(c, TaskApply(c, s, i, step), id)
  {
    UnderwayForward(c, s, i, step, id);
    CountersForward(c, s, i, step, id);
    FileForward(c, s, i, step, id);
    RunsAddUp(c, s, i, step, id);
  }

  lemma RunsAddUp(c: Settings, s: State, i: nat, step: TaskStep, id: string)
    requires SettingsOk(c) && TaskEnabled(c, s, i, step)
    ensures var p, p' := s.tasks[i].phase, PhaseAfter(c, s, i, step);
            && (step.Transcribe? ==> HasMessage(p') && !HasMessage(p) && p'.held.id == p.held.id)
            && (HasMessage(p') && !HasMessage(p) ==> step.Transcribe?)
            && (HasMessage(p) && HasMessage(p') ==> p'.held == p.held)
            && (HasMessage(p) && Abandons(step) ==> !HasMessage(p'))
  {
  }

  lemma RunsProcess(c: Settings, s: State, step: ProcessStep, id: string)
    requires SettingsOk(c) && DownOk(s) && ExitOk(s) && RunsOk(c, s, id) && ProcessEnabled(s, step)
    ensures RunsOk(c, ProcessApply(c, s, step), id)
  {
    var s' := ProcessApply(c, s, step);
    if step.Cancel? {
      SameTasksUnderway(s, s', id);
    } else {
      assert !Underway(s', id);
    }
  }

  lemma RunsStep(c: Settings, s: State, step: Step, s': State, id: string)
    requires SettingsOk(c) && Inv(c, s) && RunsOk(c, s, id) && Moves(c, s, step, s')
    ensures RunsOk(c, s', id)
  {
    match step
    case Server(st) => RunsServer(c, s, st, id);
    case Drain(st) => RunsWorker(c, s, st, id);
    case Forward(i, st) => RunsForward(c, s, i, st, id);
    case Process(st) => RunsProcess(c, s, st, id);
  }

  lemma RunsAtNext(c: Settings, states: seq<State>, steps: seq<Step>, j: nat, id: string)
    requires SettingsOk(c) && Run(c, states, steps) && j < |steps| && RunsOk(c, states[j], id)
    ensures RunsOk(c, states[j + 1], id)
  {
    InvReachable(c, states, steps, j);
    RunStep(c, states, steps, j);
    RunsStep(c, states[j], steps[j], states[j + 1], id);
  }

  /** A message is taken up more often than it was enqueued only because a run could not finish with its file. */
  lemma RunsAreAccountedFor(c: Settings, states: seq<State>, steps: seq<Step>, k: nat, id: string)
    requires SettingsOk(c) && Run(c, states, steps) && k < |states|
    ensures var h := states[k].h;
            h.runs[id] <= h.enqueued[id] + h.failedRemoves[id] + h.givenBack[id] + h.crashes
  {
    var p := (j: nat) => j < |states| && RunsOk(c, states[j], id);
    assert states[0] == Init();
    forall j: nat | 0 <= j < k ensures Links(p, j) {
      if p(j) {
        RunsAtNext(c, states, steps, j, id);
      }
    }
    Chain(p, 0, k);
  }

  // ---------------------------------------------------------------- time

  /** The step that began the run which task `i` is in at state `k`. */
  function Start(steps: seq<Step>, k: nat, i: nat): (r: nat)
    requires k <= |steps|
    ensures r <= k
  {
    if k == 0 then 0
    else
      var step := steps[k - 1];
      if step.Forward? && step.i == i && step.forward.Transcribe? then k - 1 else Start(steps, k - 1, i)
  }

  predicate MovesClock(step: TaskStep) {
    step.Transcribe? || step.Retry? || step.ForwardErr?
  }

  /** The step at which the current attempt, or the current wait, of task `i` began. */
  function Mark(steps: seq<Step>, k: nat, i: nat): (r: nat)
    requires k <= |steps|
    ensures r <= k
  {
    if k == 0 then 0
    else
      var step := steps[k - 1];
      if step.Forward? && step.i == i && MovesClock(step.forward) then k - 1 else Mark(steps, k - 1, i)
  }

  /** An attempt fails within the client's timeout; a wait lasts no longer than its backoff. */
  ghost predicate StepInTime(base: nat, states: seq<State>, steps: seq<Step>, times: seq<nat>, k: nat)
    requires |states| == |steps| + 1 && |times| == |steps| && k < |steps|
  {
    steps[k].Forward? && steps[k].i < |states[k].tasks| ==>
      var i := steps[k].i;
      var since, p := times[Mark(steps, k, i)], states[k].tasks[i].phase;
      && (steps[k].forward.ForwardErr? ==> times[k] <= since + EndToEnd.REQUEST_TIMEOUT)
      && (steps[k].forward.Retry? && p.Waiting? ==> times[k] <= since + BackoffFor(base, p.attempt))
  }

  ghost predicate Timed(base: nat, states: seq<State>, steps: seq<Step>, times: seq<nat>) {
    && |states| == |steps| + 1 && |times| == |steps|
    && (forall j, k :: 0 <= j <= k < |times| ==> times[j] <= times[k])
    && forall k {:trigger StepInTime(base, states, steps, times, k)} :: 0 <= k < |steps| ==>
         StepInTime(base, states, steps, times, k)
  }

  /** The longest time from the start of a run to the beginning of its attempt number `a`. */
  function Budget(base: nat, a: nat): nat {
    a * EndToEnd.REQUEST_TIMEOUT + TotalBackoff(base, a)
  }

  /** The step begins a run for this id. */
  predicate StartsRun(s: State, step: Step, id: string) {
    && step.Forward? && step.forward.Transcribe? && step.i < |s.tasks|
    && s.tasks[step.i].phase.Transcribing? && s.tasks[step.i].phase.held.id == id
  }

  /** The run that task `i` is in began at step `t` with this id. */
  ghost predicate BeganAt(states: seq<State>, steps: seq<Step>, t: nat, i: nat, id: string)
    requires |states| == |steps| + 1
  {
    t < |steps| && StartsRun(states[t], steps[t], id) && steps[t].i == i
  }

  /** An attempt or a wait of task `i` at state `k` began within its budget. */
  ghost predicate InBudget(base: nat, states: seq<State>, steps: seq<Step>, times: seq<nat>, k: nat, i: nat)
    requires |states| == |steps| + 1 && |times| == |steps| && k < |states|
  {
    i < |states[k].tasks| && (states[k].tasks[i].phase.Trying? || states[k].tasks[i].phase.Waiting?) ==>
      var p, t, m := states[k].tasks[i].phase, Start(steps, k, i), Mark(steps, k, i);
      && t <= m < k && BeganAt(states, steps, t, i, p.held.id)
      && times[m] <= times[t] + if p.Trying? then Budget(base, p.attempt)
                                else Budget(base, p.attempt) + EndToEnd.REQUEST_TIMEOUT
  }

  /** What one step does to the phase of task `i`, as far as its clock is concerned. */
  ghost predicate ClockStep(c: Settings, s: State, step: Step, s': State, i: nat)
    requires i < |s'.tasks|
  {
    var p' := s'.tasks[i].phase;
    if p'.Trying? && step.Forward? && step.i == i && step.forward.Transcribe? then
      i < |s.tasks| && s.tasks[i].phase.Transcribing? && s.tasks[i].phase.held.id == p'.held.id && p'.attempt == 0
    else if p'.Trying? && step == Forward(i, TaskStep.Retry) then
      i < |s.tasks| && s.tasks[i].phase.Waiting? && s.tasks[i].phase.held == p'.held
      && p'.attempt == s.tasks[i].phase.attempt + 1
    else if p'.Waiting? && step == Forward(i, ForwardErr) then
      i < |s.tasks| && s.tasks[i].phase.Trying? && s.tasks[i].phase.held == p'.held
      && p'.attempt == s.tasks[i].phase.attempt
    else if p'.Trying? || p'.Waiting? then
      && i < |s.tasks| && !(step.Forward? && step.i == i && MovesClock(step.forward))
      && (s.tasks[i].phase.Trying? <==> p'.Trying?) && (s.tasks[i].phase.Waiting? <==> p'.Waiting?)
      && s.tasks[i].phase.held == p'.held && s.tasks[i].phase.attempt == p'.attempt
    else true
  }

  lemma ClockMoves(c: Settings, s: State, step: Step, s': State, i: nat)
    requires SettingsOk(c) && DownOk(s) && Moves(c, s, step, s') && i < |s'.tasks|
    ensures ClockStep(c, s, step, s', i)
  {
    match step
    case Server(st) => assert s'.tasks == s.tasks;
    case Drain(st) => assert i < |s.tasks| ==> s'.tasks[i] == s.tasks[i];
    case Forward(j, st) => ClockForward(c, s, j, st, i);
    case Process(_) =>
  }

  lemma ClockForward(c: Settings, s: State, j: nat, step: TaskStep, i: nat)
    requires SettingsOk(c) && TaskEnabled(c, s, j, step) && i < |s.tasks|
    ensures ClockStep(c, s, Forward(j, step), TaskApply(c, s, j, step), i)
  {
    assert TaskApply(c, s, j, step).tasks[i] ==
           if j == i then Task(s.tasks[i].name, PhaseAfter(c, s, i, step)) else s.tasks[i];
  }

  lemma ClockMovesInRuns(c: Settings, states: seq<State>, steps: seq<Step>, k: nat, i: nat)
    requires SettingsOk(c) && Run(c, states, steps) && k < |steps| && i < |states[k + 1].tasks|
    ensures ClockStep(c, states[k], steps[k], states[k + 1], i)
  {
    InvReachable(c, states, steps, k);
    RunStep(c, states, steps, k);
    ClockMoves(c, states[k], steps[k], states[k + 1], i);
  }

  lemma NextInBudget(c: Settings, base: nat, states: seq<State>, steps: seq<Step>, times: seq<nat>, k: nat, i: nat)
    requires Timed(base, states, steps, times) && k < |steps| && InBudget(base, states, steps, times, k, i)
    requires i < |states[k + 1].tasks| ==> ClockStep(c, states[k], steps[k], states[k + 1], i)
    ensures InBudget(base, states, steps, times, k + 1, i)
  {
    assert StepInTime(base, states, steps, times, k);
  }

  lemma AllInBudget(c: Settings, base: nat, states: seq<State>, steps: seq<Step>, times: seq<nat>, k: nat, i: nat)
    requires SettingsOk(c) && Run(c, states, steps) && Timed(base, states, steps, times) && k < |states|
    ensures InBudget(base, states, steps, times, k, i)
  {
    var p := (j: nat) => j < |states| && InBudget(base, states, steps, times, j, i);
    assert states[0] == Init();
    forall j: nat | 0 <= j < k ensures Links(p, j) {
      if p(j) {
        if i < |states[j + 1].tasks| {
          ClockMovesInRuns(c, states, steps, j, i);
        }
        NextInBudget(c, base, states, steps, times, j, i);
      }
    }
    Chain(p, 0, k);
  }

  // ---------------------------------------------------------------- requests

  /** The step begins an attempt to send this id. */
  ghost predicate SendsId(s: State, step: Step, id: string) {
    step.Forward? && Begins(step.forward) && step.i < |s.tasks| && PastRead(s.tasks[step.i].phase)
    && s.tasks[step.i].phase.held.id == id
  }

  /** A request for this id reaches the adapter during an attempt that sends it. */
  ghost predicate FromAttempt(states: seq<State>, steps: seq<Step>, times: seq<nat>, p: Adapters.Post, id: string)
    requires |states| == |steps| + 1 && |times| == |steps|
  {
    exists m :: 0 <= m < |steps| && SendsId(states[m], steps[m], id)
                && times[m] <= p.now <= times[m] + EndToEnd.REQUEST_TIMEOUT
  }

  /** The steps that begin a run for this id. */
  ghost function RunStarts(states: seq<State>, steps: seq<Step>, k: nat, id: string): set<nat>
    requires |states| == |steps| + 1 && k <= |steps|
  {
    Below((t: nat) => t < |steps| && StartsRun(states[t], steps[t], id), k)
  }

  /** The number of attempts keeps within the retries, so every attempt begins within the budget of its run. */
  lemma AttemptInWindow(c: Settings, base: nat, states: seq<State>, steps: seq<Step>, times: seq<nat>, m: nat,
                        id: string)
      returns (t: nat)
    requires SettingsOk(c) && Run(c, states, steps) && Timed(base, states, steps, times) && m < |steps|
    requires SendsId(states[m], steps[m], id)
    ensures t in RunStarts(states, steps, |steps|, id)
    ensures times[t] <= times[m] && times[m] + EndToEnd.REQUEST_TIMEOUT <= times[t] + EndToEnd.Span(c.maxRetries, base)
  {
    var i := steps[m].i;
    RunStep(c, states, steps, m);
    BeginsInPhase(c, states[m], i, steps[m].forward, states[m + 1]);
    if steps[m].forward.Transcribe? {
      t := m;
    } else {
      t := RetryInWindow(c, base, states, steps, times, m, i);
    }
  }

  lemma RetryInWindow(c: Settings, base: nat, states: seq<State>, steps: seq<Step>, times: seq<nat>, m: nat, i: nat)
      returns (t: nat)
    requires SettingsOk(c) && Run(c, states, steps) && Timed(base, states, steps, times) && m < |steps|
    requires steps[m] == Forward(i, TaskStep.Retry) && i < |states[m].tasks| && states[m].tasks[i].phase.Waiting?
    ensures t < m && BeganAt(states, steps, t, i, states[m].tasks[i].phase.held.id)
    ensures times[t] <= times[m] && times[m] + EndToEnd.REQUEST_TIMEOUT <= times[t] + EndToEnd.Span(c.maxRetries, base)
  {
    var a := states[m].tasks[i].phase.attempt;
    AllInBudget(c, base, states, steps, times, m, i);
    RetriesLeft(c, states, steps, m, i);
    t := Start(steps, m, i);
    assert StepInTime(base, states, steps, times, m);
    EndToEnd.TotalBackoffGrows(base, a + 1, c.maxRetries);
    assert times[m] <= times[t] + Budget(base, a + 1);
  }

  lemma RetriesLeft(c: Settings, states: seq<State>, steps: seq<Step>, m: nat, i: nat)
    requires SettingsOk(c) && Run(c, states, steps) && m < |states| && i < |states[m].tasks|
    requires states[m].tasks[i].phase.Waiting?
    ensures states[m].tasks[i].phase.attempt < c.maxRetries
  {
    GoodReachable(c, states, steps, m);
  }

  lemma BeginsInPhase(c: Settings, s: State, i: nat, step: TaskStep, s': State)
    requires Moves(c, s, Forward(i, step), s') && Begins(step)
    ensures i < |s.tasks| && if step.Transcribe? then s.tasks[i].phase.Transcribing? else s.tasks[i].phase.Waiting?
  {
  }

  // ---------------------------------------------------------------- counting

  /** What the step adds to the runs counted. */
  ghost predicate CountsRun(s: State, step: Step, s': State, id: string) {
    s'.h.runs[id] == s.h.runs[id] + if StartsRun(s, step, id) then 1 else 0
  }

  lemma CountForward(c: Settings, s: State, i: nat, step: TaskStep, id: string)
    requires TaskEnabled(c, s, i, step)
    ensures CountsRun(s, Forward(i, step), TaskApply(c, s, i, step), id)
  {
  }

  lemma CountStep(c: Settings, s: State, step: Step, s': State, id: string)
    requires Moves(c, s, step, s')
    ensures CountsRun(s, step, s', id)
  {
    match step
    case Server(_) =>
    case Drain(_) =>
    case Forward(i, st) => CountForward(c, s, i, st, id);
    case Process(_) =>
  }

  lemma CountInRuns(c: Settings, states: seq<State>, steps: seq<Step>, k: nat, id: string)
    requires Run(c, states, steps) && k < |steps|
    ensures CountsRun(states[k], steps[k], states[k + 1], id)
  {
    RunStep(c, states, steps, k);
    CountStep(c, states[k], steps[k], states[k + 1], id);
  }

  ghost predicate CountOk(states: seq<State>, steps: seq<Step>, k: nat, id: string)
    requires |states| == |steps| + 1 && k < |states|
  {
    |RunStarts(states, steps, k, id)| == states[k].h.runs[id]
  }

  lemma CountAtNext(states: seq<State>, steps: seq<Step>, k: nat, id: string)
    requires |states| == |steps| + 1 && k < |steps| && CountOk(states, steps, k, id)
    requires CountsRun(states[k], steps[k], states[k + 1], id)
    ensures CountOk(states, steps, k + 1, id)
  {
    BelowGrows((t: nat) => t < |steps| && StartsRun(states[t], steps[t], id), k);
  }

  lemma RunsAreCounted(c: Settings, states: seq<State>, steps: seq<Step>, id: string)
    requires Run(c, states, steps)
    ensures |RunStarts(states, steps, |steps|, id)| == states[|steps|].h.runs[id]
  {
    var p := (k: nat) => k < |states| && CountOk(states, steps, k, id);
    assert states[0] == Init() && RunStarts(states, steps, 0, id) == {};
    forall k: nat | 0 <= k < |steps| ensures Links(p, k) {
      if p(k) {
        CountInRuns(c, states, steps, k, id);
        CountAtNext(states, steps, k, id);
      }
    }
    Chain(p, 0, |steps|);
  }

  /** The instants at which the runs begin. */
  function Instants(starts: set<nat>, times: seq<nat>): set<int>
    requires forall t :: t in starts ==> t < |times|
  {
    set t | t in starts :: times[t]
  }

  lemma {:induction false} NoMoreInstants(starts: set<nat>, times: seq<nat>)
    requires forall t :: t in starts ==> t < |times|
    ensures |Instants(starts, times)| <= |starts|
    decreases |starts|
  {
    if starts != {} {
      var t :| t in starts;
      NoMoreInstants(starts - {t}, times);
      assert Instants(starts, times) == Instants(starts - {t}, times) + {times[t]};
    } else {
      assert Instants(starts, times) == {};
    }
  }

  // ---------------------------------------------------------------- the theorem

  /** Over any timed run whose process-file runs fit the adapter's window, with any other traffic at the adapter
      and from any of its states: however many acknowledgements are lost, the turns for one id are at most the runs
      for it, and so at most its enqueues, its failed removals, the files given back, and the crashes. */
  lemma TurnsAreAccountedFor(c: Settings, base: nat, states: seq<State>, steps: seq<Step>, times: seq<nat>,
                             stamps: Adapters.Stamps, posts: seq<Adapters.Post>, id: string)
    requires SettingsOk(c) && Run(c, states, steps) && Timed(base, states, steps, times)
    requires EndToEnd.Span(c.maxRetries, base) <= Adapters.DEDUP_TTL
    requires id != "" && Adapters.InTimeOrder(posts)
    requires forall p :: p in posts && p.id == id ==> FromAttempt(states, steps, times, p, id)
    ensures var h, turns := states[|steps|].h, Adapters.Turns(stamps, posts, id);
            turns <= h.runs[id] <= h.enqueued[id] + h.failedRemoves[id] + h.givenBack[id] + h.crashes
  {
    var starts := RunStarts(states, steps, |steps|, id);
    var windows := Instants(starts, times);
    forall p | p in posts && p.id == id ensures Adapters.InWindow(windows, p.now) {
      RequestInWindow(c, base, states, steps, times, p, id);
    }
    var hold := LowerThanAll(posts);
    Adapters.TurnsWithinWindows(stamps, posts, id, windows, hold);
    NoMoreInstants(starts, times);
    RunsAreCounted(c, states, steps, id);
    RunsAreAccountedFor(c, states, steps, |steps|, id);
  }

  lemma RequestInWindow(c: Settings, base: nat, states: seq<State>, steps: seq<Step>, times: seq<nat>,
                        p: Adapters.Post, id: string)
    requires SettingsOk(c) && Run(c, states, steps) && Timed(base, states, steps, times)
    requires EndToEnd.Span(c.maxRetries, base) <= Adapters.DEDUP_TTL && FromAttempt(states, steps, times, p, id)
    ensures Adapters.InWindow(Instants(RunStarts(states, steps, |steps|, id), times), p.now)
  {
    var m :| 0 <= m < |steps| && SendsId(states[m], steps[m], id)
             && times[m] <= p.now <= times[m] + EndToEnd.REQUEST_TIMEOUT;
    var t := AttemptInWindow(c, base, states, steps, times, m, id);
    assert times[t] in Instants(RunStarts(states, steps, |steps|, id), times);
  }

  function LowerThanAll(posts: seq<Adapters.Post>): (r: int)
    ensures forall p :: p in posts ==> p.now > r
  {
    if posts == [] then 0
    else
      var rest := LowerThanAll(posts[1..]);
      if posts[0].now <= rest then posts[0].now - 1 else rest
  }

  /** With the default settings the runs fit. */
  lemma DefaultTurns(c: Settings, states: seq<State>, steps: seq<Step>, times: seq<nat>,
                     stamps: Adapters.Stamps, posts: seq<Adapters.Post>, id: string)
    requires SettingsOk(c) && c.maxRetries == 5 && Run(c, states, steps) && Timed(1000, states, steps, times)
    requires id != "" && Adapters.InTimeOrder(posts)
    requires forall p :: p in posts && p.id == id ==> FromAttempt(states, steps, times, p, id)
    ensures Adapters.Turns(stamps, posts, id) <= states[|steps|].h.runs[id]
  {
    EndToEnd.DefaultsFit();
    TurnsAreAccountedFor(c, 1000, states, steps, times, stamps, posts, id);
  }
}

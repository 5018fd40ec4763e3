/** What stays the same over stretches of a run: a pending record until its id is enqueued again, and
    everything when a task was spawned from a stale listing. */
module DeliveryStability {
  import opened Wrappers
  import opened Queues
  import opened Delivery
  import opened DeliverySafety
  import opened DeliveryRuns
  import opened Inductions

  /** The name under which the step completes an enqueue, if it does. */
  ghost function PublishedName(c: Settings, s: State, step: Step): Option<string> {
    if step.Server? && step.server.RenameTmp? && step.server.n in s.handlers then
      Some(c.names.file(s.handlers[step.server.n].msg.id))
    else None
  }

  /** The process goes on. */
  predicate SameProcess(step: Step) {
    step.Process? ==> step.process.Cancel?
  }

  ghost predicate Undisturbed(c: Settings, s: State, step: Step, name: string) {
    SameProcess(step) && PublishedName(c, s, step) != Some(name)
  }

  // ---------------------------------------------------------------- files

  /** The record under this name, if there is one. */
  function RecordAt(dir: Dir, name: string): Option<File> {
    if name in dir then Some(dir[name]) else None
  }

  /** The directory as far as one final name is concerned: it goes, or stays as it was. */
  ghost predicate KeepsOrRemoves(s: State, s': State, name: string) {
    RecordAt(s'.pending, name) in {RecordAt(s.pending, name), None}
  }

  lemma ServerKeepsFile(c: Settings, s: State, step: ServerStep, name: string)
    requires SettingsOk(c) && ServerEnabled(c, s, step) && c.names.isJson(name)
             && PublishedName(c, s, Server(step)) != Some(name)
    ensures RecordAt(ServerApply(c, s, step).pending, name) == RecordAt(s.pending, name)
  {
    if step.CreateTmp? || step.WriteTmp? || step.RenameTmp? {
      var id := s.handlers[step.n].msg.id;
      assert !c.names.isJson(c.names.tmp(id));
    }
  }

  lemma ForwardKeepsFile(c: Settings, s: State, i: nat, step: TaskStep, name: string)
    requires TaskEnabled(c, s, i, step)
    ensures KeepsOrRemoves(s, TaskApply(c, s, i, step), name)
  {
  }

  lemma StepKeepsFile(c: Settings, s: State, step: Step, s': State, name: string)
    requires SettingsOk(c) && Moves(c, s, step, s') && c.names.isJson(name) && PublishedName(c, s, step) != Some(name)
    ensures KeepsOrRemoves(s, s', name)
  {
    match step
    case Server(st) => ServerKeepsFile(c, s, st, name);
    case Drain(_) =>
    case Forward(i, st) => ForwardKeepsFile(c, s, i, st, name);
    case Process(_) =>
  }

  lemma RecordAtNext(c: Settings, states: seq<State>, steps: seq<Step>, k: nat, j: nat, name: string)
    requires SettingsOk(c) && Run(c, states, steps) && k <= j < |steps| && c.names.isJson(name)
    requires PublishedName(c, states[j], steps[j]) != Some(name) && KeepsOrRemoves(states[k], states[j], name)
    ensures KeepsOrRemoves(states[k], states[j + 1], name)
  {
    RunStep(c, states, steps, j);
    StepKeepsFile(c, states[j], steps[j], states[j + 1], name);
  }

  /** Whatever the worker, the handlers of other ids, crashes and restarts do: until its id is enqueued
      again, a final file holds what it held, or is gone for good. */
  lemma RecordsAreStable(c: Settings, states: seq<State>, steps: seq<Step>, k: nat, m: nat, name: string)
    requires SettingsOk(c) && Run(c, states, steps) && k <= m < |states| && c.names.isJson(name)
    requires forall j {:trigger steps[j]} :: k <= j < m ==> PublishedName(c, states[j], steps[j]) != Some(name)
    ensures KeepsOrRemoves(states[k], states[m], name)
  {
    var p := (j: nat) => j < |states| && KeepsOrRemoves(states[k], states[j], name);
    forall j: nat | k <= j < m ensures Links(p, j) {
      var step := steps[j];
      if p(j) {
        RecordAtNext(c, states, steps, k, j, name);
      }
    }
    Chain(p, k, m);
  }

  // ---------------------------------------------------------------- the last enqueue

  /** The last enqueue under this name before state `m`. */
  ghost predicate LastPublication(c: Settings, states: seq<State>, steps: seq<Step>, x: nat, m: nat, name: string)
    requires |states| == |steps| + 1 && m < |states|
  {
    && x < m && PublishedName(c, states[x], steps[x]) == Some(name)
    && forall y {:trigger steps[y]} :: x < y < m ==> PublishedName(c, states[y], steps[y]) != Some(name)
  }

  /** A file that is there after step `k` was enqueued by it or was there before. */
  ghost predicate WasThere(c: Settings, states: seq<State>, steps: seq<Step>, k: nat, name: string)
    requires |states| == |steps| + 1 && k < |steps|
  {
    name in states[k + 1].pending && PublishedName(c, states[k], steps[k]) != Some(name) ==> name in states[k].pending
  }

  lemma WasThereInRuns(c: Settings, states: seq<State>, steps: seq<Step>, k: nat, name: string)
    requires SettingsOk(c) && Run(c, states, steps) && k < |steps| && c.names.isJson(name)
    ensures WasThere(c, states, steps, k, name)
  {
    RunStep(c, states, steps, k);
    if PublishedName(c, states[k], steps[k]) != Some(name) {
      StepKeepsFile(c, states[k], steps[k], states[k + 1], name);
    }
  }

  lemma {:induction false} SearchPublication(c: Settings, states: seq<State>, steps: seq<Step>, m: nat, name: string)
      returns (x: nat)
    requires |states| == |steps| + 1 && m < |states| && states[0].pending == map[] && name in states[m].pending
    requires forall k {:trigger WasThere(c, states, steps, k, name)} ::
               0 <= k < |steps| ==> WasThere(c, states, steps, k, name)
    ensures LastPublication(c, states, steps, x, m, name)
  {
    assert WasThere(c, states, steps, m - 1, name);
    if PublishedName(c, states[m - 1], steps[m - 1]) == Some(name) {
      x := m - 1;
    } else {
      x := SearchPublication(c, states, steps, m - 1, name);
    }
  }

  /** Every final file that is there has been enqueued. */
  lemma FilesWereEnqueued(c: Settings, states: seq<State>, steps: seq<Step>, m: nat, name: string) returns (x: nat)
    requires SettingsOk(c) && Run(c, states, steps) && m < |states| && c.names.isJson(name) && name in states[m].pending
    ensures LastPublication(c, states, steps, x, m, name)
  {
    forall k | 0 <= k < |steps| ensures WasThere(c, states, steps, k, name) {
      WasThereInRuns(c, states, steps, k, name);
    }
    x := SearchPublication(c, states, steps, m, name);
  }

  /** An enqueue leaves its record under its name. */
  lemma PublicationIsThere(c: Settings, s: State, step: Step, s': State, name: string)
    requires SettingsOk(c) && DirOk(c, s) && Moves(c, s, step, s') && PublishedName(c, s, step) == Some(name)
    ensures RecordAt(s'.pending, name) == Some(Complete(s.handlers[step.server.n].msg)) && c.names.isJson(name)
  {
    var hd := s.handlers[step.server.n];
    DirRenameTmp(c, s, step.server.n);
    assert TmpOk(c, s.pending, hd);
  }

  lemma FileIsLastPublication(c: Settings, states: seq<State>, steps: seq<Step>, x: nat, m: nat, name: string)
    requires SettingsOk(c) && Run(c, states, steps) && m < |states| && LastPublication(c, states, steps, x, m, name)
    requires name in states[m].pending
    ensures states[m].pending[name] == Complete(states[x].handlers[steps[x].server.n].msg)
  {
    PublishedAt(c, states, steps, x, name);
    RecordsAreStable(c, states, steps, x + 1, m, name);
  }

  lemma PublishedAt(c: Settings, states: seq<State>, steps: seq<Step>, x: nat, name: string)
    requires SettingsOk(c) && Run(c, states, steps) && x < |steps|
             && PublishedName(c, states[x], steps[x]) == Some(name)
    ensures RecordAt(states[x + 1].pending, name) == Some(Complete(states[x].handlers[steps[x].server.n].msg))
    ensures c.names.isJson(name)
  {
    InvReachable(c, states, steps, x);
    RunStep(c, states, steps, x);
    PublicationIsThere(c, states[x], steps[x], states[x + 1], name);
  }

  // ---------------------------------------------------------------- stale listings

  lemma TasksOkInRuns(c: Settings, states: seq<State>, steps: seq<Step>, k: nat)
    requires SettingsOk(c) && Run(c, states, steps) && k < |states|
    ensures TasksOk(c, states[k])
  {
    InvReachable(c, states, steps, k);
  }

  /** The phases after the file has been dealt with. */
  predicate Past(p: TaskPhase) {
    p.Finished? || p.Releasing? || p.Ended?
  }

  /** The task has not read its file, which is gone, or is done. */
  ghost predicate Stale(s: State, i: nat, name: string) {
    i < |s.tasks| && s.tasks[i].name == name && name !in s.pending
    && (s.tasks[i].phase.Queued? || s.tasks[i].phase.Permitted? || Past(s.tasks[i].phase))
  }

  predicate Harmless(step: TaskStep) {
    step.Acquire? || step.ReadGone? || step.Unclaim? || step.Release?
  }

  lemma StaleForward(c: Settings, s: State, j: nat, step: TaskStep, i: nat, name: string)
    requires TaskEnabled(c, s, j, step) && Stale(s, i, name)
    ensures Stale(TaskApply(c, s, j, step), i, name) && (j == i ==> Harmless(step))
  {
    var s' := TaskApply(c, s, j, step);
    assert s'.tasks[i] == if j == i then Task(s.tasks[i].name, PhaseAfter(c, s, i, step)) else s.tasks[i];
  }

  lemma StaleStep(c: Settings, s: State, step: Step, s': State, i: nat, name: string)
    requires SettingsOk(c) && Moves(c, s, step, s') && Undisturbed(c, s, step, name) && Stale(s, i, name)
             && c.names.isJson(name)
    ensures Stale(s', i, name) && (step.Forward? && step.i == i ==> Harmless(step.forward))
  {
    match step
    case Server(st) =>
      ServerKeepsFile(c, s, st, name);
      assert ServerApply(c, s, st).tasks == s.tasks;
    case Drain(st) => assert WorkerApply(c, s, st).tasks[i] == s.tasks[i];
    case Forward(j, st) => StaleForward(c, s, j, st, i, name);
    case Process(_) =>
  }

  lemma StaleAtNext(c: Settings, states: seq<State>, steps: seq<Step>, j: nat, i: nat, name: string)
    requires SettingsOk(c) && Run(c, states, steps) && j < |steps| && Stale(states[j], i, name) && c.names.isJson(name)
    requires Undisturbed(c, states[j], steps[j], name)
    ensures Stale(states[j + 1], i, name)
    ensures steps[j].Forward? && steps[j].i == i ==> Harmless(steps[j].forward)
  {
    RunStep(c, states, steps, j);
    StaleStep(c, states[j], steps[j], states[j + 1], i, name);
  }

  lemma StaleThroughout(c: Settings, states: seq<State>, steps: seq<Step>, k: nat, m: nat, i: nat, name: string)
    requires SettingsOk(c) && Run(c, states, steps) && k <= m < |states| && Stale(states[k], i, name)
    requires c.names.isJson(name)
    requires forall j {:trigger steps[j]} :: k <= j < m ==> Undisturbed(c, states[j], steps[j], name)
    ensures Stale(states[m], i, name)
  {
    var p := (j: nat) => j < |states| && Stale(states[j], i, name);
    forall j: nat | k <= j < m ensures Links(p, j) {
      var step := steps[j];
      if p(j) {
        StaleAtNext(c, states, steps, j, i, name);
      }
    }
    Chain(p, k, m);
  }

  lemma HarmlessChangesNothing(c: Settings, s: State, i: nat, step: TaskStep, s': State)
    requires Moves(c, s, Forward(i, step), s') && Harmless(step)
    ensures s'.pending == s.pending && s'.dead == s.dead && s'.h == s.h
  {
  }

  /** A forward task spawned from a stale listing, whose file has gone before it was read, ends without any
      effect: unless its id is enqueued again, it sends nothing and leaves both directories alone. */
  lemma StaleTasksAreInert(c: Settings, states: seq<State>, steps: seq<Step>, k: nat, m: nat, i: nat, step: TaskStep)
    requires SettingsOk(c) && Run(c, states, steps) && k <= m < |steps| && i < |states[k].tasks|
    requires var t := states[k].tasks[i]; (t.phase.Queued? || t.phase.Permitted?) && t.name !in states[k].pending
    requires forall j {:trigger steps[j]} ::
               k <= j <= m ==> Undisturbed(c, states[j], steps[j], states[k].tasks[i].name)
    requires steps[m] == Forward(i, step)
    ensures states[m + 1].pending == states[m].pending && states[m + 1].dead == states[m].dead
    ensures states[m + 1].h == states[m].h
  {
    var name := states[k].tasks[i].name;
    TasksOkInRuns(c, states, steps, k);
    StaleThroughout(c, states, steps, k, m, i, name);
    StaleAtNext(c, states, steps, m, i, name);
    RunStep(c, states, steps, m);
    HarmlessChangesNothing(c, states[m], i, step, states[m + 1]);
  }
}

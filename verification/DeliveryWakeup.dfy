/** Wake-ups. A drain that consumes an enqueue's notification lists the directory after that enqueue's
    rename, so it sees the file. It can still pass the file over, in one situation: the task of an
    earlier enqueue of the same id has returned but not yet left the in-flight set. */
module DeliveryWakeup {
  import opened Wrappers
  import opened Delivery
  import opened DeliverySafety
  import opened DeliveryRuns
  import opened DeliveryProgress
  import opened DeliveryStability
  import opened Inductions

  /** A task still has this name before it. */
  ghost predicate Attended(s: State, name: string) {
    exists i :: 0 <= i < |s.tasks| && s.tasks[i].name == name && Claims(s.tasks[i]) && !s.tasks[i].phase.Finished?
  }

  /** Its enqueue has renamed the file and is about to notify. */
  ghost predicate AboutToNotify(c: Settings, s: State, name: string) {
    exists k :: k in s.handlers && s.handlers[k].phase == Renamed && c.names.file(s.handlers[k].msg.id) == name
  }

  /** The worker is bound to consider the name, or a task does. */
  ghost predicate Covered(c: Settings, s: State, name: string) {
    AboutToNotify(c, s, name) || s.notified || s.worker.Listing? || name in Left(s) || Attended(s, name)
  }

  ghost predicate WakeOk(c: Settings, s: State) {
    s.up && Looping(s.worker) ==>
      forall n :: n in s.pending && c.names.isJson(n) ==> Covered(c, s, n) || n in s.h.missed
  }

  lemma WakeServer(c: Settings, s: State, step: ServerStep)
    requires SettingsOk(c) && DirOk(c, s) && WakeOk(c, s) && ServerEnabled(c, s, step)
    ensures WakeOk(c, ServerApply(c, s, step))
  {
    var s' := ServerApply(c, s, step);
    if Looping(s.worker) {
      forall n | n in s'.pending && c.names.isJson(n) ensures Covered(c, s', n) || n in s'.h.missed {
        if n in s.pending && !(step.RenameTmp? && c.names.file(s.handlers[step.n].msg.id) == n) {
          if n !in s.h.missed {
            CoverServer(c, s, step, n);
          }
        } else {
          NewlyPublished(c, s, step, n);
        }
      }
    }
  }

  lemma CoverServer(c: Settings, s: State, step: ServerStep, n: string)
    requires ServerEnabled(c, s, step) && Covered(c, s, n)
    ensures Covered(c, ServerApply(c, s, step), n)
  {
    var s' := ServerApply(c, s, step);
    if Attended(s, n) {
      assert Attended(s', n);
    } else if AboutToNotify(c, s, n) && !step.Notify? {
      var k :| k in s.handlers && s.handlers[k].phase == Renamed && c.names.file(s.handlers[k].msg.id) == n;
      assert k in s'.handlers && s'.handlers[k] == s.handlers[k];
    }
  }

  lemma NewlyPublished(c: Settings, s: State, step: ServerStep, n: string)
    requires SettingsOk(c) && ServerEnabled(c, s, step) && n in ServerApply(c, s, step).pending && c.names.isJson(n)
    requires n !in s.pending || (step.RenameTmp? && c.names.file(s.handlers[step.n].msg.id) == n)
    ensures AboutToNotify(c, ServerApply(c, s, step), n)
  {
    var s' := ServerApply(c, s, step);
    assert step.RenameTmp?;
    assert s'.handlers[step.n].phase == Renamed;
  }

  lemma WakeClaim(c: Settings, s: State, name: string)
    requires TasksOk(c, s) && WakeOk(c, s) && WorkerEnabled(s, Claim(name))
    ensures WakeOk(c, WorkerApply(c, s, Claim(name)))
  {
    var s' := WorkerApply(c, s, Claim(name));
    forall n | Covered(c, s, n) && n != name ensures Covered(c, s', n) {
      AttendedGrows(s, s', n);
    }
    if name !in s.inFlight {
      assert s'.tasks[|s.tasks|] == Task(name, Queued);
      assert Attended(s', name);
    } else {
      ClaimSkips(c, s, name);
    }
  }

  lemma AttendedGrows(s: State, s': State, n: string)
    requires s.tasks <= s'.tasks
    ensures Attended(s, n) ==> Attended(s', n)
  {
    if Attended(s, n) {
      var i :| 0 <= i < |s.tasks| && s.tasks[i].name == n && Claims(s.tasks[i]) && !s.tasks[i].phase.Finished?;
      assert s'.tasks[i] == s.tasks[i];
    }
  }

  lemma ClaimSkips(c: Settings, s: State, name: string)
    requires TasksOk(c, s) && name in s.inFlight
    ensures Attended(s, name) <==> !HeldByFinished(s, name)
  {
    var i :| 0 <= i < |s.tasks| && Claims(s.tasks[i]) && s.tasks[i].name == name;
    if s.tasks[i].phase.Finished? {
      assert s.tasks[i] == Task(name, Finished);
    }
  }

  lemma WakeWorker(c: Settings, s: State, step: WorkerStep)
    requires TasksOk(c, s) && WakeOk(c, s) && WorkerEnabled(s, step)
    ensures WakeOk(c, WorkerApply(c, s, step))
  {
    var s' := WorkerApply(c, s, step);
    if step.Claim? {
      WakeClaim(c, s, step.name);
    } else {
      forall n ensures Attended(s, n) ==> Attended(s', n) { AttendedGrows(s, s', n); }
    }
  }

  lemma WakeForward(c: Settings, s: State, i: nat, step: TaskStep)
    requires WakeOk(c, s) && TaskEnabled(c, s, i, step)
    ensures WakeOk(c, TaskApply(c, s, i, step))
  {
    var s' := TaskApply(c, s, i, step);
    forall n | n in s'.pending && Covered(c, s, n) ensures Covered(c, s', n) || n in s'.h.missed {
      if !(Abandons(step) && s.tasks[i].name == n) {
        CoverForward(c, s, i, step, n);
      }
    }
  }

  lemma CoverForward(c: Settings, s: State, i: nat, step: TaskStep, n: string)
    requires TaskEnabled(c, s, i, step) && n in TaskApply(c, s, i, step).pending && Covered(c, s, n)
    requires !(Abandons(step) && s.tasks[i].name == n)
    ensures Covered(c, TaskApply(c, s, i, step), n)
  {
    var s' := TaskApply(c, s, i, step);
    if Attended(s, n) {
      var j :| 0 <= j < |s.tasks| && s.tasks[j].name == n && Claims(s.tasks[j]) && !s.tasks[j].phase.Finished?;
      if j != i {
        assert s'.tasks[j] == s.tasks[j];
        assert Attended(s', n);
      } else {
        assert s'.tasks[i] == Task(n, PhaseAfter(c, s, i, step));
        StaysAttentive(c, s, i, step);
        assert Attended(s', n);
      }
    } else {
      assert AboutToNotify(c, s, n) ==> AboutToNotify(c, s', n);
    }
  }

  /** Unless it abandons its file, a task lets go of it only when it is gone. */
  lemma StaysAttentive(c: Settings, s: State, i: nat, step: TaskStep)
    requires TaskEnabled(c, s, i, step) && Claims(s.tasks[i]) && !s.tasks[i].phase.Finished?
    requires !Abandons(step) && s.tasks[i].name in TaskApply(c, s, i, step).pending
    ensures var p := PhaseAfter(c, s, i, step); !p.Finished? && !p.Releasing? && !p.Ended?
  {
  }

  lemma WakeStep(c: Settings, s: State, step: Step)
    requires SettingsOk(c) && Inv(c, s) && WakeOk(c, s) && Enabled(c, s, step)
    ensures WakeOk(c, Apply(c, s, step))
  {
    match step
    case Server(st) => WakeServer(c, s, st);
    case Drain(st) => WakeWorker(c, s, st);
    case Forward(i, st) => WakeForward(c, s, i, st);
    case Process(st) =>
      var s' := Apply(c, s, step);
      forall n ensures Covered(c, s, n) && st.Cancel? ==> Covered(c, s', n) {
        AttendedSame(c, s, s', n);
      }
  }

  lemma AttendedSame(c: Settings, s: State, s': State, n: string)
    ensures s'.tasks == s.tasks ==> (Attended(s, n) <==> Attended(s', n))
    ensures s'.handlers == s.handlers ==> (AboutToNotify(c, s, n) <==> AboutToNotify(c, s', n))
  {
  }

  lemma {:induction false} WakeReachable(c: Settings, states: seq<State>, steps: seq<Step>, k: nat)
    requires SettingsOk(c) && Run(c, states, steps) && k < |states|
    ensures WakeOk(c, states[k])
  {
    if k > 0 {
      WakeReachable(c, states, steps, k - 1);
      InvReachable(c, states, steps, k - 1);
      RunStep(c, states, steps, k - 1);
      WakeStep(c, states[k - 1], steps[k - 1]);
    }
  }

  /** Every pending file of a looping worker is bound to be considered, or has a task, unless it was
      passed over since the last listing. */
  lemma PendingFilesAreCovered(c: Settings, states: seq<State>, steps: seq<Step>, k: nat, name: string)
    requires SettingsOk(c) && Run(c, states, steps) && k < |states|
    requires states[k].up && Looping(states[k].worker) && name in Pending(c, states[k])
    ensures Covered(c, states[k], name) || name in states[k].h.missed
  {
    WakeReachable(c, states, steps, k);
  }

  /** The step passes the file over: a listing fails, a task leaves its file (after a file error or on shutdown), or
      the drain considers the name while a returned task still holds it. */
  ghost predicate PassesOver(s: State, step: Step, name: string) {
    || step == Drain(ListFails)
    || (step.Forward? && Abandons(step.forward) && step.i < |s.tasks| && s.tasks[step.i].name == name)
    || Races(s, step, name)
  }

  /** The drain considers the name while a returned task still holds it. */
  ghost predicate Races(s: State, step: Step, name: string) {
    step == Drain(Claim(name)) && HeldByFinished(s, name)
  }

  /** What is missed after step `k` was missed before, or is passed over by it; and a listing starts afresh. */
  ghost predicate MissedNext(states: seq<State>, steps: seq<Step>, k: nat, name: string)
    requires |states| == |steps| + 1 && k < |steps|
  {
    name in states[k + 1].h.missed ==>
      steps[k] != Drain(List) && (name in states[k].h.missed || PassesOver(states[k], steps[k], name))
  }

  lemma MissedStep(c: Settings, s: State, step: Step, s': State, name: string)
    requires Moves(c, s, step, s') && name in s'.h.missed
    ensures step != Drain(List) && (name in s.h.missed || PassesOver(s, step, name))
  {
  }

  lemma MissedNextInRuns(c: Settings, states: seq<State>, steps: seq<Step>, k: nat, name: string)
    requires Run(c, states, steps) && k < |steps|
    ensures MissedNext(states, steps, k, name)
  {
    RunStep(c, states, steps, k);
    if name in states[k + 1].h.missed {
      MissedStep(c, states[k], steps[k], states[k + 1], name);
    }
  }

  lemma {:induction false} SearchCause(states: seq<State>, steps: seq<Step>, k: nat, name: string) returns (j: nat)
    requires |states| == |steps| + 1 && k < |states| && states[0].h.missed == {} && name in states[k].h.missed
    requires forall x {:trigger MissedNext(states, steps, x, name)} :: 0 <= x < |steps| ==>
               MissedNext(states, steps, x, name)
    ensures j < k && PassesOver(states[j], steps[j], name)
    ensures forall x {:trigger steps[x]} :: j <= x < k ==> steps[x] != Drain(List)
  {
    assert MissedNext(states, steps, k - 1, name);
    if PassesOver(states[k - 1], steps[k - 1], name) {
      j := k - 1;
    } else {
      j := SearchCause(states, steps, k - 1, name);
    }
  }

  /** And being missed has these three causes only: in every run, a missed file has been passed over since the last
      listing. */
  lemma MissedWasPassedOver(c: Settings, states: seq<State>, steps: seq<Step>, k: nat, name: string) returns (j: nat)
    requires Run(c, states, steps) && k < |states| && name in states[k].h.missed
    ensures j < k && PassesOver(states[j], steps[j], name)
    ensures forall x {:trigger steps[x]} :: j <= x < k ==> steps[x] != Drain(List)
  {
    forall x | 0 <= x < |steps| ensures MissedNext(states, steps, x, name) {
      MissedNextInRuns(c, states, steps, x, name);
    }
    j := SearchCause(states, steps, k, name);
  }

  /** Exactly when does a drain that has listed a file leave it without a task? When a returned task
      still holds its name. */
  lemma ClaimIsIneffectiveIff(c: Settings, states: seq<State>, steps: seq<Step>, k: nat, name: string)
    requires SettingsOk(c) && Run(c, states, steps) && k < |states| && WorkerEnabled(states[k], Claim(name))
    ensures !Attended(WorkerApply(c, states[k], Claim(name)), name) <==> HeldByFinished(states[k], name)
  {
    var s := states[k];
    var s' := WorkerApply(c, s, Claim(name));
    InvReachable(c, states, steps, k);
    if name in s.inFlight {
      ClaimSkips(c, s, name);
      AttendedSame(c, s, s', name);
    } else {
      assert s'.tasks[|s.tasks|] == Task(name, Queued);
    }
  }

  // ---------------------------------------------------------------- one enqueue, over a run

  /** A step in which no listing fails, nothing is cancelled or stopped, no task gives up this file because of an
      error, and the id is not enqueued again. */
  ghost predicate Ordinary(c: Settings, s: State, step: Step, name: string) {
    && !step.Process? && step != Drain(ListFails) && PublishedName(c, s, step) != Some(name)
    && !(step.Forward? && step.i < |s.tasks| && s.tasks[step.i].name == name && Abandons(step.forward))
  }

  lemma CoverWorker(c: Settings, s: State, step: WorkerStep, n: string)
    requires TasksOk(c, s) && WorkerEnabled(s, step) && n in s.pending && c.names.isJson(n) && Covered(c, s, n)
    requires !step.ListFails? && !Races(s, Drain(step), n)
    ensures Covered(c, WorkerApply(c, s, step), n)
  {
    var s' := WorkerApply(c, s, step);
    AttendedGrows(s, s', n);
    if step == Claim(n) {
      if n in s.inFlight {
        ClaimSkips(c, s, n);
      } else {
        assert s'.tasks[|s.tasks|] == Task(n, Queued);
        assert Attended(s', n);
      }
    }
  }

  /** As long as the race does not occur, an enqueued file stays covered until it is gone. */
  lemma CoveredStep(c: Settings, s: State, step: Step, s': State, name: string)
    requires SettingsOk(c) && TasksOk(c, s) && Moves(c, s, step, s') && Ordinary(c, s, step, name)
             && c.names.isJson(name)
    requires (name in s.pending ==> Covered(c, s, name)) && !Races(s, step, name) && name in s'.pending
    ensures Covered(c, s', name)
  {
    StepKeepsFile(c, s, step, s', name);
    match step
    case Server(st) => CoverServer(c, s, st, name);
    case Drain(st) => CoverWorker(c, s, st, name);
    case Forward(i, st) => CoverForward(c, s, i, st, name);
    case Process(_) => assert false;
  }

  /** And unless a returned task holds the name already, none comes to hold it while the file is there. */
  lemma UnheldStep(c: Settings, s: State, step: Step, s': State, name: string)
    requires SettingsOk(c) && Moves(c, s, step, s') && Ordinary(c, s, step, name) && c.names.isJson(name)
    requires (name in s.pending ==> !HeldByFinished(s, name)) && name in s'.pending
    ensures !HeldByFinished(s', name)
  {
    StepKeepsFile(c, s, step, s', name);
    match step
    case Server(st) => assert s'.tasks == s.tasks;
    case Drain(st) => UnheldWorker(c, s, st, name);
    case Forward(i, st) => UnheldForward(c, s, i, st, name);
    case Process(_) => assert false;
  }

  lemma UnheldWorker(c: Settings, s: State, step: WorkerStep, name: string)
    requires WorkerEnabled(s, step) && !HeldByFinished(s, name)
    ensures !HeldByFinished(WorkerApply(c, s, step), name)
  {
    assert forall i :: 0 <= i < |s.tasks| ==> WorkerApply(c, s, step).tasks[i] == s.tasks[i];
  }

  lemma UnheldForward(c: Settings, s: State, i: nat, step: TaskStep, name: string)
    requires TaskEnabled(c, s, i, step) && !HeldByFinished(s, name) && name in TaskApply(c, s, i, step).pending
    requires !(s.tasks[i].name == name && Abandons(step))
    ensures !HeldByFinished(TaskApply(c, s, i, step), name)
  {
    var s' := TaskApply(c, s, i, step);
    assert forall j :: 0 <= j < |s.tasks| && j != i ==> s'.tasks[j] == s.tasks[j];
    assert s'.tasks[i] == Task(s.tasks[i].name, PhaseAfter(c, s, i, step));
    if s.tasks[i].name == name {
      assert s.tasks[i] != Task(name, Finished);
    }
  }

  lemma EnqueueIsCovered(c: Settings, s: State, step: Step, s': State, name: string)
    requires TasksOk(c, s) && Moves(c, s, step, s') && PublishedName(c, s, step) == Some(name)
    ensures Covered(c, s', name) && (name !in s.inFlight ==> !HeldByFinished(s', name))
  {
    assert s'.handlers[step.server.n].phase == Renamed;
    assert s'.tasks == s.tasks;
    if HeldByFinished(s', name) {
      var i :| 0 <= i < |s.tasks| && s.tasks[i] == Task(name, Finished);
      assert Claims(s.tasks[i]);
    }
  }

  /** What one step of the run says about the file; for use without the run itself. */
  ghost predicate StepCovers(c: Settings, s: State, step: Step, s': State, name: string) {
    Ordinary(c, s, step, name) ==>
      && ((name in s.pending ==> Covered(c, s, name)) && !Races(s, step, name) && name in s'.pending ==>
            Covered(c, s', name))
      && ((name in s.pending ==> !HeldByFinished(s, name)) && name in s'.pending ==> !HeldByFinished(s', name))
  }

  lemma StepsCover(c: Settings, states: seq<State>, steps: seq<Step>, j: nat, name: string)
    requires SettingsOk(c) && Run(c, states, steps) && j < |steps| && c.names.isJson(name)
    ensures StepCovers(c, states[j], steps[j], states[j + 1], name)
  {
    TasksOkInRuns(c, states, steps, j);
    RunStep(c, states, steps, j);
    if Ordinary(c, states[j], steps[j], name) && name in states[j + 1].pending {
      if (name in states[j].pending ==> Covered(c, states[j], name)) && !Races(states[j], steps[j], name) {
        CoveredStep(c, states[j], steps[j], states[j + 1], name);
      }
      if name in states[j].pending ==> !HeldByFinished(states[j], name) {
        UnheldStep(c, states[j], steps[j], states[j + 1], name);
      }
    }
  }

  /** All of the above at index `j`. */
  ghost predicate CoversAt(c: Settings, states: seq<State>, steps: seq<Step>, j: nat, name: string)
    requires |states| == |steps| + 1 && j < |steps|
  {
    StepCovers(c, states[j], steps[j], states[j + 1], name) && Ordinary(c, states[j], steps[j], name)
  }

  lemma {:induction false} CoveredWithoutRace(c: Settings, states: seq<State>, steps: seq<Step>, r: nat, k: nat,
                                              name: string)
    requires |states| == |steps| + 1 && r < k < |states| && Covered(c, states[r + 1], name)
    requires forall j {:trigger CoversAt(c, states, steps, j, name)} ::
               r < j < k ==> CoversAt(c, states, steps, j, name)
    requires forall j {:trigger steps[j]} :: r < j < k ==> !Races(states[j], steps[j], name)
    ensures name in states[k].pending ==> Covered(c, states[k], name)
    decreases k
  {
    if k > r + 1 {
      CoveredWithoutRace(c, states, steps, r, k - 1, name);
      assert CoversAt(c, states, steps, k - 1, name) && !Races(states[k - 1], steps[k - 1], name);
    }
  }

  lemma {:induction false} UnheldWithoutClaim(c: Settings, states: seq<State>, steps: seq<Step>, r: nat, k: nat,
                                              name: string)
    requires |states| == |steps| + 1 && r < k < |states| && !HeldByFinished(states[r + 1], name)
    requires forall j {:trigger CoversAt(c, states, steps, j, name)} ::
               r < j < k ==> CoversAt(c, states, steps, j, name)
    ensures name in states[k].pending ==> !HeldByFinished(states[k], name)
    decreases k
  {
    if k > r + 1 {
      UnheldWithoutClaim(c, states, steps, r, k - 1, name);
      assert CoversAt(c, states, steps, k - 1, name);
    }
  }

  /** After an enqueue, in ordinary operation: the file is gone, or covered, or was passed over in a race. The race
      needs a task that held the name already when the enqueue renamed the file, and it does leave the file
      unattended and missed. */
  lemma EnqueueIsSeenOrRaced(c: Settings, states: seq<State>, steps: seq<Step>, r: nat, k: nat, name: string)
    requires SettingsOk(c) && Run(c, states, steps) && r < k < |states|
             && PublishedName(c, states[r], steps[r]) == Some(name)
    requires forall j {:trigger steps[j]} :: r < j < k ==> Ordinary(c, states[j], steps[j], name)
    ensures name in states[k].pending && !Covered(c, states[k], name) ==>
              exists j {:trigger steps[j]} :: r < j < k && Races(states[j], steps[j], name) && name in states[j].pending
    ensures forall j {:trigger steps[j]} ::
              r < j < k && Races(states[j], steps[j], name) && name in states[j].pending ==>
              name in states[r].inFlight && !Attended(states[j + 1], name) && name in states[j + 1].h.missed
  {
    EnqueueBegins(c, states, steps, r, name);
    forall j | r < j < k ensures CoversAt(c, states, steps, j, name) {
      StepsCover(c, states, steps, j, name);
      var step := steps[j];
    }
    forall j | r < j < k && Races(states[j], steps[j], name) && name in states[j].pending
      ensures name in states[r].inFlight && !Attended(states[j + 1], name) && name in states[j + 1].h.missed
    {
      RaceLeavesUnattended(c, states, steps, j, name);
      if name !in states[r].inFlight {
        UnheldWithoutClaim(c, states, steps, r, j, name);
      }
    }
    if name in states[k].pending && !Covered(c, states[k], name) {
      GoneStaysGone(c, states, steps, r, k, name);
      if forall j {:trigger steps[j]} :: r < j < k ==> !Races(states[j], steps[j], name) {
        CoveredWithoutRace(c, states, steps, r, k, name);
      }
    }
  }

  lemma RaceLeavesUnattended(c: Settings, states: seq<State>, steps: seq<Step>, j: nat, name: string)
    requires SettingsOk(c) && Run(c, states, steps) && j < |steps| && Races(states[j], steps[j], name)
    ensures !Attended(states[j + 1], name) && name in states[j + 1].h.missed
  {
    RunStep(c, states, steps, j);
    ClaimIsIneffectiveIff(c, states, steps, j, name);
    TasksOkInRuns(c, states, steps, j);
    HeldIsInFlight(c, states[j], name);
  }

  lemma HeldIsInFlight(c: Settings, s: State, name: string)
    requires TasksOk(c, s) && HeldByFinished(s, name)
    ensures name in s.inFlight
  {
    var i :| 0 <= i < |s.tasks| && s.tasks[i] == Task(name, Finished);
    assert Claims(s.tasks[i]);
  }

  lemma EnqueueBegins(c: Settings, states: seq<State>, steps: seq<Step>, r: nat, name: string)
    requires SettingsOk(c) && Run(c, states, steps) && r < |steps|
             && PublishedName(c, states[r], steps[r]) == Some(name)
    ensures Covered(c, states[r + 1], name) && c.names.isJson(name)
    ensures name !in states[r].inFlight ==> !HeldByFinished(states[r + 1], name)
  {
    InvReachable(c, states, steps, r);
    RunStep(c, states, steps, r);
    EnqueueIsCovered(c, states[r], steps[r], states[r + 1], name);
    PublicationIsThere(c, states[r], steps[r], states[r + 1], name);
  }

  /** A file that is there at the end was there all the time. */
  lemma GoneStaysGone(c: Settings, states: seq<State>, steps: seq<Step>, r: nat, k: nat, name: string)
    requires SettingsOk(c) && Run(c, states, steps) && r < k < |states| && c.names.isJson(name)
             && name in states[k].pending
    requires forall j {:trigger steps[j]} :: r < j < k ==> Ordinary(c, states[j], steps[j], name)
    ensures forall j {:trigger states[j]} :: r < j < k ==> name in states[j].pending
  {
    forall j | r < j < k ensures name in states[j].pending {
      RecordsAreStable(c, states, steps, j, k, name);
    }
  }

  /** So an enqueue whose name nobody holds when it renames is noticed: once its notification is out and the worker has
      come to rest with none stored, the file is gone or a task attends to it. */
  lemma FreeEnqueueIsNoticed(c: Settings, states: seq<State>, steps: seq<Step>, r: nat, k: nat, name: string)
    requires SettingsOk(c) && Run(c, states, steps) && r < k < |states|
             && PublishedName(c, states[r], steps[r]) == Some(name)
    requires forall j {:trigger steps[j]} :: r < j < k ==> Ordinary(c, states[j], steps[j], name)
    requires name !in states[r].inFlight
    requires states[k].worker.Idle? && !states[k].notified && !AboutToNotify(c, states[k], name)
    ensures name !in states[k].pending || Attended(states[k], name)
  {
    EnqueueIsSeenOrRaced(c, states, steps, r, k, name);
  }

  /** The safety tick repairs it: from idle, three steps of the worker list every pending file again. */
  lemma TickRelistsEverything(c: Settings, s: State)
    requires s.up && s.worker == Idle(false)
    ensures var path := [Drain(Tick), Drain(WakeTicked), Drain(List)];
            Playable(c, s, path) && After(c, s, path).worker == Draining(Pending(c, s), false)
            && After(c, s, path).h.missed == {}
  {
    var path := [Drain(Tick), Drain(WakeTicked), Drain(List)];
    assert path[1..] == [Drain(WakeTicked), Drain(List)];
    assert path[1..][1..] == [Drain(List)] && path[1..][1..][1..] == [];
    var s1 := Apply(c, s, path[0]);
    var s2 := Apply(c, s1, path[1]);
    assert s2.worker == Listing(false) && Pending(c, s2) == Pending(c, s);
    assert Playable(c, s2, [Drain(List)]);
    assert Playable(c, s1, path[1..]);
  }

  // ---------------------------------------------------------------- one drain, over a run

  /** A step within a drain: the process goes on and the drain is not over. */
  predicate WithinDrain(step: Step) {
    SameProcess(step) && step != Drain(DrainDone) && step != Drain(ListFails)
  }

  ghost predicate ClaimedBetween(steps: seq<Step>, l: nat, k: nat, name: string) {
    exists j {:trigger steps[j]} :: l < j < k && j < |steps| && steps[j] == Drain(Claim(name))
  }

  /** The listed name is still to be considered, or has been. */
  ghost predicate OnItsWay(s: State, steps: seq<Step>, l: nat, k: nat, name: string) {
    s.worker.Draining? && (name in s.worker.left || ClaimedBetween(steps, l, k, name))
  }

  lemma StaysOnItsWay(c: Settings, states: seq<State>, steps: seq<Step>, l: nat, k: nat, name: string)
    requires Run(c, states, steps) && l < k < |steps| && OnItsWay(states[k], steps, l, k, name) && WithinDrain(steps[k])
    ensures OnItsWay(states[k + 1], steps, l, k + 1, name)
  {
    RunStep(c, states, steps, k);
    DrainGoesOn(c, states[k], steps[k], states[k + 1], name);
    if ClaimedBetween(steps, l, k, name) {
      var j :| l < j < k && j < |steps| && steps[j] == Drain(Claim(name));
      assert ClaimedBetween(steps, l, k + 1, name);
    } else if steps[k] == Drain(Claim(name)) {
      assert ClaimedBetween(steps, l, k + 1, name);
    }
  }

  lemma DrainGoesOn(c: Settings, s: State, step: Step, s': State, name: string)
    requires s.worker.Draining? && Moves(c, s, step, s') && WithinDrain(step)
    ensures s'.worker.Draining?
    ensures name in s.worker.left ==> name in s'.worker.left || step == Drain(Claim(name))
  {
  }

  lemma ListingStarts(c: Settings, states: seq<State>, steps: seq<Step>, l: nat, name: string)
    requires Run(c, states, steps) && l < |steps| && steps[l] == Drain(List) && name in Pending(c, states[l])
    ensures OnItsWay(states[l + 1], steps, l, l + 1, name)
  {
    RunStep(c, states, steps, l);
  }

  /** Every drain considers every file that its listing met, and considering it gives it a task unless it is raced. */
  lemma ListedIsConsidered(c: Settings, states: seq<State>, steps: seq<Step>, l: nat, d: nat, name: string)
      returns (j: nat)
    requires SettingsOk(c) && Run(c, states, steps) && l < d < |steps|
    requires steps[l] == Drain(List) && steps[d] == Drain(DrainDone) && name in Pending(c, states[l])
    requires forall x {:trigger steps[x]} :: l < x < d ==> WithinDrain(steps[x])
    ensures l < j < d && steps[j] == Drain(Claim(name))
    ensures Attended(states[j + 1], name) <==> !Races(states[j], steps[j], name)
  {
    var p := (k: nat) => k < |states| && OnItsWay(states[k], steps, l, k, name);
    ListingStarts(c, states, steps, l, name);
    forall k: nat | l + 1 <= k < d ensures Links(p, k) {
      var step := steps[k];
      if p(k) {
        StaysOnItsWay(c, states, steps, l, k, name);
      }
    }
    Chain(p, l + 1, d);
    DoneIsEmpty(c, states, steps, d);
    j :| l < j < d && j < |steps| && steps[j] == Drain(Claim(name));
    ClaimAttends(c, states, steps, j, name);
  }

  lemma DoneIsEmpty(c: Settings, states: seq<State>, steps: seq<Step>, d: nat)
    requires Run(c, states, steps) && d < |steps| && steps[d] == Drain(DrainDone)
    ensures states[d].worker.Draining? && states[d].worker.left == {}
  {
    RunStep(c, states, steps, d);
  }

  lemma ClaimAttends(c: Settings, states: seq<State>, steps: seq<Step>, j: nat, name: string)
    requires SettingsOk(c) && Run(c, states, steps) && j < |steps| && steps[j] == Drain(Claim(name))
    ensures Attended(states[j + 1], name) <==> !Races(states[j], steps[j], name)
  {
    RunStep(c, states, steps, j);
    ClaimIsIneffectiveIff(c, states, steps, j, name);
  }

  // ---------------------------------------------------------------- the tick repairs

  /** A worker that drains after step `k` listed in it or was draining before. */
  ghost predicate DrainingNext(states: seq<State>, steps: seq<Step>, k: nat)
    requires |states| == |steps| + 1 && k < |steps|
  {
    states[k + 1].worker.Draining? ==> steps[k] == Drain(List) || states[k].worker.Draining?
  }

  lemma DrainingNextInRuns(c: Settings, states: seq<State>, steps: seq<Step>, k: nat)
    requires Run(c, states, steps) && k < |steps| && states[k + 1].worker.Draining?
    ensures DrainingNext(states, steps, k)
  {
    RunStep(c, states, steps, k);
    DrainingBefore(c, states[k], steps[k], states[k + 1]);
  }

  lemma DrainingBefore(c: Settings, s: State, step: Step, s': State)
    requires Moves(c, s, step, s') && s'.worker.Draining?
    ensures step == Drain(List) || s.worker.Draining?
  {
  }

  lemma {:induction false} SearchListing(states: seq<State>, steps: seq<Step>, t: nat, d: nat) returns (l: nat)
    requires |states| == |steps| + 1 && t < d < |states| && !states[t + 1].worker.Draining?
             && states[d].worker.Draining?
    requires forall k {:trigger DrainingNext(states, steps, k)} :: 0 <= k < |steps| ==> DrainingNext(states, steps, k)
    ensures t < l < d && steps[l] == Drain(List)
    decreases d
  {
    assert DrainingNext(states, steps, d - 1);
    if steps[d - 1] == Drain(List) {
      l := d - 1;
    } else {
      l := SearchListing(states, steps, t, d - 1);
    }
  }

  /** The safety tick repairs a lost wake-up: when the drain that it started ends, the file has been given a task or
      was raced again, unless it was gone before the listing. */
  lemma TickRepairs(c: Settings, states: seq<State>, steps: seq<Step>, t: nat, d: nat, name: string)
      returns (l: nat, j: nat)
    requires SettingsOk(c) && Run(c, states, steps) && t < d < |steps|
    requires steps[t] == Drain(WakeTicked) && steps[d] == Drain(DrainDone) && name in Pending(c, states[t])
    requires forall x {:trigger steps[x]} :: t < x < d ==> WithinDrain(steps[x])
    ensures t < l < d && steps[l] == Drain(List)
    ensures name in Pending(c, states[l]) ==>
              l < j < d && steps[j] == Drain(Claim(name))
              && (Attended(states[j + 1], name) <==> !Races(states[j], steps[j], name))
  {
    RunStep(c, states, steps, t);
    RunStep(c, states, steps, d);
    forall k | 0 <= k < |steps| ensures DrainingNext(states, steps, k) {
      if states[k + 1].worker.Draining? {
        DrainingNextInRuns(c, states, steps, k);
      }
    }
    l := SearchListing(states, steps, t, d);
    if name in Pending(c, states[l]) {
      j := ListedIsConsidered(c, states, steps, l, d, name);
    } else {
      j := 0;
    }
  }
}

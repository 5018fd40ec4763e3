/** What goes on the wire: every message sent is one queued record with its own transcripts folded in once,
    and the records that are deleted without being read. */
module DeliveryWire {
  import opened InboundModel
  import opened Transcription
  import opened Queues
  import opened Delivery
  import opened DeliverySafety
  import opened DeliveryRuns
  import opened DeliveryStability
  import opened Inductions
  import opened Wrappers

  // ---------------------------------------------------------------- one run of process_file

  /** The task sends this message or is done. */
  ghost predicate Sends(s: State, i: nat, held: Inbound) {
    i < |s.tasks| && ((HasMessage(s.tasks[i].phase) && s.tasks[i].phase.held == held) || Past(s.tasks[i].phase))
  }

  lemma SendsStep(c: Settings, s: State, step: Step, i: nat, held: Inbound)
    requires Enabled(c, s, step) && SameProcess(step) && Sends(s, i, held)
    ensures Sends(Apply(c, s, step), i, held)
    ensures step.Forward? && step.i == i && Begins(step.forward) ==> Apply(c, s, step).h.sent == s.h.sent + [held]
  {
    match step
    case Server(st) => assert ServerApply(c, s, st).tasks == s.tasks;
    case Drain(st) => assert WorkerApply(c, s, st).tasks[i] == s.tasks[i];
    case Forward(j, st) => SendsForward(c, s, j, st, i, held);
    case Process(_) =>
  }

  lemma SendsForward(c: Settings, s: State, j: nat, step: TaskStep, i: nat, held: Inbound)
    requires TaskEnabled(c, s, j, step) && Sends(s, i, held)
    ensures Sends(TaskApply(c, s, j, step), i, held)
    ensures j == i && Begins(step) ==> TaskApply(c, s, j, step).h.sent == s.h.sent + [held]
  {
    var s' := TaskApply(c, s, j, step);
    assert s'.tasks[i] == if j == i then Task(s.tasks[i].name, PhaseAfter(c, s, i, step)) else s.tasks[i];
  }

  lemma SendsAtNext(c: Settings, states: seq<State>, steps: seq<Step>, j: nat, i: nat, held: Inbound)
    requires Run(c, states, steps) && j < |steps| && Sends(states[j], i, held) && SameProcess(steps[j])
    ensures Sends(states[j + 1], i, held)
    ensures steps[j].Forward? && steps[j].i == i && Begins(steps[j].forward) ==>
              states[j + 1].h.sent == states[j].h.sent + [held]
  {
    RunStep(c, states, steps, j);
    SendsStep(c, states[j], steps[j], i, held);
  }

  /** Once it has begun its first attempt, whoever else moves, every further attempt of a forward task puts the
      same message on the wire, whatever has become of the file. */
  lemma EveryAttemptSendsTheSame(c: Settings, states: seq<State>, steps: seq<Step>, k: nat, m: nat, i: nat,
                                 attempt: TaskStep)
    requires Run(c, states, steps) && k <= m < |steps|
    requires i < |states[k].tasks| && HasMessage(states[k].tasks[i].phase)
    requires (forall j :: k <= j < m ==> SameProcess(steps[j])) && steps[m] == Forward(i, attempt) && Begins(attempt)
    ensures states[m + 1].h.sent == states[m].h.sent + [states[k].tasks[i].phase.held]
  {
    var held := states[k].tasks[i].phase.held;
    var p := (j: nat) => j < |states| && Sends(states[j], i, held);
    forall j: nat | k <= j < m ensures Links(p, j) {
      var step := steps[j];
      if p(j) {
        SendsAtNext(c, states, steps, j, i, held);
      }
    }
    Chain(p, k, m);
    SendsAtNext(c, states, steps, m, i, held);
  }

  // ---------------------------------------------------------------- where a message comes from

  /** Where what a task holds comes from: it has just read it, has just folded the transcripts in, or held it. */
  ghost predicate HeldFrom(c: Settings, s: State, step: Step, s': State, i: nat)
    requires i < |s'.tasks| && PastRead(s'.tasks[i].phase)
  {
    && SameProcess(step) && i < |s.tasks| && s.tasks[i].name == s'.tasks[i].name
    && var p, p' := s.tasks[i].phase, s'.tasks[i].phase;
       if step == Forward(i, Read) then
         s.tasks[i].name in s.pending && s.pending[s.tasks[i].name] == Complete(p'.held) && p'.Transcribing?
       else if step.Forward? && step.i == i && step.forward.Transcribe? then
         p.Transcribing? && |step.forward.clips| == |AudioItems(p.held.media)|
         && p'.held == c.fold(p.held, step.forward.clips) && HasMessage(p')
       else PastRead(p) && p.held == p'.held && (HasMessage(p) <==> HasMessage(p'))
  }

  lemma HeldComesFrom(c: Settings, s: State, step: Step, s': State, i: nat)
    requires DownOk(s) && Moves(c, s, step, s') && i < |s'.tasks| && PastRead(s'.tasks[i].phase)
    ensures HeldFrom(c, s, step, s', i)
  {
    match step
    case Server(st) => assert s'.tasks == s.tasks;
    case Drain(st) => assert i < |s.tasks| ==> s'.tasks[i] == s.tasks[i];
    case Forward(j, st) => HeldForward(c, s, j, st, i);
    case Process(_) =>
  }

  lemma HeldForward(c: Settings, s: State, j: nat, step: TaskStep, i: nat)
    requires TaskEnabled(c, s, j, step) && i < |s.tasks| && PastRead(TaskApply(c, s, j, step).tasks[i].phase)
    ensures HeldFrom(c, s, Forward(j, step), TaskApply(c, s, j, step), i)
  {
    assert TaskApply(c, s, j, step).tasks[i] ==
           if j == i then Task(s.tasks[i].name, PhaseAfter(c, s, i, step)) else s.tasks[i];
  }

  /** The task read the record at step `j`, and, once it has a message, folded the clips in at step `t`. */
  ghost predicate GotAt(c: Settings, states: seq<State>, steps: seq<Step>, m: nat, i: nat, j: nat, t: nat,
                        clips: seq<Clip>)
    requires |states| == |steps| + 1 && m < |states| && i < |states[m].tasks| && PastRead(states[m].tasks[i].phase)
  {
    && j < m && steps[j] == Forward(i, Read) && i < |states[j].tasks|
    && states[j].tasks[i].name == states[m].tasks[i].name && states[j].tasks[i].name in states[j].pending
    && states[j].pending[states[j].tasks[i].name].Complete?
    && (forall x {:trigger steps[x]} :: j <= x < m ==> SameProcess(steps[x]))
    && (forall x {:trigger states[x]} :: j < x <= m ==>
          i < |states[x].tasks| && states[x].tasks[i].name == states[m].tasks[i].name
          && PastRead(states[x].tasks[i].phase))
    && var record, p := states[j].pending[states[j].tasks[i].name].record, states[m].tasks[i].phase;
       if p.Transcribing? then p.held == record
       else j < t < m && steps[t] == Forward(i, Transcribe(clips)) && |clips| == |AudioItems(record.media)|
            && p.held == c.fold(record, clips)
  }

  lemma DownInRuns(c: Settings, states: seq<State>, steps: seq<Step>, k: nat)
    requires SettingsOk(c) && Run(c, states, steps) && k < |states|
    ensures DownOk(states[k])
  {
    InvReachable(c, states, steps, k);
  }

  /** `HeldFrom` at this index of the run, where it applies. */
  ghost predicate Traced(c: Settings, states: seq<State>, steps: seq<Step>, k: nat, i: nat)
    requires |states| == |steps| + 1 && k < |steps|
  {
    i < |states[k + 1].tasks| && PastRead(states[k + 1].tasks[i].phase) ==>
      HeldFrom(c, states[k], steps[k], states[k + 1], i)
  }

  lemma TraceOne(c: Settings, states: seq<State>, steps: seq<Step>, k: nat, i: nat)
    requires SettingsOk(c) && Run(c, states, steps) && k < |steps|
    ensures Traced(c, states, steps, k, i)
  {
    DownInRuns(c, states, steps, k);
    RunStep(c, states, steps, k);
    if i < |states[k + 1].tasks| && PastRead(states[k + 1].tasks[i].phase) {
      HeldComesFrom(c, states[k], steps[k], states[k + 1], i);
    }
  }

  lemma {:induction false} TraceBack(c: Settings, states: seq<State>, steps: seq<Step>, m: nat, i: nat)
      returns (j: nat, t: nat, clips: seq<Clip>)
    requires |states| == |steps| + 1 && m < |states| && states[0].tasks == []
    requires forall k {:trigger Traced(c, states, steps, k, i)} :: 0 <= k < |steps| ==> Traced(c, states, steps, k, i)
    requires i < |states[m].tasks| && PastRead(states[m].tasks[i].phase)
    ensures GotAt(c, states, steps, m, i, j, t, clips)
  {
    assert Traced(c, states, steps, m - 1, i);
    var step := steps[m - 1];
    if step == Forward(i, Read) {
      j, t, clips := m - 1, m, [];
    } else {
      j, t, clips := TraceBack(c, states, steps, m - 1, i);
      if step.Forward? && step.i == i && step.forward.Transcribe? {
        t, clips := m - 1, step.forward.clips;
      }
    }
  }

  /** The Read and the transcription from which a forward task got what it holds. */
  lemma ReadOfHeld(c: Settings, states: seq<State>, steps: seq<Step>, m: nat, i: nat)
      returns (j: nat, t: nat, clips: seq<Clip>)
    requires SettingsOk(c) && Run(c, states, steps) && m < |states|
    requires i < |states[m].tasks| && PastRead(states[m].tasks[i].phase)
    ensures GotAt(c, states, steps, m, i, j, t, clips)
  {
    forall k | 0 <= k < |steps| ensures Traced(c, states, steps, k, i) {
      TraceOne(c, states, steps, k, i);
    }
    j, t, clips := TraceBack(c, states, steps, m, i);
  }

  // ---------------------------------------------------------------- transcripts

  /** What a forward task puts on the wire at step `m` was read by that task at step `j`: a complete record of the
      queue, admitted before, with the texts of the clips that it heard at step `t` in front. */
  ghost predicate OneFold(c: Settings, maxBytes: nat, states: seq<State>, steps: seq<Step>, m: nat, i: nat,
                          j: nat, t: nat, clips: seq<Clip>)
    requires |states| == |steps| + 1 && m < |steps|
  {
    && j < t <= m && steps[j] == Forward(i, Read) && steps[t] == Forward(i, Transcribe(clips))
    && (forall x {:trigger steps[x]} :: j <= x < m ==> SameProcess(steps[x]))
    && i < |states[j].tasks| && states[j].tasks[i].name in states[j].pending
    && var file := states[j].pending[states[j].tasks[i].name];
       && file.Complete? && WasAdmitted(states[j].h, file.record) && |clips| == |AudioItems(file.record.media)|
       && |states[m + 1].h.sent| == |states[m].h.sent| + 1 && states[m].h.sent <= states[m + 1].h.sent
       && VoiceFirst(file.record, clips, maxBytes, states[m + 1].h.sent[|states[m].h.sent|])
  }

  lemma RecordWasAdmitted(c: Settings, states: seq<State>, steps: seq<Step>, j: nat, i: nat)
    requires SettingsOk(c) && Run(c, states, steps) && j < |steps| && steps[j] == Forward(i, Read)
    requires i < |states[j].tasks| && states[j].tasks[i].name in states[j].pending
    requires states[j].pending[states[j].tasks[i].name].Complete?
    ensures WasAdmitted(states[j].h, states[j].pending[states[j].tasks[i].name].record)
  {
    InvReachable(c, states, steps, j);
  }

  /** What a beginning attempt sends, in terms of the task that makes it. */
  lemma BeginningSends(c: Settings, s: State, i: nat, attempt: TaskStep, s': State)
    requires Moves(c, s, Forward(i, attempt), s') && Begins(attempt)
    ensures i < |s.tasks| && PastRead(s.tasks[i].phase)
    ensures var held := s.tasks[i].phase.held;
            if attempt.Transcribe? then
              s.tasks[i].phase.Transcribing? && |attempt.clips| == |AudioItems(held.media)|
              && s'.h.sent == s.h.sent + [c.fold(held, attempt.clips)]
            else HasMessage(s.tasks[i].phase) && s'.h.sent == s.h.sent + [held]
  {
  }

  /** Transcripts never compound: over all runs, retries, crashes and restarts, whatever an attempt puts on the
      wire is exactly the queued record with the texts of the usable clips of one Read, in clip order and once. */
  lemma TranscriptsNeverCompound(c: Settings, maxBytes: nat, states: seq<State>, steps: seq<Step>, m: nat, i: nat,
                                 attempt: TaskStep)
      returns (j: nat, t: nat, clips: seq<Clip>)
    requires Deployed(c, maxBytes) && Run(c, states, steps) && m < |steps|
    requires steps[m] == Forward(i, attempt) && Begins(attempt)
    ensures OneFold(c, maxBytes, states, steps, m, i, j, t, clips)
  {
    DeployedIsOk(c, maxBytes);
    RunStep(c, states, steps, m);
    BeginningSends(c, states[m], i, attempt, states[m + 1]);
    j, t, clips := ReadOfHeld(c, states, steps, m, i);
    if attempt.Transcribe? {
      t, clips := m, attempt.clips;
    }
    RecordWasAdmitted(c, states, steps, j, i);
    var record := states[j].pending[states[j].tasks[i].name].record;
    assert c.fold(record, clips) == Folded(record, Blocks(clips, maxBytes));
    VoicesReachTheBody(record, clips, maxBytes);
  }

  /** The list of sent messages grows only when an attempt begins, by one. */
  lemma OnlyAttemptsSend(c: Settings, s: State, step: Step, s': State)
    requires Moves(c, s, step, s')
    ensures s'.h.sent == s.h.sent || (step.Forward? && Begins(step.forward) && |s'.h.sent| == |s.h.sent| + 1)
    ensures s.h.sent <= s'.h.sent
  {
  }

  /** What `OnlyAttemptsSend` says about this index of a run. */
  ghost predicate SentNext(states: seq<State>, steps: seq<Step>, k: nat)
    requires |states| == |steps| + 1 && k < |steps|
  {
    && states[k].h.sent <= states[k + 1].h.sent
    && (states[k + 1].h.sent == states[k].h.sent
        || (steps[k].Forward? && Begins(steps[k].forward) && |states[k + 1].h.sent| == |states[k].h.sent| + 1))
  }

  lemma SentNextInRuns(c: Settings, states: seq<State>, steps: seq<Step>, k: nat)
    requires Run(c, states, steps) && k < |steps|
    ensures SentNext(states, steps, k)
  {
    RunStep(c, states, steps, k);
    OnlyAttemptsSend(c, states[k], steps[k], states[k + 1]);
  }

  /** The step that put message number `p` on the wire. */
  lemma {:induction false} SentAt(states: seq<State>, steps: seq<Step>, k: nat, p: nat) returns (m: nat)
    requires |states| == |steps| + 1 && k < |states| && states[0].h.sent == [] && p < |states[k].h.sent|
    requires forall j {:trigger SentNext(states, steps, j)} :: 0 <= j < |steps| ==> SentNext(states, steps, j)
    ensures m < k && steps[m].Forward? && Begins(steps[m].forward) && |states[m].h.sent| == p
    ensures |states[m + 1].h.sent| == p + 1 && states[m + 1].h.sent[p] == states[k].h.sent[p]
  {
    assert SentNext(states, steps, k - 1);
    if p < |states[k - 1].h.sent| {
      m := SentAt(states, steps, k - 1, p);
    } else {
      m := k - 1;
    }
  }

  /** So every message ever sent is such a fold. */
  lemma EveryMessageIsOneFold(c: Settings, maxBytes: nat, states: seq<State>, steps: seq<Step>, k: nat, p: nat)
      returns (m: nat, i: nat, j: nat, t: nat, clips: seq<Clip>)
    requires Deployed(c, maxBytes) && Run(c, states, steps) && k < |states| && p < |states[k].h.sent|
    ensures m < k && OneFold(c, maxBytes, states, steps, m, i, j, t, clips)
    ensures VoiceFirst(states[j].pending[states[j].tasks[i].name].record, clips, maxBytes, states[k].h.sent[p])
  {
    forall j | 0 <= j < |steps| ensures SentNext(states, steps, j) {
      SentNextInRuns(c, states, steps, j);
    }
    m := SentAt(states, steps, k, p);
    i := steps[m].i;
    j, t, clips := TranscriptsNeverCompound(c, maxBytes, states, steps, m, i, steps[m].forward);
  }

  // ---------------------------------------------------------------- what a removal removes

  /** Some task reads the file of this name between the two steps. */
  ghost predicate ReadBetween(states: seq<State>, steps: seq<Step>, x: nat, m: nat, name: string)
    requires |states| == |steps| + 1 && m < |steps|
  {
    exists y :: x < y < m && ReadsAt(states[y], steps[y], name)
  }

  predicate ReadsAt(s: State, step: Step, name: string) {
    step.Forward? && step.forward.Read? && step.i < |s.tasks| && s.tasks[step.i].name == name
  }

  /** While one task holds a message, no other reads its file. */
  lemma NoReadBesides(c: Settings, s: State, step: Step, i: nat)
    requires TasksOk(c, s) && Enabled(c, s, step) && i < |s.tasks| && PastRead(s.tasks[i].phase)
    ensures !ReadsAt(s, step, s.tasks[i].name)
  {
    if ReadsAt(s, step, s.tasks[i].name) {
      assert Claims(s.tasks[i]) && Claims(s.tasks[step.i]);
    }
  }

  lemma HeldMeansUnread(c: Settings, states: seq<State>, steps: seq<Step>, y: nat, i: nat)
    requires SettingsOk(c) && Run(c, states, steps) && y < |steps|
    requires i < |states[y].tasks| && PastRead(states[y].tasks[i].phase)
    ensures !ReadsAt(states[y], steps[y], states[y].tasks[i].name)
  {
    TasksOkInRuns(c, states, steps, y);
    RunStep(c, states, steps, y);
    NoReadBesides(c, states[y], steps[y], i);
  }

  lemma RemovalIsLast(c: Settings, states: seq<State>, steps: seq<Step>, m: nat, i: nat)
    requires SettingsOk(c) && Run(c, states, steps) && m < |steps| && steps[m] == Forward(i, Remove)
    ensures i < |states[m].tasks| && states[m].tasks[i].phase.Succeeded?
    ensures states[m].tasks[i].name in states[m].pending && c.names.isJson(states[m].tasks[i].name)
  {
    RunStep(c, states, steps, m);
    TasksOkInRuns(c, states, steps, m);
  }

  /** When does a removal delete a record that nobody has read? The removed record is that of the last enqueue
      under its name, step `x`, and it was read, by the removing task, exactly if that enqueue came before the
      task's own Read, step `j`. An enqueue of the same id between the Read and the removal is deleted unread. */
  lemma RemovedUnreadIffOverwritten(c: Settings, states: seq<State>, steps: seq<Step>, m: nat, i: nat)
      returns (x: nat, j: nat, t: nat, clips: seq<Clip>)
    requires SettingsOk(c) && Run(c, states, steps) && m < |steps| && steps[m] == Forward(i, Remove)
    ensures i < |states[m].tasks| && PastRead(states[m].tasks[i].phase)
    ensures var name := states[m].tasks[i].name;
            && LastPublication(c, states, steps, x, m, name) && GotAt(c, states, steps, m, i, j, t, clips)
            && RecordAt(states[m].pending, name) == Some(Complete(states[x].handlers[steps[x].server.n].msg))
            && (ReadBetween(states, steps, x, m, name) <==> x < j)
            && (x < j ==> states[j].pending[name] == states[m].pending[name])
  {
    RemovalIsLast(c, states, steps, m, i);
    var name := states[m].tasks[i].name;
    x := FilesWereEnqueued(c, states, steps, m, name);
    j, t, clips := ReadOfHeld(c, states, steps, m, i);
    FileIsLastPublication(c, states, steps, x, m, name);
    if x < j {
      assert ReadsAt(states[j], steps[j], name);
      FileIsLastPublication(c, states, steps, x, j, name);
    } else {
      forall y | x < y < m ensures !ReadsAt(states[y], steps[y], name) {
        HeldMeansUnread(c, states, steps, y, i);
      }
    }
  }
}

/** The at-least-once delivery protocol: the webhook handlers of `src/server.rs`, the on-disk queue
    and the drain worker of `src/forward.rs`, as one transition system. A step is one action that
    other parties can interleave with.

    Assumed: a crash is a process crash and a completed rename survives it; two enqueues of one id
    do not overlap between creating and renaming their common temporary file; a message is delivered
    when `forward` returned Ok. */
module Delivery {
  import opened Wrappers
  import opened InboundModel
  import opened Policies
  import opened Routing
  import opened TtlSets
  import opened Transcription
  import opened Queues
  import Mentions

  datatype Settings = Settings(
    policy: PolicyConfig, selfNumber: Option<string>, router: Router,
    dedupLimits: Limits, sentLimits: Limits, names: Naming, fold: (Inbound, seq<Clip>) -> Inbound,
    concurrency: nat, maxRetries: nat)

  /** The protocol works for any faithful naming of files and any treatment of voice notes that keeps
      the message id; `Deployed` says which ones the source uses. */
  ghost predicate SettingsOk(c: Settings) {
    c.concurrency >= 1 && Faithful(c.names) && forall m, clips :: c.fold(m, clips).id == m.id
  }

  ghost predicate Deployed(c: Settings, maxBytes: nat) {
    && c.concurrency >= 1 && c.names == HEX_NAMING
    && (forall m, clips :: c.fold(m, clips) == Folded(m, Blocks(clips, maxBytes)))
    && c.sentLimits == Limits(SENT_ID_TTL, SENT_ID_CAPACITY)
  }

  // ---------------------------------------------------------------- state

  /** Where a webhook handler stands; the names follow what it has just done. */
  datatype HandlerPhase = Received | NotSeen | Admitted | TmpCreated | TmpWritten | Renamed | Notified

  /** `repliedAt` and `reactedAt` are the instants at which the sent ids were consulted. */
  datatype Handler = Handler(msg: Inbound, phase: HandlerPhase, repliedAt: Instant, reactedAt: Instant)

  datatype Worker =
    | Idle(ticked: bool)                          // in select; ticked: the safety timer has expired
    | LateIdle                                    // in a select entered after cancellation, its timer set anew
    | Listing(final: bool)                        // about to read the directory
    | Draining(left: set<string>, final: bool)    // names listed but not yet considered
    | Joining                                     // waiting for the tasks to settle
    | Exited

  /** Where a forward task stands. `held` is the record read from the file while the clips are being
      transcribed, and from then on the message as it is sent: the record with the transcripts folded in. */
  datatype TaskPhase =
    | Queued
    | Permitted
    | Transcribing(held: Inbound)
    | Trying(attempt: nat, held: Inbound)
    | Waiting(attempt: nat, held: Inbound, fired: bool)
    | Succeeded(held: Inbound)
    | GaveUp(held: Inbound)
    | Unparsable
    | Finished                                    // process_file returned; still in the in-flight set
    | Releasing                                   // left the in-flight set; still holds its permit
    | Ended

  datatype Task = Task(name: string, phase: TaskPhase)

  /** A record enqueued, with the process that admitted it and when it consulted the sent ids. */
  datatype Admission = Admission(record: Inbound, epoch: nat, repliedAt: Instant, reactedAt: Instant)

  /** A successful send whose id was recorded. */
  datatype OwnSend = OwnSend(epoch: nat, id: string, at: Instant)

  /** What has happened; read by no step. */
  datatype History = History(
    epoch: nat,                       // processes started so far
    enqueued: multiset<string>,       // completed renames, by id
    here: set<string>,                // ids enqueued by this process
    admissions: set<Admission>,
    acked: set<string>,               // ids acknowledged as enqueued or as duplicates
    ownSends: set<OwnSend>,
    delivered: multiset<string>,      // Ok forwards, by id
    runs: multiset<string>,           // runs of process_file that began an attempt, by id
    failedRemoves: multiset<string>,  // removals that failed after an Ok forward, by id
    givenBack: multiset<string>,      // runs that left the file: on shutdown, or not moved to dead; by id
    crashes: nat,
    sent: seq<Inbound>,               // every message put on the wire, in order
    missed: set<string>)              // see `Claim` and the failing steps

  datatype State = State(
    pending: Dir, dead: Dir,          // survive a crash
    up: bool,
    dedup: Entries, sentIds: Entries,
    handlers: map<nat, Handler>,
    worker: Worker, tasks: seq<Task>, inFlight: set<string>, permits: nat,
    notified: bool, cancelled: bool,
    h: History)

  function Init(): State {
    State(map[], map[], false, map[], map[], map[], Exited, [], {}, 0, false, false,
          History(0, multiset{}, {}, {}, {}, {}, multiset{}, multiset{}, multiset{}, multiset{}, 0, [], {}))
  }

  // ---------------------------------------------------------------- steps

  /** `webhook_gowa`, steps 3 to 9, and the recording of the bot's own sends. */
  datatype ServerStep =
    | Arrive(n: nat, e: GowaEnvelope, repliedAt: Instant, reactedAt: Instant)
    | DedupHit(n: nat, now: Instant)
    | DedupMiss(n: nat, now: Instant)
    | PolicyDrop(n: nat)
    | PolicyAllow(n: nat)
    | CreateTmp(n: nat)
    | WriteTmp(n: nat)
    | RenameTmp(n: nat)
    | IoError(n: nat)
    | Notify(n: nat)
    | MarkSeen(n: nat, now: Instant, dedup': Entries)
    | RecordSend(id: string, now: Instant, sentIds': Entries)

  /** `worker_loop` and `drain_pending`. */
  datatype WorkerStep =
    Tick | WakeNotified | WakeTicked | WakeCancelled | List | ListFails | Claim(name: string) | DrainDone | Join

  /** A forward task: `process_file` and what surrounds it. */
  datatype TaskStep =
    | Acquire
    | Read | ReadGone | ReadFails | ReadBad
    | Transcribe(clips: seq<Clip>)
    | ForwardOk | ForwardErr
    | Remove | RemoveFails | Bury | BuryFails
    | TimerFires | Retry | LeavePending
    | Unclaim | Release

  datatype ProcessStep = Cancel | Crash | Exit | Restart(stuck: set<string>)

  datatype Step =
    | Server(server: ServerStep)
    | Drain(drain: WorkerStep)
    | Forward(i: nat, forward: TaskStep)
    | Process(process: ProcessStep)

  predicate Phase(s: State, n: nat, p: HandlerPhase) {
    s.up && n in s.handlers && s.handlers[n].phase == p
  }

  /** A handler is between creating and renaming the temporary file of this id. */
  predicate Writing(s: State, id: string) {
    exists n :: n in s.handlers && s.handlers[n].msg.id == id
                && (s.handlers[n].phase == TmpCreated || s.handlers[n].phase == TmpWritten)
  }

  ghost predicate ServerEnabled(c: Settings, s: State, step: ServerStep) {
    match step
    case Arrive(n, e, _, _) => s.up && !s.cancelled && n !in s.handlers && IntoInbound(e).Ok?
    case DedupHit(n, now) => Phase(s, n, Received) && Live(c.dedupLimits, s.dedup, s.handlers[n].msg.id, now)
    case DedupMiss(n, now) => Phase(s, n, Received) && !Live(c.dedupLimits, s.dedup, s.handlers[n].msg.id, now)
    case PolicyDrop(n) => Phase(s, n, NotSeen) && Evaluate(c.policy, s.handlers[n].msg) != Allow
    case PolicyAllow(n) => Phase(s, n, NotSeen) && Evaluate(c.policy, s.handlers[n].msg) == Allow
    case CreateTmp(n) => Phase(s, n, Admitted) && !Writing(s, s.handlers[n].msg.id)
    case WriteTmp(n) => Phase(s, n, TmpCreated)
    case RenameTmp(n) =>
      Phase(s, n, TmpWritten)
      && var id := s.handlers[n].msg.id; c.names.tmp(id) in s.pending && c.names.tmp(id) != c.names.file(id)
    case IoError(n) => Phase(s, n, Admitted) || Phase(s, n, TmpCreated) || Phase(s, n, TmpWritten)
    case Notify(n) => Phase(s, n, Renamed)
    case MarkSeen(n, now, dedup') =>
      Phase(s, n, Notified)
      && exists added :: TtlSets.Step(c.dedupLimits, s.dedup, InsertNew(s.handlers[n].msg.id, now, added), dedup')
    case RecordSend(id, now, sentIds') =>
      s.up && !s.cancelled && id != "" && TtlSets.Step(c.sentLimits, s.sentIds, Record(id, now), sentIds')
  }

  /** Step 4: is the message addressed to the bot? */
  ghost predicate IsAddressed(c: Settings, s: State, m: Inbound, repliedAt: Instant, reactedAt: Instant) {
    || m.kind == Call
    || (c.selfNumber.Some? && Mentions.Tagged(m.body, c.selfNumber.value))
    || (m.replyTo.Some? && Live(c.sentLimits, s.sentIds, m.replyTo.value, repliedAt))
    || (m.reactedMessageId.Some? && Live(c.sentLimits, s.sentIds, m.reactedMessageId.value, reactedAt))
  }

  /** The handlers after a step: one arrives, moves on, or answers and is gone. */
  ghost function HandlersAfter(c: Settings, s: State, step: ServerStep): map<nat, Handler>
    requires ServerEnabled(c, s, step)
  {
    match step
    case Arrive(n, e, repliedAt, reactedAt) =>
      var m := IntoInbound(e).value;
      s.handlers[n := Handler(m.(mentioned := IsAddressed(c, s, m, repliedAt, reactedAt)), Received,
                              repliedAt, reactedAt)]
    case DedupMiss(n, _) => s.handlers[n := s.handlers[n].(phase := NotSeen)]
    case PolicyAllow(n) =>
      var m := s.handlers[n].msg;
      s.handlers[n := s.handlers[n].(phase := Admitted, msg := m.(channel := ChannelFor(c.router, m)))]
    case CreateTmp(n) => s.handlers[n := s.handlers[n].(phase := TmpCreated)]
    case WriteTmp(n) => s.handlers[n := s.handlers[n].(phase := TmpWritten)]
    case RenameTmp(n) => s.handlers[n := s.handlers[n].(phase := Renamed)]
    case Notify(n) => s.handlers[n := s.handlers[n].(phase := Notified)]
    case DedupHit(n, _) => s.handlers - {n}
    case PolicyDrop(n) => s.handlers - {n}
    case IoError(n) => s.handlers - {n}
    case MarkSeen(n, _, _) => s.handlers - {n}
    case RecordSend(_, _, _) => s.handlers
  }

  ghost function ServerDir(c: Settings, s: State, step: ServerStep): Dir
    requires ServerEnabled(c, s, step)
  {
    match step
    case CreateTmp(n) => Create(s.pending, c.names.tmp(s.handlers[n].msg.id))
    case WriteTmp(n) => WriteAll(s.pending, c.names.tmp(s.handlers[n].msg.id), s.handlers[n].msg)
    case RenameTmp(n) =>
      var id := s.handlers[n].msg.id;
      Queues.Rename(s.pending, c.names.tmp(id), c.names.file(id))
    case _ => s.pending
  }

  ghost function ServerHistory(c: Settings, s: State, step: ServerStep): History
    requires ServerEnabled(c, s, step)
  {
    match step
    case DedupHit(n, _) => s.h.(acked := s.h.acked + {s.handlers[n].msg.id})
    case MarkSeen(n, _, _) => s.h.(acked := s.h.acked + {s.handlers[n].msg.id})
    case RenameTmp(n) =>
      var hd := s.handlers[n];
      s.h.(enqueued := s.h.enqueued + multiset{hd.msg.id}, here := s.h.here + {hd.msg.id},
           admissions := s.h.admissions + {Admission(hd.msg, s.h.epoch, hd.repliedAt, hd.reactedAt)})
    case RecordSend(id, now, _) => s.h.(ownSends := s.h.ownSends + {OwnSend(s.h.epoch, id, now)})
    case _ => s.h
  }

  ghost function ServerApply(c: Settings, s: State, step: ServerStep): State
    requires ServerEnabled(c, s, step)
  {
    s.(handlers := HandlersAfter(c, s, step), pending := ServerDir(c, s, step),
       dedup := if step.MarkSeen? then step.dedup' else s.dedup,
       sentIds := if step.RecordSend? then step.sentIds' else s.sentIds,
       notified := s.notified || step.Notify?,
       h := ServerHistory(c, s, step))
  }

  predicate InSelect(w: Worker) {
    w.Idle? || w.LateIdle?
  }

  /** A select entered after cancellation is ready at once, long before its fresh timer. */
  predicate WorkerEnabled(s: State, step: WorkerStep) {
    s.up &&
    match step
    case Tick => s.worker == Idle(false)
    case WakeNotified => InSelect(s.worker) && s.notified
    case WakeTicked => s.worker == Idle(true)
    case WakeCancelled => InSelect(s.worker) && s.cancelled
    case List => s.worker.Listing?
    case ListFails => s.worker.Listing?
    case Claim(name) => s.worker.Draining? && name in s.worker.left
    case DrainDone => s.worker.Draining? && s.worker.left == {}
    case Join => s.worker.Joining? && forall i :: 0 <= i < |s.tasks| ==> s.tasks[i].phase.Ended?
  }

  /** The name belongs to a task that has returned from `process_file` but is still in flight. */
  predicate HeldByFinished(s: State, name: string) {
    exists i :: 0 <= i < |s.tasks| && s.tasks[i] == Task(name, Finished)
  }

  function AfterDrain(final: bool, cancelled: bool): Worker {
    if final then Joining else if cancelled then LateIdle else Idle(false)
  }

  function WorkerAfter(c: Settings, s: State, step: WorkerStep): Worker
    requires WorkerEnabled(s, step)
  {
    match step
    case Tick => Idle(true)
    case WakeNotified => Listing(false)
    case WakeTicked => Listing(false)
    case WakeCancelled => Listing(true)
    case List => Draining(FinalNames(s.pending, c.names.isJson), s.worker.final)
    case ListFails => AfterDrain(s.worker.final, s.cancelled)
    case Claim(name) => s.worker.(left := s.worker.left - {name})
    case DrainDone => AfterDrain(s.worker.final, s.cancelled)
    case Join => Exited
  }

  /** The step inserts the name into the in-flight set and spawns its task. */
  predicate Spawns(s: State, step: WorkerStep) {
    step.Claim? && step.name !in s.inFlight
  }

  /** `missed` collects the final names that the drain passes over although no task will look at them
      again, and that are not listed anew. */
  function WorkerHistory(c: Settings, s: State, step: WorkerStep): History
    requires WorkerEnabled(s, step)
  {
    if step.List? then s.h.(missed := {})
    else if step.ListFails? then s.h.(missed := s.h.missed + FinalNames(s.pending, c.names.isJson))
    else if step.Claim? && HeldByFinished(s, step.name) then s.h.(missed := s.h.missed + {step.name})
    else s.h
  }

  function WorkerApply(c: Settings, s: State, step: WorkerStep): State
    requires WorkerEnabled(s, step)
  {
    s.(worker := WorkerAfter(c, s, step),
       notified := s.notified && !step.WakeNotified?,
       inFlight := if Spawns(s, step) then s.inFlight + {step.name} else s.inFlight,
       tasks := if Spawns(s, step) then s.tasks + [Task(step.name, Queued)] else s.tasks,
       h := WorkerHistory(c, s, step))
  }

  ghost predicate TaskEnabled(c: Settings, s: State, i: nat, step: TaskStep) {
    s.up && i < |s.tasks| &&
    var name, p := s.tasks[i].name, s.tasks[i].phase;
    match step
    case Acquire => p.Queued? && s.permits > 0
    case Read => p.Permitted? && name in s.pending && s.pending[name].Complete?
    case ReadGone => p.Permitted? && name !in s.pending
    case ReadFails => p.Permitted? && name in s.pending
    case ReadBad => p.Permitted? && name in s.pending && s.pending[name].Partial?
    case Transcribe(clips) => p.Transcribing? && |clips| == |AudioItems(p.held.media)|
    case ForwardOk => p.Trying?
    case ForwardErr => p.Trying?
    case Remove => p.Succeeded? && name in s.pending
    case RemoveFails => p.Succeeded?
    case Bury => (p.GaveUp? || p.Unparsable?) && name in s.pending
    case BuryFails => p.GaveUp? || p.Unparsable?
    case TimerFires => p.Waiting? && !p.fired
    case Retry => p.Waiting? && p.fired
    case LeavePending => p.Waiting? && s.cancelled
    case Unclaim => p.Finished?
    case Release => p.Releasing?
  }

  ghost function PhaseAfter(c: Settings, s: State, i: nat, step: TaskStep): TaskPhase
    requires TaskEnabled(c, s, i, step)
  {
    var p := s.tasks[i].phase;
    match step
    case Acquire => Permitted
    case Read => Transcribing(s.pending[s.tasks[i].name].record)
    case ReadGone => Finished
    case ReadFails => Finished
    case ReadBad => Unparsable
    case Transcribe(clips) => Trying(0, c.fold(p.held, clips))
    case ForwardOk => Succeeded(p.held)
    case ForwardErr => if p.attempt >= c.maxRetries then GaveUp(p.held) else Waiting(p.attempt, p.held, false)
    case Remove => Finished
    case RemoveFails => Finished
    case Bury => Finished
    case BuryFails => Finished
    case TimerFires => Waiting(p.attempt, p.held, true)
    case Retry => Trying(p.attempt + 1, p.held)
    case LeavePending => Finished
    case Unclaim => Releasing
    case Release => Ended
  }

  /** The task returns from `process_file` while its file stays in `pending`. */
  predicate Abandons(step: TaskStep) {
    step.ReadFails? || step.RemoveFails? || step.BuryFails? || step.LeavePending?
  }

  /** An attempt begins: the message goes on the wire. */
  predicate Begins(step: TaskStep) {
    step.Transcribe? || step.Retry?
  }

  ghost function TaskHistory(c: Settings, s: State, i: nat, step: TaskStep): History
    requires TaskEnabled(c, s, i, step)
  {
    var name, p := s.tasks[i].name, s.tasks[i].phase;
    if Begins(step) then
      s.h.(sent := s.h.sent + [PhaseAfter(c, s, i, step).held],
           runs := if step.Transcribe? then s.h.runs + multiset{p.held.id} else s.h.runs)
    else if step.ForwardOk? then s.h.(delivered := s.h.delivered + multiset{p.held.id})
    else if step.RemoveFails? then
      s.h.(missed := s.h.missed + {name}, failedRemoves := s.h.failedRemoves + multiset{p.held.id})
    else if (step.BuryFails? && p.GaveUp?) || step.LeavePending? then
      s.h.(missed := s.h.missed + {name}, givenBack := s.h.givenBack + multiset{p.held.id})
    else if Abandons(step) then s.h.(missed := s.h.missed + {name})
    else s.h
  }

  ghost function TaskApply(c: Settings, s: State, i: nat, step: TaskStep): State
    requires TaskEnabled(c, s, i, step)
  {
    var name := s.tasks[i].name;
    s.(tasks := s.tasks[i := Task(name, PhaseAfter(c, s, i, step))],
       permits := if step.Acquire? then s.permits - 1 else if step.Release? then s.permits + 1 else s.permits,
       inFlight := if step.Unclaim? then s.inFlight - {name} else s.inFlight,
       pending := if step.Remove? || step.Bury? then s.pending - {name} else s.pending,
       dead := if step.Bury? then s.dead[name := s.pending[name]] else s.dead,
       h := TaskHistory(c, s, i, step))
  }

  predicate ProcessEnabled(s: State, step: ProcessStep) {
    match step
    case Cancel => s.up && !s.cancelled && s.handlers == map[]
    case Crash => s.up
    case Exit => s.up && s.worker.Exited?
    case Restart(stuck) => !s.up
  }

  /** Everything in memory is gone. */
  function Stopped(s: State): State {
    s.(up := false, dedup := map[], sentIds := map[], handlers := map[], worker := Exited, tasks := [], inFlight := {},
       permits := 0, notified := false, cancelled := false, h := s.h.(here := {}, missed := {}))
  }

  function ProcessApply(c: Settings, s: State, step: ProcessStep): State
    requires ProcessEnabled(s, step)
  {
    match step
    case Cancel => s.(cancelled := true)
    case Crash => var s' := Stopped(s); s'.(h := s'.h.(crashes := s'.h.crashes + 1))
    case Exit => Stopped(s)
    case Restart(stuck) =>
      s.(pending := Reaped(s.pending, c.names.isTmp, stuck), up := true, worker := Listing(false),
         permits := c.concurrency, h := s.h.(epoch := s.h.epoch + 1))
  }

  ghost predicate Enabled(c: Settings, s: State, step: Step) {
    match step
    case Server(st) => ServerEnabled(c, s, st)
    case Drain(st) => WorkerEnabled(s, st)
    case Forward(i, st) => TaskEnabled(c, s, i, st)
    case Process(st) => ProcessEnabled(s, st)
  }

  ghost function Apply(c: Settings, s: State, step: Step): State
    requires Enabled(c, s, step)
  {
    match step
    case Server(st) => ServerApply(c, s, st)
    case Drain(st) => WorkerApply(c, s, st)
    case Forward(i, st) => TaskApply(c, s, i, st)
    case Process(st) => ProcessApply(c, s, st)
  }

  ghost predicate Moves(c: Settings, s: State, step: Step, s': State) {
    Enabled(c, s, step) && s' == Apply(c, s, step)
  }

  ghost predicate MovesAt(c: Settings, states: seq<State>, steps: seq<Step>, k: nat)
    requires |states| == |steps| + 1 && k < |steps|
  {
    Moves(c, states[k], steps[k], states[k + 1])
  }

  /** A finite execution: the states passed through and the step between each two. */
  ghost predicate Run(c: Settings, states: seq<State>, steps: seq<Step>) {
    && |states| == |steps| + 1 && states[0] == Init()
    && forall k {:trigger MovesAt(c, states, steps, k)} :: 0 <= k < |steps| ==> MovesAt(c, states, steps, k)
  }

  lemma RunStep(c: Settings, states: seq<State>, steps: seq<Step>, j: nat)
    requires Run(c, states, steps) && j < |steps|
    ensures Moves(c, states[j], steps[j], states[j + 1])
  {
    assert MovesAt(c, states, steps, j);
  }
}

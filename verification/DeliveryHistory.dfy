/** The counters and ledgers in which the theorems are stated, read off the steps of the run: each counts what its name
    says, and each entry has the step behind it that made it. */
module DeliveryHistory {
  import opened Delivery

  // ---------------------------------------------------------------- counters

  /** Steps of one kind before state `k`. */
  ghost function Count(states: seq<State>, steps: seq<Step>, k: nat, kind: (State, Step) -> bool): nat
    requires |states| == |steps| + 1 && k <= |steps|
  {
    if k == 0 then 0
    else Count(states, steps, k - 1, kind) + if kind(states[k - 1], steps[k - 1]) then 1 else 0
  }

  predicate Starts(s: State, step: Step) {
    step.Process? && step.process.Restart?
  }

  predicate Crashes(s: State, step: Step) {
    step.Process? && step.process.Crash?
  }

  predicate BeginsAttempt(s: State, step: Step) {
    step.Forward? && Begins(step.forward)
  }

  /** The handler's enqueue is complete. */
  predicate Enqueues(s: State, step: Step, id: string) {
    step.Server? && step.server.RenameTmp? && step.server.n in s.handlers && s.handlers[step.server.n].msg.id == id
  }

  /** What the task that makes the step holds. */
  predicate HoldsId(s: State, step: Step, id: string) {
    step.Forward? && step.i < |s.tasks|
    && match s.tasks[step.i].phase
       case Transcribing(held) => held.id == id
       case Trying(_, held) => held.id == id
       case Waiting(_, held, _) => held.id == id
       case Succeeded(held) => held.id == id
       case GaveUp(held) => held.id == id
       case _ => false
  }

  predicate Delivers(s: State, step: Step, id: string) {
    HoldsId(s, step, id) && step.forward.ForwardOk?
  }

  predicate FailsToRemove(s: State, step: Step, id: string) {
    HoldsId(s, step, id) && step.forward.RemoveFails?
  }

  predicate StartsSending(s: State, step: Step, id: string) {
    HoldsId(s, step, id) && step.forward.Transcribe?
  }

  predicate HandsBack(s: State, step: Step, id: string) {
    HoldsId(s, step, id) && (step.forward.LeavePending? || step.forward.BuryFails?)
  }

  function One(b: bool): nat {
    if b then 1 else 0
  }

  ghost predicate SameCounters(h: History, h': History) {
    && h'.epoch == h.epoch && h'.crashes == h.crashes && h'.sent == h.sent && h'.delivered == h.delivered
    && h'.failedRemoves == h.failedRemoves && h'.runs == h.runs && h'.givenBack == h.givenBack
  }

  lemma ServerCounts(c: Settings, s: State, step: ServerStep, id: string)
    requires ServerEnabled(c, s, step)
    ensures var h' := ServerApply(c, s, step).h;
            SameCounters(s.h, h') && h'.enqueued[id] == s.h.enqueued[id] + One(Enqueues(s, Server(step), id))
  {
  }

  lemma ForwardCounts(c: Settings, s: State, i: nat, step: TaskStep, id: string)
    requires TaskEnabled(c, s, i, step)
    ensures var h, h', f := s.h, TaskApply(c, s, i, step).h, Forward(i, step);
            && h'.epoch == h.epoch && h'.crashes == h.crashes && h'.enqueued == h.enqueued
            && |h'.sent| == |h.sent| + One(BeginsAttempt(s, f))
            && h'.delivered[id] == h.delivered[id] + One(Delivers(s, f, id))
            && h'.failedRemoves[id] == h.failedRemoves[id] + One(FailsToRemove(s, f, id))
            && h'.runs[id] == h.runs[id] + One(StartsSending(s, f, id))
            && h'.givenBack[id] == h.givenBack[id] + One(HandsBack(s, f, id))
  {
  }

  lemma ProcessCounts(c: Settings, s: State, step: ProcessStep)
    requires ProcessEnabled(s, step)
    ensures var h' := ProcessApply(c, s, step).h;
            && SameCounters(s.h, h'.(epoch := s.h.epoch, crashes := s.h.crashes)) && h'.enqueued == s.h.enqueued
            && h'.epoch == s.h.epoch + One(Starts(s, Process(step)))
            && h'.crashes == s.h.crashes + One(Crashes(s, Process(step)))
  {
  }

  /** The counters are counts of steps. */
  lemma {:induction false} CountersAreExact(c: Settings, states: seq<State>, steps: seq<Step>, k: nat, id: string)
    requires Run(c, states, steps) && k < |states|
    ensures var h := states[k].h;
            && h.epoch == Count(states, steps, k, Starts) && h.crashes == Count(states, steps, k, Crashes)
            && |h.sent| == Count(states, steps, k, BeginsAttempt)
            && h.enqueued[id] == Count(states, steps, k, (s, step) => Enqueues(s, step, id))
            && h.delivered[id] == Count(states, steps, k, (s, step) => Delivers(s, step, id))
            && h.failedRemoves[id] == Count(states, steps, k, (s, step) => FailsToRemove(s, step, id))
            && h.runs[id] == Count(states, steps, k, (s, step) => StartsSending(s, step, id))
            && h.givenBack[id] == Count(states, steps, k, (s, step) => HandsBack(s, step, id))
  {
    if k > 0 {
      CountersAreExact(c, states, steps, k - 1, id);
      CountersAt(c, states, steps, k - 1, id);
    }
  }

  lemma CountersAt(c: Settings, states: seq<State>, steps: seq<Step>, k: nat, id: string)
    requires Run(c, states, steps) && k < |steps|
    ensures var h, h', s, step := states[k].h, states[k + 1].h, states[k], steps[k];
            && h'.epoch == h.epoch + One(Starts(s, step)) && h'.crashes == h.crashes + One(Crashes(s, step))
            && |h'.sent| == |h.sent| + One(BeginsAttempt(s, step))
            && h'.enqueued[id] == h.enqueued[id] + One(Enqueues(s, step, id))
            && h'.delivered[id] == h.delivered[id] + One(Delivers(s, step, id))
            && h'.failedRemoves[id] == h.failedRemoves[id] + One(FailsToRemove(s, step, id))
            && h'.runs[id] == h.runs[id] + One(StartsSending(s, step, id))
            && h'.givenBack[id] == h.givenBack[id] + One(HandsBack(s, step, id))
  {
    var s := states[k];
    RunStep(c, states, steps, k);
    match steps[k]
    case Server(st) => ServerCounts(c, s, st, id);
    case Drain(st) => assert SameCounters(s.h, WorkerApply(c, s, st).h);
    case Forward(i, st) => ForwardCounts(c, s, i, st, id);
    case Process(st) => ProcessCounts(c, s, st);
  }

  // ---------------------------------------------------------------- ledgers

  /** The step enqueues this record, in this process. */
  predicate Admits(s: State, step: Step, a: Admission) {
    step.Server? && step.server.RenameTmp? && step.server.n in s.handlers
    && var hd := s.handlers[step.server.n]; a == Admission(hd.msg, s.h.epoch, hd.repliedAt, hd.reactedAt)
  }

  /** The step records this send, in this process. */
  predicate RecordsSend(s: State, step: Step, o: OwnSend) {
    step.Server? && step.server.RecordSend? && o == OwnSend(s.h.epoch, step.server.id, step.server.now)
  }

  /** The step acknowledges this id, as enqueued or as a duplicate. */
  predicate Acknowledges(s: State, step: Step, id: string) {
    step.Server? && (step.server.MarkSeen? || step.server.DedupHit?) && step.server.n in s.handlers
    && s.handlers[step.server.n].msg.id == id
  }

  lemma ServerLedgers(c: Settings, s: State, step: ServerStep, a: Admission, o: OwnSend, id: string)
    requires ServerEnabled(c, s, step)
    ensures var h' := ServerApply(c, s, step).h;
            && (a in h'.admissions <==> a in s.h.admissions || Admits(s, Server(step), a))
            && (o in h'.ownSends <==> o in s.h.ownSends || RecordsSend(s, Server(step), o))
            && (id in h'.acked <==> id in s.h.acked || Acknowledges(s, Server(step), id))
  {
  }

  /** Nobody else writes in the ledgers. */
  lemma LedgersStay(c: Settings, s: State, step: Step, s': State)
    requires Moves(c, s, step, s') && !step.Server?
    ensures s'.h.admissions == s.h.admissions && s'.h.ownSends == s.h.ownSends && s'.h.acked == s.h.acked
  {
  }

  lemma LedgersStep(c: Settings, s: State, step: Step, s': State, a: Admission, o: OwnSend, id: string)
    requires Moves(c, s, step, s')
    ensures a in s'.h.admissions <==> a in s.h.admissions || Admits(s, step, a)
    ensures o in s'.h.ownSends <==> o in s.h.ownSends || RecordsSend(s, step, o)
    ensures id in s'.h.acked <==> id in s.h.acked || Acknowledges(s, step, id)
  {
    if step.Server? {
      ServerLedgers(c, s, step.server, a, o, id);
    } else {
      LedgersStay(c, s, step, s');
    }
  }

  ghost predicate Happened(states: seq<State>, steps: seq<Step>, k: nat, kind: (State, Step) -> bool)
    requires |states| == |steps| + 1 && k <= |steps|
  {
    Count(states, steps, k, kind) > 0
  }

  /** An entry is in its ledger exactly if the step that makes it has happened. */
  lemma {:induction false} LedgersAreExact(c: Settings, states: seq<State>, steps: seq<Step>, k: nat,
                                           a: Admission, o: OwnSend, id: string)
    requires Run(c, states, steps) && k < |states|
    ensures a in states[k].h.admissions <==> Happened(states, steps, k, (s, step) => Admits(s, step, a))
    ensures o in states[k].h.ownSends <==> Happened(states, steps, k, (s, step) => RecordsSend(s, step, o))
    ensures id in states[k].h.acked <==> Happened(states, steps, k, (s, step) => Acknowledges(s, step, id))
  {
    if k > 0 {
      LedgersAreExact(c, states, steps, k - 1, a, o, id);
      RunStep(c, states, steps, k - 1);
      LedgersStep(c, states[k - 1], steps[k - 1], states[k], a, o, id);
    }
  }
}

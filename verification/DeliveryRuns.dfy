/** The safety theorems of the delivery protocol, over all runs: any interleaving, with crashes, orderly
    exits and restarts at any point, and with any file operation failing. */
module DeliveryRuns {
  import opened Wrappers
  import opened InboundModel
  import opened Policies
  import opened TtlSets
  import opened Transcription
  import opened Queues
  import opened Delivery
  import opened DeliverySafety
  import Mentions
  import Routing

  /** The worker leaves its loop for good only when every task has ended. */
  predicate ExitOk(s: State) {
    s.up && s.worker.Exited? ==> forall i :: 0 <= i < |s.tasks| ==> s.tasks[i].phase.Ended?
  }

  ghost predicate Inv(c: Settings, s: State) {
    && DownOk(s) && ExitOk(s) && DirOk(c, s) && TasksOk(c, s) && HeldOk(c, s) && LedgerOk(c, s)
    && RecordsOk(c, s) && AddressOk(c, s)
    && (forall id :: CountOk(c, s, id))
  }

  lemma InvServer(c: Settings, s: State, step: ServerStep)
    requires SettingsOk(c) && Inv(c, s) && ServerEnabled(c, s, step)
    ensures Inv(c, ServerApply(c, s, step))
  {
    DirServer(c, s, step);
    TasksServer(c, s, step);
    HeldServer(c, s, step);
    LedgerServer(c, s, step);
    RecordsServer(c, s, step);
    AddressServer(c, s, step);
    CountsServer(c, s, step);
  }

  lemma TasksServer(c: Settings, s: State, step: ServerStep)
    requires TasksOk(c, s) && ServerEnabled(c, s, step)
    ensures TasksOk(c, ServerApply(c, s, step))
  {
  }

  lemma CountsServer(c: Settings, s: State, step: ServerStep)
    requires SettingsOk(c) && Inv(c, s) && ServerEnabled(c, s, step)
    ensures forall id :: CountOk(c, ServerApply(c, s, step), id)
  {
    forall id ensures CountOk(c, ServerApply(c, s, step), id) { CountServer(c, s, step, id); }
  }

  lemma ExitWorker(c: Settings, s: State, step: WorkerStep)
    requires ExitOk(s) && WorkerEnabled(s, step)
    ensures ExitOk(WorkerApply(c, s, step))
  {
  }

  lemma InvWorker(c: Settings, s: State, step: WorkerStep)
    requires SettingsOk(c) && Inv(c, s) && WorkerEnabled(s, step)
    ensures Inv(c, WorkerApply(c, s, step))
  {
    ExitWorker(c, s, step);
    TasksWorker(c, s, step);
    HeldWorker(c, s, step);
    LedgerWorker(c, s, step);
    RecordsFrame(c, s, WorkerApply(c, s, step));
    AddressFrame(c, s, WorkerApply(c, s, step));
    CountsWorker(c, s, step);
  }

  lemma CountsWorker(c: Settings, s: State, step: WorkerStep)
    requires Inv(c, s) && WorkerEnabled(s, step)
    ensures forall id :: CountOk(c, WorkerApply(c, s, step), id)
  {
    forall id ensures CountOk(c, WorkerApply(c, s, step), id) { CountWorker(c, s, step, id); }
  }

  lemma ExitForward(c: Settings, s: State, i: nat, step: TaskStep)
    requires ExitOk(s) && TaskEnabled(c, s, i, step)
    ensures ExitOk(TaskApply(c, s, i, step))
  {
    PhaseChange(c, s, i, step);
  }

  lemma CountsForward(c: Settings, s: State, i: nat, step: TaskStep)
    requires SettingsOk(c) && Inv(c, s) && TaskEnabled(c, s, i, step)
    ensures forall id :: CountOk(c, TaskApply(c, s, i, step), id)
  {
    forall id ensures CountOk(c, TaskApply(c, s, i, step), id) { CountForward(c, s, i, step, id); }
  }

  lemma AddressForward(c: Settings, s: State, i: nat, step: TaskStep)
    requires AddressOk(c, s) && TaskEnabled(c, s, i, step)
    ensures AddressOk(c, TaskApply(c, s, i, step))
  {
    AddressFrame(c, s, TaskApply(c, s, i, step));
  }

  lemma InvForward(c: Settings, s: State, i: nat, step: TaskStep)
    requires SettingsOk(c) && Inv(c, s) && TaskEnabled(c, s, i, step)
    ensures Inv(c, TaskApply(c, s, i, step))
  {
    ExitForward(c, s, i, step);
    DirForward(c, s, i, step);
    TasksForward(c, s, i, step);
    HeldForward(c, s, i, step);
    LedgerForward(c, s, i, step);
    RecordsFrame(c, s, TaskApply(c, s, i, step));
    AddressForward(c, s, i, step);
    CountsForward(c, s, i, step);
  }

  lemma InvProcess(c: Settings, s: State, step: ProcessStep)
    requires SettingsOk(c) && Inv(c, s) && ProcessEnabled(s, step)
    ensures Inv(c, ProcessApply(c, s, step))
  {
    var s' := ProcessApply(c, s, step);
    DirProcess(c, s, step);
    TasksProcess(c, s, step);
    LedgerProcess(c, s, step);
    RecordsFrame(c, s, s');
    AddressFrame(c, s, s');
    forall id ensures CountOk(c, s', id) { CountProcess(c, s, step, id); }
  }

  lemma InvStep(c: Settings, s: State, step: Step)
    requires SettingsOk(c) && Inv(c, s) && Enabled(c, s, step)
    ensures Inv(c, Apply(c, s, step))
  {
    match step
    case Server(st) => InvServer(c, s, st);
    case Drain(st) => InvWorker(c, s, st);
    case Forward(i, st) => InvForward(c, s, i, st);
    case Process(st) => InvProcess(c, s, st);
  }

  lemma {:induction false} InvReachable(c: Settings, states: seq<State>, steps: seq<Step>, k: nat)
    requires SettingsOk(c) && Run(c, states, steps) && k < |states|
    ensures Inv(c, states[k])
  {
    if k > 0 {
      InvReachable(c, states, steps, k - 1);
      RunStep(c, states, steps, k - 1);
      InvStep(c, states[k - 1], steps[k - 1]);
    }
  }

  // ---------------------------------------------------------------- theorems

  /** No acknowledged loss: a message acknowledged as enqueued or as a duplicate is waiting in
      `pending`, set aside in `dead`, or was delivered. */
  lemma NoAcknowledgedLoss(c: Settings, states: seq<State>, steps: seq<Step>, k: nat, id: string)
    requires SettingsOk(c) && Run(c, states, steps) && k < |states|
    ensures id in states[k].h.acked ==> Accounted(c, states[k], id)
  {
    InvReachable(c, states, steps, k);
  }

  /** A message is delivered more often than it was enqueued only through a failed removal or a
      crash. */
  lemma DuplicatesAreAccountedFor(c: Settings, states: seq<State>, steps: seq<Step>, k: nat, id: string)
    requires SettingsOk(c) && Run(c, states, steps) && k < |states|
    ensures var h := states[k].h; h.delivered[id] <= h.enqueued[id] + h.failedRemoves[id] + h.crashes
  {
    InvReachable(c, states, steps, k);
    var s := states[k];
    assert CountOk(c, s, id);
    if AboutToRemove(s, id) {
      assert c.names.file(id) in s.pending;
    }
  }

  /** Exclusion: the in-flight set is exactly the names of the tasks that answer for one, no two tasks
      answer for the same name, and at most `concurrency` tasks are past the semaphore. */
  lemma WorkersExclude(c: Settings, states: seq<State>, steps: seq<Step>, k: nat)
    requires SettingsOk(c) && Run(c, states, steps) && k < |states|
    ensures var s := states[k];
            && s.inFlight == (set i | 0 <= i < |s.tasks| && Claims(s.tasks[i]) :: s.tasks[i].name)
            && (forall i, j :: 0 <= i < j < |s.tasks| && Claims(s.tasks[i]) && Claims(s.tasks[j]) ==>
                  s.tasks[i].name != s.tasks[j].name)
            && Sum(s.tasks, PermitWeight()) <= c.concurrency
  {
    InvReachable(c, states, steps, k);
  }

  /** The queue directory after any run: final files are complete records under their own names, everything else is
      temporary, and reopening removes exactly what is temporary, except where a removal fails. */
  lemma DirectoryIsCrashConsistent(c: Settings, states: seq<State>, steps: seq<Step>, k: nat)
    requires SettingsOk(c) && Run(c, states, steps) && k < |states|
    ensures var dir := states[k].pending;
            && (forall n :: n in dir && c.names.isJson(n) ==>
                  dir[n].Complete? && n == c.names.file(dir[n].record.id) && WasAdmitted(states[k].h, dir[n].record))
            && (forall n :: n in dir ==> (c.names.isTmp(n) <==> !c.names.isJson(n)))
            && forall stuck ::
                 Reaped(dir, c.names.isTmp, stuck) == (map n | n in dir && (c.names.isJson(n) || n in stuck) :: dir[n])
  {
    InvReachable(c, states, steps, k);
    var dir := states[k].pending;
    forall n | n in dir && c.names.isJson(n) ensures !c.names.isTmp(n) {
      assert n == c.names.file(dir[n].record.id);
    }
  }

  lemma DeployedIsOk(c: Settings, maxBytes: nat)
    requires Deployed(c, maxBytes)
    ensures SettingsOk(c)
  {
    HexNamingIsFaithful();
    forall m, clips ensures c.fold(m, clips).id == m.id {
      assert c.fold(m, clips) == Folded(m, Blocks(clips, maxBytes));
    }
  }

  /** Addressing safety: where the mention gate applies, whatever was enqueued is a call, tags the
      bot, or replies or reacts to a message that the same process sent less than six hours before. */
  lemma OnlyAddressedMessagesEnter(c: Settings, maxBytes: nat, states: seq<State>, steps: seq<Step>, k: nat,
                                   a: Admission)
    requires Deployed(c, maxBytes) && Run(c, states, steps) && k < |states|
    requires a in states[k].h.admissions && MentionGated(c.policy, a.record)
    ensures var m, h := a.record, states[k].h;
            || m.kind == Call
            || (c.selfNumber.Some? && Mentions.Tagged(m.body, c.selfNumber.value))
            || (exists o :: o in h.ownSends && o.epoch == a.epoch && Some(o.id) == m.replyTo
                              && Age(a.repliedAt, o.at) < SENT_ID_TTL)
            || (exists o :: o in h.ownSends && o.epoch == a.epoch && Some(o.id) == m.reactedMessageId
                              && Age(a.reactedAt, o.at) < SENT_ID_TTL)
  {
    DeployedIsOk(c, maxBytes);
    AdmittedRightly(c, states, steps, k, a);
    PolicyIsExact(c.policy, a.record);
  }

  lemma AdmittedRightly(c: Settings, states: seq<State>, steps: seq<Step>, k: nat, a: Admission)
    requires SettingsOk(c) && Run(c, states, steps) && k < |states| && a in states[k].h.admissions
    ensures RightlyAdmitted(c, states[k].h, a)
  {
    InvReachable(c, states, steps, k);
  }

  /** The operator's settings hold for whatever was enqueued: a direct message comes from a sender who may write, a
      group's message from a group the bot listens to, and from a gated group only when addressed. */
  lemma AdmittedMeetsTheSettings(c: Settings, states: seq<State>, steps: seq<Step>, k: nat, a: Admission)
    requires SettingsOk(c) && Run(c, states, steps) && k < |states| && a in states[k].h.admissions
    ensures var m, p := a.record, c.policy;
            if m.IsGroup() then
              && p.groupPolicy != GroupOff && (p.groupPolicy == GroupAllowlist ==> m.chatId in p.groupAllow)
              && (p.requireMention && m.chatId !in p.freeResponseChats ==> m.mentioned)
            else p.dmPolicy == DmOpen || (p.dmPolicy == DmAllowlist && m.sender in p.dmAllow)
  {
    AdmittedRightly(c, states, steps, k, a);
    PolicyIsExact(c.policy, a.record);
  }

  /** Under a configuration that start-up accepted, whatever was enqueued from a mapped group carries the label of its
      mapping, everything else carries the default label, and each label has its own client. */
  lemma AdmittedReachesItsAgent(c: Settings, l: Routing.Loaded, states: seq<State>, steps: seq<Step>, k: nat,
                                a: Admission)
    requires SettingsOk(c) && Run(c, states, steps) && k < |states| && a in states[k].h.admissions
    requires Routing.Consistent(l) && c.router == l.router
    ensures var m := a.record;
            && (forall p :: p in l.mappings && p.0 == m.chatId ==> m.channel == p.1)
            && (m.chatId !in Routing.Jids(l.mappings) || !m.IsGroup() ==> m.channel == DEFAULT_CHANNEL)
            && (exists ch :: ch in l.channels && ch.name == m.channel
                             && Routing.ClientOf(Routing.ClientFor(l.router, m.channel), ch))
  {
    AdmittedRightly(c, states, steps, k, a);
    Routing.LabelsFollowTheMap(l, a.record);
    Routing.RoutingIsClosed(l, a.record);
  }
}

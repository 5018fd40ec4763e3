/** What every step of the delivery protocol keeps, and what follows for whole runs. */
module DeliverySafety {
  import opened Wrappers
  import opened InboundModel
  import opened Policies
  import opened TtlSets
  import opened Queues
  import opened Delivery
  import Mentions
  import Routing

  // ---------------------------------------------------------------- the directory

  predicate Writes(h: Handler) {
    h.phase == TmpCreated || h.phase == TmpWritten
  }

  predicate ShareTmp(a: Handler, b: Handler) {
    Writes(a) && Writes(b) && a.msg.id == b.msg.id
  }

  /** Every file is a final one, complete and named after its record's id, or a temporary one. */
  ghost predicate FilesOk(c: Settings, dir: Dir) {
    forall n :: n in dir ==>
      if c.names.isJson(n) then
        dir[n].Complete? && dir[n].record.id != "" && n == c.names.file(dir[n].record.id)
      else c.names.isTmp(n)
  }

  /** The temporary file that a writing handler works on. */
  ghost predicate TmpOk(c: Settings, dir: Dir, h: Handler) {
    && h.msg.id != ""
    && (Writes(h) ==> c.names.tmp(h.msg.id) in dir)
    && (h.phase == TmpWritten ==> dir[c.names.tmp(h.msg.id)] == Complete(h.msg))
  }

  ghost predicate WritersOk(c: Settings, dir: Dir, handlers: map<nat, Handler>) {
    && (forall k :: k in handlers ==> TmpOk(c, dir, handlers[k]))
    && (forall j, k :: j in handlers && k in handlers && ShareTmp(handlers[j], handlers[k]) ==> j == k)
  }

  ghost predicate DirOk(c: Settings, s: State) {
    FilesOk(c, s.pending) && WritersOk(c, s.pending, s.handlers)
  }

  /** What the rename makes of the directory, and `ForwardQueue.Enqueue` promises. */
  function Published(c: Settings, dir: Dir, m: Inbound): Dir {
    dir[c.names.file(m.id) := Complete(m)] - {c.names.tmp(m.id)}
  }

  /** A change of other files than the temporary ones in use. */
  lemma WritersUnaffected(c: Settings, dir: Dir, dir': Dir, handlers: map<nat, Handler>)
    requires WritersOk(c, dir, handlers)
    requires forall k :: k in handlers && Writes(handlers[k]) ==>
               var t := c.names.tmp(handlers[k].msg.id); t in dir ==> t in dir' && dir'[t] == dir[t]
    ensures WritersOk(c, dir', handlers)
  {
    forall k | k in handlers ensures TmpOk(c, dir', handlers[k]) {
      assert TmpOk(c, dir, handlers[k]);
    }
  }

  lemma DirCreateTmp(c: Settings, s: State, n: nat)
    requires SettingsOk(c) && DirOk(c, s) && ServerEnabled(c, s, CreateTmp(n))
    ensures DirOk(c, ServerApply(c, s, CreateTmp(n)))
  {
    var hd := s.handlers[n];
    var dir' := s.pending[c.names.tmp(hd.msg.id) := Partial];
    var others := s.handlers - {n};
    forall k | k in others && Writes(others[k]) ensures others[k].msg.id != hd.msg.id {
      assert !ShareTmp(others[k], hd);
    }
    WritersUnaffected(c, s.pending, dir', others);
    assert TmpOk(c, s.pending, hd);
  }

  lemma DirWriteTmp(c: Settings, s: State, n: nat)
    requires SettingsOk(c) && DirOk(c, s) && ServerEnabled(c, s, WriteTmp(n))
    ensures DirOk(c, ServerApply(c, s, WriteTmp(n)))
  {
    var hd := s.handlers[n];
    var dir' := s.pending[c.names.tmp(hd.msg.id) := Complete(hd.msg)];
    var others := s.handlers - {n};
    forall k | k in others && Writes(others[k]) ensures others[k].msg.id != hd.msg.id {
      assert !ShareTmp(others[k], hd);
    }
    WritersUnaffected(c, s.pending, dir', others);
    assert TmpOk(c, s.pending, hd);
  }

  lemma DirRenameTmp(c: Settings, s: State, n: nat)
    requires SettingsOk(c) && DirOk(c, s) && ServerEnabled(c, s, RenameTmp(n))
    ensures DirOk(c, ServerApply(c, s, RenameTmp(n)))
    ensures ServerApply(c, s, RenameTmp(n)).pending == Published(c, s.pending, s.handlers[n].msg)
  {
    var hd := s.handlers[n];
    assert TmpOk(c, s.pending, hd);
    assert ServerApply(c, s, RenameTmp(n)).pending == Published(c, s.pending, hd.msg);
    OthersKeepWriting(c, s, n);
  }

  lemma OthersKeepWriting(c: Settings, s: State, n: nat)
    requires SettingsOk(c) && DirOk(c, s) && n in s.handlers && Writes(s.handlers[n])
    ensures WritersOk(c, Published(c, s.pending, s.handlers[n].msg), s.handlers - {n})
  {
    var hd, others := s.handlers[n], s.handlers - {n};
    forall k | k in others && Writes(others[k]) ensures others[k].msg.id != hd.msg.id {
      assert !ShareTmp(others[k], hd);
    }
    WritersUnaffected(c, s.pending, Published(c, s.pending, hd.msg), others);
  }

  lemma DirArrive(c: Settings, s: State, step: ServerStep)
    requires step.Arrive? && DirOk(c, s) && ServerEnabled(c, s, step)
    ensures DirOk(c, ServerApply(c, s, step))
  {
    AcceptedIsWellFormed(step.e);
    var s' := ServerApply(c, s, step);
    assert TmpOk(c, s.pending, s'.handlers[step.n]);
  }

  /** Handlers answer or move on without touching a file. */
  lemma DirQuiet(c: Settings, dir: Dir, handlers: map<nat, Handler>, handlers': map<nat, Handler>)
    requires WritersOk(c, dir, handlers)
    requires forall k :: k in handlers' ==>
               k in handlers && handlers'[k].msg.id == handlers[k].msg.id
               && (handlers'[k] == handlers[k] || !Writes(handlers'[k]))
    ensures WritersOk(c, dir, handlers')
  {
    forall k | k in handlers' ensures TmpOk(c, dir, handlers'[k]) {
      assert TmpOk(c, dir, handlers[k]);
    }
    forall j, k | j in handlers' && k in handlers' && ShareTmp(handlers'[j], handlers'[k]) ensures j == k {
      assert ShareTmp(handlers[j], handlers[k]);
    }
  }

  lemma DirServer(c: Settings, s: State, step: ServerStep)
    requires SettingsOk(c) && DirOk(c, s) && ServerEnabled(c, s, step)
    ensures DirOk(c, ServerApply(c, s, step))
  {
    match step
    case Arrive(_, _, _, _) => DirArrive(c, s, step);
    case CreateTmp(n) => DirCreateTmp(c, s, n);
    case WriteTmp(n) => DirWriteTmp(c, s, n);
    case RenameTmp(n) => DirRenameTmp(c, s, n);
    case _ => DirUntouched(c, s, step);
  }

  lemma DirUntouched(c: Settings, s: State, step: ServerStep)
    requires DirOk(c, s) && ServerEnabled(c, s, step)
    requires !step.Arrive? && !step.CreateTmp? && !step.WriteTmp? && !step.RenameTmp?
    ensures DirOk(c, ServerApply(c, s, step))
  {
    var hs := HandlersAfter(c, s, step);
    assert ServerDir(c, s, step) == s.pending;
    DirQuiet(c, s.pending, s.handlers, hs);
  }

  /** A stopped process has nothing in memory. */
  predicate DownOk(s: State) {
    !s.up ==> s.handlers == map[] && s.tasks == [] && s.inFlight == {} && s.dedup == map[] && s.sentIds == map[]
              && s.h.here == {} && s.worker == Exited && !s.notified && !s.cancelled
  }

  lemma DirProcess(c: Settings, s: State, step: ProcessStep)
    requires SettingsOk(c) && DirOk(c, s) && DownOk(s) && ProcessEnabled(s, step)
    ensures DirOk(c, ProcessApply(c, s, step)) && DownOk(ProcessApply(c, s, step))
  {
  }

  // ---------------------------------------------------------------- the worker's tasks

  function Sum(tasks: seq<Task>, w: Task -> nat): nat {
    if tasks == [] then 0 else Sum(tasks[..|tasks| - 1], w) + w(tasks[|tasks| - 1])
  }

  lemma {:induction false} SumUpdate(tasks: seq<Task>, i: nat, t: Task, w: Task -> nat)
    requires i < |tasks|
    ensures Sum(tasks[i := t], w) + w(tasks[i]) == Sum(tasks, w) + w(t)
  {
    var n := |tasks| - 1;
    var tasks' := tasks[i := t];
    if i == n {
      assert tasks'[..n] == tasks[..n];
    } else {
      SumUpdate(tasks[..n], i, t, w);
      assert tasks'[..n] == tasks[..n][i := t];
    }
  }

  lemma SumAppend(tasks: seq<Task>, t: Task, w: Task -> nat)
    ensures Sum(tasks + [t], w) == Sum(tasks, w) + w(t)
  {
    assert (tasks + [t])[..|tasks|] == tasks;
  }

  /** Some task contributes to a positive sum. */
  lemma {:induction false} SumWitness(tasks: seq<Task>, w: Task -> nat) returns (i: nat)
    requires Sum(tasks, w) > 0
    ensures i < |tasks| && w(tasks[i]) > 0
  {
    var n := |tasks| - 1;
    if w(tasks[n]) > 0 {
      i := n;
    } else {
      i := SumWitness(tasks[..n], w);
    }
  }

  /** The task answers for its name in the in-flight set. */
  predicate Claims(t: Task) {
    !t.phase.Releasing? && !t.phase.Ended?
  }

  /** The task is past `acquire_owned` and has not dropped its permit. */
  predicate HoldsPermit(t: Task) {
    !t.phase.Queued? && !t.phase.Ended?
  }

  function PermitWeight(): Task -> nat {
    (t: Task) => if HoldsPermit(t) then 1 else 0
  }

  ghost predicate Exclusive(tasks: seq<Task>, inFlight: set<string>) {
    && (forall i :: 0 <= i < |tasks| && Claims(tasks[i]) ==> tasks[i].name in inFlight)
    && (forall n :: n in inFlight ==> exists i :: 0 <= i < |tasks| && Claims(tasks[i]) && tasks[i].name == n)
    && (forall i, j :: 0 <= i < j < |tasks| && Claims(tasks[i]) && Claims(tasks[j]) ==> tasks[i].name != tasks[j].name)
  }

  ghost predicate TasksOk(c: Settings, s: State) {
    && (forall i :: 0 <= i < |s.tasks| ==> c.names.isJson(s.tasks[i].name))
    && (s.worker.Draining? ==> forall n :: n in s.worker.left ==> c.names.isJson(n))
    && Exclusive(s.tasks, s.inFlight)
    && (s.up ==> s.permits + Sum(s.tasks, PermitWeight()) == c.concurrency)
  }

  lemma ExclusiveUpdate(tasks: seq<Task>, inFlight: set<string>, i: nat, t: Task)
    requires Exclusive(tasks, inFlight) && i < |tasks| && t.name == tasks[i].name && (Claims(t) ==> Claims(tasks[i]))
    ensures Exclusive(tasks[i := t], if Claims(tasks[i]) && !Claims(t) then inFlight - {t.name} else inFlight)
  {
    var tasks' := tasks[i := t];
    var gone := Claims(tasks[i]) && !Claims(t);
    var inFlight' := if gone then inFlight - {t.name} else inFlight;
    forall n | n in inFlight' ensures exists j :: 0 <= j < |tasks'| && Claims(tasks'[j]) && tasks'[j].name == n {
      var j :| 0 <= j < |tasks| && Claims(tasks[j]) && tasks[j].name == n;
      assert Claims(tasks'[j]) && tasks'[j].name == n;
    }
  }

  lemma ExclusiveAppend(tasks: seq<Task>, inFlight: set<string>, name: string)
    requires Exclusive(tasks, inFlight) && name !in inFlight
    ensures Exclusive(tasks + [Task(name, Queued)], inFlight + {name})
  {
    var t := Task(name, Queued);
    var tasks' := tasks + [t];
    forall n | n in inFlight + {name}
      ensures exists j :: 0 <= j < |tasks'| && Claims(tasks'[j]) && tasks'[j].name == n
    {
      if n == name {
        assert tasks'[|tasks|] == t;
      } else {
        var j :| 0 <= j < |tasks| && Claims(tasks[j]) && tasks[j].name == n;
        assert tasks'[j] == tasks[j];
      }
    }
  }

  /** The permits and the in-flight set follow the phase of the task. */
  lemma PhaseChange(c: Settings, s: State, i: nat, step: TaskStep)
    requires TaskEnabled(c, s, i, step)
    ensures var t, t' := s.tasks[i], s.tasks[i].(phase := PhaseAfter(c, s, i, step));
            && (Claims(t') <==> Claims(t) && !step.Unclaim?)
            && (HoldsPermit(t) <==> !step.Acquire? && !t.phase.Ended?)
            && (HoldsPermit(t') <==> !step.Release?)
            && !t.phase.Ended? && (step.Unclaim? ==> Claims(t))
  {
  }

  lemma DirForward(c: Settings, s: State, i: nat, step: TaskStep)
    requires SettingsOk(c) && DirOk(c, s) && TasksOk(c, s) && TaskEnabled(c, s, i, step)
    ensures DirOk(c, TaskApply(c, s, i, step))
  {
    var dir' := TaskApply(c, s, i, step).pending;
    WritersUnaffected(c, s.pending, dir', s.handlers);
  }

  lemma TasksForward(c: Settings, s: State, i: nat, step: TaskStep)
    requires TasksOk(c, s) && TaskEnabled(c, s, i, step)
    ensures TasksOk(c, TaskApply(c, s, i, step))
  {
    PhaseChange(c, s, i, step);
    var t' := s.tasks[i].(phase := PhaseAfter(c, s, i, step));
    ExclusiveUpdate(s.tasks, s.inFlight, i, t');
    SumUpdate(s.tasks, i, t', PermitWeight());
  }

  lemma TasksClaim(c: Settings, s: State, name: string)
    requires TasksOk(c, s) && WorkerEnabled(s, Claim(name))
    ensures TasksOk(c, WorkerApply(c, s, Claim(name)))
  {
    var s' := WorkerApply(c, s, Claim(name));
    if name !in s.inFlight {
      var t := Task(name, Queued);
      assert s'.tasks == s.tasks + [t];
      ExclusiveAppend(s.tasks, s.inFlight, name);
      SumAppend(s.tasks, t, PermitWeight());
    }
  }

  lemma TasksWorker(c: Settings, s: State, step: WorkerStep)
    requires TasksOk(c, s) && WorkerEnabled(s, step)
    ensures TasksOk(c, WorkerApply(c, s, step))
  {
    if step.Claim? {
      TasksClaim(c, s, step.name);
    }
  }

  lemma TasksProcess(c: Settings, s: State, step: ProcessStep)
    requires TasksOk(c, s) && DownOk(s) && ProcessEnabled(s, step)
    ensures TasksOk(c, ProcessApply(c, s, step))
  {
  }

  // ---------------------------------------------------------------- tasks and their files

  /** The task sends, or has sent, a message. */
  predicate HasMessage(p: TaskPhase) {
    p.Trying? || p.Waiting? || p.Succeeded? || p.GaveUp?
  }

  predicate PastRead(p: TaskPhase) {
    p.Transcribing? || HasMessage(p)
  }

  /** From reading its file until removing it, a task's file is there and is the one its message is
      named by. No file is ever unparsable. */
  ghost predicate HeldOk(c: Settings, s: State) {
    forall i :: 0 <= i < |s.tasks| ==>
      && !s.tasks[i].phase.Unparsable?
      && (PastRead(s.tasks[i].phase) ==>
            s.tasks[i].name in s.pending && s.tasks[i].name == c.names.file(s.tasks[i].phase.held.id))
      && (s.tasks[i].phase.Succeeded? ==> s.tasks[i].phase.held.id in s.h.delivered)
  }

  /** The handlers never take a final name away. */
  lemma ServerKeepsFinalNames(c: Settings, s: State, step: ServerStep, n: string)
    requires SettingsOk(c) && ServerEnabled(c, s, step) && n in s.pending && c.names.isJson(n)
    ensures n in ServerApply(c, s, step).pending
  {
  }

  lemma HeldServer(c: Settings, s: State, step: ServerStep)
    requires SettingsOk(c) && TasksOk(c, s) && HeldOk(c, s) && ServerEnabled(c, s, step)
    ensures HeldOk(c, ServerApply(c, s, step))
  {
    forall i | 0 <= i < |s.tasks| && PastRead(s.tasks[i].phase)
      ensures s.tasks[i].name in ServerApply(c, s, step).pending
    {
      ServerKeepsFinalNames(c, s, step, s.tasks[i].name);
    }
  }

  /** Nobody else removes the file of a task that has read it. */
  lemma OthersKeepMyFile(c: Settings, s: State, i: nat, step: TaskStep, j: nat)
    requires TasksOk(c, s) && HeldOk(c, s) && TaskEnabled(c, s, i, step)
    requires j < |s.tasks| && j != i && PastRead(s.tasks[j].phase)
    ensures s.tasks[j].name in TaskApply(c, s, i, step).pending
  {
    assert Claims(s.tasks[j]);
    if step.Remove? || step.Bury? {
      assert Claims(s.tasks[i]);
    }
  }

  lemma HeldOwn(c: Settings, s: State, i: nat, step: TaskStep)
    requires SettingsOk(c) && DirOk(c, s) && TasksOk(c, s) && HeldOk(c, s) && TaskEnabled(c, s, i, step)
    ensures var p, s' := PhaseAfter(c, s, i, step), TaskApply(c, s, i, step);
            && !p.Unparsable?
            && (PastRead(p) ==> s.tasks[i].name in s'.pending && s.tasks[i].name == c.names.file(p.held.id))
            && (p.Succeeded? ==> p.held.id in s'.h.delivered)
  {
    SucceededIsDelivered(c, s, i, step);
    if step.Read? {
      HeldOnRead(c, s, i);
    } else {
      HeldFromRead(c, s, i, step);
    }
  }

  lemma HeldOnRead(c: Settings, s: State, i: nat)
    requires SettingsOk(c) && DirOk(c, s) && TasksOk(c, s) && TaskEnabled(c, s, i, Read)
    ensures s.tasks[i].name == c.names.file(s.pending[s.tasks[i].name].record.id)
  {
  }

  lemma HeldFromRead(c: Settings, s: State, i: nat, step: TaskStep)
    requires SettingsOk(c) && DirOk(c, s) && TasksOk(c, s) && HeldOk(c, s) && TaskEnabled(c, s, i, step) && !step.Read?
    ensures var p, s' := PhaseAfter(c, s, i, step), TaskApply(c, s, i, step);
            && !p.Unparsable?
            && (PastRead(p) ==> PastRead(s.tasks[i].phase) && p.held.id == s.tasks[i].phase.held.id
                                && s.tasks[i].name in s'.pending)
  {
  }

  lemma SucceededIsDelivered(c: Settings, s: State, i: nat, step: TaskStep)
    requires TaskEnabled(c, s, i, step)
    ensures var p := PhaseAfter(c, s, i, step); p.Succeeded? ==> p.held.id in TaskApply(c, s, i, step).h.delivered
  {
  }

  lemma HeldForward(c: Settings, s: State, i: nat, step: TaskStep)
    requires SettingsOk(c) && DirOk(c, s) && TasksOk(c, s) && HeldOk(c, s) && TaskEnabled(c, s, i, step)
    ensures HeldOk(c, TaskApply(c, s, i, step))
  {
    var s' := TaskApply(c, s, i, step);
    HeldOwn(c, s, i, step);
    forall j | 0 <= j < |s.tasks| && j != i && PastRead(s.tasks[j].phase) ensures s.tasks[j].name in s'.pending {
      OthersKeepMyFile(c, s, i, step, j);
    }
    HeldElsewhere(c, s, s', i, Task(s.tasks[i].name, PhaseAfter(c, s, i, step)));
  }

  lemma HeldElsewhere(c: Settings, s: State, s': State, i: nat, t: Task)
    requires HeldOk(c, s) && i < |s.tasks| && s'.tasks == s.tasks[i := t] && s.h.delivered <= s'.h.delivered
    requires forall j :: 0 <= j < |s.tasks| && j != i && PastRead(s.tasks[j].phase) ==> s.tasks[j].name in s'.pending
    requires !t.phase.Unparsable? && (t.phase.Succeeded? ==> t.phase.held.id in s'.h.delivered)
    requires PastRead(t.phase) ==> t.name in s'.pending && t.name == c.names.file(t.phase.held.id)
    ensures HeldOk(c, s')
  {
  }

  lemma HeldWorker(c: Settings, s: State, step: WorkerStep)
    requires HeldOk(c, s) && WorkerEnabled(s, step)
    ensures HeldOk(c, WorkerApply(c, s, step))
  {
  }

  // ---------------------------------------------------------------- nothing acknowledged is lost

  /** The message is waiting, set aside for the operator, or delivered. */
  ghost predicate Accounted(c: Settings, s: State, id: string) {
    c.names.file(id) in s.pending || c.names.file(id) in s.dead || id in s.h.delivered
  }

  ghost predicate LedgerOk(c: Settings, s: State) {
    && (forall id :: id in s.h.enqueued ==> id != "" && Accounted(c, s, id))
    && (forall id :: id in s.h.here ==> id in s.h.enqueued)
    && (forall id :: id in s.h.acked ==> id in s.h.enqueued)
    && (forall id :: id in s.dedup ==> id in s.h.here)
    && (forall k :: k in s.handlers && (s.handlers[k].phase == Renamed || s.handlers[k].phase == Notified) ==>
          s.handlers[k].msg.id in s.h.here)
  }

  lemma AccountedServer(c: Settings, s: State, step: ServerStep, id: string)
    requires SettingsOk(c) && DirOk(c, s) && ServerEnabled(c, s, step)
    requires (id != "" && Accounted(c, s, id)) || (step.RenameTmp? && s.handlers[step.n].msg.id == id)
    ensures Accounted(c, ServerApply(c, s, step), id)
  {
    if step.RenameTmp? && s.handlers[step.n].msg.id == id {
      var file, tmp := c.names.file(id), c.names.tmp(id);
      assert ServerApply(c, s, step).pending == s.pending[file := s.pending[tmp]] - {tmp};
    } else if c.names.file(id) in s.pending {
      ServerKeepsFinalNames(c, s, step, c.names.file(id));
    }
  }

  lemma LedgerServer(c: Settings, s: State, step: ServerStep)
    requires SettingsOk(c) && DirOk(c, s) && LedgerOk(c, s) && ServerEnabled(c, s, step)
    ensures LedgerOk(c, ServerApply(c, s, step))
  {
    var s' := ServerApply(c, s, step);
    forall id | id in s'.h.enqueued ensures id != "" && Accounted(c, s', id) {
      if step.RenameTmp? && id == s.handlers[step.n].msg.id {
        assert TmpOk(c, s.pending, s.handlers[step.n]);
      } else {
        assert id in s.h.enqueued;
      }
      AccountedServer(c, s, step, id);
    }
    LedgerHandlers(c, s, step);
    LedgerDedup(c, s, step);
  }

  lemma LedgerHandlers(c: Settings, s: State, step: ServerStep)
    requires LedgerOk(c, s) && ServerEnabled(c, s, step)
    ensures var s' := ServerApply(c, s, step);
            forall k :: k in s'.handlers && s'.handlers[k].phase in {Renamed, Notified} ==>
              s'.handlers[k].msg.id in s'.h.here
  {
  }

  lemma LedgerDedup(c: Settings, s: State, step: ServerStep)
    requires LedgerOk(c, s) && ServerEnabled(c, s, step)
    ensures var s' := ServerApply(c, s, step);
            && (forall id :: id in s'.dedup ==> id in s'.h.here)
            && (forall id :: id in s'.h.here ==> id in s'.h.enqueued)
            && (forall id :: id in s'.h.acked ==> id in s'.h.enqueued)
  {
  }

  lemma AccountedForward(c: Settings, s: State, i: nat, step: TaskStep, id: string)
    requires SettingsOk(c) && HeldOk(c, s) && TaskEnabled(c, s, i, step) && Accounted(c, s, id)
    ensures Accounted(c, TaskApply(c, s, i, step), id)
  {
    if step.Remove? && c.names.file(id) == s.tasks[i].name {
      assert s.tasks[i].phase.held.id == id;
    }
  }

  lemma LedgerForward(c: Settings, s: State, i: nat, step: TaskStep)
    requires SettingsOk(c) && HeldOk(c, s) && LedgerOk(c, s) && TaskEnabled(c, s, i, step)
    ensures LedgerOk(c, TaskApply(c, s, i, step))
  {
    EnqueuedStayAccounted(c, s, i, step);
    LedgerSame(c, s, TaskApply(c, s, i, step));
  }

  lemma EnqueuedStayAccounted(c: Settings, s: State, i: nat, step: TaskStep)
    requires SettingsOk(c) && HeldOk(c, s) && TaskEnabled(c, s, i, step)
    requires forall id :: id in s.h.enqueued ==> Accounted(c, s, id)
    ensures forall id :: id in s.h.enqueued ==> Accounted(c, TaskApply(c, s, i, step), id)
  {
    forall id | id in s.h.enqueued ensures Accounted(c, TaskApply(c, s, i, step), id) {
      AccountedForward(c, s, i, step, id);
    }
  }

  lemma LedgerSame(c: Settings, s: State, s': State)
    requires LedgerOk(c, s) && s'.handlers == s.handlers && s'.dedup == s.dedup
    requires s'.h.enqueued == s.h.enqueued && s'.h.here == s.h.here && s'.h.acked == s.h.acked
    requires forall id :: id in s.h.enqueued ==> Accounted(c, s', id)
    ensures LedgerOk(c, s')
  {
  }

  /** The ledger depends on the directories, the handlers, the dedup set and the history only. */
  lemma LedgerFrame(c: Settings, s: State, s': State)
    requires LedgerOk(c, s) && s'.pending == s.pending && s'.dead == s.dead
    requires s'.handlers == s.handlers && s'.dedup == s.dedup
    requires s'.h.enqueued == s.h.enqueued && s'.h.here == s.h.here && s'.h.acked == s.h.acked
    requires s'.h.delivered == s.h.delivered
    ensures LedgerOk(c, s')
  {
    forall id | id in s.h.enqueued ensures Accounted(c, s', id) {
      assert Accounted(c, s, id);
    }
    LedgerSame(c, s, s');
  }

  lemma LedgerWorker(c: Settings, s: State, step: WorkerStep)
    requires LedgerOk(c, s) && WorkerEnabled(s, step)
    ensures LedgerOk(c, WorkerApply(c, s, step))
  {
    LedgerFrame(c, s, WorkerApply(c, s, step));
  }

  lemma LedgerProcess(c: Settings, s: State, step: ProcessStep)
    requires SettingsOk(c) && DirOk(c, s) && LedgerOk(c, s) && ProcessEnabled(s, step)
    ensures LedgerOk(c, ProcessApply(c, s, step))
  {
    forall id | id in s.h.enqueued ensures Accounted(c, ProcessApply(c, s, step), id) {
      assert Accounted(c, s, id) && !c.names.isTmp(c.names.file(id));
    }
  }

  // ---------------------------------------------------------------- duplicates are accounted for

  /** The id was just delivered by a task that has not removed the file yet. */
  ghost predicate AboutToRemove(s: State, id: string) {
    exists i :: 0 <= i < |s.tasks| && s.tasks[i].phase.Succeeded? && s.tasks[i].phase.held.id == id
  }

  ghost predicate CountOk(c: Settings, s: State, id: string) {
    s.h.delivered[id] + (if c.names.file(id) in s.pending then 1 else 0)
    <= s.h.enqueued[id] + s.h.failedRemoves[id] + s.h.crashes + (if AboutToRemove(s, id) then 1 else 0)
  }

  lemma SameTasksSameRemovals(s: State, s': State, id: string)
    requires s'.tasks == s.tasks
    ensures AboutToRemove(s, id) <==> AboutToRemove(s', id)
  {
  }

  lemma CountServer(c: Settings, s: State, step: ServerStep, id: string)
    requires SettingsOk(c) && DirOk(c, s) && CountOk(c, s, id) && ServerEnabled(c, s, step)
    ensures CountOk(c, ServerApply(c, s, step), id)
  {
    var s' := ServerApply(c, s, step);
    SameTasksSameRemovals(s, s', id);
    if c.names.file(id) in s'.pending && c.names.file(id) !in s.pending {
      assert step.RenameTmp? && s.handlers[step.n].msg.id == id;
    }
  }

  lemma CountWorker(c: Settings, s: State, step: WorkerStep, id: string)
    requires CountOk(c, s, id) && WorkerEnabled(s, step)
    ensures CountOk(c, WorkerApply(c, s, step), id)
  {
    var s' := WorkerApply(c, s, step);
    if AboutToRemove(s, id) {
      var i :| 0 <= i < |s.tasks| && s.tasks[i].phase.Succeeded? && s.tasks[i].phase.held.id == id;
      assert s'.tasks[i] == s.tasks[i];
    }
  }

  /** No two tasks hold messages of one id. */
  lemma OneHolder(c: Settings, s: State, i: nat, j: nat)
    requires TasksOk(c, s) && HeldOk(c, s) && i < |s.tasks| && j < |s.tasks| && i != j
    requires PastRead(s.tasks[i].phase) && PastRead(s.tasks[j].phase)
    ensures s.tasks[i].phase.held.id != s.tasks[j].phase.held.id
  {
    assert Claims(s.tasks[i]) && Claims(s.tasks[j]);
  }

  /** How one task step changes who is about to remove. */
  lemma RemovalsForward(c: Settings, s: State, i: nat, step: TaskStep, id: string)
    requires SettingsOk(c) && TasksOk(c, s) && HeldOk(c, s) && TaskEnabled(c, s, i, step)
    ensures var s' := TaskApply(c, s, i, step); var p := s.tasks[i].phase;
            if step.ForwardOk? && p.held.id == id then !AboutToRemove(s, id) && AboutToRemove(s', id)
            else if p.Succeeded? && p.held.id == id then AboutToRemove(s, id) && !AboutToRemove(s', id)
            else AboutToRemove(s, id) <==> AboutToRemove(s', id)
  {
    var s' := TaskApply(c, s, i, step);
    var p := s.tasks[i].phase;
    forall j | 0 <= j < |s.tasks| && j != i && PastRead(p) && PastRead(s.tasks[j].phase)
      ensures s.tasks[j].phase.held.id != p.held.id
    {
      OneHolder(c, s, i, j);
    }
    assert forall j :: 0 <= j < |s.tasks| && j != i ==> s'.tasks[j] == s.tasks[j];
    assert s'.tasks[i].phase == PhaseAfter(c, s, i, step);
  }

  lemma CountForward(c: Settings, s: State, i: nat, step: TaskStep, id: string)
    requires SettingsOk(c) && TasksOk(c, s) && HeldOk(c, s) && CountOk(c, s, id) && TaskEnabled(c, s, i, step)
    ensures CountOk(c, TaskApply(c, s, i, step), id)
  {
    RemovalsForward(c, s, i, step, id);
    DeliveriesForward(c, s, i, step, id);
  }

  /** How one task step changes the counters and the file. */
  lemma DeliveriesForward(c: Settings, s: State, i: nat, step: TaskStep, id: string)
    requires SettingsOk(c) && HeldOk(c, s) && TaskEnabled(c, s, i, step)
    ensures var s' := TaskApply(c, s, i, step); var p := s.tasks[i].phase;
            && s'.h.enqueued == s.h.enqueued && s'.h.crashes == s.h.crashes
            && s'.h.delivered[id] == s.h.delivered[id] + (if step.ForwardOk? && p.held.id == id then 1 else 0)
            && s'.h.failedRemoves[id] == s.h.failedRemoves[id] + (if step.RemoveFails? && p.held.id == id then 1 else 0)
            && (c.names.file(id) in s'.pending ==> c.names.file(id) in s.pending)
            && (step.Remove? && p.held.id == id ==> c.names.file(id) !in s'.pending)
            && (step.ForwardOk? && p.held.id == id ==> c.names.file(id) in s.pending)
  {
  }

  lemma CountProcess(c: Settings, s: State, step: ProcessStep, id: string)
    requires SettingsOk(c) && DownOk(s) && CountOk(c, s, id) && ProcessEnabled(s, step)
    requires step.Exit? ==> forall i :: 0 <= i < |s.tasks| ==> s.tasks[i].phase.Ended?
    ensures CountOk(c, ProcessApply(c, s, step), id)
  {
    var s' := ProcessApply(c, s, step);
    if step.Cancel? {
      SameTasksSameRemovals(s, s', id);
    } else {
      assert !AboutToRemove(s', id);
    }
  }

  // ---------------------------------------------------------------- what waits in the queue

  ghost predicate WasAdmitted(h: History, m: Inbound) {
    exists a :: a in h.admissions && a.record == m
  }

  /** Every record waiting in the queue was admitted. */
  ghost predicate RecordsOk(c: Settings, s: State) {
    forall n :: n in s.pending && c.names.isJson(n) && s.pending[n].Complete? ==> WasAdmitted(s.h, s.pending[n].record)
  }

  lemma AdmissionsOnlyGrow(h: History, h': History)
    requires h.admissions <= h'.admissions
    ensures forall m :: WasAdmitted(h, m) ==> WasAdmitted(h', m)
  {
  }

  lemma PublishedWasAdmitted(c: Settings, s: State, n: nat)
    requires DirOk(c, s) && ServerEnabled(c, s, RenameTmp(n))
    ensures s.pending[c.names.tmp(s.handlers[n].msg.id)] == Complete(s.handlers[n].msg)
    ensures WasAdmitted(ServerHistory(c, s, RenameTmp(n)), s.handlers[n].msg)
  {
    var hd := s.handlers[n];
    assert TmpOk(c, s.pending, hd);
    assert Admission(hd.msg, s.h.epoch, hd.repliedAt, hd.reactedAt) in ServerHistory(c, s, RenameTmp(n)).admissions;
  }

  lemma PendingWasAdmitted(c: Settings, s: State, step: ServerStep, n: string)
    requires SettingsOk(c) && DirOk(c, s) && RecordsOk(c, s) && ServerEnabled(c, s, step)
    requires n in ServerApply(c, s, step).pending && c.names.isJson(n) && ServerApply(c, s, step).pending[n].Complete?
    ensures WasAdmitted(ServerApply(c, s, step).h, ServerApply(c, s, step).pending[n].record)
  {
    var s' := ServerApply(c, s, step);
    if n in s.pending && s'.pending[n] == s.pending[n] {
      assert WasAdmitted(s.h, s.pending[n].record);
      AdmissionsOnlyGrow(s.h, s'.h);
    } else {
      assert step.RenameTmp?;
      PublishedWasAdmitted(c, s, step.n);
    }
  }

  lemma RecordsServer(c: Settings, s: State, step: ServerStep)
    requires SettingsOk(c) && DirOk(c, s) && RecordsOk(c, s) && ServerEnabled(c, s, step)
    ensures RecordsOk(c, ServerApply(c, s, step))
  {
    var s' := ServerApply(c, s, step);
    forall n | n in s'.pending && c.names.isJson(n) && s'.pending[n].Complete?
      ensures WasAdmitted(s'.h, s'.pending[n].record)
    {
      PendingWasAdmitted(c, s, step, n);
    }
  }

  /** Nobody else writes a record. */
  lemma RecordsFrame(c: Settings, s: State, s': State)
    requires RecordsOk(c, s) && s'.h.admissions == s.h.admissions
    requires forall n :: n in s'.pending ==> n in s.pending && s'.pending[n] == s.pending[n]
    ensures RecordsOk(c, s')
  {
    AdmissionsOnlyGrow(s.h, s'.h);
  }

  // ---------------------------------------------------------------- who gets in

  /** This process recorded the id from a send of its own, less than the retention time earlier. */
  ghost predicate OwnRecentSend(c: Settings, h: History, epoch: nat, id: Option<string>, at: Instant) {
    id.Some? && exists o :: o in h.ownSends && o.epoch == epoch && o.id == id.value && Age(at, o.at) < c.sentLimits.ttl
  }

  /** Evidence that the message addresses the bot. */
  ghost predicate Addressed(c: Settings, h: History, m: Inbound, epoch: nat, repliedAt: Instant, reactedAt: Instant) {
    || m.kind == Call
    || (c.selfNumber.Some? && Mentions.Tagged(m.body, c.selfNumber.value))
    || OwnRecentSend(c, h, epoch, m.replyTo, repliedAt)
    || OwnRecentSend(c, h, epoch, m.reactedMessageId, reactedAt)
  }

  /** Policy passed, the channel is the router's, and being mentioned is backed by evidence. */
  ghost predicate RightlyAdmitted(c: Settings, h: History, a: Admission) {
    && Evaluate(c.policy, a.record) == Allow
    && a.record.channel == Routing.ChannelFor(c.router, a.record)
    && (a.record.mentioned ==> Addressed(c, h, a.record, a.epoch, a.repliedAt, a.reactedAt))
  }

  predicate PassedPolicy(p: HandlerPhase) {
    p != Received && p != NotSeen
  }

  ghost predicate HandlerBacked(c: Settings, h: History, hd: Handler) {
    && (hd.msg.mentioned ==> Addressed(c, h, hd.msg, h.epoch, hd.repliedAt, hd.reactedAt))
    && (PassedPolicy(hd.phase) ==> RightlyAdmitted(c, h, Admission(hd.msg, h.epoch, hd.repliedAt, hd.reactedAt)))
  }

  ghost predicate AddressOk(c: Settings, s: State) {
    && (forall a :: a in s.h.admissions ==> RightlyAdmitted(c, s.h, a))
    && (forall k :: k in s.handlers ==> HandlerBacked(c, s.h, s.handlers[k]))
    && (forall id :: id in s.sentIds ==> OwnSend(s.h.epoch, id, s.sentIds[id]) in s.h.ownSends)
  }

  lemma EvidenceLasts(c: Settings, h: History, h': History)
    requires h.ownSends <= h'.ownSends
    ensures forall a :: RightlyAdmitted(c, h, a) ==> RightlyAdmitted(c, h', a)
    ensures h'.epoch == h.epoch ==> forall hd :: HandlerBacked(c, h, hd) ==> HandlerBacked(c, h', hd)
  {
    forall epoch, id, at: Instant | OwnRecentSend(c, h, epoch, id, at) ensures OwnRecentSend(c, h', epoch, id, at) {
      var o :| o in h.ownSends && o.epoch == epoch && o.id == id.value && Age(at, o.at) < c.sentLimits.ttl;
      assert o in h'.ownSends;
    }
  }

  /** Step 4 rests on recorded sends only. */
  lemma ArrivalIsBacked(c: Settings, s: State, m: Inbound, repliedAt: Instant, reactedAt: Instant)
    requires forall id :: id in s.sentIds ==> OwnSend(s.h.epoch, id, s.sentIds[id]) in s.h.ownSends
    requires IsAddressed(c, s, m, repliedAt, reactedAt)
    ensures Addressed(c, s.h, m, s.h.epoch, repliedAt, reactedAt)
  {
    if m.replyTo.Some? && Live(c.sentLimits, s.sentIds, m.replyTo.value, repliedAt) {
      var o := OwnSend(s.h.epoch, m.replyTo.value, s.sentIds[m.replyTo.value]);
      assert o in s.h.ownSends && Age(repliedAt, o.at) < c.sentLimits.ttl;
    }
    if m.reactedMessageId.Some? && Live(c.sentLimits, s.sentIds, m.reactedMessageId.value, reactedAt) {
      var o := OwnSend(s.h.epoch, m.reactedMessageId.value, s.sentIds[m.reactedMessageId.value]);
      assert o in s.h.ownSends && Age(reactedAt, o.at) < c.sentLimits.ttl;
    }
  }

  lemma AddressArrive(c: Settings, s: State, step: ServerStep)
    requires AddressOk(c, s) && ServerEnabled(c, s, step) && step.Arrive?
    ensures AddressOk(c, ServerApply(c, s, step))
  {
    var m := IntoInbound(step.e).value;
    var hd := HandlersAfter(c, s, step)[step.n];
    if hd.msg.mentioned {
      ArrivalIsBacked(c, s, m, step.repliedAt, step.reactedAt);
      assert Addressed(c, s.h, hd.msg, s.h.epoch, hd.repliedAt, hd.reactedAt);
    }
  }

  /** Stamping the channel changes neither the verdict nor the route. */
  lemma AddressAllow(c: Settings, s: State, n: nat)
    requires AddressOk(c, s) && ServerEnabled(c, s, PolicyAllow(n))
    ensures AddressOk(c, ServerApply(c, s, PolicyAllow(n)))
  {
    var hd, hd' := s.handlers[n], HandlersAfter(c, s, PolicyAllow(n))[n];
    assert HandlerBacked(c, s.h, hd);
    assert Evaluate(c.policy, hd'.msg) == Evaluate(c.policy, hd.msg);
    assert Routing.ChannelFor(c.router, hd'.msg) == Routing.ChannelFor(c.router, hd.msg);
    if hd.msg.mentioned {
      assert Addressed(c, s.h, hd'.msg, s.h.epoch, hd'.repliedAt, hd'.reactedAt);
    }
  }

  lemma AddressRename(c: Settings, s: State, n: nat)
    requires AddressOk(c, s) && ServerEnabled(c, s, RenameTmp(n))
    ensures AddressOk(c, ServerApply(c, s, RenameTmp(n)))
  {
    var s' := ServerApply(c, s, RenameTmp(n));
    EvidenceLasts(c, s.h, s'.h);
    assert HandlerBacked(c, s.h, s.handlers[n]);
  }

  lemma AddressRecord(c: Settings, s: State, step: ServerStep)
    requires AddressOk(c, s) && ServerEnabled(c, s, step) && step.RecordSend?
    ensures AddressOk(c, ServerApply(c, s, step))
  {
    EvidenceLasts(c, s.h, ServerApply(c, s, step).h);
  }

  lemma AddressServer(c: Settings, s: State, step: ServerStep)
    requires AddressOk(c, s) && ServerEnabled(c, s, step)
    ensures AddressOk(c, ServerApply(c, s, step))
  {
    match step
    case Arrive(_, _, _, _) => AddressArrive(c, s, step);
    case PolicyAllow(n) => AddressAllow(c, s, n);
    case RenameTmp(n) => AddressRename(c, s, n);
    case RecordSend(_, _, _) => AddressRecord(c, s, step);
    case _ => AddressQuiet(c, s, step);
  }

  lemma AddressQuiet(c: Settings, s: State, step: ServerStep)
    requires AddressOk(c, s) && ServerEnabled(c, s, step)
    requires !step.Arrive? && !step.PolicyAllow? && !step.RenameTmp? && !step.RecordSend?
    ensures AddressOk(c, ServerApply(c, s, step))
  {
    var s' := ServerApply(c, s, step);
    EvidenceLasts(c, s.h, s'.h);
    forall k | k in s'.handlers ensures HandlerBacked(c, s'.h, s'.handlers[k]) {
      assert HandlerBacked(c, s.h, s.handlers[k]);
    }
  }

  lemma AddressFrame(c: Settings, s: State, s': State)
    requires AddressOk(c, s) && s'.h.ownSends == s.h.ownSends && s'.h.admissions == s.h.admissions
    requires (s'.h.epoch == s.h.epoch && s'.handlers == s.handlers && s'.sentIds == s.sentIds)
             || (s'.handlers == map[] && s'.sentIds == map[])
    ensures AddressOk(c, s')
  {
    EvidenceLasts(c, s.h, s'.h);
  }
}

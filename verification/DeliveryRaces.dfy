/** Two races between the deliveries of one id, as runs in which nothing crashes and nothing fails. In both, the
    second delivery renames its file while the task of the first is about to let go of the name.

    A wake-up can be lost: the second notification wakes a drain while the returned task is still in the in-flight
    set, and the acknowledged message waits in `pending` with nobody bound to look at it before the safety tick.

    A record can be deleted unread: the second rename lands between the first task's answer and its removal. */
module DeliveryRaces {
  import opened InboundModel
  import opened Policies
  import opened TtlSets
  import opened Transcription
  import opened Queues
  import opened Delivery
  import opened DeliverySafety
  import opened DeliveryWakeup
  import Mentions
  import Routing

  /** A step of regular operation: nothing crashes, stops or fails. */
  predicate Quiet(step: Step) {
    match step
    case Server(st) => !st.IoError?
    case Drain(st) => !st.ListFails?
    case Forward(_, st) => !Abandons(st) && !st.ForwardErr? && !st.ReadBad? && !st.Bury?
    case Process(st) => st.Restart?
  }

  ghost predicate QuietStep(c: Settings, states: seq<State>, steps: seq<Step>, k: nat)
    requires |states| == |steps| + 1 && k < |steps|
  {
    Moves(c, states[k], steps[k], states[k + 1]) && Quiet(steps[k])
  }

  ghost predicate QuietRunTo(c: Settings, states: seq<State>, steps: seq<Step>, s: State) {
    && |states| == |steps| + 1 && states[0] == Init() && states[|steps|] == s
    && forall k {:trigger QuietStep(c, states, steps, k)} :: 0 <= k < |steps| ==> QuietStep(c, states, steps, k)
  }

  ghost predicate Reaches(c: Settings, s: State) {
    exists states, steps :: QuietRunTo(c, states, steps, s)
  }

  lemma QuietRunIsRun(c: Settings, states: seq<State>, steps: seq<Step>, s: State)
    requires QuietRunTo(c, states, steps, s)
    ensures Run(c, states, steps)
  {
    forall k | 0 <= k < |steps|
      ensures Enabled(c, states[k], steps[k]) && states[k + 1] == Apply(c, states[k], steps[k])
    {
      assert QuietStep(c, states, steps, k);
    }
  }

  lemma ReachesByRun(c: Settings, s: State)
    requires Reaches(c, s)
    ensures exists states, steps :: Run(c, states, steps) && QuietRunTo(c, states, steps, s)
  {
    var states, steps :| QuietRunTo(c, states, steps, s);
    QuietRunIsRun(c, states, steps, s);
  }

  /** One more step. */
  lemma Go(c: Settings, s: State, step: Step) returns (s': State)
    requires Reaches(c, s) && Enabled(c, s, step) && Quiet(step)
    ensures s' == Apply(c, s, step) && Reaches(c, s')
  {
    s' := Apply(c, s, step);
    var states, steps :| QuietRunTo(c, states, steps, s);
    RunGrows(c, states, steps, s, step);
  }

  lemma RunGrows(c: Settings, states: seq<State>, steps: seq<Step>, s: State, step: Step)
    requires QuietRunTo(c, states, steps, s) && Enabled(c, s, step) && Quiet(step)
    ensures QuietRunTo(c, states + [Apply(c, s, step)], steps + [step], Apply(c, s, step))
  {
    var s' := Apply(c, s, step);
    var states', steps' := states + [s'], steps + [step];
    forall k | 0 <= k < |steps'| ensures QuietStep(c, states', steps', k) {
      if k < |steps| {
        SameBefore(states, steps, s', step, k);
        assert QuietStep(c, states, steps, k);
      }
    }
  }

  lemma SameBefore(states: seq<State>, steps: seq<Step>, s': State, step: Step, k: nat)
    requires |states| == |steps| + 1 && k < |steps|
    ensures (steps + [step])[k] == steps[k] && (states + [s'])[k] == states[k]
            && (states + [s'])[k + 1] == states[k + 1]
  {
  }

  // ---------------------------------------------------------------- where the run stands

  /** What the run keeps track of; nothing is remembered yet by dedup or as sent. */
  datatype View = View(handlers: map<nat, Handler>, pending: Dir, worker: Worker, tasks: seq<Task>,
                       inFlight: set<string>, permits: nat, notified: bool, sent: seq<Inbound>)

  ghost predicate At(c: Settings, s: State, v: View) {
    && Reaches(c, s) && s.up && !s.cancelled && s.dedup == map[] && s.sentIds == map[]
    && s.handlers == v.handlers && s.pending == v.pending && s.worker == v.worker && s.tasks == v.tasks
    && s.inFlight == v.inFlight && s.permits == v.permits && s.notified == v.notified && s.h.sent == v.sent
    && s.dead == map[]
  }

  ghost function Quiescent(c: Settings): View {
    View(map[], map[], Idle(false), [], {}, c.concurrency, false, [])
  }

  /** Start-up and the first, empty drain. */
  lemma Boots(c: Settings) returns (s: State)
    ensures At(c, s, Quiescent(c))
  {
    var s0 := Init();
    assert QuietRunTo(c, [s0], [], s0);
    var s1 := Go(c, s0, Process(Restart({})));
    assert s1.pending == map[];
    var s2 := Go(c, s1, Drain(List));
    assert FinalNames(map[], c.names.isJson) == {};
    s := Go(c, s2, Drain(DrainDone));
  }

  // ---------------------------------------------------------------- a delivery

  /** The message as it is admitted while the bot remembers no sends of its own. */
  ghost function AdmittedForm(c: Settings, e: GowaEnvelope): Inbound
    requires IntoInbound(e).Ok?
  {
    var m := IntoInbound(e).value;
    var addressed := m.kind == Call || (c.selfNumber.Some? && Mentions.Tagged(m.body, c.selfNumber.value));
    var m' := m.(mentioned := addressed);
    m'.(channel := Routing.ChannelFor(c.router, m'))
  }

  ghost predicate Forwardable(c: Settings, e: GowaEnvelope) {
    IntoInbound(e).Ok? && Evaluate(c.policy, AdmittedForm(c, e)) == Allow
  }

  lemma ChannelIsIrrelevant(c: PolicyConfig, m: Inbound, channel: string)
    ensures Evaluate(c, m.(channel := channel)) == Evaluate(c, m)
  {
  }

  ghost function With(v: View, n: nat, m: Inbound, p: HandlerPhase): View {
    v.(handlers := v.handlers[n := Handler(m, p, 0, 0)])
  }

  lemma Arrives(c: Settings, s: State, v: View, n: nat, e: GowaEnvelope) returns (s': State)
    requires At(c, s, v) && n !in v.handlers && IntoInbound(e).Ok?
    ensures At(c, s', With(v, n, AdmittedForm(c, e).(channel := IntoInbound(e).value.channel), Received))
  {
    s' := Go(c, s, Server(Arrive(n, e, 0, 0)));
  }

  lemma Misses(c: Settings, s: State, v: View, n: nat, m: Inbound) returns (s': State)
    requires At(c, s, With(v, n, m, Received))
    ensures At(c, s', With(v, n, m, NotSeen))
  {
    s' := Go(c, s, Server(DedupMiss(n, 0)));
    assert s'.handlers == With(v, n, m, NotSeen).handlers;
  }

  lemma Passes(c: Settings, s: State, v: View, n: nat, m: Inbound) returns (s': State)
    requires At(c, s, With(v, n, m, NotSeen)) && Evaluate(c.policy, m) == Allow
    ensures At(c, s', With(v, n, m.(channel := Routing.ChannelFor(c.router, m)), Admitted))
  {
    s' := Go(c, s, Server(PolicyAllow(n)));
    assert s'.handlers == With(v, n, m.(channel := Routing.ChannelFor(c.router, m)), Admitted).handlers;
  }

  /** Steps 3 to 6 of a delivery, and the route. */
  lemma Admits(c: Settings, s: State, v: View, n: nat, e: GowaEnvelope) returns (s': State)
    requires At(c, s, v) && n !in v.handlers && Forwardable(c, e)
    ensures At(c, s', With(v, n, AdmittedForm(c, e), Admitted))
  {
    var m := AdmittedForm(c, e);
    var m0 := m.(channel := IntoInbound(e).value.channel);
    ChannelIsIrrelevant(c.policy, m, m0.channel);
    s' := Arrives(c, s, v, n, e);
    s' := Misses(c, s', v, n, m0);
    s' := Passes(c, s', v, n, m0);
    assert m0.(channel := Routing.ChannelFor(c.router, m0)) == m;
  }

  lemma Creates(c: Settings, s: State, v: View, n: nat, m: Inbound) returns (s': State)
    requires At(c, s, With(v, n, m, Admitted)) && n !in v.handlers
    requires forall k :: k in v.handlers ==> v.handlers[k].phase == Notified
    ensures At(c, s', With(v, n, m, TmpCreated).(pending := v.pending[c.names.tmp(m.id) := Partial]))
  {
    s' := Go(c, s, Server(CreateTmp(n)));
    assert s'.handlers == With(v, n, m, TmpCreated).handlers;
  }

  /** `enqueue` up to the rename. */
  lemma Writes(c: Settings, s: State, v: View, n: nat, m: Inbound) returns (s': State)
    requires At(c, s, With(v, n, m, Admitted)) && n !in v.handlers
    requires forall k :: k in v.handlers ==> v.handlers[k].phase == Notified
    ensures At(c, s', With(v, n, m, TmpWritten).(pending := v.pending[c.names.tmp(m.id) := Complete(m)]))
  {
    var tmp := c.names.tmp(m.id);
    var s1 := Creates(c, s, v, n, m);
    s' := Go(c, s1, Server(WriteTmp(n)));
    assert s'.handlers == With(v, n, m, TmpWritten).handlers;
    assert s'.pending == v.pending[tmp := Partial][tmp := Complete(m)] == v.pending[tmp := Complete(m)];
  }

  /** The rename and the notification. */
  lemma Publishes(c: Settings, s: State, v: View, n: nat, m: Inbound) returns (s': State)
    requires SettingsOk(c) && At(c, s, With(v, n, m, TmpWritten))
    requires c.names.tmp(m.id) in v.pending && v.pending[c.names.tmp(m.id)] == Complete(m)
    ensures At(c, s', With(v, n, m, Notified).(pending := Published(c, v.pending, m), notified := true))
  {
    var v1 := v.(pending := Published(c, v.pending, m));
    s' := Renames(c, s, v, n, m);
    s' := Notifies(c, s', v1, n, m);
  }

  lemma Renames(c: Settings, s: State, v: View, n: nat, m: Inbound) returns (s': State)
    requires SettingsOk(c) && At(c, s, With(v, n, m, TmpWritten))
    requires c.names.tmp(m.id) in v.pending && v.pending[c.names.tmp(m.id)] == Complete(m)
    ensures At(c, s', With(v, n, m, Renamed).(pending := Published(c, v.pending, m)))
  {
    assert c.names.file(m.id) != c.names.tmp(m.id);
    s' := Go(c, s, Server(RenameTmp(n)));
    assert s'.handlers == With(v, n, m, Renamed).handlers;
    assert s'.pending == Published(c, v.pending, m);
  }

  lemma Notifies(c: Settings, s: State, v: View, n: nat, m: Inbound) returns (s': State)
    requires At(c, s, With(v, n, m, Renamed))
    ensures At(c, s', With(v, n, m, Notified).(notified := true))
  {
    s' := Go(c, s, Server(Notify(n)));
    assert s'.handlers == With(v, n, m, Notified).handlers;
  }

  // ---------------------------------------------------------------- the worker

  /** A notified drain that lists one final file. */
  lemma Lists(c: Settings, s: State, v: View, file: string, record: Inbound) returns (s': State)
    requires At(c, s, v) && v.notified && v.worker == Idle(false)
    requires v.pending == map[file := Complete(record)] && c.names.isJson(file)
    ensures At(c, s', v.(worker := Draining({file}, false), notified := false))
  {
    var s1 := Go(c, s, Drain(WakeNotified));
    assert FinalNames(v.pending, c.names.isJson) == {file};
    s' := Go(c, s1, Drain(List));
  }

  /** The drain gives the file a task. */
  lemma Spawning(c: Settings, s: State, v: View, file: string) returns (s': State)
    requires At(c, s, v) && v.worker == Draining({file}, false) && file !in v.inFlight
    ensures At(c, s', v.(worker := Idle(false), tasks := v.tasks + [Task(file, Queued)],
                         inFlight := v.inFlight + {file}))
  {
    var s1 := Go(c, s, Drain(Claim(file)));
    assert s1.worker.left == {};
    s' := Go(c, s1, Drain(DrainDone));
  }

  /** The drain passes the file over. */
  lemma Skips(c: Settings, s: State, v: View, file: string) returns (s': State)
    requires At(c, s, v) && v.worker == Draining({file}, false) && file in v.inFlight
    ensures At(c, s', v.(worker := Idle(false)))
  {
    var s1 := Go(c, s, Drain(Claim(file)));
    assert s1.worker.left == {};
    s' := Go(c, s1, Drain(DrainDone));
  }

  // ---------------------------------------------------------------- the task

  ghost function InTask(v: View, file: string, p: TaskPhase): View {
    v.(tasks := [Task(file, p)])
  }

  /** The task forwards the message at the first attempt. */
  lemma Delivers(c: Settings, s: State, v: View, file: string, m: Inbound)
      returns (s': State, held: Inbound, clips: seq<Clip>)
    requires At(c, s, InTask(v, file, Queued)) && v.permits > 0 && v.pending == map[file := Complete(m)]
    ensures At(c, s', InTask(v, file, Succeeded(held)).(permits := v.permits - 1, sent := v.sent + [held]))
    ensures held == c.fold(m, clips)
  {
    clips := seq(|AudioItems(m.media)|, _ => NotFound);
    held := c.fold(m, clips);
    s' := ReadsFile(c, s, v, file, m);
    s' := Go(c, s', Forward(0, Transcribe(clips)));
    s' := Go(c, s', Forward(0, ForwardOk));
  }

  lemma ReadsFile(c: Settings, s: State, v: View, file: string, m: Inbound) returns (s': State)
    requires At(c, s, InTask(v, file, Queued)) && v.permits > 0 && v.pending == map[file := Complete(m)]
    ensures At(c, s', InTask(v, file, Transcribing(m)).(permits := v.permits - 1))
  {
    s' := Go(c, s, Forward(0, Acquire));
    s' := Go(c, s', Forward(0, Read));
  }

  /** It removes its file and returns. */
  lemma Returns(c: Settings, s: State, v: View, file: string, held: Inbound) returns (s': State)
    requires At(c, s, InTask(v, file, Succeeded(held))) && file in v.pending
    ensures At(c, s', InTask(v, file, Finished).(pending := v.pending - {file}))
  {
    s' := Go(c, s, Forward(0, Remove));
  }

  /** It leaves the in-flight set and drops its permit. */
  lemma Leaves(c: Settings, s: State, v: View, file: string) returns (s': State)
    requires At(c, s, InTask(v, file, Finished))
    ensures At(c, s', InTask(v, file, Ended).(inFlight := v.inFlight - {file}, permits := v.permits + 1))
  {
    var s1 := Go(c, s, Forward(0, Unclaim));
    s' := Go(c, s1, Forward(0, Release));
  }

  // ---------------------------------------------------------------- the race

  ghost function FirstSeen(c: Settings, id: string): Entries {
    if c.dedupLimits.ttl == 0 then map[] else map[id := 0]
  }

  /** A handler marks the id, or finds it marked, and answers. */
  lemma Marks(c: Settings, s: State, n: nat, m: Inbound, before: Entries, added: bool) returns (s': State)
    requires Reaches(c, s) && Phase(s, n, Notified) && s.handlers[n].msg == m && s.dedup == before
    requires TtlSets.Step(c.dedupLimits, before, InsertNew(m.id, 0, added), FirstSeen(c, m.id))
    ensures Reaches(c, s') && s'.up && s'.handlers == s.handlers - {n} && m.id in s'.h.acked
    ensures s'.pending == s.pending && s'.worker == s.worker && s'.tasks == s.tasks && s'.notified == s.notified
    ensures s'.dedup == FirstSeen(c, m.id) && s'.h.sent == s.h.sent && s'.dead == s.dead
  {
    s' := Go(c, s, Server(MarkSeen(n, 0, FirstSeen(c, m.id))));
  }

  /** Both handlers mark the id and answer. */
  lemma Acknowledges(c: Settings, s: State, v: View, m: Inbound, n: Inbound) returns (s': State)
    requires c.dedupLimits.capacity >= 1 && m.id == n.id
    requires At(c, s, v) && v.handlers == map[0 := Handler(m, Notified, 0, 0), 1 := Handler(n, Notified, 0, 0)]
    ensures Reaches(c, s') && s'.up && s'.handlers == map[] && m.id in s'.h.acked && s'.h.sent == v.sent
    ensures s'.dead == map[]
    ensures s'.pending == v.pending && s'.worker == v.worker && s'.tasks == v.tasks && s'.notified == v.notified
  {
    var seen := FirstSeen(c, m.id);
    MarkedTwice(c, m.id);
    s' := Marks(c, s, 0, m, map[], true);
    assert s'.handlers == map[1 := Handler(n, Notified, 0, 0)];
    s' := Marks(c, s', 1, n, seen, c.dedupLimits.ttl == 0);
    assert s'.handlers == map[];
  }

  lemma MarkedTwice(c: Settings, id: string)
    requires c.dedupLimits.capacity >= 1
    ensures var l, seen := c.dedupLimits, FirstSeen(c, id);
            TtlSets.Step(l, map[], InsertNew(id, 0, true), seen)
            && TtlSets.Step(l, seen, InsertNew(id, 0, l.ttl == 0), seen)
  {
  }

  /** The first message has been delivered, its file is still there, and the second is about to be renamed. */
  ghost function Racing(c: Settings, m: Inbound, n: Inbound, held: Inbound): View
    requires SettingsOk(c)
  {
    var file := c.names.file(m.id);
    View(map[0 := Handler(m, Notified, 0, 0), 1 := Handler(n, TmpWritten, 0, 0)],
         map[file := Complete(m), c.names.tmp(m.id) := Complete(n)],
         Idle(false), [Task(file, Succeeded(held))], {file}, c.concurrency - 1, false, [held])
  }

  /** Two deliveries of one id may differ in anything else. */
  ghost predicate SameId(c: Settings, d: GowaEnvelope, e: GowaEnvelope) {
    Forwardable(c, d) && Forwardable(c, e) && IntoInbound(d).value.id == IntoInbound(e).value.id
  }

  /** The first message is in the queue and its wake-up is stored. */
  ghost function FirstQueued(c: Settings, m: Inbound): View {
    View(map[0 := Handler(m, Notified, 0, 0)], map[c.names.file(m.id) := Complete(m)],
         Idle(false), [], {}, c.concurrency, true, [])
  }

  lemma AdmitsFirst(c: Settings, d: GowaEnvelope) returns (s: State)
    requires Forwardable(c, d)
    ensures At(c, s, With(Quiescent(c), 0, AdmittedForm(c, d), Admitted))
  {
    s := Boots(c);
    s := Admits(c, s, Quiescent(c), 0, d);
  }

  lemma EnqueuesFirst(c: Settings, s: State, m: Inbound) returns (s': State)
    requires SettingsOk(c) && At(c, s, With(Quiescent(c), 0, m, Admitted))
    ensures At(c, s', FirstQueued(c, m))
  {
    var v := Quiescent(c);
    var written := map[c.names.tmp(m.id) := Complete(m)];
    s' := Writes(c, s, v, 0, m);
    s' := Publishes(c, s', v.(pending := written), 0, m);
    assert Published(c, written, m) == map[c.names.file(m.id) := Complete(m)];
  }

  /** The first message has been delivered; its file is still there. */
  ghost function FirstDelivered(c: Settings, m: Inbound, held: Inbound): View
    requires SettingsOk(c)
  {
    var file := c.names.file(m.id);
    FirstQueued(c, m).(tasks := [Task(file, Succeeded(held))], inFlight := {file}, permits := c.concurrency - 1,
                       notified := false, sent := [held])
  }

  lemma DeliversFirst(c: Settings, s: State, m: Inbound) returns (s': State, held: Inbound, clips: seq<Clip>)
    requires SettingsOk(c) && m.id != "" && At(c, s, FirstQueued(c, m))
    ensures At(c, s', FirstDelivered(c, m, held)) && held == c.fold(m, clips)
  {
    var file := c.names.file(m.id);
    var v := FirstQueued(c, m);
    s' := Lists(c, s, v, file, m);
    var v1 := v.(worker := Draining({file}, false), notified := false);
    s' := Spawning(c, s', v1, file);
    s', held, clips := Delivers(c, s', v1.(worker := Idle(false), inFlight := {file}), file, m);
  }

  /** The first delivery, up to the agent's answer, and the second up to its rename. */
  lemma TwoDeliveries(c: Settings, d: GowaEnvelope, e: GowaEnvelope) returns (s: State, held: Inbound, clips: seq<Clip>)
    requires SettingsOk(c) && SameId(c, d, e)
    ensures At(c, s, Racing(c, AdmittedForm(c, d), AdmittedForm(c, e), held))
    ensures held == c.fold(AdmittedForm(c, d), clips)
  {
    AcceptedIsWellFormed(d);
    var m := AdmittedForm(c, d);
    s := AdmitsFirst(c, d);
    s := EnqueuesFirst(c, s, m);
    s, held, clips := DeliversFirst(c, s, m);
    var v := FirstDelivered(c, m, held);
    s := Admits(c, s, v, 1, e);
    s := Writes(c, s, v, 1, AdmittedForm(c, e));
  }

  // ---------------------------------------------------------------- the lost wake-up

  /** Acknowledged and pending, while the worker idles, no notification is stored and no task is left. */
  ghost predicate Stranded(c: Settings, s: State, id: string) {
    && s.up && s.worker == Idle(false) && id in s.h.acked
    && c.names.file(id) in s.pending && !Covered(c, s, c.names.file(id))
  }

  /** Both renamed; the task has ended. */
  ghost function Over(c: Settings, m: Inbound, n: Inbound, held: Inbound, pending: Dir, notified: bool): View {
    View(map[0 := Handler(m, Notified, 0, 0), 1 := Handler(n, Notified, 0, 0)], pending,
         Idle(false), [Task(c.names.file(m.id), Ended)], {}, c.concurrency, notified, [held])
  }

  /** The second delivery wakes a drain while the returned task still holds the name. */
  lemma WakesTooEarly(c: Settings, s: State, m: Inbound, n: Inbound, held: Inbound) returns (s': State)
    requires SettingsOk(c) && m.id != "" && m.id == n.id && At(c, s, Racing(c, m, n, held))
    ensures At(c, s', Over(c, m, n, held, map[c.names.file(m.id) := Complete(n)], false))
  {
    var file, tmp := c.names.file(m.id), c.names.tmp(m.id);
    var v := Racing(c, m, n, held).(handlers := map[0 := Handler(m, Notified, 0, 0)]);
    s' := Returns(c, s, With(v, 1, n, TmpWritten), file, held);
    var v1 := v.(pending := map[tmp := Complete(n)], tasks := [Task(file, Finished)]);
    assert v.pending - {file} == v1.pending;
    s' := Publishes(c, s', v1, 1, n);
    var v2 := With(v1, 1, n, Notified).(pending := map[file := Complete(n)], notified := true);
    assert Published(c, v1.pending, n) == v2.pending;
    s' := Lists(c, s', v2, file, n);
    var v3 := v2.(worker := Draining({file}, false), notified := false);
    s' := Skips(c, s', v3, file);
    s' := Leaves(c, s', v3.(worker := Idle(false)), file);
  }

  lemma NobodyIsBound(c: Settings, s: State, id: string, record: Inbound)
    requires s.up && s.worker == Idle(false) && !s.notified && s.handlers == map[] && id in s.h.acked
    requires s.tasks == [Task(c.names.file(id), Ended)] && s.pending == map[c.names.file(id) := Complete(record)]
    ensures Stranded(c, s, id)
  {
  }

  lemma Strands(c: Settings, e: GowaEnvelope) returns (s: State)
    requires SettingsOk(c) && c.dedupLimits.capacity >= 1 && Forwardable(c, e)
    ensures Reaches(c, s) && Stranded(c, s, AdmittedForm(c, e).id)
  {
    AcceptedIsWellFormed(e);
    var m := AdmittedForm(c, e);
    var held, clips;
    s, held, clips := TwoDeliveries(c, e, e);
    s := WakesTooEarly(c, s, m, m, held);
    s := Acknowledges(c, s, Over(c, m, m, held, map[c.names.file(m.id) := Complete(m)], false), m, m);
    NobodyIsBound(c, s, m.id, m);
  }

  /** For every message that the deployment would forward. */
  lemma WakeUpCanBeLost(c: Settings, e: GowaEnvelope) returns (s: State)
    requires SettingsOk(c) && c.dedupLimits.capacity >= 1 && Forwardable(c, e)
    ensures Stranded(c, s, IntoInbound(e).value.id)
    ensures exists states, steps :: Run(c, states, steps) && QuietRunTo(c, states, steps, s)
  {
    s := Strands(c, e);
    ReachesByRun(c, s);
  }

  // ---------------------------------------------------------------- the unread record

  /** The second delivery replaces the file that the task of the first is about to remove. */
  lemma RemovesTooMuch(c: Settings, s: State, m: Inbound, n: Inbound, held: Inbound) returns (s': State)
    requires SettingsOk(c) && m.id != "" && m.id == n.id && At(c, s, Racing(c, m, n, held))
    ensures At(c, s', Over(c, m, n, held, map[], true))
  {
    var file := c.names.file(m.id);
    var v := Racing(c, m, n, held).(handlers := map[0 := Handler(m, Notified, 0, 0)]);
    s' := Publishes(c, s, v, 1, n);
    var v1 := With(v, 1, n, Notified).(pending := map[file := Complete(n)], notified := true);
    assert Published(c, v.pending, n) == v1.pending;
    s' := Returns(c, s', v1, file, held);
    assert v1.pending - {file} == map[];
    s' := Leaves(c, s', v1.(pending := map[]), file);
  }

  lemma Deletes(c: Settings, d: GowaEnvelope, e: GowaEnvelope) returns (s: State, clips: seq<Clip>)
    requires SettingsOk(c) && c.dedupLimits.capacity >= 1 && SameId(c, d, e)
    ensures Reaches(c, s) && s.handlers == map[] && IntoInbound(e).value.id in s.h.acked
    ensures s.pending == map[] && s.dead == map[] && forall i :: 0 <= i < |s.tasks| ==> s.tasks[i].phase.Ended?
    ensures s.h.sent == [c.fold(AdmittedForm(c, d), clips)]
  {
    AcceptedIsWellFormed(d);
    var m, n := AdmittedForm(c, d), AdmittedForm(c, e);
    var held;
    s, held, clips := TwoDeliveries(c, d, e);
    s := RemovesTooMuch(c, s, m, n, held);
    s := Acknowledges(c, s, Over(c, m, n, held, map[], true), m, n);
  }

  /** For any two admissible deliveries of one id: both are acknowledged and nothing is left on disk, but only the first
      record was ever sent. */
  lemma RecordCanBeDeletedUnread(c: Settings, d: GowaEnvelope, e: GowaEnvelope) returns (s: State, clips: seq<Clip>)
    requires SettingsOk(c) && c.dedupLimits.capacity >= 1 && SameId(c, d, e)
    ensures exists states, steps :: Run(c, states, steps) && QuietRunTo(c, states, steps, s)
    ensures s.handlers == map[] && IntoInbound(e).value.id in s.h.acked
    ensures s.pending == map[] && s.dead == map[] && forall i :: 0 <= i < |s.tasks| ==> s.tasks[i].phase.Ended?
    ensures s.h.sent == [c.fold(AdmittedForm(c, d), clips)]
  {
    s, clips := Deletes(c, d, e);
    ReachesByRun(c, s);
  }
}

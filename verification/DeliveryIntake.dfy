/** The webhook handlers, over runs: what an enqueue has been through, why a delivery was refused or answered as a
    duplicate, and what the two bounded sets remember within one process. */
module DeliveryIntake {
  import opened InboundModel
  import opened Policies
  import opened TtlSets
  import opened Delivery
  import opened DeliverySafety
  import opened DeliveryRuns
  import opened DeliveryStability
  import opened Inductions
  import Mentions
  import Routing

  // ---------------------------------------------------------------- one handler, step by step

  /** The message as it is judged: with the addressing verdict of its arrival. */
  ghost function Judged(c: Settings, s: State, e: GowaEnvelope, repliedAt: Instant, reactedAt: Instant): Inbound
    requires IntoInbound(e).Ok?
  {
    var m := IntoInbound(e).value;
    m.(mentioned := IsAddressed(c, s, m, repliedAt, reactedAt))
  }

  lemma HandlerArrives(c: Settings, s: State, step: Step, s': State, n: nat)
    requires DownOk(s) && Moves(c, s, step, s') && n !in s.handlers && n in s'.handlers
    ensures step.Server? && step.server.Arrive? && step.server.n == n && IntoInbound(step.server.e).Ok?
    ensures var a := step.server;
            s'.handlers[n] == Handler(Judged(c, s, a.e, a.repliedAt, a.reactedAt), Received, a.repliedAt, a.reactedAt)
  {
  }

  /** While the handler is at work its message changes in one step only, the one that passes the policy. */
  lemma HandlerGoesOn(c: Settings, s: State, step: Step, s': State, n: nat)
    requires DownOk(s) && Moves(c, s, step, s') && n in s.handlers && n in s'.handlers
    ensures SameProcess(step)
    ensures var hd, hd' := s.handlers[n], s'.handlers[n];
            if step == Server(PolicyAllow(n)) then
              !PassedPolicy(hd.phase) && PassedPolicy(hd'.phase)
              && hd'.msg == hd.msg.(channel := Routing.ChannelFor(c.router, hd.msg))
            else hd'.msg == hd.msg && (PassedPolicy(hd'.phase) <==> PassedPolicy(hd.phase))
  {
  }

  lemma CheckComesFrom(c: Settings, s: State, step: Step, s': State, n: nat)
    requires DownOk(s) && Moves(c, s, step, s') && n in s.handlers && n in s'.handlers
    requires s.handlers[n].phase == Received && s'.handlers[n].phase != Received
    ensures step.Server? && step.server.DedupMiss? && step.server.n == n && s'.handlers[n].phase == NotSeen
    ensures !Live(c.dedupLimits, s.dedup, s.handlers[n].msg.id, step.server.now)
  {
  }

  lemma VerdictComesFrom(c: Settings, s: State, step: Step, s': State, n: nat)
    requires DownOk(s) && Moves(c, s, step, s') && n in s.handlers && n in s'.handlers
    requires !PassedPolicy(s.handlers[n].phase) && PassedPolicy(s'.handlers[n].phase)
    ensures step == Server(PolicyAllow(n)) && Admissible(c.policy, s.handlers[n].msg)
  {
    PolicyIsExact(c.policy, s.handlers[n].msg);
  }

  // ---------------------------------------------------------------- one handler, over a run

  /** Handler `n` is there from after step `a` until state `k`; a process that ends takes its handlers with it. */
  ghost predicate ThereSince(states: seq<State>, a: nat, k: nat, n: nat) {
    a < k < |states| && forall j {:trigger states[j]} :: a < j <= k ==> n in states[j].handlers
  }

  /** At step `a` the event of handler `n` arrives and is accepted, and `m` is the message as it is judged. */
  ghost predicate ArrivesAs(c: Settings, states: seq<State>, steps: seq<Step>, a: nat, n: nat, m: Inbound) {
    && |states| == |steps| + 1 && a < |steps| && steps[a].Server? && steps[a].server.Arrive? && steps[a].server.n == n
    && var st := steps[a].server;
       IntoInbound(st.e).Ok? && m == Judged(c, states[a], st.e, st.repliedAt, st.reactedAt)
  }

  lemma ArrivesAt(c: Settings, states: seq<State>, steps: seq<Step>, a: nat, n: nat)
    requires SettingsOk(c) && Run(c, states, steps) && a < |steps|
    requires n !in states[a].handlers && n in states[a + 1].handlers
    ensures ArrivesAs(c, states, steps, a, n, states[a + 1].handlers[n].msg)
    ensures states[a + 1].handlers[n].phase == Received
  {
    InvReachable(c, states, steps, a);
    RunStep(c, states, steps, a);
    HandlerArrives(c, states[a], steps[a], states[a + 1], n);
  }

  /** Where the handler came in. */
  lemma EnteredAt(states: seq<State>, k: nat, n: nat) returns (a: nat)
    requires 0 < k < |states| && n !in states[0].handlers && n in states[k].handlers
    ensures ThereSince(states, a, k, n) && n !in states[a].handlers
  {
    var there := (j: nat) => j < |states| && n in states[j].handlers;
    a := LastChange(there, 0, k);
    forall j {:trigger states[j]} | a < j <= k ensures n in states[j].handlers { assert there(j); }
  }

  /** Between two states the handler moves on from a phase outside `q` to one inside. */
  lemma MovedAt(states: seq<State>, a: nat, k: nat, n: nat, q: HandlerPhase -> bool) returns (x: nat)
    requires ThereSince(states, a, k, n) && !q(states[a + 1].handlers[n].phase) && q(states[k].handlers[n].phase)
    ensures a < x < k && n in states[x].handlers && n in states[x + 1].handlers
    ensures !q(states[x].handlers[n].phase) && q(states[x + 1].handlers[n].phase)
  {
    var past := (j: nat) => j < |states| && n in states[j].handlers && q(states[j].handlers[n].phase);
    x := LastChange(past, a + 1, k);
    assert past(x + 1) && n in states[x].handlers;
  }

  /** The handler's message is `m`, and once past the policy it carries the router's label. */
  ghost predicate Carries(c: Settings, s: State, n: nat, m: Inbound) {
    n in s.handlers
    && s.handlers[n].msg == (if PassedPolicy(s.handlers[n].phase) then m.(channel := Routing.ChannelFor(c.router, m))
                             else m)
  }

  lemma CarriesOn(c: Settings, states: seq<State>, steps: seq<Step>, j: nat, n: nat, m: Inbound)
    requires SettingsOk(c) && Run(c, states, steps) && j < |steps|
    requires Carries(c, states[j], n, m) && n in states[j + 1].handlers
    ensures Carries(c, states[j + 1], n, m)
  {
    InvReachable(c, states, steps, j);
    RunStep(c, states, steps, j);
    HandlerGoesOn(c, states[j], steps[j], states[j + 1], n);
  }

  lemma {:induction false} MessageStays(c: Settings, states: seq<State>, steps: seq<Step>, a: nat, k: nat, n: nat,
                                        m: Inbound)
    requires SettingsOk(c) && Run(c, states, steps) && ThereSince(states, a, k, n) && Carries(c, states[a + 1], n, m)
    ensures Carries(c, states[k], n, m)
    decreases k
  {
    if a + 1 < k {
      MessageStays(c, states, steps, a, k - 1, n, m);
      CarriesOn(c, states, steps, k - 1, n, m);
    }
  }

  // ---------------------------------------------------------------- what an enqueue has been through

  /** The steps of an accepted delivery, its arrival, the dedup check and the policy's verdict, and the message. */
  datatype Story = Story(arrival: nat, check: nat, verdict: nat, message: Inbound)

  /** Handler `n` has come to state `k` by way of these steps, in this order and within one process: an accepted event,
      an id that was not live in the dedup set when it was checked, and a message that the operator's settings admit;
      it carries that message with the router's label. */
  ghost predicate Admitted(c: Settings, states: seq<State>, steps: seq<Step>, k: nat, n: nat, story: Story)
    requires |states| == |steps| + 1
  {
    && story.arrival < story.check < story.verdict < k && ThereSince(states, story.arrival, k, n)
    && ArrivesAs(c, states, steps, story.arrival, n, story.message)
    && ChecksAt(c, states, steps, story.check, n, story.message.id)
    && steps[story.verdict] == Server(PolicyAllow(n)) && Admissible(c.policy, story.message)
    && states[k].handlers[n].msg == story.message.(channel := Routing.ChannelFor(c.router, story.message))
  }

  /** Step 5 of handler `n` finds that the id is not live. */
  ghost predicate ChecksAt(c: Settings, states: seq<State>, steps: seq<Step>, x: nat, n: nat, id: string) {
    && |states| == |steps| + 1 && x < |steps|
    && steps[x].Server? && steps[x].server.DedupMiss? && steps[x].server.n == n
    && !Live(c.dedupLimits, states[x].dedup, id, steps[x].server.now)
  }

  lemma CheckedAt(c: Settings, states: seq<State>, steps: seq<Step>, x: nat, n: nat)
    requires SettingsOk(c) && Run(c, states, steps) && x < |steps|
    requires n in states[x].handlers && n in states[x + 1].handlers
    requires states[x].handlers[n].phase == Received && states[x + 1].handlers[n].phase != Received
    ensures ChecksAt(c, states, steps, x, n, states[x].handlers[n].msg.id) && states[x + 1].handlers[n].phase == NotSeen
  {
    InvReachable(c, states, steps, x);
    RunStep(c, states, steps, x);
    CheckComesFrom(c, states[x], steps[x], states[x + 1], n);
  }

  lemma JudgedAtStep(c: Settings, states: seq<State>, steps: seq<Step>, y: nat, n: nat)
    requires SettingsOk(c) && Run(c, states, steps) && y < |steps|
    requires n in states[y].handlers && n in states[y + 1].handlers
    requires !PassedPolicy(states[y].handlers[n].phase) && PassedPolicy(states[y + 1].handlers[n].phase)
    ensures steps[y] == Server(PolicyAllow(n)) && Admissible(c.policy, states[y].handlers[n].msg)
  {
    InvReachable(c, states, steps, y);
    RunStep(c, states, steps, y);
    VerdictComesFrom(c, states[y], steps[y], states[y + 1], n);
  }

  lemma ThereUntil(states: seq<State>, a: nat, b: nat, j: nat, k: nat, n: nat)
    requires a <= b < j <= k && ThereSince(states, a, k, n)
    ensures ThereSince(states, b, j, n)
  {
  }

  /** The dedup check and the verdict of a handler that came in with message `m`. */
  lemma CheckAndVerdict(c: Settings, states: seq<State>, steps: seq<Step>, a: nat, k: nat, n: nat, m: Inbound)
      returns (x: nat, y: nat)
    requires SettingsOk(c) && Run(c, states, steps) && ThereSince(states, a, k, n)
    requires states[a + 1].handlers[n].msg == m && states[a + 1].handlers[n].phase == Received
    requires PassedPolicy(states[k].handlers[n].phase)
    ensures a < x < y < k && ChecksAt(c, states, steps, x, n, m.id)
    ensures steps[y] == Server(PolicyAllow(n)) && Admissible(c.policy, m) && Carries(c, states[k], n, m)
  {
    x := MovedAt(states, a, k, n, (p: HandlerPhase) => p != Received);
    CheckedAt(c, states, steps, x, n);
    ThereUntil(states, a, x, k, k, n);
    y := MovedAt(states, x, k, n, PassedPolicy);
    JudgedAtStep(c, states, steps, y, n);
    ThereUntil(states, a, a, x, k, n);
    ThereUntil(states, a, a, y, k, n);
    MessageStays(c, states, steps, a, x, n, m);
    MessageStays(c, states, steps, a, y, n, m);
    MessageStays(c, states, steps, a, k, n, m);
  }

  /** Where the handler came in, and with which message. */
  lemma ArrivalOf(c: Settings, states: seq<State>, steps: seq<Step>, k: nat, n: nat) returns (a: nat, m: Inbound)
    requires SettingsOk(c) && Run(c, states, steps) && k < |states| && n in states[k].handlers
    ensures ThereSince(states, a, k, n) && ArrivesAs(c, states, steps, a, n, m)
    ensures states[a + 1].handlers[n].msg == m && states[a + 1].handlers[n].phase == Received
  {
    assert states[0].handlers == map[];
    a := EnteredAt(states, k, n);
    m := states[a + 1].handlers[n].msg;
    ArrivesAt(c, states, steps, a, n);
  }

  /** Nothing is written to the queue that did not pass steps 3 to 7, in this order, within one process. */
  lemma EveryEnqueueWasJudged(c: Settings, states: seq<State>, steps: seq<Step>, m: nat, n: nat) returns (story: Story)
    requires SettingsOk(c) && Run(c, states, steps) && m < |steps| && steps[m] == Server(RenameTmp(n))
    ensures Admitted(c, states, steps, m, n, story)
  {
    RenamerIsPastPolicy(c, states, steps, m, n);
    var a, message := ArrivalOf(c, states, steps, m, n);
    var x, y := CheckAndVerdict(c, states, steps, a, m, n, message);
    story := Story(a, x, y, message);
  }

  lemma RenamerIsPastPolicy(c: Settings, states: seq<State>, steps: seq<Step>, m: nat, n: nat)
    requires Run(c, states, steps) && m < |steps| && steps[m] == Server(RenameTmp(n))
    ensures n in states[m].handlers && PassedPolicy(states[m].handlers[n].phase)
  {
    RunStep(c, states, steps, m);
  }

  lemma RefusalIsUnfit(c: Settings, states: seq<State>, steps: seq<Step>, m: nat, n: nat)
    requires Run(c, states, steps) && m < |steps| && steps[m] == Server(PolicyDrop(n))
    ensures n in states[m].handlers && !PassedPolicy(states[m].handlers[n].phase)
    ensures !Admissible(c.policy, states[m].handlers[n].msg)
  {
    RunStep(c, states, steps, m);
    PolicyIsExact(c.policy, states[m].handlers[n].msg);
  }

  /** A delivery is refused only when the settings do not admit it, with the addressing verdict of its arrival. */
  lemma EveryRefusalIsDue(c: Settings, states: seq<State>, steps: seq<Step>, k: nat, n: nat)
      returns (a: nat, m: Inbound)
    requires SettingsOk(c) && Run(c, states, steps) && k < |steps| && steps[k] == Server(PolicyDrop(n))
    ensures ThereSince(states, a, k, n) && ArrivesAs(c, states, steps, a, n, m) && !Admissible(c.policy, m)
  {
    RefusalIsUnfit(c, states, steps, k, n);
    a, m := ArrivalOf(c, states, steps, k, n);
    MessageStays(c, states, steps, a, k, n, m);
  }

  // ---------------------------------------------------------------- what a process remembers

  /** The log and the entries stay as they are, or one operation is added to both. */
  ghost predicate Logged(l: Limits, ops: seq<Op>, m: Entries, ops': seq<Op>, m': Entries) {
    || (ops' == ops && m' == m)
    || (|ops'| == |ops| + 1 && ops <= ops' && TtlSets.Step(l, m, ops'[|ops|], m'))
  }

  lemma LogExtends(l: Limits, ops: seq<Op>, m: Entries, ops': seq<Op>, m': Entries)
    requires RunsTo(l, ops, m) && Logged(l, ops, m, ops', m')
    ensures RunsTo(l, ops', m')
  {
    if ops' != ops {
      assert AllButLast(ops') == ops;
    }
  }

  /** The successful sends that the process recorded from step `r` to step `k`. */
  function SentOps(steps: seq<Step>, r: nat, k: nat): seq<Op>
    requires r <= k <= |steps|
  {
    if k == r then []
    else
      var step := steps[k - 1];
      SentOps(steps, r, k - 1)
      + if step.Server? && step.server.RecordSend? then [Op.Record(step.server.id, step.server.now)] else []
  }

  /** The marks that the handlers set in the dedup set from step `r` to step `k`. */
  ghost function MarkOps(c: Settings, states: seq<State>, steps: seq<Step>, r: nat, k: nat): seq<Op>
    requires |states| == |steps| + 1 && r <= k <= |steps|
  {
    if k == r then []
    else
      var s, step := states[k - 1], steps[k - 1];
      MarkOps(c, states, steps, r, k - 1)
      + if step.Server? && step.server.MarkSeen? && step.server.n in s.handlers then [MarkOp(c, s, step.server)] else []
  }

  ghost function MarkOp(c: Settings, s: State, step: ServerStep): Op
    requires step.MarkSeen? && step.n in s.handlers
  {
    var id := s.handlers[step.n].msg.id;
    Op.InsertNew(id, step.now, !Live(c.dedupLimits, s.dedup, id, step.now))
  }

  /** A process that started at step `r` is still there at state `k`. */
  predicate InProcess(steps: seq<Step>, r: nat, k: nat) {
    r < k <= |steps|
    && if k == r + 1 then steps[r].Process? && steps[r].process.Restart?
       else SameProcess(steps[k - 1]) && InProcess(steps, r, k - 1)
  }

  lemma {:induction false} InProcessBefore(steps: seq<Step>, r: nat, j: nat, k: nat)
    requires InProcess(steps, r, k) && r < j <= k
    ensures InProcess(steps, r, j)
    decreases k
  {
    if j < k {
      InProcessBefore(steps, r, j, k - 1);
    }
  }

  lemma SentStep(c: Settings, s: State, step: Step, s': State)
    requires Moves(c, s, step, s') && SameProcess(step)
    ensures if step.Server? && step.server.RecordSend?
            then TtlSets.Step(c.sentLimits, s.sentIds, Op.Record(step.server.id, step.server.now), s'.sentIds)
            else s'.sentIds == s.sentIds
  {
  }

  lemma MarkStep(c: Settings, s: State, step: Step, s': State)
    requires Moves(c, s, step, s') && SameProcess(step)
    ensures if step.Server? && step.server.MarkSeen?
            then step.server.n in s.handlers
                 && TtlSets.Step(c.dedupLimits, s.dedup, MarkOp(c, s, step.server), s'.dedup)
            else s'.dedup == s.dedup
  {
  }

  lemma ProcessStarts(c: Settings, states: seq<State>, steps: seq<Step>, r: nat)
    requires SettingsOk(c) && Run(c, states, steps) && r < |steps| && steps[r].Process? && steps[r].process.Restart?
    ensures states[r + 1].sentIds == map[] && states[r + 1].dedup == map[]
  {
    InvReachable(c, states, steps, r);
    RunStep(c, states, steps, r);
  }

  lemma SendIsLogged(c: Settings, states: seq<State>, steps: seq<Step>, r: nat, j: nat)
    requires Run(c, states, steps) && r <= j < |steps| && SameProcess(steps[j])
    ensures Logged(c.sentLimits, SentOps(steps, r, j), states[j].sentIds, SentOps(steps, r, j + 1),
                   states[j + 1].sentIds)
  {
    RunStep(c, states, steps, j);
    SentStep(c, states[j], steps[j], states[j + 1]);
  }

  lemma MarkIsAppended(c: Settings, states: seq<State>, steps: seq<Step>, r: nat, j: nat)
    requires Run(c, states, steps) && r <= j < |steps| && SameProcess(steps[j])
    ensures Logged(c.dedupLimits, MarkOps(c, states, steps, r, j), states[j].dedup,
                   MarkOps(c, states, steps, r, j + 1), states[j + 1].dedup)
  {
    RunStep(c, states, steps, j);
    MarkStep(c, states[j], steps[j], states[j + 1]);
  }

  /** The set of own sends is what the sends recorded by this process leave. */
  lemma {:induction false} SendsAreLogged(c: Settings, states: seq<State>, steps: seq<Step>, r: nat, k: nat)
    requires SettingsOk(c) && Run(c, states, steps) && InProcess(steps, r, k)
    ensures RunsTo(c.sentLimits, SentOps(steps, r + 1, k), states[k].sentIds)
    decreases k
  {
    if k == r + 1 {
      ProcessStarts(c, states, steps, r);
    } else {
      SendsAreLogged(c, states, steps, r, k - 1);
      SendIsLogged(c, states, steps, r + 1, k - 1);
      LogExtends(c.sentLimits, SentOps(steps, r + 1, k - 1), states[k - 1].sentIds,
                 SentOps(steps, r + 1, k), states[k].sentIds);
    }
  }

  /** The dedup set is what the marks set by this process leave. */
  lemma {:induction false} MarksAreLogged(c: Settings, states: seq<State>, steps: seq<Step>, r: nat, k: nat)
    requires SettingsOk(c) && Run(c, states, steps) && InProcess(steps, r, k)
    ensures RunsTo(c.dedupLimits, MarkOps(c, states, steps, r + 1, k), states[k].dedup)
    decreases k
  {
    if k == r + 1 {
      ProcessStarts(c, states, steps, r);
    } else {
      MarksAreLogged(c, states, steps, r, k - 1);
      MarkIsAppended(c, states, steps, r + 1, k - 1);
      LogExtends(c.dedupLimits, MarkOps(c, states, steps, r + 1, k - 1), states[k - 1].dedup,
                 MarkOps(c, states, steps, r + 1, k), states[k].dedup);
    }
  }

  // ---------------------------------------------------------------- replies to the bot are heard

  /** By the log of what was stamped, the key is younger than the time-to-live, and too few others were stamped since
      for it to have been evicted. */
  ghost predicate StillKnown(l: Limits, ops: seq<Op>, key: string, now: Instant) {
    var last := LastStamps(ops);
    && InTimeOrder(ops, now) && key in last && Age(now, last[key]) < l.ttl
    && |Rivals(last, key, last[key], false)| < l.capacity
  }

  lemma KnownIsLive(l: Limits, ops: seq<Op>, m: Entries, key: string, now: Instant)
    requires RunsTo(l, ops, m) && StillKnown(l, ops, key, now)
    ensures Live(l, m, key, now)
  {
    PresenceIsDecidedByTheLog(l, ops, m, key, now);
  }

  /** The converse of `OnlyAddressedMessagesEnter`: a call, a tag of the bot's number, and a reply or reaction to a send
      of the same process that the log still knows, each arrive as addressed. */
  lemma AddressedMessagesAreHeard(c: Settings, states: seq<State>, steps: seq<Step>, r: nat, k: nat, n: nat, m: Inbound)
    requires SettingsOk(c) && Run(c, states, steps) && InProcess(steps, r, k) && ArrivesAs(c, states, steps, k, n, m)
    ensures var st, ops := steps[k].server, SentOps(steps, r + 1, k);
            && (m.kind == Call ==> m.mentioned)
            && (c.selfNumber.Some? && Mentions.Tagged(m.body, c.selfNumber.value) ==> m.mentioned)
            && (m.replyTo.Some? && StillKnown(c.sentLimits, ops, m.replyTo.value, st.repliedAt) ==> m.mentioned)
            && (m.reactedMessageId.Some? && StillKnown(c.sentLimits, ops, m.reactedMessageId.value, st.reactedAt) ==>
                  m.mentioned)
  {
    var st, ops := steps[k].server, SentOps(steps, r + 1, k);
    if m.replyTo.Some? && StillKnown(c.sentLimits, ops, m.replyTo.value, st.repliedAt) {
      KnownSendIsLive(c, states, steps, r, k, m.replyTo.value, st.repliedAt);
    }
    if m.reactedMessageId.Some? && StillKnown(c.sentLimits, ops, m.reactedMessageId.value, st.reactedAt) {
      KnownSendIsLive(c, states, steps, r, k, m.reactedMessageId.value, st.reactedAt);
    }
  }

  lemma KnownSendIsLive(c: Settings, states: seq<State>, steps: seq<Step>, r: nat, k: nat, id: string, at: Instant)
    requires SettingsOk(c) && Run(c, states, steps) && InProcess(steps, r, k)
    requires StillKnown(c.sentLimits, SentOps(steps, r + 1, k), id, at)
    ensures Live(c.sentLimits, states[k].sentIds, id, at)
  {
    SendsAreLogged(c, states, steps, r, k);
    KnownIsLive(c.sentLimits, SentOps(steps, r + 1, k), states[k].sentIds, id, at);
  }

  // ---------------------------------------------------------------- duplicates

  lemma {:induction false} MarkStaysLogged(c: Settings, states: seq<State>, steps: seq<Step>, r: nat, j: nat, k: nat,
                                           id: string)
    requires |states| == |steps| + 1 && r <= j <= k <= |steps| && id in LastStamps(MarkOps(c, states, steps, r, j))
    ensures id in LastStamps(MarkOps(c, states, steps, r, k))
    decreases k
  {
    if j < k {
      MarkStaysLogged(c, states, steps, r, j, k - 1, id);
      var before, after := MarkOps(c, states, steps, r, k - 1), MarkOps(c, states, steps, r, k);
      if after != before {
        assert AllButLast(after) == before;
      }
    }
  }

  /** A mark is in the log: its own stamp, or an earlier one that was live. */
  lemma MarkIsLogged(c: Settings, states: seq<State>, steps: seq<Step>, r: nat, j: nat)
    requires SettingsOk(c) && Run(c, states, steps) && InProcess(steps, r, j) && j < |steps|
    requires steps[j].Server? && steps[j].server.MarkSeen?
    ensures steps[j].server.n in states[j].handlers
    ensures states[j].handlers[steps[j].server.n].msg.id in LastStamps(MarkOps(c, states, steps, r + 1, j + 1))
  {
    MarkerIsThere(c, states, steps, j);
    MarksAreLogged(c, states, steps, r, j);
    MarkedIsStamped(c.dedupLimits, MarkOps(c, states, steps, r + 1, j), states[j].dedup,
                    MarkOp(c, states[j], steps[j].server));
  }

  lemma MarkerIsThere(c: Settings, states: seq<State>, steps: seq<Step>, j: nat)
    requires Run(c, states, steps) && j < |steps| && steps[j].Server? && steps[j].server.MarkSeen?
    ensures steps[j].server.n in states[j].handlers
  {
    RunStep(c, states, steps, j);
  }

  lemma MarkedIsStamped(l: Limits, ops: seq<Op>, m: Entries, op: Op)
    requires RunsTo(l, ops, m) && op.InsertNew? && op.added == !Live(l, m, op.key, op.now)
    ensures op.key in LastStamps(ops + [op])
  {
    assert AllButLast(ops + [op]) == ops;
    if !op.added {
      EntriesAreLastStamps(l, ops, m);
    }
  }

  /** Within one process an id that was marked is enqueued again only if, when the later delivery was checked, it was
      not marked yet, its mark had expired, or `capacity` other ids had been marked at or after it. */
  lemma SecondEnqueueIsExplained(c: Settings, states: seq<State>, steps: seq<Step>, r: nat, j: nat, m: nat, n: nat)
      returns (story: Story)
    requires SettingsOk(c) && Run(c, states, steps) && InProcess(steps, r, m) && r < j < m < |steps|
    requires steps[j].Server? && steps[j].server.MarkSeen? && steps[j].server.n in states[j].handlers
    requires steps[m] == Server(RenameTmp(n)) && n in states[m].handlers
    requires states[j].handlers[steps[j].server.n].msg.id == states[m].handlers[n].msg.id
    ensures Admitted(c, states, steps, m, n, story)
    ensures j < story.check ==>
              var ops, now := MarkOps(c, states, steps, r + 1, story.check), steps[story.check].server.now;
              !StillKnown(c.dedupLimits, ops, states[m].handlers[n].msg.id, now)
              && states[m].handlers[n].msg.id in LastStamps(ops)
  {
    story := EveryEnqueueWasJudged(c, states, steps, m, n);
    if j < story.check {
      InProcessBefore(steps, r, story.check, m);
      CheckIsExplained(c, states, steps, r, j, story.check, story.message.id);
    }
  }

  lemma UnmarkedIsUnknown(c: Settings, states: seq<State>, steps: seq<Step>, r: nat, x: nat, id: string, now: Instant)
    requires SettingsOk(c) && Run(c, states, steps) && InProcess(steps, r, x)
    requires !Live(c.dedupLimits, states[x].dedup, id, now)
    ensures !StillKnown(c.dedupLimits, MarkOps(c, states, steps, r + 1, x), id, now)
  {
    MarksAreLogged(c, states, steps, r, x);
    if StillKnown(c.dedupLimits, MarkOps(c, states, steps, r + 1, x), id, now) {
      KnownIsLive(c.dedupLimits, MarkOps(c, states, steps, r + 1, x), states[x].dedup, id, now);
    }
  }

  lemma CheckIsExplained(c: Settings, states: seq<State>, steps: seq<Step>, r: nat, j: nat, x: nat,
                                            id: string)
    requires SettingsOk(c) && Run(c, states, steps) && InProcess(steps, r, x) && r < j < x < |steps|
    requires steps[j].Server? && steps[j].server.MarkSeen? && steps[j].server.n in states[j].handlers
    requires states[j].handlers[steps[j].server.n].msg.id == id
    requires steps[x].Server? && steps[x].server.DedupMiss?
    requires !Live(c.dedupLimits, states[x].dedup, id, steps[x].server.now)
    ensures var ops := MarkOps(c, states, steps, r + 1, x);
            !StillKnown(c.dedupLimits, ops, id, steps[x].server.now) && id in LastStamps(ops)
  {
    InProcessBefore(steps, r, j, x);
    MarkIsLogged(c, states, steps, r, j);
    MarkStaysLogged(c, states, steps, r + 1, j + 1, x, id);
    UnmarkedIsUnknown(c, states, steps, r, x, id, steps[x].server.now);
  }

  ghost predicate StampedWithin(ops: seq<Op>, key: string, now: Instant, ttl: nat) {
    exists i :: 0 <= i < |ops| && Stamps(ops[i]) && ops[i].key == key && Age(now, ops[i].now) < ttl
  }

  /** A delivery is answered as a duplicate only when this process has marked its id less than the window before. */
  lemma DuplicatesWereMarked(c: Settings, states: seq<State>, steps: seq<Step>, r: nat, k: nat)
    requires SettingsOk(c) && Run(c, states, steps) && InProcess(steps, r, k) && k < |steps|
    requires steps[k].Server? && steps[k].server.DedupHit?
    ensures var n, now := steps[k].server.n, steps[k].server.now; var ops := MarkOps(c, states, steps, r + 1, k);
            n in states[k].handlers
            && StampedWithin(ops, states[k].handlers[n].msg.id, now, c.dedupLimits.ttl)
  {
    RunStep(c, states, steps, k);
    MarksAreLogged(c, states, steps, r, k);
    var n, now := steps[k].server.n, steps[k].server.now;
    var ops := MarkOps(c, states, steps, r + 1, k);
    ContainsIsSound(c.dedupLimits, ops, states[k].dedup, states[k].handlers[n].msg.id, now);
  }
}

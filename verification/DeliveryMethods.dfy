/** The methods that run the source's code without interruption are runs of the delivery machine: what
    `Drainer.DrainPending`, `ForwardQueue.ProcessFile` and `AppState.WebhookGowa` promise is what the
    machine's steps do when nobody else moves in between. */
module DeliveryMethods {
  import opened InboundModel
  import opened Policies
  import opened TtlSets
  import opened Transcription
  import opened Queues
  import opened Delivery
  import opened DeliveryProgress
  import opened DeliverySafety
  import Routing
  import App = Server

  lemma FirstMove(c: Settings, s: State, a: seq<Step>) returns (s': State)
    requires a != [] && Playable(c, s, a)
    ensures Moves(c, s, a[0], s') && Playable(c, s', a[1..]) && After(c, s, a) == After(c, s', a[1..])
  {
    s' := Apply(c, s, a[0]);
  }

  lemma PlayFirst(c: Settings, s: State, step: Step, s': State, rest: seq<Step>)
    requires Moves(c, s, step, s') && Playable(c, s', rest)
    ensures Playable(c, s, [step] + rest) && After(c, s, [step] + rest) == After(c, s', rest)
  {
    assert ([step] + rest)[1..] == rest;
  }

  lemma {:induction false} PlayThrough(c: Settings, s: State, a: seq<Step>, m: State, b: seq<Step>)
    requires Playable(c, s, a) && After(c, s, a) == m && Playable(c, m, b)
    ensures Playable(c, s, a + b) && After(c, s, a + b) == After(c, m, b)
    decreases |a|
  {
    if a == [] {
      assert a + b == b;
    } else {
      var rest := a[1..];
      var s' := FirstMove(c, s, a);
      PlayThrough(c, s', rest, m, b);
      PlayFirst(c, s, a[0], s', rest + b);
      Regroup(a, b);
    }
  }

  lemma Regroup(a: seq<Step>, b: seq<Step>)
    requires a != []
    ensures a + b == [a[0]] + (a[1..] + b)
  {
  }

  lemma PlayOn(c: Settings, s: State, a: seq<Step>, b: seq<Step>)
    requires Playable(c, s, a) && Playable(c, After(c, s, a), b)
    ensures Playable(c, s, a + b) && After(c, s, a + b) == After(c, After(c, s, a), b)
  {
    PlayThrough(c, s, a, After(c, s, a), b);
  }

  lemma PlayOne(c: Settings, s: State, step: Step)
    requires Enabled(c, s, step)
    ensures Playable(c, s, [step]) && After(c, s, [step]) == Apply(c, s, step)
  {
    assert [step][1..] == [];
  }

  /** A step more at the end. */
  lemma PlayNext(c: Settings, s: State, a: seq<Step>, step: Step)
    requires Playable(c, s, a) && Enabled(c, After(c, s, a), step)
    ensures Playable(c, s, a + [step]) && After(c, s, a + [step]) == Apply(c, After(c, s, a), step)
  {
    PlayOne(c, After(c, s, a), step);
    PlayOn(c, s, a, [step]);
  }

  // ---------------------------------------------------------------- drain_pending

  function ClaimSteps(names: seq<string>): (r: seq<Step>)
    ensures |r| == |names|
  {
    seq(|names|, i requires 0 <= i < |names| => Drain(Claim(names[i])))
  }

  function QueuedTasks(names: seq<string>): (r: seq<Task>)
    ensures |r| == |names|
  {
    seq(|names|, i requires 0 <= i < |names| => Task(names[i], Queued))
  }

  predicate Distinct(names: seq<string>) {
    forall i, j :: 0 <= i < j < |names| ==> names[i] != names[j]
  }

  function Names(names: seq<string>): set<string> {
    set n | n in names
  }

  /** A state after the drain has considered some names, and spawned tasks for some of them, from `s`. */
  ghost predicate Drained(s: State, considered: set<string>, spawned: seq<string>, s': State)
    requires s.worker.Draining?
  {
    && s'.up && s'.tasks == s.tasks + QueuedTasks(spawned) && s'.inFlight == s.inFlight + considered
    && s'.worker == s.worker.(left := s.worker.left - considered)
    && s'.pending == s.pending && s'.dead == s.dead && s'.dedup == s.dedup && s'.handlers == s.handlers
    && s'.permits == s.permits && s'.notified == s.notified && s'.cancelled == s.cancelled
  }

  lemma ClaimedOneMore(names: seq<string>, k: nat, inFlight: set<string>)
    requires k < |names| && Distinct(names) && forall n :: n in names ==> IsJson(n)
    ensures Claimed(names[..k + 1], inFlight) ==
            if names[k] in inFlight then Claimed(names[..k], inFlight) else Claimed(names[..k], inFlight) + [names[k]]
    ensures names[k] !in names[..k] && Names(names[..k + 1]) == Names(names[..k]) + {names[k]}
  {
    assert names[..k + 1][..k] == names[..k];
    assert names[k] in names;
    assert names[..k + 1] == names[..k] + [names[k]];
  }

  lemma DrainedOneMore(c: Settings, s: State, considered: set<string>, spawned: seq<string>, name: string, s': State)
    requires s.worker.Draining? && name in s.worker.left && name !in considered && Drained(s, considered, spawned, s')
    ensures WorkerEnabled(s', Claim(name))
    ensures Drained(s, considered + {name}, if name in s.inFlight then spawned else spawned + [name],
                    WorkerApply(c, s', Claim(name)))
  {
    assert QueuedTasks(spawned + [name]) == QueuedTasks(spawned) + [Task(name, Queued)];
    assert s.worker.left - considered - {name} == s.worker.left - (considered + {name});
  }

  lemma ClaimStepsOneMore(names: seq<string>, k: nat)
    requires k < |names|
    ensures ClaimSteps(names[..k + 1]) == ClaimSteps(names[..k]) + [Drain(Claim(names[k]))]
  {
  }

  lemma NextClaim(c: Settings, s: State, names: seq<string>, k: nat, s': State)
    requires s.worker.Draining? && Distinct(names) && k < |names| && names[k] in s.worker.left
    requires (forall n :: n in names ==> IsJson(n))
             && Drained(s, Names(names[..k]), Claimed(names[..k], s.inFlight), s')
    ensures Enabled(c, s', Drain(Claim(names[k])))
    ensures Drained(s, Names(names[..k + 1]), Claimed(names[..k + 1], s.inFlight), WorkerApply(c, s', Claim(names[k])))
  {
    ClaimedOneMore(names, k, s.inFlight);
    DrainedOneMore(c, s, Names(names[..k]), Claimed(names[..k], s.inFlight), names[k], s');
  }

  lemma {:induction false} ClaimsAreAPath(c: Settings, s: State, names: seq<string>, k: nat)
    requires s.up && s.worker.Draining? && Distinct(names) && k <= |names|
    requires (forall n :: n in names ==> n in s.worker.left) && forall n :: n in names ==> IsJson(n)
    ensures Playable(c, s, ClaimSteps(names[..k]))
    ensures Drained(s, Names(names[..k]), Claimed(names[..k], s.inFlight), After(c, s, ClaimSteps(names[..k])))
    decreases k
  {
    if k == 0 {
      assert ClaimSteps(names[..0]) == [] && s.tasks + QueuedTasks([]) == s.tasks && s.inFlight + {} == s.inFlight;
    } else {
      var earlier, name := names[..k - 1], names[k - 1];
      ClaimsAreAPath(c, s, names, k - 1);
      NextClaim(c, s, names, k - 1, After(c, s, ClaimSteps(earlier)));
      PlayNext(c, s, ClaimSteps(earlier), Drain(Claim(name)));
      ClaimStepsOneMore(names, k - 1);
    }
  }

  /** A drain that nobody interrupts, in any order of the listing, spawns exactly the tasks of
      `Drainer.DrainPending`, in its order, and claims the whole listing. */
  lemma DrainIsAPath(c: Settings, s: State, names: seq<string>)
    requires s.up && s.worker.Draining? && Distinct(names) && s.worker.left == Names(names)
    requires forall n :: n in names ==> IsJson(n)
    ensures var steps := ClaimSteps(names);
            && Playable(c, s, steps)
            && After(c, s, steps).tasks == s.tasks + QueuedTasks(Claimed(names, s.inFlight))
            && After(c, s, steps).inFlight == s.inFlight + s.worker.left
            && WorkerEnabled(After(c, s, steps), DrainDone)
  {
    ClaimsAreAPath(c, s, names, |names|);
    assert names[..|names|] == names;
  }

  // ---------------------------------------------------------------- process_file

  /** The last attempt and what follows it. */
  function LastSteps(i: nat, outcome: Outcome, fails: bool): seq<Step> {
    match outcome
    case Delivered => [Forward(i, ForwardOk), Forward(i, if fails then RemoveFails else Remove)]
    case Exhausted => [Forward(i, ForwardErr), Forward(i, if fails then BuryFails else Bury)]
    case _ => [Forward(i, ForwardErr), Forward(i, LeavePending)]
  }

  /** `n` attempts, the one under way included. */
  function AttemptSteps(i: nat, n: nat, outcome: Outcome, fails: bool): seq<Step>
    requires n > 0
  {
    if n == 1 then LastSteps(i, outcome, fails)
    else Round(i) + AttemptSteps(i, n - 1, outcome, fails)
  }

  function Round(i: nat): seq<Step> {
    [Forward(i, ForwardErr), Forward(i, TimerFires), Forward(i, TaskStep.Retry)]
  }

  function Copies(m: Inbound, n: nat): seq<Inbound> {
    seq(n, _ => m)
  }

  /** What the contract of `ForwardQueue.ProcessFile` says about the directories. */
  ghost predicate RanAlone(c: Settings, s: State, i: nat, held: Inbound, sent: nat, outcome: Outcome, fails: bool,
                           s': State)
    requires i < |s.tasks| && s.tasks[i].name in s.pending
  {
    var name := s.tasks[i].name;
    && s'.tasks == s.tasks[i := Task(name, Finished)]
    && s'.pending == (if !fails && (outcome == Delivered || outcome == Exhausted) then s.pending - {name}
                      else s.pending)
    && s'.dead == (if !fails && outcome == Exhausted then s.dead[name := s.pending[name]] else s.dead)
    && s'.h.sent == s.h.sent + Copies(held, sent)
    && s'.h.delivered == (if outcome == Delivered then s.h.delivered + multiset{held.id} else s.h.delivered)
    && s'.handlers == s.handlers && s'.dedup == s.dedup && s'.inFlight == s.inFlight && s'.permits == s.permits
    && s'.worker == s.worker && s'.notified == s.notified && s'.cancelled == s.cancelled && s'.up == s.up
  }

  /** These attempts, the next one being number `attempt`, can end this way. */
  predicate Fits(c: Settings, s: State, attempt: nat, n: nat, outcome: Outcome) {
    match outcome
    case Delivered => attempt + n <= c.maxRetries + 1
    case Exhausted => attempt + n == c.maxRetries + 1
    case LeftPending => attempt + n <= c.maxRetries && s.cancelled
    case _ => false
  }

  lemma TwoSteps(c: Settings, s: State, a: Step, b: Step)
    requires Enabled(c, s, a) && Enabled(c, Apply(c, s, a), b)
    ensures Playable(c, s, [a, b]) && After(c, s, [a, b]) == Apply(c, Apply(c, s, a), b)
  {
    PlayOne(c, s, a);
    PlayNext(c, s, [a], b);
    assert [a] + [b] == [a, b];
  }

  lemma LastSucceeds(c: Settings, s: State, i: nat, fails: bool)
    requires s.up && i < |s.tasks| && s.tasks[i].phase.Trying? && s.tasks[i].name in s.pending
    ensures var steps := LastSteps(i, Delivered, fails);
            Playable(c, s, steps) && RanAlone(c, s, i, s.tasks[i].phase.held, 0, Delivered, fails, After(c, s, steps))
  {
    var b := Forward(i, if fails then RemoveFails else Remove);
    var s1 := Apply(c, s, Forward(i, ForwardOk));
    assert s1.tasks[i] == Task(s.tasks[i].name, Succeeded(s.tasks[i].phase.held));
    TwoSteps(c, s, Forward(i, ForwardOk), b);
    assert Apply(c, s1, b).tasks == s.tasks[i := Task(s.tasks[i].name, Finished)];
  }

  lemma AttemptFails(c: Settings, s: State, i: nat)
    requires s.up && i < |s.tasks| && s.tasks[i].phase.Trying?
    ensures var t, p := s.tasks[i], s.tasks[i].phase;
            Enabled(c, s, Forward(i, ForwardErr))
            && Apply(c, s, Forward(i, ForwardErr)) == s.(tasks := s.tasks[i := Task(t.name,
                 if p.attempt >= c.maxRetries then GaveUp(p.held) else Waiting(p.attempt, p.held, false))])
  {
  }

  lemma LastGivesUp(c: Settings, s: State, i: nat, fails: bool)
    requires s.up && i < |s.tasks| && s.tasks[i].phase.Trying? && s.tasks[i].name in s.pending
    requires s.tasks[i].phase.attempt == c.maxRetries
    ensures var steps := LastSteps(i, Exhausted, fails);
            Playable(c, s, steps) && RanAlone(c, s, i, s.tasks[i].phase.held, 0, Exhausted, fails, After(c, s, steps))
  {
    var b := Forward(i, if fails then BuryFails else Bury);
    var s1 := Apply(c, s, Forward(i, ForwardErr));
    AttemptFails(c, s, i);
    TwoSteps(c, s, Forward(i, ForwardErr), b);
    assert Apply(c, s1, b).tasks == s.tasks[i := Task(s.tasks[i].name, Finished)];
  }

  lemma LastIsLeft(c: Settings, s: State, i: nat, fails: bool)
    requires s.up && s.cancelled && i < |s.tasks| && s.tasks[i].phase.Trying? && s.tasks[i].name in s.pending
    requires s.tasks[i].phase.attempt < c.maxRetries
    ensures var steps := LastSteps(i, LeftPending, fails);
            Playable(c, s, steps) && RanAlone(c, s, i, s.tasks[i].phase.held, 0, LeftPending, fails, After(c, s, steps))
  {
    var s1 := Apply(c, s, Forward(i, ForwardErr));
    AttemptFails(c, s, i);
    TwoSteps(c, s, Forward(i, ForwardErr), Forward(i, LeavePending));
    assert Apply(c, s1, Forward(i, LeavePending)).tasks == s.tasks[i := Task(s.tasks[i].name, Finished)];
  }

  /** A failed attempt, its wait, and the start of the next. */
  lemma OneRound(c: Settings, s: State, i: nat)
    requires s.up && i < |s.tasks| && s.tasks[i].phase.Trying? && s.tasks[i].phase.attempt < c.maxRetries
    ensures var p := s.tasks[i].phase;
            Playable(c, s, Round(i)) && AttemptBegun(s, i, Trying(p.attempt + 1, p.held), p.held, After(c, s, Round(i)))
  {
    var a, b, d := Forward(i, ForwardErr), Forward(i, TimerFires), Forward(i, TaskStep.Retry);
    var p, name := s.tasks[i].phase, s.tasks[i].name;
    AttemptFails(c, s, i);
    PlayOne(c, s, a);
    var s1 := Apply(c, s, a);
    PlayNext(c, s, [a], b);
    var s2 := Apply(c, s1, b);
    assert s2 == s.(tasks := s.tasks[i := Task(name, Waiting(p.attempt, p.held, true))]);
    PlayNext(c, s, [a] + [b], d);
    assert [a] + [b] + [d] == [a, b, d];
  }

  /** `s'` is `s` with another attempt of the task under way. */
  ghost predicate AttemptBegun(s: State, i: nat, p: TaskPhase, held: Inbound, s': State)
    requires i < |s.tasks|
  {
    && s' == s.(tasks := s.tasks[i := Task(s.tasks[i].name, p)], h := s'.h)
    && s'.h.sent == s.h.sent + [held] && s'.h.delivered == s.h.delivered
  }

  /** The steps to an attempt, and then those of `n` more. */
  lemma OneCopyMore(c: Settings, s: State, i: nat, p: TaskPhase, held: Inbound, first: seq<Step>, rest: seq<Step>,
                    n: nat, outcome: Outcome, fails: bool)
    requires i < |s.tasks| && s.tasks[i].name in s.pending
    requires Playable(c, s, first) && AttemptBegun(s, i, p, held, After(c, s, first))
    requires var s' := After(c, s, first);
             Playable(c, s', rest) && RanAlone(c, s', i, held, n, outcome, fails, After(c, s', rest))
    ensures Playable(c, s, first + rest)
    ensures RanAlone(c, s, i, held, n + 1, outcome, fails, After(c, s, first + rest))
  {
    PlayOn(c, s, first, rest);
    assert (s.h.sent + [held]) + Copies(held, n) == s.h.sent + Copies(held, n + 1);
  }

  lemma LastIsAPath(c: Settings, s: State, i: nat, outcome: Outcome, fails: bool)
    requires s.up && i < |s.tasks| && s.tasks[i].phase.Trying? && s.tasks[i].name in s.pending
    requires Fits(c, s, s.tasks[i].phase.attempt, 1, outcome)
    ensures var steps := LastSteps(i, outcome, fails);
            Playable(c, s, steps) && RanAlone(c, s, i, s.tasks[i].phase.held, 0, outcome, fails, After(c, s, steps))
  {
    if outcome == Delivered {
      LastSucceeds(c, s, i, fails);
    } else if outcome == Exhausted {
      LastGivesUp(c, s, i, fails);
    } else {
      LastIsLeft(c, s, i, fails);
    }
  }

  lemma RoundAndRest(c: Settings, s: State, i: nat, n: nat, outcome: Outcome, fails: bool)
    requires s.up && i < |s.tasks| && s.tasks[i].phase.Trying? && s.tasks[i].name in s.pending && n > 0
    requires var p := s.tasks[i].phase;
             && Playable(c, s, Round(i))
             && AttemptBegun(s, i, Trying(p.attempt + 1, p.held), p.held, After(c, s, Round(i)))
    requires var s', rest, held := After(c, s, Round(i)), AttemptSteps(i, n, outcome, fails), s.tasks[i].phase.held;
             Playable(c, s', rest) && RanAlone(c, s', i, held, n - 1, outcome, fails, After(c, s', rest))
    ensures var steps := AttemptSteps(i, n + 1, outcome, fails);
            Playable(c, s, steps) && RanAlone(c, s, i, s.tasks[i].phase.held, n, outcome, fails, After(c, s, steps))
  {
    var p := s.tasks[i].phase;
    OneCopyMore(c, s, i, Trying(p.attempt + 1, p.held), p.held, Round(i), AttemptSteps(i, n, outcome, fails), n - 1,
                outcome, fails);
  }

  lemma {:induction false} RetryIsAPath(c: Settings, s: State, i: nat, n: nat, outcome: Outcome, fails: bool)
    requires s.up && i < |s.tasks| && s.tasks[i].phase.Trying? && s.tasks[i].name in s.pending
    requires n > 0 && Fits(c, s, s.tasks[i].phase.attempt, n, outcome)
    ensures var steps := AttemptSteps(i, n, outcome, fails);
            Playable(c, s, steps) && RanAlone(c, s, i, s.tasks[i].phase.held, n - 1, outcome, fails, After(c, s, steps))
    decreases n
  {
    if n == 1 {
      LastIsAPath(c, s, i, outcome, fails);
    } else {
      OneRound(c, s, i);
      RetryIsAPath(c, After(c, s, Round(i)), i, n - 1, outcome, fails);
      RoundAndRest(c, s, i, n - 1, outcome, fails);
    }
  }

  /** Reading the file, transcribing its clips, and the start of the first attempt. */
  lemma StartsAPath(c: Settings, s: State, i: nat, clips: seq<Clip>)
    requires TaskEnabled(c, s, i, Read) && |clips| == |AudioItems(s.pending[s.tasks[i].name].record.media)|
    ensures var steps := [Forward(i, Read), Forward(i, Transcribe(clips))];
            var held := c.fold(s.pending[s.tasks[i].name].record, clips);
            Playable(c, s, steps) && AttemptBegun(s, i, Trying(0, held), held, After(c, s, steps))
  {
    var record := s.pending[s.tasks[i].name].record;
    var s1 := Apply(c, s, Forward(i, Read));
    assert s1 == s.(tasks := s.tasks[i := Task(s.tasks[i].name, Transcribing(record))]);
    TwoSteps(c, s, Forward(i, Read), Forward(i, Transcribe(clips)));
  }

  lemma FateFits(c: Settings, s: State, n: nat, outcome: Outcome, attempts: seq<Attempt>, cancelled: seq<bool>)
    requires |attempts| == |cancelled| == c.maxRetries + 1 && 0 < n <= |attempts|
    requires FateOf(outcome, n, attempts, cancelled) && (outcome == LeftPending ==> s.cancelled)
    ensures Fits(c, s, 0, n, outcome)
  {
  }

  /** Every fate that the retry loop allows is a path of the machine, with the same messages sent and
      the same effect on `pending` and `dead` as `ForwardQueue.ProcessFile` promises. */
  lemma ProcessFileIsAPath(c: Settings, s: State, i: nat, clips: seq<Clip>, n: nat, outcome: Outcome,
                           attempts: seq<Attempt>, cancelled: seq<bool>, fails: bool)
    requires TaskEnabled(c, s, i, Read) && |clips| == |AudioItems(s.pending[s.tasks[i].name].record.media)|
    requires |attempts| == |cancelled| == c.maxRetries + 1 && 0 < n <= |attempts|
    requires FateOf(outcome, n, attempts, cancelled) && (outcome == LeftPending ==> s.cancelled)
    ensures var steps := [Forward(i, Read), Forward(i, Transcribe(clips))] + AttemptSteps(i, n, outcome, fails);
            var held := c.fold(s.pending[s.tasks[i].name].record, clips);
            Playable(c, s, steps) && RanAlone(c, s, i, held, n, outcome, fails, After(c, s, steps))
  {
    var held := c.fold(s.pending[s.tasks[i].name].record, clips);
    var start, rest := [Forward(i, Read), Forward(i, Transcribe(clips))], AttemptSteps(i, n, outcome, fails);
    StartsAPath(c, s, i, clips);
    var s' := After(c, s, start);
    FateFits(c, s', n, outcome, attempts, cancelled);
    RetryIsAPath(c, s', i, n, outcome, fails);
    OneCopyMore(c, s, i, Trying(0, held), held, start, rest, n - 1, outcome, fails);
  }

  // ---------------------------------------------------------------- webhook_gowa

  /** `s'` is `s` with this handler at work and this directory; the history may differ. */
  ghost predicate Handling(s: State, s': State, n: nat, hd: Handler, dir: Dir, notified: bool) {
    s' == s.(handlers := s.handlers[n := hd], pending := dir, notified := notified, h := s'.h)
    && s'.h.acked == s.h.acked
  }

  lemma ArriveStep(c: Settings, s: State, n: nat, e: GowaEnvelope, repliedAt: Instant, reactedAt: Instant)
    requires s.up && !s.cancelled && n !in s.handlers && IntoInbound(e).Ok?
    ensures var m := IntoInbound(e).value; var step := Server(Arrive(n, e, repliedAt, reactedAt));
            && Enabled(c, s, step)
            && Handling(s, Apply(c, s, step), n,
                        Handler(m.(mentioned := IsAddressed(c, s, m, repliedAt, reactedAt)), Received,
                                repliedAt, reactedAt),
                        s.pending, s.notified)
  {
  }

  lemma MissStep(c: Settings, s: State, s': State, n: nat, hd: Handler, now: Instant)
    requires Handling(s, s', n, hd, s.pending, s.notified) && s.up
    requires hd.phase == Received && !Live(c.dedupLimits, s.dedup, hd.msg.id, now)
    ensures Enabled(c, s', Server(DedupMiss(n, now)))
    ensures Handling(s, Apply(c, s', Server(DedupMiss(n, now))), n, hd.(phase := NotSeen), s.pending, s.notified)
  {
    assert s'.handlers[n := hd.(phase := NotSeen)] == s.handlers[n := hd.(phase := NotSeen)];
  }

  lemma AllowStep(c: Settings, s: State, s': State, n: nat, hd: Handler)
    requires Handling(s, s', n, hd, s.pending, s.notified) && s.up
    requires hd.phase == NotSeen && Evaluate(c.policy, hd.msg) == Allow
    ensures var hd' := hd.(phase := Admitted, msg := hd.msg.(channel := Routing.ChannelFor(c.router, hd.msg)));
            Enabled(c, s', Server(PolicyAllow(n)))
            && Handling(s, Apply(c, s', Server(PolicyAllow(n))), n, hd', s.pending, s.notified)
  {
    var hd' := hd.(phase := Admitted, msg := hd.msg.(channel := Routing.ChannelFor(c.router, hd.msg)));
    assert s'.handlers[n := hd'] == s.handlers[n := hd'];
  }

  lemma CreateStep(c: Settings, s: State, s': State, n: nat, hd: Handler)
    requires Handling(s, s', n, hd, s.pending, s.notified) && s.up && n !in s.handlers
    requires hd.phase == Admitted && !Writing(s, hd.msg.id)
    ensures Enabled(c, s', Server(CreateTmp(n)))
    ensures Handling(s, Apply(c, s', Server(CreateTmp(n))), n, hd.(phase := TmpCreated),
                     s.pending[c.names.tmp(hd.msg.id) := Partial], s.notified)
  {
    assert forall k :: k in s'.handlers && k != n ==> k in s.handlers && s'.handlers[k] == s.handlers[k];
    assert s'.handlers[n := hd.(phase := TmpCreated)] == s.handlers[n := hd.(phase := TmpCreated)];
  }

  lemma WriteStep(c: Settings, s: State, s': State, n: nat, hd: Handler)
    requires Handling(s, s', n, hd, s.pending[c.names.tmp(hd.msg.id) := Partial], s.notified) && s.up
    requires hd.phase == TmpCreated
    ensures Enabled(c, s', Server(WriteTmp(n)))
    ensures Handling(s, Apply(c, s', Server(WriteTmp(n))), n, hd.(phase := TmpWritten),
                     s.pending[c.names.tmp(hd.msg.id) := Complete(hd.msg)], s.notified)
  {
    var tmp := c.names.tmp(hd.msg.id);
    assert s.pending[tmp := Partial][tmp := Complete(hd.msg)] == s.pending[tmp := Complete(hd.msg)];
    assert s'.handlers[n := hd.(phase := TmpWritten)] == s.handlers[n := hd.(phase := TmpWritten)];
  }

  lemma RenameStep(c: Settings, s: State, s': State, n: nat, hd: Handler)
    requires SettingsOk(c) && s.up && hd.phase == TmpWritten
    requires Handling(s, s', n, hd, s.pending[c.names.tmp(hd.msg.id) := Complete(hd.msg)], s.notified)
    ensures Enabled(c, s', Server(RenameTmp(n)))
    ensures Handling(s, Apply(c, s', Server(RenameTmp(n))), n, hd.(phase := Renamed), Published(c, s.pending, hd.msg),
                     s.notified)
  {
    var tmp, file := c.names.tmp(hd.msg.id), c.names.file(hd.msg.id);
    assert file != tmp;
    assert s.pending[tmp := Complete(hd.msg)][file := Complete(hd.msg)] - {tmp} == Published(c, s.pending, hd.msg);
    assert s'.handlers[n := hd.(phase := Renamed)] == s.handlers[n := hd.(phase := Renamed)];
  }

  lemma NotifyStep(c: Settings, s: State, s': State, n: nat, hd: Handler)
    requires Handling(s, s', n, hd, Published(c, s.pending, hd.msg), s.notified) && s.up && hd.phase == Renamed
    ensures Enabled(c, s', Server(Notify(n)))
    ensures Handling(s, Apply(c, s', Server(Notify(n))), n, hd.(phase := Notified), Published(c, s.pending, hd.msg),
                     true)
  {
    assert s'.handlers[n := hd.(phase := Notified)] == s.handlers[n := hd.(phase := Notified)];
  }

  lemma MarkStep(c: Settings, s: State, s': State, n: nat, hd: Handler, now: Instant, added: bool, dedup': Entries)
    requires Handling(s, s', n, hd, Published(c, s.pending, hd.msg), true) && s.up && n !in s.handlers
    requires hd.phase == Notified && TtlSets.Step(c.dedupLimits, s.dedup, InsertNew(hd.msg.id, now, added), dedup')
    ensures Enabled(c, s', Server(MarkSeen(n, now, dedup')))
    ensures Handled(c, s, Apply(c, s', Server(MarkSeen(n, now, dedup'))), hd.msg, dedup')
  {
    assert s'.handlers - {n} == s.handlers;
  }

  /** What the contract of `AppState.WebhookGowa` says about a queued message. */
  ghost predicate Handled(c: Settings, s: State, s': State, m: Inbound, dedup': Entries) {
    s' == s.(pending := Published(c, s.pending, m), dedup := dedup', notified := true, h := s'.h)
    && s'.h.acked == s.h.acked + {m.id}
  }

  function AdmitSteps(n: nat, e: GowaEnvelope, repliedAt: Instant, reactedAt: Instant, checkedAt: Instant): seq<Step> {
    [Server(Arrive(n, e, repliedAt, reactedAt))] + [Server(DedupMiss(n, checkedAt))] + [Server(PolicyAllow(n))]
  }

  function EnqueueSteps(n: nat): seq<Step> {
    [Server(CreateTmp(n))] + [Server(WriteTmp(n))] + [Server(RenameTmp(n))] + [Server(Notify(n))]
  }

  lemma AdmittingIsAPath(c: Settings, s: State, n: nat, e: GowaEnvelope, repliedAt: Instant, reactedAt: Instant,
                         checkedAt: Instant)
    requires s.up && !s.cancelled && n !in s.handlers && IntoInbound(e).Ok?
    requires var m := IntoInbound(e).value;
             && !Live(c.dedupLimits, s.dedup, m.id, checkedAt)
             && Evaluate(c.policy, m.(mentioned := IsAddressed(c, s, m, repliedAt, reactedAt))) == Allow
    ensures var m0 := IntoInbound(e).value;
            var m := m0.(mentioned := IsAddressed(c, s, m0, repliedAt, reactedAt));
            var steps := AdmitSteps(n, e, repliedAt, reactedAt, checkedAt);
            && Playable(c, s, steps)
            && Handling(s, After(c, s, steps), n,
                        Handler(m.(channel := Routing.ChannelFor(c.router, m)), Admitted, repliedAt, reactedAt),
                        s.pending, s.notified)
  {
    var m0 := IntoInbound(e).value;
    var hd := Handler(m0.(mentioned := IsAddressed(c, s, m0, repliedAt, reactedAt)), Received, repliedAt, reactedAt);
    var a, b, d := Server(Arrive(n, e, repliedAt, reactedAt)), Server(DedupMiss(n, checkedAt)), Server(PolicyAllow(n));
    ArriveStep(c, s, n, e, repliedAt, reactedAt);
    PlayOne(c, s, a);
    MissStep(c, s, After(c, s, [a]), n, hd, checkedAt);
    PlayNext(c, s, [a], b);
    AllowStep(c, s, After(c, s, [a] + [b]), n, hd.(phase := NotSeen));
    PlayNext(c, s, [a] + [b], d);
  }

  lemma EnqueuingIsAPath(c: Settings, s: State, s': State, n: nat, hd: Handler)
    requires SettingsOk(c) && s.up && n !in s.handlers && hd.phase == Admitted && !Writing(s, hd.msg.id)
    requires Handling(s, s', n, hd, s.pending, s.notified)
    ensures Playable(c, s', EnqueueSteps(n))
    ensures Handling(s, After(c, s', EnqueueSteps(n)), n, hd.(phase := Notified), Published(c, s.pending, hd.msg), true)
  {
    var a, b, d, f := Server(CreateTmp(n)), Server(WriteTmp(n)), Server(RenameTmp(n)), Server(Notify(n));
    CreateStep(c, s, s', n, hd);
    PlayOne(c, s', a);
    WriteStep(c, s, After(c, s', [a]), n, hd.(phase := TmpCreated));
    PlayNext(c, s', [a], b);
    RenameStep(c, s, After(c, s', [a] + [b]), n, hd.(phase := TmpWritten));
    PlayNext(c, s', [a] + [b], d);
    NotifyStep(c, s, After(c, s', [a] + [b] + [d]), n, hd.(phase := Renamed));
    PlayNext(c, s', [a] + [b] + [d], f);
  }

  /** A delivery that passes dedup and policy and that nobody interrupts, from any state of the machine,
      does to the queue, the dedup set and the wake-up what `AppState.WebhookGowa` promises. */
  lemma WebhookIsAPath(c: Settings, s: State, n: nat, e: GowaEnvelope, repliedAt: Instant, reactedAt: Instant,
                       checkedAt: Instant, markedAt: Instant, added: bool, dedup': Entries)
    requires SettingsOk(c) && s.up && !s.cancelled && n !in s.handlers && IntoInbound(e).Ok?
    requires var m := IntoInbound(e).value;
             && !Live(c.dedupLimits, s.dedup, m.id, checkedAt) && !Writing(s, m.id)
             && Evaluate(c.policy, m.(mentioned := IsAddressed(c, s, m, repliedAt, reactedAt))) == Allow
             && TtlSets.Step(c.dedupLimits, s.dedup, InsertNew(m.id, markedAt, added), dedup')
    ensures var m0 := IntoInbound(e).value;
            var m := m0.(mentioned := IsAddressed(c, s, m0, repliedAt, reactedAt));
            var steps := AdmitSteps(n, e, repliedAt, reactedAt, checkedAt) + EnqueueSteps(n)
                         + [Server(MarkSeen(n, markedAt, dedup'))];
            && Playable(c, s, steps)
            && Handled(c, s, After(c, s, steps), m.(channel := Routing.ChannelFor(c.router, m)), dedup')
  {
    var m0 := IntoInbound(e).value;
    var m := m0.(mentioned := IsAddressed(c, s, m0, repliedAt, reactedAt));
    var hd := Handler(m.(channel := Routing.ChannelFor(c.router, m)), Admitted, repliedAt, reactedAt);
    var admit, enqueue := AdmitSteps(n, e, repliedAt, reactedAt, checkedAt), EnqueueSteps(n);
    AdmittingIsAPath(c, s, n, e, repliedAt, reactedAt, checkedAt);
    EnqueuingIsAPath(c, s, After(c, s, admit), n, hd);
    PlayOn(c, s, admit, enqueue);
    MarkStep(c, s, After(c, s, admit + enqueue), n, hd.(phase := Notified), markedAt, added, dedup');
    PlayNext(c, s, admit + enqueue, Server(MarkSeen(n, markedAt, dedup')));
  }

  /** The addressing verdict of the handlers of the transition system is the one of `AppState`. */
  lemma VerdictsAgree(app: App.AppState, c: Settings, s: State, e: GowaEnvelope, clock: App.Clock)
    requires app.Valid() && IntoInbound(e).Ok? && c.selfNumber == app.selfNumber
    requires c.sentLimits == app.sentIds.inner.limits && s.sentIds == app.sentIds.inner.entries
    ensures app.Addresses(IntoInbound(e).value, clock) <==>
            IsAddressed(c, s, IntoInbound(e).value, clock.repliedAt, clock.reactedAt)
  {
    ReferencesAreNotEmpty(e);
  }

  lemma ReferencesAreNotEmpty(e: GowaEnvelope)
    requires IntoInbound(e).Ok?
    ensures var m := IntoInbound(e).value;
            (m.replyTo.Some? ==> m.replyTo.value != "") && (m.reactedMessageId.Some? ==> m.reactedMessageId.value != "")
  {
  }
}

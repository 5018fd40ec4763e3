/** `webhook_gowa` in `src/server.rs` run without interruption, steps 3 to 9, over the objects that the
    application state shares between handlers. */
module Server {
  import opened Wrappers
  import opened InboundModel
  import opened Policies
  import opened TtlSets
  import opened Queues
  import Mentions
  import Routing

  /** What the handler answers: 500 when the message could not be queued, 200 otherwise. */
  datatype Answer = Unusable(reason: DropReason) | Duplicate | Refused(cause: DropCause) | NotQueued | Queued

  /** The instants at which the handler reads the clock. */
  datatype Clock = Clock(repliedAt: Instant, reactedAt: Instant, checkedAt: Instant, markedAt: Instant)

  /** The inbound dedup window (ten minutes, in milliseconds) and its capacity. */
  const DEDUP_TTL: nat := 600 * 1000
  const DEDUP_CAPACITY: nat := 50_000

  class AppState {
    const dedup: TtlSet
    const sentIds: SentIds
    const queue: ForwardQueue
    const policy: PolicyConfig
    const selfNumber: Option<string>
    const router: Routing.Router

    ghost predicate Valid()
      reads this, dedup, sentIds, sentIds.inner
    {
      && dedup.Valid() && dedup.limits == Limits(DEDUP_TTL, DEDUP_CAPACITY) && sentIds.Valid() && dedup != sentIds.inner
      && (selfNumber.Some? ==> selfNumber.value != "" && Mentions.AllDigits(selfNumber.value))
    }

    constructor (queue: ForwardQueue, policy: PolicyConfig, rawNumber: Option<string>, router: Routing.Router)
      ensures Valid() && dedup.entries == map[]
      ensures sentIds.inner.history == [] && this.queue == queue && this.policy == policy && this.router == router
      ensures selfNumber == Mentions.SelfNumber(rawNumber)
    {
      dedup := new TtlSet(DEDUP_TTL, DEDUP_CAPACITY);
      sentIds := new SentIds();
      this.queue, this.policy, this.router := queue, policy, router;
      selfNumber := Mentions.SelfNumber(rawNumber);
    }

    /** Step 4, against the ids that the bot recorded as its own. */
    ghost predicate Addresses(m: Inbound, clock: Clock)
      reads this, sentIds, sentIds.inner
    {
      || m.kind == Call
      || (selfNumber.Some? && Mentions.Tagged(m.body, selfNumber.value))
      || IsOwn(m.replyTo, clock.repliedAt) || IsOwn(m.reactedMessageId, clock.reactedAt)
    }

    ghost predicate IsOwn(id: Option<string>, at: Instant)
      reads this, sentIds, sentIds.inner
    {
      id.Some? && id.value != "" && Live(sentIds.inner.limits, sentIds.inner.entries, id.value, at)
    }

    method IsMentioned(m: Inbound, clock: Clock) returns (r: bool)
      requires Valid()
      modifies sentIds.inner`history
      ensures Valid() && sentIds.inner.entries == old(sentIds.inner.entries)
      ensures r <==> old(Addresses(m, clock))
    {
      if m.kind == Call {
        return true;
      }
      if selfNumber.Some? {
        var tagged := Mentions.BodyMentionsNumber(m.body, selfNumber.value);
        if tagged {
          return true;
        }
      }
      r := sentIds.IsReplyToBot(m.replyTo, clock.repliedAt);
      if !r {
        r := sentIds.IsReplyToBot(m.reactedMessageId, clock.reactedAt);
      }
    }

    /** The message as it is judged and, if admitted, persisted. */
    ghost function Stamped(e: GowaEnvelope, clock: Clock): Inbound
      requires IntoInbound(e).Ok?
      reads this, sentIds, sentIds.inner
    {
      var m := IntoInbound(e).value;
      m.(mentioned := Addresses(m, clock))
    }

    method WebhookGowa(e: GowaEnvelope, clock: Clock, fault: Fault) returns (answer: Answer)
      requires Valid()
      modifies dedup, sentIds.inner`history, queue
      ensures Valid() && sentIds.inner.entries == old(sentIds.inner.entries)
      ensures answer.Unusable? <==> IntoInbound(e).Err?
      ensures answer.Unusable? ==> answer.reason == IntoInbound(e).error
      ensures IntoInbound(e).Ok? ==>
                var m := old(Stamped(e, clock));
                var seen := old(Live(dedup.limits, dedup.entries, m.id, clock.checkedAt));
                && (answer.Duplicate? <==> seen)
                && (answer.Refused? <==> !seen && !Admissible(policy, m))
                && (answer.Refused? ==> CauseFits(policy, m, answer.cause))
                && (answer.Queued? ==> fault == NoFault)
                && (answer.NotQueued? ==> fault != NoFault)
      // only a queued message is marked, and it is in the directory by then
      ensures !answer.Queued? ==> dedup.entries == old(dedup.entries)
      ensures answer.Queued? ==>
                var m := old(Stamped(e, clock)); var name := FileName(m.id);
                && TtlSets.Step(dedup.limits, old(dedup.entries),
                                InsertNew(m.id, clock.markedAt,
                                          !Live(dedup.limits, old(dedup.entries), m.id, clock.markedAt)),
                                dedup.entries)
                && queue.notified
                && var routed := m.(channel := Routing.ChannelFor(router, m));
                   queue.pending == old(queue.pending)[name := Complete(routed)] - {TmpName(m.id)}
      // every other answer leaves the final files and the wake-up alone
      ensures !answer.Queued? ==>
                && queue.notified == old(queue.notified)
                && FinalNames(queue.pending, IsJson) == FinalNames(old(queue.pending), IsJson)
      ensures !answer.Queued? && !answer.NotQueued? ==> queue.pending == old(queue.pending)
      ensures queue.dead == old(queue.dead)
    {
      var parsed := IntoInbound(e);
      if parsed.Err? {
        return Unusable(parsed.error);
      }
      var m := parsed.value;
      var mentioned := IsMentioned(m, clock);
      m := m.(mentioned := mentioned);
      var duplicate := dedup.Contains(m.id, clock.checkedAt);
      if duplicate {
        return Duplicate;
      }
      PolicyIsExact(policy, m);
      var decision := Evaluate(policy, m);
      if decision.Drop? {
        return Refused(decision.cause);
      }
      m := m.(channel := Routing.ChannelFor(router, m));
      var queued := queue.Enqueue(m, fault);
      if !queued {
        return NotQueued;
      }
      var added := dedup.InsertNew(m.id, clock.markedAt);
      return Queued;
    }
  }
}

/** `src/dedup.rs` and `src/sent_ids.rs`: a bounded, lazily expiring, evict-oldest set of strings,
    and its agreement with the plain log of stamps it was given.

    `now` is a parameter of every operation because the source reads the clock before it takes the
    lock: successive operations may carry decreasing instants, and a stamp from the future has
    age zero. */
module TtlSets {
  import opened Wrappers

  type Instant = nat
  type Entries = map<string, Instant>

  /** `Instant::duration_since`, which saturates to zero. */
  function Age(now: Instant, seen: Instant): nat {
    if now >= seen then now - seen else 0
  }

  datatype Limits = Limits(ttl: nat, capacity: nat)

  /** What `TtlSet::new` keeps of its arguments. */
  function NewLimits(ttl: nat, capacity: nat): (l: Limits)
    ensures l.capacity >= 1
  {
    Limits(ttl, if capacity >= 1 then capacity else 1)
  }

  predicate Live(l: Limits, m: Entries, key: string, now: Instant) {
    key in m && Age(now, m[key]) < l.ttl
  }

  /** `m'` is what a sweep at `now` may leave of `m`: live entries only, within capacity, and a
      live entry is dropped only from a full set and only if no kept entry is older. */
  ghost predicate Swept(l: Limits, m: Entries, now: Instant, m': Entries) {
    && (forall k :: k in m' ==> k in m && m'[k] == m[k] && Live(l, m, k, now))
    && |m'| <= l.capacity
    && (forall k :: k in m && Live(l, m, k, now) && k !in m' ==>
          |m'| == l.capacity && forall j :: j in m' ==> m[k] <= m[j])
  }

  // ---------------------------------------------------------------- operations and runs

  datatype Op =
    | InsertNew(key: string, now: Instant, added: bool)
    | Record(key: string, now: Instant)
    | Contains(key: string, now: Instant, present: bool)

  ghost predicate Step(l: Limits, m: Entries, op: Op, m': Entries) {
    match op
    case InsertNew(key, now, added) =>
      && added == !Live(l, m, key, now)
      && (if added then Swept(l, m[key := now], now, m') else m' == m)
    case Record(key, now) => Swept(l, m[key := now], now, m')
    case Contains(key, now, present) => present == Live(l, m, key, now) && m' == m
  }

  function AllButLast(ops: seq<Op>): seq<Op>
    requires ops != []
  {
    ops[..|ops| - 1]
  }

  function Last(ops: seq<Op>): Op
    requires ops != []
  {
    ops[|ops| - 1]
  }

  /** Some execution of `ops` from the empty set ends with the entries `m`. */
  ghost predicate RunsTo(l: Limits, ops: seq<Op>, m: Entries)
    decreases |ops|
  {
    if ops == [] then m == map[]
    else exists m0 :: RunsTo(l, AllButLast(ops), m0) && Step(l, m0, Last(ops), m)
  }

  /** The operation writes a stamp for its key. */
  predicate Stamps(op: Op) {
    op.Record? || (op.InsertNew? && op.added)
  }

  /** The unbounded log: the latest stamp of every key ever stamped. */
  function LastStamps(ops: seq<Op>): Entries
    decreases |ops|
  {
    if ops == [] then map[]
    else
      var before, op := LastStamps(AllButLast(ops)), Last(ops);
      if Stamps(op) then before[op.key := op.now] else before
  }

  ghost predicate InTimeOrder(ops: seq<Op>, now: Instant) {
    && (forall i, j :: 0 <= i < j < |ops| ==> ops[i].now <= ops[j].now)
    && (forall i :: 0 <= i < |ops| ==> ops[i].now <= now)
  }

  /** Keys other than `key` whose latest stamp is at or after (`strictly`: after) `t`. */
  function Rivals(last: Entries, key: string, t: Instant, strictly: bool): set<string> {
    set j | j in last && j != key && (if strictly then last[j] > t else last[j] >= t)
  }

  // ---------------------------------------------------------------- agreement with the log

  /** In any run, whatever the order of the instants: an entry carries the latest stamp of its key,
      and the set is within capacity. */
  lemma {:induction false} EntriesAreLastStamps(l: Limits, ops: seq<Op>, m: Entries)
    requires RunsTo(l, ops, m)
    ensures forall k :: k in m ==> k in LastStamps(ops) && LastStamps(ops)[k] == m[k]
    ensures |m| <= l.capacity
  {
    if ops != [] {
      var n := |ops| - 1;
      var m0 :| RunsTo(l, AllButLast(ops), m0) && Step(l, m0, Last(ops), m);
      EntriesAreLastStamps(l, ops[..n], m0);
    }
  }

  lemma {:induction false} LastStampsAreInLog(ops: seq<Op>, key: string)
    requires key in LastStamps(ops)
    ensures exists i :: 0 <= i < |ops| && Stamps(ops[i]) && ops[i].key == key && ops[i].now == LastStamps(ops)[key]
  {
    var n := |ops| - 1;
    if !(Stamps(ops[n]) && ops[n].key == key) {
      LastStampsAreInLog(ops[..n], key);
      var i :| 0 <= i < n && Stamps(ops[..n][i]) && ops[..n][i].key == key
               && ops[..n][i].now == LastStamps(ops[..n])[key];
      assert ops[i] == ops[..n][i];
    }
  }

  /** `contains` never answers yes without a stamp younger than the time-to-live. */
  lemma ContainsIsSound(l: Limits, ops: seq<Op>, m: Entries, key: string, now: Instant)
    requires RunsTo(l, ops, m) && Live(l, m, key, now)
    ensures exists i :: 0 <= i < |ops| && Stamps(ops[i]) && ops[i].key == key && Age(now, ops[i].now) < l.ttl
  {
    EntriesAreLastStamps(l, ops, m);
    LastStampsAreInLog(ops, key);
  }

  /** The two-sided bound on eviction that every in-order run maintains. */
  ghost predicate AgreesWithLog(l: Limits, m: Entries, last: Entries, now: Instant) {
    && (forall k :: k in m ==> k in last && last[k] == m[k])
    && (forall k :: k in last ==> last[k] <= now)
    && (forall k :: k in last && k !in m && Age(now, last[k]) < l.ttl ==>
          |Rivals(last, k, last[k], false)| >= l.capacity)
    && (forall k, j :: k in m && j in last && last[j] > m[k] && Age(now, m[k]) < l.ttl ==> j in m)
  }

  lemma Monotone<T>(a: set<T>, b: set<T>)
    requires a <= b
    ensures |a| <= |b|
  {
    var d := b - a;
    assert b == a + d;
  }

  lemma LaterInstantAgrees(l: Limits, m: Entries, last: Entries, now: Instant, later: Instant)
    requires AgreesWithLog(l, m, last, now) && now <= later
    ensures AgreesWithLog(l, m, last, later)
  {
    forall k | k in last && Age(later, last[k]) < l.ttl ensures Age(now, last[k]) < l.ttl {}
  }

  /** A key missing after a stamp is outnumbered: by the full set if this sweep evicted it, by
      the rivals it already had otherwise. */
  lemma MissingIsOutnumbered(l: Limits, m: Entries, last: Entries, key: string, now: Instant, m': Entries, k: string)
    requires AgreesWithLog(l, m, last, now) && Swept(l, m[key := now], now, m')
    requires k in last[key := now] && k !in m' && Age(now, last[key := now][k]) < l.ttl
    ensures |Rivals(last[key := now], k, last[key := now][k], false)| >= l.capacity
  {
    var last' := last[key := now];
    var rivals := Rivals(last', k, last'[k], false);
    if k in m[key := now] {
      assert Live(l, m[key := now], k, now);
      assert m'.Keys <= rivals;
      Monotone(m'.Keys, rivals);
    } else {
      Monotone(Rivals(last, k, last[k], false), rivals);
    }
  }

  lemma NewerIsKept(l: Limits, m: Entries, last: Entries, key: string, now: Instant, m': Entries, k: string, j: string)
    requires AgreesWithLog(l, m, last, now) && Swept(l, m[key := now], now, m')
    requires k in m' && j in last[key := now] && last[key := now][j] > m'[k] && Age(now, m'[k]) < l.ttl
    ensures j in m'
  {
    var m1 := m[key := now];
    assert k != key;
    assert j in m1 && m1[j] == last[key := now][j];
    assert Live(l, m1, j, now);
  }

  lemma StampAgrees(l: Limits, m: Entries, last: Entries, key: string, now: Instant, m': Entries)
    requires AgreesWithLog(l, m, last, now) && Swept(l, m[key := now], now, m')
    ensures AgreesWithLog(l, m', last[key := now], now)
  {
    var last' := last[key := now];
    forall k | k in last' && k !in m' && Age(now, last'[k]) < l.ttl
      ensures |Rivals(last', k, last'[k], false)| >= l.capacity
    {
      MissingIsOutnumbered(l, m, last, key, now, m', k);
    }
    forall k, j | k in m' && j in last' && last'[j] > m'[k] && Age(now, m'[k]) < l.ttl
      ensures j in m'
    {
      NewerIsKept(l, m, last, key, now, m', k, j);
    }
  }

  lemma {:induction false} RunAgreesWithLog(l: Limits, ops: seq<Op>, m: Entries, now: Instant)
    requires RunsTo(l, ops, m) && InTimeOrder(ops, now)
    ensures AgreesWithLog(l, m, LastStamps(ops), now)
  {
    if ops != [] {
      var n := |ops| - 1;
      var op := ops[n];
      var m0 :| RunsTo(l, AllButLast(ops), m0) && Step(l, m0, Last(ops), m);
      RunAgreesWithLog(l, ops[..n], m0, op.now);
      if Stamps(op) {
        StampAgrees(l, m0, LastStamps(ops[..n]), op.key, op.now, m);
      }
      LaterInstantAgrees(l, m, LastStamps(ops), op.now, now);
    }
  }

  /** Completeness with in-order instants: an unexpired key is missing only if at least `capacity`
      other keys were stamped at or after it, and it is certainly missing once that many were
      stamped strictly after it. Equal instants may go either way. */
  lemma PresenceIsDecidedByTheLog(l: Limits, ops: seq<Op>, m: Entries, key: string, now: Instant)
    requires RunsTo(l, ops, m) && InTimeOrder(ops, now)
    requires key in LastStamps(ops) && Age(now, LastStamps(ops)[key]) < l.ttl
    ensures var t := LastStamps(ops)[key];
            && (!Live(l, m, key, now) ==> |Rivals(LastStamps(ops), key, t, false)| >= l.capacity)
            && (Live(l, m, key, now) ==> |Rivals(LastStamps(ops), key, t, true)| < l.capacity)
  {
    var last := LastStamps(ops);
    RunAgreesWithLog(l, ops, m, now);
    EntriesAreLastStamps(l, ops, m);
    if Live(l, m, key, now) {
      var newer := Rivals(last, key, last[key], true);
      Monotone(newer + {key}, m.Keys);
    }
  }

  lemma NoTies(ops: seq<Op>, key: string)
    requires forall i, j :: 0 <= i < j < |ops| ==> ops[i].now < ops[j].now
    requires key in LastStamps(ops)
    ensures var last := LastStamps(ops); Rivals(last, key, last[key], true) == Rivals(last, key, last[key], false)
  {
    var last := LastStamps(ops);
    LastStampsAreInLog(ops, key);
    forall j | j in last && last[j] == last[key] ensures j == key {
      LastStampsAreInLog(ops, j);
    }
  }

  /** Without equal instants the log decides membership exactly. */
  lemma StrictTimesDecideExactly(l: Limits, ops: seq<Op>, m: Entries, key: string, now: Instant)
    requires RunsTo(l, ops, m) && InTimeOrder(ops, now)
    requires forall i, j :: 0 <= i < j < |ops| ==> ops[i].now < ops[j].now
    ensures Live(l, m, key, now) <==>
            && key in LastStamps(ops)
            && Age(now, LastStamps(ops)[key]) < l.ttl
            && |Rivals(LastStamps(ops), key, LastStamps(ops)[key], true)| < l.capacity
  {
    var last := LastStamps(ops);
    EntriesAreLastStamps(l, ops, m);
    if key in last && Age(now, last[key]) < l.ttl {
      PresenceIsDecidedByTheLog(l, ops, m, key, now);
      NoTies(ops, key);
    }
  }

  // ---------------------------------------------------------------- the class

  /** The mutex-held map. Each method is one critical section. */
  class TtlSet {
    const limits: Limits
    var entries: Entries
    ghost var history: seq<Op>

    /** The entries are what some execution of everything done so far leaves. */
    ghost predicate Valid()
      reads this
    {
      limits.capacity >= 1 && RunsTo(limits, history, entries)
    }

    constructor (ttl: nat, capacity: nat)
      ensures Valid() && history == [] && limits == NewLimits(ttl, capacity)
    {
      limits := NewLimits(ttl, capacity);
      entries := map[];
      history := [];
    }

    method InsertNew(key: string, now: Instant) returns (added: bool)
      requires Valid()
      modifies this
      ensures Valid() && history == old(history) + [Op.InsertNew(key, now, added)]
      ensures added <==> !Live(limits, old(entries), key, now)
      ensures !added ==> entries == old(entries)
      ensures added ==> Swept(limits, old(entries)[key := now], now, entries)
    {
      var live := key in entries && Age(now, entries[key]) < limits.ttl;
      added := !live;
      if added {
        entries := entries[key := now];
        Sweep(now);
      }
      history := history + [Op.InsertNew(key, now, added)];
      ExtendRun(old(history), old(entries), Op.InsertNew(key, now, added));
    }

    method Record(key: string, now: Instant)
      requires Valid()
      modifies this
      ensures Valid() && history == old(history) + [Op.Record(key, now)]
      ensures Swept(limits, old(entries)[key := now], now, entries)
    {
      entries := entries[key := now];
      Sweep(now);
      history := history + [Op.Record(key, now)];
      ExtendRun(old(history), old(entries), Op.Record(key, now));
    }

    method Contains(key: string, now: Instant) returns (present: bool)
      requires Valid()
      modifies this`history
      ensures Valid() && entries == old(entries)
      ensures history == old(history) + [Op.Contains(key, now, present)]
      ensures present <==> Live(limits, entries, key, now)
    {
      present := key in entries && Age(now, entries[key]) < limits.ttl;
      history := history + [Op.Contains(key, now, present)];
      ExtendRun(old(history), old(entries), Op.Contains(key, now, present));
    }

    lemma ExtendRun(before: seq<Op>, from: Entries, op: Op)
      requires RunsTo(limits, before, from) && Step(limits, from, op, entries)
      ensures RunsTo(limits, before + [op], entries)
    {
      assert AllButLast(before + [op]) == before;
    }

    /** Drop what has expired, then evict the oldest entry while the set is over capacity. */
    method Sweep(now: Instant)
      requires limits.capacity >= 1
      modifies this`entries
      ensures Swept(limits, old(entries), now, entries)
    {
      entries := map k | k in entries && Age(now, entries[k]) < limits.ttl :: entries[k];
      while |entries| > limits.capacity
        invariant forall k :: k in entries ==>
                    k in old(entries) && entries[k] == old(entries)[k] && Live(limits, old(entries), k, now)
        invariant forall k :: k in old(entries) && Live(limits, old(entries), k, now) && k !in entries ==>
                    |entries| >= limits.capacity && forall j :: j in entries ==> old(entries)[k] <= old(entries)[j]
      {
        var oldest := Oldest();
        entries := entries - {oldest};
      }
    }

    /** A minimal stamp; which of several equally old keys is found depends on iteration order. */
    method Oldest() returns (oldest: string)
      requires entries != map[]
      ensures oldest in entries && forall k :: k in entries ==> entries[oldest] <= entries[k]
    {
      var rest := entries.Keys;
      oldest :| oldest in rest;
      rest := rest - {oldest};
      while rest != {}
        invariant oldest in entries && rest <= entries.Keys
        invariant forall k :: k in entries && k !in rest ==> entries[oldest] <= entries[k]
        decreases |rest|
      {
        var k :| k in rest;
        if entries[k] < entries[oldest] {
          oldest := k;
        }
        rest := rest - {k};
      }
    }
  }

  // ---------------------------------------------------------------- sent ids

  /** Six hours, in milliseconds. */
  const SENT_ID_TTL: nat := 60 * 60 * 6 * 1000
  const SENT_ID_CAPACITY: nat := 10_000

  /** `src/sent_ids.rs`: the ids of the bot's own recent messages. */
  class SentIds {
    const inner: TtlSet

    ghost predicate Valid()
      reads this, inner
    {
      inner.Valid() && inner.limits == Limits(SENT_ID_TTL, SENT_ID_CAPACITY)
    }

    constructor ()
      ensures Valid() && fresh(inner) && inner.history == []
    {
      inner := new TtlSet(SENT_ID_TTL, SENT_ID_CAPACITY);
    }

    method Record(id: string, now: Instant)
      requires Valid()
      modifies inner
      ensures Valid()
      ensures inner.history == old(inner.history) + (if id == "" then [] else [Op.Record(id, now)])
    {
      if id != "" {
        inner.Record(id, now);
      }
    }

    /** Yes only for the id of a recorded send less than six hours old. */
    method IsReplyToBot(replyTo: Option<string>, now: Instant) returns (r: bool)
      requires Valid()
      modifies inner`history
      ensures Valid() && inner.entries == old(inner.entries)
      ensures r <==> replyTo.Some? && replyTo.value != "" && Live(inner.limits, inner.entries, replyTo.value, now)
      ensures r ==> exists i :: 0 <= i < |old(inner.history)| && Stamps(old(inner.history)[i])
                      && old(inner.history)[i].key == replyTo.value
                      && Age(now, old(inner.history)[i].now) < SENT_ID_TTL
    {
      match replyTo {
        case Some(id) =>
          if id != "" {
            r := inner.Contains(id, now);
            if r {
              ContainsIsSound(inner.limits, old(inner.history), inner.entries, id, now);
            }
          } else {
            r := false;
          }
        case None => r := false;
      }
    }
  }
}

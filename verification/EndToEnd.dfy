/** The worker's retry timing composed with the adapter's window: how many turns can one run of
    `process_file` start? Scheduling is ideal: an attempt lasts at most the client timeout, a request
    reaches the adapter during the attempt that sent it, and a wait lasts exactly its backoff. */
module EndToEnd {
  import opened Wrappers
  import opened Backoffs
  import opened Queues
  import opened Adapters

  /** The agent client's request timeout. */
  const REQUEST_TIMEOUT: nat := 120_000

  /** The longest a run can last: every attempt times out and every retry is used. */
  function Span(maxRetries: nat, base: nat): nat {
    (maxRetries + 1) * REQUEST_TIMEOUT + TotalBackoff(base, maxRetries)
  }

  predicate Timely(a: Attempt) {
    a.took <= REQUEST_TIMEOUT && (a.received.Some? ==> a.received.value <= a.took)
  }

  lemma {:induction false} StartBound(attempts: seq<Attempt>, base: nat, start: nat)
    requires forall a :: a in attempts ==> Timely(a)
    ensures start <= StartOf(attempts, base, start)
            <= start + |attempts| * REQUEST_TIMEOUT + TotalBackoff(base, |attempts|)
  {
    if attempts != [] {
      var n := |attempts| - 1;
      assert attempts[n] in attempts;
      StartBound(attempts[..n], base, start);
    }
  }

  lemma {:induction false} TotalBackoffGrows(base: nat, m: nat, n: nat)
    requires m <= n
    ensures TotalBackoff(base, m) <= TotalBackoff(base, n)
    decreases n
  {
    if m < n {
      TotalBackoffGrows(base, m, n - 1);
    }
  }

  lemma {:induction false} ArrivalsWithinSpan(attempts: seq<Attempt>, maxRetries: nat, base: nat, start: nat)
    requires |attempts| <= maxRetries + 1 && forall a :: a in attempts ==> Timely(a)
    ensures forall t :: t in Arrivals(attempts, base, start) ==> start <= t <= start + Span(maxRetries, base)
    decreases |attempts|
  {
    if attempts != [] {
      var n := |attempts| - 1;
      assert attempts[n] in attempts;
      ArrivalsWithinSpan(attempts[..n], maxRetries, base, start);
      StartBound(attempts[..n], base, start);
      TotalBackoffGrows(base, n, maxRetries);
      assert n * REQUEST_TIMEOUT + REQUEST_TIMEOUT <= (maxRetries + 1) * REQUEST_TIMEOUT;
    }
  }

  /** One run's requests at the adapter, from any adapter state and among any other traffic whose
      instants stay within the window. */
  ghost predicate Scenario(maxRetries: nat, base: nat, stamps: Stamps, posts: seq<Post>, id: string,
                           attempts: seq<Attempt>, start: nat) {
    && id != "" && |attempts| <= maxRetries + 1
    && (forall a :: a in attempts ==> Timely(a))
    && (forall p :: p in posts && p.id == id ==> p.now in Arrivals(attempts, base, start))
    && (forall p :: p in posts ==> p.now <= start + Span(maxRetries, base))
  }

  ghost predicate SingleTurn(maxRetries: nat, base: nat) {
    forall stamps, posts, id, attempts, start: nat | Scenario(maxRetries, base, stamps, posts, id, attempts, start)
      :: Turns(stamps, posts, id) <= 1
  }

  lemma ShortRunsAreSafe(maxRetries: nat, base: nat)
    requires Span(maxRetries, base) <= DEDUP_TTL
    ensures SingleTurn(maxRetries, base)
  {
    forall stamps, posts, id, attempts, start: nat | Scenario(maxRetries, base, stamps, posts, id, attempts, start)
      ensures Turns(stamps, posts, id) <= 1
    {
      ArrivalsWithinSpan(attempts, maxRetries, base, start);
      AtMostOneTurn(stamps, posts, id, start);
    }
  }

  /** All attempts but the last time out; only the first and the last reach the adapter, the first at
      once and the last just before it times out. */
  function WorstAttempts(n: nat): (r: seq<Attempt>)
    ensures |r| == n && forall a :: a in r ==> Timely(a)
    ensures forall k :: 0 <= k < n ==> r[k].took == REQUEST_TIMEOUT
  {
    if n == 0 then []
    else WorstAttempts(n - 1) + [Attempt(false, REQUEST_TIMEOUT, if n == 1 then Some(0) else None)]
  }

  lemma {:induction false} WorstTiming(n: nat, base: nat)
    ensures StartOf(WorstAttempts(n), base, 0) == n * REQUEST_TIMEOUT + TotalBackoff(base, n)
    ensures Arrivals(WorstAttempts(n), base, 0) == if n == 0 then [] else [0]
  {
    if n > 0 {
      WorstTiming(n - 1, base);
      assert WorstAttempts(n)[..n - 1] == WorstAttempts(n - 1);
    }
  }

  const LAST_ATTEMPT := Attempt(false, REQUEST_TIMEOUT, Some(REQUEST_TIMEOUT))

  lemma WorstArrivals(n: nat, base: nat)
    requires n > 0
    ensures Arrivals(WorstAttempts(n) + [LAST_ATTEMPT], base, 0) == [0, Span(n, base)]
  {
    var attempts := WorstAttempts(n) + [LAST_ATTEMPT];
    WorstTiming(n, base);
    assert attempts[..n] == WorstAttempts(n);
  }

  lemma LongRunsAreNot(maxRetries: nat, base: nat)
    requires Span(maxRetries, base) > DEDUP_TTL
    ensures !SingleTurn(maxRetries, base)
  {
    var span := Span(maxRetries, base);
    var attempts := WorstAttempts(maxRetries) + [LAST_ATTEMPT];
    var posts := [Post(Some("c"), false, false, "i", 0), Post(Some("c"), false, false, "i", span)];
    assert maxRetries > 0;
    WorstArrivals(maxRetries, base);
    var arrivals := Arrivals(attempts, base, 0);
    assert arrivals[0] in arrivals && arrivals[1] in arrivals;
    TwoTurnsWhenApart("i", "c", 0, span);
    assert Scenario(maxRetries, base, map[], posts, "i", attempts, 0);
  }

  /** One run never starts a second turn, whatever acks are lost, exactly when its longest duration
      fits the adapter's window. */
  lemma SingleTurnIffSpanFits(maxRetries: nat, base: nat)
    ensures SingleTurn(maxRetries, base) <==> Span(maxRetries, base) <= DEDUP_TTL
  {
    if Span(maxRetries, base) <= DEDUP_TTL {
      ShortRunsAreSafe(maxRetries, base);
    } else {
      LongRunsAreNot(maxRetries, base);
    }
  }

  /** The default settings, 5 retries from one second, fit with 149 seconds to spare; one more
      retry would not. */
  lemma DefaultsFit()
    ensures Span(5, 1000) == 751_000 && SingleTurn(5, 1000)
    ensures Span(6, 1000) == 903_000 && !SingleTurn(6, 1000)
  {
    assert TotalBackoff(1000, 5) == 31_000 by {
      DelaysFromOneSecond();
    }
    assert TotalBackoff(1000, 6) == 63_000 by {
      DelaysFromOneSecond();
    }
    SingleTurnIffSpanFits(5, 1000);
    SingleTurnIffSpanFits(6, 1000);
  }

  lemma DelaysFromOneSecond()
    ensures TotalBackoff(1000, 5) == 31_000 && TotalBackoff(1000, 6) == 63_000
  {
    BackoffIsExact(1000, 0);
    BackoffIsExact(1000, 1);
    BackoffIsExact(1000, 2);
    BackoffIsExact(1000, 3);
    BackoffIsExact(1000, 4);
    BackoffIsExact(1000, 5);
    assert Pow2(0) == 1 && Pow2(1) == 2 && Pow2(2) == 4;
    assert Pow2(3) == 8 && Pow2(4) == 16 && Pow2(5) == 32;
    assert TotalBackoff(1000, 2) == 3_000;
    assert TotalBackoff(1000, 4) == 15_000;
  }
}

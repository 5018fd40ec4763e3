/** `deploy/hermes-adapter/adapter.py`, turns and sessions: per-session locks and the crash-safe
    session file, as a state machine over the steps of the turn threads. */
module Sessions {
  import opened Wrappers

  type SessionMap = map<string, string>

  /** An update whose replace completed. `blind`: its load met an OSError, which reads as no sessions. */
  datatype Update = Update(key: string, session: string, blind: bool)

  /** `Torn` is what an interrupted write leaves; it does not parse. */
  datatype File = Torn | Whole(sessions: SessionMap)

  /** Where a turn thread stands. `lock` is the identity of the lock object it got for its key. */
  datatype Phase =
    | Arrived
    | HasLock(lock: nat)
    | InTurn(lock: nat)
    | Storing(lock: nat, session: string)
    | Loaded(lock: nat, session: string, blind: bool, updated: SessionMap)
    | TmpOpen(lock: nat, session: string, blind: bool, updated: SessionMap)
    | TmpWritten(lock: nat, session: string, blind: bool, updated: SessionMap)
    | Replaced(lock: nat)
    | Leaving(lock: nat)
    | Done

  datatype Thread = Thread(key: string, phase: Phase)

  datatype State = State(
    up: bool,
    threads: seq<Thread>,
    locks: map<string, nat>,       // _session_locks: key -> lock object
    nextLock: nat,                 // identity of the next lock object to be created
    owners: map<nat, nat>,         // held session lock -> thread
    fileLock: Option<nat>,         // holder of _sessions_lock
    file: Option<File>,            // SESSIONS_FILE
    tmp: Option<File>,             // SESSIONS_FILE + ".tmp"
    finished: seq<Update>)         // updates whose replace completed, in order

  datatype Step =
    | Spawn(key: string) | TakeLock(i: nat) | Acquire(i: nat) | EndTurn(i: nat)
    | Produce(i: nat, session: string) | Load(i: nat) | LoadFails(i: nat) | OpenTmp(i: nat) | WriteTmp(i: nat)
    | Replace(i: nat) | FailStore(i: nat) | Unlock(i: nat) | Release(i: nat)
    | Crash | Restart

  function Init(): State {
    State(true, [], map[], 0, map[], None, None, None, [])
  }

  /** `_load_sessions` when the file can be opened or is missing; an unparseable one, and any other error, reads
      as no sessions at all. */
  function LoadSessions(file: Option<File>): SessionMap {
    if file.Some? && file.value.Whole? then file.value.sessions else map[]
  }

  /** `get_session`; `blind` when opening the file fails. */
  function GetSession(s: State, key: string, blind: bool): Option<string> {
    var m := if blind then map[] else LoadSessions(s.file);
    if key in m then Some(m[key]) else None
  }

  predicate Storage(p: Phase) {
    p.Loaded? || p.TmpOpen? || p.TmpWritten?
  }

  predicate Enabled(s: State, step: Step) {
    match step
    case Spawn(_) => s.up
    case Crash => s.up
    case Restart => !s.up
    case TakeLock(i) => i < |s.threads| && s.threads[i].phase.Arrived?
    case Acquire(i) => i < |s.threads| && s.threads[i].phase.HasLock? && s.threads[i].phase.lock !in s.owners
    case EndTurn(i) => i < |s.threads| && s.threads[i].phase.InTurn?
    case Produce(i, _) => i < |s.threads| && s.threads[i].phase.InTurn?
    case Load(i) => i < |s.threads| && s.threads[i].phase.Storing? && s.fileLock.None?
    case LoadFails(i) => i < |s.threads| && s.threads[i].phase.Storing? && s.fileLock.None?
    case OpenTmp(i) => i < |s.threads| && s.threads[i].phase.Loaded?
    case WriteTmp(i) => i < |s.threads| && s.threads[i].phase.TmpOpen?
    case Replace(i) => i < |s.threads| && s.threads[i].phase.TmpWritten? && s.tmp.Some?
    case FailStore(i) => i < |s.threads| && Storage(s.threads[i].phase)
    case Unlock(i) => i < |s.threads| && s.threads[i].phase.Replaced?
    case Release(i) => i < |s.threads| && s.threads[i].phase.Leaving?
  }

  function To(s: State, i: nat, p: Phase): State
    requires i < |s.threads|
  {
    s.(threads := s.threads[i := s.threads[i].(phase := p)])
  }

  function Apply(s: State, step: Step): State
    requires Enabled(s, step)
  {
    match step
    case Spawn(key) => s.(threads := s.threads + [Thread(key, Arrived)])
    // setdefault: a lock object is created every time, and kept only if the key has none
    case TakeLock(i) =>
      var key := s.threads[i].key;
      var locks := if key in s.locks then s.locks else s.locks[key := s.nextLock];
      To(s, i, HasLock(locks[key])).(locks := locks, nextLock := s.nextLock + 1)
    case Acquire(i) =>
      var lock := s.threads[i].phase.lock;
      To(s, i, InTurn(lock)).(owners := s.owners[lock := i])
    case EndTurn(i) => To(s, i, Leaving(s.threads[i].phase.lock))
    case Produce(i, session) => To(s, i, Storing(s.threads[i].phase.lock, session))
    case Load(i) =>
      var p := s.threads[i].phase;
      var sessions := LoadSessions(s.file)[s.threads[i].key := p.session];
      To(s, i, Loaded(p.lock, p.session, false, sessions)).(fileLock := Some(i))
    case LoadFails(i) =>
      var p := s.threads[i].phase;
      To(s, i, Loaded(p.lock, p.session, true, map[s.threads[i].key := p.session])).(fileLock := Some(i))
    case OpenTmp(i) =>
      var p := s.threads[i].phase;
      To(s, i, TmpOpen(p.lock, p.session, p.blind, p.updated)).(tmp := Some(Torn))
    case WriteTmp(i) =>
      var p := s.threads[i].phase;
      To(s, i, TmpWritten(p.lock, p.session, p.blind, p.updated)).(tmp := Some(Whole(p.updated)))
    case Replace(i) =>
      var p := s.threads[i].phase;
      To(s, i, Replaced(p.lock)).(file := s.tmp, tmp := None,
                                  finished := s.finished + [Update(s.threads[i].key, p.session, p.blind)])
    // an exception leaves both `with` blocks
    case FailStore(i) => To(s, i, Leaving(s.threads[i].phase.lock)).(fileLock := None)
    case Unlock(i) => To(s, i, Leaving(s.threads[i].phase.lock)).(fileLock := None)
    case Release(i) => To(s, i, Done).(owners := s.owners - {s.threads[i].phase.lock})
    case Crash => s.(up := false, threads := [], locks := map[], owners := map[], fileLock := None)
    case Restart => s.(up := true)
  }

  /** What is left of the updates when each blind one forgets those before it. */
  function Remembered(updates: seq<Update>): SessionMap {
    if updates == [] then map[] else Updated(Remembered(updates[..|updates| - 1]), updates[|updates| - 1])
  }

  /** What one more update makes of what the file holds. */
  function Updated(sessions: SessionMap, u: Update): SessionMap {
    (if u.blind then map[] else sessions)[u.key := u.session]
  }

  lemma RememberedGrows(updates: seq<Update>, u: Update)
    ensures Remembered(updates + [u]) == Updated(Remembered(updates), u)
  {
    assert (updates + [u])[..|updates|] == updates;
  }

  /** The thread is between acquiring and releasing its session lock. */
  predicate Holds(t: Thread) {
    !t.phase.Arrived? && !t.phase.HasLock? && !t.phase.Done?
  }

  predicate OwnsFile(t: Thread) {
    Storage(t.phase) || t.phase.Replaced?
  }

  ghost predicate LocksOk(s: State) {
    && (forall i :: 0 <= i < |s.threads| && (s.threads[i].phase.HasLock? || Holds(s.threads[i])) ==>
          s.threads[i].key in s.locks && s.locks[s.threads[i].key] == s.threads[i].phase.lock)
    && (forall i :: 0 <= i < |s.threads| && Holds(s.threads[i]) ==>
          s.threads[i].phase.lock in s.owners && s.owners[s.threads[i].phase.lock] == i)
  }

  function UpdateOf(t: Thread): Update
    requires Storage(t.phase)
  {
    Update(t.key, t.phase.session, t.phase.blind)
  }

  ghost predicate FileOk(s: State) {
    && s.file == (if s.finished == [] then None else Some(Whole(Remembered(s.finished))))
    && (forall i :: 0 <= i < |s.threads| && OwnsFile(s.threads[i]) ==> s.fileLock == Some(i))
    && (forall i :: 0 <= i < |s.threads| && Storage(s.threads[i].phase) ==>
          s.threads[i].phase.updated == Updated(Remembered(s.finished), UpdateOf(s.threads[i])))
    && (forall i :: 0 <= i < |s.threads| && s.threads[i].phase.TmpWritten? ==>
          s.tmp == Some(Whole(s.threads[i].phase.updated)))
  }

  lemma TakeLockStep(s: State, i: nat)
    requires LocksOk(s) && Enabled(s, TakeLock(i))
    ensures LocksOk(Apply(s, TakeLock(i)))
  {
    var s' := Apply(s, TakeLock(i));
    assert forall j :: 0 <= j < |s.threads| && j != i ==> s'.threads[j] == s.threads[j];
    assert forall key :: key in s.locks ==> key in s'.locks && s'.locks[key] == s.locks[key];
  }

  /** Acquiring a lock object that nobody owns. */
  lemma AcquireStep(s: State, i: nat)
    requires LocksOk(s) && Enabled(s, Acquire(i))
    ensures LocksOk(Apply(s, Acquire(i)))
  {
    var s' := Apply(s, Acquire(i));
    assert forall j :: 0 <= j < |s.threads| && j != i ==> s'.threads[j] == s.threads[j];
  }

  lemma ReleaseStep(s: State, i: nat)
    requires LocksOk(s) && Enabled(s, Release(i))
    ensures LocksOk(Apply(s, Release(i)))
  {
    var s' := Apply(s, Release(i));
    assert forall j :: 0 <= j < |s.threads| && j != i ==> s'.threads[j] == s.threads[j];
  }

  lemma LocksStep(s: State, step: Step)
    requires LocksOk(s) && Enabled(s, step)
    ensures LocksOk(Apply(s, step))
  {
    match step
    case TakeLock(i) => TakeLockStep(s, i);
    case Acquire(i) => AcquireStep(s, i);
    case Release(i) => ReleaseStep(s, i);
    case _ => OtherLocksStep(s, step);
  }

  /** No lock changes hands: the thread, if any, stays on its side of its lock. */
  lemma OtherLocksStep(s: State, step: Step)
    requires LocksOk(s) && Enabled(s, step) && !step.TakeLock? && !step.Acquire? && !step.Release?
    ensures LocksOk(Apply(s, step))
  {
    var s' := Apply(s, step);
    if !step.Crash? {
      assert s'.locks == s.locks && s'.owners == s.owners;
      forall j | 0 <= j < |s'.threads| && (s'.threads[j].phase.HasLock? || Holds(s'.threads[j]))
        ensures j < |s.threads| && s'.threads[j].key == s.threads[j].key
                && s'.threads[j].phase.lock == s.threads[j].phase.lock
                && (s.threads[j].phase.HasLock? || Holds(s.threads[j]))
                && (Holds(s'.threads[j]) ==> Holds(s.threads[j]))
      {
        LockIsKept(s, step, j);
      }
    }
  }

  lemma LockIsKept(s: State, step: Step, j: nat)
    requires Enabled(s, step) && !step.TakeLock? && !step.Acquire? && !step.Release? && !step.Crash?
    requires j < |Apply(s, step).threads|
    requires var t := Apply(s, step).threads[j]; t.phase.HasLock? || Holds(t)
    ensures var t' := Apply(s, step).threads[j];
            j < |s.threads| && t'.key == s.threads[j].key
            && (s.threads[j].phase.HasLock? || Holds(s.threads[j])) && (Holds(t') ==> Holds(s.threads[j]))
            && t'.phase.lock == s.threads[j].phase.lock
  {
  }

  lemma ReplaceStep(s: State, i: nat)
    requires FileOk(s) && Enabled(s, Replace(i))
    ensures FileOk(Apply(s, Replace(i)))
  {
    var t := s.threads[i];
    var s' := Apply(s, Replace(i));
    RememberedGrows(s.finished, UpdateOf(t));
    forall j | 0 <= j < |s'.threads| && OwnsFile(s'.threads[j]) ensures j == i {
      assert OwnsFile(s.threads[j]);
    }
  }

  lemma LoadStep(s: State, step: Step)
    requires step.Load? || step.LoadFails?
    requires FileOk(s) && Enabled(s, step)
    ensures FileOk(Apply(s, step))
  {
    var s' := Apply(s, step);
    assert forall j :: 0 <= j < |s.threads| && j != step.i ==> s'.threads[j] == s.threads[j] && !OwnsFile(s.threads[j]);
  }

  lemma StoreStep(s: State, step: Step)
    requires step.OpenTmp? || step.WriteTmp?
    requires FileOk(s) && Enabled(s, step)
    ensures FileOk(Apply(s, step))
  {
    var s' := Apply(s, step);
    assert forall j :: 0 <= j < |s.threads| && j != step.i ==> s'.threads[j] == s.threads[j];
    assert forall j :: 0 <= j < |s.threads| && OwnsFile(s.threads[j]) ==> j == step.i;
  }

  lemma FileStep(s: State, step: Step)
    requires FileOk(s) && Enabled(s, step)
    ensures FileOk(Apply(s, step))
  {
    if step.Replace? {
      ReplaceStep(s, step.i);
    } else if step.Load? || step.LoadFails? {
      LoadStep(s, step);
    } else if step.OpenTmp? || step.WriteTmp? {
      StoreStep(s, step);
    } else {
      OtherFileStep(s, step);
    }
  }

  lemma OtherFileStep(s: State, step: Step)
    requires FileOk(s) && Enabled(s, step)
    requires !step.Replace? && !step.Load? && !step.LoadFails? && !step.OpenTmp? && !step.WriteTmp?
    ensures FileOk(Apply(s, step))
  {
    var s' := Apply(s, step);
    assert s'.finished == s.finished && s'.file == s.file && s'.tmp == s.tmp;
    forall j | 0 <= j < |s'.threads| && OwnsFile(s'.threads[j])
      ensures j < |s.threads| && s'.threads[j] == s.threads[j] && (s.fileLock == Some(j) ==> s'.fileLock == Some(j))
    {
      OwnerWaits(s, step, j);
    }
  }

  /** A thread inside the storage lock does not move, and keeps that lock. */
  lemma OwnerWaits(s: State, step: Step, j: nat)
    requires Enabled(s, step) && j < |Apply(s, step).threads| && OwnsFile(Apply(s, step).threads[j])
    requires !step.Replace? && !step.Load? && !step.LoadFails? && !step.OpenTmp? && !step.WriteTmp?
    requires forall i :: 0 <= i < |s.threads| && OwnsFile(s.threads[i]) ==> s.fileLock == Some(i)
    ensures j < |s.threads| && Apply(s, step).threads[j] == s.threads[j]
    ensures s.fileLock == Some(j) ==> Apply(s, step).fileLock == Some(j)
  {
  }

  ghost predicate Run(states: seq<State>, steps: seq<Step>) {
    && |states| == |steps| + 1 && states[0] == Init()
    && forall k :: 0 <= k < |steps| ==> Enabled(states[k], steps[k]) && states[k + 1] == Apply(states[k], steps[k])
  }

  lemma {:induction false} RunInvariant(states: seq<State>, steps: seq<Step>, k: nat)
    requires Run(states, steps) && k < |states|
    ensures LocksOk(states[k]) && FileOk(states[k])
  {
    if k > 0 {
      RunInvariant(states, steps, k - 1);
      LocksStep(states[k - 1], steps[k - 1]);
      FileStep(states[k - 1], steps[k - 1]);
    }
  }

  /** Turns of one conversation never overlap, in any interleaving and across restarts. */
  lemma OneTurnPerSession(states: seq<State>, steps: seq<Step>, k: nat, i: nat, j: nat)
    requires Run(states, steps) && k < |states| && i < |states[k].threads| && j < |states[k].threads|
    requires Holds(states[k].threads[i]) && Holds(states[k].threads[j])
    requires states[k].threads[i].key == states[k].threads[j].key
    ensures i == j
  {
    RunInvariant(states, steps, k);
  }

  /** The lock of a key, once created, is the same object for as long as the process lives. */
  lemma {:induction false} LockIdentityIsStable(states: seq<State>, steps: seq<Step>, k: nat, m: nat, key: string)
    requires Run(states, steps) && k <= m < |states| && key in states[k].locks
    requires forall n :: k <= n < m ==> !steps[n].Crash?
    ensures key in states[m].locks && states[m].locks[key] == states[k].locks[key]
    decreases m - k
  {
    if k < m {
      LockIdentityIsStable(states, steps, k, m - 1, key);
    }
  }

  // ---------------------------------------------------------------- when an update is lost

  /** The sessions that updates add up to when nothing is forgotten. */
  function Fold(updates: seq<Update>): SessionMap {
    if updates == [] then map[]
    else
      var n := |updates| - 1;
      Fold(updates[..n])[updates[n].key := updates[n].session]
  }

  /** The position of the last blind update, or 0. */
  function LastBlind(updates: seq<Update>): (r: nat)
    ensures r < |updates| || r == 0
    ensures forall i :: r < i < |updates| ==> !updates[i].blind
    ensures r > 0 ==> updates[r].blind
  {
    if updates == [] then 0
    else
      var n := |updates| - 1;
      if updates[n].blind then n else LastBlind(updates[..n])
  }

  lemma LastBlindOfLonger(updates: seq<Update>)
    requires updates != []
    ensures var n := |updates| - 1;
            LastBlind(updates) == if updates[n].blind then n else LastBlind(updates[..n])
  {
  }

  /** What is remembered are the updates from the last blind one onward. */
  lemma {:induction false} RememberedIsFold(updates: seq<Update>)
    ensures Remembered(updates) == Fold(updates[LastBlind(updates)..])
  {
    if updates != [] {
      var n, from := |updates| - 1, LastBlind(updates);
      var kept := updates[from..];
      RememberedIsFold(updates[..n]);
      LastBlindOfLonger(updates);
      FoldOfLast(kept);
      if from == n {
        assert kept[..0] == [];
        OneUpdate(updates, n);
      } else {
        assert kept[..|kept| - 1] == updates[..n][from..];
      }
    }
  }

  lemma FoldOfLast(updates: seq<Update>)
    requires updates != []
    ensures var n := |updates| - 1; Fold(updates) == Fold(updates[..n])[updates[n].key := updates[n].session]
  {
  }

  lemma OneUpdate(updates: seq<Update>, n: nat)
    requires |updates| == n + 1 && LastBlind(updates) == n
    ensures Remembered(updates) == map[updates[n].key := updates[n].session]
  {
    if n == 0 {
      assert updates[..0] == [];
    }
  }

  /** At every moment, crashes included, the file is a complete one and holds exactly the finished updates from the
      last one whose load failed onward; that is what a reader sees who can open it. */
  lemma FileIsTheFoldOfFinishedUpdates(states: seq<State>, steps: seq<Step>, k: nat, key: string)
    requires Run(states, steps) && k < |states|
    ensures var s := states[k]; var sessions := Fold(s.finished[LastBlind(s.finished)..]);
            && LoadSessions(s.file) == sessions && s.file != Some(Torn)
            && GetSession(s, key, false) == (if key in sessions then Some(sessions[key]) else None)
  {
    FileInRuns(states, steps, k);
    RememberedIsFold(states[k].finished);
  }

  lemma FileInRuns(states: seq<State>, steps: seq<Step>, k: nat)
    requires Run(states, steps) && k < |states|
    ensures LoadSessions(states[k].file) == Remembered(states[k].finished) && states[k].file != Some(Torn)
  {
    RunInvariant(states, steps, k);
  }

  function KeysOf(updates: seq<Update>): set<string> {
    set u | u in updates :: u.key
  }

  lemma {:induction false} FoldKeys(updates: seq<Update>)
    ensures Fold(updates).Keys == KeysOf(updates)
  {
    if updates != [] {
      var n := |updates| - 1;
      FoldKeys(updates[..n]);
      assert updates == updates[..n] + [updates[n]];
    }
  }

  lemma {:induction false} FoldOfBoth(a: seq<Update>, b: seq<Update>)
    ensures Fold(a + b) == Fold(a) + Fold(b)
    decreases |b|
  {
    if b == [] {
      assert a + b == a && Fold(a) + map[] == Fold(a);
    } else {
      var n := |b| - 1;
      FoldOfBoth(a, b[..n]);
      assert (a + b)[..|a + b| - 1] == a + b[..n];
    }
  }

  /** Dropping the earlier updates changes nothing exactly when the later ones cover their keys. */
  lemma ForgettingShowsIff(a: seq<Update>, b: seq<Update>)
    ensures Fold(b) == Fold(a + b) <==> KeysOf(a) <= KeysOf(b)
  {
    FoldOfBoth(a, b);
    FoldKeys(a);
    FoldKeys(b);
    if Fold(b) == Fold(a) + Fold(b) {
      assert Fold(a).Keys <= (Fold(a) + Fold(b)).Keys;
    }
  }

  /** Exactly when is every finished update still in the file? When each key updated before the last blind update has
      been updated again since; in particular whenever no load failed. */
  lemma NothingIsForgottenIff(states: seq<State>, steps: seq<Step>, k: nat)
    requires Run(states, steps) && k < |states|
    ensures var all := states[k].finished; var from := LastBlind(all);
            && (LoadSessions(states[k].file) == Fold(all) <==> KeysOf(all[..from]) <= KeysOf(all[from..]))
            && ((forall u :: u in all ==> !u.blind) ==> LoadSessions(states[k].file) == Fold(all))
  {
    var all := states[k].finished;
    var from := LastBlind(all);
    FileInRuns(states, steps, k);
    RememberedIsFold(all);
    ForgettingShowsIff(all[..from], all[from..]);
    assert all == all[..from] + all[from..];
    if from > 0 {
      assert all[from] in all;
    }
  }

  // ---------------------------------------------------------------- and it can happen

  ghost predicate EndsIn(states: seq<State>, steps: seq<Step>, s: State) {
    Run(states, steps) && states[|steps|] == s
  }

  ghost predicate Reachable(s: State) {
    exists states, steps :: EndsIn(states, steps, s)
  }

  lemma Go(s: State, step: Step) returns (s': State)
    requires Reachable(s) && Enabled(s, step)
    ensures s' == Apply(s, step) && Reachable(s')
  {
    s' := Apply(s, step);
    var states, steps :| EndsIn(states, steps, s);
    var states', steps' := states + [s'], steps + [step];
    forall k | 0 <= k < |steps'|
      ensures Enabled(states'[k], steps'[k]) && states'[k + 1] == Apply(states'[k], steps'[k])
    {
      if k < |steps| {
        assert steps'[k] == steps[k] && states'[k] == states[k] && states'[k + 1] == states[k + 1];
      }
    }
    assert EndsIn(states', steps', s');
  }

  /** Between turns. */
  ghost predicate Resting(s: State, finished: seq<Update>) {
    Reachable(s) && s.up && s.owners == map[] && s.fileLock == None && s.finished == finished
  }

  /** The last thread has come this far, alone. */
  ghost predicate AtWork(s: State, key: string, p: Phase, owners: map<nat, nat>, fileLock: Option<nat>,
                         finished: seq<Update>)
  {
    && Reachable(s) && s.up && s.threads != [] && s.threads[|s.threads| - 1] == Thread(key, p)
    && s.owners == owners && s.fileLock == fileLock && s.finished == finished
  }

  lemma TurnBegins(s: State, finished: seq<Update>, key: string) returns (s': State, i: nat, lock: nat)
    requires Resting(s, finished)
    ensures AtWork(s', key, InTurn(lock), map[lock := i], None, finished) && i == |s'.threads| - 1
  {
    i := |s.threads|;
    s' := Go(s, Spawn(key));
    s' := Go(s', TakeLock(i));
    lock := s'.threads[i].phase.lock;
    s' := Go(s', Acquire(i));
  }

  lemma TurnStores(s: State, finished: seq<Update>, u: Update, i: nat, lock: nat) returns (s': State)
    requires AtWork(s, u.key, InTurn(lock), map[lock := i], None, finished) && i == |s.threads| - 1
    ensures AtWork(s', u.key, Replaced(lock), map[lock := i], Some(i), finished + [u]) && i == |s'.threads| - 1
  {
    s' := Go(s, Produce(i, u.session));
    s' := Go(s', if u.blind then LoadFails(i) else Load(i));
    assert s'.threads[i].phase.blind == u.blind && s'.threads[i].phase.session == u.session;
    s' := Go(s', OpenTmp(i));
    s' := Go(s', WriteTmp(i));
    s' := Go(s', Replace(i));
  }

  lemma TurnEnds(s: State, finished: seq<Update>, key: string, i: nat, lock: nat) returns (s': State)
    requires AtWork(s, key, Replaced(lock), map[lock := i], Some(i), finished) && i == |s.threads| - 1
    ensures Resting(s', finished)
  {
    s' := Go(s, Unlock(i));
    s' := Go(s', Release(i));
  }

  /** Every history of updates can happen, loads failing at any of them. */
  lemma {:induction false} AnyHistoryCanHappen(updates: seq<Update>) returns (s: State)
    ensures Resting(s, updates)
    decreases |updates|
  {
    if updates == [] {
      s := Init();
      assert EndsIn([s], [], s);
    } else {
      var n := |updates| - 1;
      var u := updates[n];
      s := AnyHistoryCanHappen(updates[..n]);
      var i, lock;
      s, i, lock := TurnBegins(s, updates[..n], u.key);
      s := TurnStores(s, updates[..n], u, i, lock);
      assert updates[..n] + [u] == updates;
      s := TurnEnds(s, updates, u.key, i, lock);
    }
  }

  /** So one failed load makes the adapter forget the sessions of all other conversations, although their updates
      had finished. */
  lemma SessionsCanBeForgotten(a: string, x: string, b: string, y: string) returns (s: State)
    requires a != b
    ensures Resting(s, [Update(a, x, false), Update(b, y, true)])
    ensures LoadSessions(s.file) == map[b := y] && GetSession(s, a, false) == None
  {
    var updates := [Update(a, x, false), Update(b, y, true)];
    s := AnyHistoryCanHappen(updates);
    var states, steps :| EndsIn(states, steps, s);
    FileInRuns(states, steps, |steps|);
    assert Remembered(updates) == Updated(Remembered(updates[..1]), updates[1]);
  }
}

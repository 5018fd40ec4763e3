/** The on-disk forward queue of `src/forward.rs`, as one directory of named files plus `dead/`. */
module Queues {
  import opened Wrappers
  import opened Text
  import opened Encodings
  import opened InboundModel
  import opened Transcription
  import opened Backoffs

  // ---------------------------------------------------------------- names

  function FileName(id: string): string {
    Hex(Utf8(id)) + ".json"
  }

  function TmpName(id: string): string {
    Hex(Utf8(id)) + ".json.tmp"
  }

  /** `Path::extension`: what follows the last dot, unless that dot starts the name. */
  function Extension(name: string): Option<string> {
    var i := AfterLast(name, '.');
    if i <= 1 then None else Some(name[i..])
  }

  predicate IsJson(name: string) {
    Extension(name) == Some("json")
  }

  predicate IsTmp(name: string) {
    Extension(name) == Some("tmp")
  }

  lemma StemsDiffer(a: string, b: string, suffix: string)
    requires Hex(Utf8(a)) + suffix == Hex(Utf8(b)) + suffix
    ensures a == b
  {
    var x, y := Hex(Utf8(a)), Hex(Utf8(b));
    assert |x| == |y|;
    assert x == (x + suffix)[..|x|] == (y + suffix)[..|y|] == y;
    UnhexOfHex(Utf8(a));
    UnhexOfHex(Utf8(b));
    Utf8Injective(a, b);
  }

  lemma ExtensionAfter(stem: string, ext: string)
    requires stem != "" && '.' !in ext
    ensures Extension(stem + "." + ext) == Some(ext)
  {
    RSplitOnceCuts(stem, '.', ext);
    var i := AfterLast(stem + "." + ext, '.');
    assert (stem + "." + ext)[..i - 1] == stem;
  }

  lemma NamesAreFaithful(a: string, b: string)
    ensures FileName(a) == FileName(b) ==> a == b
    ensures TmpName(a) == TmpName(b) ==> a == b
    ensures IsTmp(TmpName(a)) && !IsJson(TmpName(a))
    ensures a != "" ==> IsJson(FileName(a)) && !IsTmp(FileName(a))
    ensures !IsTmp(FileName(a)) && FileName(a) != TmpName(b)
  {
    if FileName(a) == FileName(b) {
      StemsDiffer(a, b, ".json");
    }
    if TmpName(a) == TmpName(b) {
      StemsDiffer(a, b, ".json.tmp");
    }
    JsonExtension(a);
    TmpExtension(a);
    TmpExtension(b);
  }

  lemma JsonExtension(id: string)
    ensures Extension(FileName(id)) == if id == "" then None else Some("json")
  {
    var stem := Hex(Utf8(id));
    if id == "" {
      assert FileName("") == "" + "." + "json";
      RSplitOnceCuts("", '.', "json");
    } else {
      ExtensionAfter(stem, "json");
      assert FileName(id) == stem + "." + "json";
    }
  }

  lemma TmpExtension(id: string)
    ensures Extension(TmpName(id)) == Some("tmp")
  {
    var stem := Hex(Utf8(id)) + ".json";
    ExtensionAfter(stem, "tmp");
    assert TmpName(id) == stem + "." + "tmp";
  }

  // ---------------------------------------------------------------- the directory

  /** A file is the complete serialisation of a record, which parses back to it, or a partial write,
      which does not parse. */
  datatype File = Partial | Complete(record: Inbound)

  type Dir = map<string, File>

  function Create(dir: Dir, tmp: string): Dir {
    dir[tmp := Partial]
  }

  function WriteAll(dir: Dir, tmp: string, m: Inbound): Dir {
    dir[tmp := Complete(m)]
  }

  /** The atomic rename of a file onto another name, which may exist. */
  function Rename(dir: Dir, from: string, to: string): Dir
    requires from in dir && from != to
  {
    dir[to := dir[from]] - {from}
  }

  /** What opening the queue leaves: every temporary file is removed, except those in `stuck`, whose
      removal failed. */
  function Reaped(dir: Dir, isTmp: string -> bool, stuck: set<string>): Dir {
    map n | n in dir && (!isTmp(n) || n in stuck) :: dir[n]
  }

  function FinalNames(dir: Dir, isJson: string -> bool): set<string> {
    set n | n in dir && isJson(n)
  }

  /** How ids become file names and how the names are told apart. The protocol is proved for every
      faithful naming. */
  datatype Naming = Naming(file: string -> string, tmp: string -> string, isJson: string -> bool, isTmp: string -> bool)

  ghost predicate Faithful(n: Naming) {
    && (forall a, b {:trigger n.file(a), n.file(b)} :: n.file(a) == n.file(b) ==> a == b)
    && (forall a, b {:trigger n.tmp(a), n.tmp(b)} :: n.tmp(a) == n.tmp(b) ==> a == b)
    && (forall a, b {:trigger n.file(a), n.tmp(b)} :: n.file(a) != n.tmp(b))
    && (forall a {:trigger n.tmp(a)} :: n.isTmp(n.tmp(a)) && !n.isJson(n.tmp(a)))
    && (forall a {:trigger n.file(a)} :: !n.isTmp(n.file(a)) && (a != "" ==> n.isJson(n.file(a))))
  }

  const HEX_NAMING := Naming(FileName, TmpName, IsJson, IsTmp)

  /** Distinct ids own distinct files; a temporary name is never a final one; thanks to the
      non-empty id, the drain's extension test sees every final name, and the reaper's sees exactly
      the temporary ones. */
  lemma HexNamingIsFaithful()
    ensures Faithful(HEX_NAMING)
  {
    var n := HEX_NAMING;
    forall a, b ensures n.file(a) == n.file(b) ==> a == b { NamesAreFaithful(a, b); }
    forall a, b ensures n.tmp(a) == n.tmp(b) ==> a == b { NamesAreFaithful(a, b); }
    forall a, b ensures n.file(a) != n.tmp(b) { NamesAreFaithful(a, b); }
    forall a ensures n.isTmp(n.tmp(a)) && !n.isJson(n.tmp(a)) { NamesAreFaithful(a, a); }
    forall a ensures !n.isTmp(n.file(a)) && (a != "" ==> n.isJson(n.file(a))) { NamesAreFaithful(a, a); }
  }

  datatype Fault = NoFault | CreateFails | WriteFails | RenameFails

  /** Attempt to forward: whether the agent answered 2xx, how long that took, and how far into the
      attempt the agent received the request, if it did. */
  datatype Attempt = Attempt(ok: bool, took: nat, received: Option<nat>)

  datatype Outcome = Gone | Malformed | Delivered | Exhausted | LeftPending

  class ForwardQueue {
    var pending: Dir
    var dead: Dir
    var notified: bool

    /** `enqueue`. A failing step leaves at most the temporary file behind, and wakes nobody. */
    method Enqueue(m: Inbound, fault: Fault) returns (ok: bool)
      modifies this
      ensures ok <==> fault == NoFault
      ensures dead == old(dead)
      ensures fault == NoFault ==> notified && pending == old(pending)[FileName(m.id) := Complete(m)] - {TmpName(m.id)}
      ensures fault != NoFault ==>
                notified == old(notified) && FinalNames(pending, IsJson) == FinalNames(old(pending), IsJson)
      ensures fault != NoFault ==> pending - {TmpName(m.id)} == old(pending) - {TmpName(m.id)}
    {
      NamesAreFaithful(m.id, m.id);
      if fault == CreateFails {
        return false;
      }
      pending := Create(pending, TmpName(m.id));
      if fault == WriteFails {
        return false;
      }
      pending := WriteAll(pending, TmpName(m.id), m);
      if fault == RenameFails {
        return false;
      }
      pending := Rename(pending, TmpName(m.id), FileName(m.id));
      notified := true;
      return true;
    }

    /** `reap_tmp_files`, with the set of removals that fail. */
    method ReapTmpFiles(stuck: set<string>)
      modifies this`pending
      ensures pending == Reaped(old(pending), IsTmp, stuck)
      ensures forall n :: n in pending <==> n in old(pending) && (IsTmp(n) ==> n in stuck)
      ensures forall n :: n in pending ==> pending[n] == old(pending)[n]
      ensures FinalNames(pending, IsJson) == FinalNames(old(pending), IsJson)
    {
      var entries := pending.Keys;
      while entries != {}
        invariant entries <= old(pending).Keys
        invariant forall n :: n in pending <==>
                    n in old(pending) && (n in entries || !IsTmp(n) || n in stuck)
        invariant forall n :: n in pending ==> pending[n] == old(pending)[n]
        decreases |entries|
      {
        var n :| n in entries;
        entries := entries - {n};
        if IsTmp(n) && n !in stuck {
          pending := pending - {n};
        }
      }
    }

    /** `move_to_dead`. The rename fails when the file is gone, and otherwise as `fails` says; then everything
        stays where it is. */
    method MoveToDead(name: string, fails: bool) returns (moved: bool)
      modifies this`pending, this`dead
      ensures moved <==> name in old(pending) && !fails
      ensures moved ==> pending == old(pending) - {name} && dead == old(dead)[name := old(pending)[name]]
      ensures !moved ==> pending == old(pending) && dead == old(dead)
    {
      moved := name in pending && !fails;
      if moved {
        dead := dead[name := pending[name]];
        pending := pending - {name};
      }
    }

    /** `process_file` when nothing else touches the directory meanwhile. `fails` is the fate of its
        last file operation. */
    method ProcessFile(name: string, clips: seq<Clip>, maxBytes: nat, maxRetries: nat, base: nat, start: nat,
                       attempts: seq<Attempt>, cancelled: seq<bool>, fails: bool)
        returns (outcome: Outcome, sent: seq<Inbound>, arrivals: seq<nat>)
      requires |attempts| == |cancelled| == maxRetries + 1
      requires name in pending && pending[name].Complete? ==> |clips| == |AudioItems(pending[name].record.media)|
      modifies this`pending, this`dead
      ensures outcome == Gone <==> name !in old(pending)
      ensures outcome == Malformed <==> name in old(pending) && old(pending)[name].Partial?
      ensures sent == [] <==> outcome == Gone || outcome == Malformed
      ensures |sent| <= maxRetries + 1 && arrivals == Arrivals(attempts[..|sent|], base, start)
      ensures sent != [] ==> FateOf(outcome, |sent|, attempts, cancelled)
      ensures forall m :: m in sent ==> m == Folded(old(pending)[name].record, Blocks(clips, maxBytes))
      ensures var gone := !fails && (outcome == Delivered || outcome == Exhausted || outcome == Malformed);
              pending == if gone then old(pending) - {name} else old(pending)
      ensures dead == if !fails && (outcome == Exhausted || outcome == Malformed)
                      then old(dead)[name := old(pending)[name]] else old(dead)
    {
      sent, arrivals := [], [];
      if name !in pending {
        return Gone, sent, arrivals;
      }
      if pending[name].Partial? {
        var _ := MoveToDead(name, fails);
        return Malformed, sent, arrivals;
      }
      var inbound := TranscribeAudio(pending[name].record, clips, maxBytes);
      outcome, sent, arrivals := Retry(inbound, maxRetries, base, start, attempts, cancelled);
      if outcome == Delivered && !fails {
        pending := pending - {name};
      }
      if outcome == Exhausted {
        var _ := MoveToDead(name, fails);
      }
    }
  }

  lemma OneMoreAttempt(attempts: seq<Attempt>, k: nat, base: nat, start: nat)
    requires k < |attempts|
    ensures var at := StartOf(attempts[..k], base, start);
            && StartOf(attempts[..k + 1], base, start) == at + attempts[k].took + BackoffFor(base, k)
            && Arrivals(attempts[..k + 1], base, start) == Arrivals(attempts[..k], base, start)
               + if attempts[k].received.Some? then [at + attempts[k].received.value] else []
  {
    assert attempts[..k + 1][..k] == attempts[..k];
  }

  /** The retry loop, with the fate of every attempt (`attempts`) and of every wait (`cancelled`)
      given. `arrivals` are the instants at which the agent received a request. */
  method Retry(inbound: Inbound, maxRetries: nat, base: nat, start: nat, attempts: seq<Attempt>, cancelled: seq<bool>)
      returns (outcome: Outcome, sent: seq<Inbound>, arrivals: seq<nat>)
    requires |attempts| == |cancelled| == maxRetries + 1
    ensures 0 < |sent| <= maxRetries + 1 && FateOf(outcome, |sent|, attempts, cancelled)
    ensures arrivals == Arrivals(attempts[..|sent|], base, start)
    ensures forall m :: m in sent ==> m == inbound
  {
    sent, arrivals := [], [];
    var attempt, clock := 0, start;
    while true
      invariant attempt <= maxRetries && |sent| == attempt
      invariant forall m :: m in sent ==> m == inbound
      invariant WentOn(attempts, cancelled, attempt)
      invariant clock == StartOf(attempts[..attempt], base, start)
      invariant arrivals == Arrivals(attempts[..attempt], base, start)
      decreases maxRetries - attempt
    {
      var a := attempts[attempt];
      OneMoreAttempt(attempts, attempt, base, start);
      sent := sent + [inbound];
      if a.received.Some? {
        arrivals := arrivals + [clock + a.received.value];
      }
      if a.ok {
        return Delivered, sent, arrivals;
      }
      if attempt >= maxRetries {
        return Exhausted, sent, arrivals;
      }
      WentOnOnce(attempts, cancelled, attempt);
      clock := clock + a.took + BackoffFor(base, attempt);
      attempt := attempt + 1;
      if cancelled[attempt - 1] {
        return LeftPending, sent, arrivals;
      }
    }
  }

  /** The first `n` attempts failed, and the waits after them were not cut short. */
  predicate WentOn(attempts: seq<Attempt>, cancelled: seq<bool>, n: nat)
    requires |attempts| == |cancelled| && n <= |attempts|
  {
    forall k :: 0 <= k < n ==> !attempts[k].ok && !cancelled[k]
  }

  lemma WentOnOnce(attempts: seq<Attempt>, cancelled: seq<bool>, n: nat)
    requires |attempts| == |cancelled| && n < |attempts| && WentOn(attempts, cancelled, n)
    ensures WentOn(attempts, cancelled, n + 1) <==> !attempts[n].ok && !cancelled[n]
  {
  }

  /** How a run of `n` attempts ended. */
  predicate FateOf(outcome: Outcome, n: nat, attempts: seq<Attempt>, cancelled: seq<bool>)
    requires |attempts| == |cancelled| && 0 < n <= |attempts|
  {
    && WentOn(attempts, cancelled, n - 1)
    && outcome == (if attempts[n - 1].ok then Delivered else if n == |attempts| then Exhausted else LeftPending)
    && (outcome == LeftPending ==> cancelled[n - 1])
  }

  /** The loop ends here: the agent answered, the attempts are used up, or the wait is cut short. */
  predicate Stops(attempts: seq<Attempt>, cancelled: seq<bool>, n: nat)
    requires |attempts| == |cancelled| && 0 < n <= |attempts|
  {
    attempts[n - 1].ok || n == |attempts| || cancelled[n - 1]
  }

  /** A run makes as few attempts as it can: it ends with the first at which the loop stops, and how it ends follows
      from that attempt. A message is set aside only when all attempts were made and failed, and left only when the
      wait after a failed one was cut short. */
  lemma FateIsFirstStop(outcome: Outcome, n: nat, attempts: seq<Attempt>, cancelled: seq<bool>)
    requires |attempts| == |cancelled| && 0 < n <= |attempts|
    ensures FateOf(outcome, n, attempts, cancelled) <==>
            && Stops(attempts, cancelled, n) && (forall k :: 0 < k < n ==> !Stops(attempts, cancelled, k))
            && (if attempts[n - 1].ok then outcome == Delivered
                else if n < |attempts| then outcome == LeftPending else outcome == Exhausted)
  {
    if FateOf(outcome, n, attempts, cancelled) {
      forall k | 0 < k < n ensures !Stops(attempts, cancelled, k) {
        assert !attempts[k - 1].ok && !cancelled[k - 1];
      }
    }
    if forall k :: 0 < k < n ==> !Stops(attempts, cancelled, k) {
      forall k | 0 <= k < n - 1 ensures !attempts[k].ok && !cancelled[k] {
        assert !Stops(attempts, cancelled, k + 1);
      }
    }
  }

  /** So the fates of the attempts and waits determine the run. */
  lemma FateIsDetermined(o: Outcome, n: nat, o': Outcome, n': nat, attempts: seq<Attempt>, cancelled: seq<bool>)
    requires |attempts| == |cancelled| && 0 < n <= |attempts| && 0 < n' <= |attempts|
    requires FateOf(o, n, attempts, cancelled) && FateOf(o', n', attempts, cancelled)
    ensures o == o' && n == n'
  {
    FateIsFirstStop(o, n, attempts, cancelled);
    FateIsFirstStop(o', n', attempts, cancelled);
  }

  /** When the attempt after these begins. */
  function StartOf(attempts: seq<Attempt>, base: nat, start: nat): nat {
    if attempts == [] then start
    else
      var n := |attempts| - 1;
      StartOf(attempts[..n], base, start) + attempts[n].took + BackoffFor(base, n)
  }

  function Arrivals(attempts: seq<Attempt>, base: nat, start: nat): seq<nat> {
    if attempts == [] then []
    else
      var n := |attempts| - 1;
      Arrivals(attempts[..n], base, start)
      + if attempts[n].received.Some? then [StartOf(attempts[..n], base, start) + attempts[n].received.value] else []
  }

  // ---------------------------------------------------------------- the drain

  /** The names that a drain of this listing spawns tasks for. */
  function Claimed(names: seq<string>, inFlight: set<string>): seq<string> {
    if names == [] then []
    else
      var n := |names| - 1;
      Claimed(names[..n], inFlight)
      + if IsJson(names[n]) && names[n] !in inFlight && names[n] !in names[..n] then [names[n]] else []
  }

  /** One task for each listed final name that nobody has claimed, none twice. */
  lemma {:induction false} ClaimedIsExact(names: seq<string>, inFlight: set<string>)
    ensures var spawned := Claimed(names, inFlight);
            && (forall n :: n in spawned <==> n in names && IsJson(n) && n !in inFlight)
            && (forall i, j :: 0 <= i < j < |spawned| ==> spawned[i] != spawned[j])
  {
    if names != [] {
      var n := |names| - 1;
      ClaimedIsExact(names[..n], inFlight);
      assert names == names[..n] + [names[n]];
    }
  }

  class Drainer {
    var inFlight: set<string>

    /** `drain_pending` over one directory listing: one task per final name not already claimed. */
    method DrainPending(names: seq<string>) returns (spawned: seq<string>)
      modifies this
      ensures spawned == Claimed(names, old(inFlight))
      ensures inFlight == old(inFlight) + set n | n in names && IsJson(n)
    {
      spawned := [];
      for i := 0 to |names|
        invariant spawned == Claimed(names[..i], old(inFlight))
        invariant inFlight == old(inFlight) + set n | n in names[..i] && IsJson(n)
      {
        assert names[..i + 1][..i] == names[..i];
        var name := names[i];
        if !IsJson(name) {
          continue;
        }
        if name in inFlight {
          continue;
        }
        inFlight := inFlight + {name};
        spawned := spawned + [name];
      }
      assert names[..|names|] == names;
    }
  }
}

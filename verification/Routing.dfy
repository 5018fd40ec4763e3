/** `src/config.rs` (channels and the group map), `src/channel.rs`, and the printer of the group map
    in `deploy/channels-env.awk`. */
module Routing {
  import opened Wrappers
  import opened Text
  import opened InboundModel
  import opened Policies

  type Pair = (string, string)

  // ---------------------------------------------------------------- WA_GROUP_CHANNELS

  datatype MapError =
    | NoColon(entry: string)
    | EmptyPart(entry: string)
    | NotAGroup(jid: string)
    | MappedTwice(jid: string)

  /** One comma-separated entry; `None` for a blank one. */
  function ParseEntry(raw: string): Result<Option<Pair>, MapError> {
    ParseTrimmed(Trim(raw))
  }

  function ParseTrimmed(entry: string): Result<Option<Pair>, MapError> {
    if entry == "" then Ok(None)
    else
      var cut := RSplitOnce(entry, ':');
      if cut.None? then Err(NoColon(entry))
      else
        var jid, name := Trim(cut.value.0), Trim(cut.value.1);
        if jid == "" || name == "" then Err(EmptyPart(entry))
        else if !EndsWith(jid, GROUP_SUFFIX) then Err(NotAGroup(jid))
        else Ok(Some((jid, name)))
  }

  function Jids(pairs: seq<Pair>): set<string> {
    set p | p in pairs :: p.0
  }

  type Entry = Result<Option<Pair>, MapError>

  function ParseEach(entries: seq<string>): (r: seq<Entry>)
    ensures |r| == |entries| && forall i :: 0 <= i < |r| ==> r[i] == ParseEntry(entries[i])
  {
    seq(|entries|, i requires 0 <= i < |entries| => ParseEntry(entries[i]))
  }

  /** Left to right, given the pairs already accepted: the first error wins, a blank entry is
      skipped, and a JID may be mapped once. */
  function Accept(entries: seq<Entry>, accepted: seq<Pair>): Result<seq<Pair>, MapError> {
    if entries == [] then Ok(accepted)
    else
      var e := entries[0];
      if e.Err? then Err(e.error)
      else if e.value.None? then Accept(entries[1..], accepted)
      else if e.value.value.0 in Jids(accepted) then Err(MappedTwice(e.value.value.0))
      else Accept(entries[1..], accepted + [e.value.value])
  }

  function ParsedMap(raw: string): Result<seq<Pair>, MapError> {
    Accept(ParseEach(Split(raw, ',')), [])
  }

  lemma NextEntry(entries: seq<Entry>, i: nat, accepted: seq<Pair>)
    requires i < |entries|
    ensures Accept(entries[i..], accepted) ==
            var e := entries[i];
            if e.Err? then Err(e.error)
            else if e.value.None? then Accept(entries[i + 1..], accepted)
            else if e.value.value.0 in Jids(accepted) then Err(MappedTwice(e.value.value.0))
            else Accept(entries[i + 1..], accepted + [e.value.value])
  {
    assert entries[i..][1..] == entries[i + 1..];
  }

  /** The loop of `parse_group_channels`. Reading one entry is pure, so the entries are handed over
      already read. */
  method AcceptEntries(entries: seq<Entry>) returns (r: Result<seq<Pair>, MapError>)
    ensures r == Accept(entries, [])
  {
    var out: seq<Pair>, seen: set<string> := [], {};
    assert entries[0..] == entries;
    var i := 0;
    while i < |entries|
      invariant i <= |entries|
      invariant Accept(entries, []) == Accept(entries[i..], out)
      invariant seen == Jids(out)
    {
      NextEntry(entries, i, out);
      var entry := entries[i];
      i := i + 1;
      if entry.Err? {
        return Err(entry.error);
      }
      if entry.value.None? {
        continue;
      }
      var pair := entry.value.value;
      if pair.0 in seen {
        return Err(MappedTwice(pair.0));
      }
      seen := seen + {pair.0};
      out := out + [pair];
    }
    assert entries[i..] == [];
    return Ok(out);
  }

  method ParseGroupChannels(raw: string) returns (r: Result<seq<Pair>, MapError>)
    ensures r == ParsedMap(raw)
  {
    r := AcceptEntries(ParseEach(Split(raw, ',')));
  }

  predicate WellFormedPair(p: Pair) {
    && Trimmed(p.0) && EndsWith(p.0, GROUP_SUFFIX) && ',' !in p.0
    && p.1 != "" && Trimmed(p.1) && ',' !in p.1 && ':' !in p.1
  }

  /** Distinct group JIDs, each with a non-empty label, all of them printable. */
  predicate WellFormedMap(pairs: seq<Pair>) {
    && (forall p :: p in pairs ==> WellFormedPair(p))
    && (forall i, j :: 0 <= i < j < |pairs| ==> pairs[i].0 != pairs[j].0)
  }

  lemma HalvesKeepOut(entry: string, c: char)
    requires RSplitOnce(entry, ':').Some? && c !in entry
    ensures var cut := RSplitOnce(entry, ':').value; c !in Trim(cut.0) && c !in Trim(cut.1)
  {
    var cut := RSplitOnce(entry, ':').value;
    assert forall d :: d in cut.0 || d in cut.1 ==> d in entry;
    TrimKeepsOut(cut.0, c);
    TrimKeepsOut(cut.1, c);
  }

  lemma EntryIsWellFormed(raw: string)
    requires ',' !in raw && ParseEntry(raw).Ok? && ParseEntry(raw).value.Some?
    ensures WellFormedPair(ParseEntry(raw).value.value)
  {
    EntryHalves(raw);
    TrimKeepsOut(raw, ',');
    HalvesKeepOut(Trim(raw), ',');
    TrimKeepsOut(RSplitOnce(Trim(raw), ':').value.1, ':');
  }

  lemma EntryHalves(raw: string)
    requires ParseEntry(raw).Ok? && ParseEntry(raw).value.Some?
    ensures RSplitOnce(Trim(raw), ':').Some?
    ensures var cut, p := RSplitOnce(Trim(raw), ':').value, ParseEntry(raw).value.value;
            p == (Trim(cut.0), Trim(cut.1)) && p.1 != "" && EndsWith(p.0, GROUP_SUFFIX)
  {
  }

  lemma ExtendsMap(pairs: seq<Pair>, p: Pair)
    requires WellFormedMap(pairs) && WellFormedPair(p) && p.0 !in Jids(pairs)
    ensures WellFormedMap(pairs + [p]) && Jids(pairs + [p]) == Jids(pairs) + {p.0}
  {
    forall i, j | 0 <= i < j < |pairs + [p]| ensures (pairs + [p])[i].0 != (pairs + [p])[j].0 {
      if j == |pairs| {
        assert pairs[i] in pairs;
      }
    }
  }

  // ---------------------------------------------------------------- what is accepted, from the text itself

  /** A blank entry is skipped, and one without a colon is an error. */
  lemma ColonIsRequired(raw: string)
    ensures ParseEntry(raw) == Ok(None) <==> AllSpaces(raw)
    ensures (ParseEntry(raw).Err? && ParseEntry(raw).error.NoColon?) <==> !AllSpaces(raw) && ':' !in raw
    ensures ParseEntry(raw).Err? && ParseEntry(raw).error.NoColon? ==> ParseEntry(raw).error.entry == Trim(raw)
  {
    BlankIsAllSpaces(raw);
    var before, after := TrimDropsSpaces(raw);
    ColonSurvives(raw, before, Trim(raw), after);
    EntryKinds(Trim(raw));
  }

  lemma EntryKinds(entry: string)
    ensures ParseTrimmed(entry) == Ok(None) <==> entry == ""
    ensures (ParseTrimmed(entry).Err? && ParseTrimmed(entry).error.NoColon?) <==> entry != "" && ':' !in entry
    ensures ParseTrimmed(entry).Err? && ParseTrimmed(entry).error.NoColon? ==> ParseTrimmed(entry).error.entry == entry
  {
    CutNeedsColon(entry);
  }

  lemma CutNeedsColon(e: string)
    ensures RSplitOnce(e, ':').Some? <==> ':' in e
  {
    if RSplitOnce(e, ':').Some? {
      assert e[|RSplitOnce(e, ':').value.0|] == ':';
    }
  }

  lemma ColonSurvives(raw: string, before: string, entry: string, after: string)
    requires raw == before + entry + after && AllSpaces(before) && AllSpaces(after)
    ensures ':' in raw <==> ':' in entry
  {
    assert ':' !in before && ':' !in after;
  }

  /** With a colon, the entry is cut at the last one. Both parts must say something, and the first must be a group. */
  lemma EntryIsExact(raw: string, jid: string, name: string)
    requires Trim(raw) == jid + ":" + name && ':' !in name
    ensures ParseEntry(raw) ==
            if AllSpaces(jid) || AllSpaces(name) then Err(EmptyPart(Trim(raw)))
            else if !EndsWith(Trim(jid), "@g.us") then Err(NotAGroup(Trim(jid)))
            else Ok(Some((Trim(jid), Trim(name))))
  {
    RSplitOnceCuts(jid, ':', name);
    BlankIsAllSpaces(jid);
    BlankIsAllSpaces(name);
  }

  /** The pairs among the entries, in order. */
  function Pairs(entries: seq<Entry>): seq<Pair> {
    if entries == [] then []
    else
      var e := entries[|entries| - 1];
      Pairs(entries[..|entries| - 1]) + if e.Ok? && e.value.Some? then [e.value.value] else []
  }

  /** What is wrong with entry `i`: it cannot be read, or its group is mapped by an earlier one. */
  function EntryFault(entries: seq<Entry>, i: nat): Option<MapError>
    requires i < |entries|
  {
    var e := entries[i];
    if e.Err? then Some(e.error)
    else if e.value.Some? && e.value.value.0 in Jids(Pairs(entries[..i])) then Some(MappedTwice(e.value.value.0))
    else None
  }

  lemma PairsGrow(entries: seq<Entry>, i: nat)
    requires i < |entries|
    ensures var e := entries[i];
            Pairs(entries[..i + 1]) == Pairs(entries[..i]) + if e.Ok? && e.value.Some? then [e.value.value] else []
  {
    assert entries[..i + 1][..i] == entries[..i];
  }

  lemma {:induction false} AcceptsFaultless(entries: seq<Entry>, i: nat)
    requires i <= |entries| && forall k :: 0 <= k < i ==> EntryFault(entries, k).None?
    ensures Accept(entries, []) == Accept(entries[i..], Pairs(entries[..i]))
  {
    if i == 0 {
      assert entries[0..] == entries && entries[..0] == [];
    } else {
      AcceptsFaultless(entries, i - 1);
      NextEntry(entries, i - 1, Pairs(entries[..i - 1]));
      PairsGrow(entries, i - 1);
      assert EntryFault(entries, i - 1).None?;
      assert Pairs(entries[..i - 1]) + [] == Pairs(entries[..i - 1]);
    }
  }

  /** A setting without a fault is accepted whole, in order. */
  lemma FaultlessMapIsKept(entries: seq<Entry>)
    requires forall k :: 0 <= k < |entries| ==> EntryFault(entries, k).None?
    ensures Accept(entries, []) == Ok(Pairs(entries))
  {
    AcceptsFaultless(entries, |entries|);
    assert entries[|entries|..] == [] && entries[..|entries|] == entries;
  }

  /** And otherwise its first fault is the error. */
  lemma FirstFaultIsReported(entries: seq<Entry>, i: nat)
    requires i < |entries| && EntryFault(entries, i).Some?
    requires forall k :: 0 <= k < i ==> EntryFault(entries, k).None?
    ensures Accept(entries, []) == Err(EntryFault(entries, i).value)
  {
    AcceptsFaultless(entries, i);
    NextEntry(entries, i, Pairs(entries[..i]));
  }

  // ---------------------------------------------------------------- the printer

  function Printed(p: Pair): string {
    p.0 + ":" + p.1
  }

  /** Items with a missing part are not printed. */
  function Complete(pairs: seq<Pair>): seq<Pair> {
    if pairs == [] then []
    else
      var n := |pairs| - 1;
      Complete(pairs[..n]) + if pairs[n].0 != "" && pairs[n].1 != "" then [pairs[n]] else []
  }

  function PrintedAll(pairs: seq<Pair>): (r: seq<string>)
    ensures |r| == |pairs| && forall i :: 0 <= i < |r| ==> r[i] == Printed(pairs[i])
  {
    if pairs == [] then [] else PrintedAll(pairs[..|pairs| - 1]) + [Printed(pairs[|pairs| - 1])]
  }

  function PrintedMap(pairs: seq<Pair>): string {
    Join(PrintedAll(Complete(pairs)), ",")
  }

  /** The `END` block: grow `out` by one item, with a comma unless it is still empty. */
  method PrintGroupChannels(jids: seq<string>, labels: seq<string>) returns (out: string)
    requires |jids| == |labels|
    ensures out == PrintedMap(seq(|jids|, i requires 0 <= i < |jids| => (jids[i], labels[i])))
  {
    ghost var pairs: seq<Pair> := seq(|jids|, i requires 0 <= i < |jids| => (jids[i], labels[i]));
    out := "";
    for i := 0 to |jids|
      invariant out == PrintedMap(pairs[..i])
      invariant out == "" <==> Complete(pairs[..i]) == []
    {
      assert pairs[..i + 1][..i] == pairs[..i];
      CompleteGrows(pairs, i);
      if jids[i] != "" && labels[i] != "" {
        PrintedOneMore(Complete(pairs[..i]), pairs[i]);
        assert pairs[i] == (jids[i], labels[i]);
        out := (if out == "" then "" else out + ",") + (jids[i] + ":" + labels[i]);
      }
    }
    assert pairs[..|jids|] == pairs;
  }

  lemma CompleteGrows(pairs: seq<Pair>, i: nat)
    requires i < |pairs|
    ensures var p := pairs[i];
            Complete(pairs[..i + 1])
            == if p.0 != "" && p.1 != "" then Complete(pairs[..i]) + [p] else Complete(pairs[..i])
  {
    assert pairs[..i + 1][..i] == pairs[..i];
  }

  /** What one more item does to the printed map. */
  lemma PrintedOneMore(done: seq<Pair>, p: Pair)
    ensures Join(PrintedAll(done + [p]), ",") ==
            (if done == [] then "" else Join(PrintedAll(done), ",") + ",") + Printed(p)
  {
    PrintedAllExtends(done, p);
    if done != [] {
      JoinAppend(PrintedAll(done), ",", Printed(p));
    }
  }

  lemma PrintedAllExtends(pairs: seq<Pair>, p: Pair)
    ensures PrintedAll(pairs + [p]) == PrintedAll(pairs) + [Printed(p)]
  {
    assert (pairs + [p])[..|pairs|] == pairs;
  }

  /** A printed pair is parsed back. */
  lemma EntryRoundTrip(p: Pair)
    requires WellFormedPair(p)
    ensures ParseEntry(Printed(p)) == Ok(Some(p)) && ',' !in Printed(p)
  {
    var s := Printed(p);
    assert s[0] == p.0[0] && s[|s| - 1] == p.1[|p.1| - 1];
    TrimOfTrimmed(s);
    RSplitOnceCuts(p.0, ':', p.1);
    TrimOfTrimmed(p.0);
    TrimOfTrimmed(p.1);
  }

  lemma NotYetMapped(pairs: seq<Pair>, i: nat)
    requires WellFormedMap(pairs) && i < |pairs|
    ensures pairs[i].0 !in Jids(pairs[..i])
  {
  }

  lemma PrintedEntry(pairs: seq<Pair>, i: nat)
    requires WellFormedMap(pairs) && i < |pairs|
    ensures ParseEntry(PrintedAll(pairs)[i]) == Ok(Some(pairs[i]))
  {
    assert pairs[i] in pairs;
    EntryRoundTrip(pairs[i]);
  }

  lemma {:induction false} AcceptsAll(entries: seq<Entry>, pairs: seq<Pair>, i: nat)
    requires |entries| == |pairs| && i <= |pairs|
    requires forall k :: 0 <= k < |pairs| ==> entries[k] == Ok(Some(pairs[k]))
    requires forall k :: 0 <= k < |pairs| ==> pairs[k].0 !in Jids(pairs[..k])
    ensures Accept(entries[i..], pairs[..i]) == Ok(pairs)
    decreases |pairs| - i
  {
    if i < |pairs| {
      AcceptsAll(entries, pairs, i + 1);
      assert entries[i..][1..] == entries[i + 1..];
      assert pairs[..i] + [pairs[i]] == pairs[..i + 1];
    } else {
      assert pairs[..i] == pairs;
    }
  }

  lemma PrintedWithoutCommas(pairs: seq<Pair>)
    requires WellFormedMap(pairs)
    ensures forall s :: s in PrintedAll(pairs) ==> ',' !in s
  {
    forall s | s in PrintedAll(pairs) ensures ',' !in s {
      var i :| 0 <= i < |pairs| && PrintedAll(pairs)[i] == s;
      assert pairs[i] in pairs;
      EntryRoundTrip(pairs[i]);
    }
  }

  lemma PrintedItemsAccepted(items: seq<Pair>)
    requires WellFormedMap(items)
    ensures Accept(ParseEach(PrintedAll(items)), []) == Ok(items)
  {
    var entries := ParseEach(PrintedAll(items));
    forall k | 0 <= k < |items| ensures entries[k] == Ok(Some(items[k])) && items[k].0 !in Jids(items[..k]) {
      PrintedEntry(items, k);
      NotYetMapped(items, k);
    }
    AcceptsAll(entries, items, 0);
    assert entries[0..] == entries && items[..0] == [];
  }

  /** Parsing what the printer wrote gives back the printed items, for every list whose complete
      items form a well-formed map. */
  lemma MapRoundTrip(pairs: seq<Pair>)
    requires WellFormedMap(Complete(pairs))
    ensures ParsedMap(PrintedMap(pairs)) == Ok(Complete(pairs))
  {
    var items := Complete(pairs);
    if items == [] {
      assert ParseEach([""])[1..] == [];
    } else {
      PrintedWithoutCommas(items);
      SplitOfJoin(PrintedAll(items), ',');
      PrintedItemsAccepted(items);
    }
  }

  lemma {:induction false} CompleteOfWellFormed(pairs: seq<Pair>)
    requires forall p :: p in pairs ==> WellFormedPair(p)
    ensures Complete(pairs) == pairs
  {
    if pairs != [] {
      var n := |pairs| - 1;
      assert pairs[n] in pairs;
      CompleteOfWellFormed(pairs[..n]);
      assert pairs == pairs[..n] + [pairs[n]];
    }
  }

  /** Every accepted setting has a canonical spelling that means the same. */
  lemma ParseIsCanonical(raw: string)
    requires ParsedMap(raw).Ok?
    ensures WellFormedMap(ParsedMap(raw).value)
    ensures ParsedMap(PrintedMap(ParsedMap(raw).value)) == ParsedMap(raw)
  {
    ParsedIsWellFormed(raw);
    CompleteOfWellFormed(ParsedMap(raw).value);
    MapRoundTrip(ParsedMap(raw).value);
  }

  lemma ParsedIsWellFormed(raw: string)
    requires ParsedMap(raw).Ok?
    ensures WellFormedMap(ParsedMap(raw).value)
  {
    EntriesAreWellFormed(raw);
    AcceptedIsWellFormedMap(ParseEach(Split(raw, ',')), []);
  }

  lemma EntriesAreWellFormed(raw: string)
    ensures forall e :: e in ParseEach(Split(raw, ',')) && e.Ok? && e.value.Some? ==> WellFormedPair(e.value.value)
  {
    var pieces := Split(raw, ',');
    var entries := ParseEach(pieces);
    forall e | e in entries && e.Ok? && e.value.Some? ensures WellFormedPair(e.value.value) {
      var i :| 0 <= i < |entries| && entries[i] == e;
      assert pieces[i] in pieces;
      EntryIsWellFormed(pieces[i]);
    }
  }

  lemma {:induction false} AcceptedIsWellFormedMap(entries: seq<Entry>, accepted: seq<Pair>)
    requires forall e :: e in entries && e.Ok? && e.value.Some? ==> WellFormedPair(e.value.value)
    requires WellFormedMap(accepted) && Accept(entries, accepted).Ok?
    ensures WellFormedMap(Accept(entries, accepted).value)
  {
    if entries != [] {
      var e := entries[0].value;
      assert entries[0] in entries;
      if e.Some? {
        ExtendsMap(accepted, e.value);
        AcceptedIsWellFormedMap(entries[1..], accepted + [e.value]);
      } else {
        AcceptedIsWellFormedMap(entries[1..], accepted);
      }
    }
  }

  // ---------------------------------------------------------------- channels

  datatype ChannelConfig = ChannelConfig(name: string, inboundUrl: string, healthUrl: string, bearer: string)

  datatype ConfigError =
    | ReservedLabel
    | BadLabel(name: string)
    | LabelTwice(name: string)
    | MissingUrl(name: string)
    | BadUrl(name: string)
    | UnknownChannel(jid: string, name: string)
    | BadMap(error: MapError)

  /** The environment after the source's trimming of values, in which an empty value is unset. */
  type Env = map<string, string>

  function Optional(env: Env, name: string): Option<string> {
    if name in env && Trim(env[name]) != "" then Some(Trim(env[name])) else None
  }

  predicate LabelChar(c: char) {
    'a' <= c <= 'z' || IsDigit(c) || c == '_'
  }

  function CheckLabel(name: string): Option<ConfigError> {
    if name == DEFAULT_CHANNEL then Some(ReservedLabel)
    else if name == "" || exists c :: c in name && !LabelChar(c) then Some(BadLabel(name))
    else None
  }

  function Upper(s: string): string {
    if s == "" then ""
    else [if 'a' <= s[0] <= 'z' then (s[0] as int - 32) as char else s[0]] + Upper(s[1..])
  }

  function WithoutTrailingSlashes(s: string): string {
    if s != "" && s[|s| - 1] == '/' then WithoutTrailingSlashes(s[..|s| - 1]) else s
  }

  /** Different labels read different variables, so no channel can inherit another's target. */
  lemma {:induction false} UpperInjective(a: string, b: string)
    requires (forall c :: c in a ==> LabelChar(c)) && (forall c :: c in b ==> LabelChar(c))
    requires Upper(a) == Upper(b)
    ensures a == b
  {
    if a != "" && b != "" {
      assert a[0] in a && b[0] in b;
      assert Upper(a)[0] == Upper(b)[0];
      assert Upper(a)[1..] == Upper(a[1..]) && Upper(b)[1..] == Upper(b[1..]);
      UpperInjective(a[1..], b[1..]);
      assert a == [a[0]] + a[1..] && b == [b[0]] + b[1..];
    }
  }

  /** Only small letters, digits and underscores make a label, and `default` is reserved. */
  lemma LabelIsAcceptedIff(name: string)
    ensures CheckLabel(name).None? <==>
            name != "default" && name != ""
            && forall i :: 0 <= i < |name| ==> 'a' <= name[i] <= 'z' || '0' <= name[i] <= '9' || name[i] == '_'
    ensures CheckLabel(name).Some? ==>
              CheckLabel(name).value == if name == "default" then ReservedLabel else BadLabel(name)
  {
    assert forall i :: 0 <= i < |name| ==> name[i] in name;
    if c :| c in name && !LabelChar(c) {
      var i :| 0 <= i < |name| && name[i] == c;
    }
  }

  lemma {:induction false} UpperIsLetterwise(s: string)
    ensures |Upper(s)| == |s|
    ensures forall i :: 0 <= i < |s| ==>
              Upper(s)[i] == if 'a' <= s[i] <= 'z' then (s[i] as int - 32) as char else s[i]
  {
    if s != "" {
      UpperIsLetterwise(s[1..]);
      assert forall i :: 0 < i < |s| ==> s[i] == s[1..][i - 1];
    }
  }

  /** So accepted labels never share a variable. */
  lemma LabelsReadTheirOwnVariables(a: string, b: string)
    requires CheckLabel(a).None? && CheckLabel(b).None? && UrlVariable(a) == UrlVariable(b)
    ensures a == b
  {
    var n := |"WA_CHANNEL_"|;
    assert UrlVariable(a)[n..|UrlVariable(a)| - 4] == Upper(a);
    assert UrlVariable(b)[n..|UrlVariable(b)| - 4] == Upper(b);
    UpperInjective(a, b);
  }

  function UrlVariable(name: string): string {
    "WA_CHANNEL_" + Upper(name) + "_URL"
  }

  /** A channel as the variables of its own label describe it. */
  predicate Describes(env: Env, token: string, c: ChannelConfig) {
    var url := Optional(env, UrlVariable(c.name));
    var bearer := Optional(env, "WA_CHANNEL_" + Upper(c.name) + "_TOKEN");
    && url.Some?
    && c.inboundUrl == WithoutTrailingSlashes(url.value) + "/whatsapp/inbound"
    && c.healthUrl == WithoutTrailingSlashes(url.value) + "/health"
    && c.bearer == if bearer.Some? then bearer.value else token
  }

  /** One pass of the channel loop: the target that the label's own variables name. */
  function ChannelOf(env: Env, token: string, name: string, isUrl: string -> bool)
      : (r: Result<ChannelConfig, ConfigError>)
    ensures r.Ok? ==> r.value.name == name && Describes(env, token, r.value) && isUrl(r.value.inboundUrl)
    ensures r.Err? ==> r.error == if Optional(env, UrlVariable(name)).None? then MissingUrl(UrlVariable(name))
                                  else BadUrl(UrlVariable(name))
    ensures r == Err(BadUrl(UrlVariable(name))) ==>
              !isUrl(WithoutTrailingSlashes(Optional(env, UrlVariable(name)).value) + "/whatsapp/inbound")
  {
    var url := Optional(env, UrlVariable(name));
    if url.None? then Err(MissingUrl(UrlVariable(name)))
    else
      var base := WithoutTrailingSlashes(url.value);
      var bearer := Optional(env, "WA_CHANNEL_" + Upper(name) + "_TOKEN");
      if isUrl(base + "/whatsapp/inbound") then
        Ok(ChannelConfig(name, base + "/whatsapp/inbound", base + "/health",
                         if bearer.Some? then bearer.value else token))
      else Err(BadUrl(UrlVariable(name)))
  }

  function Labels(channels: seq<ChannelConfig>): set<string> {
    set c | c in channels :: c.name
  }

  predicate DistinctLabels(channels: seq<ChannelConfig>) {
    forall i, j :: 0 <= i < j < |channels| ==> channels[i].name != channels[j].name
  }

  /** How labels are checked and channels read. */
  datatype Reader = Reader(check: string -> Option<ConfigError>, read: string -> Result<ChannelConfig, ConfigError>)

  ghost predicate ReaderOk(reader: Reader) {
    && reader.check(DEFAULT_CHANNEL).Some?
    && forall name :: reader.read(name).Ok? ==> reader.read(name).value.name == name
  }

  /** The source's reader: URL syntax is an arbitrary test. */
  function EnvReader(env: Env, token: string, isUrl: string -> bool): Reader {
    Reader(CheckLabel, (name: string) => ChannelOf(env, token, name, isUrl))
  }

  /** What is wrong with a label of the list, checked in the source's order. */
  function FaultAt(reader: Reader, listed: seq<string>, i: nat): Option<ConfigError>
    requires i < |listed|
  {
    if reader.check(listed[i]).Some? then reader.check(listed[i])
    else if listed[i] in listed[..i] then Some(LabelTwice(listed[i]))
    else if reader.read(listed[i]).Err? then Some(reader.read(listed[i]).error)
    else None
  }

  /** The error of the first faulty label, if there is one. */
  ghost predicate FirstFault(reader: Reader, listed: seq<string>, error: ConfigError) {
    exists i :: 0 <= i < |listed| && FaultAt(reader, listed, i) == Some(error)
                && forall k :: 0 <= k < i ==> FaultAt(reader, listed, k).None?
  }

  ghost predicate Faultless(reader: Reader, listed: seq<string>) {
    forall i :: 0 <= i < |listed| ==> FaultAt(reader, listed, i).None?
  }

  /** The channel loop of `Config::from_env`, for any way of checking and reading. */
  method BuildFrom(reader: Reader, first: ChannelConfig, listed: seq<string>)
      returns (r: Result<seq<ChannelConfig>, ConfigError>)
    requires ReaderOk(reader) && first.name == DEFAULT_CHANNEL
    ensures r.Ok? ==> |r.value| == |listed| + 1 && r.value[0] == first && DistinctLabels(r.value)
    ensures r.Ok? ==> forall i :: 0 <= i < |listed| ==> reader.read(listed[i]) == Ok(r.value[i + 1])
    ensures r.Ok? <==> Faultless(reader, listed)
    ensures r.Err? ==> FirstFault(reader, listed, r.error)
  {
    var channels, labels := [first], {DEFAULT_CHANNEL};
    for i := 0 to |listed|
      invariant |channels| == i + 1 && channels[0] == first && DistinctLabels(channels)
      invariant forall k :: 0 <= k < i ==> reader.read(listed[k]) == Ok(channels[k + 1])
      invariant forall k :: 0 <= k < |channels| ==> channels[k].name in labels
      invariant forall l :: l in labels <==> l == DEFAULT_CHANNEL || l in listed[..i]
      invariant forall k :: 0 <= k < i ==> FaultAt(reader, listed, k).None?
    {
      assert listed[..i + 1] == listed[..i] + [listed[i]];
      var name := listed[i];
      var bad := reader.check(name);
      if bad.Some? {
        assert FaultAt(reader, listed, i) == Some(bad.value);
        return Err(bad.value);
      }
      if name in labels {
        assert FaultAt(reader, listed, i) == Some(LabelTwice(name));
        return Err(LabelTwice(name));
      }
      labels := labels + {name};
      var channel := reader.read(name);
      if channel.Err? {
        assert FaultAt(reader, listed, i) == Some(channel.error);
        return Err(channel.error);
      }
      channels := channels + [channel.value];
    }
    return Ok(channels);
  }

  method BuildChannels(env: Env, first: ChannelConfig, token: string, listed: seq<string>, isUrl: string -> bool)
      returns (r: Result<seq<ChannelConfig>, ConfigError>)
    requires first.name == DEFAULT_CHANNEL
    ensures r.Ok? ==> |r.value| == |listed| + 1 && r.value[0] == first && DistinctLabels(r.value)
    ensures r.Ok? ==> forall i :: 0 <= i < |listed| ==> ChannelOf(env, token, listed[i], isUrl) == Ok(r.value[i + 1])
    ensures r.Ok? <==> Faultless(EnvReader(env, token, isUrl), listed)
    ensures r.Err? ==> FirstFault(EnvReader(env, token, isUrl), listed, r.error)
  {
    var reader := EnvReader(env, token, isUrl);
    r := BuildFrom(reader, first, listed);
    if r.Ok? {
      forall i | 0 <= i < |listed| ensures ChannelOf(env, token, listed[i], isUrl) == Ok(r.value[i + 1]) {
        assert reader.read(listed[i]) == Ok(r.value[i + 1]);
      }
    }
  }

  /** The first mapping to a channel that is not configured. */
  ghost predicate FirstUnknown(mappings: seq<Pair>, known: set<string>, error: ConfigError) {
    exists i :: 0 <= i < |mappings| && mappings[i].1 !in known && error == UnknownChannel(mappings[i].0, mappings[i].1)
                && forall k :: 0 <= k < i ==> mappings[k].1 in known
  }

  method ValidateGroupChannelLabels(mappings: seq<Pair>, known: set<string>) returns (r: Option<ConfigError>)
    ensures r.None? <==> forall p :: p in mappings ==> p.1 in known
    ensures r.Some? ==> FirstUnknown(mappings, known, r.value)
  {
    for i := 0 to |mappings|
      invariant forall k :: 0 <= k < i ==> mappings[k].1 in known
    {
      if mappings[i].1 !in known {
        assert mappings[i] in mappings;
        return Some(UnknownChannel(mappings[i].0, mappings[i].1));
      }
    }
    return None;
  }

  /** Every mapped group is admitted as if it were listed; nothing else is. */
  method ExtendAllowlist(allow: seq<string>, mappings: seq<Pair>) returns (r: seq<string>)
    ensures allow <= r
    ensures forall j :: j in r <==> j in allow || j in Jids(mappings)
  {
    r := allow;
    for i := 0 to |mappings|
      invariant allow <= r
      invariant forall j :: j in r <==> j in allow || j in Jids(mappings[..i])
    {
      assert mappings[..i + 1] == mappings[..i] + [mappings[i]];
      if mappings[i].0 !in r {
        r := r + [mappings[i].0];
      }
    }
    assert mappings[..|mappings|] == mappings;
  }

  // ---------------------------------------------------------------- the router

  datatype Client = Client(inboundUrl: string, healthUrl: string, bearer: string)

  datatype Router = Router(clients: map<string, Client>, groupToChannel: map<string, string>)

  function ChannelFor(r: Router, m: Inbound): string {
    if m.IsGroup() && m.chatId in r.groupToChannel then r.groupToChannel[m.chatId] else DEFAULT_CHANNEL
  }

  function ClientFor(r: Router, name: string): Client
    requires DEFAULT_CHANNEL in r.clients
  {
    if name in r.clients then r.clients[name] else r.clients[DEFAULT_CHANNEL]
  }

  predicate ClientOf(client: Client, c: ChannelConfig) {
    client == Client(c.inboundUrl, c.healthUrl, c.bearer)
  }

  method FromConfig(channels: seq<ChannelConfig>, mappings: seq<Pair>) returns (r: Router)
    requires DistinctLabels(channels) && WellFormedMap(mappings)
    ensures r.clients.Keys == Labels(channels)
    ensures forall c :: c in channels ==> ClientOf(r.clients[c.name], c)
    ensures r.groupToChannel.Keys == Jids(mappings)
    ensures forall p :: p in mappings ==> r.groupToChannel[p.0] == p.1
  {
    var clients: map<string, Client> := map[];
    for i := 0 to |channels|
      invariant clients.Keys == Labels(channels[..i])
      invariant forall k :: 0 <= k < i ==>
                  channels[k].name in clients && ClientOf(clients[channels[k].name], channels[k])
    {
      assert channels[..i + 1] == channels[..i] + [channels[i]];
      var c := channels[i];
      clients := clients[c.name := Client(c.inboundUrl, c.healthUrl, c.bearer)];
    }
    assert channels[..|channels|] == channels;
    var groups: map<string, string> := map[];
    for i := 0 to |mappings|
      invariant groups.Keys == Jids(mappings[..i])
      invariant forall k :: 0 <= k < i ==> mappings[k].0 in groups && groups[mappings[k].0] == mappings[k].1
    {
      assert mappings[..i + 1] == mappings[..i] + [mappings[i]];
      groups := groups[mappings[i].0 := mappings[i].1];
    }
    assert mappings[..|mappings|] == mappings;
    return Router(clients, groups);
  }

  // ---------------------------------------------------------------- the whole load

  datatype Loaded = Loaded(channels: seq<ChannelConfig>, mappings: seq<Pair>, policy: PolicyConfig, router: Router)

  /** What start-up establishes when it does not fail. */
  predicate Consistent(l: Loaded) {
    && DistinctLabels(l.channels) && WellFormedMap(l.mappings)
    && DEFAULT_CHANNEL in Labels(l.channels)
    && (forall p :: p in l.mappings ==> p.1 in Labels(l.channels) && p.0 in l.policy.groupAllow)
    && l.router.clients.Keys == Labels(l.channels)
    && (forall c :: c in l.channels ==> ClientOf(l.router.clients[c.name], c))
    && l.router.groupToChannel.Keys == Jids(l.mappings)
    && (forall p :: p in l.mappings ==> l.router.groupToChannel[p.0] == p.1)
  }

  function Known(listed: seq<string>): set<string> {
    {DEFAULT_CHANNEL} + set l | l in listed
  }

  lemma LabelsOfBuilt(channels: seq<ChannelConfig>, listed: seq<string>)
    requires |channels| == |listed| + 1 && channels[0].name == DEFAULT_CHANNEL
    requires forall i :: 0 <= i < |listed| ==> channels[i + 1].name == listed[i]
    ensures Labels(channels) == Known(listed)
  {
    forall i | 0 <= i < |channels| ensures channels[i].name in Known(listed) {
      if i > 0 {
        assert channels[i - 1 + 1].name == listed[i - 1];
      }
    }
    forall l | l in listed ensures l in Labels(channels) {
      var i :| 0 <= i < |listed| && listed[i] == l;
      assert channels[i + 1] in channels;
    }
    assert channels[0] in channels;
  }

  method Load(env: Env, first: ChannelConfig, token: string, listed: seq<string>, rawMap: string,
              policy: PolicyConfig, isUrl: string -> bool) returns (r: Result<Loaded, ConfigError>)
    requires first.name == DEFAULT_CHANNEL
    ensures r.Ok? ==> Consistent(r.value) && ParsedMap(rawMap) == Ok(r.value.mappings)
    ensures r.Ok? ==> Labels(r.value.channels) == Known(listed)
    ensures r.Ok? <==> Faultless(EnvReader(env, token, isUrl), listed) && ParsedMap(rawMap).Ok?
                       && forall p :: p in ParsedMap(rawMap).value ==> p.1 in Known(listed)
    ensures r.Err? ==>
              if !Faultless(EnvReader(env, token, isUrl), listed) then
                FirstFault(EnvReader(env, token, isUrl), listed, r.error)
              else if ParsedMap(rawMap).Err? then r.error == BadMap(ParsedMap(rawMap).error)
              else FirstUnknown(ParsedMap(rawMap).value, Known(listed), r.error)
  {
    var channels := BuildChannels(env, first, token, listed, isUrl);
    if channels.Err? {
      return Err(channels.error);
    }
    var mappings := ParseGroupChannels(rawMap);
    if mappings.Err? {
      return Err(BadMap(mappings.error));
    }
    ParsedIsWellFormed(rawMap);
    var known := Known(listed);
    LabelsOfBuilt(channels.value, listed);
    var unknown := ValidateGroupChannelLabels(mappings.value, known);
    if unknown.Some? {
      return Err(unknown.value);
    }
    var allow := ExtendAllowlist(policy.groupAllow, mappings.value);
    var router := FromConfig(channels.value, mappings.value);
    assert channels.value[0] in channels.value;
    return Ok(Loaded(channels.value, mappings.value, policy.(groupAllow := allow), router));
  }

  /** A mapped group's messages carry the label of its mapping, and all other messages the default one. */
  lemma LabelsFollowTheMap(l: Loaded, m: Inbound)
    requires Consistent(l)
    ensures forall p :: p in l.mappings && p.0 == m.chatId ==> ChannelFor(l.router, m) == p.1
    ensures m.chatId !in Jids(l.mappings) || !m.IsGroup() ==> ChannelFor(l.router, m) == DEFAULT_CHANNEL
  {
    forall p | p in l.mappings && p.0 == m.chatId ensures ChannelFor(l.router, m) == p.1 {
      assert WellFormedPair(p) && m.IsGroup() && p.0 in Jids(l.mappings);
    }
  }

  /** Routing is closed: every label stamped under a consistent configuration has its own client, no
      message needs the fallback, and a mapped group is never turned away for being unlisted. */
  lemma RoutingIsClosed(l: Loaded, m: Inbound)
    requires Consistent(l)
    ensures var name := ChannelFor(l.router, m);
            && name in l.router.clients
            && (exists c :: c in l.channels && c.name == name && ClientOf(ClientFor(l.router, name), c))
            && (name != DEFAULT_CHANNEL ==> m.IsGroup() && (m.chatId, name) in l.mappings)
    ensures m.chatId in Jids(l.mappings) ==> Evaluate(l.policy, m) != Drop(GroupNotAllowed)
  {
    LabelsFollowTheMap(l, m);
    var name := ChannelFor(l.router, m);
    if m.chatId in Jids(l.mappings) {
      var p :| p in l.mappings && p.0 == m.chatId;
      assert p == (p.0, p.1);
    }
    assert name in Labels(l.channels);
  }
}

/** `transcribe_audio` in `src/forward.rs`: voice-note transcripts are folded into the body of the
    in-memory message. Fetching and recognition are arbitrary, per clip. */
module Transcription {
  import opened Wrappers
  import opened Text
  import opened InboundModel

  datatype Heard = Failed | Silent | Block(text: string)

  datatype Clip = FetchFailed | NotFound | Fetched(size: nat, heard: Heard)

  /** The block that a clip contributes, if any. */
  function BlockOf(clip: Clip, maxBytes: nat): Option<string> {
    if clip.Fetched? && clip.size <= maxBytes && clip.heard.Block? then Some(clip.heard.text) else None
  }

  /** Indices of the contributing clips, in order. */
  function Contributing(clips: seq<Clip>, maxBytes: nat): (r: seq<nat>)
    ensures forall i :: 0 <= i < |r| ==> r[i] < |clips| && BlockOf(clips[r[i]], maxBytes).Some?
    ensures forall i, j :: 0 <= i < j < |r| ==> r[i] < r[j]
    ensures forall k :: 0 <= k < |clips| && BlockOf(clips[k], maxBytes).Some? ==> k in r
  {
    if clips == [] then []
    else
      var n := |clips| - 1;
      Contributing(clips[..n], maxBytes) + if BlockOf(clips[n], maxBytes).Some? then [n] else []
  }

  function Blocks(clips: seq<Clip>, maxBytes: nat): seq<string> {
    var from := Contributing(clips, maxBytes);
    seq(|from|, i requires 0 <= i < |from| => BlockOf(clips[from[i]], maxBytes).value)
  }

  function Folded(m: Inbound, blocks: seq<string>): Inbound {
    if blocks == [] then m
    else
      var head := Join(blocks, "\n");
      m.(body := if Blank(m.body) then head else head + "\n\n" + m.body)
  }

  function AudioItems(media: seq<MediaItem>): seq<MediaItem> {
    if media == [] then []
    else
      var n := |media| - 1;
      AudioItems(media[..n]) + if media[n].kind == "audio" then [media[n]] else []
  }

  /** `from` lists the audio attachments, in order. */
  ghost predicate ListsAudio(media: seq<MediaItem>, from: seq<nat>) {
    && (forall i :: 0 <= i < |from| ==> from[i] < |media| && media[from[i]].kind == "audio")
    && (forall i, j :: 0 <= i < j < |from| ==> from[i] < from[j])
    && (forall k :: 0 <= k < |media| && media[k].kind == "audio" ==> k in from)
  }

  /** One clip is fetched for each audio attachment, and for nothing else. */
  lemma {:induction false} EveryVoiceNoteIsHeard(media: seq<MediaItem>) returns (from: seq<nat>)
    ensures ListsAudio(media, from) && |from| == |AudioItems(media)|
    ensures forall i :: 0 <= i < |from| ==> AudioItems(media)[i] == media[from[i]]
  {
    if media == [] {
      from := [];
    } else {
      var n := |media| - 1;
      var before := EveryVoiceNoteIsHeard(media[..n]);
      from := before + if media[n].kind == "audio" then [n] else [];
      OneMoreItem(media, before);
    }
  }

  lemma OneMoreItem(media: seq<MediaItem>, before: seq<nat>)
    requires media != [] && ListsAudio(media[..|media| - 1], before)
    ensures ListsAudio(media, before + if media[|media| - 1].kind == "audio" then [|media| - 1] else [])
  {
    var n := |media| - 1;
    var from := before + if media[n].kind == "audio" then [n] else [];
    forall k | 0 <= k < |media| && media[k].kind == "audio" ensures k in from {
      if k < n {
        assert media[..n][k].kind == "audio" && k in before;
      } else {
        assert from[|before|] == n;
      }
    }
  }

  // ---------------------------------------------------------------- what the agent reads

  /** The clip arrived, is not too large, and was understood. */
  predicate Usable(clip: Clip, maxBytes: nat) {
    clip.Fetched? && clip.size <= maxBytes && clip.heard.Block?
  }

  /** `from` lists the usable clips, in clip order. */
  ghost predicate ListsUsable(clips: seq<Clip>, maxBytes: nat, from: seq<nat>) {
    && (forall i :: 0 <= i < |from| ==> from[i] < |clips| && Usable(clips[from[i]], maxBytes))
    && (forall i, j :: 0 <= i < j < |from| ==> from[i] < from[j])
    && (forall k :: 0 <= k < |clips| && Usable(clips[k], maxBytes) ==> k in from)
  }

  function TextOf(clip: Clip): string {
    if clip.Fetched? && clip.heard.Block? then clip.heard.text else ""
  }

  function TextsOf(clips: seq<Clip>, from: seq<nat>): (r: seq<string>)
    requires forall i :: 0 <= i < |from| ==> from[i] < |clips|
    ensures |r| == |from| && forall i :: 0 <= i < |r| ==> r[i] == TextOf(clips[from[i]])
  {
    seq(|from|, i requires 0 <= i < |from| => TextOf(clips[from[i]]))
  }

  /** Text `i` stands at `at[i]`, one line break behind the text before it. */
  ghost predicate TextAt(body: string, texts: seq<string>, at: seq<nat>, i: nat)
    requires |at| == |texts| && i < |texts|
  {
    && OccursAt(texts[i], body, at[i])
    && (if i == 0 then at[i] == 0 else at[i] == at[i - 1] + |texts[i - 1]| + 1 && body[at[i] - 1] == '\n')
  }

  /** The texts stand in `body` from its start, one line each, and end at `end`. */
  ghost predicate LaidOut(body: string, texts: seq<string>, at: seq<nat>, end: nat) {
    && |at| == |texts| && texts != [] && end == at[|at| - 1] + |texts[|at| - 1]|
    && forall i :: 0 <= i < |texts| ==> TextAt(body, texts, at, i)
  }

  /** `sent` is `m` with the texts of the usable clips in front of its own text: each of them, in clip order, once,
      one per line, and an empty line before the own text unless that is blank. Without a usable clip `sent` is `m`. */
  ghost predicate VoiceFirst(m: Inbound, clips: seq<Clip>, maxBytes: nat, sent: Inbound) {
    && sent.(body := m.body) == m
    && if forall k :: 0 <= k < |clips| ==> !Usable(clips[k], maxBytes) then sent == m
       else exists from, at, end :: VoiceAt(m, clips, maxBytes, sent, from, at, end)
  }

  ghost predicate VoiceAt(m: Inbound, clips: seq<Clip>, maxBytes: nat, sent: Inbound,
                          from: seq<nat>, at: seq<nat>, end: nat) {
    && ListsUsable(clips, maxBytes, from) && LaidOut(sent.body, TextsOf(clips, from), at, end)
    && end <= |sent.body| && sent.body[end..] == if AllSpaces(m.body) then "" else "\n\n" + m.body
  }

  lemma {:induction false} JoinIsLaidOut(texts: seq<string>) returns (at: seq<nat>)
    requires texts != []
    ensures LaidOut(Join(texts, "\n"), texts, at, |Join(texts, "\n")|)
  {
    var n := |texts| - 1;
    if n == 0 {
      at := [0];
      assert texts[0][0..0 + |texts[0]|] == texts[0];
    } else {
      var before := texts[..n];
      var at' := JoinIsLaidOut(before);
      at := at' + [|Join(before, "\n")| + 1];
      JoinAppend(before, "\n", texts[n]);
      LaidOutAndMore(Join(before, "\n"), before, at', texts[n]);
      assert texts == before + [texts[n]];
    }
  }

  lemma LaidOutAndMore(head: string, before: seq<string>, at: seq<nat>, last: string)
    requires LaidOut(head, before, at, |head|)
    ensures LaidOut(head + "\n" + last, before + [last], at + [|head| + 1], |head + "\n" + last|)
  {
    var body, texts, at' := head + "\n" + last, before + [last], at + [|head| + 1];
    forall i | 0 <= i < |texts| ensures TextAt(body, texts, at', i) {
      if i < |before| {
        assert TextAt(head, before, at, i);
        TextAtInFront(head, "\n" + last, before, at, i);
        assert body == head + ("\n" + last);
        assert i > 0 ==> texts[i - 1] == before[i - 1] && at'[i - 1] == at[i - 1];
      } else {
        assert body[|head| + 1..|head| + 1 + |last|] == last;
      }
    }
  }

  lemma TextAtInFront(head: string, tail: string, texts: seq<string>, at: seq<nat>, i: nat)
    requires |at| == |texts| && i < |texts| && TextAt(head, texts, at, i)
    ensures TextAt(head + tail, texts, at, i)
  {
    assert (head + tail)[at[i]..at[i] + |texts[i]|] == head[at[i]..at[i] + |texts[i]|];
  }

  lemma LaidOutInFront(head: string, tail: string, texts: seq<string>, at: seq<nat>, end: nat)
    requires LaidOut(head, texts, at, end)
    ensures LaidOut(head + tail, texts, at, end)
  {
    forall i | 0 <= i < |texts| ensures TextAt(head + tail, texts, at, i) {
      TextAtInFront(head, tail, texts, at, i);
    }
  }

  lemma UsableContribute(clips: seq<Clip>, maxBytes: nat)
    ensures ListsUsable(clips, maxBytes, Contributing(clips, maxBytes))
    ensures Blocks(clips, maxBytes) == TextsOf(clips, Contributing(clips, maxBytes))
  {
    var from := Contributing(clips, maxBytes);
    assert forall k :: 0 <= k < |clips| ==> (BlockOf(clips[k], maxBytes).Some? <==> Usable(clips[k], maxBytes));
  }

  lemma FoldedBody(m: Inbound, blocks: seq<string>)
    requires blocks != []
    ensures Folded(m, blocks).body == Join(blocks, "\n") + if AllSpaces(m.body) then "" else "\n\n" + m.body
  {
    BlankIsAllSpaces(m.body);
  }

  /** Every usable clip reaches the agent's text. */
  lemma VoicesReachTheBody(m: Inbound, clips: seq<Clip>, maxBytes: nat)
    ensures VoiceFirst(m, clips, maxBytes, Folded(m, Blocks(clips, maxBytes)))
  {
    var from, blocks := Contributing(clips, maxBytes), Blocks(clips, maxBytes);
    UsableContribute(clips, maxBytes);
    if from != [] {
      assert Usable(clips[from[0]], maxBytes);
      var at := JoinIsLaidOut(blocks);
      FoldedBody(m, blocks);
      VoicesInFront(m, Join(blocks, "\n"), clips, maxBytes, from, at, Folded(m, blocks));
    }
  }

  lemma VoicesInFront(m: Inbound, head: string, clips: seq<Clip>, maxBytes: nat, from: seq<nat>, at: seq<nat>,
                      sent: Inbound)
    requires ListsUsable(clips, maxBytes, from) && LaidOut(head, TextsOf(clips, from), at, |head|)
    requires sent.body == head + if AllSpaces(m.body) then "" else "\n\n" + m.body
    ensures VoiceAt(m, clips, maxBytes, sent, from, at, |head|)
  {
    LaidOutInFront(head, if AllSpaces(m.body) then "" else "\n\n" + m.body, TextsOf(clips, from), at, |head|);
  }

  method TranscribeAudio(m: Inbound, clips: seq<Clip>, maxBytes: nat) returns (r: Inbound)
    requires |clips| == |AudioItems(m.media)|
    ensures r == Folded(m, Blocks(clips, maxBytes)) && VoiceFirst(m, clips, maxBytes, r)
  {
    var blocks: seq<string> := [];
    for i := 0 to |clips|
      invariant blocks == Blocks(clips[..i], maxBytes)
    {
      assert clips[..i + 1][..i] == clips[..i];
      var clip := clips[i];
      if clip.Fetched? && clip.size <= maxBytes && clip.heard.Block? {
        blocks := blocks + [clip.heard.text];
      }
    }
    assert clips[..|clips|] == clips;
    VoicesReachTheBody(m, clips, maxBytes);
    if blocks == [] {
      return m;
    }
    var head := Join(blocks, "\n");
    return m.(body := if Blank(m.body) then head else head + "\n\n" + m.body);
  }
}

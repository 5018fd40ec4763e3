/** `src/model.rs`: the structural stage that turns a webhook payload into the internal message, and
    the composition of a quoted reply. */
module InboundModel {
  import opened Wrappers
  import opened Text

  const DEFAULT_CHANNEL := "default"
  const GROUP_SUFFIX := "@g.us"

  datatype Kind = Message | Reaction | Call

  /** One attachment; the MIME type and file name that the source infers from the path are not
      part of this model. */
  datatype MediaItem = MediaItem(kind: string, gowaPath: string)

  datatype Inbound = Inbound(
    chatId: string, sender: string, body: string, id: string, isFromMe: bool, mentioned: bool,
    replyTo: Option<string>, quotedBody: Option<string>, channel: string, media: seq<MediaItem>,
    kind: Kind, reaction: Option<string>, reactedMessageId: Option<string>,
    autoRejected: Option<bool>, remotePlatform: Option<string>)
  {
    predicate IsGroup() {
      EndsWith(chatId, GROUP_SUFFIX)
    }
  }

  datatype GowaMedia =
    | Path(path: string)
    | Object(objectPath: Option<string>, url: Option<string>, caption: Option<string>)

  datatype GowaPayload = GowaPayload(
    chatId: Option<string>, from: Option<string>, body: Option<string>, id: Option<string>,
    isFromMe: bool, repliedToId: Option<string>, quotedBody: Option<string>,
    image: Option<GowaMedia>, audio: Option<GowaMedia>, document: Option<GowaMedia>,
    reaction: Option<string>, reactedMessageId: Option<string>, callId: Option<string>,
    autoRejected: bool, remotePlatform: Option<string>, groupJid: Option<string>)

  datatype GowaEnvelope = GowaEnvelope(event: string, payload: GowaPayload)

  datatype DropReason = NotAMessageEvent | FromMe | MissingChatId | MissingId | NonChat

  function NonEmpty(value: Option<string>): (r: Option<string>)
    ensures r.Some? ==> r.value != "" && Trimmed(r.value)
    ensures r.None? <==> value.None? || Blank(value.value)
    ensures r.Some? ==> r.value == Trim(value.value)
  {
    if value.Some? && Trim(value.value) != "" then Some(Trim(value.value)) else None
  }

  predicate IsNonChat(chatId: string) {
    chatId == "status@broadcast" || EndsWith(chatId, "@newsletter")
  }

  function StripSlashes(s: string): (r: string)
    ensures r != "" ==> r[0] != '/'
  {
    if s != "" && s[0] == '/' then StripSlashes(s[1..]) else s
  }

  /** The attachment of one media field, with the caption its object form carries. */
  function ExtractMedia(kind: string, field: Option<GowaMedia>): Option<(MediaItem, Option<string>)> {
    match field
    case None => None
    case Some(Path(path)) =>
      var p := NonEmpty(Some(path));
      if p.Some? then Some((MediaItem(kind, StripSlashes(p.value)), None)) else None
    case Some(Object(path, _, caption)) =>
      var p := NonEmpty(path);
      if p.Some? then Some((MediaItem(kind, StripSlashes(p.value)), NonEmpty(caption))) else None
  }

  function MediaOf(fields: seq<(string, Option<GowaMedia>)>): seq<MediaItem> {
    if fields == [] then []
    else
      var n := |fields| - 1;
      var x := ExtractMedia(fields[n].0, fields[n].1);
      MediaOf(fields[..n]) + if x.Some? then [x.value.0] else []
  }

  function CaptionsOf(fields: seq<(string, Option<GowaMedia>)>): seq<string> {
    if fields == [] then []
    else
      var n := |fields| - 1;
      var x := ExtractMedia(fields[n].0, fields[n].1);
      CaptionsOf(fields[..n]) + if x.Some? && x.value.1.Some? then [x.value.1.value] else []
  }

  function MediaFields(p: GowaPayload): seq<(string, Option<GowaMedia>)> {
    [("image", p.image), ("audio", p.audio), ("document", p.document)]
  }

  /** The text of a message: its own body, or the media captions when that is blank. */
  function BodyOf(p: GowaPayload): string {
    var body := if p.body.Some? then p.body.value else "";
    var captions := CaptionsOf(MediaFields(p));
    if Blank(body) && captions != [] then Join(captions, "\n") else body
  }

  function ToMessage(p: GowaPayload): Result<Inbound, DropReason> {
    var chatId, id := NonEmpty(p.chatId), NonEmpty(p.id);
    if p.isFromMe then Err(FromMe)
    else if chatId.None? then Err(MissingChatId)
    else if IsNonChat(chatId.value) then Err(NonChat)
    else if id.None? then Err(MissingId)
    else
      var from := NonEmpty(p.from);
      Ok(Inbound(chatId.value, if from.Some? then from.value else chatId.value, BodyOf(p), id.value,
                 false, false, NonEmpty(p.repliedToId), NonEmpty(p.quotedBody), DEFAULT_CHANNEL,
                 MediaOf(MediaFields(p)), Message, None, None, None, None))
  }

  function ToReaction(p: GowaPayload): Result<Inbound, DropReason> {
    var chatId, id := NonEmpty(p.chatId), NonEmpty(p.id);
    if p.isFromMe then Err(FromMe)
    else if chatId.None? then Err(MissingChatId)
    else if IsNonChat(chatId.value) then Err(NonChat)
    else if id.None? then Err(MissingId)
    else
      var from := NonEmpty(p.from);
      Ok(Inbound(chatId.value, if from.Some? then from.value else chatId.value, "", id.value,
                 false, false, None, None, DEFAULT_CHANNEL, [], Reaction,
                 Some(if p.reaction.Some? then Trim(p.reaction.value) else ""),
                 NonEmpty(p.reactedMessageId), None, None))
  }

  /** A call has no chat id of its own: a group call belongs to the group, any other to the caller.
      The from-me flag is not consulted. */
  function ToCall(p: GowaPayload): Result<Inbound, DropReason> {
    var caller, id := NonEmpty(p.from), NonEmpty(p.callId);
    if caller.None? then Err(MissingChatId)
    else
      var group := NonEmpty(p.groupJid);
      var chatId := if group.Some? then group.value else caller.value;
      if IsNonChat(chatId) then Err(NonChat)
      else if id.None? then Err(MissingId)
      else Ok(Inbound(chatId, caller.value, "", id.value, false, false, None, None, DEFAULT_CHANNEL,
                      [], Call, None, None, Some(p.autoRejected), NonEmpty(p.remotePlatform)))
  }

  function IntoInbound(e: GowaEnvelope): Result<Inbound, DropReason> {
    if e.event == "message" then ToMessage(e.payload)
    else if e.event == "message.reaction" then ToReaction(e.payload)
    else if e.event == "call.offer" then ToCall(e.payload)
    else Err(NotAMessageEvent)
  }

  /** What every later stage relies on: a usable id and conversation, nothing already addressed. */
  predicate WellFormed(m: Inbound) {
    && m.id != "" && Trimmed(m.id)
    && m.chatId != "" && Trimmed(m.chatId) && !IsNonChat(m.chatId)
    && m.sender != "" && !m.isFromMe
    && (m.kind != Message ==> m.body == "" && m.media == [] && m.replyTo.None? && m.quotedBody.None?)
    && (m.kind != Reaction ==> m.reaction.None? && m.reactedMessageId.None?)
    && (m.quotedBody.Some? ==> !Blank(m.quotedBody.value))
  }

  lemma MessageIsWellFormed(p: GowaPayload)
    requires ToMessage(p).Ok?
    ensures WellFormed(ToMessage(p).value) && !p.isFromMe
  {
    var m := ToMessage(p).value;
    assert m.id != "" && m.chatId != "";
    if m.quotedBody.Some? {
      TrimOfTrimmed(m.quotedBody.value);
    }
  }

  lemma ReactionIsWellFormed(p: GowaPayload)
    requires ToReaction(p).Ok?
    ensures WellFormed(ToReaction(p).value) && !p.isFromMe
  {
    var m := ToReaction(p).value;
    assert m.id != "" && m.chatId != "";
  }

  lemma CallIsWellFormed(p: GowaPayload)
    requires ToCall(p).Ok?
    ensures WellFormed(ToCall(p).value)
  {
    var m := ToCall(p).value;
    assert m.id != "" && m.chatId != "";
  }

  lemma AcceptedIsWellFormed(e: GowaEnvelope)
    requires IntoInbound(e).Ok?
    ensures var m := IntoInbound(e).value;
            WellFormed(m) && !m.mentioned && m.channel == "default"
            && m.chatId != "status@broadcast" && !EndsWith(m.chatId, "@newsletter")
            && (e.payload.isFromMe ==> m.kind == Call)
  {
    if e.event == "message" {
      MessageIsWellFormed(e.payload);
    } else if e.event == "message.reaction" {
      ReactionIsWellFormed(e.payload);
    } else {
      CallIsWellFormed(e.payload);
    }
  }

  // ---------------------------------------------------------------- field by field

  /** The optional text says something. */
  predicate Given(value: Option<string>) {
    value.Some? && !AllSpaces(value.value)
  }

  /** What a text becomes: trimmed, and absent when it says nothing. */
  function Kept(value: Option<string>): Option<string> {
    if Given(value) then Some(Trim(value.value)) else None
  }

  lemma KeptIsNonEmpty(value: Option<string>)
    ensures NonEmpty(value) == Kept(value)
  {
    if value.Some? {
      BlankIsAllSpaces(value.value);
    }
  }

  /** The path of an attachment, in either of its forms; one that carries only a CDN address has none. */
  function PathOf(field: Option<GowaMedia>): Option<string> {
    match field
    case None => None
    case Some(Path(path)) => Kept(Some(path))
    case Some(Object(path, _, _)) => Kept(path)
  }

  /** The caption counts only with a path beside it. */
  function CaptionOf(field: Option<GowaMedia>): Option<string> {
    if field.Some? && field.value.Object? && PathOf(field).Some? then Kept(field.value.caption) else None
  }

  function Listed<T>(x: Option<T>): seq<T> {
    if x.Some? then [x.value] else []
  }

  lemma {:induction false} OnlySlashesGo(s: string)
    ensures |StripSlashes(s)| <= |s| && s[|s| - |StripSlashes(s)|..] == StripSlashes(s)
    ensures forall i :: 0 <= i < |s| - |StripSlashes(s)| ==> s[i] == '/'
  {
    if s != "" && s[0] == '/' {
      OnlySlashesGo(s[1..]);
      forall i | 0 <= i < |s| - |StripSlashes(s)| ensures s[i] == '/' {
        assert i > 0 ==> s[i] == s[1..][i - 1];
      }
    }
  }

  function AttachmentOf(kind: string, field: Option<GowaMedia>): Option<MediaItem> {
    if PathOf(field).Some? then Some(MediaItem(kind, StripSlashes(PathOf(field).value))) else None
  }

  lemma ExtractsWhatIsThere(kind: string, field: Option<GowaMedia>)
    ensures ExtractMedia(kind, field) ==
            if PathOf(field).Some? then Some((AttachmentOf(kind, field).value, CaptionOf(field))) else None
  {
    match field
    case None =>
    case Some(Path(path)) => KeptIsNonEmpty(Some(path));
    case Some(Object(path, _, caption)) => KeptIsNonEmpty(path); KeptIsNonEmpty(caption);
  }

  /** Attachments in the order image, audio, document, and their captions likewise. */
  lemma MediaIsExact(p: GowaPayload)
    ensures MediaOf(MediaFields(p)) == Listed(AttachmentOf("image", p.image)) + Listed(AttachmentOf("audio", p.audio))
                                       + Listed(AttachmentOf("document", p.document))
    ensures CaptionsOf(MediaFields(p)) ==
            Listed(CaptionOf(p.image)) + Listed(CaptionOf(p.audio)) + Listed(CaptionOf(p.document))
  {
    var f := MediaFields(p);
    ExtractsWhatIsThere("image", p.image);
    ExtractsWhatIsThere("audio", p.audio);
    ExtractsWhatIsThere("document", p.document);
    assert f[..2][..1] == f[..1] && f[..1][..0] == [];
    assert MediaOf(f[..1]) == Listed(AttachmentOf("image", p.image))
      && CaptionsOf(f[..1]) == Listed(CaptionOf(p.image));
    assert MediaOf(f[..2]) == MediaOf(f[..1]) + Listed(AttachmentOf("audio", p.audio));
    assert CaptionsOf(f[..2]) == CaptionsOf(f[..1]) + Listed(CaptionOf(p.audio));
  }

  /** An own text is kept to the letter; without one the captions stand in, one per line. */
  predicate BodyFits(p: GowaPayload, body: string) {
    var captions := Listed(CaptionOf(p.image)) + Listed(CaptionOf(p.audio)) + Listed(CaptionOf(p.document));
    if Given(p.body) then body == p.body.value
    else if captions != [] then body == Join(captions, "\n")
    else body == if p.body.Some? then p.body.value else ""
  }

  /** The checks that messages and reactions share, in the source's order. */
  function FaultIn(isFromMe: bool, chatId: Option<string>, id: Option<string>): Option<DropReason> {
    if isFromMe then Some(FromMe)
    else if chatId.None? then Some(MissingChatId)
    else if IsNonChat(chatId.value) then Some(NonChat)
    else if id.None? then Some(MissingId)
    else None
  }

  function FaultOf(p: GowaPayload): Option<DropReason> {
    FaultIn(p.isFromMe, Kept(p.chatId), Kept(p.id))
  }

  lemma MessageFault(p: GowaPayload)
    ensures var fault := FaultIn(p.isFromMe, NonEmpty(p.chatId), NonEmpty(p.id));
            if fault.Some? then ToMessage(p) == Err(fault.value) else ToMessage(p).Ok?
  {
  }

  lemma ReactionFault(p: GowaPayload)
    ensures var fault := FaultIn(p.isFromMe, NonEmpty(p.chatId), NonEmpty(p.id));
            if fault.Some? then ToReaction(p) == Err(fault.value) else ToReaction(p).Ok?
  {
  }

  /** Conversation, sender and id are the payload's; a missing sender is the conversation itself. */
  predicate SameParties(p: GowaPayload, m: Inbound) {
    && Kept(p.chatId) == Some(m.chatId) && Kept(p.id) == Some(m.id)
    && Some(m.sender) == (if Kept(p.from).Some? then Kept(p.from) else Kept(p.chatId))
  }

  /** Messages and reactions are refused for their first fault, and for nothing else. */
  lemma FirstFaultRefuses(p: GowaPayload)
    ensures if FaultOf(p).Some? then ToMessage(p) == Err(FaultOf(p).value) else ToMessage(p).Ok?
    ensures if FaultOf(p).Some? then ToReaction(p) == Err(FaultOf(p).value) else ToReaction(p).Ok?
  {
    KeptParties(p);
    MessageFault(p);
    ReactionFault(p);
  }

  /** Each field of an accepted message comes from its own payload field. */
  lemma MessageFollowsPayload(p: GowaPayload)
    requires ToMessage(p).Ok?
    ensures var m := ToMessage(p).value;
            && SameParties(p, m) && m.kind == Message && BodyFits(p, m.body)
            && m.replyTo == Kept(p.repliedToId) && m.quotedBody == Kept(p.quotedBody)
            && m.media == Listed(AttachmentOf("image", p.image)) + Listed(AttachmentOf("audio", p.audio))
                          + Listed(AttachmentOf("document", p.document))
  {
    MessageFields(p);
    KeptParties(p);
    KeptIsNonEmpty(p.repliedToId);
    KeptIsNonEmpty(p.quotedBody);
    MediaIsExact(p);
    BodyIsExact(p);
  }

  lemma MessageFields(p: GowaPayload)
    requires ToMessage(p).Ok?
    ensures var m := ToMessage(p).value;
            && NonEmpty(p.chatId) == Some(m.chatId) && NonEmpty(p.id) == Some(m.id) && m.kind == Message
            && Some(m.sender) == (if NonEmpty(p.from).Some? then NonEmpty(p.from) else NonEmpty(p.chatId))
            && m.body == BodyOf(p) && m.media == MediaOf(MediaFields(p))
            && m.replyTo == NonEmpty(p.repliedToId) && m.quotedBody == NonEmpty(p.quotedBody)
  {
  }

  lemma KeptParties(p: GowaPayload)
    ensures NonEmpty(p.chatId) == Kept(p.chatId) && NonEmpty(p.id) == Kept(p.id) && NonEmpty(p.from) == Kept(p.from)
  {
    KeptIsNonEmpty(p.chatId);
    KeptIsNonEmpty(p.id);
    KeptIsNonEmpty(p.from);
  }

  lemma BodyIsExact(p: GowaPayload)
    ensures BodyFits(p, BodyOf(p))
  {
    MediaIsExact(p);
    BlankIsAllSpaces(if p.body.Some? then p.body.value else "");
  }

  /** The same for reactions: the emoji is kept, trimmed, also when it is empty. */
  lemma ReactionFollowsPayload(p: GowaPayload)
    requires ToReaction(p).Ok?
    ensures var m := ToReaction(p).value;
            && SameParties(p, m) && m.kind == Reaction && m.reactedMessageId == Kept(p.reactedMessageId)
            && m.reaction == Some(if p.reaction.Some? then Trim(p.reaction.value) else "")
  {
    ReactionFields(p);
    KeptParties(p);
    KeptIsNonEmpty(p.reactedMessageId);
  }

  lemma ReactionFields(p: GowaPayload)
    requires ToReaction(p).Ok?
    ensures var m := ToReaction(p).value;
            && NonEmpty(p.chatId) == Some(m.chatId) && NonEmpty(p.id) == Some(m.id) && m.kind == Reaction
            && Some(m.sender) == (if NonEmpty(p.from).Some? then NonEmpty(p.from) else NonEmpty(p.chatId))
            && m.reactedMessageId == NonEmpty(p.reactedMessageId)
            && m.reaction == Some(if p.reaction.Some? then Trim(p.reaction.value) else "")
  {
  }

  /** And for calls, which belong to the group or else to the caller. */
  lemma CallFollowsPayload(p: GowaPayload)
    ensures var caller, id := Kept(p.from), Kept(p.callId);
            var chatId := if Kept(p.groupJid).Some? then Kept(p.groupJid) else caller;
            if caller.None? then ToCall(p) == Err(MissingChatId)
            else if IsNonChat(chatId.value) then ToCall(p) == Err(NonChat)
            else if id.None? then ToCall(p) == Err(MissingId)
            else
              ToCall(p).Ok?
              && var m := ToCall(p).value;
                 && Some(m.sender) == caller && Some(m.chatId) == chatId && Some(m.id) == id
                 && m.kind == Call && m.autoRejected == Some(p.autoRejected)
                 && m.remotePlatform == Kept(p.remotePlatform)
  {
    KeptIsNonEmpty(p.from);
    KeptIsNonEmpty(p.groupJid);
    KeptIsNonEmpty(p.callId);
    KeptIsNonEmpty(p.remotePlatform);
  }

  /** The kind of an accepted event is the one its name says. */
  lemma KindFollowsEvent(e: GowaEnvelope)
    requires IntoInbound(e).Ok?
    ensures match IntoInbound(e).value.kind
            case Message => e.event == "message"
            case Reaction => e.event == "message.reaction"
            case Call => e.event == "call.offer"
  {
  }

  /** An event is refused as none of ours exactly when its name is none of these. */
  lemma OtherEventsAreRefused(e: GowaEnvelope)
    ensures IntoInbound(e) == Err(NotAMessageEvent) <==>
            e.event != "message" && e.event != "message.reaction" && e.event != "call.offer"
  {
  }

  method CollectMedia(fields: seq<(string, Option<GowaMedia>)>) returns (media: seq<MediaItem>, captions: seq<string>)
    ensures media == MediaOf(fields) && captions == CaptionsOf(fields)
  {
    media, captions := [], [];
    for i := 0 to |fields|
      invariant media == MediaOf(fields[..i]) && captions == CaptionsOf(fields[..i])
    {
      assert fields[..i + 1][..i] == fields[..i];
      var x := ExtractMedia(fields[i].0, fields[i].1);
      if x.Some? {
        if x.value.1.Some? {
          captions := captions + [x.value.1.value];
        }
        media := media + [x.value.0];
      }
    }
    assert fields[..|fields|] == fields;
  }
}

/** `src/policy.rs`: does a message reach the agent? */
module Policies {
  import opened InboundModel

  datatype DmPolicy = DmOpen | DmAllowlist | DmOff

  datatype GroupPolicy = GroupOff | GroupAllowlist | GroupOpen

  datatype PolicyConfig = PolicyConfig(
    dmPolicy: DmPolicy, dmAllow: seq<string>, groupPolicy: GroupPolicy, groupAllow: seq<string>,
    requireMention: bool, freeResponseChats: seq<string>)

  datatype DropCause = DmsOff | SenderNotAllowed | GroupsOff | GroupNotAllowed | NotMentioned

  datatype Decision = Allow | Drop(cause: DropCause)

  function Evaluate(c: PolicyConfig, m: Inbound): Decision {
    if m.IsGroup() then EvaluateGroup(c, m) else EvaluateDm(c, m)
  }

  function EvaluateDm(c: PolicyConfig, m: Inbound): Decision {
    match c.dmPolicy
    case DmOff => Drop(DmsOff)
    case DmOpen => Allow
    case DmAllowlist => if m.sender in c.dmAllow then Allow else Drop(SenderNotAllowed)
  }

  function EvaluateGroup(c: PolicyConfig, m: Inbound): Decision {
    if c.groupPolicy == GroupOff then Drop(GroupsOff)
    else if c.groupPolicy == GroupAllowlist && m.chatId !in c.groupAllow then Drop(GroupNotAllowed)
    else if m.chatId in c.freeResponseChats then Allow
    else if c.requireMention && !m.mentioned then Drop(NotMentioned)
    else Allow
  }

  /** The mention gate applies to this message: its group answers only when addressed. */
  predicate MentionGated(c: PolicyConfig, m: Inbound) {
    m.IsGroup() && c.requireMention && m.chatId !in c.freeResponseChats
  }

  /** The sender of a direct message may write to the bot, or the group is one the bot listens to. */
  predicate InScope(c: PolicyConfig, m: Inbound) {
    if m.IsGroup() then c.groupPolicy == GroupOpen || (c.groupPolicy == GroupAllowlist && m.chatId in c.groupAllow)
    else c.dmPolicy == DmOpen || (c.dmPolicy == DmAllowlist && m.sender in c.dmAllow)
  }

  /** What the operator's settings ask of a message. */
  predicate Admissible(c: PolicyConfig, m: Inbound) {
    InScope(c, m) && (MentionGated(c, m) ==> m.mentioned)
  }

  /** The cause that is logged for a refusal, read off the settings. */
  predicate CauseFits(c: PolicyConfig, m: Inbound, cause: DropCause) {
    match cause
    case DmsOff => !m.IsGroup() && c.dmPolicy == DmOff
    case SenderNotAllowed => !m.IsGroup() && c.dmPolicy == DmAllowlist && m.sender !in c.dmAllow
    case GroupsOff => m.IsGroup() && c.groupPolicy == GroupOff
    case GroupNotAllowed => m.IsGroup() && c.groupPolicy == GroupAllowlist && m.chatId !in c.groupAllow
    case NotMentioned => InScope(c, m) && MentionGated(c, m) && !m.mentioned
  }

  /** The branches decide exactly what the settings say. */
  lemma PolicyIsExact(c: PolicyConfig, m: Inbound)
    ensures Evaluate(c, m) == Allow <==> Admissible(c, m)
    ensures forall cause :: Evaluate(c, m) == Drop(cause) <==> CauseFits(c, m, cause)
  {
  }
}

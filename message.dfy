/** The chat entities of internal/model/message.go: conversations, their
    members, and messages with the two-minute recall window. */
module Messages {
  import opened GoTypes

  const ConversationActive := "active"
  const ConversationPrivate := "private"
  const ConversationGroup := "group"
  const ConversationTeam := "team"

  const MessageSent := "sent"

  /** How long after sending a message may still be recalled: 2 minutes. */
  const RecallWindow := 2 * SecondsPerMinute

  class Conversation {
    var Title: string
    var Type: string
    var Status: string
    var MaxMembers: Int64

    predicate Defaulted()
      reads this
    {
      Status != "" && MaxMembers != 0
    }

    /** The create hook: an empty status becomes `active`, a member limit of
        0 becomes 100. */
    method BeforeCreate()
      modifies this
      ensures Status == if old(Status) == "" then ConversationActive else old(Status)
      ensures MaxMembers == if old(MaxMembers) == 0 then 100 else old(MaxMembers)
      ensures Title == old(Title) && Type == old(Type)
      ensures old(Status) == "" ==> IsActive()
      ensures Defaulted()
      ensures old(Defaulted()) ==> unchanged(this)
    {
      if Status == "" {
        Status := ConversationActive;
      }
      if MaxMembers == 0 {
        MaxMembers := 100;
      }
    }

    predicate IsActive() reads this { Status == ConversationActive }
    predicate IsPrivate() reads this { Type == ConversationPrivate }
    predicate IsGroup() reads this { Type == ConversationGroup }
    predicate IsTeamConversation() reads this { Type == ConversationTeam }
  }

  datatype ConversationMember = ConversationMember(nickname: string, role: string, adminFlag: bool)
  {
    predicate IsAdmin() { adminFlag }
    predicate CanManageConversation() { adminFlag }
  }

  class Message {
    var Content: string
    var Type: string
    var Status: string
    var CreatedAt: Time
    var RecalledFlag: bool

    /** The create hook: an empty status becomes `sent`. */
    method BeforeCreate()
      modifies this
      ensures Status == if old(Status) == "" then MessageSent else old(Status)
      ensures Content == old(Content) && Type == old(Type)
      ensures CreatedAt == old(CreatedAt) && RecalledFlag == old(RecalledFlag)
      ensures Status != ""
      ensures old(Status) != "" ==> unchanged(this)
    {
      if Status == "" {
        Status := MessageSent;
      }
    }

    predicate IsRecalled() reads this { RecalledFlag }

    /** Recallable while not yet recalled and at most two minutes old. */
    predicate CanRecall(now: Time)
      reads this
    {
      !RecalledFlag && now - CreatedAt <= RecallWindow
    }
  }

  /** At most one of the conversation kinds holds. */
  lemma ConversationKindsExclusive(c: Conversation)
    ensures !(c.IsPrivate() && c.IsGroup())
    ensures !(c.IsPrivate() && c.IsTeamConversation())
    ensures !(c.IsGroup() && c.IsTeamConversation())
  {
  }

  lemma ManageIsAdmin(cm: ConversationMember)
    ensures cm.CanManageConversation() == cm.IsAdmin()
  {
  }

  /** A recalled message cannot be recalled again; the window includes its
      last instant, and once closed stays closed. */
  lemma RecallWindowRule(m: Message, now: Time, later: Time)
    requires now <= later
    ensures m.CanRecall(now) ==> !m.IsRecalled()
    ensures !m.IsRecalled() ==> m.CanRecall(m.CreatedAt + 120) && !m.CanRecall(m.CreatedAt + 121)
    ensures !m.CanRecall(now) ==> !m.CanRecall(later)
  {
  }
}

/**
 * Who may subscribe to each private channel, and what that means for the
 * chat messages and notifications sent on them.
 */
module ChannelRules {
  import opened Shared
  import opened Schema
  import opened Broadcast
  import Conversations

  /** The authenticated user asking to subscribe. */
  datatype Subscriber = Subscriber(id: int, role: Option<string>)

  predicate IsClerk(u: Subscriber)
  {
    u.role == Some("clerk")
  }

  /** The authorisation callbacks, one per channel pattern. */
  predicate Authorized(u: Subscriber, ch: Channel, conversations: seq<Conversation>): (b: bool)
    ensures ch.ConversationChannel? && b ==> exists i :: (0 <= i < |conversations| && conversations[i].id == ch.conversationId
      && (IsClerk(u) || u.id == conversations[i].userId))
    ensures ch.ChatChannel? ==> (b <==> u.id == ch.userId || IsClerk(u))
    ensures ch.ClerksShared? ==> (b <==> IsClerk(u))
    ensures ch.ClerkChannel? ==> (b <==> u.id == ch.clerkId || u.role == Some("customer"))
    ensures ch.NotificationsChannel? ==> (b <==> u.id == ch.userId)
  {
    match ch
    case ConversationChannel(id) =>
      var found := FindIndex(conversations, Conversations.HasId(id));
      found.Some? && (IsClerk(u) || u.id == conversations[found.value].userId)
    case ChatChannel(userId) => u.id == userId || IsClerk(u)
    case ClerksShared => IsClerk(u)
    case ClerkChannel(clerkId) => u.id == clerkId || u.role == Some("customer")
    case NotificationsChannel(userId) => u.id == userId
  }

  /** A conversation's channel: closed when it does not exist, otherwise open to clerks and to its customer only. */
  lemma ConversationChannelAccess(u: Subscriber, conversations: seq<Conversation>, k: nat)
    requires k < |conversations|
    requires forall i :: 0 <= i < |conversations| && conversations[i].id == conversations[k].id ==> i == k
    ensures Authorized(u, ConversationChannel(conversations[k].id), conversations)
      <==> IsClerk(u) || u.id == conversations[k].userId
  {
    var found := FindIndex(conversations, Conversations.HasId(conversations[k].id));
    assert found.Some? && Conversations.HasId(conversations[k].id)(conversations[found.value]);
  }

  lemma MissingConversationIsClosed(u: Subscriber, conversations: seq<Conversation>, id: int)
    requires forall c :: c in conversations ==> c.id != id
    ensures !Authorized(u, ConversationChannel(id), conversations)
  {
    assert forall i :: 0 <= i < |conversations| ==> !Conversations.HasId(id)(conversations[i]);
  }

  /** Only clerks may listen on the shared clerk channel, and a clerk may listen on any customer's chat channel. */
  lemma ClerksHearEveryChat(u: Subscriber, userId: int, conversations: seq<Conversation>)
    ensures Authorized(u, ClerksShared, conversations) <==> IsClerk(u)
    ensures IsClerk(u) ==> Authorized(u, ChatChannel(userId), conversations)
    ensures !IsClerk(u) ==> (Authorized(u, ChatChannel(userId), conversations) <==> u.id == userId)
  {
  }

  /** A notification is heard by its receiver and by nobody else. */
  lemma NotificationReachesOnlyReceiver(u: Subscriber, n: Notification, conversations: seq<Conversation>)
    ensures Authorized(u, NotificationChannelOf(n), conversations) <==> u.id == n.receiverId
  {
  }

  /**
   * A chat message stored in an existing conversation and addressed to its
   * owner goes out on channels that a clerk may all listen on, and that the
   * owner may all listen on except the sender's own chat channel.
   */
  lemma ChatMessageReachesParticipants(m: Message, conversations: seq<Conversation>, k: nat, owner: Subscriber, clerk: Subscriber)
    requires k < |conversations|
    requires forall i :: 0 <= i < |conversations| && conversations[i].id == conversations[k].id ==> i == k
    requires m.conversationId == Some(conversations[k].id) && m.receiverId == Some(conversations[k].userId)
    requires owner.id == conversations[k].userId && IsClerk(clerk)
    ensures forall ch :: ch in Channels(m) ==> Authorized(clerk, ch, conversations)
    ensures forall ch :: ch in Channels(m) && (m.senderId.None? || ch != ChatChannel(m.senderId.value)) ==>
      Authorized(owner, ch, conversations)
  {
    ConversationChannelAccess(owner, conversations, k);
    ConversationChannelAccess(clerk, conversations, k);
  }
}

/**
 * The real-time events: the private channels they go out on, the flags a
 * chat message carries, and the event names.
 */
module Broadcast {
  import opened Shared
  import opened Schema

  /** The private channels of the application, by their name patterns. */
  datatype Channel =
    | ConversationChannel(conversationId: int)   // chat.conversation.{id}
    | ChatChannel(userId: int)                   // chat.{id}
    | ClerksShared                               // clerks.shared
    | ClerkChannel(clerkId: int)                 // clerk.{id}
    | NotificationsChannel(userId: int)          // notifications.{id}

  /**
   * `MessageSent::broadcastOn`: the conversation's channel when the message
   * has a conversation, the receiver's chat channel when it has a receiver,
   * and the sender's when the sender is set and is not the receiver.
   */
  function Channels(m: Message): (r: seq<Channel>)
    ensures |r| <= 3
    ensures forall i, j :: 0 <= i < j < |r| ==> r[i] != r[j]
    ensures forall c :: ConversationChannel(c) in r <==> Present(m.conversationId) && m.conversationId.value == c
    ensures Present(m.conversationId) ==> r[0] == ConversationChannel(m.conversationId.value)
    ensures m.receiverId.Some? ==> (ChatChannel(m.receiverId.value) in r <==> Present(m.receiverId))
    ensures m.senderId.Some? ==> (ChatChannel(m.senderId.value) in r <==> Present(m.senderId))
    ensures forall u :: ChatChannel(u) in r ==> m.receiverId == Some(u) || m.senderId == Some(u)
    ensures forall ch :: ch in r ==> ch.ConversationChannel? || ch.ChatChannel?
  {
    (if Present(m.conversationId) then [ConversationChannel(m.conversationId.value)] else [])
    + (if Present(m.receiverId) then [ChatChannel(m.receiverId.value)] else [])
    + (if Present(m.senderId) && m.senderId != m.receiverId then [ChatChannel(m.senderId.value)] else [])
  }

  /** The receiver's channel comes before the sender's. */
  lemma ReceiverBeforeSender(m: Message, i: nat, j: nat)
    requires i < |Channels(m)| && j < |Channels(m)|
    requires m.receiverId.Some? && Channels(m)[i] == ChatChannel(m.receiverId.value)
    requires m.senderId.Some? && Channels(m)[j] == ChatChannel(m.senderId.value) && m.senderId != m.receiverId
    ensures i < j
  {
  }

  /** The flags computed for a message: whether it carries a product card, and whether it has pictures. */
  datatype Flags = Flags(isProductReference: bool, hasImages: bool)

  function FlagsOf(m: Message): (r: Flags)
    ensures r.isProductReference <==> m.product.Some?
    ensures r.hasImages <==> m.images != []
  {
    Flags(m.product.Some?, |m.images| > 0)
  }

  /** A message's own flags do not depend on who sent it or where. */
  lemma FlagsIgnoreRouting(m: Message, conversationId: Option<int>, senderId: Option<int>, receiverId: Option<int>)
    ensures FlagsOf(m.(conversationId := conversationId, senderId := senderId, receiverId := receiverId)) == FlagsOf(m)
  {
  }

  /** `MessageSent::broadcastAs`. */
  const MessageEvent := "message.sent"

  /** `NotificationSent::broadcastOn`: the receiver's notification channel. */
  function NotificationChannelOf(n: Notification): (r: Channel)
    ensures r.NotificationsChannel? && r.userId == n.receiverId
    ensures forall m :: r !in Channels(m)
  {
    NotificationsChannel(n.receiverId)
  }
}

/**
 * The clerk side of the chat: reading a customer's conversation, replying
 * to a customer, and suggesting a product. A clerk always writes into the
 * receiving customer's own conversation and becomes its active clerk.
 */
module ClerkMessages {
  import opened Shared
  import opened Schema
  import opened Conversations
  import opened Broadcast
  import Messages

  datatype IndexAnswer =
    | CustomerRequired   // 400
    | Shown(conversation: Conversation, page: seq<Message>)

  /** `index`: a falsy `customer_id` is a 400; otherwise the customer's conversation, opened if absent, and one page of it. */
  method Index(db: Database, customerId: Option<int>, before: Option<int>, now: Time) returns (r: IndexAnswer)
    requires db.Valid()
    modifies db`conversations, db`nextId
    ensures db.Valid()
    ensures r.CustomerRequired? <==> !Present(customerId)
    ensures r.CustomerRequired? ==> db.conversations == old(db.conversations) && db.nextId == old(db.nextId)
    ensures r.Shown? ==>
      var own := FirstOrCreate(old(db.conversations), OwnedBy(customerId.value), Opened(old(db.nextId), customerId.value, None, now));
      && db.conversations == own.0 && r.conversation == own.0[own.1]
      && r.page == Messages.Page(db.messages, r.conversation.id, before)
  {
    if !Present(customerId) {
      return CustomerRequired;
    }
    var k := OpenOwn(db, customerId.value, now);
    r := Shown(db.conversations[k], Messages.Page(db.messages, db.conversations[k].id, before));
  }

  /**
   * The conversation a clerk's message to `receiver` goes into: the one
   * named by `conversationId` if it is the receiver's, otherwise the
   * receiver's first conversation, opened if there is none.
   */
  function Target(rows: seq<Conversation>, receiver: int, conversationId: Option<int>, nextId: int, now: Time): (r: (seq<Conversation>, nat))
    ensures r.1 < |r.0| && r.0[r.1].userId == receiver
    ensures r.0 == rows || r.0 == rows + [Opened(nextId, receiver, None, now)]
    ensures Present(conversationId) && (exists c :: c in rows && c.id == conversationId.value && c.userId == receiver) ==>
      r.0 == rows && r.0[r.1].id == conversationId.value
  {
    var named := if Present(conversationId) then FindIndex(rows, Messages.OwnWithId(receiver, conversationId.value)) else None;
    if named.Some? then (rows, named.value)
    else FirstOrCreate(rows, OwnedBy(receiver), Opened(nextId, receiver, None, now))
  }

  /** A conversation id that is not the receiver's is ignored: the message goes where it would have gone without one. */
  lemma ForeignConversationIsIgnored(rows: seq<Conversation>, receiver: int, conversationId: int, nextId: int, now: Time)
    requires forall c :: c in rows && c.id == conversationId ==> c.userId != receiver
    ensures Target(rows, receiver, Some(conversationId), nextId, now) == Target(rows, receiver, None, nextId, now)
  {
    assert forall i :: 0 <= i < |rows| ==> !Messages.OwnWithId(receiver, conversationId)(rows[i]);
  }

  /** The conversation after a clerk's message: the clerk is its active clerk, and it is stamped now. */
  function Attended(c: Conversation, clerk: int, now: Time): (r: Conversation)
    ensures r.id == c.id && r.userId == c.userId && r.clerkId == c.clerkId
    ensures r.activeClerkId == Some(clerk) && r.lastMessageAt == Some(now) && r.updatedAt == now
  {
    c.(activeClerkId := Some(clerk), lastMessageAt := Some(now), updatedAt := now)
  }

  /** Message `body` as the clerk sends it into conversation `c`: from the clerk, to the conversation's owner. */
  function Routed(body: Message, c: Conversation, clerk: int): Message
  {
    body.(conversationId := Some(c.id), senderId := Some(clerk), receiverId := Some(c.userId))
  }

  /** The shared part of both sends: pick the conversation, store the message, mark the conversation attended. */
  method Deliver(db: Database, clerk: int, receiver: int, conversationId: Option<int>, body: Message, now: Time)
    returns (m: Message)
    requires db.Valid()
    modifies db`conversations, db`messages, db`nextId
    ensures db.Valid()
    ensures var t := Target(old(db.conversations), receiver, conversationId, old(db.nextId), now);
      && db.conversations == t.0[t.1 := Attended(t.0[t.1], clerk, now)]
      && m == Routed(body, t.0[t.1], clerk).(id := m.id)
      && m.receiverId == Some(receiver)
      && db.messages == old(db.messages) + [m]
  {
    var named := if Present(conversationId) then FindIndex(db.conversations, Messages.OwnWithId(receiver, conversationId.value)) else None;
    var k: nat;
    if named.Some? {
      k := named.value;
    } else {
      k := OpenOwn(db, receiver, now);
    }
    var c := db.conversations[k];
    m := AppendMessage(db, Routed(body, c, clerk));
    Save(db, k, Attended(c, clerk, now));
  }

  /** `sendMessage`: the text and pictures as sent; no product card. */
  method SendMessage(db: Database, clerk: int, receiver: int, conversationId: Option<int>, text: Option<string>,
                     uploads: seq<string>, now: Time) returns (m: Message)
    requires db.Valid() && receiver in db.users
    requires conversationId.Some? ==> exists c :: c in db.conversations && c.id == conversationId.value
    modifies db`conversations, db`messages, db`nextId
    ensures db.Valid()
    ensures var t := Target(old(db.conversations), receiver, conversationId, old(db.nextId), now);
      && db.conversations == t.0[t.1 := Attended(t.0[t.1], clerk, now)]
      && m == Message(m.id, Some(t.0[t.1].id), Some(clerk), Some(receiver), text, None, uploads, false)
      && db.messages == old(db.messages) + [m]
    ensures FlagsOf(m) == Flags(false, uploads != [])
  {
    m := Deliver(db, clerk, receiver, conversationId, Message(0, None, None, None, text, None, uploads, false), now);
  }

  /** The default text of a product suggestion without a note. */
  const SuggestionText := "Here's a product suggestion for you!"

  /** The suggested product with the uploads appended to its pictures, when there are any. */
  function WithUploads(p: ProductPayload, uploads: seq<string>): (r: ProductPayload)
    requires p.Suggestion?
    ensures r.Suggestion? && r.note == p.note && r.fields == p.fields
    ensures uploads == [] ==> r == p
    ensures uploads != [] ==> r.gallery == Some((if p.gallery.Some? then p.gallery.value else []) + uploads)
  {
    if uploads == [] then p
    else p.(gallery := Some((if p.gallery.Some? then p.gallery.value else []) + uploads))
  }

  /** Uploads never drop or reorder the product's own pictures: they come first, then the uploads in order. */
  lemma UploadsFollowProductImages(p: ProductPayload, uploads: seq<string>)
    requires p.Suggestion? && p.gallery.Some? && uploads != []
    ensures WithUploads(p, uploads).gallery.value[..|p.gallery.value|] == p.gallery.value
    ensures WithUploads(p, uploads).gallery.value[|p.gallery.value|..] == uploads
  {
  }

  /** The suggestion's message text: its note, else the default text. */
  function NoteOf(p: ProductPayload): (r: string)
    requires p.Suggestion?
    ensures p.note.Some? ==> r == p.note.value
    ensures p.note.None? ==> r == SuggestionText
  {
    if p.note.Some? then p.note.value else SuggestionText
  }

  /** `sendProduct`: the suggestion as the message's product card, its note as the text, no pictures of its own. */
  method SendProduct(db: Database, clerk: int, receiver: int, conversationId: Option<int>, product: ProductPayload,
                     uploads: seq<string>, now: Time) returns (m: Message, flags: Flags)
    requires db.Valid() && receiver in db.users && product.Suggestion?
    requires conversationId.Some? ==> exists c :: c in db.conversations && c.id == conversationId.value
    modifies db`conversations, db`messages, db`nextId
    ensures db.Valid()
    ensures var t := Target(old(db.conversations), receiver, conversationId, old(db.nextId), now);
      && db.conversations == t.0[t.1 := Attended(t.0[t.1], clerk, now)]
      && m == Message(m.id, Some(t.0[t.1].id), Some(clerk), Some(receiver), Some(NoteOf(product)),
        Some(WithUploads(product, uploads)), [], false)
      && db.messages == old(db.messages) + [m]
    ensures flags == Flags(true, false) && flags == FlagsOf(m)
  {
    var body := Message(0, None, None, None, Some(NoteOf(product)), Some(WithUploads(product, uploads)), [], false);
    m := Deliver(db, clerk, receiver, conversationId, body, now);
    flags := FlagsOf(m).(isProductReference := true);
  }
}

/**
 * The customer side of the chat: reading one's own conversation a page
 * at a time, and posting a message, optionally with a product card and
 * pictures. Every message is addressed to the conversation's owner.
 */
module Messages {
  import opened Shared
  import opened Schema
  import opened Conversations

  /** The messages of conversation `id` older than `before` when that is given (a falsy `before_id` is ignored). */
  function OnPage(id: int, before: Option<int>): Message -> bool
  {
    (m: Message) => m.conversationId == Some(id) && (!Present(before) || m.id < before.value)
  }

  /** The messages one page shows, in creation order. */
  function Page(messages: seq<Message>, id: int, before: Option<int>): (r: seq<Message>)
    ensures forall m :: m in r <==> (m in messages && m.conversationId == Some(id)
      && (Present(before) ==> m.id < before.value))
  {
    Filter(messages, OnPage(id, before))
  }

  /** Pages keep the table's id order. */
  lemma PageIsAscending(messages: seq<Message>, bound: int, id: int, before: Option<int>)
    requires MessageTable(messages, bound)
    ensures Ascending(Page(messages, id, before), (m: Message) => m.id)
  {
    FilterKeepsAscending(messages, (m: Message) => m.id, OnPage(id, before));
  }

  /** Paging back never skips a message: the older page is the start of the whole thread. */
  lemma {:induction false} OlderPageIsPrefix(messages: seq<Message>, id: int, before: Option<int>)
    requires Ascending(messages, (m: Message) => m.id)
    ensures Page(messages, id, before) <= Page(messages, id, None)
  {
    if messages != [] {
      var tail := messages[1..];
      assert Ascending(tail, (m: Message) => m.id) by {
        assert forall i :: 0 <= i < |tail| ==> tail[i] == messages[i + 1];
      }
      OlderPageIsPrefix(tail, id, before);
      var h := messages[0];
      var older, all := Page(tail, id, before), Page(tail, id, None);
      assert Page(messages, id, before) == (if OnPage(id, before)(h) then [h] else []) + older;
      assert Page(messages, id, None) == (if OnPage(id, None)(h) then [h] else []) + all;
      if !OnPage(id, before)(h) && OnPage(id, None)(h) {
        assert forall i :: 0 <= i < |tail| ==> tail[i] == messages[i + 1];
        FilterNothing(tail, OnPage(id, before));
      }
    }
  }

  /** `index`: the caller's conversation, opened if absent, and one page of it. */
  method Index(db: Database, u: int, before: Option<int>, now: Time) returns (c: Conversation, page: seq<Message>)
    requires db.Valid()
    modifies db`conversations, db`nextId
    ensures db.Valid()
    ensures var r := FirstOrCreate(old(db.conversations), OwnedBy(u), Opened(old(db.nextId), u, None, now));
      db.conversations == r.0 && c == r.0[r.1]
    ensures c.userId == u
    ensures page == Page(db.messages, c.id, before)
  {
    var k := OpenOwn(db, u, now);
    c := db.conversations[k];
    page := Page(db.messages, c.id, before);
  }

  /** The product card as the form sends it; every field may be missing. */
  datatype ProductInput = ProductInput(
    id: Option<int>,
    name: Option<string>,
    price: Option<Money>,
    material: Option<string>,
    description: Option<string>,
    images: Option<seq<string>>,
    currentImageIndex: Option<int>,
    timestamp: Option<string>)

  /** The stored card: no pictures, the first picture and the server clock stand in for missing fields. */
  function SnapshotOf(p: ProductInput, now: Time): (r: ProductPayload)
    ensures r.Snapshot? && r.id == p.id && r.name == p.name && r.price == p.price
    ensures p.images.None? ==> r.images == []
    ensures p.currentImageIndex.None? ==> r.currentImageIndex == 0
    ensures p.timestamp.None? ==> r.timestamp == ServerStamp(now)
    ensures p.images.Some? ==> r.images == p.images.value
    ensures p.timestamp.Some? ==> r.timestamp == ClientStamp(p.timestamp.value)
  {
    Snapshot(p.id, p.name, p.price, p.material, p.description,
      if p.images.Some? then p.images.value else [],
      if p.currentImageIndex.Some? then p.currentImageIndex.value else 0,
      if p.timestamp.Some? then ClientStamp(p.timestamp.value) else ServerStamp(now))
  }

  /** The conversation after a customer's message: stamped now; the clerk named in `receiver_id`, if any, becomes the active one. */
  function Delivered(c: Conversation, receiverId: Option<int>, now: Time): (r: Conversation)
    ensures r.id == c.id && r.userId == c.userId && r.clerkId == c.clerkId
    ensures r.lastMessageAt == Some(now) && r.updatedAt == now
    ensures Present(receiverId) ==> r.activeClerkId == receiverId
    ensures !Present(receiverId) ==> r.activeClerkId == c.activeClerkId
  {
    c.(lastMessageAt := Some(now), updatedAt := now,
       activeClerkId := if Present(receiverId) then receiverId else c.activeClerkId)
  }

  /** The customer's conversation with id `id`. */
  function OwnWithId(u: int, id: int): Conversation -> bool
  {
    (c: Conversation) => c.id == id && c.userId == u
  }

  /** What the message form sends. */
  datatype Post = Post(
    conversationId: Option<int>,
    receiverId: Option<int>,
    text: Option<string>,
    product: Option<ProductInput>,
    isQuickOption: Option<bool>,
    uploads: seq<string>)

  /** The message stored for post `p` into conversation `c` by `u`, before it is given its id. */
  function Composed(p: Post, c: Conversation, u: int, now: Time): (r: Message)
    ensures r.conversationId == Some(c.id) && r.senderId == Some(u) && r.receiverId == Some(c.userId)
    ensures r.text == p.text && r.images == p.uploads
    ensures r.isQuickOption <==> p.isQuickOption == Some(true)
    ensures r.product.Some? <==> p.product.Some?
  {
    Message(0, Some(c.id), Some(u), Some(c.userId), p.text,
      if p.product.Some? then Some(SnapshotOf(p.product.value, now)) else None,
      p.uploads,
      if p.isQuickOption.Some? then p.isQuickOption.value else false)
  }

  datatype StoreAnswer =
    | ConversationNotFound   // 404
    | Stored(message: Message)

  /**
   * `store`: a conversation id the caller does not own is a 404 that
   * changes nothing; without one the caller's conversation is found or
   * opened. The message goes to the conversation's owner.
   */
  method Store(db: Database, u: int, p: Post, now: Time) returns (r: StoreAnswer)
    requires db.Valid()
    requires p.conversationId.Some? ==> exists c :: c in db.conversations && c.id == p.conversationId.value
    requires p.receiverId.Some? ==> p.receiverId.value in db.users
    modifies db`conversations, db`messages, db`nextId
    ensures db.Valid()
    ensures r.ConversationNotFound? <==> (p.conversationId.Some?
      && FindIndex(old(db.conversations), OwnWithId(u, p.conversationId.value)).None?)
    ensures r.ConversationNotFound? ==> (db.conversations == old(db.conversations)
      && db.messages == old(db.messages) && db.nextId == old(db.nextId))
    ensures (r.Stored? && p.conversationId.Some?) ==>
      var k := FindIndex(old(db.conversations), OwnWithId(u, p.conversationId.value)).value;
      var c := old(db.conversations)[k];
      && db.conversations == old(db.conversations)[k := Delivered(c, p.receiverId, now)]
      && r.message == Composed(p, c, u, now).(id := old(db.nextId))
      && db.messages == old(db.messages) + [r.message]
    ensures p.conversationId.None? ==>
      var own := FirstOrCreate(old(db.conversations), OwnedBy(u), Opened(old(db.nextId), u, None, now));
      var c := own.0[own.1];
      && r.Stored?
      && db.conversations == own.0[own.1 := Delivered(c, p.receiverId, now)]
      && r.message == Composed(p, c, u, now).(id := if own.0 == old(db.conversations) then old(db.nextId) else old(db.nextId) + 1)
      && db.messages == old(db.messages) + [r.message]
    ensures r.Stored? ==> r.message.receiverId == Some(u)
  {
    var k: nat;
    if p.conversationId.Some? {
      var found := FindIndex(db.conversations, OwnWithId(u, p.conversationId.value));
      if found.None? {
        return ConversationNotFound;
      }
      k := found.value;
    } else {
      k := OpenOwn(db, u, now);
    }
    var c := db.conversations[k];
    var m := AppendMessage(db, Composed(p, c, u, now));
    Save(db, k, Delivered(c, p.receiverId, now));
    r := Stored(m);
  }
}

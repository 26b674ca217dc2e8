/**
 * Chat conversations: who may read and write one, finding or opening a
 * conversation, the thread of a conversation, and posting into it
 * through the conversation API. The helpers that open a customer's own
 * conversation and append a message are shared by both message
 * controllers.
 */
module Conversations {
  import opened Shared
  import opened Schema

  /** `authorizeConversation`: the caller is the conversation's customer or its assigned clerk. */
  predicate CanAccess(c: Conversation, u: int): (b: bool)
    ensures u == c.userId ==> b
    ensures c.clerkId.None? ==> (b <==> u == c.userId)
    ensures c.clerkId.Some? ==> (b <==> u == c.userId || u == c.clerkId.value)
  {
    u == c.userId || c.clerkId == Some(u)
  }

  function HasId(id: int): Conversation -> bool
  {
    (c: Conversation) => c.id == id
  }

  /** The conversations `firstOrCreate(['user_id' => u])` matches. */
  function OwnedBy(u: int): Conversation -> bool
  {
    (c: Conversation) => c.userId == u
  }

  /** The conversations `firstOrCreate` on a (user, clerk) pair matches; a null clerk matches a null column. */
  function Between(u: int, clerk: Option<int>): Conversation -> bool
  {
    (c: Conversation) => c.userId == u && c.clerkId == clerk
  }

  /** A conversation as `firstOrCreate` inserts it: no active clerk, no message yet. */
  function Opened(id: int, u: int, clerk: Option<int>, now: Time): Conversation
  {
    Conversation(id, u, clerk, None, None, now)
  }

  /**
   * `firstOrCreate`: the first row `wanted` accepts, or `newRow` appended.
   * The result is the new table and the position of the conversation.
   */
  function FirstOrCreate(rows: seq<Conversation>, wanted: Conversation -> bool, newRow: Conversation): (r: (seq<Conversation>, nat))
    requires wanted(newRow)
    ensures r.1 < |r.0| && wanted(r.0[r.1])
    ensures r.0 == rows || r.0 == rows + [newRow]
    ensures r.0 == rows <==> exists i :: 0 <= i < |rows| && wanted(rows[i])
    ensures forall j :: 0 <= j < r.1 ==> !wanted(r.0[j])
  {
    match FindIndex(rows, wanted)
    case Some(k) => (rows, k)
    case None => (rows + [newRow], |rows|)
  }

  /** A second `firstOrCreate` with the same match finds what the first one found or made, and changes nothing. */
  lemma FirstOrCreateIsIdempotent(rows: seq<Conversation>, wanted: Conversation -> bool, newRow: Conversation, newRow': Conversation)
    requires wanted(newRow) && wanted(newRow')
    ensures FirstOrCreate(FirstOrCreate(rows, wanted, newRow).0, wanted, newRow') == FirstOrCreate(rows, wanted, newRow)
  {
    var once := FirstOrCreate(rows, wanted, newRow);
    var k := FindIndex(once.0, wanted);
    assert k == Some(once.1);
  }

  /** Appending a row with the next id keeps the conversations table well-formed. */
  lemma AppendConversation(rows: seq<Conversation>, bound: int, c: Conversation)
    requires ConversationTable(rows, bound) && bound >= 1 && c.id == bound
    ensures ConversationTable(rows + [c], bound + 1)
  {
    var r := rows + [c];
    assert forall i :: 0 <= i < |rows| ==> r[i] == rows[i];
  }

  /**
   * `Conversation::firstOrCreate(['user_id' => u], ...)` on the stored
   * table: `k` is the position of the customer's conversation.
   */
  method OpenOwn(db: Database, u: int, now: Time) returns (k: nat)
    requires db.Valid()
    modifies db`conversations, db`nextId
    ensures db.Valid()
    ensures (db.conversations, k) == FirstOrCreate(old(db.conversations), OwnedBy(u), Opened(old(db.nextId), u, None, now))
    ensures db.conversations == old(db.conversations) ==> db.nextId == old(db.nextId)
    ensures db.conversations != old(db.conversations) ==> db.nextId == old(db.nextId) + 1
  {
    k := Open(db, OwnedBy(u), Opened(db.nextId, u, None, now));
  }

  /** The shared body of both `firstOrCreate` calls. */
  method Open(db: Database, wanted: Conversation -> bool, newRow: Conversation) returns (k: nat)
    requires db.Valid() && wanted(newRow) && newRow.id == db.nextId
    modifies db`conversations, db`nextId
    ensures db.Valid()
    ensures (db.conversations, k) == FirstOrCreate(old(db.conversations), wanted, newRow)
    ensures db.conversations == old(db.conversations) ==> db.nextId == old(db.nextId)
    ensures db.conversations != old(db.conversations) ==> db.nextId == old(db.nextId) + 1
  {
    var found := FindIndex(db.conversations, wanted);
    if found.Some? {
      return found.value;
    }
    AppendConversation(db.conversations, db.nextId, newRow);
    k := |db.conversations|;
    db.conversations := db.conversations + [newRow];
    db.nextId := db.nextId + 1;
  }

  /** Replace the conversation at `k` by `c`, which keeps its id. */
  method Save(db: Database, k: nat, c: Conversation)
    requires db.Valid() && k < |db.conversations| && c.id == db.conversations[k].id
    modifies db`conversations
    ensures db.Valid()
    ensures db.conversations == old(db.conversations)[k := c]
  {
    db.conversations := db.conversations[k := c];
  }

  /** Insert a message with the next id. */
  method AppendMessage(db: Database, m: Message) returns (stored: Message)
    requires db.Valid()
    modifies db`messages, db`nextId
    ensures db.Valid()
    ensures stored == m.(id := old(db.nextId))
    ensures db.messages == old(db.messages) + [stored]
    ensures db.nextId == old(db.nextId) + 1
  {
    stored := m.(id := db.nextId);
    var r := db.messages + [stored];
    assert forall i :: 0 <= i < |db.messages| ==> r[i] == db.messages[i];
    db.messages := r;
    db.nextId := db.nextId + 1;
  }

  /** `store`: the conversation of the (user, clerk) pair, opened if there is none. */
  method Store(db: Database, u: int, clerk: Option<int>, now: Time) returns (c: Conversation)
    requires db.Valid() && u in db.users && (clerk.Some? ==> clerk.value in db.users)
    modifies db`conversations, db`nextId
    ensures db.Valid()
    ensures var r := FirstOrCreate(old(db.conversations), Between(u, clerk), Opened(old(db.nextId), u, clerk, now));
      db.conversations == r.0 && c == r.0[r.1]
    ensures c.userId == u && c.clerkId == clerk
  {
    var k := Open(db, Between(u, clerk), Opened(db.nextId, u, clerk, now));
    c := db.conversations[k];
  }

  /** The messages of conversation `id`. */
  function InConversation(id: int): Message -> bool
  {
    (m: Message) => m.conversationId == Some(id)
  }

  datatype ThreadAnswer =
    | ConversationMissing   // 404 of the route binding
    | Forbidden             // 403
    | Thread(messages: seq<Message>)

  /** `messages`: authorise first, then the conversation's messages in creation order. */
  function Messages(conversations: seq<Conversation>, messages: seq<Message>, id: int, u: int): (r: ThreadAnswer)
    ensures r.ConversationMissing? <==> FindIndex(conversations, HasId(id)).None?
    ensures r.Forbidden? <==> (FindIndex(conversations, HasId(id)).Some?
      && !CanAccess(conversations[FindIndex(conversations, HasId(id)).value], u))
    ensures r.Thread? ==> forall m :: m in r.messages <==> m in messages && m.conversationId == Some(id)
  {
    match FindIndex(conversations, HasId(id))
    case None => ConversationMissing
    case Some(k) =>
      if !CanAccess(conversations[k], u) then Forbidden else Thread(Filter(messages, InConversation(id)))
  }

  /** In a well-formed message table, a thread is in ascending id order. */
  lemma ThreadIsAscending(conversations: seq<Conversation>, messages: seq<Message>, bound: int, id: int, u: int)
    requires MessageTable(messages, bound)
    requires Messages(conversations, messages, id, u).Thread?
    ensures Ascending(Messages(conversations, messages, id, u).messages, (m: Message) => m.id)
  {
    FilterKeepsAscending(messages, (m: Message) => m.id, InConversation(id));
  }

  datatype Posting =
    | PostMissing     // 404 of the route binding
    | PostForbidden   // 403
    | PostInvalid     // 422: the text is required
    | Posted(message: Message)

  /**
   * `sendMessage`: the caller must take part and the text must not be
   * blank; the message names the caller as sender and no receiver, and the
   * conversation is touched.
   */
  method SendMessage(db: Database, id: int, u: int, text: Option<string>, now: Time) returns (r: Posting)
    requires db.Valid()
    modifies db`messages, db`conversations, db`nextId
    ensures db.Valid()
    ensures var k := FindIndex(old(db.conversations), HasId(id));
      && (r.PostMissing? <==> k.None?)
      && (r.PostForbidden? <==> k.Some? && !CanAccess(old(db.conversations)[k.value], u))
      && (r.PostInvalid? <==> k.Some? && CanAccess(old(db.conversations)[k.value], u) && (text.None? || Blank(text.value)))
      && (r.Posted? ==> db.conversations == old(db.conversations)[k.value := old(db.conversations)[k.value].(updatedAt := now)])
    ensures !r.Posted? ==> (db.messages == old(db.messages) && db.conversations == old(db.conversations)
      && db.nextId == old(db.nextId))
    ensures r.Posted? ==> (db.messages == old(db.messages) + [r.message]
      && r.message == Message(old(db.nextId), Some(id), Some(u), None, text, None, [], false))
  {
    var k := FindIndex(db.conversations, HasId(id));
    if k.None? {
      return PostMissing;
    }
    var c := db.conversations[k.value];
    if !CanAccess(c, u) {
      return PostForbidden;
    }
    if text.None? || Blank(text.value) {
      return PostInvalid;
    }
    var m := AppendMessage(db, Message(0, Some(id), Some(u), None, text, None, [], false));
    Save(db, k.value, c.(updatedAt := now));
    r := Posted(m);
  }
}

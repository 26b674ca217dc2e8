/**
 * Notifications between users: sending one, the receiver's inbox, and
 * marking one or all of them read. Rows are kept in creation order, so
 * "newest first" is the reverse of the table order.
 */
module Notifications {
  import opened Shared
  import opened Schema

  /** The notifications addressed to user `u`. */
  function ToReceiver(u: int): Notification -> bool
  {
    (n: Notification) => n.receiverId == u
  }

  function Reversed<T>(s: seq<T>): (r: seq<T>)
    ensures |r| == |s|
    ensures forall i :: 0 <= i < |s| ==> r[i] == s[|s| - 1 - i]
  {
    if s == [] then [] else Reversed(s[1..]) + [s[0]]
  }

  /** `index`: the caller's notifications, newest first. */
  function Inbox(rows: seq<Notification>, u: int): (r: seq<Notification>)
    ensures forall n :: n in r <==> n in rows && n.receiverId == u
    ensures |r| == |Filter(rows, ToReceiver(u))|
  {
    var own := Filter(rows, ToReceiver(u));
    assert forall n :: n in Reversed(own) <==> n in own by {
      forall n ensures n in Reversed(own) <==> n in own {
        if n in own {
          var i :| 0 <= i < |own| && own[i] == n;
          assert Reversed(own)[|own| - 1 - i] == n;
        }
      }
    }
    Reversed(own)
  }

  /** In a table with ascending ids, the inbox lists newer (higher) ids first. */
  lemma InboxIsNewestFirst(rows: seq<Notification>, bound: int, u: int)
    requires NotificationTable(rows, bound)
    ensures forall i, j :: 0 <= i < j < |Inbox(rows, u)| ==> Inbox(rows, u)[i].id > Inbox(rows, u)[j].id
  {
    FilterKeepsAscending(rows, (n: Notification) => n.id, ToReceiver(u));
  }

  /** The send form's rules. */
  predicate MessageValid(title: string, body: string)
  {
    !Blank(title) && |title| <= 255 && !Blank(body)
  }

  /** `store`: a new unread notification from the caller. */
  method Store(db: Database, senderId: int, receiverId: int, title: string, body: string,
               data: Option<map<string, string>>) returns (n: Notification)
    requires db.Valid() && receiverId in db.users && MessageValid(title, body)
    modifies db`notifications, db`nextId
    ensures db.Valid()
    ensures n == Notification(old(db.nextId), senderId, receiverId, title, body, data, false)
    ensures db.notifications == old(db.notifications) + [n]
    ensures db.nextId == old(db.nextId) + 1
  {
    n := Notification(db.nextId, senderId, receiverId, title, body, data, false);
    db.notifications := db.notifications + [n];
    db.nextId := db.nextId + 1;
  }

  /** The notification with id `id` addressed to `u`. */
  function Addressed(u: int, id: int): Notification -> bool
  {
    (n: Notification) => n.id == id && n.receiverId == u
  }

  /** The table with row `k` marked read. */
  function ReadAt(rows: seq<Notification>, k: nat): (r: seq<Notification>)
    requires k < |rows|
    ensures |r| == |rows| && r[k].isRead && r[k].(isRead := rows[k].isRead) == rows[k]
    ensures forall i :: 0 <= i < |rows| && i != k ==> r[i] == rows[i]
  {
    rows[k := rows[k].(isRead := true)]
  }

  /** Marking a notification read twice is marking it once. */
  lemma MarkAsReadIsIdempotent(rows: seq<Notification>, k: nat)
    requires k < |rows|
    ensures ReadAt(ReadAt(rows, k), k) == ReadAt(rows, k)
  {
  }

  /** `markAsRead`; false is the 404 of an id that is not the caller's. */
  method MarkAsRead(db: Database, u: int, id: int) returns (found: bool)
    requires db.Valid()
    modifies db`notifications
    ensures db.Valid()
    ensures var k := FindIndex(old(db.notifications), Addressed(u, id));
      && (found <==> k.Some?)
      && (k.None? ==> db.notifications == old(db.notifications))
      && (k.Some? ==> db.notifications == ReadAt(old(db.notifications), k.value))
    ensures found <==> exists n :: n in old(db.notifications) && n.id == id && n.receiverId == u
  {
    var k := FindIndex(db.notifications, Addressed(u, id));
    if k.None? {
      assert forall i :: 0 <= i < |db.notifications| ==> !Addressed(u, id)(db.notifications[i]);
      return false;
    }
    assert Addressed(u, id)(db.notifications[k.value]);
    db.notifications := ReadAt(db.notifications, k.value);
    found := true;
  }

  /** The table after `markAllAsRead` by `u`. */
  function AllReadFor(rows: seq<Notification>, u: int): (r: seq<Notification>)
    ensures |r| == |rows|
    ensures forall i :: 0 <= i < |rows| && rows[i].receiverId == u ==> r[i] == rows[i].(isRead := true)
    ensures forall i :: 0 <= i < |rows| && rows[i].receiverId != u ==> r[i] == rows[i]
  {
    seq(|rows|, i requires 0 <= i < |rows| => if rows[i].receiverId == u then rows[i].(isRead := true) else rows[i])
  }

  /** After marking all read, the caller's inbox is all read, and marking any one of them again changes nothing. */
  lemma MarkAllCoversEach(rows: seq<Notification>, u: int, k: nat)
    requires k < |rows| && rows[k].receiverId == u
    ensures ReadAt(AllReadFor(rows, u), k) == AllReadFor(rows, u)
    ensures AllReadFor(AllReadFor(rows, u), u) == AllReadFor(rows, u)
  {
  }

  /** `markAllAsRead`. */
  method MarkAllAsRead(db: Database, u: int)
    requires db.Valid()
    modifies db`notifications
    ensures db.Valid()
    ensures db.notifications == AllReadFor(old(db.notifications), u)
    ensures forall n :: n in Filter(db.notifications, ToReceiver(u)) ==> n.isRead
  {
    db.notifications := AllReadFor(db.notifications, u);
  }
}

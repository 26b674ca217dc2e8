/**
 * The customer dashboard's voucher endpoints: listing the caller's usable
 * grants (filling in a missing expiry on the way) and checking one grant
 * before checkout.
 */
module CustomerVouchers {
  import opened Shared
  import opened Schema
  import opened UserVouchers
  import Orders

  /** One entry of the `myVouchers` listing. */
  datatype VoucherEntry = VoucherEntry(
    id: int,
    voucherId: int,
    code: string,
    name: string,
    description: Option<string>,
    percent: real,
    image: Option<string>,
    status: string,
    expiresAt: Option<Time>,
    isExpired: bool,
    sentAt: Option<Time>)

  /** When a grant's validity starts: when it was sent, else when the row was created. */
  function GrantStart(g: Grant): Time
  {
    if g.sentAt.Some? then g.sentAt.value else g.createdAt
  }

  /**
   * The grant after the lazy expiry fill: a grant without `expires_at` gets
   * its start plus the template's duration; any other grant is unchanged.
   */
  function Backfilled(g: Grant, v: Voucher): (r: Grant)
    ensures r.expiresAt.Some?
    ensures g.expiresAt.Some? ==> r == g
    ensures g.expiresAt.None? ==> r.expiresAt.value == ExpiryAfter(GrantStart(g), v.expirationType, v.expirationDuration)
    ensures r.(expiresAt := g.expiresAt) == g
  {
    if g.expiresAt.Some? then g
    else g.(expiresAt := Some(ExpiryAfter(GrantStart(g), v.expirationType, v.expirationDuration)))
  }

  /** The fill writes once: a second listing finds the expiry and writes nothing. */
  lemma BackfillIsIdempotent(g: Grant, v: Voucher, w: Voucher)
    ensures Backfilled(Backfilled(g, v), w) == Backfilled(g, v)
  {
  }

  /** The listing entry of a grant whose template is `v`. */
  function Entry(id: int, g: Grant, v: Voucher, now: Time): (e: VoucherEntry)
    ensures e.id == id && e.voucherId == g.voucherId && e.code == g.code
    ensures e.isExpired == IsExpired(g, now)
  {
    VoucherEntry(id, g.voucherId, g.code, v.name, v.description, v.percent, v.image, v.status,
                 g.expiresAt, IsExpired(g, now), g.sentAt)
  }

  /** The rows `myVouchers` reads: exactly the caller's unused grants, each once. */
  ghost predicate ListedRows(grants: map<int, Grant>, userId: int, ids: seq<int>)
  {
    && (forall i, j :: 0 <= i < j < |ids| ==> ids[i] != ids[j])
    && (forall id :: id in ids <==> id in grants && grants[id].userId == userId && grants[id].usedAt.None?)
  }

  /** Every template the listed rows point at exists. */
  predicate TemplatesPresent(grants: map<int, Grant>, vouchers: map<int, Voucher>, ids: seq<int>)
  {
    forall id :: id in ids && id in grants ==> grants[id].voucherId in vouchers
  }

  /** The grants table after the fill has run over `ids`. */
  function BackfillAll(grants: map<int, Grant>, vouchers: map<int, Voucher>, ids: seq<int>): (r: map<int, Grant>)
    requires TemplatesPresent(grants, vouchers, ids)
    ensures r.Keys == grants.Keys
    ensures forall id :: id in grants && id !in ids ==> r[id] == grants[id]
    ensures forall id :: id in ids && id in grants ==> r[id] == Backfilled(grants[id], vouchers[grants[id].voucherId])
  {
    if ids == [] then grants
    else
      var rest := BackfillAll(grants, vouchers, ids[1..]);
      var id := ids[0];
      if id in grants then rest[id := Backfilled(grants[id], vouchers[grants[id].voucherId])] else rest
  }

  /** The listing: the entries of the filled grants, in row order, without the expired ones. */
  function Visible(grants: map<int, Grant>, vouchers: map<int, Voucher>, ids: seq<int>, now: Time)
    : (r: seq<VoucherEntry>)
    requires TemplatesPresent(grants, vouchers, ids)
    requires forall id :: id in ids ==> id in grants
    ensures |r| <= |ids|
    ensures forall k :: 0 <= k < |r| ==> !r[k].isExpired && r[k].id in ids
    ensures forall k :: 0 <= k < |r| ==> r[k].voucherId == grants[r[k].id].voucherId
    decreases |ids|
  {
    if ids == [] then []
    else
      var init := Visible(grants, vouchers, ids[..|ids| - 1], now);
      var id := ids[|ids| - 1];
      var g := Backfilled(grants[id], vouchers[grants[id].voucherId]);
      var e := Entry(id, g, vouchers[g.voucherId], now);
      if e.isExpired then init else init + [e]
  }

  /**
   * A listed grant is one of the caller's unused grants; it is not expired
   * at `now`, and its entry's id is the grant's id, not the template's.
   */
  lemma ListingShowsOwnUsableGrants(grants: map<int, Grant>, vouchers: map<int, Voucher>, userId: int,
                                    ids: seq<int>, now: Time, k: nat)
    requires ListedRows(grants, userId, ids) && TemplatesPresent(grants, vouchers, ids)
    requires k < |Visible(grants, vouchers, ids, now)|
    ensures var e := Visible(grants, vouchers, ids, now)[k];
      && e.id in grants && grants[e.id].userId == userId && grants[e.id].usedAt.None?
      && !IsExpired(BackfillAll(grants, vouchers, ids)[e.id], now)
      && e.voucherId == grants[e.id].voucherId
  {
    var e := Visible(grants, vouchers, ids, now)[k];
    VisibleAreUnexpired(grants, vouchers, ids, now, k);
  }

  lemma {:induction false} VisibleAreUnexpired(grants: map<int, Grant>, vouchers: map<int, Voucher>, ids: seq<int>,
                                               now: Time, k: nat)
    requires TemplatesPresent(grants, vouchers, ids)
    requires forall id :: id in ids ==> id in grants
    requires k < |Visible(grants, vouchers, ids, now)|
    ensures var e := Visible(grants, vouchers, ids, now)[k];
      e.isExpired == IsExpired(Backfilled(grants[e.id], vouchers[grants[e.id].voucherId]), now)
    decreases |ids|
  {
    var init := Visible(grants, vouchers, ids[..|ids| - 1], now);
    if k < |init| {
      VisibleAreUnexpired(grants, vouchers, ids[..|ids| - 1], now, k);
    }
  }

  /** A usable grant of the caller is listed: the filter drops nothing that is still valid. */
  lemma {:induction false} UsableGrantIsListed(grants: map<int, Grant>, vouchers: map<int, Voucher>, ids: seq<int>,
                                               now: Time, id: int)
    requires TemplatesPresent(grants, vouchers, ids)
    requires forall x :: x in ids ==> x in grants
    requires id in ids && !IsExpired(Backfilled(grants[id], vouchers[grants[id].voucherId]), now)
    ensures exists k :: 0 <= k < |Visible(grants, vouchers, ids, now)| && Visible(grants, vouchers, ids, now)[k].id == id
    decreases |ids|
  {
    var init := Visible(grants, vouchers, ids[..|ids| - 1], now);
    if id == ids[|ids| - 1] {
      assert Visible(grants, vouchers, ids, now)[|init|].id == id;
    } else {
      assert id in ids[..|ids| - 1];
      UsableGrantIsListed(grants, vouchers, ids[..|ids| - 1], now, id);
      var k :| 0 <= k < |init| && init[k].id == id;
      assert Visible(grants, vouchers, ids, now)[k] == init[k];
    }
  }

  /** Distinct row ids, all present in the table. */
  ghost predicate RowsOf(grants: map<int, Grant>, ids: seq<int>)
  {
    && (forall i, j :: 0 <= i < j < |ids| ==> ids[i] != ids[j])
    && (forall id :: id in ids ==> id in grants)
  }

  /** The table after the fill has run over the first `i` rows: those filled in, every other grant as it was. */
  ghost predicate FilledUpTo(grants: map<int, Grant>, vouchers: map<int, Voucher>, ids: seq<int>, i: nat,
                             table: map<int, Grant>)
    requires RowsOf(grants, ids) && i <= |ids|
  {
    && table.Keys == grants.Keys
    && TemplatesPresent(grants, vouchers, ids[..i])
    && (forall id :: id in grants && id !in ids[..i] ==> table[id] == grants[id])
    && (forall id :: id in ids[..i] ==> table[id] == Backfilled(grants[id], vouchers[grants[id].voucherId]))
  }

  /** One row of the mapping step, whose template exists: fill its expiry and list it unless expired. */
  method FillRow(grants: map<int, Grant>, vouchers: map<int, Voucher>, ids: seq<int>, i: nat, now: Time,
                 table: map<int, Grant>, listed: seq<VoucherEntry>)
    returns (table': map<int, Grant>, listed': seq<VoucherEntry>)
    requires RowsOf(grants, ids) && i < |ids| && ids[i] in grants && grants[ids[i]].voucherId in vouchers
    requires FilledUpTo(grants, vouchers, ids, i, table) && listed == Visible(grants, vouchers, ids[..i], now)
    ensures FilledUpTo(grants, vouchers, ids, i + 1, table') && listed' == Visible(grants, vouchers, ids[..i + 1], now)
  {
    var id := ids[i];
    assert id !in ids[..i];
    var g := table[id];
    var voucher := vouchers[g.voucherId];
    table' := table;
    if g.expiresAt.None? {
      var start := if g.sentAt.Some? then g.sentAt.value else g.createdAt;
      g := g.(expiresAt := Some(ExpiryAfter(start, voucher.expirationType, voucher.expirationDuration)));
      table' := table[id := g];
    }
    var e := VoucherEntry(id, g.voucherId, g.code, voucher.name, voucher.description, voucher.percent,
                          voucher.image, voucher.status, g.expiresAt, IsExpired(g, now), g.sentAt);
    ListingStep(grants, vouchers, ids, i, now);
    listed' := if e.isExpired then listed else listed + [e];
  }

  /**
   * The mapping step of `myVouchers` over the rows `ids`: fill each row's
   * expiry, build its entry, and drop expired entries. A row whose template
   * is gone stops the mapping there (None), with the rows before it filled.
   */
  method FillAndList(grants: map<int, Grant>, vouchers: map<int, Voucher>, ids: seq<int>, now: Time)
    returns (table: map<int, Grant>, entries: Option<seq<VoucherEntry>>)
    requires RowsOf(grants, ids)
    ensures table.Keys == grants.Keys
    ensures entries.None? <==> !TemplatesPresent(grants, vouchers, ids)
    ensures entries.Some? ==> table == BackfillAll(grants, vouchers, ids)
    ensures entries.Some? ==> entries.value == Visible(grants, vouchers, ids, now)
    ensures entries.None? ==> exists i :: (0 <= i < |ids| && ids[i] in grants && grants[ids[i]].voucherId !in vouchers
      && TemplatesPresent(grants, vouchers, ids[..i]) && table == BackfillAll(grants, vouchers, ids[..i]))
  {
    table := grants;
    var listed: seq<VoucherEntry> := [];
    var i := 0;
    while i < |ids|
      invariant 0 <= i <= |ids|
      invariant FilledUpTo(grants, vouchers, ids, i, table)
      invariant listed == Visible(grants, vouchers, ids[..i], now)
    {
      var id := ids[i];
      assert id !in ids[..i] && id in grants;
      if table[id].voucherId !in vouchers {
        assert id in ids && grants[id].voucherId !in vouchers;
        FilledTableIsBackfillAll(grants, vouchers, ids[..i], table);
        return table, None;
      }
      table, listed := FillRow(grants, vouchers, ids, i, now, table, listed);
      i := i + 1;
    }
    assert ids[..i] == ids;
    FilledTableIsBackfillAll(grants, vouchers, ids, table);
    entries := Some(listed);
  }

  lemma ListingStep(grants: map<int, Grant>, vouchers: map<int, Voucher>, ids: seq<int>, i: nat, now: Time)
    requires RowsOf(grants, ids) && i < |ids|
    requires ids[i] in grants && grants[ids[i]].voucherId in vouchers
    requires TemplatesPresent(grants, vouchers, ids[..i])
    ensures TemplatesPresent(grants, vouchers, ids[..i + 1])
    ensures var g := Backfilled(grants[ids[i]], vouchers[grants[ids[i]].voucherId]);
      var e := Entry(ids[i], g, vouchers[g.voucherId], now);
      Visible(grants, vouchers, ids[..i + 1], now)
        == Visible(grants, vouchers, ids[..i], now) + (if e.isExpired then [] else [e])
  {
    assert ids[..i + 1][..i] == ids[..i];
    assert ids[..i + 1] == ids[..i] + [ids[i]];
  }

  lemma FilledTableIsBackfillAll(grants: map<int, Grant>, vouchers: map<int, Voucher>, ids: seq<int>,
                                 table: map<int, Grant>)
    requires TemplatesPresent(grants, vouchers, ids) && table.Keys == grants.Keys
    requires forall id :: id in grants && id !in ids ==> table[id] == grants[id]
    requires forall id :: id in ids && id in grants ==> table[id] == Backfilled(grants[id], vouchers[grants[id].voucherId])
    ensures table == BackfillAll(grants, vouchers, ids)
  {
    var all := BackfillAll(grants, vouchers, ids);
    assert forall id :: id in table ==> table[id] == all[id];
  }

  /**
   * `myVouchers`. `ids` are the rows the query returns, in its order; the
   * filled-in expiries are written back even when a later row fails.
   */
  method MyVouchers(db: Database, userId: int, ids: seq<int>, now: Time) returns (r: Option<seq<VoucherEntry>>)
    requires db.Valid() && ListedRows(db.grants, userId, ids)
    modifies db`grants
    ensures db.Valid() && db.grants.Keys == old(db.grants.Keys)
    ensures r.None? <==> !TemplatesPresent(old(db.grants), db.vouchers, ids)
    ensures r.Some? ==> db.grants == BackfillAll(old(db.grants), db.vouchers, ids)
    ensures r.Some? ==> r.value == Visible(old(db.grants), db.vouchers, ids, now)
    ensures r.None? ==> exists i :: (0 <= i < |ids| && ids[i] in old(db.grants)
      && old(db.grants)[ids[i]].voucherId !in db.vouchers && TemplatesPresent(old(db.grants), db.vouchers, ids[..i])
      && db.grants == BackfillAll(old(db.grants), db.vouchers, ids[..i]))
  {
    var table;
    table, r := FillAndList(db.grants, db.vouchers, ids, now);
    db.grants := table;
  }

  /** The outcome of `validateVoucher`. */
  datatype Validation =
    | VoucherValid(grantId: int, voucherId: int, name: string, percent: real, code: string)
    | VoucherNotFound      // 404
    | VoucherAlreadyUsed   // 400
    | VoucherExpired       // 400
    | VoucherInactive      // 400
    | TemplateGone         // 500: isActive() called on null

  /**
   * `validateVoucher`: the checks in order. `isActive` is the template's
   * own activity rule, which is not part of this model.
   */
  function ValidateVoucher(grants: map<int, Grant>, vouchers: map<int, Voucher>, userId: int, grantId: int,
                           now: Time, isActive: Voucher -> bool): (r: Validation)
    requires grantId in grants
    ensures r == VoucherNotFound <==> grants[grantId].userId != userId
    ensures r == VoucherAlreadyUsed <==> grants[grantId].userId == userId && IsUsed(grants[grantId])
    ensures r == VoucherExpired <==> (grants[grantId].userId == userId && !IsUsed(grants[grantId])
      && IsExpired(grants[grantId], now))
    ensures r.VoucherValid? <==> (grants[grantId].userId == userId && !IsExpired(grants[grantId], now)
      && grants[grantId].voucherId in vouchers && isActive(vouchers[grants[grantId].voucherId]))
    ensures r == TemplateGone <==> (grants[grantId].userId == userId && !IsExpired(grants[grantId], now)
      && grants[grantId].voucherId !in vouchers)
    ensures r == VoucherInactive <==> (grants[grantId].userId == userId && !IsExpired(grants[grantId], now)
      && grants[grantId].voucherId in vouchers && !isActive(vouchers[grants[grantId].voucherId]))
    ensures r.VoucherValid? ==>
      r.grantId == grantId && r.voucherId == grants[grantId].voucherId && r.code == grants[grantId].code
    ensures r.VoucherValid? ==> r.name == vouchers[r.voucherId].name && r.percent == vouchers[r.voucherId].percent
  {
    var g := grants[grantId];
    if g.userId != userId then VoucherNotFound
    else if IsUsed(g) then VoucherAlreadyUsed
    else if IsExpired(g, now) then VoucherExpired
    else if g.voucherId !in vouchers then TemplateGone
    else if !isActive(vouchers[g.voucherId]) then VoucherInactive
    else
      var v := vouchers[g.voucherId];
      VoucherValid(grantId, g.voucherId, v.name, v.percent, g.code)
  }

  /**
   * A grant the checkout check accepts is redeemed by an order placed at
   * the same instant, provided an active template is an enabled one.
   */
  lemma ValidatedGrantIsRedeemed(grants: map<int, Grant>, vouchers: map<int, Voucher>, userId: int, grantId: int,
                                 now: Time, isActive: Voucher -> bool, subtotal: Money)
    requires grantId in grants && grantId != 0
    requires forall v :: isActive(v) ==> v.status == "enabled"
    requires ValidateVoucher(grants, vouchers, userId, grantId, now, isActive).VoucherValid?
    ensures Orders.VoucherOutcome(grants, vouchers, userId, Some(grantId), subtotal, now).Redeemed?
  {
  }
}

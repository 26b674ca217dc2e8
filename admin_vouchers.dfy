/**
 * The admin dashboard's voucher templates: listing them, the public banner
 * of enabled ones, creating and editing them, issuing a grant to a
 * customer, and switching a template on or off.
 */
module AdminVouchers {
  import opened Shared
  import opened Schema
  import opened UserVouchers

  /** A template as the admin listing shows it. */
  datatype ListedVoucher = ListedVoucher(voucher: Voucher, isExpired: bool)

  /** `index`: every template, each shown as unexpired and without an expiry. */
  function Index(vouchers: map<int, Voucher>): (r: map<int, ListedVoucher>)
    ensures r.Keys == vouchers.Keys
    ensures forall id :: id in r ==> !r[id].isExpired && r[id].voucher.expiresAt.None?
    ensures forall id :: id in r ==> r[id].voucher.(expiresAt := vouchers[id].expiresAt) == vouchers[id]
  {
    map id | id in vouchers :: ListedVoucher(vouchers[id].(expiresAt := None), false)
  }

  /** One template on the public banner. */
  datatype BannerEntry = BannerEntry(
    name: string,
    description: Option<string>,
    discountPercentage: real,
    image: Option<string>,
    expiresAt: Option<Time>,
    expirationType: string,
    expirationDuration: int,
    link: string)

  /** A template the banner shows: enabled, and without an expiry or expiring after `now`. */
  predicate OnBanner(v: Voucher, now: Time)
  {
    v.status == "enabled" && (v.expiresAt.None? || v.expiresAt.value > now)
  }

  /**
   * `enabledVouchers`. When the query raises (`queryFails`) the banner is
   * empty rather than an error.
   */
  function EnabledVouchers(vouchers: map<int, Voucher>, now: Time, queryFails: bool): (r: map<int, BannerEntry>)
    ensures queryFails ==> r == map[]
    ensures !queryFails ==> forall id :: id in r <==> id in vouchers && OnBanner(vouchers[id], now)
    ensures forall id :: id in r ==> (id in vouchers && r[id].discountPercentage == vouchers[id].percent
      && r[id].name == vouchers[id].name && r[id].link == "/products")
  {
    if queryFails then map[]
    else
      map id | id in vouchers && OnBanner(vouchers[id], now) ::
        var v := vouchers[id];
        BannerEntry(v.name, v.description, v.percent, v.image, v.expiresAt, v.expirationType,
                    v.expirationDuration, "/products")
  }

  /** The create and edit form. */
  datatype VoucherForm = VoucherForm(
    name: string,
    description: Option<string>,
    percent: real,
    expirationType: string,
    expirationDuration: int)

  /** The form's validation rules. */
  predicate FormValid(f: VoucherForm)
  {
    && !Blank(f.name) && |f.name| <= 255
    && 1.0 <= f.percent <= 100.0
    && (f.expirationType == "hours" || f.expirationType == "days")
    && f.expirationDuration >= 1
  }

  /** The template `store` creates: enabled, with no fixed expiry. */
  function Created(f: VoucherForm, image: Option<string>): (v: Voucher)
    ensures v.status == "enabled" && v.expiresAt.None?
    ensures v.name == f.name && v.description == f.description
    ensures v.percent == f.percent && v.expirationType == f.expirationType
      && v.expirationDuration == f.expirationDuration && v.image == image
  {
    Voucher(f.name, f.description, f.percent, "enabled", f.expirationType, f.expirationDuration, None, image)
  }

  /** The template after `update`: the form's fields and maybe a new image; status and expiry untouched. */
  function Edited(v: Voucher, f: VoucherForm, newImage: Option<string>): (r: Voucher)
    ensures r.status == v.status && r.expiresAt == v.expiresAt
    ensures r.name == f.name && r.description == f.description && r.percent == f.percent && r.expirationType == f.expirationType
      && r.expirationDuration == f.expirationDuration
    ensures r.image == (if newImage.Some? then newImage else v.image)
  {
    v.(name := f.name, description := f.description, percent := f.percent, expirationType := f.expirationType,
       expirationDuration := f.expirationDuration, image := if newImage.Some? then newImage else v.image)
  }

  /** A template created from a valid form gives at most a full discount and lasts at least an hour. */
  lemma CreatedTemplateIsSane(f: VoucherForm, image: Option<string>, start: Time)
    requires FormValid(f)
    ensures 1.0 <= Created(f, image).percent <= 100.0
    ensures ExpiryAfter(start, Created(f, image).expirationType, Created(f, image).expirationDuration)
      >= start + SecondsPerHour
  {
  }

  /** `store`. */
  method Store(db: Database, f: VoucherForm, image: Option<string>) returns (id: int)
    requires db.Valid() && FormValid(f)
    modifies db`vouchers, db`nextId
    ensures db.Valid()
    ensures id == old(db.nextId) && id !in old(db.vouchers)
    ensures db.vouchers == old(db.vouchers)[id := Created(f, image)]
    ensures db.nextId == old(db.nextId) + 1
  {
    id := db.nextId;
    db.vouchers := db.vouchers[id := Created(f, image)];
    db.nextId := db.nextId + 1;
  }

  /** `update`; false is the 404 of a missing template. */
  method Update(db: Database, id: int, f: VoucherForm, newImage: Option<string>) returns (found: bool)
    requires db.Valid() && FormValid(f)
    modifies db`vouchers
    ensures db.Valid()
    ensures found <==> id in old(db.vouchers)
    ensures found ==> db.vouchers == old(db.vouchers)[id := Edited(old(db.vouchers)[id], f, newImage)]
    ensures !found ==> db.vouchers == old(db.vouchers)
  {
    if id !in db.vouchers {
      return false;
    }
    var v := db.vouchers[id];
    db.vouchers := db.vouchers[id := Edited(v, f, newImage)];
    found := true;
  }

  /** The grant `send` issues at `now`: unused, expiring the template's duration later. */
  function Issued(userId: int, voucherId: int, v: Voucher, code: string, now: Time): (g: Grant)
    ensures !IsUsed(g) && g.sentAt == Some(now)
    ensures g.expiresAt == Some(ExpiryAfter(now, v.expirationType, v.expirationDuration))
    ensures g.userId == userId && g.voucherId == voucherId && g.code == code
  {
    Grant(userId, voucherId, code, Some(now), now, None, Some(ExpiryAfter(now, v.expirationType, v.expirationDuration)))
  }

  /** A freshly issued grant is usable at once and until its expiry. */
  lemma IssuedGrantIsUsable(userId: int, voucherId: int, v: Voucher, code: string, now: Time, t: Time)
    requires v.expirationDuration >= 0 && now <= t <= ExpiryAfter(now, v.expirationType, v.expirationDuration)
    ensures !IsExpired(Issued(userId, voucherId, v, code, now), t)
  {
  }

  /**
   * `send`: issue a grant of template `id` to customer `userId`. `code` is
   * the code the template generates. None is the 404 of a missing template.
   */
  method Send(db: Database, id: int, userId: int, now: Time, code: string) returns (r: Option<int>)
    requires db.Valid() && userId in db.users
    modifies db`grants, db`nextId
    ensures db.Valid()
    ensures r.None? <==> id !in db.vouchers
    ensures r.None? ==> db.grants == old(db.grants) && db.nextId == old(db.nextId)
    ensures r.Some? ==> (r.value == old(db.nextId) && r.value !in old(db.grants)
      && db.grants == old(db.grants)[r.value := Issued(userId, id, db.vouchers[id], code, now)]
      && db.nextId == old(db.nextId) + 1)
  {
    if id !in db.vouchers {
      return None;
    }
    var v := db.vouchers[id];
    var sentAt := now;
    var expiresAt := ExpiryAfter(sentAt, v.expirationType, v.expirationDuration);
    var grantId := db.nextId;
    db.grants := db.grants[grantId := Grant(userId, id, code, Some(sentAt), now, None, Some(expiresAt))];
    db.nextId := db.nextId + 1;
    r := Some(grantId);
  }

  /** The status `toggleStatus` moves to: "enabled" becomes "disabled", anything else "enabled". */
  function Toggled(status: string): (r: string)
    ensures r == "enabled" || r == "disabled"
    ensures r == "disabled" <==> status == "enabled"
  {
    if status == "enabled" then "disabled" else "enabled"
  }

  /** Toggling twice restores an enabled or disabled template. */
  lemma ToggleTwiceRestores(status: string)
    requires status == "enabled" || status == "disabled"
    ensures Toggled(Toggled(status)) == status
  {
  }

  /** Any other status is repaired to "enabled" by one toggle and then alternates. */
  lemma ToggleRepairsUnknownStatus(status: string)
    requires status != "enabled" && status != "disabled"
    ensures Toggled(status) == "enabled" && Toggled(Toggled(status)) == "disabled"
  {
  }

  /** A template toggled off leaves the banner. */
  lemma DisabledLeavesBanner(v: Voucher, now: Time)
    requires v.status == "enabled"
    ensures !OnBanner(v.(status := Toggled(v.status)), now)
  {
  }

  /** `toggleStatus`; false is the 404 of a missing template. */
  method ToggleStatus(db: Database, id: int) returns (found: bool)
    requires db.Valid()
    modifies db`vouchers
    ensures db.Valid()
    ensures found <==> id in old(db.vouchers)
    ensures found ==> db.vouchers == old(db.vouchers)[id := old(db.vouchers)[id].(status := Toggled(old(db.vouchers)[id].status))]
    ensures !found ==> db.vouchers == old(db.vouchers)
  {
    if id !in db.vouchers {
      return false;
    }
    var v := db.vouchers[id];
    v := v.(status := if v.status == "enabled" then "disabled" else "enabled");
    db.vouchers := db.vouchers[id := v];
    found := true;
  }
}

/**
 * The life of one voucher grant (a `user_voucher` row): when it counts as
 * used, when it counts as expired, how long it lasts, and redeeming it.
 */
module UserVouchers {
  import opened Shared
  import opened Schema

  /** `isUsed`: the grant has a redemption time. */
  predicate IsUsed(g: Grant): (b: bool)
    ensures b <==> g.usedAt.Some?
  {
    g.usedAt.Some?
  }

  /**
   * `isExpired` at instant `now`: a used grant always counts as expired; an
   * unused one expires strictly after its `expires_at`, and never without one.
   */
  predicate IsExpired(g: Grant, now: Time): (b: bool)
    ensures IsUsed(g) ==> b
    ensures !IsUsed(g) ==> (b <==> g.expiresAt.Some? && now > g.expiresAt.value)
  {
    if IsUsed(g) then true
    else if g.expiresAt.Some? then now > g.expiresAt.value
    else false
  }

  /** The grant as `markAsUsed` leaves it: redeemed at `now`, nothing else touched. */
  function MarkedUsed(g: Grant, now: Time): (r: Grant)
    ensures IsUsed(r) && r.usedAt == Some(now)
    ensures r.(usedAt := g.usedAt) == g
  {
    g.(usedAt := Some(now))
  }

  /**
   * The end of a grant's validity when it starts at `start`: `duration`
   * hours later when the template's type is "hours", `duration` days later
   * for any other type.
   */
  function ExpiryAfter(start: Time, expirationType: string, duration: int): (r: Time)
    ensures expirationType == "hours" ==> r == start + duration * 3600
    ensures expirationType != "hours" ==> r == start + duration * 86400
    ensures duration >= 0 ==> r >= start
    ensures duration >= 1 ==> r > start
  {
    start + duration * (if expirationType == "hours" then SecondsPerHour else SecondsPerDay)
  }

  lemma UsedIsExpired(g: Grant, now: Time)
    requires IsUsed(g)
    ensures IsExpired(g, now)
  {
  }

  /** The redemption guard `!isUsed() && !isExpired()` is just `!isExpired()`. */
  lemma UsableIffNotExpired(g: Grant, now: Time)
    ensures (!IsUsed(g) && !IsExpired(g, now)) <==> !IsExpired(g, now)
  {
  }

  /** At exactly `expires_at` an unused grant is still valid; one second later it is not. */
  lemma ExpiryIsStrict(g: Grant, now: Time)
    requires !IsUsed(g) && g.expiresAt.Some?
    ensures IsExpired(g, now) <==> now > g.expiresAt.value
    ensures !IsExpired(g, g.expiresAt.value) && IsExpired(g, g.expiresAt.value + 1)
  {
  }

  lemma NoExpiryNeverExpires(g: Grant, now: Time)
    requires !IsUsed(g) && g.expiresAt.None?
    ensures !IsExpired(g, now)
  {
  }

  /** Once expired, a grant stays expired as time goes on. */
  lemma ExpiryIsPermanent(g: Grant, t: Time, t': Time)
    requires t <= t' && IsExpired(g, t)
    ensures IsExpired(g, t')
  {
  }

  /** A grant of at least one unit is valid from its start up to its expiry and expired after. */
  lemma FreshGrantValidUntilExpiry(g: Grant, start: Time, expirationType: string, duration: int, now: Time)
    requires g.usedAt.None? && duration >= 1
    requires g.expiresAt == Some(ExpiryAfter(start, expirationType, duration))
    ensures start <= now <= g.expiresAt.value ==> !IsExpired(g, now)
    ensures now > g.expiresAt.value ==> IsExpired(g, now)
    ensures g.expiresAt.value > start
  {
  }

  /** An hours grant ends sooner than a days grant of the same positive duration. */
  lemma HoursEndBeforeDays(start: Time, duration: int, other: string)
    requires duration >= 1 && other != "hours"
    ensures start < ExpiryAfter(start, "hours", duration) < ExpiryAfter(start, other, duration)
  {
  }

  /** `markAsUsed` on the stored row. */
  method MarkAsUsed(db: Database, id: int, now: Time)
    requires db.Valid() && id in db.grants
    modifies db`grants
    ensures db.Valid()
    ensures db.grants == old(db.grants)[id := MarkedUsed(old(db.grants)[id], now)]
    ensures IsUsed(db.grants[id])
  {
    db.grants := db.grants[id := MarkedUsed(db.grants[id], now)];
  }
}

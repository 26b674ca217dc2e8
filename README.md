# mgexclusive shop backend — a Dafny model

This project models the core of the mgexclusive shop: a Laravel backend for
an apparel and accessories store, plus the API proxy setting of its Vue
front end. It covers these parts:

- **Checkout.** A customer's order is placed in one database transaction.
  Each requested line becomes an item priced from the catalogue product or
  from the customer's own custom proposal; lines that cannot be priced are
  skipped. One voucher grant may be redeemed. The total is
  `max(0, subtotal + shipping − discount)`. The customer's cart is emptied.
  Any exception rolls everything back.
- **Voucher grants.** A grant is a voucher template sent to a user. The
  model covers its used and expired predicates, the expiry computed when it
  is sent (hours or days after the sending time), and the lazy backfill of
  a missing expiry in the customer's voucher list. It also covers the
  ordered checks of voucher validation and the admin's create, edit, send
  and enable/disable operations.
- **Catalogue writes.** A product's price depends on its category: apparel
  products are priced by size. A product edit rebuilds the gallery (retained
  pictures plus uploads, at most five). Deactivating a product, one at a
  time or in bulk, removes it from every cart and wishlist.
- **Small table rules.** These cover the wishlist toggle, material stock
  clamped at zero, VIP promotion and removal, customer purchase statistics,
  per-receiver notification read flags, and the two order-status whitelists
  (customer and admin).
- **Chat.**
  - Each customer has one conversation, and every message is addressed to
    the conversation's owner.
  - Clerks may reply to any customer and may suggest products.
  - Each message event is broadcast on channels chosen by a fixed rule.
  - Each private channel has an authorisation rule saying who may listen.
- **Proxy target.** The development server proxies the API to the first
  non-empty of three environment variables, or to the local backend. One
  trailing slash is removed.

The database is one class, `Schema.Database`, with one field per table:

- keyed tables are `map`s;
- tables whose order matters are `seq`s;
- `nextId` is the next primary key to hand out.

`Database.Valid()` holds these invariants:

- keys are below `nextId`;
- every order item names an order id already handed out;
- ids of notifications, conversations and messages ascend.

Every operation that writes keeps `Valid()`. Money is in integer cents,
percentages are `real`, and time is an integer number of seconds passed in
as `now`.

Checkout is modelled as the function `Orders.Planned`, which gives the
tables as they are after the commit. An injected fault stage stands for an
exception; `Orders.Raises` says when it is reached and raises. The method
`Orders.PlaceOrder` commits exactly the plan when nothing raises. When a
fault raises, or the voucher's template is missing, it changes nothing. Code that raises or returns early is modelled as a result
datatype with one case per HTTP answer.

## Model

Source paths are relative to the repository root.

| member | source | states |
|---|---|---|
| Orders.ParseJsonSafe | app/Http/Controllers/ProfileDashboard/OrderController.php:425-433 | a decoded list is kept, text that decodes to a list is that list, anything else is the empty list |
| Orders.FirstIndexOf | app/Http/Controllers/ProfileDashboard/OrderController.php:197-198 | the index found holds the size and no earlier index does; none exactly when the size is absent |
| Orders.SizeTablePrice | app/Http/Controllers/ProfileDashboard/OrderController.php:187-203 | a size price exists exactly when both arrays are non-empty and of equal length and the requested size is non-empty and listed; it is the price at that size's first position |
| Orders.RegularUnitPrice | app/Http/Controllers/ProfileDashboard/OrderController.php:192-216 | a positive client price wins, then a positive size-table price, otherwise the base price; the result is positive or equals the base price |
| Orders.RegularSizePrice | app/Http/Controllers/ProfileDashboard/OrderController.php:191-219 | a positive client size price wins, then the size-table price, then the unit price when a size was given; null exactly when neither a positive client size price nor a size was given |
| Orders.RegularItem | app/Http/Controllers/ProfileDashboard/OrderController.php:179-236 | no item exactly when the product does not exist; otherwise a non-customized item of this order with the product's name and image and the computed prices |
| Orders.ProposalUnitPrice | app/Http/Controllers/ProfileDashboard/OrderController.php:255-261 | a positive client price wins, otherwise the proposal's quoted total price |
| Orders.ProposalItem | app/Http/Controllers/ProfileDashboard/OrderController.php:241-290 | no item exactly when the proposal is missing or belongs to someone else; otherwise a customized item with a snapshot, whose size price is the unit price only for sized apparel |
| Orders.LineItem | app/Http/Controllers/ProfileDashboard/OrderController.php:88-101 | a customized line with a proposal id takes the proposal path, else a line with a product id the product path, else it is skipped |
| Orders.CreatedItems | app/Http/Controllers/ProfileDashboard/OrderController.php:88-101 | at most one item per line, every item carrying the new order's id |
| Shared.RoundHalfAway | app/Http/Controllers/ProfileDashboard/OrderController.php:121 | the nearest integer, with halves rounded away from zero |
| Shared.RoundingIsUnique | app/Http/Controllers/ProfileDashboard/OrderController.php:121 | at most one integer meets the rounding contract, so the discount is determined |
| Orders.Discount | app/Http/Controllers/ProfileDashboard/OrderController.php:121 | for a non-negative subtotal and a percentage in [0, 100] the discount lies between 0 and the subtotal |
| Orders.OrderTotal | app/Http/Controllers/ProfileDashboard/OrderController.php:139 | never negative; equals subtotal + shipping − discount whenever that is non-negative, otherwise 0 |
| Orders.VoucherOutcome | app/Http/Controllers/ProfileDashboard/OrderController.php:104-137 | redeemed exactly when the grant is the user's, unused, unexpired and its template exists and is enabled; the code raises exactly when a usable grant's template is gone |
| Orders.FinalOrder | app/Http/Controllers/ProfileDashboard/OrderController.php:70-147 | shipping defaults to 0 and payment to cod, both statuses pending, voucher fields set only on redemption, total as OrderTotal and never negative |
| Orders.HandleRegularProductOrderItem | app/Http/Controllers/ProfileDashboard/OrderController.php:179-236 | appends the product line's item, if any, and adds exactly its amount to the running subtotal |
| Orders.HandleCustomProposalOrderItem | app/Http/Controllers/ProfileDashboard/OrderController.php:241-299 | appends the proposal line's item, if any, and adds exactly its amount to the running subtotal |
| Orders.HandleLines | app/Http/Controllers/ProfileDashboard/OrderController.php:88-101 | unless a line raises, the items are the created items of all lines and the subtotal is their total |
| Orders.CartClearing | app/Http/Controllers/ProfileDashboard/OrderController.php:151 | the user has no cart rows left, every other user's cart is unchanged, and the count removed is the user's cart size |
| Orders.Planned | app/Http/Controllers/ProfileDashboard/OrderController.php:65-155 | a committed plan's order carries the new id and the user, is pending, and every created item carries the new id; there are at most as many items as lines; the kept cart rows plus the deleted count make up the old cart table |
| Orders.PlannedFailsOnlyOnMissingTemplate | app/Http/Controllers/ProfileDashboard/OrderController.php:114-130 | with no other fault, placement fails exactly when a usable grant's template row is missing |
| Orders.PlannedSubtotal | app/Http/Controllers/ProfileDashboard/OrderController.php:141-147 | the stored subtotal is the total of exactly the items carrying the new order's id, and the total is non-negative |
| Orders.PlannedCarts | app/Http/Controllers/ProfileDashboard/OrderController.php:149-162 | after a commit the user's cart is empty, others' carts are untouched, and the reported deletion count equals the initial cart count |
| Orders.PlannedVoucher | app/Http/Controllers/ProfileDashboard/OrderController.php:104-147 | the voucher is applied, and the grant marked used, exactly when the grant is usable and its template enabled; otherwise the grants are untouched and the discount is 0 |
| Orders.RedeemedGrantNotRedeemedAgain | app/Http/Controllers/ProfileDashboard/OrderController.php:116-126 | a grant redeemed by one placement yields no voucher to any later placement |
| Orders.MissingProductLineIsSkipped | app/Http/Controllers/ProfileDashboard/OrderController.php:181-185 | a line naming a missing product adds no item and the rest of the order goes on |
| Orders.ForeignProposalLineIsSkipped | app/Http/Controllers/ProfileDashboard/OrderController.php:249-253 | a line naming another customer's proposal adds no item |
| Orders.TenPercentOfTwoHundredFifty | app/Http/Controllers/ProfileDashboard/OrderController.php:121-139 | a 10% voucher on 250.00 takes 25.00 off; with 50.00 shipping the total is 275.00 |
| Orders.NegativeBasePriceIsCharged | app/Http/Controllers/ProfileDashboard/OrderController.php:213-216 | the base-price fallback does not make a price positive: a negative base price is charged |
| Orders.Transact | app/Http/Controllers/ProfileDashboard/OrderController.php:67-163 | the try block completes exactly when no fault stage raises and the plan exists, and then it produces exactly the planned tables |
| Orders.PlaceOrder | app/Http/Controllers/ProfileDashboard/OrderController.php:23-174 | placed exactly when no fault stage raises and the plan exists; on failure no table changes (rollback); on success the new order, its items, the redeemed grant and the cleared carts are exactly the plan's |
| Orders.ClearCart | app/Http/Controllers/ProfileDashboard/OrderController.php:304-332 | deletes exactly the user's cart rows and reports how many there were |
| Orders.UpdateStatus | app/Http/Controllers/ProfileDashboard/OrderController.php:401-420 | a status outside the customer whitelist is a 422 and another user's or a missing order a 404, neither changing anything; otherwise only that order's status changes |
| UserVouchers.IsUsed | app/Models/UserVoucher.php:41-44 | a grant is used exactly when it has a redemption time |
| UserVouchers.IsExpired | app/Models/UserVoucher.php:47-58 | a used grant is expired; an unused one is expired exactly when it has an expiry and `now` is strictly past it |
| UserVouchers.ExpiryAfter | app/Http/Controllers/AdminDashboard/VoucherController.php:146-149 | "hours" adds the duration in hours, any other type adds it in days; a non-negative duration never ends before the start, a positive one ends after it |
| UserVouchers.MarkedUsed | app/Models/UserVoucher.php:61-64 | the grant becomes used at `now` and nothing else about it changes |
| UserVouchers.UsedIsExpired | app/Models/UserVoucher.php:47-52 | a used grant counts as expired |
| UserVouchers.UsableIffNotExpired | app/Models/UserVoucher.php:41-58 | "unused and unexpired" is the same as "unexpired" |
| UserVouchers.ExpiryIsStrict | app/Models/UserVoucher.php:53-55 | an unused grant expires only strictly after its expiry instant: valid at that instant, expired one second later |
| UserVouchers.NoExpiryNeverExpires | app/Models/UserVoucher.php:53-57 | an unused grant without an expiry never expires |
| UserVouchers.ExpiryIsPermanent | app/Models/UserVoucher.php:47-58 | once expired, a grant stays expired later |
| UserVouchers.FreshGrantValidUntilExpiry | app/Http/Controllers/AdminDashboard/VoucherController.php:151-157 | a grant sent at `start` with a positive duration expires after `start`, is valid up to its expiry and expired after it |
| UserVouchers.HoursEndBeforeDays | app/Http/Controllers/AdminDashboard/VoucherController.php:151-157 | "hours" counts hours and every other type counts days, so the same duration in hours ends sooner |
| UserVouchers.MarkAsUsed | app/Models/UserVoucher.php:61-64 | only that grant changes, to its marked-used form |
| CustomerVouchers.Backfilled | app/Http/Controllers/ProfileDashboard/VoucherController.php:27-37 | a grant without an expiry gets sending time (else creation time) plus the template's duration; a grant with one is unchanged; nothing else changes |
| CustomerVouchers.BackfillIsIdempotent | app/Http/Controllers/ProfileDashboard/VoucherController.php:27-37 | backfilling twice is backfilling once, whatever template the second pass sees |
| CustomerVouchers.Entry | app/Http/Controllers/ProfileDashboard/VoucherController.php:40-52 | the listed entry carries the grant's id, template and code and its expired flag at `now` |
| CustomerVouchers.BackfillAll | app/Http/Controllers/ProfileDashboard/VoucherController.php:27-37 | only the listed grants are backfilled; every other grant is kept |
| CustomerVouchers.Visible | app/Http/Controllers/ProfileDashboard/VoucherController.php:54-57 | the list holds only unexpired entries of listed grants |
| CustomerVouchers.ListingShowsOwnUsableGrants | app/Http/Controllers/ProfileDashboard/VoucherController.php:14-61 | every listed entry is one of the user's grants, unused and unexpired after backfill |
| CustomerVouchers.VisibleAreUnexpired | app/Http/Controllers/ProfileDashboard/VoucherController.php:54-57 | every entry shown is an unexpired grant after backfill |
| CustomerVouchers.UsableGrantIsListed | app/Http/Controllers/ProfileDashboard/VoucherController.php:54-57 | conversely, every listed grant unexpired after backfill is shown |
| CustomerVouchers.FillAndList | app/Http/Controllers/ProfileDashboard/VoucherController.php:27-57 | the loop fails exactly when a listed grant's template is missing, and then the rows before the first such grant are already backfilled and no others; otherwise the table is BackfillAll and the entries are Visible |
| CustomerVouchers.MyVouchers | app/Http/Controllers/ProfileDashboard/VoucherController.php:14-61 | the backfilled expiries are written back and the unexpired grants returned; a missing template is an error that keeps the expiries saved for the rows before it |
| CustomerVouchers.ValidateVoucher | app/Http/Controllers/ProfileDashboard/VoucherController.php:64-103 | the checks run in order (not the user's grant 404, already used, expired, template missing 500, inactive template) and each answer holds exactly when the earlier checks passed and its own failed; a valid answer carries the template's name and percent |
| CustomerVouchers.ValidatedGrantIsRedeemed | app/Http/Controllers/ProfileDashboard/VoucherController.php:64-103 | a grant that validation accepts is redeemed at checkout at the same instant |
| AdminVouchers.Index | app/Http/Controllers/AdminDashboard/VoucherController.php:16-25 | every template is listed, never as expired and without an expiry date, and otherwise as stored |
| AdminVouchers.EnabledVouchers | app/Http/Controllers/AdminDashboard/VoucherController.php:28-74 | exactly the templates on the banner are listed, with their percentages; a failing query gives an empty list |
| AdminVouchers.Created | app/Http/Controllers/AdminDashboard/VoucherController.php:77-101 | a new template is enabled, has no expiry date, and takes its name, description, percent and expiration from the form |
| AdminVouchers.Edited | app/Http/Controllers/AdminDashboard/VoucherController.php:118-131 | an edit keeps status and expiry date, takes name, description, percent and expiration from the form, and replaces the image only when one is uploaded |
| AdminVouchers.CreatedTemplateIsSane | app/Http/Controllers/AdminDashboard/VoucherController.php:79-86 | a valid form gives a percent in [1, 100] and a positive expiry offset |
| AdminVouchers.Store | app/Http/Controllers/AdminDashboard/VoucherController.php:77-101 | the template is stored under a fresh id |
| AdminVouchers.Update | app/Http/Controllers/AdminDashboard/VoucherController.php:104-134 | a missing template changes nothing; otherwise only that template changes, to its edited form |
| AdminVouchers.Issued | app/Http/Controllers/AdminDashboard/VoucherController.php:146-157 | a sent grant is unused, sent now, and expires the template's duration later |
| AdminVouchers.IssuedGrantIsUsable | app/Http/Controllers/AdminDashboard/VoucherController.php:151-157 | a sent grant is not expired at any time up to its expiry |
| AdminVouchers.Send | app/Http/Controllers/AdminDashboard/VoucherController.php:137-167 | a missing template changes nothing; otherwise exactly one new grant is stored for the user |
| AdminVouchers.Toggled | app/Http/Controllers/AdminDashboard/VoucherController.php:173 | the result is enabled or disabled, and disabled exactly when the status was enabled |
| AdminVouchers.ToggleTwiceRestores | app/Http/Controllers/AdminDashboard/VoucherController.php:170-177 | toggling a well-formed status twice restores it |
| AdminVouchers.ToggleRepairsUnknownStatus | app/Http/Controllers/AdminDashboard/VoucherController.php:173 | any other status is toggled to enabled |
| AdminVouchers.DisabledLeavesBanner | app/Http/Controllers/AdminDashboard/VoucherController.php:170-177 | a disabled template leaves the banner |
| AdminVouchers.ToggleStatus | app/Http/Controllers/AdminDashboard/VoucherController.php:170-177 | only that template's status changes, to its toggled value; a missing template changes nothing |
| AdminOrders.StatusWhitelistsDiffer | app/Http/Controllers/AdminDashboard/AdminOrderController.php:119-121 | an admin cannot set cancelled or shipped, a customer cannot set packaging or on_delivery; the shared statuses are exactly four |
| AdminOrders.FoundOrderIsUnique | app/Http/Controllers/AdminDashboard/AdminOrderController.php:123-125 | the order found by id is the only one with that id |
| AdminOrders.UpdateStatus | app/Http/Controllers/AdminDashboard/AdminOrderController.php:104-142 | a status off the admin whitelist or a missing order fails and changes nothing; otherwise only that order's status changes |
| AdminOrders.CustomerOf | app/Http/Controllers/AdminDashboard/AdminOrderController.php:150-167 | stored customer text is decoded, a stored array is used as is, and undecodable or missing data gives None, which stands for the empty array the source answers |
| AdminOrders.ReportedSizePrice | app/Http/Controllers/AdminDashboard/AdminOrderController.php:208 | a zero or missing size price is reported as null, any other as stored |
| AdminOrders.ProductViewOf | app/Http/Controllers/AdminDashboard/AdminOrderController.php:170-217 | the product shows its name, its price or 0, and its description or the empty string |
| AdminOrders.ProposalViewOf | app/Http/Controllers/AdminDashboard/AdminOrderController.php:170-217 | the proposal shows its name, category and total price or 0 |
| AdminOrders.ItemViewOf | app/Http/Controllers/AdminDashboard/AdminOrderController.php:170-217 | an item shows its own price, quantity and flag, and its product or proposal exactly when that row still exists |
| AdminOrders.TransformOrder | app/Http/Controllers/AdminDashboard/AdminOrderController.php:147-275 | the full view carries the order's amounts, one entry per item of the order, the voucher exactly when its template exists, and the user exactly when it exists; a failure gives the fallback view with the same id and status |
| AdminOrders.PlacedOrderView | app/Http/Controllers/AdminDashboard/AdminOrderController.php:147-275 | an order placed at checkout shows the submitted customer, no voucher unless one was redeemed, and a non-negative total |
| Catalogue.PricingFor | app/Http/Controllers/Api/ProductController.php:186-194 | apparel (case-insensitive) has no single price and takes sizes and prices from the form, else []; other categories have price (or 0) and no size arrays |
| Catalogue.Created | app/Http/Controllers/Api/ProductController.php:196-213 | the new product takes the form's fields and pricing, the main image and the uploads, and no colour |
| Catalogue.ApparelNeverChargedNegative | app/Http/Controllers/Api/ProductController.php:186-194 | an apparel product as created is never charged a negative unit price at checkout |
| Catalogue.OtherProductsIgnoreSizes | app/Http/Controllers/Api/ProductController.php:290-294 | a non-apparel product has no size table, so checkout charges the client price or its single price |
| Catalogue.Store | app/Http/Controllers/Api/ProductController.php:150-217 | the created product is stored under a fresh id |
| Catalogue.RebuildGallery | app/Http/Controllers/Api/ProductController.php:262-283 | the discarded pictures are the existing ones not retained; too many uploads for five slots is a 422; otherwise the gallery is retained + uploads, at most five |
| Catalogue.MainImage | app/Http/Controllers/Api/ProductController.php:251-259 | an upload wins, then a filled URL, else the current image |
| Catalogue.Edited | app/Http/Controllers/Api/ProductController.php:283-310 | the edit takes the form's fields and pricing and the new pictures, and keeps the colour |
| Catalogue.RemoveFromCollections | app/Http/Controllers/Api/ProductController.php:352-374 | exactly the product's wishlist and cart rows go, and the counts are how many there were |
| Catalogue.PurgeIsExact | app/Http/Controllers/Api/ProductController.php:352-374 | after the purge no row names the product and every other row is kept |
| Catalogue.Update | app/Http/Controllers/Api/ProductController.php:220-319 | a missing product is a 404 and a full gallery a 422, both leaving the tables unchanged; otherwise the product is edited, and collections are purged exactly when it goes from active to inactive |
| Catalogue.DeactivateProduct | app/Http/Controllers/Api/ProductController.php:322-349 | a missing product is a 404 that changes nothing; otherwise exactly its wishlist and cart rows are deleted, and its own status is left as it is |
| Catalogue.ProductsByStatus | app/Http/Controllers/Api/ProductController.php:415-443 | a status other than active or inactive is rejected; otherwise exactly the products with that status |
| Catalogue.ListingsPartition | app/Http/Controllers/Api/ProductController.php:415-443 | the two listings are disjoint and together hold every product with a valid status |
| Catalogue.WithStatus | app/Http/Controllers/Api/ProductController.php:458-471 | the listed products get the new status and no other product changes |
| Catalogue.PurgeAll | app/Http/Controllers/Api/ProductController.php:466-470 | after the loop no cart or wishlist row names any of the products |
| Catalogue.PurgedInTurn | app/Http/Controllers/Api/ProductController.php:466-470 | removing the products one after another leaves exactly the rows that name none of them |
| Catalogue.BulkUpdateStatus | app/Http/Controllers/Api/ProductController.php:446-483 | a non-empty list of existing products; every listed product gets the status and the count is the number of ids; deactivation purges their collections, activation leaves them |
| Catalogue.BulkDeactivationIsComplete | app/Http/Controllers/Api/ProductController.php:446-483 | after a bulk deactivation each product is listed as inactive and no collection row names it |
| Wishlists.Index | app/Http/Controllers/Api/WishlistController.php:13-21 | exactly the user's rows |
| Wishlists.Toggled | app/Http/Controllers/Api/WishlistController.php:32-52 | a present pair loses exactly one row and nothing else changes; an absent pair is appended at the end |
| Wishlists.ToggleFlipsMembership | app/Http/Controllers/Api/WishlistController.php:24-53 | the toggle flips the pair's membership, touches no other pair and keeps rows unique |
| Wishlists.ToggleTwiceRestores | app/Http/Controllers/Api/WishlistController.php:24-53 | toggling twice restores the rows (as a multiset, and exactly when the pair was absent) |
| Wishlists.Toggle | app/Http/Controllers/Api/WishlistController.php:24-53 | the table is toggled; "added" exactly when the pair was absent |
| Wishlists.Remove | app/Http/Controllers/Api/WishlistController.php:56-71 | a missing pair is a 404 with nothing changed; otherwise exactly that row goes |
| Materials.Patched | app/Http/Controllers/AdminDashboard/MaterialController.php:40-61 | each field sent replaces the stored one, each field left out is kept |
| Materials.PatchKeepsStock | app/Http/Controllers/AdminDashboard/MaterialController.php:42-48 | an accepted edit never makes the stock negative |
| Materials.Store | app/Http/Controllers/AdminDashboard/MaterialController.php:19-37 | the material is stored as sent under a fresh id |
| Materials.Update | app/Http/Controllers/AdminDashboard/MaterialController.php:40-61 | a missing material changes nothing; otherwise only it changes, to its patched form |
| Materials.Restocked | app/Http/Controllers/AdminDashboard/MaterialController.php:83-90 | the new stock is quantity + restock − used, clamped at 0 |
| Materials.EmptyRestockChangesNothing | app/Http/Controllers/AdminDashboard/MaterialController.php:78-92 | a restock of nothing leaves a non-negative stock as it is |
| Materials.RestockIsMonotone | app/Http/Controllers/AdminDashboard/MaterialController.php:83-90 | more restocked or less used never lowers the result |
| Materials.Restock | app/Http/Controllers/AdminDashboard/MaterialController.php:76-95 | a missing material changes nothing; otherwise only its quantity changes, to the clamped value |
| Customers.CustomerName | app/Http/Controllers/AdminDashboard/CustomerController.php:32 | a truthy display name, else (when there is none) a truthy trimmed full name, else the email |
| Customers.CustomerIndex | app/Http/Controllers/AdminDashboard/CustomerController.php:14-59 | exactly the users whose role is missing or not staff, each with its display name and organisation flag |
| Customers.CustomerNameFallsBackToEmail | app/Http/Controllers/AdminDashboard/CustomerController.php:32 | the name shown is truthy or is the email |
| Customers.PromoteIn | app/Http/Controllers/AdminDashboard/CustomerController.php:62-81 | not a customer: 404; already VIP: 400; otherwise only that user's role becomes vip |
| Customers.Promote | app/Http/Controllers/AdminDashboard/CustomerController.php:62-81 | the answer and the new users table are exactly PromoteIn of the old one |
| Customers.DemoteIn | app/Http/Controllers/AdminDashboard/VIPCustomerController.php:37-58 | unknown user: 404; not VIP: 400; otherwise only that user's role becomes customer |
| Customers.RemoveVip | app/Http/Controllers/AdminDashboard/VIPCustomerController.php:37-58 | the answer and the new users table are exactly DemoteIn of the old one |
| Customers.PromoteThenRemove | app/Http/Controllers/AdminDashboard/VIPCustomerController.php:37-58 | after a successful promotion the removal always succeeds, the user ends as customer, no other user changes, and the table is restored exactly when the user was a customer |
| Customers.VipName | app/Http/Controllers/AdminDashboard/VIPCustomerController.php:19-21 | an organisation shows its organisation name, anyone else the trimmed full name |
| Customers.VipIndex | app/Http/Controllers/AdminDashboard/VIPCustomerController.php:13-32 | exactly the VIP users, each with its name |
| Customers.VipsAreListedCustomers | app/Http/Controllers/AdminDashboard/VIPCustomerController.php:15 | every VIP also appears in the customer list |
| Customers.Stats | app/Http/Controllers/AdminDashboard/CustomerController.php:84-130 | a user not found as a customer is the caught exception, answered 500 with zeros; otherwise the count is all the user's orders and the amount spent is the settled orders' total, or all orders' total when that is 0 |
| Customers.SpentNeverExceedsOrdered | app/Http/Controllers/AdminDashboard/CustomerController.php:84-130 | with non-negative totals, the amount spent lies between 0 and the total of all the user's orders |
| Notifications.Inbox | app/Http/Controllers/Api/NotificationController.php:15-27 | exactly the user's notifications, one entry each |
| Notifications.InboxIsNewestFirst | app/Http/Controllers/Api/NotificationController.php:19-21 | the inbox lists newer notifications first |
| Notifications.Store | app/Http/Controllers/Api/NotificationController.php:32-60 | one unread notification is appended under a fresh id |
| Notifications.ReadAt | app/Http/Controllers/Api/NotificationController.php:73 | only that notification changes, and only its read flag, to true |
| Notifications.MarkAsReadIsIdempotent | app/Http/Controllers/Api/NotificationController.php:73 | marking as read twice is marking once |
| Notifications.MarkAsRead | app/Http/Controllers/Api/NotificationController.php:65-80 | found exactly when the user has a notification with that id; then only it is marked read, else nothing changes |
| Notifications.AllReadFor | app/Http/Controllers/Api/NotificationController.php:89-90 | every notification of the user is read and every other notification is unchanged |
| Notifications.MarkAllCoversEach | app/Http/Controllers/Api/NotificationController.php:85-96 | after marking all, marking any one of them or all again changes nothing |
| Notifications.MarkAllAsRead | app/Http/Controllers/Api/NotificationController.php:85-96 | the table becomes AllReadFor, so all of the user's notifications are read |
| Conversations.CanAccess | app/Http/Controllers/Api/ConversationController.php:59-64 | the conversation's customer may always access it; with no assigned clerk nobody else may, otherwise exactly the customer and that clerk |
| Conversations.FirstOrCreate | app/Http/Controllers/Api/ConversationController.php:28-31 | the first matching conversation, or a new one appended when none matches; the table grows exactly when none matched |
| Conversations.FirstOrCreateIsIdempotent | app/Http/Controllers/Api/ConversationController.php:28-31 | a second first-or-create finds the same conversation and adds nothing |
| Conversations.OpenOwn | app/Http/Controllers/Api/MessageController.php:74-77 | the customer's first conversation, opened when there is none; an id is used only when one is opened |
| Conversations.Store | app/Http/Controllers/Api/ConversationController.php:26-33 | the conversation between the user and the clerk, found or opened |
| Conversations.Messages | app/Http/Controllers/Api/ConversationController.php:36-41 | a missing conversation is a 404 and one the user may not access a 403; otherwise exactly its messages |
| Conversations.ThreadIsAscending | app/Http/Controllers/Api/ConversationController.php:39 | a thread is in id order |
| Conversations.SendMessage | app/Http/Controllers/Api/ConversationController.php:44-57 | missing, forbidden or blank-text posts change nothing; otherwise one message is appended and the conversation stamped |
| Messages.Page | app/Http/Controllers/Api/MessageController.php:25-32 | exactly the conversation's messages older than `before` when a non-zero one is given |
| Messages.PageIsAscending | app/Http/Controllers/Api/MessageController.php:25-32 | a page is in id order |
| Messages.OlderPageIsPrefix | app/Http/Controllers/Api/MessageController.php:25-32 | an older page is a prefix of the whole thread, so paging back never skips a message |
| Messages.Index | app/Http/Controllers/Api/MessageController.php:15-47 | the caller's conversation, opened if absent, and one page of it |
| Messages.SnapshotOf | app/Http/Controllers/Api/MessageController.php:90-102 | missing pictures become [], a missing index 0 and a missing timestamp the server clock; other fields kept |
| Messages.Delivered | app/Http/Controllers/Api/MessageController.php:128-137 | the conversation is stamped now, and a non-empty receiver becomes its active clerk |
| Messages.Composed | app/Http/Controllers/Api/MessageController.php:104-118 | the message is from the caller to the conversation's owner, with the text, the pictures, a product card exactly when one was sent, and the quick-option flag defaulting to false |
| Messages.Store | app/Http/Controllers/Api/MessageController.php:49-143 | a conversation id the caller does not own is a 404 changing nothing; otherwise the message goes into the named or own conversation, which is stamped, under the next id after any conversation opened for it; the receiver is always the caller |
| ClerkMessages.Index | app/Http/Controllers/ClerkDashboard/ClerkMessageController.php:16-48 | a falsy customer id is a 400 changing nothing; otherwise the customer's conversation, opened if absent, and a page |
| ClerkMessages.Target | app/Http/Controllers/ClerkDashboard/ClerkMessageController.php:70-82 | the conversation is always the receiver's: the named one when it is theirs, else their first, opened if absent |
| ClerkMessages.ForeignConversationIsIgnored | app/Http/Controllers/ClerkDashboard/ClerkMessageController.php:70-82 | naming a conversation that is not the receiver's is the same as naming none |
| ClerkMessages.Attended | app/Http/Controllers/ClerkDashboard/ClerkMessageController.php:104-108 | the clerk becomes the active clerk and the conversation is stamped now |
| ClerkMessages.Deliver | app/Http/Controllers/ClerkDashboard/ClerkMessageController.php:70-108 | the message is stored in the target conversation, addressed to the receiver, and the conversation attended |
| ClerkMessages.SendMessage | app/Http/Controllers/ClerkDashboard/ClerkMessageController.php:51-114 | one message from the clerk to the receiver with the text and pictures, no product card |
| ClerkMessages.WithUploads | app/Http/Controllers/ClerkDashboard/ClerkMessageController.php:137-141 | without uploads the product is unchanged; with uploads its pictures (or []) followed by the uploads |
| ClerkMessages.UploadsFollowProductImages | app/Http/Controllers/ClerkDashboard/ClerkMessageController.php:137-141 | the product's own pictures come first and unchanged, then the uploads in order |
| ClerkMessages.NoteOf | app/Http/Controllers/ClerkDashboard/ClerkMessageController.php:161 | the note, else the default suggestion text |
| ClerkMessages.SendProduct | app/Http/Controllers/ClerkDashboard/ClerkMessageController.php:117-182 | one message with the note as text and the merged product as card, no pictures of its own, flagged as a product reference |
| Broadcast.Channels | app/Events/MessageSent.php:47-64 | the conversation channel first when there is a conversation, then the receiver's chat channel, then the sender's unless it is the receiver's; at most three, no repeats |
| Broadcast.ReceiverBeforeSender | app/Events/MessageSent.php:51-61 | the receiver's channel precedes the sender's |
| Broadcast.NotificationChannelOf | app/Events/NotificationSent.php:22-25 | a notification goes on its receiver's notification channel, which no chat message is ever broadcast on |
| Broadcast.FlagsOf | app/Events/MessageSent.php:43-44 | a product reference exactly when there is a product card; has images exactly when there are pictures |
| Broadcast.FlagsIgnoreRouting | app/Events/MessageSent.php:43-44 | the flags do not depend on conversation, sender or receiver |
| ChannelRules.Authorized | routes/channels.php:6-33 | a conversation channel is open only when the conversation exists and the user is a clerk or its customer; a chat channel to its user and clerks; the shared channel to clerks; a clerk channel to that clerk and any customer; a notification channel to its user only |
| ChannelRules.ConversationChannelAccess | routes/channels.php:6-13 | a conversation's channel is open to clerks and to its customer only |
| ChannelRules.MissingConversationIsClosed | routes/channels.php:7-12 | nobody may listen on a missing conversation's channel |
| ChannelRules.ClerksHearEveryChat | routes/channels.php:16-25 | only clerks hear the shared channel; a clerk hears every chat channel, anyone else only their own |
| ChannelRules.NotificationReachesOnlyReceiver | app/Events/NotificationSent.php:22-25 | a notification's channel is open to its receiver and nobody else |
| ChannelRules.ChatMessageReachesParticipants | routes/channels.php:6-20 | a message in a customer's conversation can be heard on all its channels by a clerk, and by the customer on all but the sender's own chat channel |
| ProxyTarget.FirstTruthy | vue.config.js:12-14 | the first set, non-empty candidate, none only when every candidate is unset or empty |
| ProxyTarget.StripTrailingSlash | vue.config.js:13 | exactly one trailing slash is removed; anything else is unchanged |
| ProxyTarget.OnlyOneSlashRemoved | vue.config.js:13 | a doubled trailing slash keeps one |
| ProxyTarget.FallbackIsUnreachable | vue.config.js:16 | the local backend candidate is always truthy, so the code after the loop never runs |
| ProxyTarget.ResolveProxyTarget | vue.config.js:4-17 | the target is the local backend or one of the three variables, taken only when set and non-empty, with its trailing slash removed |
| ProxyTarget.ResolutionOrder | vue.config.js:4-17 | the proxy variable wins, then the Vite variable, then the Vue CLI variable, else the local backend |

## Left out

- HTTP dispatch, authentication (401 answers) and the request validation rules. A validation rule that needs no database lookup is a precondition (`RequestValid`, `FormValid`, `MessageValid`, ...). An `exists:` rule is a precondition that the row exists. For checkout these are the voucher grant and each line's proposal. The `required` rule on the bulk update's id list is a precondition that the list is non-empty.
- File storage, uploads and public URLs. An uploaded file is modelled as the URL string it produces. Deleting the discarded gallery pictures of a product is modelled as the list of URLs to delete; the other file deletions are listed below.
- SQL LIKE searches, eager loading, pagination and sort orders, except where an order is a promise of the code: the notification inbox and message pages.
- JSON encoding and decoding. Decoding is an opaque partial function, a field of the stored value (`JsonText(decoded)`).
- PHP float arithmetic. Money is integer cents, and `round(x, 2)` is rounding half away from zero to a whole cent.
- Carbon's clock and calendar: `now` is a parameter and a day is 86400 seconds, so daylight-saving changes are not modelled.
- Concurrency. Two checkouts redeeming the same grant at the same time rely on database locking; the model is single-threaded.
- Logging everywhere.
- Broadcast transport and queueing. The model keeps only the channel choice and the flags. `Message` also dispatches `MessageSent` when it is created and touches its conversation; both are delivery plumbing, and the explicit `updated_at` stamp is modelled instead.
- The `broadcastWith` payloads of both events, and `NotificationSent::broadcastAs`. They are formatting; the event names are only constants.
- Casting the channel parameters to int in routes/channels.php. Channel ids are integers in the model.
- Ids consumed by a rolled-back insert. A failed checkout leaves `nextId` unchanged.
- `array_search`'s loose comparison. Sizes are compared as strings.
- `Voucher::isActive` and the voucher code generator. The `Voucher` model is not part of this model; they are parameters (`isActive`, `code`).
- The conversation lists of users and clerks and the clerk's customer list. They are plain queries outside the modelled core.
- Catalogue.Update: the old main image file is deleted when a new one is uploaded, before the gallery check, so also on the 422 answer (app/Http/Controllers/Api/ProductController.php:251-259). The model computes the new main image but does not report the deleted file.
- Materials.Update: the replaced material image file is deleted (app/Http/Controllers/AdminDashboard/MaterialController.php:51-53). The model does not report the deleted file.
- AdminVouchers.Update: the replaced voucher image file is deleted (app/Http/Controllers/AdminDashboard/VoucherController.php:119-121). The model does not report the deleted file.
- Orders.PlaceOrder: the proposal's `status = ordered` and `order_id` write is not modelled. `CustomProposal`'s mass-assignment list contains neither field, so Eloquent drops the write and the proposal row does not change.
- Orders.RegularUnitPrice: positivity is not promised, because the code does not promise it. A non-positive base price is charged as it is (`NegativeBasePriceIsCharged`).
- Catalogue.Created: the `color` field is dropped. `Product`'s mass-assignment list does not contain it, so `store` saves no colour and `update` keeps the stored one.
- CustomerVouchers.MyVouchers: the listing order (newest grant first) is not modelled. The caller passes the user's grant ids in any order and the result follows that order.
- Notifications.Inbox: "newest first" is modelled as descending ids. Ids ascend with creation time, so this matches the `created_at` ordering except for rows with equal timestamps.
- Materials.Update: an explicit null image is treated like an image that was not sent.
- AdminOrders.TransformOrder: the user view carries the id and email only; the name fields are formatting.
- Messages.Store: `product_data`'s truthiness is modelled as present or absent, so an empty array counts as absent.
- Conversations.SendMessage: the stored message has no receiver, as the code leaves `receiver_id` unset, so its broadcast goes to the conversation channel and the sender only.

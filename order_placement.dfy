/**
 * Placing an order from the customer's checkout, and the two other order
 * operations of the customer dashboard: clearing the cart and changing an
 * order's status.
 *
 * Placement runs in one transaction. Every write goes to a local copy of
 * the tables it touches and the copy is committed at the very end; an
 * exception at any stage (`fault`) therefore leaves the database exactly as
 * it was, which is what the rollback guarantees.
 */
module Orders {
  import opened Shared
  import opened Schema
  import opened UserVouchers

  /** One entry of the request's `items` array. */
  datatype OrderLine = OrderLine(
    productId: Option<int>,
    proposalId: Option<int>,
    quantity: int,
    size: Option<string>,
    price: Option<Money>,
    sizePrice: Option<Money>,
    isCustomized: bool)

  datatype OrderRequest = OrderRequest(
    lines: seq<OrderLine>,
    userVoucherId: Option<int>,
    shippingFee: Option<Money>,
    paymentMethod: Option<string>,
    customer: CustomerInfo)

  const PaymentMethods: set<string> := {"cod", "gcash", "credit-card"}

  /** The checkout's validation rules that do not consult the database. */
  predicate RequestValid(req: OrderRequest)
  {
    && |req.lines| >= 1
    && (forall i :: 0 <= i < |req.lines| ==> req.lines[i].quantity >= 1)
    && (forall i :: 0 <= i < |req.lines| && req.lines[i].size.Some? ==> |req.lines[i].size.value| <= 50)
    && (req.paymentMethod.Some? ==> req.paymentMethod.value in PaymentMethods)
    && !Blank(req.customer.firstName) && !Blank(req.customer.lastName)
    && !Blank(req.customer.email) && !Blank(req.customer.phone) && !Blank(req.customer.address)
  }

  /**
   * `parseJsonSafe`: a decoded list is returned as it is, text is decoded,
   * and anything that is not a list becomes the empty list.
   */
  function ParseJsonSafe<T>(raw: JsonList<T>): (r: seq<T>)
    ensures raw.ListValue? ==> r == raw.items
    ensures raw.TextValue? && raw.decoded.Some? ==> r == raw.decoded.value
    ensures raw.NullValue? || (raw.TextValue? && raw.decoded.None?) ==> r == []
  {
    match raw
    case NullValue => []
    case ListValue(items) => items
    case TextValue(_, decoded) => if decoded.Some? then decoded.value else []
  }

  /** The position of the first option equal to `x` (`array_search`). */
  function FirstIndexOf(xs: seq<string>, x: string): (r: Option<nat>)
    ensures r.Some? ==> r.value < |xs| && xs[r.value] == x && x !in xs[..r.value]
    ensures r.None? <==> x !in xs
  {
    var r := FindIndex(xs, y => y == x);
    assert r.Some? ==> x !in xs[..r.value] by {
      if r.Some? {
        forall j | 0 <= j < r.value ensures xs[..r.value][j] != x {
          assert (y => y == x)(xs[j]) == false;
        }
      }
    }
    r
  }

  /** The product's own price column, 0 when it is null. */
  function BasePrice(p: Product): Money
  {
    if p.price.Some? then p.price.value else 0
  }

  /** The size table applies when both arrays are non-empty and of equal length. */
  predicate SizeTableApplies(p: Product)
  {
    var options := ParseJsonSafe(p.availableSizes);
    var prices := ParseJsonSafe(p.prices);
    |options| > 0 && |prices| > 0 && |options| == |prices|
  }

  /** The price the size table lists for the requested size, when it lists one. */
  function SizeTablePrice(p: Product, size: Option<string>): (r: Option<Money>)
    ensures r.Some? <==> SizeTableApplies(p) && Filled(size) && size.value in ParseJsonSafe(p.availableSizes)
    ensures r.Some? ==> exists k :: (0 <= k < |ParseJsonSafe(p.availableSizes)|
      && ParseJsonSafe(p.availableSizes)[k] == size.value && r.value == ParseJsonSafe(p.prices)[k])
  {
    if SizeTableApplies(p) && Filled(size) then
      match FirstIndexOf(ParseJsonSafe(p.availableSizes), size.value)
      case Some(k) => Some(ParseJsonSafe(p.prices)[k])
      case None => None
    else None
  }

  predicate PositivePrice(x: Option<Money>)
  {
    x.Some? && x.value > 0
  }

  /**
   * The unit price of a catalogue line: a positive client price wins; else
   * a positive size-table price; in every other case the base price, which
   * may itself be zero or negative.
   */
  function RegularUnitPrice(p: Product, line: OrderLine): (r: Money)
    ensures PositivePrice(line.price) ==> r == line.price.value
    ensures !PositivePrice(line.price) && PositivePrice(SizeTablePrice(p, line.size)) ==> r == SizeTablePrice(p, line.size).value
    ensures !PositivePrice(line.price) && !PositivePrice(SizeTablePrice(p, line.size)) ==> r == BasePrice(p)
    ensures r > 0 || r == BasePrice(p)
  {
    var table := SizeTablePrice(p, line.size);
    var resolved := if table.Some? then table.value else BasePrice(p);
    var offered := if PositivePrice(line.price) then line.price.value else resolved;
    if offered <= 0 then BasePrice(p) else offered
  }

  /**
   * The recorded size price of a catalogue line: a positive client value,
   * else the size table's entry, else the unit price whenever a size was
   * given; null only when neither a size nor a positive client value is.
   */
  function RegularSizePrice(p: Product, line: OrderLine): (r: Option<Money>)
    ensures PositivePrice(line.sizePrice) ==> r == line.sizePrice
    ensures !PositivePrice(line.sizePrice) && SizeTablePrice(p, line.size).Some? ==> r == SizeTablePrice(p, line.size)
    ensures !PositivePrice(line.sizePrice) && SizeTablePrice(p, line.size).None? && Filled(line.size)
      ==> r == Some(RegularUnitPrice(p, line))
    ensures r.None? <==> !PositivePrice(line.sizePrice) && !Filled(line.size)
  {
    var table := SizeTablePrice(p, line.size);
    var chosen := if PositivePrice(line.sizePrice) then line.sizePrice else table;
    if chosen.None? && Filled(line.size) then Some(RegularUnitPrice(p, line)) else chosen
  }

  /** The order item a catalogue line produces; none when the product does not exist. */
  function RegularItem(products: map<int, Product>, orderId: int, line: OrderLine): (r: Option<OrderItem>)
    requires line.productId.Some?
    ensures r.None? <==> line.productId.value !in products
    ensures r.Some? ==> var p := products[line.productId.value];
      && r.value.orderId == orderId && r.value.productId == line.productId && r.value.proposalId.None?
      && r.value.price == RegularUnitPrice(p, line) && r.value.sizePrice == RegularSizePrice(p, line)
      && r.value.quantity == line.quantity && r.value.size == line.size
      && r.value.name == p.name && r.value.image == p.image
      && !r.value.isCustomized && r.value.customization.None?
  {
    var id := line.productId.value;
    if id !in products then None
    else
      var p := products[id];
      Some(OrderItem(orderId, Some(id), None, p.name, RegularUnitPrice(p, line), RegularSizePrice(p, line),
                     line.quantity, line.size, p.image, false, None))
  }

  /** What the proposal quotes, 0 when it has no total. */
  function QuotedPrice(q: Proposal): Money
  {
    if q.totalPrice.Some? then q.totalPrice.value else 0
  }

  /** The unit price of a proposal line: a positive client price, else the quoted total. */
  function ProposalUnitPrice(q: Proposal, line: OrderLine): (r: Money)
    ensures PositivePrice(line.price) ==> r == line.price.value
    ensures !PositivePrice(line.price) ==> r == QuotedPrice(q)
  {
    var asked := if line.price.Some? then line.price.value else QuotedPrice(q);
    if asked <= 0 then QuotedPrice(q) else asked
  }

  /** The proposal's design fields, as the order item keeps them. */
  function Snapshot(q: Proposal): Customization
  {
    Customization(q.customizationRequest, q.designerMessage, q.material, q.features, q.category)
  }

  /** The order item a proposal line produces; none unless the proposal exists and is the user's. */
  function ProposalItem(proposals: map<int, Proposal>, userId: int, orderId: int, line: OrderLine): (r: Option<OrderItem>)
    requires line.proposalId.Some?
    ensures r.None? <==> line.proposalId.value !in proposals || proposals[line.proposalId.value].customerId != Some(userId)
    ensures r.Some? ==> var q := proposals[line.proposalId.value];
      && r.value.orderId == orderId && r.value.productId.None? && r.value.proposalId == line.proposalId
      && r.value.price == ProposalUnitPrice(q, line)
      && (r.value.sizePrice.Some? <==> q.category == "apparel" && Filled(line.size))
      && (r.value.sizePrice.Some? ==> r.value.sizePrice.value == r.value.price)
      && r.value.quantity == line.quantity && r.value.size == line.size && r.value.name == q.name
      && r.value.image == (if q.images == [] then None else Some(q.images[0]))
      && r.value.isCustomized && r.value.customization == Some(Snapshot(q))
  {
    var id := line.proposalId.value;
    if id !in proposals || proposals[id].customerId != Some(userId) then None
    else
      var q := proposals[id];
      var price := ProposalUnitPrice(q, line);
      var sizePrice := if q.category == "apparel" && Filled(line.size) then Some(price) else None;
      var image := if q.images == [] then None else Some(q.images[0]);
      Some(OrderItem(orderId, None, Some(id), q.name, price, sizePrice, line.quantity, line.size,
                     image, true, Some(Snapshot(q))))
  }

  /** Which handler a line goes to: proposals first, then products, else skipped. */
  function LineItem(products: map<int, Product>, proposals: map<int, Proposal>, userId: int, orderId: int,
                    line: OrderLine): (r: Option<OrderItem>)
    ensures line.isCustomized && line.proposalId.Some? ==> r == ProposalItem(proposals, userId, orderId, line)
    ensures !(line.isCustomized && line.proposalId.Some?) && line.productId.Some?
      ==> r == RegularItem(products, orderId, line)
    ensures !(line.isCustomized && line.proposalId.Some?) && line.productId.None? ==> r.None?
  {
    if line.isCustomized && line.proposalId.Some? then ProposalItem(proposals, userId, orderId, line)
    else if line.productId.Some? then RegularItem(products, orderId, line)
    else None
  }

  function AsSeq<T>(x: Option<T>): seq<T>
  {
    if x.Some? then [x.value] else []
  }

  /** The items created for `lines`, in request order. */
  function CreatedItems(products: map<int, Product>, proposals: map<int, Proposal>, userId: int, orderId: int,
                        lines: seq<OrderLine>): (r: seq<OrderItem>)
    ensures |r| <= |lines|
    ensures forall i :: 0 <= i < |r| ==> r[i].orderId == orderId
  {
    if lines == [] then []
    else
      CreatedItems(products, proposals, userId, orderId, lines[..|lines| - 1])
      + AsSeq(LineItem(products, proposals, userId, orderId, lines[|lines| - 1]))
  }

  /** What an item adds to the subtotal. */
  function Amount(item: OrderItem): Money
  {
    item.price * item.quantity
  }

  /** The sum of price times quantity over `items`. */
  function LinesTotal(items: seq<OrderItem>): Money
  {
    if items == [] then 0 else LinesTotal(items[..|items| - 1]) + Amount(items[|items| - 1])
  }

  lemma {:induction false} LinesTotalAppend(a: seq<OrderItem>, b: seq<OrderItem>)
    ensures LinesTotal(a + b) == LinesTotal(a) + LinesTotal(b)
    decreases |b|
  {
    if b != [] {
      assert (a + b)[..|a + b| - 1] == a + b[..|b| - 1];
      LinesTotalAppend(a, b[..|b| - 1]);
    } else {
      assert a + b == a;
    }
  }

  /** `round(subtotal × percent / 100, 2)`, in cents. */
  function Discount(subtotal: Money, percent: real): (d: Money)
    ensures 0 <= subtotal && 0.0 <= percent <= 100.0 ==> 0 <= d <= subtotal
  {
    var exact := subtotal as real * percent / 100.0;
    assert 0 <= subtotal && 0.0 <= percent <= 100.0 ==> 0.0 <= exact <= subtotal as real by {
      if 0 <= subtotal && 0.0 <= percent <= 100.0 {
        assert subtotal as real * percent <= subtotal as real * 100.0;
      }
    }
    RoundHalfAway(exact)
  }

  /** `max(0, subtotal + shipping − discount)`. */
  function OrderTotal(subtotal: Money, shipping: Money, discount: Money): (t: Money)
    ensures t >= 0
    ensures t == 0 || t == subtotal + shipping - discount
    ensures subtotal + shipping - discount >= 0 ==> t == subtotal + shipping - discount
  {
    Max0(subtotal + shipping - discount)
  }

  /** How the requested voucher grant ends up: ignored, redeemed, or an exception. */
  datatype Redemption =
    | NoVoucher
    | Redeemed(grantId: int, voucherId: int, code: string, discount: Money)
    | TemplateMissing

  /** A grant that the voucher branch of placement gets past its validity check. */
  predicate UsableGrant(grants: map<int, Grant>, userId: int, grantId: Option<int>, now: Time)
  {
    Present(grantId) && grantId.value in grants && grants[grantId.value].userId == userId
    && !IsExpired(grants[grantId.value], now)
  }

  /**
   * The voucher branch of placement. The grant must be the user's, unused
   * and unexpired, and its template enabled; otherwise no discount. A
   * usable grant whose template row is gone makes the warning message read
   * a property of null, which Laravel raises as an exception.
   */
  function VoucherOutcome(grants: map<int, Grant>, vouchers: map<int, Voucher>, userId: int,
                          grantId: Option<int>, subtotal: Money, now: Time): (r: Redemption)
    ensures r.Redeemed? <==> (UsableGrant(grants, userId, grantId, now)
      && grants[grantId.value].voucherId in vouchers && vouchers[grants[grantId.value].voucherId].status == "enabled")
    ensures r.TemplateMissing? <==> (UsableGrant(grants, userId, grantId, now)
      && grants[grantId.value].voucherId !in vouchers)
    ensures r.Redeemed? ==> var g := grants[grantId.value];
      && r.grantId == grantId.value && r.voucherId == g.voucherId && r.code == g.code
      && r.discount == Discount(subtotal, vouchers[g.voucherId].percent)
  {
    if !Present(grantId) || grantId.value !in grants || grants[grantId.value].userId != userId then NoVoucher
    else
      var g := grants[grantId.value];
      if IsUsed(g) || IsExpired(g, now) then NoVoucher
      else if g.voucherId !in vouchers then TemplateMissing
      else if vouchers[g.voucherId].status != "enabled" then NoVoucher
      else Redeemed(grantId.value, g.voucherId, g.code, Discount(subtotal, vouchers[g.voucherId].percent))
  }

  /** The order row as first created, before any line is priced. */
  function Placeholder(id: int, userId: int, req: OrderRequest): Order
  {
    Order(id, userId, 0, if req.shippingFee.Some? then req.shippingFee.value else 0, 0, None, None, 0,
          if req.paymentMethod.Some? then req.paymentMethod.value else "cod",
          "pending", "pending", JsonText(Some(req.customer)))
  }

  /** The order row as committed. */
  function FinalOrder(id: int, userId: int, req: OrderRequest, subtotal: Money, outcome: Redemption): (o: Order)
    ensures o.id == id && o.userId == userId && o.subtotal == subtotal
    ensures o.shippingFee == (if req.shippingFee.Some? then req.shippingFee.value else 0)
    ensures o.paymentMethod == (if req.paymentMethod.Some? then req.paymentMethod.value else "cod")
    ensures o.status == "pending" && o.paymentStatus == "pending"
    ensures outcome.Redeemed? ==>
      o.discount == outcome.discount && o.voucherId == Some(outcome.voucherId) && o.voucherCode == Some(outcome.code)
    ensures !outcome.Redeemed? ==> o.discount == 0 && o.voucherId.None? && o.voucherCode.None?
    ensures o.total >= 0 && o.total == OrderTotal(subtotal, o.shippingFee, o.discount)
  {
    var discount := if outcome.Redeemed? then outcome.discount else 0;
    var base := Placeholder(id, userId, req);
    base.(subtotal := subtotal, total := OrderTotal(subtotal, base.shippingFee, discount),
          voucherId := if outcome.Redeemed? then Some(outcome.voucherId) else None,
          voucherCode := if outcome.Redeemed? then Some(outcome.code) else None,
          discount := discount)
  }

  /** The cart rows of user `u` (`Cart::where('user_id', u)`). */
  function OwnedBy(u: int): CartRow -> bool
  {
    (row: CartRow) => row.userId == u
  }

  /** The items of order `id`. */
  function OfOrder(id: int): OrderItem -> bool
  {
    (item: OrderItem) => item.orderId == id
  }

  /** Where placement can raise: creating the order, handling line i, redeeming, saving, clearing. */
  datatype Stage = CreatingOrder | HandlingLine(index: nat) | RedeemingVoucher | SavingTotals | ClearingCart

  datatype Placement =
    | Placed(order: Order, cartCleared: nat, initialCartCount: nat)
    | Failed

  /** `handleRegularProductOrderItem`: price the line, add it to the subtotal, create the item. */
  method HandleRegularProductOrderItem(products: map<int, Product>, orderId: int, line: OrderLine,
                                       items: seq<OrderItem>, subtotal: Money)
    returns (items': seq<OrderItem>, subtotal': Money)
    requires line.productId.Some?
    ensures items' == items + AsSeq(RegularItem(products, orderId, line))
    ensures subtotal' == subtotal + LinesTotal(AsSeq(RegularItem(products, orderId, line)))
  {
    if line.productId.value !in products {
      return items, subtotal;
    }
    var product := products[line.productId.value];
    var options := ParseJsonSafe(product.availableSizes);
    var prices := ParseJsonSafe(product.prices);
    var sizePrice: Option<Money> := None;
    var priceToUse := BasePrice(product);
    if |options| > 0 && |prices| > 0 && |options| == |prices| {
      if Filled(line.size) {
        var index := FirstIndexOf(options, line.size.value);
        if index.Some? {
          sizePrice := Some(prices[index.value]);
          priceToUse := prices[index.value];
        }
      }
    }
    if PositivePrice(line.price) {
      priceToUse := line.price.value;
    }
    if PositivePrice(line.sizePrice) {
      sizePrice := line.sizePrice;
    }
    if priceToUse <= 0 {
      priceToUse := BasePrice(product);
    }
    if sizePrice.None? && Filled(line.size) {
      sizePrice := Some(priceToUse);
    }
    subtotal' := subtotal + priceToUse * line.quantity;
    var item := OrderItem(orderId, line.productId, None, product.name, priceToUse, sizePrice,
                          line.quantity, line.size, product.image, false, None);
    assert [item][..0] == [];
    items' := items + [item];
  }

  /** `handleCustomProposalOrderItem`: the same for a line naming the user's own proposal. */
  method HandleCustomProposalOrderItem(proposals: map<int, Proposal>, userId: int, orderId: int, line: OrderLine,
                                       items: seq<OrderItem>, subtotal: Money)
    returns (items': seq<OrderItem>, subtotal': Money)
    requires line.proposalId.Some?
    ensures items' == items + AsSeq(ProposalItem(proposals, userId, orderId, line))
    ensures subtotal' == subtotal + LinesTotal(AsSeq(ProposalItem(proposals, userId, orderId, line)))
  {
    if line.proposalId.value !in proposals {
      return items, subtotal;
    }
    var proposal := proposals[line.proposalId.value];
    if proposal.customerId != Some(userId) {
      return items, subtotal;
    }
    var priceToUse := if line.price.Some? then line.price.value else QuotedPrice(proposal);
    if priceToUse <= 0 {
      priceToUse := QuotedPrice(proposal);
    }
    var sizePrice: Option<Money> := None;
    if proposal.category == "apparel" && Filled(line.size) {
      sizePrice := Some(priceToUse);
    }
    subtotal' := subtotal + priceToUse * line.quantity;
    var image := if proposal.images != [] then Some(proposal.images[0]) else None;
    var item := OrderItem(orderId, None, line.proposalId, proposal.name, priceToUse, sizePrice,
                          line.quantity, line.size, image, true, Some(Snapshot(proposal)));
    assert [item][..0] == [];
    items' := items + [item];
  }

  /** The carts table after `Cart::where('user_id', u)->delete()`. */
  function WithoutCartOf(carts: seq<CartRow>, u: int): seq<CartRow>
  {
    Filter(carts, Not(OwnedBy(u)))
  }

  /**
   * Deleting a user's cart rows leaves that user none, leaves every other
   * user's rows as they were, and deletes as many rows as the user had.
   */
  lemma {:induction false} CartClearing(carts: seq<CartRow>, u: int)
    ensures Filter(WithoutCartOf(carts, u), OwnedBy(u)) == []
    ensures forall v :: v != u ==> Filter(WithoutCartOf(carts, u), OwnedBy(v)) == Filter(carts, OwnedBy(v))
    ensures |carts| - |WithoutCartOf(carts, u)| == |Filter(carts, OwnedBy(u))|
  {
    FilterNone(carts, Not(OwnedBy(u)), OwnedBy(u));
    forall v | v != u
      ensures Filter(WithoutCartOf(carts, u), OwnedBy(v)) == Filter(carts, OwnedBy(v))
    {
      FilterInside(carts, Not(OwnedBy(u)), OwnedBy(v));
    }
    FilterPartition(carts, OwnedBy(u));
  }

  /**
   * Appending the items of a fresh order id to a table with only older ids:
   * the table's items for the new id are exactly the appended ones.
   */
  lemma {:induction false} ItemsOfNewOrder(existing: seq<OrderItem>, created: seq<OrderItem>, id: int)
    requires forall i :: 0 <= i < |existing| ==> existing[i].orderId < id
    requires forall i :: 0 <= i < |created| ==> created[i].orderId == id
    ensures Filter(existing + created, OfOrder(id)) == created
  {
    FilterAppend(existing, created, OfOrder(id));
    NoneOfOrder(existing, id);
    FilterAll(created, OfOrder(id));
  }

  lemma {:induction false} NoneOfOrder(existing: seq<OrderItem>, id: int)
    requires forall i :: 0 <= i < |existing| ==> existing[i].orderId < id
    ensures Filter(existing, OfOrder(id)) == []
  {
    if existing != [] {
      NoneOfOrder(existing[1..], id);
    }
  }

  lemma CreatedItemsStep(products: map<int, Product>, proposals: map<int, Proposal>, userId: int, orderId: int,
                         lines: seq<OrderLine>, i: nat)
    requires i < |lines|
    ensures CreatedItems(products, proposals, userId, orderId, lines[..i + 1])
      == CreatedItems(products, proposals, userId, orderId, lines[..i])
         + AsSeq(LineItem(products, proposals, userId, orderId, lines[i]))
  {
    assert lines[..i + 1][..i] == lines[..i];
  }

  /** The dispatch of one line: to the proposal handler, to the product handler, or skipped. */
  method HandleLine(products: map<int, Product>, proposals: map<int, Proposal>, userId: int, orderId: int,
                    line: OrderLine, items: seq<OrderItem>, subtotal: Money)
    returns (items': seq<OrderItem>, subtotal': Money)
    ensures items' == items + AsSeq(LineItem(products, proposals, userId, orderId, line))
    ensures subtotal' == subtotal + LinesTotal(AsSeq(LineItem(products, proposals, userId, orderId, line)))
  {
    if line.isCustomized && line.proposalId.Some? {
      items', subtotal' := HandleCustomProposalOrderItem(proposals, userId, orderId, line, items, subtotal);
    } else if line.productId.Some? {
      items', subtotal' := HandleRegularProductOrderItem(products, orderId, line, items, subtotal);
    } else {
      items', subtotal' := items, subtotal;
    }
  }

  /**
   * The loop over the request's lines: each line is dispatched to its
   * handler, which may skip it. Stops at the line where `fault` raises.
   */
  method HandleLines(products: map<int, Product>, proposals: map<int, Proposal>, userId: int, orderId: int,
                     lines: seq<OrderLine>, fault: Option<Stage>)
    returns (failedAt: Option<nat>, items: seq<OrderItem>, subtotal: Money)
    ensures failedAt.None? <==> !(fault.Some? && fault.value.HandlingLine? && fault.value.index < |lines|)
    ensures failedAt.None? ==> items == CreatedItems(products, proposals, userId, orderId, lines)
    ensures failedAt.None? ==> subtotal == LinesTotal(items)
  {
    items, subtotal := [], 0;
    var i := 0;
    while i < |lines|
      invariant 0 <= i <= |lines|
      invariant !(fault.Some? && fault.value.HandlingLine? && fault.value.index < i)
      invariant items == CreatedItems(products, proposals, userId, orderId, lines[..i])
      invariant subtotal == LinesTotal(items)
    {
      if fault == Some(HandlingLine(i)) {
        return Some(i), items, subtotal;
      }
      CreatedItemsStep(products, proposals, userId, orderId, lines, i);
      LinesTotalAppend(items, AsSeq(LineItem(products, proposals, userId, orderId, lines[i])));
      items, subtotal := HandleLine(products, proposals, userId, orderId, lines[i], items, subtotal);
      i := i + 1;
    }
    assert lines[..i] == lines;
    failedAt := None;
  }

  /** The voucher branch's outcome for the subtotal of the items the lines create. */
  function CheckoutOutcome(products: map<int, Product>, proposals: map<int, Proposal>, grants: map<int, Grant>,
                           vouchers: map<int, Voucher>, userId: int, orderId: int, req: OrderRequest, now: Time): Redemption
  {
    VoucherOutcome(grants, vouchers, userId, req.userVoucherId,
                   LinesTotal(CreatedItems(products, proposals, userId, orderId, req.lines)), now)
  }

  /**
   * Whether the injected fault is reached and raises: creating the order,
   * handling a line the request has, redeeming a grant that is redeemed,
   * saving the totals, or clearing the cart.
   */
  predicate Raises(fault: Option<Stage>, req: OrderRequest, outcome: Redemption)
  {
    match fault
    case None => false
    case Some(CreatingOrder) => true
    case Some(HandlingLine(i)) => i < |req.lines|
    case Some(RedeemingVoucher) => outcome.Redeemed?
    case Some(SavingTotals) => true
    case Some(ClearingCart) => true
  }

  /** What a committed placement writes. */
  datatype Plan = Plan(
    order: Order,
    items: seq<OrderItem>,
    grants: map<int, Grant>,
    carts: seq<CartRow>,
    cartCleared: nat,
    initialCartCount: nat)

  /**
   * The outcome of `store` when nothing raises before the voucher check: the
   * tables after the commit, or None when the voucher branch raises.
   */
  function Planned(products: map<int, Product>, proposals: map<int, Proposal>, grants: map<int, Grant>,
                   vouchers: map<int, Voucher>, carts: seq<CartRow>, userId: int, orderId: int,
                   req: OrderRequest, now: Time): (r: Option<Plan>)
    ensures r.Some? ==> r.value.order.id == orderId && r.value.order.userId == userId
    ensures r.Some? ==> forall i :: 0 <= i < |r.value.items| ==> r.value.items[i].orderId == orderId
    ensures r.Some? ==> |r.value.items| <= |req.lines| && r.value.order.status == "pending"
    ensures r.Some? ==> |r.value.carts| + r.value.cartCleared == |carts|
  {
    var items := CreatedItems(products, proposals, userId, orderId, req.lines);
    var subtotal := LinesTotal(items);
    var outcome := VoucherOutcome(grants, vouchers, userId, req.userVoucherId, subtotal, now);
    if outcome.TemplateMissing? then None
    else
      var grants' := if outcome.Redeemed? then grants[outcome.grantId := MarkedUsed(grants[outcome.grantId], now)]
                     else grants;
      var carts' := WithoutCartOf(carts, userId);
      Some(Plan(FinalOrder(orderId, userId, req, subtotal, outcome), items, grants', carts',
                |carts| - |carts'|, |Filter(carts, OwnedBy(userId))|))
  }

  /** Placement raises in the voucher branch exactly when a usable grant's template row is gone. */
  lemma PlannedFailsOnlyOnMissingTemplate(products: map<int, Product>, proposals: map<int, Proposal>,
                                          grants: map<int, Grant>, vouchers: map<int, Voucher>, carts: seq<CartRow>,
                                          userId: int, orderId: int, req: OrderRequest, now: Time)
    ensures Planned(products, proposals, grants, vouchers, carts, userId, orderId, req, now).None?
      <==> UsableGrant(grants, userId, req.userVoucherId, now) && grants[req.userVoucherId.value].voucherId !in vouchers
  {
  }

  /**
   * The committed order's subtotal is the total of exactly the items that
   * carry its id, and its total is never negative.
   */
  lemma PlannedSubtotal(products: map<int, Product>, proposals: map<int, Proposal>, grants: map<int, Grant>,
                        vouchers: map<int, Voucher>, carts: seq<CartRow>, userId: int, orderId: int,
                        req: OrderRequest, now: Time, existing: seq<OrderItem>)
    requires forall i :: 0 <= i < |existing| ==> existing[i].orderId < orderId
    ensures var p := Planned(products, proposals, grants, vouchers, carts, userId, orderId, req, now);
      p.Some? ==>
        LinesTotal(Filter(existing + p.value.items, OfOrder(orderId))) == p.value.order.subtotal
        && p.value.order.total >= 0
  {
    var items := CreatedItems(products, proposals, userId, orderId, req.lines);
    ItemsOfNewOrder(existing, items, orderId);
  }

  /**
   * After a committed placement the user has no cart rows left, every other
   * user's cart is as it was, and the reported deletion count is the
   * user's cart size before the order.
   */
  lemma PlannedCarts(products: map<int, Product>, proposals: map<int, Proposal>, grants: map<int, Grant>,
                     vouchers: map<int, Voucher>, carts: seq<CartRow>, userId: int, orderId: int,
                     req: OrderRequest, now: Time)
    ensures var p := Planned(products, proposals, grants, vouchers, carts, userId, orderId, req, now);
      p.Some? ==>
        && Filter(p.value.carts, OwnedBy(userId)) == []
        && (forall v :: v != userId ==> Filter(p.value.carts, OwnedBy(v)) == Filter(carts, OwnedBy(v)))
        && p.value.cartCleared == p.value.initialCartCount
  {
    CartClearing(carts, userId);
  }

  /**
   * The voucher is applied, and the grant marked used, exactly when the
   * grant is the user's, unused, unexpired and its template enabled; any
   * other grant is left alone and the order carries no voucher.
   */
  lemma PlannedVoucher(products: map<int, Product>, proposals: map<int, Proposal>, grants: map<int, Grant>,
                       vouchers: map<int, Voucher>, carts: seq<CartRow>, userId: int, orderId: int,
                       req: OrderRequest, now: Time)
    ensures var p := Planned(products, proposals, grants, vouchers, carts, userId, orderId, req, now);
      p.Some? ==>
        && (p.value.order.voucherId.Some? <==> (UsableGrant(grants, userId, req.userVoucherId, now)
              && vouchers[grants[req.userVoucherId.value].voucherId].status == "enabled"))
        && (p.value.order.voucherId.None? ==> p.value.grants == grants && p.value.order.discount == 0)
        && (p.value.order.voucherId.Some? ==> var gid := req.userVoucherId.value;
              && p.value.grants == grants[gid := MarkedUsed(grants[gid], now)]
              && p.value.order.voucherCode == Some(grants[gid].code)
              && p.value.order.discount == Discount(p.value.order.subtotal, vouchers[grants[gid].voucherId].percent))
  {
  }

  /**
   * A grant that one placement redeemed is never redeemed by a later one:
   * it is now used, so every later voucher check ignores it.
   */
  lemma RedeemedGrantNotRedeemedAgain(products: map<int, Product>, proposals: map<int, Proposal>,
                                      grants: map<int, Grant>, vouchers: map<int, Voucher>, carts: seq<CartRow>,
                                      userId: int, orderId: int, req: OrderRequest, now: Time,
                                      userId': int, subtotal': Money, now': Time)
    ensures var p := Planned(products, proposals, grants, vouchers, carts, userId, orderId, req, now);
      p.Some? && p.value.order.voucherId.Some? ==>
        VoucherOutcome(p.value.grants, vouchers, userId', req.userVoucherId, subtotal', now') == NoVoucher
  {
    var p := Planned(products, proposals, grants, vouchers, carts, userId, orderId, req, now);
    if p.Some? && p.value.order.voucherId.Some? {
      var gid := req.userVoucherId.value;
      assert IsUsed(p.value.grants[gid]);
    }
  }

  /** A line naming a product that does not exist is dropped and the order goes on with the rest. */
  lemma MissingProductLineIsSkipped(products: map<int, Product>, proposals: map<int, Proposal>, userId: int,
                                    orderId: int, lines: seq<OrderLine>, line: OrderLine)
    requires !(line.isCustomized && line.proposalId.Some?)
    requires line.productId.Some? && line.productId.value !in products
    ensures CreatedItems(products, proposals, userId, orderId, lines + [line])
      == CreatedItems(products, proposals, userId, orderId, lines)
  {
    assert (lines + [line])[..|lines|] == lines;
  }

  /** A line naming someone else's proposal is dropped in the same way. */
  lemma ForeignProposalLineIsSkipped(products: map<int, Product>, proposals: map<int, Proposal>, userId: int,
                                     orderId: int, lines: seq<OrderLine>, line: OrderLine)
    requires line.isCustomized && line.proposalId.Some? && line.proposalId.value in proposals
    requires proposals[line.proposalId.value].customerId != Some(userId)
    ensures CreatedItems(products, proposals, userId, orderId, lines + [line])
      == CreatedItems(products, proposals, userId, orderId, lines)
  {
    assert (lines + [line])[..|lines|] == lines;
  }

  /** A 10% voucher on a 250.00 subtotal takes 25.00 off; with 50.00 shipping the total is 275.00. */
  lemma TenPercentOfTwoHundredFifty()
    ensures Discount(25000, 10.0) == 2500
    ensures OrderTotal(25000, 5000, Discount(25000, 10.0)) == 27500
  {
  }

  /** The base-price fallback does not make a price positive: a negative base price is charged as it is. */
  lemma NegativeBasePriceIsCharged(p: Product, line: OrderLine)
    requires p.price == Some(-500) && p.availableSizes == NullValue
    requires line.price.None?
    ensures RegularUnitPrice(p, line) == -500
  {
  }

  /** Appending the new order and its items keeps the order tables valid. */
  method AppendOrder(db: Database, order: Order, items: seq<OrderItem>)
    requires db.Valid() && order.id == db.nextId
    requires forall i :: 0 <= i < |items| ==> items[i].orderId == db.nextId
    modifies db`orders, db`orderItems, db`nextId
    ensures db.Valid()
    ensures db.orders == old(db.orders) + [order] && db.orderItems == old(db.orderItems) + items
    ensures db.nextId == old(db.nextId) + 1
  {
    db.orders, db.orderItems, db.nextId := db.orders + [order], db.orderItems + items, db.nextId + 1;
  }

  /** Writing back the redeemed grants and the cleared carts keeps the database valid. */
  method WriteGrantsAndCarts(db: Database, grants: map<int, Grant>, carts: seq<CartRow>)
    requires db.Valid() && grants.Keys == db.grants.Keys
    modifies db`grants, db`carts
    ensures db.Valid()
    ensures db.grants == grants && db.carts == carts
  {
    db.grants, db.carts := grants, carts;
  }

  /**
   * The body of `store`'s try block, run against copies of the tables it
   * reads: None when something raises, otherwise what the commit writes.
   */
  method Transact(products: map<int, Product>, proposals: map<int, Proposal>, grants: map<int, Grant>,
                  vouchers: map<int, Voucher>, carts: seq<CartRow>, userId: int, orderId: int,
                  req: OrderRequest, now: Time, fault: Option<Stage>)
    returns (plan: Option<Plan>)
    ensures fault == Some(CreatingOrder) ==> plan.None?
    ensures plan.Some? <==> (!Raises(fault, req, CheckoutOutcome(products, proposals, grants, vouchers, userId, orderId, req, now))
      && Planned(products, proposals, grants, vouchers, carts, userId, orderId, req, now).Some?)
    ensures fault.None? ==> plan == Planned(products, proposals, grants, vouchers, carts, userId, orderId, req, now)
    ensures plan.Some? ==> plan == Planned(products, proposals, grants, vouchers, carts, userId, orderId, req, now)
    ensures plan.Some? ==> plan.value.order.id == orderId && plan.value.grants.Keys == grants.Keys
    ensures plan.Some? ==> forall i :: 0 <= i < |plan.value.items| ==> plan.value.items[i].orderId == orderId
  {
    if fault == Some(CreatingOrder) {
      return None;
    }
    var order := Placeholder(orderId, userId, req);
    var initialCartCount := |Filter(carts, OwnedBy(userId))|;

    var failedAt, items, subtotal := HandleLines(products, proposals, userId, orderId, req.lines, fault);
    if failedAt.Some? {
      return None;
    }

    var grants' := grants;
    var outcome := VoucherOutcome(grants, vouchers, userId, req.userVoucherId, subtotal, now);
    if outcome.TemplateMissing? {
      return None;
    }
    if outcome.Redeemed? {
      if fault == Some(RedeemingVoucher) {
        return None;
      }
      grants' := grants'[outcome.grantId := MarkedUsed(grants'[outcome.grantId], now)];
    }

    if fault == Some(SavingTotals) {
      return None;
    }
    var discount := if outcome.Redeemed? then outcome.discount else 0;
    order := order.(subtotal := subtotal, total := OrderTotal(subtotal, order.shippingFee, discount),
                    voucherId := if outcome.Redeemed? then Some(outcome.voucherId) else None,
                    voucherCode := if outcome.Redeemed? then Some(outcome.code) else None,
                    discount := discount);

    if fault == Some(ClearingCart) {
      return None;
    }
    var carts' := WithoutCartOf(carts, userId);
    var deletedCount := |carts| - |carts'|;
    plan := Some(Plan(order, items, grants', carts', deletedCount, initialCartCount));
  }

  /**
   * `store`: begin a transaction, run the try block, and commit its writes;
   * when it raises, roll back, so no table changes.
   */
  method PlaceOrder(db: Database, userId: int, req: OrderRequest, now: Time, fault: Option<Stage>)
    returns (r: Placement)
    requires db.Valid() && RequestValid(req)
    requires req.userVoucherId.Some? ==> req.userVoucherId.value in db.grants
    requires forall i :: 0 <= i < |req.lines| && req.lines[i].proposalId.Some? ==> req.lines[i].proposalId.value in db.proposals
    modifies db`orders, db`orderItems, db`grants, db`carts, db`nextId
    ensures db.Valid()
    ensures r.Failed? ==> unchanged(db)
    ensures fault == Some(CreatingOrder) ==> r.Failed?
    ensures r.Placed? <==> (!Raises(fault, req, old(CheckoutOutcome(db.products, db.proposals, db.grants, db.vouchers, userId, db.nextId, req, now)))
      && old(Planned(db.products, db.proposals, db.grants, db.vouchers, db.carts, userId, db.nextId, req, now)).Some?)
    ensures var p := old(Planned(db.products, db.proposals, db.grants, db.vouchers, db.carts, userId, db.nextId, req, now));
      && (fault.None? && p.Some? ==> r.Placed?)
      && (r.Placed? ==>
            && p.Some?
            && r == Placed(p.value.order, p.value.cartCleared, p.value.initialCartCount)
            && db.orders == old(db.orders) + [p.value.order]
            && db.orderItems == old(db.orderItems) + p.value.items
            && db.grants == p.value.grants
            && db.carts == p.value.carts
            && db.nextId == old(db.nextId) + 1)
  {
    var plan := Transact(db.products, db.proposals, db.grants, db.vouchers, db.carts, userId, db.nextId, req, now, fault);
    if plan.None? {
      // DB::rollBack: nothing was written.
      return Failed;
    }
    var p := plan.value;
    // DB::commit
    AppendOrder(db, p.order, p.items);
    WriteGrantsAndCarts(db, p.grants, p.carts);
    r := Placed(p.order, p.cartCleared, p.initialCartCount);
  }

  /** `clearCart`: delete the user's cart rows and report how many there were. */
  method ClearCart(db: Database, userId: int) returns (deletedCount: nat)
    requires db.Valid()
    modifies db`carts
    ensures db.Valid()
    ensures db.carts == WithoutCartOf(old(db.carts), userId)
    ensures deletedCount == |Filter(old(db.carts), OwnedBy(userId))|
    ensures Filter(db.carts, OwnedBy(userId)) == []
  {
    CartClearing(db.carts, userId);
    var kept := WithoutCartOf(db.carts, userId);
    deletedCount := |db.carts| - |kept|;
    db.carts := kept;
  }

  const CustomerStatuses: set<string> := {"pending", "confirmed", "processing", "shipped", "delivered", "cancelled"}

  datatype StatusChange =
    | StatusChanged(order: Order)
    | StatusInvalid   // 422
    | OrderNotFound   // 404

  /** The user's order with id `id` (`Order::where('user_id', u)->findOrFail(id)`). */
  function UsersOrder(u: int, id: int): Order -> bool
  {
    (o: Order) => o.userId == u && o.id == id
  }

  /** `updateStatus` from the customer dashboard: a whitelisted status on one of the user's own orders. */
  method UpdateStatus(db: Database, userId: int, orderId: int, status: string) returns (r: StatusChange)
    requires db.Valid()
    modifies db`orders
    ensures db.Valid()
    ensures var k := FindIndex(old(db.orders), UsersOrder(userId, orderId));
      if status !in CustomerStatuses then r == StatusInvalid && db.orders == old(db.orders)
      else if k.None? then r == OrderNotFound && db.orders == old(db.orders)
      else (r == StatusChanged(old(db.orders)[k.value].(status := status))
            && db.orders == old(db.orders)[k.value := r.order])
  {
    if status !in CustomerStatuses {
      return StatusInvalid;
    }
    var k := FindIndex(db.orders, UsersOrder(userId, orderId));
    if k.None? {
      return OrderNotFound;
    }
    var order := db.orders[k.value].(status := status);
    db.orders := db.orders[k.value := order];
    r := StatusChanged(order);
  }
}

/**
 * The admin dashboard's view of orders: the status change an admin may
 * make, and the shape every order takes in the admin responses.
 */
module AdminOrders {
  import opened Shared
  import opened Schema
  import Orders

  /** The statuses an admin may set; `cancelled` is not among them. */
  const AdminStatuses: set<string> := {"pending", "confirmed", "processing", "packaging", "on_delivery", "delivered"}

  /** The admin and customer whitelists overlap but neither contains the other. */
  lemma StatusWhitelistsDiffer()
    ensures "cancelled" in Orders.CustomerStatuses && "cancelled" !in AdminStatuses
    ensures "shipped" in Orders.CustomerStatuses && "shipped" !in AdminStatuses
    ensures "packaging" in AdminStatuses && "packaging" !in Orders.CustomerStatuses
    ensures "on_delivery" in AdminStatuses && "on_delivery" !in Orders.CustomerStatuses
    ensures forall s :: s in AdminStatuses && s in Orders.CustomerStatuses <==>
      s in {"pending", "confirmed", "processing", "delivered"}
  {
  }

  datatype AdminStatusChange =
    | Updated(order: Order)
    | UpdateFailed   // 500: a rejected status and a missing order both end in the catch-all handler

  /** The order with primary key `id` (`Order::findOrFail(id)`), whoever placed it. */
  function HasId(id: int): Order -> bool
  {
    (o: Order) => o.id == id
  }

  /** Order ids are ascending, so the order `findOrFail` finds is the only one with that id. */
  lemma FoundOrderIsUnique(orders: seq<Order>, items: seq<OrderItem>, bound: int, id: int, j: nat)
    requires OrderTables(orders, items, bound)
    requires FindIndex(orders, HasId(id)).Some? && j < |orders| && orders[j].id == id
    ensures j == FindIndex(orders, HasId(id)).value
  {
    var k := FindIndex(orders, HasId(id)).value;
    assert orders[k].id == id && HasId(id)(orders[j]);
  }

  /** `updateStatus`: a whitelisted status on any order; only that order's status changes. */
  method UpdateStatus(db: Database, orderId: int, status: string) returns (r: AdminStatusChange)
    requires db.Valid()
    modifies db`orders
    ensures db.Valid()
    ensures var k := FindIndex(old(db.orders), HasId(orderId));
      if status !in AdminStatuses || k.None? then r == UpdateFailed && db.orders == old(db.orders)
      else (r == Updated(old(db.orders)[k.value].(status := status))
            && db.orders == old(db.orders)[k.value := r.order])
  {
    if status !in AdminStatuses {
      return UpdateFailed;
    }
    var k := FindIndex(db.orders, HasId(orderId));
    if k.None? {
      return UpdateFailed;
    }
    var order := db.orders[k.value].(status := status);
    db.orders := db.orders[k.value := order];
    r := Updated(order);
  }

  datatype ProductView = ProductView(
    id: int, name: string, description: string, price: Money, color: string, images: seq<string>, image: string)

  datatype ProposalView = ProposalView(
    id: int, name: string, category: string, material: Option<string>, customizationRequest: Option<string>,
    images: seq<string>, totalPrice: Money)

  datatype ItemView = ItemView(
    productId: Option<int>,
    proposalId: Option<int>,
    name: string,
    price: Money,
    sizePrice: Option<Money>,
    quantity: int,
    size: Option<string>,
    image: Option<string>,
    isCustomized: bool,
    product: Option<ProductView>,
    proposal: Option<ProposalView>)

  datatype VoucherView = VoucherView(id: int, name: string, percent: real)

  datatype UserView = UserView(id: int, email: string)

  /**
   * An order as the admin responses show it; `customer` None is the empty
   * array. `Fallback` is what a failure inside the mapping yields: the ids
   * and status kept, every amount 0, no customer and no items.
   */
  datatype OrderView =
    | Full(
        id: int,
        orderNumber: int,
        userId: int,
        customer: Option<CustomerInfo>,
        subtotal: Money,
        shippingFee: Money,
        total: Money,
        voucherId: Option<int>,
        voucherCode: Option<string>,
        discount: Money,
        paymentMethod: string,
        paymentStatus: string,
        status: string,
        items: seq<ItemView>,
        voucher: Option<VoucherView>,
        user: Option<UserView>)
    | Fallback(id: int, orderNumber: int, userId: int, status: string)

  /** The customer column as shown: decoded when it can be, otherwise empty. */
  function CustomerOf(c: StoredCustomer): (r: Option<CustomerInfo>)
    ensures r.None? <==> (c.NoCustomer? || c == JsonText(None))
    ensures c.JsonText? ==> r == c.decoded
    ensures c.ArrayValue? ==> r == Some(c.info)
  {
    match c
    case NoCustomer => None
    case JsonText(decoded) => decoded
    case ArrayValue(info) => Some(info)
  }

  /** A `size_price` as shown: a falsy one (null or 0) is reported as null. */
  function ReportedSizePrice(x: Option<Money>): (r: Option<Money>)
    ensures r.None? <==> (x.None? || x.value == 0)
    ensures r.Some? ==> r == x
  {
    if x.Some? && x.value != 0 then x else None
  }

  function ProductViewOf(id: int, p: Product): (v: ProductView)
    ensures v.id == id && v.name == p.name
    ensures v.price == (if p.price.Some? then p.price.value else 0)
    ensures v.description == (if p.text.description.Some? then p.text.description.value else "")
  {
    ProductView(id, p.name, if p.text.description.Some? then p.text.description.value else "",
                if p.price.Some? then p.price.value else 0,
                if p.color.Some? then p.color.value else "", p.images,
                if p.image.Some? then p.image.value else "")
  }

  function ProposalViewOf(id: int, q: Proposal): (v: ProposalView)
    ensures v.id == id && v.name == q.name && v.category == q.category
    ensures v.totalPrice == (if q.totalPrice.Some? then q.totalPrice.value else 0)
  {
    ProposalView(id, q.name, q.category, q.material, q.customizationRequest, q.images,
                 if q.totalPrice.Some? then q.totalPrice.value else 0)
  }

  /** One order item as shown, with its product and proposal when those rows exist. */
  function ItemViewOf(products: map<int, Product>, proposals: map<int, Proposal>, item: OrderItem): (v: ItemView)
    ensures v.sizePrice == ReportedSizePrice(item.sizePrice)
    ensures v.price == item.price && v.quantity == item.quantity && v.isCustomized == item.isCustomized
    ensures v.product.Some? <==> (item.productId.Some? && item.productId.value in products)
    ensures v.proposal.Some? <==> (item.proposalId.Some? && item.proposalId.value in proposals)
    ensures v.product.Some? ==> v.product.value == ProductViewOf(item.productId.value, products[item.productId.value])
  {
    ItemView(
      item.productId, item.proposalId, item.name, item.price, ReportedSizePrice(item.sizePrice), item.quantity,
      item.size, item.image, item.isCustomized,
      if item.productId.Some? && item.productId.value in products
      then Some(ProductViewOf(item.productId.value, products[item.productId.value])) else None,
      if item.proposalId.Some? && item.proposalId.value in proposals
      then Some(ProposalViewOf(item.proposalId.value, proposals[item.proposalId.value])) else None)
  }

  /**
   * `transformOrder`. `items` is the whole order-item table; `fails` stands
   * for an exception raised while mapping, which yields the fallback shape.
   */
  function TransformOrder(order: Order, items: seq<OrderItem>, products: map<int, Product>,
                          proposals: map<int, Proposal>, vouchers: map<int, Voucher>, users: map<int, User>,
                          fails: bool): (r: OrderView)
    ensures r.id == order.id && r.orderNumber == r.id && r.userId == order.userId && r.status == order.status
    ensures fails <==> r.Fallback?
    ensures r.Full? ==> r.customer == CustomerOf(order.customer)
    ensures r.Full? ==> r.total == order.total && r.subtotal == order.subtotal && r.discount == order.discount
    ensures r.Full? ==> |r.items| == |Filter(items, Orders.OfOrder(order.id))|
    ensures r.Full? ==> forall i :: 0 <= i < |r.items| ==>
      r.items[i] == ItemViewOf(products, proposals, Filter(items, Orders.OfOrder(order.id))[i])
    ensures r.Full? ==> (r.voucher.None? <==> (order.voucherId.None? || order.voucherId.value !in vouchers))
    ensures r.Full? && r.voucher.Some? ==> r.voucher.value.percent == vouchers[order.voucherId.value].percent
    ensures r.Full? ==> (r.user.Some? <==> order.userId in users)
  {
    if fails then Fallback(order.id, order.id, order.userId, order.status)
    else
      var own := Filter(items, Orders.OfOrder(order.id));
      Full(
        order.id, order.id, order.userId, CustomerOf(order.customer),
        order.subtotal, order.shippingFee, order.total, order.voucherId, order.voucherCode, order.discount,
        order.paymentMethod, order.paymentStatus, order.status,
        seq(|own|, i requires 0 <= i < |own| => ItemViewOf(products, proposals, own[i])),
        if order.voucherId.Some? && order.voucherId.value in vouchers
        then Some(VoucherView(order.voucherId.value, vouchers[order.voucherId.value].name,
                              vouchers[order.voucherId.value].percent))
        else None,
        if order.userId in users then Some(UserView(order.userId, users[order.userId].email)) else None)
  }

  /**
   * An order placed through the customer dashboard shows the customer as
   * submitted, and no voucher unless one was redeemed.
   */
  lemma PlacedOrderView(id: int, userId: int, req: Orders.OrderRequest, subtotal: Money,
                        outcome: Orders.Redemption, items: seq<OrderItem>, products: map<int, Product>,
                        proposals: map<int, Proposal>, vouchers: map<int, Voucher>, users: map<int, User>)
    ensures var v := TransformOrder(Orders.FinalOrder(id, userId, req, subtotal, outcome), items, products,
                                    proposals, vouchers, users, false);
      && v.customer == Some(req.customer)
      && (!outcome.Redeemed? ==> v.voucher.None?)
      && v.total >= 0
  {
    var o := Orders.FinalOrder(id, userId, req, subtotal, outcome);
    assert o.customer == JsonText(Some(req.customer));
  }
}

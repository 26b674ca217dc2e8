/**
 * The tables the controllers read and write, as one database object.
 *
 * Tables that are only ever looked up by primary key are maps from the key
 * to the row. Tables that are scanned, counted, or read in insertion order
 * are sequences of rows in that order. A single counter stands for the
 * auto-increment columns: every key handed out is below it, so the next
 * value is always fresh.
 */
module Schema {
  import opened Shared

  /**
   * A JSON column as the model layer hands it over: SQL null, a list the
   * `array` cast has already decoded, or raw text together with what
   * json_decode makes of it (None when the text is not a JSON list).
   */
  datatype JsonList<T> =
    | NullValue
    | ListValue(items: seq<T>)
    | TextValue(text: string, decoded: Option<seq<T>>)

  datatype Category = Category(name: string, kind: string)

  /** The free-text columns a product's create and update forms write. */
  datatype ProductText = ProductText(
    description: Option<string>,
    material: Option<string>,
    note: Option<string>,
    dimensions: Option<string>,
    weight: Option<string>,
    compartments: Option<string>,
    features: Option<seq<string>>)

  datatype Product = Product(
    name: string,
    price: Option<Money>,
    availableSizes: JsonList<string>,
    prices: JsonList<Money>,
    categoryId: int,
    status: string,
    color: Option<string>,
    text: ProductText,
    image: Option<string>,
    images: seq<string>)

  /** A clerk's quoted design for one customer. */
  datatype Proposal = Proposal(
    customerId: Option<int>,
    name: string,
    category: string,
    totalPrice: Option<Money>,
    customizationRequest: Option<string>,
    designerMessage: Option<string>,
    material: Option<string>,
    features: seq<string>,
    images: seq<string>)

  /** A voucher template: a percentage discount and how long a grant of it lasts. */
  datatype Voucher = Voucher(
    name: string,
    description: Option<string>,
    percent: real,
    status: string,
    expirationType: string,
    expirationDuration: int,
    expiresAt: Option<Time>,
    image: Option<string>)

  /** One issue of a voucher template to one user (a `user_voucher` row). */
  datatype Grant = Grant(
    userId: int,
    voucherId: int,
    code: string,
    sentAt: Option<Time>,
    createdAt: Time,
    usedAt: Option<Time>,
    expiresAt: Option<Time>)

  datatype CustomerInfo = CustomerInfo(
    firstName: string,
    lastName: string,
    email: string,
    phone: string,
    address: string)

  /**
   * The order's `customer` column: null or a falsy string, JSON text with
   * what json_decode makes of it (None on a decoding error), or a value the
   * model layer already holds as an array.
   */
  datatype StoredCustomer =
    | NoCustomer
    | JsonText(decoded: Option<CustomerInfo>)
    | ArrayValue(info: CustomerInfo)

  datatype Order = Order(
    id: int,
    userId: int,
    subtotal: Money,
    shippingFee: Money,
    total: Money,
    voucherId: Option<int>,
    voucherCode: Option<string>,
    discount: Money,
    paymentMethod: string,
    paymentStatus: string,
    status: string,
    customer: StoredCustomer)

  /** The proposal fields copied into an order item when it is ordered. */
  datatype Customization = Customization(
    customizationRequest: Option<string>,
    designerMessage: Option<string>,
    material: Option<string>,
    features: seq<string>,
    category: string)

  datatype OrderItem = OrderItem(
    orderId: int,
    productId: Option<int>,
    proposalId: Option<int>,
    name: string,
    price: Money,
    sizePrice: Option<Money>,
    quantity: int,
    size: Option<string>,
    image: Option<string>,
    isCustomized: bool,
    customization: Option<Customization>)

  datatype CartRow = CartRow(
    userId: int,
    productId: Option<int>,
    proposalId: Option<int>,
    quantity: int,
    size: Option<string>)

  datatype WishRow = WishRow(userId: int, productId: int)

  datatype Material = Material(name: string, kind: string, quantity: int, cost: Money, image: Option<string>)

  datatype User = User(
    role: Option<string>,
    firstName: string,
    lastName: string,
    displayName: Option<string>,
    email: string,
    isOrganization: Option<bool>,
    organizationName: Option<string>)

  datatype Notification = Notification(
    id: int,
    senderId: int,
    receiverId: int,
    title: string,
    body: string,
    data: Option<map<string, string>>,
    isRead: bool)

  datatype Conversation = Conversation(
    id: int,
    userId: int,
    clerkId: Option<int>,
    activeClerkId: Option<int>,
    lastMessageAt: Option<Time>,
    updatedAt: Time)

  /** When a product card was shared: the client's own stamp, or the server clock. */
  datatype Stamp = ClientStamp(text: string) | ServerStamp(at: Time)

  /** What a chat message carries about a product. */
  datatype ProductPayload =
    | Snapshot(
        id: Option<int>,
        name: Option<string>,
        price: Option<Money>,
        material: Option<string>,
        description: Option<string>,
        images: seq<string>,
        currentImageIndex: int,
        timestamp: Stamp)
    | Suggestion(note: Option<string>, gallery: Option<seq<string>>, fields: map<string, string>)

  datatype Message = Message(
    id: int,
    conversationId: Option<int>,
    senderId: Option<int>,
    receiverId: Option<int>,
    text: Option<string>,
    product: Option<ProductPayload>,
    images: seq<string>,
    isQuickOption: bool)

  /** Every key is a positive id already handed out. */
  ghost predicate KeysBelow(keys: set<int>, bound: int)
  {
    forall k :: k in keys ==> 1 <= k < bound
  }

  /** Order ids are positive, handed out and ascending; every item names a handed-out order id. */
  ghost predicate OrderTables(orders: seq<Order>, items: seq<OrderItem>, bound: int)
  {
    && (forall i :: 0 <= i < |orders| ==> 1 <= orders[i].id < bound)
    && (forall i, j :: 0 <= i < j < |orders| ==> orders[i].id < orders[j].id)
    && (forall i :: 0 <= i < |items| ==> items[i].orderId < bound)
  }

  ghost predicate NotificationTable(rows: seq<Notification>, bound: int)
  {
    && (forall i :: 0 <= i < |rows| ==> 1 <= rows[i].id < bound)
    && (forall i, j :: 0 <= i < j < |rows| ==> rows[i].id < rows[j].id)
  }

  ghost predicate ConversationTable(rows: seq<Conversation>, bound: int)
  {
    && (forall i :: 0 <= i < |rows| ==> 1 <= rows[i].id < bound)
    && (forall i, j :: 0 <= i < j < |rows| ==> rows[i].id < rows[j].id)
  }

  ghost predicate MessageTable(rows: seq<Message>, bound: int)
  {
    && (forall i :: 0 <= i < |rows| ==> 1 <= rows[i].id < bound)
    && (forall i, j :: 0 <= i < j < |rows| ==> rows[i].id < rows[j].id)
  }

  /** The keyed tables: every key a positive id already handed out, no negative stock. */
  ghost predicate Keyed(categories: set<int>, products: set<int>, proposals: set<int>, vouchers: set<int>,
                        grants: set<int>, users: set<int>, materials: map<int, Material>, bound: int)
  {
    && bound >= 1
    && KeysBelow(categories, bound) && KeysBelow(products, bound) && KeysBelow(proposals, bound)
    && KeysBelow(vouchers, bound) && KeysBelow(grants, bound) && KeysBelow(users, bound)
    && KeysBelow(materials.Keys, bound)
    && (forall k :: k in materials ==> materials[k].quantity >= 0)
  }

  ghost predicate ChatTables(notifications: seq<Notification>, conversations: seq<Conversation>,
                             messages: seq<Message>, bound: int)
  {
    NotificationTable(notifications, bound) && ConversationTable(conversations, bound) && MessageTable(messages, bound)
  }

  class Database {
    var categories: map<int, Category>
    var products: map<int, Product>
    var proposals: map<int, Proposal>
    var vouchers: map<int, Voucher>
    var grants: map<int, Grant>
    var users: map<int, User>
    var materials: map<int, Material>
    var orders: seq<Order>
    var orderItems: seq<OrderItem>
    var carts: seq<CartRow>
    var wishlists: seq<WishRow>
    var notifications: seq<Notification>
    var conversations: seq<Conversation>
    var messages: seq<Message>
    var nextId: int

    ghost predicate OrdersValid()
      reads this`orders, this`orderItems, this`nextId
    {
      OrderTables(orders, orderItems, nextId)
    }

    ghost predicate ChatValid()
      reads this`notifications, this`conversations, this`messages, this`nextId
    {
      ChatTables(notifications, conversations, messages, nextId)
    }

    /** The database invariant: fresh keys, ascending row ids, no negative stock. */
    ghost predicate Valid()
      reads this`nextId, this`categories, this`products, this`proposals, this`vouchers, this`grants
      reads this`users, this`materials, this`orders, this`orderItems
      reads this`notifications, this`conversations, this`messages
    {
      && Keyed(categories.Keys, products.Keys, proposals.Keys, vouchers.Keys, grants.Keys, users.Keys, materials, nextId)
      && OrdersValid()
      && ChatValid()
    }

    constructor ()
      ensures Valid()
      ensures categories == map[] && products == map[] && proposals == map[] && vouchers == map[]
      ensures grants == map[] && users == map[] && materials == map[]
      ensures orders == [] && orderItems == [] && carts == [] && wishlists == []
      ensures notifications == [] && conversations == [] && messages == []
    {
      categories, products, proposals, vouchers := map[], map[], map[], map[];
      grants, users, materials := map[], map[], map[];
      orders, orderItems, carts, wishlists := [], [], [], [];
      notifications, conversations, messages := [], [], [];
      nextId := 1;
    }
  }
}

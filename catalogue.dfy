/**
 * Catalogue writes from the product API: creating and editing a product
 * (pricing chosen by the category's type, the gallery rebuilt from the
 * retained images and the uploads), and purging a product from every
 * wishlist and cart when it is deactivated, singly or in bulk.
 */
module Catalogue {
  import opened Shared
  import opened Schema
  import Orders

  /** The create and edit form; uploaded files appear only as the URLs they are stored under. */
  datatype ProductForm = ProductForm(
    name: string,
    price: Option<Money>,
    prices: Option<seq<Money>>,
    sizes: Option<seq<string>>,
    categoryId: int,
    status: string,
    color: Option<string>,
    text: ProductText)

  /** The form's validation rules that do not consult the database. */
  predicate ProductFormValid(f: ProductForm)
  {
    !Blank(f.name) && |f.name| <= 255 && (f.status == "active" || f.status == "inactive")
  }

  /** A category whose type is "apparel", compared case-insensitively. */
  predicate IsApparel(c: Category)
  {
    Lower(c.kind) == "apparel"
  }

  datatype Pricing = Pricing(price: Option<Money>, sizes: JsonList<string>, prices: JsonList<Money>)

  /**
   * The price columns a product gets: apparel is priced per size (the
   * request's arrays, empty when absent) and has no single price; anything
   * else has one price (0 when absent) and no size table.
   */
  function PricingFor(c: Category, f: ProductForm): (r: Pricing)
    ensures IsApparel(c) <==> r.price.None?
    ensures IsApparel(c) ==> (r.sizes == ListValue(if f.sizes.Some? then f.sizes.value else [])
      && r.prices == ListValue(if f.prices.Some? then f.prices.value else []))
    ensures !IsApparel(c) ==> (r.price == Some(if f.price.Some? then f.price.value else 0)
      && r.sizes == NullValue && r.prices == NullValue)
  {
    if IsApparel(c) then
      Pricing(None, ListValue(if f.sizes.Some? then f.sizes.value else []),
              ListValue(if f.prices.Some? then f.prices.value else []))
    else
      Pricing(Some(if f.price.Some? then f.price.value else 0), NullValue, NullValue)
  }

  /**
   * The product `store` creates. The form's `color` is not written: the
   * column is missing from the model's mass-assignable fields.
   */
  function Created(c: Category, f: ProductForm, mainImage: Option<string>, uploads: seq<string>): (p: Product)
    ensures p.color.None?
    ensures p.price == PricingFor(c, f).price && p.availableSizes == PricingFor(c, f).sizes
      && p.prices == PricingFor(c, f).prices
    ensures p.name == f.name && p.status == f.status && p.categoryId == f.categoryId && p.text == f.text
    ensures p.image == mainImage && p.images == uploads
  {
    var pr := PricingFor(c, f);
    Product(f.name, pr.price, pr.sizes, pr.prices, f.categoryId, f.status, None, f.text, mainImage, uploads)
  }

  /** An apparel product is never charged below zero: without a client or size price it costs 0. */
  lemma ApparelNeverChargedNegative(c: Category, f: ProductForm, mainImage: Option<string>, uploads: seq<string>,
                                    line: Orders.OrderLine)
    requires IsApparel(c)
    ensures Orders.RegularUnitPrice(Created(c, f, mainImage, uploads), line) >= 0
  {
  }

  /** A product outside apparel has no size table: its unit price is a positive client price or its own price. */
  lemma OtherProductsIgnoreSizes(c: Category, f: ProductForm, mainImage: Option<string>, uploads: seq<string>,
                                 line: Orders.OrderLine)
    requires !IsApparel(c)
    ensures !Orders.SizeTableApplies(Created(c, f, mainImage, uploads))
    ensures Orders.RegularUnitPrice(Created(c, f, mainImage, uploads), line)
      == if Orders.PositivePrice(line.price) then line.price.value else if f.price.Some? then f.price.value else 0
  {
    var p := Created(c, f, mainImage, uploads);
    assert Orders.ParseJsonSafe(p.availableSizes) == [];
  }

  /** `store`. */
  method Store(db: Database, f: ProductForm, mainImage: Option<string>, uploads: seq<string>) returns (id: int)
    requires db.Valid() && ProductFormValid(f) && f.categoryId in db.categories
    modifies db`products, db`nextId
    ensures db.Valid()
    ensures id == old(db.nextId) && id !in old(db.products)
    ensures db.products == old(db.products)[id := Created(db.categories[f.categoryId], f, mainImage, uploads)]
    ensures db.nextId == old(db.nextId) + 1
  {
    id := db.nextId;
    db.products := db.products[id := Created(db.categories[f.categoryId], f, mainImage, uploads)];
    db.nextId := db.nextId + 1;
  }

  /** The most images a product's gallery may hold. */
  const GalleryLimit: int := 5

  /** An existing gallery image whose file is deleted: not retained, and not a falsy string. */
  function Discarded(retain: seq<string>): string -> bool
  {
    (url: string) => url !in retain && Truthy(url)
  }

  /**
   * The gallery step of `update`. Images that are not retained are deleted
   * first, whatever follows; then the retained images followed by the
   * uploads form the new gallery, unless there are more uploads than free
   * slots (None, the 422 reply).
   */
  method RebuildGallery(existing: seq<string>, retain: seq<string>, uploads: seq<string>)
    returns (deleted: seq<string>, gallery: Option<seq<string>>)
    ensures deleted == Filter(existing, Discarded(retain))
    ensures gallery.None? <==> |uploads| > GalleryLimit - |retain|
    ensures gallery.Some? ==> gallery.value == retain + uploads && |gallery.value| <= GalleryLimit
    ensures |retain| > GalleryLimit ==> gallery.None?
  {
    deleted := [];
    var i := 0;
    while i < |existing|
      invariant 0 <= i <= |existing|
      invariant deleted == Filter(existing[..i], Discarded(retain))
    {
      assert existing[..i + 1] == existing[..i] + [existing[i]];
      FilterAppend(existing[..i], [existing[i]], Discarded(retain));
      if existing[i] !in retain && Truthy(existing[i]) {
        deleted := deleted + [existing[i]];
      }
      i := i + 1;
    }
    assert existing[..i] == existing;
    var list := retain;
    var allowedRemaining := GalleryLimit - |list|;
    if |uploads| > allowedRemaining {
      return deleted, None;
    }
    var j := 0;
    while j < |uploads|
      invariant 0 <= j <= |uploads|
      invariant list == retain + uploads[..j]
    {
      assert uploads[..j + 1] == uploads[..j] + [uploads[j]];
      list := list + [uploads[j]];
      j := j + 1;
    }
    assert uploads[..j] == uploads;
    gallery := Some(list);
  }

  /** The main image after `update`: a new upload, else a non-blank URL, else the current one. */
  function MainImage(current: Option<string>, upload: Option<string>, url: Option<string>): (r: Option<string>)
    ensures upload.Some? ==> r == upload
    ensures upload.None? && url.Some? && !Blank(url.value) ==> r == url
    ensures upload.None? && (url.None? || Blank(url.value)) ==> r == current
  {
    if upload.Some? then upload
    else if url.Some? && !Blank(url.value) then url
    else current
  }

  /** The product after an accepted `update`; the colour is never touched. */
  function Edited(p: Product, c: Category, f: ProductForm, image: Option<string>, gallery: seq<string>): (r: Product)
    ensures r.color == p.color
    ensures r.price == PricingFor(c, f).price && r.availableSizes == PricingFor(c, f).sizes
      && r.prices == PricingFor(c, f).prices
    ensures r.name == f.name && r.status == f.status && r.categoryId == f.categoryId && r.text == f.text
    ensures r.image == image && r.images == gallery
  {
    var pr := PricingFor(c, f);
    p.(name := f.name, price := pr.price, availableSizes := pr.sizes, prices := pr.prices,
       categoryId := f.categoryId, status := f.status, text := f.text, image := image, images := gallery)
  }

  /** Write one product row back; the key set, and with it the invariant, is kept. */
  method SaveProduct(db: Database, id: int, p: Product)
    requires db.Valid() && id in db.products
    modifies db`products
    ensures db.Valid()
    ensures db.products == old(db.products)[id := p]
  {
    db.products := db.products[id := p];
  }

  /** A wishlist row of product `id`. */
  function WishOf(id: int): WishRow -> bool
  {
    (w: WishRow) => w.productId == id
  }

  /** A cart row of product `id`. */
  function CartOf(id: int): CartRow -> bool
  {
    (c: CartRow) => c.productId == Some(id)
  }

  /**
   * `removeProductFromUserCollections`: delete every wishlist and cart row
   * of the product, keep every other row in order, report the counts.
   */
  method RemoveFromCollections(db: Database, productId: int) returns (wishlistCount: nat, cartCount: nat)
    modifies db`wishlists, db`carts
    ensures old(db.Valid()) ==> db.Valid()
    ensures db.wishlists == Filter(old(db.wishlists), Not(WishOf(productId)))
    ensures db.carts == Filter(old(db.carts), Not(CartOf(productId)))
    ensures wishlistCount == |Filter(old(db.wishlists), WishOf(productId))|
    ensures cartCount == |Filter(old(db.carts), CartOf(productId))|
  {
    var wishes := DeleteWhere(db.wishlists, WishOf(productId));
    var carts := DeleteWhere(db.carts, CartOf(productId));
    db.wishlists, wishlistCount := wishes.0, wishes.1;
    db.carts, cartCount := carts.0, carts.1;
  }

  /** After a purge no collection holds the product, and every row of another product is still there. */
  lemma PurgeIsExact(wishes: seq<WishRow>, carts: seq<CartRow>, productId: int)
    ensures Filter(Filter(wishes, Not(WishOf(productId))), WishOf(productId)) == []
    ensures Filter(Filter(carts, Not(CartOf(productId))), CartOf(productId)) == []
    ensures forall w :: w in wishes && w.productId != productId ==> w in Filter(wishes, Not(WishOf(productId)))
    ensures forall c :: c in carts && c.productId != Some(productId) ==> c in Filter(carts, Not(CartOf(productId)))
  {
    FilterNone(wishes, Not(WishOf(productId)), WishOf(productId));
    FilterNone(carts, Not(CartOf(productId)), CartOf(productId));
  }

  datatype UpdateOutcome =
    | ProductMissing                        // 404
    | TooManyImages(deleted: seq<string>)   // 422, after the discarded files were deleted
    | ProductSaved(deleted: seq<string>)

  /**
   * `update`. Only an `active` to `inactive` change of status purges the
   * product from wishlists and carts.
   */
  method Update(db: Database, id: int, f: ProductForm, mainUpload: Option<string>, mainImageUrl: Option<string>,
                retain: seq<string>, uploads: seq<string>) returns (r: UpdateOutcome)
    requires db.Valid() && ProductFormValid(f) && f.categoryId in db.categories
    modifies db`products, db`wishlists, db`carts
    ensures db.Valid()
    ensures r.ProductMissing? <==> id !in old(db.products)
    ensures id in old(db.products) ==> (r.ProductSaved? <==> |uploads| <= GalleryLimit - |retain|)
    ensures !r.ProductMissing? ==> r.deleted == Filter(old(db.products)[id].images, Discarded(retain))
    ensures !r.ProductSaved? ==> (db.products == old(db.products) && db.wishlists == old(db.wishlists)
      && db.carts == old(db.carts))
    ensures r.ProductSaved? ==> var p := old(db.products)[id];
      && db.products == old(db.products)[id := Edited(p, db.categories[f.categoryId], f,
                                                     MainImage(p.image, mainUpload, mainImageUrl), retain + uploads)]
      && |db.products[id].images| <= GalleryLimit
    ensures r.ProductSaved? && old(db.products)[id].status == "active" && f.status == "inactive" ==>
      (db.wishlists == Filter(old(db.wishlists), Not(WishOf(id)))
       && db.carts == Filter(old(db.carts), Not(CartOf(id))))
    ensures r.ProductSaved? && !(old(db.products)[id].status == "active" && f.status == "inactive") ==>
      (db.wishlists == old(db.wishlists) && db.carts == old(db.carts))
  {
    if id !in db.products {
      return ProductMissing;
    }
    var product := db.products[id];
    var category := db.categories[f.categoryId];
    var oldStatus := product.status;
    var image := MainImage(product.image, mainUpload, mainImageUrl);
    var deleted, gallery := RebuildGallery(product.images, retain, uploads);
    if gallery.None? {
      return TooManyImages(deleted);
    }
    SaveProduct(db, id, Edited(product, category, f, image, gallery.value));
    if oldStatus == "active" && f.status == "inactive" {
      var _, _ := RemoveFromCollections(db, id);
    }
    r := ProductSaved(deleted);
  }

  /** `deactivateProduct`; false is the 404 of a missing product. */
  method DeactivateProduct(db: Database, productId: int) returns (found: bool)
    requires db.Valid()
    modifies db`wishlists, db`carts
    ensures db.Valid()
    ensures found <==> productId in db.products
    ensures found ==> (db.wishlists == Filter(old(db.wishlists), Not(WishOf(productId)))
      && db.carts == Filter(old(db.carts), Not(CartOf(productId))))
    ensures !found ==> db.wishlists == old(db.wishlists) && db.carts == old(db.carts)
  {
    if productId !in db.products {
      return false;
    }
    var _, _ := RemoveFromCollections(db, productId);
    found := true;
  }

  /** The products of `getProductsByStatus`; None is the 400 of a status other than active or inactive. */
  function ProductsByStatus(products: map<int, Product>, status: string): (r: Option<map<int, Product>>)
    ensures r.None? <==> status != "active" && status != "inactive"
    ensures r.Some? ==> forall id :: id in r.value <==> id in products && products[id].status == status
    ensures r.Some? ==> forall id :: id in r.value ==> r.value[id] == products[id]
  {
    if status != "active" && status != "inactive" then None
    else Some(map id | id in products && products[id].status == status :: products[id])
  }

  /** The two listings never share a product, and together hold every product with one of the two statuses. */
  lemma ListingsPartition(products: map<int, Product>)
    ensures ProductsByStatus(products, "active").value.Keys !! ProductsByStatus(products, "inactive").value.Keys
    ensures forall id :: id in products && products[id].status in {"active", "inactive"} <==>
      id in ProductsByStatus(products, "active").value || id in ProductsByStatus(products, "inactive").value
  {
  }

  /** The products table after `whereIn('id', ids)->update(['status' => status])`. */
  function WithStatus(products: map<int, Product>, ids: seq<int>, status: string): (r: map<int, Product>)
    ensures r.Keys == products.Keys
    ensures forall id :: id in r && id in ids ==> r[id] == products[id].(status := status)
    ensures forall id :: id in r && id !in ids ==> r[id] == products[id]
  {
    map id | id in products :: if id in ids then products[id].(status := status) else products[id]
  }

  method SetStatuses(db: Database, ids: seq<int>, status: string)
    requires db.Valid()
    modifies db`products
    ensures db.Valid()
    ensures db.products == WithStatus(old(db.products), ids, status)
  {
    db.products := WithStatus(db.products, ids, status);
  }

  /** A wishlist row of none of the products `ids`. */
  function WishOfNone(ids: seq<int>): WishRow -> bool
  {
    (w: WishRow) => w.productId !in ids
  }

  /** A cart row of none of the products `ids`. */
  function CartOfNone(ids: seq<int>): CartRow -> bool
  {
    (c: CartRow) => c.productId.None? || c.productId.value !in ids
  }

  /** The wishlist rows left after purging the first `n` of the products `ids`, one at a time. */
  ghost function WishesAfter(wishes: seq<WishRow>, ids: seq<int>, n: nat): seq<WishRow>
    requires n <= |ids|
  {
    if n == 0 then wishes else Filter(WishesAfter(wishes, ids, n - 1), Not(WishOf(ids[n - 1])))
  }

  /** The cart rows left after purging the first `n` of the products `ids`, one at a time. */
  ghost function CartsAfter(carts: seq<CartRow>, ids: seq<int>, n: nat): seq<CartRow>
    requires n <= |ids|
  {
    if n == 0 then carts else Filter(CartsAfter(carts, ids, n - 1), Not(CartOf(ids[n - 1])))
  }

  /** Purging the products one at a time removes exactly the rows of any of them. */
  lemma {:induction false} PurgedInTurn(wishes: seq<WishRow>, carts: seq<CartRow>, ids: seq<int>, n: nat)
    requires n <= |ids|
    ensures WishesAfter(wishes, ids, n) == Filter(wishes, WishOfNone(ids[..n]))
    ensures CartsAfter(carts, ids, n) == Filter(carts, CartOfNone(ids[..n]))
  {
    if n == 0 {
      FilterAll(wishes, WishOfNone([]));
      FilterAll(carts, CartOfNone([]));
    } else {
      assert ids[..n] == ids[..n - 1] + [ids[n - 1]];
      PurgedInTurn(wishes, carts, ids, n - 1);
      FilterTwice(wishes, WishOfNone(ids[..n - 1]), Not(WishOf(ids[n - 1])), WishOfNone(ids[..n]));
      FilterTwice(carts, CartOfNone(ids[..n - 1]), Not(CartOf(ids[n - 1])), CartOfNone(ids[..n]));
    }
  }

  /** One turn of the purge loop: the first `i` products purged, and then the next. */
  method PurgeNext(db: Database, ghost wishes: seq<WishRow>, ghost carts: seq<CartRow>, ids: seq<int>, i: nat)
    requires i < |ids|
    requires db.wishlists == WishesAfter(wishes, ids, i) && db.carts == CartsAfter(carts, ids, i)
    modifies db`wishlists, db`carts
    ensures db.wishlists == WishesAfter(wishes, ids, i + 1) && db.carts == CartsAfter(carts, ids, i + 1)
  {
    var _, _ := RemoveFromCollections(db, ids[i]);
  }

  /** The purge loop of `bulkUpdateStatus`: each listed product in turn. */
  method PurgeAll(db: Database, ids: seq<int>)
    modifies db`wishlists, db`carts
    ensures db.wishlists == Filter(old(db.wishlists), WishOfNone(ids))
    ensures db.carts == Filter(old(db.carts), CartOfNone(ids))
  {
    ghost var wishes, carts := db.wishlists, db.carts;
    var i := 0;
    while i < |ids|
      invariant 0 <= i <= |ids|
      invariant db.wishlists == WishesAfter(wishes, ids, i) && db.carts == CartsAfter(carts, ids, i)
    {
      PurgeNext(db, wishes, carts, ids, i);
      i := i + 1;
    }
    PurgedInTurn(wishes, carts, ids, |ids|);
    assert ids[..|ids|] == ids;
  }

  /**
   * `bulkUpdateStatus`: every listed product gets the new status; when it
   * is `inactive` each of them is purged from wishlists and carts, one
   * after the other, in the same transaction.
   */
  method BulkUpdateStatus(db: Database, ids: seq<int>, status: string) returns (updatedCount: nat)
    requires db.Valid() && (status == "active" || status == "inactive")
    requires |ids| >= 1 && forall i :: 0 <= i < |ids| ==> ids[i] in db.products
    modifies db`products, db`wishlists, db`carts
    ensures db.Valid()
    ensures updatedCount == |ids|
    ensures db.products == WithStatus(old(db.products), ids, status)
    ensures status == "inactive" ==> (db.wishlists == Filter(old(db.wishlists), WishOfNone(ids))
      && db.carts == Filter(old(db.carts), CartOfNone(ids)))
    ensures status == "active" ==> db.wishlists == old(db.wishlists) && db.carts == old(db.carts)
  {
    SetStatuses(db, ids, status);
    if status == "inactive" {
      PurgeAll(db, ids);
    }
    updatedCount := |ids|;
  }

  /** After a bulk deactivation every listed product is in the inactive listing and no collection holds it. */
  lemma BulkDeactivationIsComplete(products: map<int, Product>, wishes: seq<WishRow>, carts: seq<CartRow>,
                                   ids: seq<int>)
    requires forall i :: 0 <= i < |ids| ==> ids[i] in products
    ensures forall i :: 0 <= i < |ids| ==> ids[i] in ProductsByStatus(WithStatus(products, ids, "inactive"), "inactive").value
    ensures forall w :: w in Filter(wishes, WishOfNone(ids)) ==> w.productId !in ids
    ensures forall c :: c in Filter(carts, CartOfNone(ids)) ==> c.productId.None? || c.productId.value !in ids
  {
  }
}

/**
 * The admin dashboard's raw-material stock: creating and editing a
 * material within its validation bounds, and restocking, which adds the
 * delivered amount, takes off the used amount and clamps at zero.
 */
module Materials {
  import opened Shared
  import opened Schema

  /** The create form; the image is the stored path of an upload. */
  datatype MaterialForm = MaterialForm(name: string, kind: string, quantity: int, cost: Money, image: Option<string>)

  predicate FormValid(f: MaterialForm)
  {
    && !Blank(f.name) && |f.name| <= 255
    && !Blank(f.kind) && |f.kind| <= 255
    && f.quantity >= 0 && f.cost >= 0
  }

  /** The edit form: each field is optional, and any field sent obeys the create rules. */
  datatype MaterialPatch = MaterialPatch(
    name: Option<string>, kind: Option<string>, quantity: Option<int>, cost: Option<Money>, image: Option<string>)

  predicate PatchValid(f: MaterialPatch)
  {
    && (f.name.Some? ==> !Blank(f.name.value) && |f.name.value| <= 255)
    && (f.kind.Some? ==> !Blank(f.kind.value) && |f.kind.value| <= 255)
    && (f.quantity.Some? ==> f.quantity.value >= 0)
    && (f.cost.Some? ==> f.cost.value >= 0)
  }

  /** The material after `update`: each field sent replaces the stored one; the others stay. */
  function Patched(m: Material, f: MaterialPatch): (r: Material)
    ensures f.quantity.Some? ==> r.quantity == f.quantity.value
    ensures f.quantity.None? ==> r.quantity == m.quantity
    ensures f.cost.Some? ==> r.cost == f.cost.value
    ensures f.cost.None? ==> r.cost == m.cost
    ensures r.name == (if f.name.Some? then f.name.value else m.name)
    ensures r.kind == (if f.kind.Some? then f.kind.value else m.kind)
    ensures r.image == (if f.image.Some? then f.image else m.image)
  {
    Material(
      if f.name.Some? then f.name.value else m.name,
      if f.kind.Some? then f.kind.value else m.kind,
      if f.quantity.Some? then f.quantity.value else m.quantity,
      if f.cost.Some? then f.cost.value else m.cost,
      if f.image.Some? then f.image else m.image)
  }

  /** A valid edit of a material with stock keeps its stock non-negative. */
  lemma PatchKeepsStock(m: Material, f: MaterialPatch)
    requires m.quantity >= 0 && PatchValid(f)
    ensures Patched(m, f).quantity >= 0
  {
  }

  /** `store`. */
  method Store(db: Database, f: MaterialForm) returns (id: int)
    requires db.Valid() && FormValid(f)
    modifies db`materials, db`nextId
    ensures db.Valid()
    ensures id == old(db.nextId) && id !in old(db.materials)
    ensures db.materials == old(db.materials)[id := Material(f.name, f.kind, f.quantity, f.cost, f.image)]
    ensures db.nextId == old(db.nextId) + 1
  {
    id := db.nextId;
    db.materials := db.materials[id := Material(f.name, f.kind, f.quantity, f.cost, f.image)];
    db.nextId := db.nextId + 1;
  }

  /** `update`; false is the 404 of a missing material. */
  method Update(db: Database, id: int, f: MaterialPatch) returns (found: bool)
    requires db.Valid() && PatchValid(f)
    modifies db`materials
    ensures db.Valid()
    ensures found <==> id in old(db.materials)
    ensures found ==> db.materials == old(db.materials)[id := Patched(old(db.materials)[id], f)]
    ensures !found ==> db.materials == old(db.materials)
  {
    if id !in db.materials {
      return false;
    }
    PatchKeepsStock(db.materials[id], f);
    db.materials := db.materials[id := Patched(db.materials[id], f)];
    found := true;
  }

  /** The stock after a restock: delivered added, used taken off, never below zero. */
  function Restocked(quantity: int, restock: int, used: int): (r: int)
    ensures r >= 0
    ensures r == quantity + restock - used || (r == 0 && quantity + restock - used < 0)
  {
    Max0(quantity + restock - used)
  }

  /** A restock of nothing leaves a non-negative stock as it was. */
  lemma EmptyRestockChangesNothing(quantity: int)
    requires quantity >= 0
    ensures Restocked(quantity, 0, 0) == quantity
  {
  }

  /** More delivered never means less stock, more used never means more. */
  lemma RestockIsMonotone(quantity: int, restock: int, restock': int, used: int, used': int)
    requires restock <= restock' && used' <= used
    ensures Restocked(quantity, restock, used) <= Restocked(quantity, restock', used')
  {
  }

  /**
   * `restock`: absent amounts count as 0; the stored quantity is updated
   * in three steps and saved. False is the 404 of a missing material.
   */
  method Restock(db: Database, id: int, restock: Option<int>, used: Option<int>) returns (found: bool)
    requires db.Valid()
    requires restock.Some? ==> restock.value >= 0
    requires used.Some? ==> used.value >= 0
    modifies db`materials
    ensures db.Valid()
    ensures found <==> id in old(db.materials)
    ensures !found ==> db.materials == old(db.materials)
    ensures found ==> var m := old(db.materials)[id];
      db.materials == old(db.materials)[id := m.(quantity := Restocked(m.quantity,
        if restock.Some? then restock.value else 0, if used.Some? then used.value else 0))]
  {
    if id !in db.materials {
      return false;
    }
    var delivered := if restock.Some? then restock.value else 0;
    var consumed := if used.Some? then used.value else 0;
    var m := db.materials[id];
    var quantity := m.quantity;
    quantity := quantity + delivered;
    quantity := quantity - consumed;
    if quantity < 0 {
      quantity := 0;
    }
    db.materials := db.materials[id := m.(quantity := quantity)];
    found := true;
  }
}

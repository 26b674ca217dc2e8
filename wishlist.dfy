/**
 * A customer's wishlist: listing it, toggling a product in or out, and
 * removing a product. Rows carry no data beyond the (user, product) pair.
 */
module Wishlists {
  import opened Shared
  import opened Schema

  /** The rows of user `u`. */
  function OfUser(u: int): WishRow -> bool
  {
    (w: WishRow) => w.userId == u
  }

  /** The row of user `u` for product `p`. */
  function IsRow(u: int, p: int): WishRow -> bool
  {
    (w: WishRow) => w.userId == u && w.productId == p
  }

  /** `index`: the caller's rows, in table order. */
  function Index(wishes: seq<WishRow>, u: int): (r: seq<WishRow>)
    ensures forall w :: w in r <==> w in wishes && w.userId == u
  {
    Filter(wishes, OfUser(u))
  }

  /** The table without its `k`-th row (`$wishlist->delete()`). */
  function Without(wishes: seq<WishRow>, k: nat): (r: seq<WishRow>)
    requires k < |wishes|
    ensures |r| == |wishes| - 1
    ensures multiset(r) == multiset(wishes) - multiset{wishes[k]}
  {
    assert wishes == wishes[..k] + [wishes[k]] + wishes[k + 1..];
    wishes[..k] + wishes[k + 1..]
  }

  /** The table after `toggle`: the first matching row deleted, or a new row appended. */
  function Toggled(wishes: seq<WishRow>, u: int, p: int): (r: seq<WishRow>)
    ensures WishRow(u, p) in wishes ==> multiset(r) == multiset(wishes) - multiset{WishRow(u, p)}
    ensures WishRow(u, p) !in wishes ==> r == wishes + [WishRow(u, p)]
  {
    RowLookup(wishes, u, p);
    match FindIndex(wishes, IsRow(u, p))
    case Some(k) => Without(wishes, k)
    case None => wishes + [WishRow(u, p)]
  }

  /** At most one row per (user, product). */
  ghost predicate NoDuplicates(wishes: seq<WishRow>)
  {
    forall i, j :: 0 <= i < j < |wishes| ==> wishes[i] != wishes[j]
  }

  /** The first matching row is the row itself: rows hold nothing but the pair. */
  lemma RowLookup(wishes: seq<WishRow>, u: int, p: int)
    ensures FindIndex(wishes, IsRow(u, p)).None? <==> WishRow(u, p) !in wishes
    ensures FindIndex(wishes, IsRow(u, p)).Some? ==> wishes[FindIndex(wishes, IsRow(u, p)).value] == WishRow(u, p)
  {
  }

  /** Deleting row `k` of a table without duplicates removes exactly that pair and adds none. */
  lemma WithoutRow(wishes: seq<WishRow>, k: nat)
    requires k < |wishes| && NoDuplicates(wishes)
    ensures forall w :: w in Without(wishes, k) <==> w in wishes && w != wishes[k]
    ensures NoDuplicates(Without(wishes, k))
  {
    var r := Without(wishes, k);
    assert forall i :: 0 <= i < |r| ==> r[i] == wishes[if i < k then i else i + 1];
    forall w
      ensures w in r <==> w in wishes && w != wishes[k]
    {
      if w in wishes && w != wishes[k] {
        var j :| 0 <= j < |wishes| && wishes[j] == w;
        assert r[if j < k then j else j - 1] == w;
      }
    }
  }

  /** Appending an absent pair keeps a table free of duplicates. */
  lemma AppendRow(wishes: seq<WishRow>, x: WishRow)
    requires NoDuplicates(wishes) && x !in wishes
    ensures NoDuplicates(wishes + [x])
  {
    var r := wishes + [x];
    forall i, j | 0 <= i < j < |r|
      ensures r[i] != r[j]
    {
      assert r[i] == wishes[i];
    }
  }

  /** Without duplicates, a toggle removes the row when present and adds it when absent, and keeps the table free of duplicates. */
  lemma ToggleFlipsMembership(wishes: seq<WishRow>, u: int, p: int)
    requires NoDuplicates(wishes)
    ensures WishRow(u, p) in Toggled(wishes, u, p) <==> WishRow(u, p) !in wishes
    ensures NoDuplicates(Toggled(wishes, u, p))
    ensures forall w :: w != WishRow(u, p) ==> (w in Toggled(wishes, u, p) <==> w in wishes)
  {
    RowLookup(wishes, u, p);
    match FindIndex(wishes, IsRow(u, p))
    case Some(k) =>
      WithoutRow(wishes, k);
    case None =>
      AppendRow(wishes, WishRow(u, p));
  }

  /**
   * Toggling twice restores the wishlist's rows when it had no duplicates;
   * when the row was absent it restores the table exactly.
   */
  lemma ToggleTwiceRestores(wishes: seq<WishRow>, u: int, p: int)
    requires NoDuplicates(wishes)
    ensures multiset(Toggled(Toggled(wishes, u, p), u, p)) == multiset(wishes)
    ensures WishRow(u, p) !in wishes ==> Toggled(Toggled(wishes, u, p), u, p) == wishes
  {
    var once := Toggled(wishes, u, p);
    ToggleFlipsMembership(wishes, u, p);
    RowLookup(wishes, u, p);
    RowLookup(once, u, p);
    if WishRow(u, p) in wishes {
      var k := FindIndex(wishes, IsRow(u, p)).value;
      assert Toggled(once, u, p) == once + [WishRow(u, p)];
      assert multiset(once) == multiset(wishes) - multiset{WishRow(u, p)};
    } else {
      assert once == wishes + [WishRow(u, p)];
      var k' := FindIndex(once, IsRow(u, p)).value;
      assert once[k'] == WishRow(u, p);
      assert k' == |wishes|;
      assert once[..|wishes|] == wishes;
    }
  }

  /** `toggle` on the stored table; true when the row was added. */
  method Toggle(db: Database, u: int, p: int) returns (added: bool)
    requires db.Valid() && p in db.products
    modifies db`wishlists
    ensures db.Valid()
    ensures db.wishlists == Toggled(old(db.wishlists), u, p)
    ensures added <==> FindIndex(old(db.wishlists), IsRow(u, p)).None?
  {
    var k := FindIndex(db.wishlists, IsRow(u, p));
    if k.Some? {
      db.wishlists := db.wishlists[..k.value] + db.wishlists[k.value + 1..];
      added := false;
    } else {
      db.wishlists := db.wishlists + [WishRow(u, p)];
      added := true;
    }
  }

  /** `remove`; false is the 404 of a missing row, and then nothing changes. */
  method Remove(db: Database, u: int, p: int) returns (found: bool)
    requires db.Valid()
    modifies db`wishlists
    ensures db.Valid()
    ensures found <==> WishRow(u, p) in old(db.wishlists)
    ensures !found ==> db.wishlists == old(db.wishlists)
    ensures found ==> multiset(db.wishlists) == multiset(old(db.wishlists)) - multiset{WishRow(u, p)}
  {
    var k := FindIndex(db.wishlists, IsRow(u, p));
    if k.None? {
      assert forall i :: 0 <= i < |db.wishlists| ==> !IsRow(u, p)(db.wishlists[i]);
      return false;
    }
    assert db.wishlists[k.value] == WishRow(u, p);
    db.wishlists := Without(db.wishlists, k.value);
    found := true;
  }
}

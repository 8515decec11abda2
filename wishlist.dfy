/**
 * The wishlist store: an ordered list of saved products, keyed by product id.
 * As with the cart, each intent replaces the list with one computed from the
 * previous list; `WishlistStore` holds the current list.
 */
module Wishlist {
  import opened Wrappers

  /** One saved product; the price is in fils. */
  datatype WishlistItem = WishlistItem(id: int, name: string, price: int, image: string, category: string)

  /** No two entries share a product id. */
  predicate UniqueIds(items: seq<WishlistItem>) {
    forall i, j :: 0 <= i < j < |items| ==> items[i].id != items[j].id
  }

  /** findIndex on the product id: the first position holding `id`, or -1. */
  function FindId(items: seq<WishlistItem>, id: int): (r: int)
    ensures -1 <= r < |items|
    ensures r >= 0 ==> items[r].id == id && forall j :: 0 <= j < r ==> items[j].id != id
    ensures r == -1 ==> forall j :: 0 <= j < |items| ==> items[j].id != id
  {
    if |items| == 0 then -1
    else if items[0].id == id then 0
    else
      var k := FindId(items[1..], id);
      assert forall j :: 1 <= j < |items| ==> items[j] == items[1..][j - 1];
      if k < 0 then -1 else k + 1
  }

  /** isInWishlist: `some` entry has this product id. */
  function IsInWishlist(items: seq<WishlistItem>, id: int): (r: bool)
    ensures r <==> exists j :: 0 <= j < |items| && items[j].id == id
  {
    if |items| == 0 then false
    else
      assert forall j :: 1 <= j < |items| ==> items[j] == items[1..][j - 1];
      items[0].id == id || IsInWishlist(items[1..], id)
  }

  /** itemCount: how many entries the wishlist holds. */
  function ItemCount(items: seq<WishlistItem>): (r: nat)
    ensures r == 0 <==> items == []
    ensures forall id :: IsInWishlist(items, id) ==> r > 0
  {
    |items|
  }

  /** The list addToWishlist computes: unchanged when the id is already saved,
      otherwise the new entry appended at the end. */
  function WithAdded(items: seq<WishlistItem>, item: WishlistItem): (r: seq<WishlistItem>)
    ensures IsInWishlist(r, item.id)
    ensures IsInWishlist(items, item.id) ==> r == items
    ensures !IsInWishlist(items, item.id) ==> |r| == |items| + 1 && r[..|items|] == items && r[|items|] == item
  {
    if FindId(items, item.id) >= 0 then
      items
    else
      assert (items + [item])[|items|] == item;
      items + [item]
  }

  /** The list removeFromWishlist computes: every entry whose id differs, in order. */
  function WithoutId(items: seq<WishlistItem>, id: int): (r: seq<WishlistItem>)
    ensures |r| <= |items|
    ensures forall k :: 0 <= k < |r| ==> r[k].id != id
  {
    if |items| == 0 then []
    else
      var rest := WithoutId(items[1..], id);
      if items[0].id == id then rest else [items[0]] + rest
  }

  /** Adding the same product twice is the same as adding it once. */
  lemma {:induction false} WithAddedIdempotent(items: seq<WishlistItem>, item: WishlistItem)
    ensures WithAdded(WithAdded(items, item), item) == WithAdded(items, item)
  {
    assert IsInWishlist(WithAdded(items, item), item.id);
  }

  lemma {:induction false} WithAddedKeepsIdsUnique(items: seq<WishlistItem>, item: WishlistItem)
    requires UniqueIds(items)
    ensures UniqueIds(WithAdded(items, item))
  {
    var r := WithAdded(items, item);
    if !IsInWishlist(items, item.id) {
      forall i, j | 0 <= i < j < |r| ensures r[i].id != r[j].id {
        assert r[i] == items[i];
        if j < |items| {
          assert r[j] == items[j];
        }
      }
    }
  }

  /** itemCount grows by one exactly when the product was not yet saved. */
  lemma {:induction false} ItemCountAfterAdd(items: seq<WishlistItem>, item: WishlistItem)
    ensures ItemCount(WithAdded(items, item)) == ItemCount(items) + if IsInWishlist(items, item.id) then 0 else 1
  {
  }

  /** removeFromWishlist keeps exactly the entries with another id. */
  lemma {:induction false} WithoutIdMembers(items: seq<WishlistItem>, id: int, x: WishlistItem)
    ensures x in WithoutId(items, id) <==> x in items && x.id != id
  {
    if |items| > 0 {
      WithoutIdMembers(items[1..], id, x);
      assert items == [items[0]] + items[1..];
    }
  }

  /** Removing an id that is not saved changes nothing. */
  lemma {:induction false} WithoutAbsentId(items: seq<WishlistItem>, id: int)
    requires !IsInWishlist(items, id)
    ensures WithoutId(items, id) == items
  {
    if |items| > 0 {
      assert !IsInWishlist(items[1..], id) by {
        assert forall j :: 0 <= j < |items| - 1 ==> items[1..][j] == items[j + 1];
      }
      WithoutAbsentId(items[1..], id);
      assert items == [items[0]] + items[1..];
    }
  }

  /** removeFromWishlist distributes over concatenation. */
  lemma {:induction false} WithoutIdAppend(a: seq<WishlistItem>, b: seq<WishlistItem>, id: int)
    ensures WithoutId(a + b, id) == WithoutId(a, id) + WithoutId(b, id)
  {
    if |a| == 0 {
      assert a + b == b;
    } else {
      var c := a + b;
      assert c[0] == a[0] && c[1..] == a[1..] + b;
      WithoutIdAppend(a[1..], b, id);
      if a[0].id != id {
        calc {
          WithoutId(c, id);
          [a[0]] + WithoutId(a[1..] + b, id);
          [a[0]] + (WithoutId(a[1..], id) + WithoutId(b, id));
          ([a[0]] + WithoutId(a[1..], id)) + WithoutId(b, id);
        }
      }
    }
  }

  /** No entry before the first position holding an id has that id. */
  lemma {:induction false} AbsentBeforeFirst(items: seq<WishlistItem>, id: int)
    requires IsInWishlist(items, id)
    ensures !IsInWishlist(items[..FindId(items, id)], id)
  {
    var i := FindId(items, id);
    assert forall j :: 0 <= j < i ==> items[..i][j] == items[j];
  }

  /** With unique ids, no entry after position i has the id found at i. */
  lemma {:induction false} AbsentAfterUnique(items: seq<WishlistItem>, i: int)
    requires UniqueIds(items) && 0 <= i < |items|
    ensures !IsInWishlist(items[i + 1..], items[i].id)
  {
    var suffix := items[i + 1..];
    forall j | 0 <= j < |suffix| ensures suffix[j].id != items[i].id {
      assert suffix[j] == items[i + 1 + j];
    }
  }

  /** Removing the id of the only entry that has it leaves the entries around it. */
  lemma {:induction false} WithoutSingleOccurrence(
    prefix: seq<WishlistItem>, x: WishlistItem, suffix: seq<WishlistItem>, id: int)
    requires x.id == id && !IsInWishlist(prefix, id) && !IsInWishlist(suffix, id)
    ensures WithoutId(prefix + [x] + suffix, id) == prefix + suffix
  {
    WithoutAbsentId(prefix, id);
    WithoutAbsentId(suffix, id);
    assert WithoutId([x], id) == [] by {
      assert [x][1..] == [];
    }
    WithoutIdAppend(prefix + [x], suffix, id);
    WithoutIdAppend(prefix, [x], id);
    assert prefix + [] == prefix;
  }

  /** With unique ids, removeFromWishlist deletes exactly the one entry and keeps the
      others in their original order. */
  lemma {:induction false} WithoutUniqueId(items: seq<WishlistItem>, id: int)
    requires UniqueIds(items)
    requires IsInWishlist(items, id)
    ensures var i := FindId(items, id);
      WithoutId(items, id) == items[..i] + items[i + 1..]
  {
    var i := FindId(items, id);
    AbsentBeforeFirst(items, id);
    AbsentAfterUnique(items, i);
    assert items == items[..i] + [items[i]] + items[i + 1..];
    WithoutSingleOccurrence(items[..i], items[i], items[i + 1..], id);
  }

  lemma {:induction false} WithoutIdKeepsIdsUnique(items: seq<WishlistItem>, id: int)
    requires UniqueIds(items)
    ensures UniqueIds(WithoutId(items, id))
  {
    if IsInWishlist(items, id) {
      var i := FindId(items, id);
      WithoutUniqueId(items, id);
      var r := items[..i] + items[i + 1..];
      forall a, b | 0 <= a < b < |r| ensures r[a].id != r[b].id {
        var a' := if a < i then a else a + 1;
        var b' := if b < i then b else b + 1;
        assert r[a] == items[a'] && r[b] == items[b'];
      }
    } else {
      WithoutAbsentId(items, id);
    }
  }

  /** The wishlist store: the current list of saved products. */
  class WishlistStore {
    var items: seq<WishlistItem>

    /** The store's invariant: each product is saved at most once. */
    ghost predicate Valid()
      reads this
    {
      UniqueIds(items)
    }

    /** The wishlist restored from storage; a missing or unreadable entry leaves it empty. */
    constructor(saved: Option<seq<WishlistItem>>)
      ensures items == saved.GetOr([])
    {
      items := saved.GetOr([]);
    }

    method AddToWishlist(item: WishlistItem)
      modifies this
      ensures items == WithAdded(old(items), item)
      ensures old(Valid()) ==> Valid()
    {
      if UniqueIds(items) {
        WithAddedKeepsIdsUnique(items, item);
      }
      items := WithAdded(items, item);
    }

    method RemoveFromWishlist(id: int)
      modifies this
      ensures items == WithoutId(old(items), id)
      ensures !IsInWishlist(items, id)
      ensures old(Valid()) ==> Valid()
    {
      if UniqueIds(items) {
        WithoutIdKeepsIdsUnique(items, id);
      }
      items := WithoutId(items, id);
    }

    method ClearWishlist()
      modifies this
      ensures items == [] && Valid() && ItemCount(items) == 0
    {
      items := [];
    }
  }
}

/**
 * The shopping-cart store: an ordered list of line items, keyed by
 * (product id, size). Every intent replaces the list with a new one computed
 * from the previous list; the pure functions below are those computations and
 * `CartStore` is the state that holds the current list.
 * Prices are integer minor units (fils), so the subtotal is exact.
 */
module Cart {
  import opened Wrappers

  /** One cart line. */
  datatype CartItem = CartItem(id: int, name: string, price: int, image: string, quantity: int, size: string)

  /** What addItem receives: a line without its quantity, plus an optional quantity. */
  datatype NewItem = NewItem(id: int, name: string, price: int, image: string, size: string, quantity: Option<int>)

  predicate IsLine(item: CartItem, id: int, size: string) {
    item.id == id && item.size == size
  }

  predicate HasLine(items: seq<CartItem>, id: int, size: string) {
    exists j :: 0 <= j < |items| && IsLine(items[j], id, size)
  }

  /** No two lines share a (product id, size) key. */
  predicate UniqueKeys(items: seq<CartItem>) {
    forall i, j :: 0 <= i < j < |items| ==> !IsLine(items[j], items[i].id, items[i].size)
  }

  /** Every line holds at least one unit. */
  predicate AllPositive(items: seq<CartItem>) {
    forall j :: 0 <= j < |items| ==> items[j].quantity >= 1
  }

  /** findIndex on the key (id, size): the first matching position, or -1. */
  function FindLine(items: seq<CartItem>, id: int, size: string): (r: int)
    ensures -1 <= r < |items|
    ensures r == -1 <==> !HasLine(items, id, size)
    ensures r >= 0 ==> IsLine(items[r], id, size) && forall j :: 0 <= j < r ==> !IsLine(items[j], id, size)
  {
    if |items| == 0 then -1
    else if IsLine(items[0], id, size) then 0
    else
      var k := FindLine(items[1..], id, size);
      assert forall j :: 1 <= j < |items| ==> items[j] == items[1..][j - 1];
      if k < 0 then -1 else k + 1
  }

  /** `quantity || 1`: a missing quantity and a quantity of 0 both count as 1. */
  function EffectiveQuantity(quantity: Option<int>): (r: int)
    ensures r != 0
    ensures quantity.Some? && quantity.value != 0 ==> r == quantity.value
    ensures quantity.Some? && quantity.value >= 0 ==> r >= 1
    ensures quantity.None? || quantity.value == 0 ==> r == 1
  {
    match quantity
    case None => 1
    case Some(q) => if q == 0 then 1 else q
  }

  /** The line addItem appends for a key not yet in the cart. */
  function NewLine(n: NewItem): (r: CartItem)
    ensures IsLine(r, n.id, n.size)
    ensures r.name == n.name && r.price == n.price && r.image == n.image
    ensures r.quantity == EffectiveQuantity(n.quantity)
  {
    CartItem(n.id, n.name, n.price, n.image, EffectiveQuantity(n.quantity), n.size)
  }

  /** The list addItem computes: merge into the line with the same key, or append. */
  function WithItemAdded(items: seq<CartItem>, n: NewItem): (r: seq<CartItem>)
    ensures HasLine(r, n.id, n.size)
    ensures HasLine(items, n.id, n.size) ==>
      var i := FindLine(items, n.id, n.size);
      |r| == |items| &&
      r[i] == items[i].(quantity := items[i].quantity + EffectiveQuantity(n.quantity)) &&
      forall j :: 0 <= j < |items| && j != i ==> r[j] == items[j]
    ensures !HasLine(items, n.id, n.size) ==>
      |r| == |items| + 1 && r[..|items|] == items &&
      r[|items|] == CartItem(n.id, n.name, n.price, n.image, EffectiveQuantity(n.quantity), n.size)
  {
    var i := FindLine(items, n.id, n.size);
    if i >= 0 then
      var r := items[i := items[i].(quantity := items[i].quantity + EffectiveQuantity(n.quantity))];
      assert IsLine(r[i], n.id, n.size);
      r
    else
      assert IsLine(NewLine(n), n.id, n.size);
      assert (items + [NewLine(n)])[|items|] == NewLine(n);
      items + [NewLine(n)]
  }

  /** The list removeItem computes: every line except those with the key, in order. */
  function WithoutLine(items: seq<CartItem>, id: int, size: string): (r: seq<CartItem>)
    ensures |r| <= |items|
    ensures !HasLine(r, id, size)
  {
    if |items| == 0 then []
    else
      var rest := WithoutLine(items[1..], id, size);
      assert forall j :: 1 <= j < |items| ==> items[j] == items[1..][j - 1];
      if IsLine(items[0], id, size) then rest else [items[0]] + rest
  }

  /** The list updateQuantity computes: quantities below 1 are ignored; otherwise the
      matching lines get the new quantity and everything else stays as it was. */
  function WithQuantity(items: seq<CartItem>, id: int, size: string, quantity: int): (r: seq<CartItem>)
    ensures |r| == |items|
    ensures quantity < 1 ==> r == items
    ensures forall j :: 0 <= j < |items| ==> r[j] == items[j].(quantity := r[j].quantity)
    ensures forall j :: 0 <= j < |items| ==>
      r[j].quantity == if quantity >= 1 && IsLine(items[j], id, size) then quantity else items[j].quantity
  {
    if quantity < 1 then
      items
    else
      seq(|items|, j requires 0 <= j < |items| =>
        if IsLine(items[j], id, size) then items[j].(quantity := quantity) else items[j])
  }

  /** A left-to-right fold of `f` over the lines, as Array.prototype.reduce does. */
  function SumOver(items: seq<CartItem>, f: CartItem -> int): int {
    if |items| == 0 then 0 else SumOver(items[..|items| - 1], f) + f(items[|items| - 1])
  }

  function LineQuantity(item: CartItem): int { item.quantity }

  function LineTotal(item: CartItem): int { item.price * item.quantity }

  /** itemCount: the number of units in the cart. */
  function ItemCount(items: seq<CartItem>): (r: int)
    ensures AllPositive(items) ==> r >= |items|
  {
    ItemCountBound(items);
    SumOver(items, LineQuantity)
  }

  /** subtotal: the price of every line times its quantity, summed. */
  function Subtotal(items: seq<CartItem>): (r: int)
    ensures NoNegatives(items) ==> r >= 0
  {
    SubtotalBound(items);
    SumOver(items, LineTotal)
  }

  /** No line has a negative price or quantity. */
  predicate NoNegatives(items: seq<CartItem>) {
    forall k :: 0 <= k < |items| ==> items[k].price >= 0 && items[k].quantity >= 0
  }

  /** The quantity on the line with this key, or 0 when there is none. */
  function QuantityOf(items: seq<CartItem>, id: int, size: string): int {
    var i := FindLine(items, id, size);
    if i < 0 then 0 else items[i].quantity
  }

  lemma {:induction false} ItemCountBound(items: seq<CartItem>)
    ensures AllPositive(items) ==> SumOver(items, LineQuantity) >= |items|
  {
    if |items| > 0 {
      ItemCountBound(items[..|items| - 1]);
    }
  }

  // ---- the fold over concatenations and point updates ----

  lemma {:induction false} SubtotalBound(items: seq<CartItem>)
    ensures NoNegatives(items) ==> SumOver(items, LineTotal) >= 0
  {
    if |items| > 0 && NoNegatives(items) {
      var init := items[..|items| - 1];
      assert NoNegatives(init) by {
        assert forall k :: 0 <= k < |init| ==> init[k] == items[k];
      }
      SubtotalBound(init);
      var last := items[|items| - 1];
      assert last.price * last.quantity >= 0;
    }
  }

  lemma {:induction false} SumOverAppend(a: seq<CartItem>, b: seq<CartItem>, f: CartItem -> int)
    ensures SumOver(a + b, f) == SumOver(a, f) + SumOver(b, f)
  {
    if |b| == 0 {
      assert a + b == a;
    } else {
      SumOverAppend(a, b[..|b| - 1], f);
      assert (a + b)[..|a + b| - 1] == a + b[..|b| - 1];
    }
  }

  lemma {:induction false} SumOverSingle(x: CartItem, f: CartItem -> int)
    ensures SumOver([x], f) == f(x)
  {
    assert [x][..0] == [];
  }

  lemma {:induction false} SumOverUpdate(items: seq<CartItem>, i: int, x: CartItem, f: CartItem -> int)
    requires 0 <= i < |items|
    ensures SumOver(items[i := x], f) == SumOver(items, f) - f(items[i]) + f(x)
  {
    var a, b := items[..i], items[i + 1..];
    assert items == (a + [items[i]]) + b;
    assert items[i := x] == (a + [x]) + b;
    SumOverAppend(a + [items[i]], b, f);
    SumOverAppend(a, [items[i]], f);
    SumOverAppend(a + [x], b, f);
    SumOverAppend(a, [x], f);
    SumOverSingle(items[i], f);
    SumOverSingle(x, f);
  }

  lemma {:induction false} SumOverRemoveAt(items: seq<CartItem>, i: int, f: CartItem -> int)
    requires 0 <= i < |items|
    ensures SumOver(items[..i] + items[i + 1..], f) == SumOver(items, f) - f(items[i])
  {
    SumOverWithout(items[..i], items[i], items[i + 1..], f);
    assert items == items[..i] + [items[i]] + items[i + 1..];
  }

  lemma {:induction false} SumOverWithout(a: seq<CartItem>, x: CartItem, b: seq<CartItem>, f: CartItem -> int)
    ensures SumOver(a + b, f) == SumOver(a + [x] + b, f) - f(x)
  {
    SumOverAppend(a + [x], b, f);
    SumOverAppend(a, [x], f);
    SumOverSingle(x, f);
    SumOverAppend(a, b, f);
  }

  // ---- addItem ----

  /** After addItem the key's line is found where it already was, or at the end. */
  lemma {:induction false} FindLineAfterAdd(items: seq<CartItem>, n: NewItem)
    ensures FindLine(WithItemAdded(items, n), n.id, n.size) ==
      if HasLine(items, n.id, n.size) then FindLine(items, n.id, n.size) else |items|
  {
    var r := WithItemAdded(items, n);
    var k := FindLine(r, n.id, n.size);
    if HasLine(items, n.id, n.size) {
      var i := FindLine(items, n.id, n.size);
      assert IsLine(r[i], n.id, n.size);
      forall j | 0 <= j < i ensures !IsLine(r[j], n.id, n.size) {
        assert r[j] == items[j];
      }
    } else {
      assert forall j :: 0 <= j < |items| ==> r[j] == items[j];
      assert IsLine(r[|items|], n.id, n.size);
    }
  }

  lemma {:induction false} WithItemAddedKeepsKeysUnique(items: seq<CartItem>, n: NewItem)
    requires UniqueKeys(items)
    ensures UniqueKeys(WithItemAdded(items, n))
  {
    var r := WithItemAdded(items, n);
    if !HasLine(items, n.id, n.size) {
      assert forall j :: 0 <= j < |items| ==> r[j] == items[j];
      forall i, j | 0 <= i < j < |r|
        ensures !IsLine(r[j], r[i].id, r[i].size)
      {
        if j == |items| {
          assert !IsLine(items[i], n.id, n.size);
        }
      }
    }
  }

  /** Adding non-negative quantities keeps every line at one unit or more. */
  lemma {:induction false} WithItemAddedKeepsQuantitiesPositive(items: seq<CartItem>, n: NewItem)
    requires AllPositive(items)
    requires n.quantity.None? || n.quantity.value >= 0
    ensures AllPositive(WithItemAdded(items, n))
  {
    var r := WithItemAdded(items, n);
    if !HasLine(items, n.id, n.size) {
      assert forall j :: 0 <= j < |items| ==> r[j] == items[j];
    }
  }

  /** addItem called once for each entry of `quantities`, always for the key of `n`. */
  function AddRepeatedly(items: seq<CartItem>, n: NewItem, quantities: seq<Option<int>>): seq<CartItem>
    decreases |quantities|
  {
    if |quantities| == 0 then items
    else AddRepeatedly(WithItemAdded(items, n.(quantity := quantities[0])), n, quantities[1..])
  }

  function SumEffective(quantities: seq<Option<int>>): int {
    if |quantities| == 0 then 0 else EffectiveQuantity(quantities[0]) + SumEffective(quantities[1..])
  }

  /** Repeated adds of one key raise its quantity by the sum of the effective amounts,
      and create at most one line. */
  lemma {:induction false} RepeatedAddsAccumulate(items: seq<CartItem>, n: NewItem, quantities: seq<Option<int>>)
    ensures QuantityOf(AddRepeatedly(items, n, quantities), n.id, n.size)
         == QuantityOf(items, n.id, n.size) + SumEffective(quantities)
    ensures |AddRepeatedly(items, n, quantities)|
         == |items| + if quantities == [] || HasLine(items, n.id, n.size) then 0 else 1
    decreases |quantities|
  {
    if |quantities| > 0 {
      var m := n.(quantity := quantities[0]);
      var next := WithItemAdded(items, m);
      FindLineAfterAdd(items, m);
      assert QuantityOf(next, n.id, n.size) == QuantityOf(items, n.id, n.size) + EffectiveQuantity(quantities[0]);
      RepeatedAddsAccumulate(next, n, quantities[1..]);
      assert HasLine(next, n.id, n.size);
    }
  }

  /** Adding {id 1, size "50ml"} with quantity 1 twice to an empty cart gives one line
      holding 2 units. */
  lemma {:induction false} AddTwiceScenario(name: string, price: int, image: string)
    ensures var n := NewItem(1, name, price, image, "50ml", Some(1));
      var cart := WithItemAdded(WithItemAdded([], n), n);
      |cart| == 1 && cart[0].quantity == 2 && ItemCount(cart) == 2
  {
    var n := NewItem(1, name, price, image, "50ml", Some(1));
    var once := WithItemAdded([], n);
    assert once == [NewLine(n)];
    assert FindLine(once, 1, "50ml") == 0;
    var cart := WithItemAdded(once, n);
    assert cart == [NewLine(n).(quantity := 2)];
    SumOverSingle(cart[0], LineQuantity);
  }

  /** itemCount grows by exactly the effective amount added. */
  lemma {:induction false} ItemCountAfterAdd(items: seq<CartItem>, n: NewItem)
    ensures ItemCount(WithItemAdded(items, n)) == ItemCount(items) + EffectiveQuantity(n.quantity)
  {
    var r := WithItemAdded(items, n);
    if HasLine(items, n.id, n.size) {
      var i := FindLine(items, n.id, n.size);
      assert r == items[i := r[i]];
      SumOverUpdate(items, i, r[i], LineQuantity);
    } else {
      assert r == items + [NewLine(n)];
      SumOverAppend(items, [NewLine(n)], LineQuantity);
      assert [NewLine(n)][..0] == [];
    }
  }

  /** subtotal grows by the effective amount times the price of the line that received it:
      the existing line's price on a merge, the new item's price on an append. */
  lemma {:induction false} SubtotalAfterAdd(items: seq<CartItem>, n: NewItem)
    ensures Subtotal(WithItemAdded(items, n)) == Subtotal(items) +
      (if HasLine(items, n.id, n.size) then items[FindLine(items, n.id, n.size)].price else n.price)
        * EffectiveQuantity(n.quantity)
  {
    if HasLine(items, n.id, n.size) {
      SubtotalAfterMerge(items, n);
    } else {
      SubtotalAfterAppend(items, n);
    }
  }

  lemma {:induction false} SubtotalAfterMerge(items: seq<CartItem>, n: NewItem)
    requires HasLine(items, n.id, n.size)
    ensures var i := FindLine(items, n.id, n.size);
      Subtotal(WithItemAdded(items, n)) == Subtotal(items) + items[i].price * EffectiveQuantity(n.quantity)
  {
    var r := WithItemAdded(items, n);
    var e := EffectiveQuantity(n.quantity);
    var i := FindLine(items, n.id, n.size);
    var line := items[i];
    assert r[i] == line.(quantity := line.quantity + e);
    assert r == items[i := r[i]];
    SumOverUpdate(items, i, r[i], LineTotal);
    assert LineTotal(r[i]) == line.price * (line.quantity + e);
    assert line.price * (line.quantity + e) == line.price * line.quantity + line.price * e;
  }

  lemma {:induction false} SubtotalAfterAppend(items: seq<CartItem>, n: NewItem)
    requires !HasLine(items, n.id, n.size)
    ensures Subtotal(WithItemAdded(items, n)) == Subtotal(items) + n.price * EffectiveQuantity(n.quantity)
  {
    assert WithItemAdded(items, n) == items + [NewLine(n)];
    SumOverAppend(items, [NewLine(n)], LineTotal);
    SumOverSingle(NewLine(n), LineTotal);
  }

  // ---- removeItem ----

  /** removeItem distributes over concatenation: on any list, duplicates included, the
      surviving lines keep their relative order. */
  lemma {:induction false} WithoutLineAppend(a: seq<CartItem>, b: seq<CartItem>, id: int, size: string)
    ensures WithoutLine(a + b, id, size) == WithoutLine(a, id, size) + WithoutLine(b, id, size)
  {
    if |a| == 0 {
      assert a + b == b;
    } else {
      assert (a + b)[0] == a[0] && (a + b)[1..] == a[1..] + b;
      WithoutLineAppend(a[1..], b, id, size);
    }
  }

  /** removeItem on one line: dropped when it has the key, kept otherwise. */
  lemma {:induction false} WithoutLineSingle(x: CartItem, id: int, size: string)
    ensures WithoutLine([x], id, size) == if IsLine(x, id, size) then [] else [x]
  {
    assert [x][1..] == [];
  }

  /** removeItem keeps exactly the lines whose key differs. */
  lemma {:induction false} WithoutLineMembers(items: seq<CartItem>, id: int, size: string, x: CartItem)
    ensures x in WithoutLine(items, id, size) <==> x in items && !IsLine(x, id, size)
  {
    if |items| > 0 {
      WithoutLineMembers(items[1..], id, size, x);
      assert items == [items[0]] + items[1..];
    }
  }

  /** Removing an absent key changes nothing. */
  lemma {:induction false} WithoutAbsentLine(items: seq<CartItem>, id: int, size: string)
    requires !HasLine(items, id, size)
    ensures WithoutLine(items, id, size) == items
  {
    if |items| > 0 {
      assert !IsLine(items[0], id, size);
      assert forall j :: 0 <= j < |items| - 1 ==> items[1..][j] == items[j + 1];
      WithoutAbsentLine(items[1..], id, size);
      assert items == [items[0]] + items[1..];
    }
  }

  lemma {:induction false} UniqueTail(items: seq<CartItem>)
    requires UniqueKeys(items) && |items| > 0
    ensures UniqueKeys(items[1..])
    ensures !HasLine(items[1..], items[0].id, items[0].size)
  {
    forall i, j | 0 <= i < j < |items| - 1
      ensures !IsLine(items[1..][j], items[1..][i].id, items[1..][i].size)
    {
      assert items[1..][j] == items[j + 1] && items[1..][i] == items[i + 1];
    }
    forall j | 0 <= j < |items| - 1 ensures !IsLine(items[1..][j], items[0].id, items[0].size) {
      assert items[1..][j] == items[j + 1];
    }
  }

  /** In a cart with unique keys, removeItem deletes exactly the one matching line and keeps
      every other line in its original order. */
  lemma {:induction false} WithoutUniqueLine(items: seq<CartItem>, id: int, size: string)
    requires UniqueKeys(items)
    requires HasLine(items, id, size)
    ensures var i := FindLine(items, id, size);
      WithoutLine(items, id, size) == items[..i] + items[i + 1..]
  {
    var i := FindLine(items, id, size);
    var tail := items[1..];
    if i == 0 {
      assert WithoutLine(items, id, size) == tail by {
        UniqueTail(items);
        WithoutAbsentLine(tail, id, size);
      }
    } else {
      assert FindLine(tail, id, size) == i - 1 && UniqueKeys(tail) && HasLine(tail, id, size) by {
        UniqueTail(items);
        assert tail[i - 1] == items[i];
        assert forall j :: 0 <= j < i - 1 ==> tail[j] == items[j + 1];
      }
      assert WithoutLine(tail, id, size) == tail[..i - 1] + tail[i..] by {
        WithoutUniqueLine(tail, id, size);
      }
      assert WithoutLine(items, id, size) == [items[0]] + WithoutLine(tail, id, size) by {
        assert !IsLine(items[0], id, size);
      }
      assert items[..i] == [items[0]] + tail[..i - 1];
      assert items[i + 1..] == tail[i..];
    }
  }

  /** removeItem followed by addItem of the same key starts a fresh line: nothing of the
      removed quantity survives. */
  lemma {:induction false} RemoveThenAddStartsFresh(items: seq<CartItem>, n: NewItem)
    ensures QuantityOf(WithItemAdded(WithoutLine(items, n.id, n.size), n), n.id, n.size)
         == EffectiveQuantity(n.quantity)
  {
    var rest := WithoutLine(items, n.id, n.size);
    FindLineAfterAdd(rest, n);
  }

  /** In a cart with unique keys, removeItem lowers itemCount and subtotal by exactly the
      removed line's share. */
  lemma {:induction false} TotalsAfterRemove(items: seq<CartItem>, id: int, size: string)
    requires UniqueKeys(items)
    ensures var i := FindLine(items, id, size);
      ItemCount(WithoutLine(items, id, size)) == ItemCount(items) - (if i < 0 then 0 else items[i].quantity) &&
      Subtotal(WithoutLine(items, id, size)) == Subtotal(items) - (if i < 0 then 0 else LineTotal(items[i]))
  {
    if HasLine(items, id, size) {
      var i := FindLine(items, id, size);
      WithoutUniqueLine(items, id, size);
      SumOverRemoveAt(items, i, LineQuantity);
      SumOverRemoveAt(items, i, LineTotal);
    } else {
      WithoutAbsentLine(items, id, size);
    }
  }

  // ---- updateQuantity ----

  /** updateQuantity of a key that is not in the cart changes nothing. */
  lemma {:induction false} WithQuantityAbsent(items: seq<CartItem>, id: int, size: string, quantity: int)
    requires !HasLine(items, id, size)
    ensures WithQuantity(items, id, size, quantity) == items
  {
    var r := WithQuantity(items, id, size, quantity);
    assert forall j :: 0 <= j < |items| ==> !IsLine(items[j], id, size);
    assert forall j :: 0 <= j < |items| ==> r[j] == items[j];
  }

  /** In a cart with unique keys, updateQuantity to q >= 1 is a point update of the one
      matching line. */
  lemma {:induction false} WithQuantityUniqueLine(items: seq<CartItem>, id: int, size: string, quantity: int)
    requires UniqueKeys(items)
    requires quantity >= 1
    requires HasLine(items, id, size)
    ensures var i := FindLine(items, id, size);
      WithQuantity(items, id, size, quantity) == items[i := items[i].(quantity := quantity)]
  {
    var i := FindLine(items, id, size);
    var r := WithQuantity(items, id, size, quantity);
    forall j | 0 <= j < |items| && j != i ensures r[j] == items[j] {
      if j < i {
        assert !IsLine(items[j], id, size);
      } else {
        assert !IsLine(items[j], items[i].id, items[i].size);
      }
    }
  }

  /** So itemCount moves by the difference of the quantities. */
  lemma {:induction false} ItemCountAfterUpdate(items: seq<CartItem>, id: int, size: string, quantity: int)
    requires UniqueKeys(items)
    requires quantity >= 1
    requires HasLine(items, id, size)
    ensures var i := FindLine(items, id, size);
      ItemCount(WithQuantity(items, id, size, quantity)) == ItemCount(items) - items[i].quantity + quantity
  {
    var i := FindLine(items, id, size);
    WithQuantityUniqueLine(items, id, size, quantity);
    SumOverUpdate(items, i, items[i].(quantity := quantity), LineQuantity);
  }

  /** And subtotal moves by the line's price times the difference of the quantities. */
  lemma {:induction false} SubtotalAfterUpdate(items: seq<CartItem>, id: int, size: string, quantity: int)
    requires UniqueKeys(items)
    requires quantity >= 1
    requires HasLine(items, id, size)
    ensures var i := FindLine(items, id, size);
      Subtotal(WithQuantity(items, id, size, quantity)) ==
        Subtotal(items) - items[i].price * items[i].quantity + items[i].price * quantity
  {
    var i := FindLine(items, id, size);
    WithQuantityUniqueLine(items, id, size, quantity);
    SumOverUpdate(items, i, items[i].(quantity := quantity), LineTotal);
  }

  /** Preserving unique keys: updateQuantity and removeItem never create a duplicate. */
  lemma {:induction false} WithQuantityKeepsKeysUnique(items: seq<CartItem>, id: int, size: string, quantity: int)
    requires UniqueKeys(items)
    ensures UniqueKeys(WithQuantity(items, id, size, quantity))
  {
    var r := WithQuantity(items, id, size, quantity);
    forall i, j | 0 <= i < j < |r| ensures !IsLine(r[j], r[i].id, r[i].size) {
      assert IsLine(r[j], r[i].id, r[i].size) == IsLine(items[j], items[i].id, items[i].size);
    }
  }

  lemma {:induction false} WithoutLineKeepsKeysUnique(items: seq<CartItem>, id: int, size: string)
    requires UniqueKeys(items)
    ensures UniqueKeys(WithoutLine(items, id, size))
  {
    if HasLine(items, id, size) {
      var i := FindLine(items, id, size);
      WithoutUniqueLine(items, id, size);
      var r := items[..i] + items[i + 1..];
      forall a, b | 0 <= a < b < |r| ensures !IsLine(r[b], r[a].id, r[a].size) {
        var a' := if a < i then a else a + 1;
        var b' := if b < i then b else b + 1;
        assert r[a] == items[a'] && r[b] == items[b'];
      }
    } else {
      WithoutAbsentLine(items, id, size);
    }
  }

  /** The cart store: the current list of lines. */
  class CartStore {
    var items: seq<CartItem>

    /** The store's invariant: one line per (id, size). */
    ghost predicate Valid()
      reads this
    {
      UniqueKeys(items)
    }

    /** The cart as restored from storage; a missing or unreadable entry (None) leaves it empty. */
    constructor(saved: Option<seq<CartItem>>)
      ensures items == saved.GetOr([])
    {
      items := saved.GetOr([]);
    }

    method AddItem(n: NewItem)
      modifies this
      ensures items == WithItemAdded(old(items), n)
      ensures old(Valid()) ==> Valid()
    {
      if UniqueKeys(items) {
        WithItemAddedKeepsKeysUnique(items, n);
      }
      items := WithItemAdded(items, n);
    }

    method RemoveItem(id: int, size: string)
      modifies this
      ensures items == WithoutLine(old(items), id, size)
      ensures old(Valid()) ==> Valid()
    {
      if UniqueKeys(items) {
        WithoutLineKeepsKeysUnique(items, id, size);
      }
      items := WithoutLine(items, id, size);
    }

    method UpdateQuantity(id: int, size: string, quantity: int)
      modifies this
      ensures items == WithQuantity(old(items), id, size, quantity)
      ensures quantity < 1 ==> items == old(items)
      ensures old(Valid()) ==> Valid()
    {
      if quantity < 1 {
        return;
      }
      if UniqueKeys(items) {
        WithQuantityKeepsKeysUnique(items, id, size, quantity);
      }
      items := WithQuantity(items, id, size, quantity);
    }

    method ClearCart()
      modifies this
      ensures items == [] && Valid()
      ensures ItemCount(items) == 0 && Subtotal(items) == 0
    {
      items := [];
    }
  }
}

/**
 * CartService: the list of cart lines, the three operations that replace
 * it (`addToCart`, `removeItem`, `clearCart`) and the two totals derived
 * from it (`totalPrice`, `itemCount`).
 */
module Cart {
  import opened Wrappers
  import opened Sequences
  import opened Models

  /** One cart line: a snapshot of a product plus how many of it the user wants. */
  datatype CartItem = CartItem(
    id: int,
    name: string,
    price: int,
    quantity: int,
    imageUrl: string,
    barcode: string)

  /** The line `addToCart` appends for a product that is not yet in the cart. */
  function Snapshot(p: Product): CartItem {
    CartItem(p.id, p.name, p.price, 1, p.imageUrl, p.barcode)
  }

  /** What one line contributes to the total price. */
  function Subtotal(line: CartItem): (r: int)
    ensures line.price >= 0 && line.quantity >= 0 ==> r >= 0
  {
    line.price * line.quantity
  }

  /** One more unit adds one price to the line's subtotal. */
  lemma SubtotalOfBump(line: CartItem)
    ensures Subtotal(line.(quantity := line.quantity + 1)) == Subtotal(line) + line.price
  {
  }

  predicate HasId(items: seq<CartItem>, id: int) {
    exists i :: 0 <= i < |items| && items[i].id == id
  }

  /** At most one line per product id. */
  predicate UniqueIds(items: seq<CartItem>) {
    forall i, j :: 0 <= i < j < |items| ==> items[i].id != items[j].id
  }

  predicate PositiveQuantities(items: seq<CartItem>) {
    forall i :: 0 <= i < |items| ==> items[i].quantity >= 1
  }

  /** The invariant every reachable cart satisfies. */
  predicate WellFormed(items: seq<CartItem>) {
    UniqueIds(items) && PositiveQuantities(items)
  }

  /**
   * `totalPrice`: `reduce((sum, item) => sum + item.price * item.quantity, 0)`,
   * folded from the left; never negative when no price is.
   */
  function TotalPriceOf(items: seq<CartItem>): int {
    if items == [] then 0 else TotalPriceOf(items[..|items| - 1]) + Subtotal(items[|items| - 1])
  }

  lemma {:induction false} TotalPriceNonNegative(items: seq<CartItem>)
    ensures (forall i :: 0 <= i < |items| ==> items[i].price >= 0 && items[i].quantity >= 0) ==>
            TotalPriceOf(items) >= 0
  {
    if items != [] {
      var prefix := items[..|items| - 1];
      assert forall i :: 0 <= i < |prefix| ==> prefix[i] == items[i];
      TotalPriceNonNegative(prefix);
    }
  }

  /**
   * `itemCount`: `reduce((sum, item) => sum + item.quantity, 0)`; at least
   * the number of lines when every quantity is positive.
   */
  function ItemCountOf(items: seq<CartItem>): int {
    if items == [] then 0 else ItemCountOf(items[..|items| - 1]) + items[|items| - 1].quantity
  }

  lemma {:induction false} ItemCountAtLeastLines(items: seq<CartItem>)
    ensures PositiveQuantities(items) ==> ItemCountOf(items) >= |items|
  {
    if items != [] {
      var prefix := items[..|items| - 1];
      assert forall i :: 0 <= i < |prefix| ==> prefix[i] == items[i];
      ItemCountAtLeastLines(prefix);
    }
  }

  /** The set of product ids that have a line. */
  function LineIds(items: seq<CartItem>): set<int> {
    if items == [] then {} else LineIds(items[..|items| - 1]) + {items[|items| - 1].id}
  }

  /** An id is recorded exactly when some line carries it. */
  lemma {:induction false} LineIdsMembers(items: seq<CartItem>)
    ensures forall id :: id in LineIds(items) <==> HasId(items, id)
  {
    if items != [] {
      var prefix := items[..|items| - 1];
      LineIdsMembers(prefix);
      forall id ensures HasId(items, id) <==> HasId(prefix, id) || id == items[|items| - 1].id {
        if HasId(prefix, id) {
          var i :| 0 <= i < |prefix| && prefix[i].id == id;
          assert items[i].id == id;
        }
        if HasId(items, id) && id != items[|items| - 1].id {
          var i :| 0 <= i < |items| && items[i].id == id;
          assert prefix[i].id == id;
        }
      }
    }
  }

  /** With unique ids there are as many recorded ids as lines. */
  lemma {:induction false} LineIdsSize(items: seq<CartItem>)
    requires UniqueIds(items)
    ensures |LineIds(items)| == |items|
  {
    if items != [] {
      var prefix := items[..|items| - 1];
      var last := items[|items| - 1];
      assert UniqueIds(prefix) by {
        assert forall i :: 0 <= i < |prefix| ==> prefix[i] == items[i];
      }
      LineIdsSize(prefix);
      LineIdsMembers(prefix);
      assert !HasId(prefix, last.id) by {
        forall i | 0 <= i < |prefix| ensures prefix[i].id != last.id {
          assert prefix[i] == items[i];
        }
      }
    }
  }

  /** `items.find(item => item.id === id)`: the first line with that id, if any. */
  function FindById(items: seq<CartItem>, id: int): Option<CartItem> {
    if items == [] then None
    else if items[0].id == id then Some(items[0])
    else FindById(items[1..], id)
  }

  /**
   * The search succeeds exactly when some line has the id, and then yields
   * a line of the cart with that id: the only one when ids are unique.
   */
  lemma {:induction false} FindByIdSpec(items: seq<CartItem>, id: int)
    ensures FindById(items, id).Some? <==> HasId(items, id)
    ensures FindById(items, id).Some? ==> FindById(items, id).value in items && FindById(items, id).value.id == id
    ensures UniqueIds(items) ==>
      forall i :: 0 <= i < |items| && items[i].id == id ==> FindById(items, id) == Some(items[i])
  {
    if items != [] && items[0].id != id {
      var rest := items[1..];
      FindByIdSpec(rest, id);
      assert forall i :: 0 <= i < |rest| ==> rest[i] == items[i + 1];
      if HasId(items, id) {
        var j :| 0 <= j < |items| && items[j].id == id;
        assert rest[j - 1].id == id;
      }
      if UniqueIds(items) {
        assert UniqueIds(rest);
      }
    }
  }

  /** The line after the `map` of the already-in-cart branch. */
  function Bump(line: CartItem, id: int): CartItem {
    if line.id == id then line.(quantity := line.quantity + 1) else line
  }

  /** `items.map(item => item.id === id ? { ...item, quantity: item.quantity + 1 } : item)`. */
  function IncrementQuantity(items: seq<CartItem>, id: int): seq<CartItem> {
    seq(|items|, i requires 0 <= i < |items| => Bump(items[i], id))
  }

  /**
   * `items.filter(item => item.id !== id)`.
   */
  function WithoutId(items: seq<CartItem>, id: int): seq<CartItem> {
    if items == [] then []
    else if items[0].id != id then [items[0]] + WithoutId(items[1..], id)
    else WithoutId(items[1..], id)
  }

  /** The lines kept by `removeItem(id)` are exactly those with another id; an absent id changes nothing. */
  lemma {:induction false} WithoutIdKeeps(items: seq<CartItem>, id: int)
    ensures forall line :: line in WithoutId(items, id) <==> line in items && line.id != id
    ensures !HasId(items, id) ==> WithoutId(items, id) == items
  {
    if items != [] {
      WithoutIdKeeps(items[1..], id);
      assert !HasId(items, id) ==> !HasId(items[1..], id) by {
        if HasId(items[1..], id) {
          var j :| 0 <= j < |items| - 1 && items[1..][j].id == id;
          assert items[j + 1].id == id;
        }
      }
      assert items == [items[0]] + items[1..];
    }
  }

  /** The cart after `addToCart(p)`. */
  function AddedTo(items: seq<CartItem>, p: Product): seq<CartItem> {
    if FindById(items, p.id).Some? then IncrementQuantity(items, p.id) else items + [Snapshot(p)]
  }

  /** The cart after adding the products in order, starting from the empty cart. */
  function AddAll(ps: seq<Product>): seq<CartItem> {
    if ps == [] then [] else AddedTo(AddAll(ps[..|ps| - 1]), ps[|ps| - 1])
  }

  /** The distinct product ids among `ps`. */
  function ProductIds(ps: seq<Product>): set<int> {
    if ps == [] then {} else ProductIds(ps[..|ps| - 1]) + {ps[|ps| - 1].id}
  }

  /** Both totals distribute over concatenation. */
  lemma {:induction false} TotalsOfConcat(a: seq<CartItem>, b: seq<CartItem>)
    ensures ItemCountOf(a + b) == ItemCountOf(a) + ItemCountOf(b)
    ensures TotalPriceOf(a + b) == TotalPriceOf(a) + TotalPriceOf(b)
    decreases |b|
  {
    if b == [] {
      assert a + b == a;
    } else {
      TotalsOfConcat(a, b[..|b| - 1]);
      assert (a + b)[..|a + b| - 1] == a + b[..|b| - 1];
    }
  }

  /**
   * Adding a product with a new id appends one line at the end, copied from
   * the product with quantity 1; the earlier lines stay as they were.
   */
  lemma AddNewProduct(items: seq<CartItem>, p: Product)
    requires !HasId(items, p.id)
    ensures |AddedTo(items, p)| == |items| + 1
    ensures AddedTo(items, p)[..|items|] == items
    ensures var line := AddedTo(items, p)[|items|];
      line.id == p.id && line.name == p.name && line.price == p.price &&
      line.imageUrl == p.imageUrl && line.barcode == p.barcode && line.quantity == 1
    ensures ItemCountOf(AddedTo(items, p)) == ItemCountOf(items) + 1
    ensures TotalPriceOf(AddedTo(items, p)) == TotalPriceOf(items) + p.price
    ensures WellFormed(items) ==> WellFormed(AddedTo(items, p))
  {
    FindByIdSpec(items, p.id);
    var r := items + [Snapshot(p)];
    assert r[..|r| - 1] == items;
  }

  /** The totals split around line k. */
  lemma TotalsAt(items: seq<CartItem>, k: nat)
    requires k < |items|
    ensures ItemCountOf(items) == ItemCountOf(items[..k]) + items[k].quantity + ItemCountOf(items[k + 1..])
    ensures TotalPriceOf(items) == TotalPriceOf(items[..k]) + Subtotal(items[k]) + TotalPriceOf(items[k + 1..])
  {
    TotalsOfConcat(items[..k + 1], items[k + 1..]);
    assert items[..k + 1] + items[k + 1..] == items;
    assert items[..k + 1][..k] == items[..k];
  }

  /**
   * Adding a product whose id already has line k keeps the length, raises
   * that line's quantity by exactly 1 and changes nothing else: its name,
   * price, image and barcode are not taken again from the product.
   */
  lemma AddExistingProduct(items: seq<CartItem>, p: Product, k: nat)
    requires UniqueIds(items)
    requires k < |items| && items[k].id == p.id
    ensures |AddedTo(items, p)| == |items|
    ensures AddedTo(items, p)[k] == items[k].(quantity := items[k].quantity + 1)
    ensures forall i :: 0 <= i < |items| && i != k ==> AddedTo(items, p)[i] == items[i]
    ensures forall i :: 0 <= i < |items| ==>
      AddedTo(items, p)[i] == if items[i].id == p.id then items[i].(quantity := items[i].quantity + 1) else items[i]
    ensures WellFormed(items) ==> WellFormed(AddedTo(items, p))
  {
    FindByIdSpec(items, p.id);
  }

  /**
   * Adding a product whose id already has line k raises the item count by 1
   * and the total price by the price recorded in that line.
   */
  lemma AddExistingTotals(items: seq<CartItem>, p: Product, k: nat)
    requires UniqueIds(items)
    requires k < |items| && items[k].id == p.id
    ensures ItemCountOf(AddedTo(items, p)) == ItemCountOf(items) + 1
    ensures TotalPriceOf(AddedTo(items, p)) == TotalPriceOf(items) + items[k].price
  {
    AddExistingProduct(items, p, k);
    var r := AddedTo(items, p);
    assert r[..k] == items[..k];
    assert r[k + 1..] == items[k + 1..];
    TotalsOfPointBump(r, items, k);
  }

  /** Two carts that differ only in one more unit of line k. */
  lemma TotalsOfPointBump(r: seq<CartItem>, items: seq<CartItem>, k: nat)
    requires |r| == |items| && k < |items|
    requires r[..k] == items[..k] && r[k + 1..] == items[k + 1..]
    requires r[k] == items[k].(quantity := items[k].quantity + 1)
    ensures ItemCountOf(r) == ItemCountOf(items) + 1
    ensures TotalPriceOf(r) == TotalPriceOf(items) + items[k].price
  {
    SubtotalOfBump(items[k]);
    TotalsAt(r, k);
    TotalsAt(items, k);
  }

  /** After `addToCart(p)` the cart has a line for `p.id` and for every id it had before, and no other. */
  lemma AddToCartIds(items: seq<CartItem>, p: Product)
    requires UniqueIds(items)
    ensures LineIds(AddedTo(items, p)) == LineIds(items) + {p.id}
  {
    var r := AddedTo(items, p);
    FindByIdSpec(items, p.id);
    LineIdsMembers(items);
    LineIdsMembers(r);
    if HasId(items, p.id) {
      var k :| 0 <= k < |items| && items[k].id == p.id;
      AddExistingProduct(items, p, k);
      assert forall i :: 0 <= i < |items| ==> r[i].id == items[i].id;
      forall id ensures id in LineIds(r) <==> id in LineIds(items) + {p.id} {
        assert HasId(r, id) <==> HasId(items, id);
      }
    } else {
      assert r == items + [Snapshot(p)];
      forall id ensures id in LineIds(r) <==> id in LineIds(items) + {p.id} {
        if HasId(items, id) {
          var i :| 0 <= i < |items| && items[i].id == id;
          assert r[i].id == id;
        }
        assert r[|items|].id == p.id;
      }
    }
  }

  /**
   * One `addToCart` keeps the cart well formed, raises the item count by
   * exactly 1, adds one line exactly when the id is new and records the id.
   */
  lemma AddToCartEffect(items: seq<CartItem>, p: Product)
    requires WellFormed(items)
    ensures WellFormed(AddedTo(items, p))
    ensures ItemCountOf(AddedTo(items, p)) == ItemCountOf(items) + 1
    ensures |AddedTo(items, p)| == if HasId(items, p.id) then |items| else |items| + 1
    ensures LineIds(AddedTo(items, p)) == LineIds(items) + {p.id}
  {
    if HasId(items, p.id) {
      var k :| 0 <= k < |items| && items[k].id == p.id;
      AddExistingProduct(items, p, k);
      AddExistingTotals(items, p, k);
    } else {
      AddNewProduct(items, p);
    }
    AddToCartIds(items, p);
  }

  /**
   * After adding the products one by one to an empty cart, the item count
   * is the number of adds and there is one line per distinct id added.
   */
  lemma {:induction false} AddsFromEmpty(ps: seq<Product>)
    ensures WellFormed(AddAll(ps))
    ensures ItemCountOf(AddAll(ps)) == |ps|
    ensures LineIds(AddAll(ps)) == ProductIds(ps)
    ensures |AddAll(ps)| == |ProductIds(ps)|
  {
    if ps != [] {
      AddsFromEmpty(ps[..|ps| - 1]);
      AddToCartEffect(AddAll(ps[..|ps| - 1]), ps[|ps| - 1]);
    }
    LineIdsSize(AddAll(ps));
  }

  /** Filtering distributes over concatenation. */
  lemma {:induction false} WithoutIdOfConcat(a: seq<CartItem>, b: seq<CartItem>, id: int)
    ensures WithoutId(a + b, id) == WithoutId(a, id) + WithoutId(b, id)
  {
    if a == [] {
      assert a + b == b;
    } else {
      WithoutIdOfConcat(a[1..], b, id);
      assert (a + b)[0] == a[0] && (a + b)[1..] == a[1..] + b;
      if a[0].id != id {
        var x, y := WithoutId(a[1..], id), WithoutId(b, id);
        assert [a[0]] + (x + y) == ([a[0]] + x) + y;
      }
    }
  }

  /** With unique ids, removing the id of line k drops exactly that line and keeps the others in order. */
  lemma RemoveExisting(items: seq<CartItem>, k: nat)
    requires UniqueIds(items) && k < |items|
    ensures WithoutId(items, items[k].id) == items[..k] + items[k + 1..]
  {
    var id := items[k].id;
    assert WithoutId(items[..k], id) == items[..k] by {
      assert !HasId(items[..k], id);
      WithoutIdKeeps(items[..k], id);
    }
    assert WithoutId(items[k + 1..], id) == items[k + 1..] by {
      assert !HasId(items[k + 1..], id);
      WithoutIdKeeps(items[k + 1..], id);
    }
    assert WithoutId(items[k..], id) == WithoutId(items[k + 1..], id) by {
      assert items[k..][0] == items[k] && items[k..][1..] == items[k + 1..];
    }
    WithoutIdSplit(items, k, id);
  }

  lemma WithoutIdSplit(items: seq<CartItem>, k: nat, id: int)
    requires k <= |items|
    ensures WithoutId(items, id) == WithoutId(items[..k], id) + WithoutId(items[k..], id)
  {
    WithoutIdOfConcat(items[..k], items[k..], id);
    assert items[..k] + items[k..] == items;
  }

  /** Removing the id of line k lowers the item count by its quantity and the total by its subtotal. */
  lemma RemoveExistingTotals(items: seq<CartItem>, k: nat)
    requires UniqueIds(items) && k < |items|
    ensures ItemCountOf(WithoutId(items, items[k].id)) == ItemCountOf(items) - items[k].quantity
    ensures TotalPriceOf(WithoutId(items, items[k].id)) == TotalPriceOf(items) - Subtotal(items[k])
  {
    RemoveExisting(items, k);
    TotalsOfConcat(items[..k], items[k + 1..]);
    TotalsAt(items, k);
  }

  /** Deleting one line of a well-formed cart leaves it well formed. */
  lemma DeleteKeepsWellFormed(items: seq<CartItem>, k: nat)
    requires WellFormed(items) && k < |items|
    ensures WellFormed(items[..k] + items[k + 1..])
  {
    var r := items[..k] + items[k + 1..];
    assert forall i :: 0 <= i < |r| ==> r[i] == if i < k then items[i] else items[i + 1];
    forall i, j | 0 <= i < j < |r| ensures r[i].id != r[j].id {
      var i', j' := if i < k then i else i + 1, if j < k then j else j + 1;
      assert r[i] == items[i'] && r[j] == items[j'];
    }
  }

  /** `removeItem` keeps the cart well formed and leaves no line with that id. */
  lemma RemovePreservesWellFormed(items: seq<CartItem>, id: int)
    requires WellFormed(items)
    ensures WellFormed(WithoutId(items, id))
    ensures !HasId(WithoutId(items, id), id)
  {
    WithoutIdKeeps(items, id);
    if HasId(items, id) {
      var k :| 0 <= k < |items| && items[k].id == id;
      RemoveExisting(items, k);
      DeleteKeepsWellFormed(items, k);
    }
  }

  /** The filter keeps the remaining lines in their original order. */
  lemma {:induction false} WithoutIdIsSubsequence(items: seq<CartItem>, id: int)
    ensures IsSubsequence(WithoutId(items, id), items)
  {
    if items != [] {
      WithoutIdIsSubsequence(items[1..], id);
      var rest := WithoutId(items[1..], id);
      if items[0].id != id {
        var r := [items[0]] + rest;
        assert r[0] == items[0] && r[1..] == rest;
      } else {
        assert WithoutId(items, id) == rest;
      }
    }
  }

  /**
   * The cart store. `cartItems` is private to the class, so the invariant
   * `Valid()` that the constructor establishes holds before every call.
   */
  class CartService {
    var cartItems: seq<CartItem>

    /** At most one line per product id, and every quantity at least 1. */
    ghost predicate Valid()
      reads this
    {
      WellFormed(cartItems)
    }

    /** An empty cart. */
    constructor ()
      ensures Valid() && cartItems == []
      ensures ItemCount() == 0 && TotalPrice() == 0
    {
      cartItems := [];
    }

    /** The read-only `items` view. */
    function Items(): seq<CartItem>
      reads this
    {
      cartItems
    }

    /** `totalPrice()`: 0 for the empty cart, never negative while no price is. */
    function TotalPrice(): (r: int)
      reads this
      ensures cartItems == [] ==> r == 0
      ensures Valid() && (forall i :: 0 <= i < |cartItems| ==> cartItems[i].price >= 0) ==> r >= 0
    {
      TotalPriceNonNegative(cartItems);
      TotalPriceOf(cartItems)
    }

    /** `itemCount()`: 0 for the empty cart, otherwise at least the number of lines. */
    function ItemCount(): (r: int)
      reads this
      ensures cartItems == [] ==> r == 0
      ensures Valid() ==> r >= |cartItems|
    {
      ItemCountAtLeastLines(cartItems);
      ItemCountOf(cartItems)
    }

    /**
     * `addToCart(product)`: one more unit of the product. An id already in
     * the cart gets its line's quantity raised by 1 in place and nothing
     * else changes; a new id gets a snapshot line appended at the end.
     */
    method AddToCart(product: Product)
      requires Valid()
      modifies this
      ensures Valid()
      ensures cartItems == AddedTo(old(cartItems), product)
      ensures ItemCount() == old(ItemCount()) + 1
      ensures LineIds(cartItems) == LineIds(old(cartItems)) + {product.id}
      ensures HasId(old(cartItems), product.id) ==>
        |cartItems| == |old(cartItems)| &&
        (forall i :: 0 <= i < |cartItems| ==>
          cartItems[i] == if old(cartItems)[i].id == product.id
                          then old(cartItems)[i].(quantity := old(cartItems)[i].quantity + 1)
                          else old(cartItems)[i]) &&
        TotalPrice() == old(TotalPrice()) + FindById(old(cartItems), product.id).value.price
      ensures !HasId(old(cartItems), product.id) ==>
        cartItems == old(cartItems) + [Snapshot(product)] &&
        TotalPrice() == old(TotalPrice()) + product.price
    {
      ghost var before := cartItems;
      FindByIdSpec(before, product.id);
      AddToCartEffect(before, product);
      AddToCartIds(before, product);
      var existingItem := FindById(cartItems, product.id);
      if existingItem.Some? {
        ghost var k :| 0 <= k < |before| && before[k].id == product.id;
        AddExistingProduct(before, product, k);
        AddExistingTotals(before, product, k);
        cartItems := IncrementQuantity(cartItems, product.id);
      } else {
        AddNewProduct(before, product);
        cartItems := cartItems + [Snapshot(product)];
      }
    }

    /**
     * `removeItem(id)`: drops every line with that id and keeps the rest in
     * order; the totals fall by what the removed line contributed, and an id
     * not in the cart changes nothing.
     */
    method RemoveItem(id: int)
      requires Valid()
      modifies this
      ensures Valid()
      ensures cartItems == WithoutId(old(cartItems), id)
      ensures !HasId(cartItems, id)
      ensures forall line :: line in cartItems <==> line in old(cartItems) && line.id != id
      ensures IsSubsequence(cartItems, old(cartItems))
      ensures !HasId(old(cartItems), id) ==> cartItems == old(cartItems)
      ensures forall k :: 0 <= k < |old(cartItems)| && old(cartItems)[k].id == id ==>
        cartItems == old(cartItems)[..k] + old(cartItems)[k + 1..] &&
        ItemCount() == old(ItemCount()) - old(cartItems)[k].quantity &&
        TotalPrice() == old(TotalPrice()) - Subtotal(old(cartItems)[k])
    {
      ghost var before := cartItems;
      WithoutIdKeeps(before, id);
      WithoutIdIsSubsequence(before, id);
      RemovePreservesWellFormed(before, id);
      cartItems := WithoutId(cartItems, id);
      forall k | 0 <= k < |before| && before[k].id == id
        ensures cartItems == before[..k] + before[k + 1..]
        ensures ItemCount() == ItemCountOf(before) - before[k].quantity
        ensures TotalPrice() == TotalPriceOf(before) - Subtotal(before[k])
      {
        RemoveExisting(before, k);
        RemoveExistingTotals(before, k);
      }
    }

    /** `clearCart()`: the empty cart, whatever was in it. */
    method ClearCart()
      modifies this
      ensures Valid() && cartItems == []
      ensures ItemCount() == 0 && TotalPrice() == 0
    {
      cartItems := [];
    }
  }

  /**
   * The totals scenario of the service's tests, with prices in agorot:
   * two units at 15.50 and one at 29.90, then the first product removed.
   */
  method CheckoutTotalsScenario() {
    var cart := new CartService();
    var first := Product(1, 1, "מוצר ראשון", 1550, "111111111", "image1.jpg");
    var second := Product(2, 2, "מוצר שני", 2990, "222222222", "image2.jpg");
    cart.AddToCart(first);
    assert cart.cartItems == [Snapshot(first)];
    cart.AddToCart(second);
    assert cart.cartItems == [Snapshot(first), Snapshot(second)];
    assert cart.ItemCount() == 2 && cart.TotalPrice() == 4540;
    assert cart.cartItems[0].id == 1;
    cart.AddToCart(first);
    assert cart.ItemCount() == 3 && cart.TotalPrice() == 6090 && |cart.Items()| == 2;
    assert cart.cartItems[0].id == 1 && cart.cartItems[0].quantity == 2;
    assert cart.cartItems[1] == Snapshot(second);
    cart.RemoveItem(1);
    assert cart.ItemCount() == 1 && cart.TotalPrice() == 2990 && |cart.Items()| == 1;
    assert cart.Items()[0].id == 2;
  }
}

/**
 * The cart engine (src/context/CartContext.tsx): an ordered sequence of cart
 * items with merge-on-add, removal, exact quantity updates, clearing and two
 * aggregates. The updaters are pure functions over the sequence; `CartStore`
 * holds the state and calls them, as the provider calls `setCartItems`.
 */
module Cart {
  import opened Wrappers
  import opened Seqs
  import opened Types

  datatype CartItem = CartItem(
    id: Id,
    name: string,
    price: int,
    image: string,
    sellerUsername: string,
    sellerCountry: string,
    sellerState: string,
    quantity: int,
    addedAt: Timestamp)

  /** The argument of `addToCart`: a cart item without `quantity` and `addedAt`. */
  datatype CartProduct = CartProduct(
    id: Id,
    name: string,
    price: int,
    image: string,
    sellerUsername: string,
    sellerCountry: string,
    sellerState: string)

  function ItemId(item: CartItem): Id { item.id }

  predicate HasItem(items: seq<CartItem>, id: Id) {
    exists i :: 0 <= i < |items| && items[i].id == id
  }

  /** The cart invariant: one entry per product, and every quantity at least 1. */
  predicate WellFormed(items: seq<CartItem>) {
    && DistinctBy(items, ItemId)
    && forall i :: 0 <= i < |items| ==> items[i].quantity >= 1
  }

  function NewItem(product: CartProduct, now: Timestamp): CartItem {
    CartItem(product.id, product.name, product.price, product.image, product.sellerUsername,
             product.sellerCountry, product.sellerState, 1, now)
  }

  /** The `map` of `addToCart`'s merge branch. */
  function Increment(items: seq<CartItem>, id: Id): seq<CartItem> {
    seq(|items|, i requires 0 <= i < |items| =>
      if items[i].id == id then items[i].(quantity := items[i].quantity + 1) else items[i])
  }

  /** `addToCart`: merge into an existing entry, or append a new one with quantity 1. */
  function AddItem(items: seq<CartItem>, product: CartProduct, now: Timestamp): seq<CartItem> {
    if HasItem(items, product.id) then Increment(items, product.id)
    else items + [NewItem(product, now)]
  }

  /** `removeFromCart`. */
  function RemoveItem(items: seq<CartItem>, id: Id): seq<CartItem> {
    Filter(items, (item: CartItem) => item.id != id)
  }

  /** `updateQuantity`'s effect: a quantity of zero or less removes the entry; otherwise it is set exactly. */
  function WithQuantity(items: seq<CartItem>, id: Id, quantity: int): seq<CartItem> {
    if quantity <= 0 then RemoveItem(items, id)
    else
      seq(|items|, i requires 0 <= i < |items| =>
        if items[i].id == id then items[i].(quantity := quantity) else items[i])
  }

  /** `reduce((total, item) => total + f(item), 0)`. */
  function Sum(items: seq<CartItem>, f: CartItem -> int): int {
    if items == [] then 0 else f(items[0]) + Sum(items[1..], f)
  }

  function LineQuantity(item: CartItem): int { item.quantity }

  function LineTotal(item: CartItem): int { item.price * item.quantity }

  /** `getTotalItems`. */
  function TotalItems(items: seq<CartItem>): int { Sum(items, LineQuantity) }

  /** `getTotalPrice`, in cents. */
  function TotalPrice(items: seq<CartItem>): int { Sum(items, LineTotal) }

  // ---------------------------------------------------------------------------
  // Sums

  lemma {:induction false} SumAppend(s: seq<CartItem>, t: seq<CartItem>, f: CartItem -> int)
    ensures Sum(s + t, f) == Sum(s, f) + Sum(t, f)
  {
    if s == [] {
      assert s + t == t;
    } else {
      assert (s + t)[1..] == s[1..] + t;
      SumAppend(s[1..], t, f);
    }
  }

  /** Replacing one entry changes a sum by the difference of the two entries. */
  lemma {:induction false} SumReplace(s: seq<CartItem>, k: nat, x: CartItem, f: CartItem -> int)
    requires k < |s|
    ensures Sum(s[k := x], f) == Sum(s, f) - f(s[k]) + f(x)
  {
    if k > 0 {
      assert s[k := x][1..] == s[1..][k - 1 := x];
      SumReplace(s[1..], k - 1, x, f);
    }
  }

  // ---------------------------------------------------------------------------
  // addToCart

  /** With the product already present, only that entry changes: its quantity rises by exactly 1. */
  lemma AddExistingBumpsOne(items: seq<CartItem>, product: CartProduct, now: Timestamp, k: nat)
    requires WellFormed(items)
    requires k < |items| && items[k].id == product.id
    ensures AddItem(items, product, now) == items[k := items[k].(quantity := items[k].quantity + 1)]
  {
  }

  /** With the product absent, one new entry with quantity 1 is appended and earlier entries stay. */
  lemma AddAbsentAppends(items: seq<CartItem>, product: CartProduct, now: Timestamp)
    requires !HasItem(items, product.id)
    ensures var r := AddItem(items, product, now);
      && |r| == |items| + 1 && r[..|items|] == items
      && r[|items|] == NewItem(product, now)
      && r[|items|].id == product.id && r[|items|].quantity == 1 && r[|items|].addedAt == now
  {
  }

  /** `addToCart` called once per time stamp in `stamps`. */
  function AddRepeatedly(items: seq<CartItem>, product: CartProduct, stamps: seq<Timestamp>): seq<CartItem>
    decreases |stamps|
  {
    if stamps == [] then items
    else AddRepeatedly(AddItem(items, product, stamps[0]), product, stamps[1..])
  }

  /** Adding to a cart whose last entry is the product keeps bumping that entry. */
  lemma {:induction false} AddRepeatedlyToLast(
    items: seq<CartItem>, last: CartItem, product: CartProduct, stamps: seq<Timestamp>)
    requires !HasItem(items, product.id) && last.id == product.id
    ensures AddRepeatedly(items + [last], product, stamps)
         == items + [last.(quantity := last.quantity + |stamps|)]
    decreases |stamps|
  {
    if stamps != [] {
      var c := items + [last];
      assert HasItem(c, product.id) by { assert c[|items|].id == product.id; }
      var bumped := last.(quantity := last.quantity + 1);
      assert AddItem(c, product, stamps[0]) == items + [bumped];
      AddRepeatedlyToLast(items, bumped, product, stamps[1..]);
    }
  }

  /**
   * n consecutive additions of a product the cart lacks leave exactly one entry
   * for it, appended at the end, with quantity n and the first call's time stamp.
   */
  lemma AddRepeatedlyCounts(items: seq<CartItem>, product: CartProduct, stamps: seq<Timestamp>)
    requires !HasItem(items, product.id) && |stamps| >= 1
    ensures AddRepeatedly(items, product, stamps)
         == items + [NewItem(product, stamps[0]).(quantity := |stamps|)]
  {
    AddRepeatedlyToLast(items, NewItem(product, stamps[0]), product, stamps[1..]);
  }

  /** Every `addToCart` raises the total item count by exactly 1. */
  lemma AddRaisesTotalItems(items: seq<CartItem>, product: CartProduct, now: Timestamp)
    requires WellFormed(items)
    ensures TotalItems(AddItem(items, product, now)) == TotalItems(items) + 1
  {
    if HasItem(items, product.id) {
      var k :| 0 <= k < |items| && items[k].id == product.id;
      AddExistingBumpsOne(items, product, now, k);
      SumReplace(items, k, items[k].(quantity := items[k].quantity + 1), LineQuantity);
    } else {
      SumAppend(items, [NewItem(product, now)], LineQuantity);
    }
  }

  /**
   * `addToCart` raises the total price by one unit price: the stored entry's
   * price when merging (the argument's price is ignored), the argument's otherwise.
   */
  lemma AddRaisesTotalPrice(items: seq<CartItem>, product: CartProduct, now: Timestamp)
    requires WellFormed(items)
    ensures HasItem(items, product.id) ==>
      exists k :: 0 <= k < |items| && items[k].id == product.id
        && TotalPrice(AddItem(items, product, now)) == TotalPrice(items) + items[k].price
    ensures !HasItem(items, product.id) ==>
      TotalPrice(AddItem(items, product, now)) == TotalPrice(items) + product.price
  {
    if HasItem(items, product.id) {
      var k :| 0 <= k < |items| && items[k].id == product.id;
      AddExistingBumpsOne(items, product, now, k);
      var x := items[k].(quantity := items[k].quantity + 1);
      SumReplace(items, k, x, LineTotal);
      assert LineTotal(x) == LineTotal(items[k]) + items[k].price;
    } else {
      SumAppend(items, [NewItem(product, now)], LineTotal);
    }
  }

  lemma AddKeepsWellFormed(items: seq<CartItem>, product: CartProduct, now: Timestamp)
    requires WellFormed(items)
    ensures WellFormed(AddItem(items, product, now))
  {
  }

  // ---------------------------------------------------------------------------
  // removeFromCart

  /**
   * Removal drops every entry for the id and keeps every other entry, as an
   * order-preserving subsequence; an absent id leaves the cart unchanged.
   */
  lemma RemoveDropsExactly(items: seq<CartItem>, id: Id)
    ensures !HasItem(RemoveItem(items, id), id)
    ensures forall i :: 0 <= i < |items| && items[i].id != id ==> items[i] in RemoveItem(items, id)
    ensures IsSubsequence(RemoveItem(items, id), items)
    ensures !HasItem(items, id) ==> RemoveItem(items, id) == items
  {
    var keep := (item: CartItem) => item.id != id;
    FilterIsSubsequence(items, keep);
    if !HasItem(items, id) {
      FilterKeepsAll(items, keep);
    }
  }

  lemma RemoveKeepsWellFormed(items: seq<CartItem>, id: Id)
    requires WellFormed(items)
    ensures WellFormed(RemoveItem(items, id))
  {
    FilterKeepsDistinct(items, (item: CartItem) => item.id != id, ItemId);
  }

  // ---------------------------------------------------------------------------
  // updateQuantity

  /** A positive quantity is stored exactly on the entry with that id; nothing else changes. */
  lemma UpdateSetsExactly(items: seq<CartItem>, id: Id, quantity: int, k: nat)
    requires WellFormed(items) && quantity > 0
    requires k < |items| && items[k].id == id
    ensures WithQuantity(items, id, quantity) == items[k := items[k].(quantity := quantity)]
  {
  }

  /** Updating the quantity of an absent id changes nothing, whatever the quantity. */
  lemma UpdateAbsentIsNoOp(items: seq<CartItem>, id: Id, quantity: int)
    requires !HasItem(items, id)
    ensures WithQuantity(items, id, quantity) == items
  {
    if quantity <= 0 {
      RemoveDropsExactly(items, id);
    }
  }

  /** Setting a quantity changes the total item count by the difference. */
  lemma UpdateChangesTotalItems(items: seq<CartItem>, id: Id, quantity: int, k: nat)
    requires WellFormed(items) && quantity > 0
    requires k < |items| && items[k].id == id
    ensures TotalItems(WithQuantity(items, id, quantity)) == TotalItems(items) - items[k].quantity + quantity
  {
    UpdateSetsExactly(items, id, quantity, k);
    SumReplace(items, k, items[k].(quantity := quantity), LineQuantity);
  }

  lemma UpdateKeepsWellFormed(items: seq<CartItem>, id: Id, quantity: int)
    requires WellFormed(items)
    ensures WellFormed(WithQuantity(items, id, quantity))
  {
    if quantity <= 0 {
      RemoveKeepsWellFormed(items, id);
    } else {
      var r := WithQuantity(items, id, quantity);
      assert forall i :: 0 <= i < |r| ==> ItemId(r[i]) == ItemId(items[i]);
    }
  }

  // ---------------------------------------------------------------------------
  // Aggregates

  /** On a well-formed cart the item count is at least the number of entries. */
  lemma {:induction false} TotalItemsAtLeastEntries(items: seq<CartItem>)
    requires forall i :: 0 <= i < |items| ==> items[i].quantity >= 1
    ensures TotalItems(items) >= |items|
    ensures items != [] ==> TotalItems(items) >= items[0].quantity
  {
    if items != [] {
      TotalItemsAtLeastEntries(items[1..]);
    }
  }

  /** The empty cart has no items and costs nothing. */
  lemma EmptyCartTotals()
    ensures TotalItems([]) == 0 && TotalPrice([]) == 0 && WellFormed([])
  {
  }

  // ---------------------------------------------------------------------------
  // The provider's state

  /** The cart provider: the `cartItems` state and its copy under the cart storage key. */
  class CartStore {
    var cartItems: seq<CartItem>
    /** The serialized cart under the cart key; `None` when the key is absent. */
    var stored: Option<seq<CartItem>>

    constructor (stored: Option<seq<CartItem>>)
      ensures cartItems == [] && this.stored == stored
    {
      cartItems := [];
      this.stored := stored;
    }

    /** The mount effect: adopt the stored cart if there is one; a failed read is only logged. */
    method LoadCart(failAt: FailAt)
      modifies this`cartItems
      ensures cartItems == if failAt > 0 && stored.Some? then stored.value else old(cartItems)
    {
      if failAt > 0 && stored.Some? {
        cartItems := stored.value;
      }
    }

    /** The save effect that runs after every change; a failed write is only logged. */
    method SaveCart(failAt: FailAt)
      modifies this`stored
      ensures stored == if failAt > 0 then Some(cartItems) else old(stored)
    {
      if failAt > 0 {
        stored := Some(cartItems);
      }
    }

    method AddToCart(product: CartProduct, now: Timestamp)
      modifies this`cartItems
      ensures cartItems == AddItem(old(cartItems), product, now)
      ensures old(WellFormed(cartItems)) ==> WellFormed(cartItems)
      ensures old(WellFormed(cartItems)) ==> TotalItems(cartItems) == old(TotalItems(cartItems)) + 1
    {
      if old(WellFormed(cartItems)) {
        AddKeepsWellFormed(cartItems, product, now);
        AddRaisesTotalItems(cartItems, product, now);
      }
      cartItems := AddItem(cartItems, product, now);
    }

    method RemoveFromCart(productId: Id)
      modifies this`cartItems
      ensures cartItems == RemoveItem(old(cartItems), productId)
      ensures !HasItem(cartItems, productId)
      ensures old(WellFormed(cartItems)) ==> WellFormed(cartItems)
    {
      if WellFormed(cartItems) {
        RemoveKeepsWellFormed(cartItems, productId);
      }
      RemoveDropsExactly(cartItems, productId);
      cartItems := RemoveItem(cartItems, productId);
    }

    method UpdateQuantity(productId: Id, quantity: int)
      modifies this`cartItems
      ensures cartItems == WithQuantity(old(cartItems), productId, quantity)
      ensures quantity <= 0 ==> cartItems == RemoveItem(old(cartItems), productId)
      ensures old(WellFormed(cartItems)) ==> WellFormed(cartItems)
    {
      if quantity <= 0 {
        RemoveFromCart(productId);
        return;
      }
      if WellFormed(cartItems) {
        UpdateKeepsWellFormed(cartItems, productId, quantity);
      }
      cartItems := WithQuantity(cartItems, productId, quantity);
    }

    method ClearCart()
      modifies this`cartItems
      ensures cartItems == [] && WellFormed(cartItems)
      ensures TotalItems(cartItems) == 0 && TotalPrice(cartItems) == 0
    {
      cartItems := [];
    }

    method GetTotalPrice() returns (total: int)
      ensures total == TotalPrice(cartItems)
    {
      total := TotalPrice(cartItems);
    }

    method GetTotalItems() returns (count: int)
      ensures count == TotalItems(cartItems)
      ensures WellFormed(cartItems) ==> count >= |cartItems|
    {
      if WellFormed(cartItems) {
        TotalItemsAtLeastEntries(cartItems);
      }
      count := TotalItems(cartItems);
    }
  }
}

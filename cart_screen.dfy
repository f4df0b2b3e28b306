/**
 * The cart screen (src/screens/CartScreen.tsx): the quantity buttons, the
 * confirmation dialogs in front of removal and clearing, and the header.
 */
module CartScreen {
  import opened Types
  import opened Cart

  /** Where `handleQuantityChange` sends a new quantity. */
  datatype QuantityAction = ConfirmRemoval(id: Id) | SetQuantity(id: Id, quantity: int)

  /** `handleQuantityChange`: below 1 the removal dialog opens; otherwise the quantity is stored as given. */
  function QuantityChange(productId: Id, newQuantity: int): (action: QuantityAction)
    ensures action.id == productId
    ensures action.ConfirmRemoval? <==> newQuantity < 1
    ensures action.SetQuantity? ==> action.quantity == newQuantity && action.quantity >= 1
  {
    if newQuantity < 1 then ConfirmRemoval(productId) else SetQuantity(productId, newQuantity)
  }

  /** The minus button of a row. */
  function MinusPress(item: CartItem): QuantityAction {
    QuantityChange(item.id, item.quantity - 1)
  }

  /** The plus button of a row. */
  function PlusPress(item: CartItem): QuantityAction {
    QuantityChange(item.id, item.quantity + 1)
  }

  /**
   * On a well-formed cart, minus on quantity 1 asks for removal instead of
   * storing 0, minus otherwise lowers the count by one, and plus raises it by
   * exactly one; the cart stays well-formed either way.
   */
  lemma QuantityButtons(items: seq<CartItem>, k: nat)
    requires WellFormed(items) && k < |items|
    ensures MinusPress(items[k]).ConfirmRemoval? <==> items[k].quantity == 1
    ensures MinusPress(items[k]).SetQuantity? ==>
      var updated := WithQuantity(items, items[k].id, MinusPress(items[k]).quantity);
      && updated == items[k := items[k].(quantity := items[k].quantity - 1)]
      && TotalItems(updated) == TotalItems(items) - 1 && WellFormed(updated)
    ensures var updated := WithQuantity(items, items[k].id, PlusPress(items[k]).quantity);
      && updated == items[k := items[k].(quantity := items[k].quantity + 1)]
      && TotalItems(updated) == TotalItems(items) + 1 && WellFormed(updated)
  {
    var item := items[k];
    if item.quantity > 1 {
      UpdateSetsExactly(items, item.id, item.quantity - 1, k);
      UpdateChangesTotalItems(items, item.id, item.quantity - 1, k);
      UpdateKeepsWellFormed(items, item.id, item.quantity - 1);
    }
    UpdateSetsExactly(items, item.id, item.quantity + 1, k);
    UpdateChangesTotalItems(items, item.id, item.quantity + 1, k);
    UpdateKeepsWellFormed(items, item.id, item.quantity + 1);
  }

  /** `handleQuantityChange` with the dialog's answer: removal happens only when confirmed. */
  method HandleQuantityChange(cart: CartStore, productId: Id, newQuantity: int, confirmed: bool)
    modifies cart`cartItems
    ensures newQuantity < 1 && !confirmed ==> cart.cartItems == old(cart.cartItems)
    ensures newQuantity < 1 && confirmed ==> cart.cartItems == RemoveItem(old(cart.cartItems), productId)
    ensures newQuantity >= 1 ==> cart.cartItems == WithQuantity(old(cart.cartItems), productId, newQuantity)
    ensures old(WellFormed(cart.cartItems)) ==> WellFormed(cart.cartItems)
  {
    var action := QuantityChange(productId, newQuantity);
    match action
    case ConfirmRemoval(id) =>
      HandleRemoveFromCart(cart, id, confirmed);
    case SetQuantity(id, quantity) =>
      cart.UpdateQuantity(id, quantity);
  }

  /** `handleRemoveFromCart`: the entry goes only through the dialog's "Remover" action. */
  method HandleRemoveFromCart(cart: CartStore, productId: Id, confirmed: bool)
    modifies cart`cartItems
    ensures !confirmed ==> cart.cartItems == old(cart.cartItems)
    ensures confirmed ==> cart.cartItems == RemoveItem(old(cart.cartItems), productId)
    ensures old(WellFormed(cart.cartItems)) ==> WellFormed(cart.cartItems)
  {
    if confirmed {
      cart.RemoveFromCart(productId);
    }
  }

  /** `handleClearCart`: the cart is emptied only through the dialog's "Vaciar" action. */
  method HandleClearCart(cart: CartStore, confirmed: bool)
    modifies cart`cartItems
    ensures cart.cartItems == if confirmed then [] else old(cart.cartItems)
  {
    if confirmed {
      cart.ClearCart();
    }
  }

  /** The empty view replaces the list exactly when there are no entries. */
  predicate EmptyViewShown(items: seq<CartItem>) {
    |items| == 0
  }

  /** The header's noun, from `getTotalItems()`. */
  function HeaderNoun(totalItems: int): string {
    if totalItems == 1 then "producto" else "productos"
  }

  /** On a well-formed cart the header is singular exactly when the cart holds one unit of one product. */
  lemma HeaderSingularIffOneUnit(items: seq<CartItem>)
    requires WellFormed(items)
    ensures HeaderNoun(TotalItems(items)) == "producto" <==> |items| == 1 && items[0].quantity == 1
    ensures EmptyViewShown(items) <==> TotalItems(items) == 0
  {
    TotalItemsAtLeastEntries(items);
    if |items| >= 1 {
      assert TotalItems(items) == items[0].quantity + TotalItems(items[1..]);
      TotalItemsAtLeastEntries(items[1..]);
    }
  }
}

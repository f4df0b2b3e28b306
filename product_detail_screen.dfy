/**
 * The product page (src/screens/ProductDetailScreen.tsx): the product shown is
 * looked up by the route's id, and "buy" adds it to the cart after the session
 * and confirmation guards. The purchase ledger is never written here.
 */
module ProductDetailScreen {
  import opened Wrappers
  import opened Types
  import opened Catalog
  import opened Cart
  import opened ProductListScreen

  datatype BuyOutcome = LoginRequired | NoProduct | Declined | AddedToCart

  class DetailView {
    /** The route parameter. */
    const productId: Id
    var product: Option<Product>

    constructor (productId: Id)
      ensures this.productId == productId && product == None
    {
      this.productId := productId;
      product := None;
    }

    /** The lookup effect: the first product with the route's id, or none. */
    method Refresh(products: seq<Product>)
      modifies this`product
      ensures product == FindById(products, productId)
      ensures product.None? <==> !HasProduct(products, productId)
      ensures product.Some? ==> product.value.id == productId && product.value in products
    {
      product := FindById(products, productId);
    }

    /** Without a product, the loading view replaces the page. */
    predicate LoadingShown() reads this { product.None? }

    /**
     * `handleBuy`: no session raises the sign-in alert, no product does
     * nothing, and only the confirm action adds the product to the cart,
     * through the cart's merge-on-add rule.
     */
    method HandleBuy(cart: CartStore, session: Option<User>, confirmed: bool,
                     now: Timestamp)
      returns (outcome: BuyOutcome)
      modifies cart`cartItems
      ensures session.None? ==> outcome == LoginRequired && cart.cartItems == old(cart.cartItems)
      ensures session.Some? && product.None? ==> outcome == NoProduct && cart.cartItems == old(cart.cartItems)
      ensures session.Some? && product.Some? && !confirmed ==>
        outcome == Declined && cart.cartItems == old(cart.cartItems)
      ensures session.Some? && product.Some? && confirmed ==>
        && outcome == AddedToCart
        && cart.cartItems == AddItem(old(cart.cartItems), CartProductOf(product.value), now)
        && (old(WellFormed(cart.cartItems)) ==> TotalItems(cart.cartItems) == old(TotalItems(cart.cartItems)) + 1)
    {
      if session.None? {
        return LoginRequired;
      }
      if product.None? {
        return NoProduct;
      }
      if !confirmed {
        return Declined;
      }
      cart.AddToCart(CartProductOf(product.value), now);
      outcome := AddedToCart;
    }
  }
}

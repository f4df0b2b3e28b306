/**
 * The catalog browser (src/screens/ProductListScreen.tsx): a name search and a
 * seller-state filter over the published products, and the projection of a
 * product into the cart's input shape.
 */
module ProductListScreen {
  import opened Seqs
  import opened Text
  import opened Types
  import opened Cart

  /** `name.toLowerCase().includes(searchQuery.toLowerCase())`. */
  predicate MatchesSearch(p: Product, query: string) {
    Includes(Lower(p.name), Lower(query))
  }

  /** `!selectedState || sellerState === selectedState`: the empty selection means every state. */
  predicate MatchesState(p: Product, state: string) {
    state == [] || p.sellerState == state
  }

  predicate Listed(p: Product, query: string, state: string) {
    MatchesSearch(p, query) && MatchesState(p, state)
  }

  /** `filteredProducts`: the products that match both the search and the state filter. */
  function FilteredProducts(products: seq<Product>, query: string, state: string): (r: seq<Product>)
    ensures forall i :: 0 <= i < |r| ==> r[i] in products && Listed(r[i], query, state)
    ensures forall i :: 0 <= i < |products| && Listed(products[i], query, state) ==> products[i] in r
  {
    Filter(products, (p: Product) => Listed(p, query, state))
  }

  /** With no search text and no state selected — also what "Limpiar filtros" restores — every product is listed, in storage order. */
  lemma NoFilterListsAll(products: seq<Product>)
    ensures FilteredProducts(products, [], []) == products
  {
    forall p | p in products
      ensures Listed(p, [], [])
    {
      assert Lower([]) == [];
      IncludesEmpty(Lower(p.name));
    }
    FilterKeepsAll(products, (p: Product) => Listed(p, [], []));
  }

  /** The list is an order-preserving subsequence of the catalog. */
  lemma FilteredIsSubsequence(products: seq<Product>, query: string, state: string)
    ensures IsSubsequence(FilteredProducts(products, query, state), products)
  {
    FilterIsSubsequence(products, (p: Product) => Listed(p, query, state));
  }

  /**
   * The search ignores letter case on both sides, while the state match is
   * exact: a product is listed under a state only if its `sellerState` is
   * that very string.
   */
  lemma SearchIgnoresCase(p: Product, query: string, state: string)
    ensures Listed(p, Lower(query), state) <==> Listed(p, query, state)
    ensures Listed(p.(name := Lower(p.name)), query, state) <==> Listed(p, query, state)
    ensures state != [] && Listed(p, query, state) ==> p.sellerState == state
  {
    LowerIdempotent(query);
    LowerIdempotent(p.name);
  }

  /** Both filters together list no more than either filter alone, in the same order. */
  lemma CombinedFilterWithinEach(products: seq<Product>, query: string, state: string)
    ensures IsSubsequence(FilteredProducts(products, query, state), FilteredProducts(products, query, []))
    ensures IsSubsequence(FilteredProducts(products, query, state), FilteredProducts(products, [], state))
  {
    StrongerFilterIsSubsequence(products, (p: Product) => Listed(p, query, state), (p: Product) => Listed(p, query, []));
    forall p: Product
      ensures Listed(p, query, state) ==> Listed(p, [], state)
    {
      assert Lower([]) == [];
      IncludesEmpty(Lower(p.name));
    }
    StrongerFilterIsSubsequence(products, (p: Product) => Listed(p, query, state), (p: Product) => Listed(p, [], state));
  }

  /** The seven fields `handleAddToCart` passes on. */
  function CartProductOf(p: Product): CartProduct {
    CartProduct(p.id, p.name, p.price, p.image, p.sellerUsername, p.sellerCountry, p.sellerState)
  }

  /** `handleAddToCart`: the cart merges or appends the projected product. */
  method HandleAddToCart(cart: CartStore, p: Product, now: Timestamp)
    modifies cart`cartItems
    ensures cart.cartItems == AddItem(old(cart.cartItems), CartProductOf(p), now)
    ensures old(WellFormed(cart.cartItems)) ==>
      (WellFormed(cart.cartItems) && TotalItems(cart.cartItems) == old(TotalItems(cart.cartItems)) + 1)
  {
    cart.AddToCart(CartProductOf(p), now);
  }
}

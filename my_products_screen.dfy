/**
 * The seller dashboard (src/screens/MyProductsScreen.tsx): the seller's own
 * listings, the sale-notification badge and the confirmed delete.
 */
module MyProductsScreen {
  import opened Wrappers
  import opened Seqs
  import opened Text
  import opened Types
  import opened Catalog
  import opened Purchases
  import opened ProductContext

  /** `products.filter(p => p.sellerId === user?.id)`: nothing without a session. */
  function MyProducts(products: seq<Product>, session: Option<User>): seq<Product> {
    if session.None? then []
    else Filter(products, (p: Product) => p.sellerId == session.value.id)
  }

  /** Exactly the session user's listings, in storage order. */
  lemma MyProductsExact(products: seq<Product>, user: User)
    ensures var mine := MyProducts(products, Some(user));
      && (forall i :: 0 <= i < |mine| ==> mine[i].sellerId == user.id && mine[i] in products)
      && (forall i :: 0 <= i < |products| && products[i].sellerId == user.id ==> products[i] in mine)
      && IsSubsequence(mine, products)
  {
    FilterIsSubsequence(products, (p: Product) => p.sellerId == user.id);
  }

  /** The header's publish button is shown iff the seller has listings; the empty state's iff not. */
  predicate HeaderPublishShown(mine: seq<Product>) { |mine| > 0 }

  predicate EmptyStateShown(mine: seq<Product>) { |mine| == 0 }

  /** Exactly one publish button appears, and the empty state means the catalog holds nothing of this seller. */
  lemma OnePublishButton(products: seq<Product>, user: User)
    ensures HeaderPublishShown(MyProducts(products, Some(user))) != EmptyStateShown(MyProducts(products, Some(user)))
    ensures EmptyStateShown(MyProducts(products, Some(user))) <==>
      forall i :: 0 <= i < |products| ==> products[i].sellerId != user.id
  {
    var mine := MyProducts(products, Some(user));
    if !EmptyStateShown(mine) {
      assert mine[0] in products;
    }
  }

  /** The number a string of decimal digits denotes, read left to right. */
  function DigitValue(s: string): nat
    requires AllDigits(s)
  {
    if |s| == 0 then 0
    else DigitValue(s[..|s| - 1]) * 10 + (s[|s| - 1] as int - '0' as int)
  }

  /** The decimal rendering of a count (`String(n)`): its digits denote n, with no leading zero. */
  function DecimalDigits(n: nat): (s: string)
    ensures |s| >= 1 && AllDigits(s)
    ensures DigitValue(s) == n
    ensures s[0] == '0' ==> n == 0
    ensures n < 10 ==> |s| == 1
    ensures n < 100 ==> |s| <= 2
  {
    var last := ['0' + (n % 10) as char];
    if n < 10 then last
    else
      var r := DecimalDigits(n / 10) + last;
      assert r[..|r| - 1] == DecimalDigits(n / 10);
      r
  }

  const BadgeCap := "99+"

  /** The badge over the bell: hidden at zero, the count up to 99, then "99+". */
  function BadgeLabel(count: nat): (badge: Option<string>)
    ensures badge.Some? <==> count > 0
    ensures count > 0 ==> (badge.value == BadgeCap <==> count > 99)
    ensures 0 < count <= 99 ==> AllDigits(badge.value) && 1 <= |badge.value| <= 2 && DigitValue(badge.value) == count
  {
    if count > 0 then Some(if count > 99 then BadgeCap else DecimalDigits(count)) else None
  }

  /** The badge counts exactly the session seller's purchases. */
  lemma BadgeCountsSellerPurchases(purchases: seq<Purchase>, user: User)
    ensures BadgeLabel(|SellerPurchases(purchases, Some(user))|).Some? <==>
      exists i :: 0 <= i < |purchases| && purchases[i].sellerId == user.id
  {
    SellerPurchasesExact(purchases, user);
    var view := SellerPurchases(purchases, Some(user));
    if |view| > 0 {
      var i :| 0 <= i < |purchases| && purchases[i] == view[0];
    }
  }

  /** `handleDeleteProduct`: only the alert's "Eliminar" action deletes, and it deletes that card's id. */
  method HandleDeleteProduct(store: ProductStore, productId: Id, confirmed: bool, failAt: FailAt)
    returns (completion: Option<Completion>)
    modifies store
    ensures !confirmed ==> completion == None && unchanged(store)
    ensures confirmed && failAt >= 2 ==>
      completion == Some(Resolved) && store.products == DeleteListing(old(store.StoredProducts()), productId)
      && !HasProduct(store.products, productId)
    ensures confirmed && failAt < 2 ==>
      completion == Some(Rejected) && store.products == old(store.products) && store.stored == old(store.stored)
  {
    if !confirmed {
      return None;
    }
    var c := store.DeleteProduct(productId, failAt);
    completion := Some(c);
  }
}

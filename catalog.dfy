/**
 * The pure transformations of the product collection shared by the catalog
 * provider (src/context/ProductContext.tsx) and the catalog hook
 * (src/hooks/useProducts.ts): stamping a new listing, the `map` of
 * `updateProduct`, the `filter` of `deleteProduct`, and the `find` by id the
 * screens use.
 */
module Catalog {
  import opened Wrappers
  import opened Seqs
  import opened Types

  predicate HasProduct(products: seq<Product>, id: Id) {
    exists i :: 0 <= i < |products| && products[i].id == id
  }

  predicate UniqueIds(products: seq<Product>) {
    DistinctBy(products, ProductId)
  }

  /**
   * The product `addProduct` builds: the arguments, plus seller fields copied
   * from the session user. The provider copies the phone; the hook does not.
   */
  function NewListing(seller: User, id: Id, name: string, price: int, description: string, image: string,
                      createdAt: Timestamp, withPhone: bool): Product
  {
    Product(id, name, price, description, image, seller.id, seller.username,
            if withPhone then Some(seller.phone) else None, seller.country, seller.state, createdAt)
  }

  /** `updateProduct`'s `map`: the four editable fields of every entry with the id are replaced. */
  function UpdateListing(products: seq<Product>, id: Id, name: string, price: int, description: string,
                         image: string): seq<Product>
  {
    seq(|products|, i requires 0 <= i < |products| =>
      if products[i].id == id
      then products[i].(name := name, price := price, description := description, image := image)
      else products[i])
  }

  /** `deleteProduct`'s `filter`. */
  function DeleteListing(products: seq<Product>, id: Id): seq<Product> {
    Filter(products, (p: Product) => p.id != id)
  }

  /** `products.find(p => p.id === id)`: the first entry with the id, if any. */
  function FindById(products: seq<Product>, id: Id): (r: Option<Product>)
    ensures r.None? <==> !HasProduct(products, id)
    ensures r.Some? ==> exists k :: 0 <= k < |products| && products[k] == r.value && r.value.id == id
                          && forall j :: 0 <= j < k ==> products[j].id != id
  {
    if products == [] then None
    else if products[0].id == id then Some(products[0])
    else
      var r := FindById(products[1..], id);
      if r.Some? then
        var k :| 0 <= k < |products[1..]| && products[1..][k] == r.value && r.value.id == id
                 && forall j :: 0 <= j < k ==> products[1..][j].id != id;
        assert products[k + 1] == r.value;
        assert forall j :: 1 <= j < k + 1 ==> products[j] == products[1..][j - 1];
        r
      else
        assert !HasProduct(products[1..], id);
        assert forall i :: 1 <= i < |products| ==> products[i] == products[1..][i - 1];
        r
  }

  /** A new listing under a fresh id keeps ids unique, and earlier entries stay in place. */
  lemma AppendFreshKeepsUnique(products: seq<Product>, listing: Product)
    requires UniqueIds(products) && !HasProduct(products, listing.id)
    ensures UniqueIds(products + [listing])
    ensures (products + [listing])[..|products|] == products
  {
  }

  /**
   * `updateProduct` rewrites name, price, description and image of the
   * matching entries only; ids, seller fields, creation time, length and
   * order are kept, and an absent id leaves the collection as it was.
   */
  lemma UpdateRewritesContentOnly(products: seq<Product>, id: Id, name: string, price: int,
                                  description: string, image: string)
    ensures var r := UpdateListing(products, id, name, price, description, image);
      && |r| == |products|
      && (forall i :: 0 <= i < |r| ==>
            && r[i].id == products[i].id && r[i].createdAt == products[i].createdAt
            && r[i].sellerId == products[i].sellerId && r[i].sellerUsername == products[i].sellerUsername
            && r[i].sellerPhone == products[i].sellerPhone && r[i].sellerCountry == products[i].sellerCountry
            && r[i].sellerState == products[i].sellerState)
      && (forall i :: 0 <= i < |r| && products[i].id == id ==>
            r[i].name == name && r[i].price == price && r[i].description == description && r[i].image == image)
      && (forall i :: 0 <= i < |r| && products[i].id != id ==> r[i] == products[i])
    ensures !HasProduct(products, id) ==> UpdateListing(products, id, name, price, description, image) == products
  {
  }

  lemma UpdateKeepsUnique(products: seq<Product>, id: Id, name: string, price: int, description: string,
                          image: string)
    requires UniqueIds(products)
    ensures UniqueIds(UpdateListing(products, id, name, price, description, image))
  {
  }

  /**
   * After `deleteProduct` no entry has the id, every other entry is kept in
   * its relative order, and an absent id is a no-op.
   */
  lemma DeleteDropsExactly(products: seq<Product>, id: Id)
    ensures !HasProduct(DeleteListing(products, id), id)
    ensures forall i :: 0 <= i < |products| && products[i].id != id ==> products[i] in DeleteListing(products, id)
    ensures IsSubsequence(DeleteListing(products, id), products)
    ensures !HasProduct(products, id) ==> DeleteListing(products, id) == products
  {
    var keep := (p: Product) => p.id != id;
    FilterIsSubsequence(products, keep);
    if !HasProduct(products, id) {
      FilterKeepsAll(products, keep);
    }
  }

  lemma DeleteKeepsUnique(products: seq<Product>, id: Id)
    requires UniqueIds(products)
    ensures UniqueIds(DeleteListing(products, id))
  {
    FilterKeepsDistinct(products, (p: Product) => p.id != id, ProductId);
  }
}

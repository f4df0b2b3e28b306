/**
 * The catalog provider (src/context/ProductContext.tsx). Every mutation reads
 * the stored collection, transforms it, writes it back and only then publishes
 * it as `products`. A failure sets `error` and rejects the promise; `products`
 * keeps its previous value because publication comes after the write.
 */
module ProductContext {
  import opened Wrappers
  import opened Types
  import opened Catalog

  const LoadError := "Error al cargar productos"
  const AddError := "Error al crear producto"
  const UpdateError := "Error al actualizar producto"
  const DeleteError := "Error al eliminar producto"

  class ProductStore {
    /** The published snapshot. */
    var products: seq<Product>
    var loading: bool
    var error: Option<string>
    /** The collection under the `products` storage key; `None` when the key is absent. */
    var stored: Option<seq<Product>>

    constructor (stored: Option<seq<Product>>)
      ensures products == [] && !loading && error == None && this.stored == stored
    {
      products := [];
      loading := false;
      error := None;
      this.stored := stored;
    }

    /** `currentProducts ? JSON.parse(currentProducts) : []`. */
    function StoredProducts(): seq<Product>
      reads this
    {
      stored.GetOr([])
    }

    /** One read (storage call 0). */
    method LoadProducts(failAt: FailAt)
      modifies this`products, this`loading, this`error
      ensures !loading
      ensures failAt > 0 ==> products == StoredProducts() && error == None
      ensures failAt == 0 ==> products == old(products) && error == Some(LoadError)
    {
      loading := true;
      if failAt == 0 {
        error := Some(LoadError);
      } else {
        products := StoredProducts();
        error := None;
      }
      loading := false;
    }

    /** A read (call 0) and a write (call 1), after the listing is stamped from the session user. */
    method AddProduct(session: Option<User>, name: string, price: int, description: string, image: string,
                      newId: Id, now: Timestamp, failAt: FailAt) returns (completion: Completion)
      modifies this
      ensures session.None? ==> completion == Resolved && unchanged(this)
      ensures session.Some? ==> !loading
      ensures session.Some? && failAt >= 2 ==>
        && completion == Resolved
        && stored == Some(old(StoredProducts()) + [NewListing(session.value, newId, name, price, description, image, now, true)])
        && products == StoredProducts() && error == None
      ensures session.Some? && failAt < 2 ==>
        && completion == Rejected
        && stored == old(stored) && products == old(products) && error == Some(AddError)
    {
      if session.None? {
        return Resolved;
      }
      loading := true;
      var listing := NewListing(session.value, newId, name, price, description, image, now, true);
      if failAt == 0 {
        error := Some(AddError);
        loading := false;
        return Rejected;
      }
      var allProducts := StoredProducts();
      allProducts := allProducts + [listing];
      if failAt == 1 {
        error := Some(AddError);
        loading := false;
        return Rejected;
      }
      stored := Some(allProducts);
      products := allProducts;
      error := None;
      loading := false;
      completion := Resolved;
    }

    /** A read (call 0), the `map`, and a write (call 1). */
    method UpdateProduct(productId: Id, name: string, price: int, description: string, image: string,
                         failAt: FailAt) returns (completion: Completion)
      modifies this
      ensures !loading
      ensures failAt >= 2 ==>
        && completion == Resolved
        && stored == Some(UpdateListing(old(StoredProducts()), productId, name, price, description, image))
        && products == StoredProducts() && error == None
      ensures failAt < 2 ==>
        && completion == Rejected
        && stored == old(stored) && products == old(products) && error == Some(UpdateError)
    {
      loading := true;
      if failAt == 0 {
        error := Some(UpdateError);
        loading := false;
        return Rejected;
      }
      var updated := UpdateListing(StoredProducts(), productId, name, price, description, image);
      if failAt == 1 {
        error := Some(UpdateError);
        loading := false;
        return Rejected;
      }
      stored := Some(updated);
      products := updated;
      error := None;
      loading := false;
      completion := Resolved;
    }

    /** A read (call 0), the `filter`, and a write (call 1). */
    method DeleteProduct(productId: Id, failAt: FailAt) returns (completion: Completion)
      modifies this
      ensures !loading
      ensures failAt >= 2 ==>
        && completion == Resolved
        && stored == Some(DeleteListing(old(StoredProducts()), productId))
        && products == StoredProducts() && error == None
        && !HasProduct(products, productId)
      ensures failAt < 2 ==>
        && completion == Rejected
        && stored == old(stored) && products == old(products) && error == Some(DeleteError)
    {
      loading := true;
      if failAt == 0 {
        error := Some(DeleteError);
        loading := false;
        return Rejected;
      }
      var updated := DeleteListing(StoredProducts(), productId);
      DeleteDropsExactly(StoredProducts(), productId);
      if failAt == 1 {
        error := Some(DeleteError);
        loading := false;
        return Rejected;
      }
      stored := Some(updated);
      products := updated;
      error := None;
      loading := false;
      completion := Resolved;
    }
  }
}

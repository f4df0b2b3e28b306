/**
 * The catalog hook (src/hooks/useProducts.ts), a second copy of the catalog
 * store with two differences from the provider: a new listing carries no
 * seller phone, and failures are recorded in `error` and swallowed rather
 * than rethrown. As in the provider, `products` is published only after a
 * successful write.
 */
module ProductsHook {
  import opened Wrappers
  import opened Types
  import opened Catalog

  const LoadError := "Error al cargar productos"
  const AddError := "Error al crear producto"
  const UpdateError := "Error al actualizar producto"
  const DeleteError := "Error al eliminar producto"

  class ProductsState {
    var products: seq<Product>
    var loading: bool
    var error: Option<string>
    /** The collection under the `products` storage key; `None` when the key is absent. */
    var stored: Option<seq<Product>>

    constructor (stored: Option<seq<Product>>)
      ensures products == [] && !loading && error == None && this.stored == stored
    {
      products := [];
      loading := false;
      error := None;
      this.stored := stored;
    }

    function StoredProducts(): seq<Product>
      reads this
    {
      stored.GetOr([])
    }

    /** One read (storage call 0): the stored collection, or the empty one when nothing is stored. */
    method LoadProducts(failAt: FailAt)
      modifies this`products, this`loading, this`error
      ensures !loading
      ensures failAt > 0 ==> products == StoredProducts() && error == None
      ensures failAt > 0 && stored.None? ==> products == []
      ensures failAt == 0 ==> products == old(products) && error == Some(LoadError)
    {
      loading := true;
      if failAt == 0 {
        error := Some(LoadError);
      } else {
        products := StoredProducts();
        error := None;
      }
      loading := false;
    }

    /** A read (call 0) and a write (call 1); no-op without a session user. */
    method AddProduct(session: Option<User>, name: string, price: int, description: string, image: string,
                      newId: Id, now: Timestamp, failAt: FailAt)
      modifies this
      ensures session.None? ==> unchanged(this)
      ensures session.Some? ==> !loading
      ensures session.Some? && failAt >= 2 ==>
        && stored == Some(old(StoredProducts()) + [NewListing(session.value, newId, name, price, description, image, now, false)])
        && products == StoredProducts() && error == None
      ensures session.Some? && failAt < 2 ==>
        stored == old(stored) && products == old(products) && error == Some(AddError)
    {
      if session.None? {
        return;
      }
      loading := true;
      var listing := NewListing(session.value, newId, name, price, description, image, now, false);
      if failAt == 0 {
        error := Some(AddError);
        loading := false;
        return;
      }
      var allProducts := StoredProducts();
      allProducts := allProducts + [listing];
      if failAt == 1 {
        error := Some(AddError);
        loading := false;
        return;
      }
      stored := Some(allProducts);
      products := allProducts;
      error := None;
      loading := false;
    }

    method UpdateProduct(productId: Id, name: string, price: int, description: string, image: string,
                         failAt: FailAt)
      modifies this
      ensures !loading
      ensures failAt >= 2 ==>
        && stored == Some(UpdateListing(old(StoredProducts()), productId, name, price, description, image))
        && products == StoredProducts() && error == None
      ensures failAt < 2 ==>
        stored == old(stored) && products == old(products) && error == Some(UpdateError)
    {
      loading := true;
      if failAt == 0 {
        error := Some(UpdateError);
        loading := false;
        return;
      }
      var updated := UpdateListing(StoredProducts(), productId, name, price, description, image);
      if failAt == 1 {
        error := Some(UpdateError);
        loading := false;
        return;
      }
      stored := Some(updated);
      products := updated;
      error := None;
      loading := false;
    }

    method DeleteProduct(productId: Id, failAt: FailAt)
      modifies this
      ensures !loading
      ensures failAt >= 2 ==>
        && stored == Some(DeleteListing(old(StoredProducts()), productId))
        && products == StoredProducts() && error == None
        && !HasProduct(products, productId)
      ensures failAt < 2 ==>
        stored == old(stored) && products == old(products) && error == Some(DeleteError)
    {
      loading := true;
      if failAt == 0 {
        error := Some(DeleteError);
        loading := false;
        return;
      }
      var updated := DeleteListing(StoredProducts(), productId);
      DeleteDropsExactly(StoredProducts(), productId);
      if failAt == 1 {
        error := Some(DeleteError);
        loading := false;
        return;
      }
      stored := Some(updated);
      products := updated;
      error := None;
      loading := false;
    }
  }
}

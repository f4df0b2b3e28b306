/**
 * The listing editor (src/screens/EditProductScreen.tsx): four form fields
 * prefilled from the catalog by the route's product id, and the validator in
 * front of the provider's `updateProduct`. `price.toString()` is a parameter
 * (`show`), as `parseFloat` is (`parse`).
 */
module EditProductScreen {
  import opened Wrappers
  import opened Text
  import opened Types
  import opened Catalog
  import opened ProductForm
  import opened ProductContext

  datatype EditAlert = FormIncomplete | PriceInvalid | Updated | UpdateFailed

  class EditForm {
    /** The route parameter. */
    const productId: Id
    var name: string
    var price: string
    var description: string
    var image: string

    constructor (productId: Id)
      ensures this.productId == productId
      ensures name == [] && price == [] && description == [] && image == []
    {
      this.productId := productId;
      name := [];
      price := [];
      description := [];
      image := [];
    }

    /** The prefill effect: copy the first product with the route's id; without one, the fields keep their values. */
    method Prefill(products: seq<Product>, show: int -> string)
      modifies this`name, this`price, this`description, this`image
      ensures FindById(products, productId).None? ==>
        name == old(name) && price == old(price) && description == old(description) && image == old(image)
      ensures FindById(products, productId).Some? ==>
        var p := FindById(products, productId).value;
        && p.id == productId && HasProduct(products, productId)
        && name == p.name && price == show(p.price) && description == p.description && image == p.image
    {
      var product := FindById(products, productId);
      if product.Some? {
        name := product.value.name;
        price := show(product.value.price);
        description := product.value.description;
        image := product.value.image;
      }
    }

    /**
     * `handleUpdate`: the same guards as publishing, then `updateProduct` on
     * the route's id with the trimmed fields. Nothing checks that the session
     * user owns the listing.
     */
    method HandleUpdate(store: ProductStore, parse: string -> Option<int>, failAt: FailAt)
      returns (alert: EditAlert)
      modifies store
      ensures var check := CheckProductForm(name, price, description, image, parse);
        !check.Accepted? ==> unchanged(store) && alert == (if check == Incomplete then FormIncomplete else PriceInvalid)
      ensures var check := CheckProductForm(name, price, description, image, parse);
        check.Accepted? ==>
          && alert == (if failAt >= 2 then Updated else UpdateFailed)
          && store.stored == (if failAt >= 2
                              then Some(UpdateListing(old(store.StoredProducts()), productId, Trim(name), check.price,
                                                      Trim(description), Trim(image)))
                              else old(store.stored))
    {
      var check := CheckProductForm(name, price, description, image, parse);
      match check
      case Incomplete =>
        return FormIncomplete;
      case InvalidPrice =>
        return PriceInvalid;
      case Accepted(trimmedName, priceNum, trimmedDescription, trimmedImage) =>
        var completion := store.UpdateProduct(productId, trimmedName, priceNum, trimmedDescription, trimmedImage, failAt);
        alert := if completion == Resolved then Updated else UpdateFailed;
    }
  }

  /**
   * Submitting the prefilled values unchanged: when the listing's text fields
   * are as the form stores them (trimmed, non-empty), its price is positive and
   * its text parses back to it, the validator accepts exactly the listing's own
   * values, and the update `handleUpdate` then sends rewrites the listing with
   * its own content, so on a catalog with unique ids the collection stays the same.
   */
  lemma ResubmittingPrefillIsNoOp(products: seq<Product>, productId: Id, show: int -> string,
                                  parse: string -> Option<int>)
    requires UniqueIds(products) && FindById(products, productId).Some?
    requires var p := FindById(products, productId).value;
      && Trim(p.name) == p.name && p.name != []
      && Trim(p.description) == p.description && p.description != []
      && Trim(p.image) == p.image && p.image != []
      && !IsBlank(show(p.price)) && parse(show(p.price)) == Some(p.price) && p.price > 0
    ensures var p := FindById(products, productId).value;
      var check := CheckProductForm(p.name, show(p.price), p.description, p.image, parse);
      && check == Accepted(p.name, p.price, p.description, p.image)
      && UpdateListing(products, productId, Trim(p.name), check.price, Trim(p.description), Trim(p.image)) == products
  {
  }
}

/**
 * The publishing form (src/screens/CreateProductScreen.tsx): the validator
 * guards the call to the catalog provider's `addProduct`, and the alert
 * follows how that call settles.
 */
module CreateProductScreen {
  import opened Wrappers
  import opened Text
  import opened Types
  import opened Catalog
  import opened ProductForm
  import opened ProductContext

  /** The alert `handleCreate` ends with; `Published` carries the name as typed, untrimmed. */
  datatype CreateAlert = FormIncomplete | PriceInvalid | Published(name: string) | PublishFailed

  /**
   * `handleCreate`. A refused form never reaches the store. An accepted one
   * is published with the trimmed fields; with nobody signed in the provider
   * resolves without writing, so the success alert still appears.
   */
  method HandleCreate(store: ProductStore, session: Option<User>, name: string, priceText: string,
                      description: string, image: string, parse: string -> Option<int>,
                      newId: Id, now: Timestamp, failAt: FailAt)
    returns (alert: CreateAlert)
    modifies store
    ensures var check := CheckProductForm(name, priceText, description, image, parse);
      !check.Accepted? ==> unchanged(store) && alert == (if check == Incomplete then FormIncomplete else PriceInvalid)
    ensures var check := CheckProductForm(name, priceText, description, image, parse);
      check.Accepted? && session.None? ==> unchanged(store) && alert == Published(name)
    ensures var check := CheckProductForm(name, priceText, description, image, parse);
      check.Accepted? && session.Some? ==>
        && alert == (if failAt >= 2 then Published(name) else PublishFailed)
        && store.stored == (if failAt >= 2
                            then Some(old(store.StoredProducts())
                                      + [NewListing(session.value, newId, Trim(name), check.price, Trim(description),
                                                    Trim(image), now, true)])
                            else old(store.stored))
  {
    var check := CheckProductForm(name, priceText, description, image, parse);
    match check
    case Incomplete =>
      return FormIncomplete;
    case InvalidPrice =>
      return PriceInvalid;
    case Accepted(trimmedName, priceNum, trimmedDescription, trimmedImage) =>
      var completion := store.AddProduct(session, trimmedName, priceNum, trimmedDescription, trimmedImage,
                                         newId, now, failAt);
      alert := if completion == Resolved then Published(name) else PublishFailed;
  }
}

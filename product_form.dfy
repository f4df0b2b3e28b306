/**
 * The listing form's validator, written out identically in the create screen
 * (src/screens/CreateProductScreen.tsx) and the edit screen
 * (src/screens/EditProductScreen.tsx). `parseFloat` is a parameter: it maps
 * the price text to cents, `None` standing for `NaN`.
 */
module ProductForm {
  import opened Wrappers
  import opened Text

  const IncompleteMessage := "Por favor completa todos los campos"
  const InvalidPriceMessage := "Por favor ingresa un precio válido"

  /** The validator's verdict: which alert it raises, or the values it passes on. */
  datatype FormCheck =
    | Incomplete
    | InvalidPrice
    | Accepted(name: string, price: int, description: string, image: string)

  /**
   * The blank check runs first, on the trimmed fields, before the price is
   * parsed; then a price that does not parse or is not positive is refused;
   * otherwise the trimmed text fields and the parsed price go through.
   */
  function CheckProductForm(name: string, priceText: string, description: string, image: string,
                            parse: string -> Option<int>): (check: FormCheck)
    ensures check == Incomplete <==> IsBlank(name) || IsBlank(priceText) || IsBlank(description) || IsBlank(image)
    ensures check == InvalidPrice <==>
      && !(IsBlank(name) || IsBlank(priceText) || IsBlank(description) || IsBlank(image))
      && (parse(priceText).None? || parse(priceText).value <= 0)
    ensures check.Accepted? ==>
      && check.name == Trim(name) && check.description == Trim(description) && check.image == Trim(image)
      && check.name != [] && check.description != [] && check.image != []
      && parse(priceText) == Some(check.price) && check.price > 0
  {
    if IsBlank(name) || IsBlank(priceText) || IsBlank(description) || IsBlank(image) then Incomplete
    else
      var priceNum := parse(priceText);
      if priceNum.None? || priceNum.value <= 0 then InvalidPrice
      else Accepted(Trim(name), priceNum.value, Trim(description), Trim(image))
  }

  /** An accepted field is non-blank and carries no surrounding white space, so checking it again returns it unchanged. */
  lemma AcceptedFieldsAreTrimmed(name: string, priceText: string, description: string, image: string,
                                 parse: string -> Option<int>)
    requires CheckProductForm(name, priceText, description, image, parse).Accepted?
    ensures var c := CheckProductForm(name, priceText, description, image, parse);
      CheckProductForm(c.name, priceText, c.description, c.image, parse) == c
  {
    TrimIsCore(name);
    TrimIsCore(description);
    TrimIsCore(image);
    TrimOfTrimmed(Trim(name));
    TrimOfTrimmed(Trim(description));
    TrimOfTrimmed(Trim(image));
  }
}

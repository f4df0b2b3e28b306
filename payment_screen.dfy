/**
 * The checkout form (src/screens/PaymentScreen.tsx): the card-number and
 * expiry formatters applied on every keystroke, the form validator and the
 * payment handler that empties the cart once the success alert is accepted.
 */
module PaymentScreen {
  import opened Wrappers
  import opened Text
  import opened Cart

  /** A formatted card number holds at most this many digits ... */
  const CardDigits := 16
  /** ... and is at most this long: four groups of four digits and three spaces. */
  const CardLength := 19

  /** `replace(/(\d{4})(?=\d)/g, '$1 ')` on a digit string: a space after every four digits that have a digit after them. */
  function Group4(d: string): string
    decreases |d|
  {
    if |d| <= 4 then d else d[..4] + " " + Group4(d[4..])
  }

  /** `formatCardNumber`: the digits, grouped by four, cut to 19 characters. */
  function FormatCardNumber(text: string): string {
    var grouped := Group4(Digits(text));
    grouped[..if |grouped| < CardLength then |grouped| else CardLength]
  }

  /** The digits a formatted card number keeps: the first sixteen. */
  function LeadingCardDigits(text: string): (d: string)
    ensures |d| <= CardDigits && AllDigits(d)
  {
    var d := Digits(text);
    d[..if |d| < CardDigits then |d| else CardDigits]
  }

  lemma {:induction false} Group4Length(d: string)
    ensures |Group4(d)| == if d == [] then 0 else |d| + (|d| - 1) / 4
    decreases |d|
  {
    if |d| > 4 {
      Group4Length(d[4..]);
    }
  }

  /** Position `i` of a grouped string is a space when `i % 5 == 4`, and otherwise digit number `i - i / 5`. */
  lemma {:induction false} Group4At(d: string, i: nat)
    requires i < |Group4(d)|
    ensures i % 5 == 4 ==> Group4(d)[i] == ' '
    ensures i % 5 != 4 ==> i - i / 5 < |d| && Group4(d)[i] == d[i - i / 5]
    decreases |d|
  {
    if |d| > 4 {
      var rest := Group4(d[4..]);
      assert Group4(d) == d[..4] + " " + rest;
      if i >= 5 {
        Group4At(d[4..], i - 5);
        assert (i - 5) % 5 == i % 5 && (i - 5) / 5 == i / 5 - 1;
      }
    }
  }

  /** Grouping then removing the spaces gives the digits back. */
  lemma {:induction false} DigitsOfGroup4(d: string)
    requires AllDigits(d)
    ensures Digits(Group4(d)) == d
    decreases |d|
  {
    if |d| <= 4 {
      DigitsOfDigits(d);
    } else {
      DigitsOfGroup4(d[4..]);
      DigitsConcat(d[..4] + " ", Group4(d[4..]));
      DigitsConcat(d[..4], " ");
      DigitsOfDigits(d[..4]);
      assert Digits(" ") == [];
      assert d == d[..4] + d[4..];
    }
  }

  /** The formatted card number is exactly the grouping of its first sixteen digits. */
  lemma FormatCardNumberIsGrouped(text: string)
    ensures FormatCardNumber(text) == Group4(LeadingCardDigits(text))
  {
    var d := Digits(text);
    var e := LeadingCardDigits(text);
    Group4Length(d);
    Group4Length(e);
    if |d| > CardDigits {
      var r := FormatCardNumber(text);
      var g := Group4(e);
      assert |r| == CardLength == |g|;
      forall i | 0 <= i < CardLength
        ensures r[i] == g[i]
      {
        Group4At(d, i);
        Group4At(e, i);
      }
    } else {
      assert e == d;
      assert |Group4(d)| <= CardLength;
    }
  }

  /** Only digits and spaces, at most nineteen characters, and its digits are the first sixteen of the input. */
  lemma FormatCardNumberShape(text: string)
    ensures |FormatCardNumber(text)| <= CardLength
    ensures forall i :: 0 <= i < |FormatCardNumber(text)| ==>
      IsDigit(FormatCardNumber(text)[i]) || FormatCardNumber(text)[i] == ' '
    ensures Digits(FormatCardNumber(text)) == LeadingCardDigits(text)
  {
    var e := LeadingCardDigits(text);
    FormatCardNumberIsGrouped(text);
    Group4Length(e);
    forall i | 0 <= i < |Group4(e)|
      ensures IsDigit(Group4(e)[i]) || Group4(e)[i] == ' '
    {
      Group4At(e, i);
    }
    DigitsOfGroup4(e);
  }

  /** Spaces sit only at positions 4, 9 and 14, and the result never ends with a space. */
  lemma FormatCardNumberSpaces(text: string)
    ensures forall i :: 0 <= i < |FormatCardNumber(text)| ==>
      (FormatCardNumber(text)[i] == ' ' <==> i == 4 || i == 9 || i == 14)
    ensures FormatCardNumber(text) == [] || FormatCardNumber(text)[|FormatCardNumber(text)| - 1] != ' '
  {
    var e := LeadingCardDigits(text);
    var r := FormatCardNumber(text);
    FormatCardNumberIsGrouped(text);
    Group4Length(e);
    forall i | 0 <= i < |r|
      ensures r[i] == ' ' <==> i == 4 || i == 9 || i == 14
    {
      Group4At(e, i);
    }
    if r != [] {
      var last := |r| - 1;
      var m := |e| - 1;
      assert last == 5 * (m / 4) + m % 4;
      assert last % 5 != 4;
      Group4At(e, last);
    }
  }

  /** Formatting an already formatted card number changes nothing. */
  lemma FormatCardNumberIdempotent(text: string)
    ensures FormatCardNumber(FormatCardNumber(text)) == FormatCardNumber(text)
  {
    var r := FormatCardNumber(text);
    FormatCardNumberShape(text);
    FormatCardNumberIsGrouped(text);
    FormatCardNumberIsGrouped(r);
    assert LeadingCardDigits(r) == LeadingCardDigits(text);
  }

  /** A formatted card number is nineteen characters long exactly when sixteen or more digits were typed. */
  lemma CardLengthIffSixteenDigits(text: string)
    ensures |FormatCardNumber(text)| >= CardLength <==> |Digits(text)| >= CardDigits
  {
    FormatCardNumberIsGrouped(text);
    Group4Length(LeadingCardDigits(text));
  }

  /** `formatExpiryDate`: with two digits or more, `MM/YY` from the first four digits; otherwise the digits. */
  function FormatExpiryDate(text: string): string {
    var d := Digits(text);
    if |d| >= 2 then d[..2] + "/" + d[2..if |d| < 4 then |d| else 4] else d
  }

  /** The expiry field: at most five characters, a slash at position 2 once two digits are typed, and the first four digits. */
  lemma FormatExpiryDateShape(text: string)
    ensures |FormatExpiryDate(text)| <= 5
    ensures |Digits(text)| < 2 ==> FormatExpiryDate(text) == Digits(text)
    ensures |Digits(text)| >= 2 ==>
      (|FormatExpiryDate(text)| >= 3 && FormatExpiryDate(text)[2] == '/'
       && FormatExpiryDate(text)[..2] == Digits(text)[..2]
       && FormatExpiryDate(text)[3..] == Digits(text)[2..if |Digits(text)| < 4 then |Digits(text)| else 4]
       && AllDigits(FormatExpiryDate(text)[3..]))
    ensures var d := Digits(text); Digits(FormatExpiryDate(text)) == d[..if |d| < 4 then |d| else 4]
  {
    var d := Digits(text);
    if |d| >= 2 {
      var m := if |d| < 4 then |d| else 4;
      DigitsConcat(d[..2] + "/", d[2..m]);
      DigitsConcat(d[..2], "/");
      assert Digits("/") == [];
      DigitsOfDigits(d[..2]);
      DigitsOfDigits(d[2..m]);
      assert d[..m] == d[..2] + d[2..m];
    } else {
      DigitsOfDigits(d);
    }
  }

  /** Formatting an already formatted expiry date changes nothing. */
  lemma FormatExpiryDateIdempotent(text: string)
    ensures FormatExpiryDate(FormatExpiryDate(text)) == FormatExpiryDate(text)
  {
    FormatExpiryDateShape(text);
    var r := FormatExpiryDate(text);
    var d := Digits(text);
    if |d| >= 2 {
      var m := if |d| < 4 then |d| else 4;
      assert Digits(r) == d[..m];
      assert d[..m][..2] == d[..2] && d[..m][2..m] == d[2..m];
    }
  }

  /** The expiry check passes on a formatted date exactly when four digits were typed. */
  lemma ExpiryLengthIffFourDigits(text: string)
    ensures |FormatExpiryDate(text)| >= 5 <==> |Digits(text)| >= 4
  {
  }

  datatype PaymentError = InvalidCard | MissingHolder | InvalidExpiry | InvalidCvv

  function ErrorMessage(e: PaymentError): string {
    match e
    case InvalidCard => "Por favor ingresa un número de tarjeta válido"
    case MissingHolder => "Por favor ingresa el nombre del titular"
    case InvalidExpiry => "Por favor ingresa una fecha de vencimiento válida"
    case InvalidCvv => "Por favor ingresa un CVV válido"
  }

  /** `validateForm`: the first failing check, in the order card, holder, expiry, CVV; `None` when all pass. */
  function ValidateForm(cardNumber: string, cardName: string, expiryDate: string, cvv: string): (r: Option<PaymentError>)
    ensures r == None <==> |cardNumber| >= CardLength && !IsBlank(cardName) && |expiryDate| >= 5 && |cvv| >= 3
    ensures r == Some(InvalidCard) <==> |cardNumber| < CardLength
    ensures r == Some(MissingHolder) <==> |cardNumber| >= CardLength && IsBlank(cardName)
    ensures r == Some(InvalidExpiry) <==> |cardNumber| >= CardLength && !IsBlank(cardName) && |expiryDate| < 5
    ensures r == Some(InvalidCvv) <==>
      |cardNumber| >= CardLength && !IsBlank(cardName) && |expiryDate| >= 5 && |cvv| < 3
  {
    if cardNumber == [] || |cardNumber| < CardLength then Some(InvalidCard)
    else if IsBlank(cardName) then Some(MissingHolder)
    else if expiryDate == [] || |expiryDate| < 5 then Some(InvalidExpiry)
    else if cvv == [] || |cvv| < 3 then Some(InvalidCvv)
    else None
  }

  /** Typing through the formatters, the form passes exactly on sixteen card digits, a holder, four expiry digits and a three-character CVV. */
  lemma FormattedFormPasses(cardText: string, cardName: string, expiryText: string, cvv: string)
    ensures ValidateForm(FormatCardNumber(cardText), cardName, FormatExpiryDate(expiryText), cvv) == None
      <==> |Digits(cardText)| >= CardDigits && !IsBlank(cardName) && |Digits(expiryText)| >= 4 && |cvv| >= 3
  {
    CardLengthIffSixteenDigits(cardText);
    ExpiryLengthIffFourDigits(expiryText);
  }

  datatype PaymentOutcome = Invalid(error: PaymentError) | Charged(total: int)

  /** The form's state. */
  class PaymentForm {
    var cardNumber: string
    var cardName: string
    var expiryDate: string
    var cvv: string
    var loading: bool

    constructor ()
      ensures cardNumber == [] && cardName == [] && expiryDate == [] && cvv == [] && !loading
    {
      cardNumber := [];
      cardName := [];
      expiryDate := [];
      cvv := [];
      loading := false;
    }

    method EnterCardNumber(text: string)
      modifies this`cardNumber
      ensures cardNumber == FormatCardNumber(text)
      ensures |cardNumber| <= CardLength && Digits(cardNumber) == LeadingCardDigits(text)
    {
      FormatCardNumberShape(text);
      cardNumber := FormatCardNumber(text);
    }

    method EnterExpiryDate(text: string)
      modifies this`expiryDate
      ensures expiryDate == FormatExpiryDate(text)
      ensures |expiryDate| <= 5
    {
      FormatExpiryDateShape(text);
      expiryDate := FormatExpiryDate(text);
    }

    /**
     * `handlePayment`: an invalid form stops before anything else. A valid one
     * charges the cart total; the cart is emptied only when the success alert's
     * accept action runs (`accepted`).
     */
    method HandlePayment(cart: CartStore, accepted: bool) returns (outcome: PaymentOutcome)
      modifies this`loading, cart`cartItems
      ensures ValidateForm(cardNumber, cardName, expiryDate, cvv).Some? ==>
        outcome == Invalid(ValidateForm(cardNumber, cardName, expiryDate, cvv).value)
        && loading == old(loading) && cart.cartItems == old(cart.cartItems)
      ensures ValidateForm(cardNumber, cardName, expiryDate, cvv).None? ==>
        outcome == Charged(TotalPrice(old(cart.cartItems))) && !loading
        && cart.cartItems == (if accepted then [] else old(cart.cartItems))
    {
      var error := ValidateForm(cardNumber, cardName, expiryDate, cvv);
      if error.Some? {
        return Invalid(error.value);
      }
      var totalPrice := cart.GetTotalPrice();
      loading := true;
      if accepted {
        cart.ClearCart();
      }
      loading := false;
      outcome := Charged(totalPrice);
    }
  }
}

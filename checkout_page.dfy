/** The shop's checkout page (src/pages/CheckoutPage.jsx): it reads the
    navigation state, fills in defaults, shows the heading and hands the
    order to the checkout form. */
module CheckoutPage {
  import opened Wrappers
  import opened Text
  import opened Money

  /** `location.state` as the product page sets it. Each field may be
      absent; an `amount` of `None` stands for any value that is not a
      JavaScript number. */
  datatype LocationState = LocationState(
    amount: Option<int>,
    currency: Option<string>,
    productId: Option<string>,
    productName: Option<string>)

  /** What the page passes to the checkout form. */
  datatype CheckoutProps = CheckoutProps(amount: int, currency: string, productId: Option<string>, productName: string)

  const DefaultAmount: int := 1999
  const DefaultCurrency: string := "inr"

  /** A string field that `x || fallback` replaces: absent or empty. */
  predicate Falsy(s: Option<string>) {
    s.None? || s.value == ""
  }

  /** The defaults: an amount that is not a number becomes 1999; an absent or
      empty currency becomes "inr", product id `null` and product name "". */
  function CheckoutPageProps(state: Option<LocationState>): (p: CheckoutProps)
    ensures state.Some? && state.value.amount.Some? ==> p.amount == state.value.amount.value
    ensures state.None? || state.value.amount.None? ==> p.amount == DefaultAmount
    ensures state.Some? && !Falsy(state.value.currency) ==> p.currency == state.value.currency.value
    ensures state.None? || Falsy(state.value.currency) ==> p.currency == DefaultCurrency
    ensures p.currency != ""
    ensures p.productId.Some? <==> state.Some? && !Falsy(state.value.productId)
    ensures p.productId.Some? ==> p.productId == state.value.productId
    ensures state.Some? && !Falsy(state.value.productName) ==> p.productName == state.value.productName.value
    ensures state.None? || Falsy(state.value.productName) ==> p.productName == ""
  {
    var s := state.GetOr(LocationState(None, None, None, None));
    CheckoutProps(
      s.amount.GetOr(DefaultAmount),
      if Falsy(s.currency) then DefaultCurrency else s.currency.value,
      if Falsy(s.productId) then None else s.productId,
      s.productName.GetOr(""))
  }

  /** The heading's text: the amount shown in the main unit, the currency
      upper-cased, and the product name or "Order". */
  function Heading(p: CheckoutProps): (h: string)
    ensures p.amount >= 0 ==> h == "Paying " + Hundredths(p.amount) + " " + Upper(p.currency) + " for " + (if p.productName == "" then "Order" else p.productName)
  {
    PriceTextExact(p.amount);
    "Paying " + PriceText(p.amount) + " " + Upper(p.currency) + " for " + (if p.productName == "" then "Order" else p.productName)
  }
}

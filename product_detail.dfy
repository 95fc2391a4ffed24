/** The shop's product page (src/pages/ProductDetail.jsx): image, price,
    and for customers a purchase button that opens the checkout with the
    price converted to paise. */
module ProductDetail {
  import opened Wrappers
  import opened Text
  import opened Money
  import opened Catalog
  import opened CheckoutPage

  /** Displayed price to smallest currency unit (rupees to paise). */
  const Multiplier: real := 100.0

  /** `Math.round(rawPrice * 100)`, where a price that is not a number
      counts as 0: the number of paise nearest to the price, a half
      rounded up. */
  function BuyAmount(price: Option<real>): (amount: int)
    ensures price.None? ==> amount == 0
    ensures price.Some? ==> amount as real - 0.5 <= price.value * Multiplier < amount as real + 0.5
  {
    RoundHalfUp(price.GetOr(0.0) * Multiplier)
  }

  /** A `navigate(path, { state })` call. */
  datatype Navigation = Navigation(path: string, state: LocationState)

  /** `handleBuyNow`: to the checkout, with the amount in paise, the currency
      "inr", and the product's id and name. */
  function BuyNow(p: Product): (n: Navigation)
    ensures n.path == "/checkout"
    ensures n.state == LocationState(Some(BuyAmount(p.price)), Some("inr"), Some(p.id), Some(p.name))
  {
    Navigation("/checkout", LocationState(Some(BuyAmount(p.price)), Some("inr"), Some(p.id), Some(p.name)))
  }

  /** `price.toFixed(2)` for a number, a dash otherwise. */
  function DisplayPrice(price: Option<real>): (s: string)
    ensures price.None? ==> s == "—"
    ensures price.Some? ==> s == Fixed2(price.value)
  {
    if price.Some? then Fixed2(price.value) else "—"
  }

  /** The purchase button: a customer gets "Purchase Now" wired to the
      checkout and disabled when the price is not a number; anybody else
      gets the "coming soon" alert. */
  datatype PurchaseButton = BuyButton(disabled: bool, onClick: Navigation) | ComingSoonButton

  datatype DetailView = NotFound | Detail(image: string, price: string, purchase: PurchaseButton)

  function ProductDetailPage(product: Option<Product>, currentUser: Option<User>): (v: DetailView)
    ensures product.None? <==> v.NotFound?
    ensures v.Detail? ==> v.image == ImageSrc(product.value.image) && v.price == DisplayPrice(product.value.price)
    ensures v.Detail? ==> (v.purchase.BuyButton? <==> currentUser.Some? && currentUser.value.role == "customer")
    ensures v.Detail? && v.purchase.BuyButton? ==> (v.purchase.disabled <==> product.value.price.None?)
    ensures v.Detail? && v.purchase.BuyButton? ==> v.purchase.onClick == BuyNow(product.value)
  {
    match product
    case None => NotFound
    case Some(p) =>
      Detail(ImageSrc(p.image), DisplayPrice(p.price),
        if currentUser.Some? && currentUser.value.role == "customer" then BuyButton(p.price.None?, BuyNow(p))
        else ComingSoonButton)
  }

  /** Buying a product opens the checkout for exactly that product: the
      converted amount, in rupees, with the product's name, and its id
      unless that is empty. */
  lemma BuyNowReachesCheckout(p: Product)
    ensures CheckoutPageProps(Some(BuyNow(p).state)) ==
      CheckoutProps(BuyAmount(p.price), "inr", if p.id == "" then None else Some(p.id), p.name)
  {
    var props := CheckoutPageProps(Some(BuyNow(p).state));
    assert props.amount == BuyAmount(p.price);
    assert props.currency == "inr";
  }

  /** For a non-negative price the checkout's heading shows the same price
      text the product page showed. */
  lemma CheckoutShowsShownPrice(p: Product)
    requires p.price.Some? && p.price.value >= 0.0
    ensures PriceText(BuyAmount(p.price)) == DisplayPrice(p.price)
  {
    var x := p.price.value;
    assert BuyAmount(p.price) == RoundHalfUp(x * 100.0);
    assert DisplayPrice(p.price) == Fixed2(x);
    PaiseKeepShownPrice(x);
  }
}

/** The craft app's product page (tribal-craft/src/pages/ProductDetail.jsx). */
module CraftProductDetail {
  import opened Wrappers
  import opened Money
  import opened Catalog
  import opened Store

  /** `Purchase Now` is there (it only raises an alert) or not at all. */
  datatype CraftDetailView = CraftNotFound | CraftDetail(image: string, price: string, purchaseButton: bool)

  /** The page renders `price.toFixed(2)` unguarded, so it needs a price. */
  function CraftProductDetailPage(product: Option<Product>, currentUser: Option<User>): (v: CraftDetailView)
    requires product.Some? ==> product.value.price.Some?
    ensures product.None? <==> v.CraftNotFound?
    ensures v.CraftDetail? ==> v.image == ImageSrc(product.value.image)
    ensures v.CraftDetail? ==> v.price == Fixed2(product.value.price.value)
    ensures v.CraftDetail? ==> (v.purchaseButton <==> currentUser.Some? && currentUser.value.role == "customer")
  {
    match product
    case None => CraftNotFound
    case Some(p) =>
      CraftDetail(ImageSrc(p.image), Fixed2(p.price.value), currentUser.Some? && currentUser.value.role == "customer")
  }

  /** The `/product/:id` route: the wrapper's not-found view when no product
      has the id, otherwise the product page, which never shows its own
      not-found view. */
  function ProductRoute(products: seq<Product>, id: string, currentUser: Option<User>): (v: Option<CraftDetailView>)
    requires forall i :: 0 <= i < |products| ==> products[i].price.Some?
    ensures v.None? <==> forall i :: 0 <= i < |products| ==> products[i].id != id
    ensures v.Some? ==> v.value.CraftDetail?
  {
    match ProductDetailWrapper(products, id)
    case ProductNotFound => None
    case ShowProduct(p) => Some(CraftProductDetailPage(Some(p), currentUser))
  }
}

/** The shop's product route placeholder (src/pages/ProductDetailWrapper.jsx). */
module ShopProductDetailWrapper {
  import opened Wrappers
  import opened Seqs
  import opened Catalog

  /** It renders "not found" or an empty container; the product it finds is
      not shown. */
  datatype WrapperView = WrapperNotFound | EmptyContainer

  function ShopDetailWrapper(products: seq<Product>, id: string): (v: WrapperView)
    ensures v.WrapperNotFound? <==> forall i :: 0 <= i < |products| ==> products[i].id != id
    ensures v.EmptyContainer? ==> exists i :: 0 <= i < |products| && products[i].id == id
  {
    if Find(products, (p: Product) => p.id == id).Some? then EmptyContainer else WrapperNotFound
  }
}

/** The shop's checkout form (src/pages/CheckoutForm.jsx): the buyer picks
    card, UPI or cash on delivery, and a submit runs the chosen payment
    path, reporting progress in `status` and failures in `error`. The
    backend, the Stripe SDK and the card element are not modelled: what
    they answer is an input (`Environment`), and what is sent to them is
    logged in `sent`. */
module CheckoutForm {
  import opened Wrappers
  import opened Text
  import opened Money

  datatype PayMethod = Card | Upi | Cod

  /** A value thrown inside the submit handler: its `message` property and
      what `String(err)` gives for it. */
  datatype Thrown = Thrown(message: string, shown: string)

  /** `new Error(m)`. */
  function NewError(m: string): Thrown {
    Thrown(m, "Error: " + m)
  }

  /** What the catch block stores: `err?.message || String(err)`. */
  function Describe(t: Thrown): (s: string)
    ensures t.message != "" ==> s == t.message
    ensures t.message == "" ==> s == t.shown
  {
    if t.message != "" then t.message else t.shown
  }

  /** The answer to the payment-intent request: an ok response with the
      client secret in its JSON body; a non-ok response whose body text is
      read (`None` when reading it fails); or a fetch that rejects. */
  datatype IntentResponse =
    | IntentOk(clientSecret: string)
    | IntentNotOk(body: Option<string>, statusText: string)
    | IntentRejected(err: Thrown)

  /** What `stripe.confirmCardPayment` yields: an error, or a result whose
      payment intent has some status (`None`: no payment intent). */
  datatype GatewayResult = GatewayError(err: Thrown) | GatewayIntent(status: Option<string>)

  /** The answer to a create-order request. */
  datatype OrderResponse = OrderOk | OrderNotOk | OrderRejected(err: Thrown)

  /** Everything the handler asks of the outside world, in order. */
  datatype Request =
    | IntentRequest(amount: int, currency: string, productName: string)
    | CardConfirmation(clientSecret: string)
    | OrderRequest(amount: int, currency: string, via: PayMethod, upiId: Option<string>, productName: string)

  /** The outside world during one submit: whether Stripe and Elements are
      loaded, whether the card element is mounted, and the answers the
      requests get. */
  datatype Environment = Environment(
    stripeLoaded: bool,
    cardMounted: bool,
    intent: IntentResponse,
    gateway: GatewayResult,
    order: OrderResponse)

  const StripeNotLoaded: string := "Stripe is not loaded yet"
  const IntentFallback: string := "Failed to create payment intent"
  const CardNotFound: string := "Card element not found"
  const InvalidUpiId: string := "Enter a valid UPI ID"

  const CreatingIntent: string := "Creating payment intent..."
  const ConfirmingCard: string := "Confirming card payment..."
  const PaymentSucceeded: string := "Payment succeeded. Thank you!"
  const PaymentNotCompleted: string := "Payment not completed."
  const PlacingCod: string := "Placing COD order..."
  const CodSimulated: string := "Placed order locally (COD simulated)."
  const CodPlaced: string := "Order placed (Cash on Delivery)."
  const CreatingUpi: string := "Creating UPI order..."
  const UpiSimulated: string := "UPI order recorded locally (simulate). Please complete payment using your UPI app."
  const UpiCreated: string := "UPI order created. Complete payment from your UPI app."

  /** The message thrown for a non-ok payment-intent response: the body
      text, the status text when the body cannot be read, and the fallback
      when that is empty. It is never empty. */
  function IntentFailure(body: Option<string>, statusText: string): (m: string)
    ensures m != ""
    ensures body.Some? && body.value != "" ==> m == body.value
    ensures body.None? && statusText != "" ==> m == statusText
    ensures m == IntentFallback <==> body.GetOr(statusText) == "" || body.GetOr(statusText) == IntentFallback
  {
    var txt := body.GetOr(statusText);
    if txt != "" then txt else IntentFallback
  }

  /** The UPI id check: not empty and at least three characters once
      trimmed. */
  predicate UpiIdAccepted(upiId: string) {
    upiId != "" && |Trim(upiId)| >= 3
  }

  /** What `handleCardPayment` hands back: success or not, or the value it
      throws. */
  datatype CardOutcome = CardDone(success: bool) | CardThrew(err: Thrown)

  class Checkout {
    const amount: int
    const currency: string
    const productName: string
    var payMethod: PayMethod
    var loading: bool
    var status: string
    var error: Option<string>
    var upiId: string
    /** The requests sent so far. */
    var sent: seq<Request>

    /** A fresh form: card selected, nothing in progress, no messages. */
    constructor(amount: int, currency: string, productName: string)
      ensures this.amount == amount && this.currency == currency && this.productName == productName
      ensures payMethod == Card && !loading && status == "" && error.None? && upiId == "" && sent == []
    {
      this.amount := amount;
      this.currency := currency;
      this.productName := productName;
      payMethod := Card;
      loading := false;
      status := "";
      error := None;
      upiId := "";
      sent := [];
    }

    /** A radio button: only the method changes; a typed UPI id stays. */
    method SelectMethod(m: PayMethod)
      modifies this`payMethod
      ensures payMethod == m
    {
      payMethod := m;
    }

    /** Typing in the UPI id box. */
    method TypeUpiId(s: string)
      modifies this`upiId
      ensures upiId == s
    {
      upiId := s;
    }

    /** `handleCardPayment`: without a mounted card element it throws before
        contacting the gateway; otherwise it asks for confirmation, rethrows
        a gateway error, and succeeds exactly when the payment intent's
        status is "succeeded". */
    method HandleCardPayment(clientSecret: string, env: Environment) returns (res: CardOutcome)
      modifies this`sent
      ensures !env.cardMounted ==> res == CardThrew(NewError(CardNotFound)) && sent == old(sent)
      ensures env.cardMounted ==> sent == old(sent) + [CardConfirmation(clientSecret)]
      ensures env.cardMounted && env.gateway.GatewayError? ==> res == CardThrew(env.gateway.err)
      ensures env.cardMounted && env.gateway.GatewayIntent? ==>
        res == CardDone(env.gateway.status == Some("succeeded"))
    {
      if !env.cardMounted {
        return CardThrew(NewError(CardNotFound));
      }
      sent := sent + [CardConfirmation(clientSecret)];
      match env.gateway {
        case GatewayError(err) =>
          res := CardThrew(err);
        case GatewayIntent(st) =>
          if st.Some? && st.value == "succeeded" {
            res := CardDone(true);
          } else {
            res := CardDone(false);
          }
      }
    }

    /** The card path of `handleSubmit`'s try block: it throws when Stripe
        is not loaded; otherwise it requests a payment intent, throws on a
        failed request, and confirms the card payment with the secret it got.
        It returns what it threw, if anything. */
    method PayByCard(env: Environment) returns (thrown: Option<Thrown>)
      modifies this`status, this`sent
      ensures !env.stripeLoaded ==> thrown == Some(NewError(StripeNotLoaded)) && status == old(status) && sent == old(sent)
      ensures env.stripeLoaded && env.intent.IntentRejected? ==>
        thrown == Some(env.intent.err) && status == CreatingIntent && sent == old(sent) + [IntentRequest(amount, currency, productName)]
      ensures env.stripeLoaded && env.intent.IntentNotOk? ==>
        thrown == Some(NewError(IntentFailure(env.intent.body, env.intent.statusText))) && status == CreatingIntent
        && sent == old(sent) + [IntentRequest(amount, currency, productName)]
      ensures env.stripeLoaded && env.intent.IntentOk? && !env.cardMounted ==>
        thrown == Some(NewError(CardNotFound)) && status == ConfirmingCard && sent == old(sent) + [IntentRequest(amount, currency, productName)]
      ensures env.stripeLoaded && env.intent.IntentOk? && env.cardMounted ==>
        sent == old(sent) + [IntentRequest(amount, currency, productName), CardConfirmation(env.intent.clientSecret)]
      ensures env.stripeLoaded && env.intent.IntentOk? && env.cardMounted && env.gateway.GatewayError? ==>
        thrown == Some(env.gateway.err) && status == ConfirmingCard
      ensures env.stripeLoaded && env.intent.IntentOk? && env.cardMounted && env.gateway.GatewayIntent? ==>
        thrown.None? && status == (if env.gateway.status == Some("succeeded") then PaymentSucceeded else PaymentNotCompleted)
    {
      if !env.stripeLoaded {
        return Some(NewError(StripeNotLoaded));
      }
      status := CreatingIntent;
      sent := sent + [IntentRequest(amount, currency, productName)];
      match env.intent {
        case IntentRejected(err) =>
          thrown := Some(err);
        case IntentNotOk(body, statusText) =>
          thrown := Some(NewError(IntentFailure(body, statusText)));
        case IntentOk(clientSecret) =>
          status := ConfirmingCard;
          var res := HandleCardPayment(clientSecret, env);
          match res {
            case CardThrew(err) =>
              thrown := Some(err);
            case CardDone(success) =>
              status := if success then PaymentSucceeded else PaymentNotCompleted;
              thrown := None;
          }
      }
    }

    /** The cash-on-delivery path: no check, one order request; a response
        that is not ok falls back to the simulated status, a rejected
        request is thrown. */
    method PlaceCod(env: Environment) returns (thrown: Option<Thrown>)
      modifies this`status, this`sent
      ensures sent == old(sent) + [OrderRequest(amount, currency, Cod, None, productName)]
      ensures env.order.OrderOk? ==> thrown.None? && status == CodPlaced
      ensures env.order.OrderNotOk? ==> thrown.None? && status == CodSimulated
      ensures env.order.OrderRejected? ==> thrown == Some(env.order.err) && status == PlacingCod
    {
      status := PlacingCod;
      sent := sent + [OrderRequest(amount, currency, Cod, None, productName)];
      match env.order {
        case OrderRejected(err) =>
          thrown := Some(err);
        case OrderNotOk =>
          status := CodSimulated;
          thrown := None;
        case OrderOk =>
          status := CodPlaced;
          thrown := None;
      }
    }

    /** The UPI path: a UPI id that is empty or shorter than three
        characters once trimmed is thrown before anything is sent;
        otherwise the untrimmed id goes out with the order, and the answer
        is handled as for cash on delivery. */
    method PlaceUpi(env: Environment) returns (thrown: Option<Thrown>)
      modifies this`status, this`sent
      ensures !UpiIdAccepted(upiId) ==> thrown == Some(NewError(InvalidUpiId)) && status == old(status) && sent == old(sent)
      ensures UpiIdAccepted(upiId) ==> sent == old(sent) + [OrderRequest(amount, currency, Upi, Some(upiId), productName)]
      ensures UpiIdAccepted(upiId) && env.order.OrderOk? ==> thrown.None? && status == UpiCreated
      ensures UpiIdAccepted(upiId) && env.order.OrderNotOk? ==> thrown.None? && status == UpiSimulated
      ensures UpiIdAccepted(upiId) && env.order.OrderRejected? ==> thrown == Some(env.order.err) && status == CreatingUpi
    {
      if !UpiIdAccepted(upiId) {
        return Some(NewError(InvalidUpiId));
      }
      status := CreatingUpi;
      sent := sent + [OrderRequest(amount, currency, Upi, Some(upiId), productName)];
      match env.order {
        case OrderRejected(err) =>
          thrown := Some(err);
        case OrderNotOk =>
          status := UpiSimulated;
          thrown := None;
        case OrderOk =>
          status := UpiCreated;
          thrown := None;
      }
    }

    /** `handleSubmit`: clear the messages, set `loading`, run the selected
        path, store what it threw in `error`, and clear `loading` on every
        path. The method and the typed UPI id are left as they are. */
    method HandleSubmit(env: Environment)
      modifies this`loading, this`status, this`error, this`sent
      ensures !loading && SubmitEnabled()
      // Card, Stripe missing: nothing is sent.
      ensures payMethod == Card && !env.stripeLoaded ==>
        status == "" && error == Some(StripeNotLoaded) && sent == old(sent)
      // Card: the intent request goes out first.
      ensures payMethod == Card && env.stripeLoaded ==>
        |sent| > |old(sent)| && sent[..|old(sent)| + 1] == old(sent) + [IntentRequest(amount, currency, productName)]
      // A failed intent request stops the card path before the gateway.
      ensures payMethod == Card && env.stripeLoaded && env.intent.IntentRejected? ==>
        status == CreatingIntent && error == Some(Describe(env.intent.err)) && sent == old(sent) + [IntentRequest(amount, currency, productName)]
      ensures payMethod == Card && env.stripeLoaded && env.intent.IntentNotOk? ==>
        status == CreatingIntent && error == Some(IntentFailure(env.intent.body, env.intent.statusText))
        && sent == old(sent) + [IntentRequest(amount, currency, productName)]
      ensures payMethod == Card && env.stripeLoaded && env.intent.IntentOk? && !env.cardMounted ==>
        status == ConfirmingCard && error == Some(CardNotFound) && sent == old(sent) + [IntentRequest(amount, currency, productName)]
      ensures payMethod == Card && env.stripeLoaded && env.intent.IntentOk? && env.cardMounted ==>
        sent == old(sent) + [IntentRequest(amount, currency, productName), CardConfirmation(env.intent.clientSecret)]
      ensures payMethod == Card && env.stripeLoaded && env.intent.IntentOk? && env.cardMounted && env.gateway.GatewayError? ==>
        status == ConfirmingCard && error == Some(Describe(env.gateway.err))
      ensures payMethod == Card && env.stripeLoaded && env.intent.IntentOk? && env.cardMounted && env.gateway.GatewayIntent? ==>
        error.None? && status == (if env.gateway.status == Some("succeeded") then PaymentSucceeded else PaymentNotCompleted)
      // Cash on delivery: no check, one order request.
      ensures payMethod == Cod ==> sent == old(sent) + [OrderRequest(amount, currency, Cod, None, productName)]
      ensures payMethod == Cod && env.order.OrderOk? ==> status == CodPlaced && error.None?
      ensures payMethod == Cod && env.order.OrderNotOk? ==> status == CodSimulated && error.None?
      ensures payMethod == Cod && env.order.OrderRejected? ==> status == PlacingCod && error == Some(Describe(env.order.err))
      // UPI: a short id stops the path before anything is sent; the id is sent untrimmed.
      ensures payMethod == Upi && !UpiIdAccepted(upiId) ==> status == "" && error == Some(InvalidUpiId) && sent == old(sent)
      ensures payMethod == Upi && UpiIdAccepted(upiId) ==> sent == old(sent) + [OrderRequest(amount, currency, Upi, Some(upiId), productName)]
      ensures payMethod == Upi && UpiIdAccepted(upiId) && env.order.OrderOk? ==> status == UpiCreated && error.None?
      ensures payMethod == Upi && UpiIdAccepted(upiId) && env.order.OrderNotOk? ==> status == UpiSimulated && error.None?
      ensures payMethod == Upi && UpiIdAccepted(upiId) && env.order.OrderRejected? ==>
        status == CreatingUpi && error == Some(Describe(env.order.err))
    {
      error := None;
      status := "";
      loading := true;
      var thrown: Option<Thrown>;
      match payMethod {
        case Card => thrown := PayByCard(env);
        case Cod => thrown := PlaceCod(env);
        case Upi => thrown := PlaceUpi(env);
      }
      // The catch block, then the finally block.
      if thrown.Some? {
        error := Some(Describe(thrown.value));
      }
      loading := false;
    }

    /** The submit button's text. */
    function ButtonLabel(): (caption: string)
      reads this
      ensures loading <==> caption == "Processing…"
      ensures !loading && payMethod == Card && amount >= 0 ==>
        caption == "Pay " + Hundredths(amount) + " " + Upper(currency)
      ensures !loading && payMethod == Upi ==> caption == "Create UPI Order"
      ensures !loading && payMethod == Cod ==> caption == "Place COD Order"
    {
      PriceTextExact(amount);
      if loading then "Processing…"
      else match payMethod
        case Card =>
          var pay := "Pay " + PriceText(amount) + " " + Upper(currency);
          assert pay[1] != "Processing…"[1];
          pay
        case Upi => "Create UPI Order"
        case Cod => "Place COD Order"
    }

    /** `disabled={loading}`: the button is the only guard against a second
        submit, and it is disabled exactly while it reads "Processing…". */
    function SubmitEnabled(): (enabled: bool)
      reads this
      ensures enabled <==> ButtonLabel() != "Processing…"
    {
      !loading
    }
  }

  /** A fetch that rejects never produces the "recorded locally" status:
      the simulated fallback is reached only by a response that is not ok. */
  method RejectedOrderIsNotSimulated(err: Thrown) returns (c: Checkout)
    ensures c.error == Some(Describe(err)) && c.status == PlacingCod && !c.loading
  {
    c := new Checkout(1999, "inr", "");
    c.SelectMethod(Cod);
    c.HandleSubmit(Environment(true, true, IntentOk(""), GatewayIntent(None), OrderRejected(err)));
  }
}

/** The shop's older card-only payment form (src/components/PaymentForm.jsx).
    The payment-intent POST and the Stripe confirmation are inputs; what the
    form sends is logged in `sent`, and `navigatedTo` records the redirect. */
module PaymentForm {
  import opened Wrappers

  /** The answer to the POST to `/create-payment-intent`: a response body
      with a client secret, or a rejection. */
  datatype PostResponse = PostOk(clientSecret: string) | PostRejected

  /** What `stripe.confirmCardPayment` yields: an error object with its
      message, a result with a payment intent of some status (`None`: the
      result has no payment intent), or a rejection. */
  datatype ConfirmResult = ConfirmError(message: string) | ConfirmIntent(status: Option<string>) | ConfirmRejected

  datatype PayRequest = IntentPost(amount: real) | Confirm(clientSecret: string)

  const InvalidAmount: string := "Invalid amount. Please try again."
  const UnexpectedError: string := "An unexpected error occurred"
  const PaymentFailed: string := "Payment failed. Please try again."
  const SuccessPath: string := "/payment-success"

  /** `!amount`: absent, not a number, or zero. */
  predicate FalsyAmount(amount: Option<real>) {
    amount.None? || amount.value == 0.0
  }

  /** The message a gateway error leaves: its own, or the generic one when
      it has none. */
  function GatewayMessage(message: string): (m: string)
    ensures m != ""
    ensures message != "" ==> m == message
  {
    if message != "" then message else UnexpectedError
  }

  class CardPaymentForm {
    const amount: Option<real>
    var isProcessing: bool
    var paymentError: Option<string>
    var paymentSuccess: bool
    var navigatedTo: Option<string>
    var sent: seq<PayRequest>

    constructor(amount: Option<real>)
      ensures this.amount == amount
      ensures !isProcessing && paymentError.None? && !paymentSuccess && navigatedTo.None? && sent == []
    {
      this.amount := amount;
      isProcessing := false;
      paymentError := None;
      paymentSuccess := false;
      navigatedTo := None;
      sent := [];
    }

    /** `handleSubmit`. The guards come first: without Stripe or an amount
        nothing happens; a negative amount only sets the error. Then the
        intent is created and confirmed. A status other than "succeeded"
        with no error takes no branch and leaves `isProcessing` set. An
        earlier error is never cleared. */
    method HandleSubmit(stripeLoaded: bool, post: PostResponse, confirm: ConfirmResult)
      modifies this`isProcessing, this`paymentError, this`paymentSuccess, this`navigatedTo, this`sent
      ensures !stripeLoaded || FalsyAmount(amount) ==>
        isProcessing == old(isProcessing) && paymentError == old(paymentError) && paymentSuccess == old(paymentSuccess)
        && navigatedTo == old(navigatedTo) && sent == old(sent)
      ensures stripeLoaded && !FalsyAmount(amount) && amount.value < 0.0 ==>
        isProcessing == old(isProcessing) && paymentError == Some(InvalidAmount) && paymentSuccess == old(paymentSuccess)
        && navigatedTo == old(navigatedTo) && sent == old(sent)
      ensures stripeLoaded && !FalsyAmount(amount) && amount.value > 0.0 ==>
        |sent| > |old(sent)| && sent[..|old(sent)| + 1] == old(sent) + [IntentPost(amount.value)]
      // The POST fails: the catch block.
      ensures stripeLoaded && !FalsyAmount(amount) && amount.value > 0.0 && post.PostRejected? ==>
        !isProcessing && paymentError == Some(PaymentFailed) && paymentSuccess == old(paymentSuccess)
        && navigatedTo == old(navigatedTo) && sent == old(sent) + [IntentPost(amount.value)]
      ensures stripeLoaded && !FalsyAmount(amount) && amount.value > 0.0 && post.PostOk? ==>
        sent == old(sent) + [IntentPost(amount.value), Confirm(post.clientSecret)]
      // The confirmation fails, or its result has no payment intent to read: the catch block.
      ensures stripeLoaded && !FalsyAmount(amount) && amount.value > 0.0 && post.PostOk?
              && (confirm.ConfirmRejected? || confirm == ConfirmIntent(None)) ==>
        !isProcessing && paymentError == Some(PaymentFailed) && paymentSuccess == old(paymentSuccess)
        && navigatedTo == old(navigatedTo)
      ensures stripeLoaded && !FalsyAmount(amount) && amount.value > 0.0 && post.PostOk? && confirm.ConfirmError? ==>
        !isProcessing && paymentError == Some(GatewayMessage(confirm.message)) && paymentSuccess == old(paymentSuccess)
        && navigatedTo == old(navigatedTo)
      ensures stripeLoaded && !FalsyAmount(amount) && amount.value > 0.0 && post.PostOk? && confirm == ConfirmIntent(Some("succeeded")) ==>
        !isProcessing && paymentSuccess && navigatedTo == Some(SuccessPath) && paymentError == old(paymentError)
      // Any other status: still processing, nothing else changes.
      ensures stripeLoaded && !FalsyAmount(amount) && amount.value > 0.0 && post.PostOk?
              && confirm.ConfirmIntent? && confirm.status.Some? && confirm.status.value != "succeeded" ==>
        isProcessing && paymentError == old(paymentError) && paymentSuccess == old(paymentSuccess) && navigatedTo == old(navigatedTo)
    {
      if !stripeLoaded || FalsyAmount(amount) {
        return;
      }
      var a := amount.value;
      if a <= 0.0 {
        paymentError := Some(InvalidAmount);
        return;
      }
      isProcessing := true;
      var threw := false;
      sent := sent + [IntentPost(a)];
      match post {
        case PostRejected =>
          threw := true;
        case PostOk(clientSecret) =>
          sent := sent + [Confirm(clientSecret)];
          match confirm {
            case ConfirmRejected =>
              threw := true;
            case ConfirmError(message) =>
              paymentError := Some(GatewayMessage(message));
              isProcessing := false;
            case ConfirmIntent(status) =>
              if status.None? {
                // Reading `status` of a missing payment intent throws.
                threw := true;
              } else if status.value == "succeeded" {
                paymentSuccess := true;
                isProcessing := false;
                navigatedTo := Some(SuccessPath);
              }
          }
      }
      if threw {
        paymentError := Some(PaymentFailed);
        isProcessing := false;
      }
    }

    /** The submit button's text. */
    function ButtonText(): (caption: string)
      reads this
      ensures isProcessing <==> caption == "Processing…"
      ensures !isProcessing <==> caption == "Pay Now"
    {
      if isProcessing then "Processing…" else "Pay Now"
    }

    /** The submit button is disabled while it reads "Processing…", and
        whenever Stripe or its elements are not loaded. */
    function SubmitDisabled(stripeLoaded: bool): (disabled: bool)
      reads this
      ensures disabled <==> ButtonText() == "Processing…" || !stripeLoaded
      ensures !disabled ==> ButtonText() == "Pay Now"
    {
      isProcessing || !stripeLoaded
    }
  }

  /** A payment that stays in "processing" (status other than "succeeded")
      leaves the button disabled for good. */
  method StuckProcessing() returns (f: CardPaymentForm)
    ensures f.isProcessing && f.SubmitDisabled(true) && f.paymentError.None? && !f.paymentSuccess
  {
    f := new CardPaymentForm(Some(19.99));
    f.HandleSubmit(true, PostOk("secret"), ConfirmIntent(Some("requires_action")));
  }

  /** An error from a failed attempt is still shown after a later payment
      succeeds. */
  method StaleErrorAfterSuccess() returns (f: CardPaymentForm)
    ensures f.paymentSuccess && f.paymentError == Some(PaymentFailed) && f.navigatedTo == Some(SuccessPath)
  {
    f := new CardPaymentForm(Some(19.99));
    f.HandleSubmit(true, PostRejected, ConfirmRejected);
    f.HandleSubmit(true, PostOk("secret"), ConfirmIntent(Some("succeeded")));
  }
}

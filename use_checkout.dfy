/**
 * The checkout page's hook: the quote summary derived from the submission,
 * and the payment flow started by "Continue to payment". The flow is a
 * guarded chain of asynchronous steps: a generated quote, a reference number
 * from the host, a payment the host reports as "success", the quote marked
 * "paid" by the quote service, the quote "bound", and finally navigation to
 * the success page. Each step's outcome is an input here; the functions
 * below say where the chain ends, and the hook's methods are proved to reach
 * the same state step by step.
 */
module UseCheckout {
  import opened JsValues
  import BeepSDK
  import BeepSDKMock

  const PageTitle := "Beep Protect"
  const ProductPrefix := "beep\U{2122} Protect Quote - "
  const QuoteUnavailableMessage := "Quote information is not available. Please try again."
  const ReferenceFailMessage := "Failed to generate payment reference. Please try again."
  const PaymentUnsuccessfulMessage := "Payment was not successful. Please try again."
  const PaymentFailMessage := "Payment processing failed. Please try again."
  const ActivationFailMessage :=
    "Payment was successful, but there was an issue with policy activation. Please contact support."

  /** What the hook asks of the outside world, in order. */
  datatype Call =
    | SetTitle(title: JsValue)
    | ReferenceRequest(merchantCode: JsValue, product: JsValue, amount: JsValue, notifyUrl: JsValue)
    | PaymentRequest(amount: JsValue, processingFee: JsValue, referenceNumber: JsValue)
    | MarkPaid(quoteId: JsValue, paymentData: JsValue)
    | Bind(quoteId: JsValue)
    | Navigate(page: string, params: JsValue)

  /** How a quote-service promise settled. */
  datatype ServiceReply = ServiceFailed(message: string) | ServiceAnswered(value: JsValue)

  /** Where the payment flow leaves the hook: the calls it made, the `error`
      state and the `isProcessing` state. A flow whose handler threw before
      any callback was registered leaves `isProcessing` true and `error` null. */
  datatype Settled = Settled(calls: seq<Call>, error: JsValue, isProcessing: bool)

  /** `v.length > 0` for a value that is not null or undefined; a `length`
      that is not a number counts as not positive. */
  predicate LengthPositive(v: JsValue) {
    var l := Get(v, "length");
    l.Some? && l.value.JNum? && l.value.n > 0.0
  }

  /** `v[0]` for a value whose length is positive. */
  function Index0(v: JsValue): (r: JsValue)
    requires LengthPositive(v)
    ensures v.JArr? ==> r == v.items[0]
  {
    match v
    case JArr(a) => a[0]
    case JStr(s) => JStr([s[0]])
    case JObj(p) => if "0" in p then p["0"] else JUndefined
  }

  /** The quote the payment handler works on: `quotes[0]` when `quotes` is
      truthy with a positive length, null otherwise; None when
      `submissionData` is null or undefined, where reading `quotes` throws. */
  function QuoteForPayment(submissionData: JsValue): (r: Option<JsValue>)
    ensures r.None? <==> IsNullish(submissionData)
    ensures submissionData.JObj? && "quotes" in submissionData.props && submissionData.props["quotes"].JArr?
              && |submissionData.props["quotes"].items| > 0
            ==> r == Some(submissionData.props["quotes"].items[0])
    ensures !IsNullish(submissionData)
              && (!Truthy(Get(submissionData, "quotes").value) || !LengthPositive(Get(submissionData, "quotes").value))
            ==> r == Some(JNull)
    ensures submissionData.JObj? && ("quotes" !in submissionData.props || submissionData.props["quotes"] == JArr([]))
            ==> r == Some(JNull)
  {
    if IsNullish(submissionData) then None
    else
      var quotes := Get(submissionData, "quotes").value;
      if Truthy(quotes) && LengthPositive(quotes) then Some(Index0(quotes)) else Some(JNull)
  }

  /** The quote shown on the page, with optional chaining: null when there
      is no submission, no quote list or an empty one. */
  function DerivedQuote(submissionData: JsValue): (r: JsValue)
    ensures IsNullish(submissionData) ==> r == JNull
    ensures submissionData.JObj? && "quotes" in submissionData.props && submissionData.props["quotes"].JArr?
              && |submissionData.props["quotes"].items| > 0
            ==> r == submissionData.props["quotes"].items[0]
    ensures submissionData.JObj? && ("quotes" !in submissionData.props || submissionData.props["quotes"] == JArr([]))
            ==> r == JNull
  {
    if IsNullish(submissionData) then JNull
    else
      var quotes := Get(submissionData, "quotes").value;
      if !IsNullish(quotes) && LengthPositive(quotes) then Index0(quotes) else JNull
  }

  /** The page and the payment handler agree on the quote: the truthiness
      test of the one and the optional chaining of the other select the same
      element. */
  lemma DerivedQuoteAgrees(submissionData: JsValue)
    ensures IsNullish(submissionData) ==> DerivedQuote(submissionData) == JNull
    ensures !IsNullish(submissionData) ==> DerivedQuote(submissionData) == QuoteForPayment(submissionData).value
  {
    if !IsNullish(submissionData) {
      var quotes := Get(submissionData, "quotes").value;
      if !IsNullish(quotes) && !Truthy(quotes) {
        assert !LengthPositive(quotes);
      }
    }
  }

  /** `quote?.data?.beep_cards || []`. */
  function BeepCards(quote: JsValue): (r: JsValue)
    ensures Truthy(r)
    ensures quote.JObj? && "data" in quote.props && quote.props["data"].JObj?
              && "beep_cards" in quote.props["data"].props && Truthy(quote.props["data"].props["beep_cards"])
            ==> r == quote.props["data"].props["beep_cards"]
    ensures IsNullish(quote) ==> r == JArr([])
    ensures !IsNullish(quote) && IsNullish(Get(quote, "data").value) ==> r == JArr([])
    ensures !IsNullish(quote) && !IsNullish(Get(quote, "data").value)
            ==> var cards := Get(Get(quote, "data").value, "beep_cards").value;
                r == if Truthy(cards) then cards else JArr([])
  {
    if IsNullish(quote) then JArr([])
    else
      var data := Get(quote, "data").value;
      if IsNullish(data) then JArr([])
      else
        var cards := Get(data, "beep_cards").value;
        if Truthy(cards) then cards else JArr([])
  }

  /** `formatCurrency(amount)`: `amount.toFixed(2)` after "PHP "; `fixed2`
      stands for `toFixed(2)` on a number. A value that is not a number has
      no `toFixed`, and the call throws (None). */
  function FormatCurrency(fixed2: real -> string, amount: JsValue): (r: Option<string>)
    ensures r.Some? <==> amount.JNum?
    ensures r.Some? ==> r.value == "PHP " + fixed2(amount.n)
  {
    if amount.JNum? then Some("PHP " + fixed2(amount.n)) else None
  }

  datatype Summary = Summary(totalAmount: string, basePremium: string, taxes: string)

  /** The three formatted amounts; all empty when the quote has no truthy
      premium. None when rendering throws: the premium lacks a breakdown or
      one of the amounts is not a number. */
  function PremiumSummary(quote: JsValue, fixed2: real -> string): (r: Option<Summary>)
    ensures (IsNullish(quote) || !Truthy(Get(quote, "premium").value)) ==> r == Some(Summary("", "", ""))
    ensures r.Some? && !IsNullish(quote) && Truthy(Get(quote, "premium").value)
            ==> Some(r.value.totalAmount) == FormatCurrency(fixed2, TotalPremium(quote))
    ensures r.None? ==> !IsNullish(quote) && Truthy(Get(quote, "premium").value)
    ensures !IsNullish(quote) && Truthy(Get(quote, "premium").value)
            ==> var premium := Get(quote, "premium").value;
                var breakdown := Get(premium, "premium_breakdown").value;
                && (r.None? <==> IsNullish(breakdown) || !Get(premium, "total_premium").value.JNum?
                                 || !Get(breakdown, "premium").value.JNum? || !Get(premium, "tax").value.JNum?)
                && (r.Some? ==> Some(r.value.basePremium) == FormatCurrency(fixed2, Get(breakdown, "premium").value)
                                && Some(r.value.taxes) == FormatCurrency(fixed2, Get(premium, "tax").value))
  {
    if IsNullish(quote) then Some(Summary("", "", ""))
    else
      var premium := Get(quote, "premium").value;
      if !Truthy(premium) then Some(Summary("", "", ""))
      else
        var breakdown := Get(premium, "premium_breakdown").value;
        if IsNullish(breakdown) then None
        else
          var total := FormatCurrency(fixed2, Get(premium, "total_premium").value);
          var base := FormatCurrency(fixed2, Get(breakdown, "premium").value);
          var taxes := FormatCurrency(fixed2, Get(premium, "tax").value);
          if total.Some? && base.Some? && taxes.Some? then Some(Summary(total.value, base.value, taxes.value))
          else None
  }

  /** `quote.premium.total_premium`, undefined where a read on the way
      would throw (the payment flow stops before using it then). */
  function TotalPremium(quote: JsValue): (r: JsValue)
    ensures IsNullish(quote) ==> r == JUndefined
    ensures quote.JObj? && "premium" in quote.props && quote.props["premium"].JObj?
            ==> r == Get(quote.props["premium"], "total_premium").value
  {
    if IsNullish(quote) then JUndefined
    else
      var premium := Get(quote, "premium").value;
      if IsNullish(premium) then JUndefined else Get(premium, "total_premium").value
  }

  // ---------------------------------------------------------------------------
  // The payment chain, one function per step

  lemma AppendAssoc(a: seq<Call>, b: seq<Call>, c: seq<Call>)
    ensures (a + b) + c == a + (b + c)
  {
  }

  /** A step that makes call `c` and then ends where `rest` ends. */
  function Then(c: Call, rest: Settled): Settled {
    Settled([c] + rest.calls, rest.error, rest.isProcessing)
  }

  /** The second `then` and the `catch`: processing is cleared; navigation
      to the success page iff the quote is "bound", the activation message
      otherwise, including when the bind request fails or its response has
      no readable `status`. */
  function BindOutcome(paymentResult: JsValue, formData: JsValue, bind: ServiceReply): (s: Settled)
    ensures !s.isProcessing
    ensures s.calls != [] <==> s.error == JNull
  {
    match bind
    case ServiceFailed(_) => Settled([], JStr(ActivationFailMessage), false)
    case ServiceAnswered(bindResponse) =>
      if Get(bindResponse, "status") == Some(JStr("bound")) then
        Settled([Navigate("payment-success", JObj(map["paymentDetails" := paymentResult, "formData" := formData]))],
                JNull, false)
      else Settled([], JStr(ActivationFailMessage), false)
  }

  /** The first `then`: binding is requested only for a quote marked
      "paid"; anything else is caught as the activation message. */
  function MarkPaidOutcome(quoteId: JsValue, paymentResult: JsValue, formData: JsValue,
                           markPaid: ServiceReply, bind: ServiceReply): (s: Settled)
    ensures !s.isProcessing
  {
    match markPaid
    case ServiceFailed(_) => Settled([], JStr(ActivationFailMessage), false)
    case ServiceAnswered(paymentResponse) =>
      if Get(paymentResponse, "status") == Some(JStr("paid")) then Then(Bind(quoteId), BindOutcome(paymentResult, formData, bind))
      else Settled([], JStr(ActivationFailMessage), false)
  }

  /** The record sent to the quote service: the amount, the reference
      number from the reference response and `reference_number` from the
      payment result. */
  function PaymentData(amount: JsValue, referenceData: JsValue, paymentResult: JsValue): (d: JsValue)
    requires !IsNullish(referenceData) && !IsNullish(paymentResult)
    ensures Get(d, "amount") == Some(amount)
    ensures Get(d, "referenceNumber") == Get(referenceData, "referenceNumber")
    ensures Get(d, "reference_number") == Get(paymentResult, "reference_number")
  {
    JObj(map["amount" := amount,
             "referenceNumber" := Get(referenceData, "referenceNumber").value,
             "reference_number" := Get(paymentResult, "reference_number").value])
  }

  /** `processQuoteAfterPayment`: mark the quote paid, bind it, navigate.
      Any failure after the payment ends in the single activation message. */
  function AfterPayment(quoteId: JsValue, amount: JsValue, referenceData: JsValue, paymentResult: JsValue,
                        formData: JsValue, markPaid: ServiceReply, bind: ServiceReply): (s: Settled)
    requires !IsNullish(referenceData) && !IsNullish(paymentResult)
    ensures |s.calls| >= 1 && s.calls[0] == MarkPaid(quoteId, PaymentData(amount, referenceData, paymentResult))
    ensures !s.isProcessing
  {
    Then(MarkPaid(quoteId, PaymentData(amount, referenceData, paymentResult)),
         MarkPaidOutcome(quoteId, paymentResult, formData, markPaid, bind))
  }

  /** The payment result `onSuccess` receives; NoArg reads as undefined. */
  function ArgValue(a: BeepSDK.Arg): JsValue {
    if a.Arg? then a.value else JUndefined
  }

  /** The payment's `onSuccess`: only the status "success", exactly, goes
      on. A null or undefined result makes reading `status` throw inside
      the bridge's `then`; the bridge's `catch` then calls `onSuccess` again
      with an "ERROR" status, which ends as an unsuccessful payment. */
  function PaymentSuccessOutcome(quoteId: JsValue, amount: JsValue, referenceData: JsValue, paymentResult: JsValue,
                                 formData: JsValue, markPaid: ServiceReply, bind: ServiceReply): (s: Settled)
    requires !IsNullish(referenceData)
    ensures !s.isProcessing
    ensures s.calls != [] <==> !IsNullish(paymentResult) && Get(paymentResult, "status") == Some(JStr("success"))
    ensures s.calls != [] ==> s.calls[0] == MarkPaid(quoteId, PaymentData(amount, referenceData, paymentResult))
    ensures s.calls == [] ==> s.error == JStr(PaymentUnsuccessfulMessage)
  {
    if !IsNullish(paymentResult) && Get(paymentResult, "status") == Some(JStr("success")) then
      AfterPayment(quoteId, amount, referenceData, paymentResult, formData, markPaid, bind)
    else Settled([], JStr(PaymentUnsuccessfulMessage), false)
  }

  /** The payment's `onFail`: the error's `message`, or the default. Reading
      `message` of a missing error throws, leaving processing on. */
  function PaymentFailOutcome(err: JsValue): (s: Settled)
    ensures s.calls == []
  {
    if IsNullish(err) then Settled([], JNull, true)
    else
      var message := Get(err, "message").value;
      Settled([], if Truthy(message) then message else JStr(PaymentFailMessage), false)
  }

  function PaymentRequestFor(amount: JsValue, referenceData: JsValue): Call
    requires !IsNullish(referenceData)
  {
    PaymentRequest(amount, Get(referenceData, "processingFee").value, Get(referenceData, "referenceNumber").value)
  }

  /** `processPayment`: one payment request carrying the amount and the
      reference response's fee and reference number, then its callbacks. */
  function Payment(quoteId: JsValue, amount: JsValue, referenceData: JsValue, payment: BeepSDK.Route,
                   formData: JsValue, markPaid: ServiceReply, bind: ServiceReply): (s: Settled)
    requires !IsNullish(referenceData)
    ensures |s.calls| >= 1
    ensures s.calls[0] == PaymentRequest(amount, Get(referenceData, "processingFee").value,
                                         Get(referenceData, "referenceNumber").value)
  {
    Then(PaymentRequestFor(amount, referenceData),
         match payment
         case ToFail(arg) => PaymentFailOutcome(ArgValue(arg))
         case ToSuccess(arg) =>
           PaymentSuccessOutcome(quoteId, amount, referenceData, ArgValue(arg), formData, markPaid, bind))
  }

  /** Both callbacks of a reference-number request receive an object: this
      is what the real bridge and the mock deliver (see
      ReferenceRoutesDeliverObjects). */
  predicate DeliversValue(r: BeepSDK.Route) {
    r.arg.Arg? && !IsNullish(r.arg.value)
  }

  /** The product label: the prefix followed by `String(quoteId)`; `toStr`
      is the string conversion of a non-string identifier. */
  function Product(quoteId: JsValue, toStr: JsValue -> string): (p: JsValue)
    ensures p.JStr? && |p.s| >= |ProductPrefix| && p.s[..|ProductPrefix|] == ProductPrefix
    ensures quoteId.JStr? ==> p.s[|ProductPrefix|..] == quoteId.s
  {
    var name := if quoteId.JStr? then quoteId.s else toStr(quoteId);
    assert (ProductPrefix + name)[..|ProductPrefix|] == ProductPrefix;
    JStr(ProductPrefix + name)
  }

  /** The reference request's `onFail`: the bridge's `errorMessage`, or the
      default message. */
  function ReferenceFailOutcome(err: JsValue): (s: Settled)
    requires !IsNullish(err)
    ensures s.calls == [] && !s.isProcessing
    ensures Truthy(Get(err, "errorMessage").value) ==> s.error == Get(err, "errorMessage").value
    ensures !Truthy(Get(err, "errorMessage").value) ==> s.error == JStr(ReferenceFailMessage)
  {
    var message := Get(err, "errorMessage").value;
    Settled([], if Truthy(message) then message else JStr(ReferenceFailMessage), false)
  }

  /** `requestPaymentReference`: one reference-number request carrying the
      merchant code (undefined: the environment record has no such entry),
      the product label, the amount and an empty notify URL. */
  function Reference(quoteId: JsValue, amount: JsValue, reference: BeepSDK.Route, payment: BeepSDK.Route,
                     formData: JsValue, markPaid: ServiceReply, bind: ServiceReply, toStr: JsValue -> string): (s: Settled)
    requires DeliversValue(reference)
    ensures |s.calls| >= 1 && s.calls[0] == ReferenceRequest(JUndefined, Product(quoteId, toStr), amount, JStr(""))
  {
    Then(ReferenceRequest(JUndefined, Product(quoteId, toStr), amount, JStr("")),
         if reference.ToFail? then ReferenceFailOutcome(reference.arg.value)
         else Payment(quoteId, amount, reference.arg.value, payment, formData, markPaid, bind))
  }

  /** The quote passes the handler's guard: it exists and its status is
      exactly "generated". */
  predicate Payable(quote: JsValue) {
    Truthy(quote) && Get(quote, "status") == Some(JStr("generated"))
  }

  /** `handleContinuePayment`, from `isProcessing` set and `error` cleared. */
  function Continue(submissionData: JsValue, formData: JsValue, reference: BeepSDK.Route, payment: BeepSDK.Route,
                    markPaid: ServiceReply, bind: ServiceReply, toStr: JsValue -> string): (s: Settled)
    requires DeliversValue(reference)
    ensures IsNullish(submissionData) ==> s == Settled([], JNull, true)
    ensures !Started(submissionData) ==> s.calls == []
    ensures !IsNullish(submissionData) && !Payable(QuoteForPayment(submissionData).value)
            ==> s == Settled([], JStr(QuoteUnavailableMessage), false)
  {
    match QuoteForPayment(submissionData)
    case None => Settled([], JNull, true)
    case Some(quote) =>
      if !Payable(quote) then Settled([], JStr(QuoteUnavailableMessage), false)
      else
        var premium := Get(quote, "premium").value;
        if IsNullish(premium) then Settled([], JNull, true)
        else Reference(Get(quote, "id").value, Get(premium, "total_premium").value, reference, payment,
                       formData, markPaid, bind, toStr)
  }

  // ---------------------------------------------------------------------------
  // Properties of the chain

  predicate Requested(calls: seq<Call>, p: Call -> bool) {
    exists i :: 0 <= i < |calls| && p(calls[i])
  }

  predicate IsMarkPaid(c: Call) { c.MarkPaid? }
  predicate IsBind(c: Call) { c.Bind? }
  predicate IsNavigate(c: Call) { c.Navigate? }

  /** Neither a reference-number nor a payment request. */
  predicate NoBridgeRequest(c: Call) { !c.ReferenceRequest? && !c.PaymentRequest? }

  lemma RequestedConcat(xs: seq<Call>, ys: seq<Call>, p: Call -> bool)
    ensures Requested(xs + ys, p) <==> Requested(xs, p) || Requested(ys, p)
  {
    if Requested(xs, p) {
      var i :| 0 <= i < |xs| && p(xs[i]);
      assert (xs + ys)[i] == xs[i];
    }
    if Requested(ys, p) {
      var i :| 0 <= i < |ys| && p(ys[i]);
      assert (xs + ys)[|xs| + i] == ys[i];
    }
    if Requested(xs + ys, p) {
      var i :| 0 <= i < |xs + ys| && p((xs + ys)[i]);
      if i < |xs| {
        assert (xs + ys)[i] == xs[i];
      } else {
        assert (xs + ys)[i] == ys[i - |xs|];
      }
    }
  }

  /** The payment result reads "success". */
  predicate ReportsSuccess(payment: BeepSDK.Route) {
    && payment.ToSuccess?
    && !IsNullish(ArgValue(payment.arg))
    && Get(ArgValue(payment.arg), "status") == Some(JStr("success"))
  }

  /** The reference arrived and the payment result reads "success". */
  predicate PaymentSucceeded(reference: BeepSDK.Route, payment: BeepSDK.Route) {
    reference.ToSuccess? && ReportsSuccess(payment)
  }

  predicate Answered(reply: ServiceReply, status: string) {
    reply.ServiceAnswered? && Get(reply.value, "status") == Some(JStr(status))
  }

  /** The handler gets past its guard and its reads: there is a quote, its
      status is "generated" and it has a premium. */
  predicate Started(submissionData: JsValue) {
    && !IsNullish(submissionData)
    && Payable(QuoteForPayment(submissionData).value)
    && !IsNullish(Get(QuoteForPayment(submissionData).value, "premium").value)
  }

  /** What the chain does after the payment: marking paid always, binding
      iff the quote was marked "paid", navigating iff it was also "bound",
      and otherwise the activation message. */
  lemma AfterPaymentOutcomes(quoteId: JsValue, amount: JsValue, referenceData: JsValue, paymentResult: JsValue,
                             formData: JsValue, markPaid: ServiceReply, bind: ServiceReply)
    requires !IsNullish(referenceData) && !IsNullish(paymentResult)
    ensures var a := AfterPayment(quoteId, amount, referenceData, paymentResult, formData, markPaid, bind);
            && (forall i :: 0 <= i < |a.calls| ==> NoBridgeRequest(a.calls[i]))
            && Requested(a.calls, IsMarkPaid)
            && (Requested(a.calls, IsBind) <==> Answered(markPaid, "paid"))
            && (Requested(a.calls, IsNavigate) <==> Answered(markPaid, "paid") && Answered(bind, "bound"))
            && (Requested(a.calls, IsNavigate) ==> a.error == JNull)
            && (!Requested(a.calls, IsNavigate) ==> a.error == JStr(ActivationFailMessage))
  {
    var a := AfterPayment(quoteId, amount, referenceData, paymentResult, formData, markPaid, bind);
    assert IsMarkPaid(a.calls[0]);
    if Answered(markPaid, "paid") {
      assert IsBind(a.calls[1]);
      if Answered(bind, "bound") {
        assert |a.calls| == 3 && IsNavigate(a.calls[2]);
      } else {
        assert |a.calls| == 2 && !IsNavigate(a.calls[0]) && !IsNavigate(a.calls[1]);
      }
    } else {
      assert |a.calls| == 1;
    }
  }

  /** The same from the payment request on. */
  lemma PaymentOutcomes(quoteId: JsValue, amount: JsValue, referenceData: JsValue, payment: BeepSDK.Route,
                        formData: JsValue, markPaid: ServiceReply, bind: ServiceReply)
    requires !IsNullish(referenceData)
    ensures var p := Payment(quoteId, amount, referenceData, payment, formData, markPaid, bind);
            && (forall i :: 1 <= i < |p.calls| ==> NoBridgeRequest(p.calls[i]))
            && (Requested(p.calls, IsMarkPaid) <==> ReportsSuccess(payment))
            && (Requested(p.calls, IsNavigate) <==> ReportsSuccess(payment) && Answered(markPaid, "paid") && Answered(bind, "bound"))
            && (Requested(p.calls, IsNavigate) ==> p.error == JNull && !p.isProcessing)
            && (ReportsSuccess(payment) ==> (Requested(p.calls, IsBind) <==> Answered(markPaid, "paid")))
            && (ReportsSuccess(payment) && !(Answered(markPaid, "paid") && Answered(bind, "bound"))
                ==> p.error == JStr(ActivationFailMessage) && !p.isProcessing)
            && (payment.ToSuccess? && !ReportsSuccess(payment)
                ==> p.error == JStr(PaymentUnsuccessfulMessage) && !p.isProcessing)
  {
    PaymentUnfolds(quoteId, amount, referenceData, payment, formData, markPaid, bind);
    var p := Payment(quoteId, amount, referenceData, payment, formData, markPaid, bind);
    var request := [PaymentRequestFor(amount, referenceData)];
    if ReportsSuccess(payment) {
      var a := AfterPayment(quoteId, amount, referenceData, ArgValue(payment.arg), formData, markPaid, bind);
      AfterPaymentOutcomes(quoteId, amount, referenceData, ArgValue(payment.arg), formData, markPaid, bind);
      RequestedConcat(request, a.calls, IsMarkPaid);
      RequestedConcat(request, a.calls, IsBind);
      RequestedConcat(request, a.calls, IsNavigate);
    }
  }

  /** Processing a payment is its request followed by the chain after the
      payment when the result reads "success", and by nothing else
      otherwise. */
  lemma PaymentUnfolds(quoteId: JsValue, amount: JsValue, referenceData: JsValue, payment: BeepSDK.Route,
                       formData: JsValue, markPaid: ServiceReply, bind: ServiceReply)
    requires !IsNullish(referenceData)
    ensures var p := Payment(quoteId, amount, referenceData, payment, formData, markPaid, bind);
            ReportsSuccess(payment) ==>
              p == Then(PaymentRequestFor(amount, referenceData),
                        AfterPayment(quoteId, amount, referenceData, ArgValue(payment.arg), formData, markPaid, bind))
    ensures var p := Payment(quoteId, amount, referenceData, payment, formData, markPaid, bind);
            payment.ToSuccess? && !ReportsSuccess(payment) ==>
              p == Settled([PaymentRequestFor(amount, referenceData)], JStr(PaymentUnsuccessfulMessage), false)
    ensures var p := Payment(quoteId, amount, referenceData, payment, formData, markPaid, bind);
            payment.ToFail? ==> p.calls == [PaymentRequestFor(amount, referenceData)]
  {
  }

  /** Past the guard, the handler is the reference-number step on the
      quote's identifier and total premium. */
  lemma ContinueStarted(submissionData: JsValue, formData: JsValue, reference: BeepSDK.Route, payment: BeepSDK.Route,
                        markPaid: ServiceReply, bind: ServiceReply, toStr: JsValue -> string)
    requires DeliversValue(reference) && Started(submissionData)
    ensures var quote := QuoteForPayment(submissionData).value;
            Continue(submissionData, formData, reference, payment, markPaid, bind, toStr)
              == Reference(Get(quote, "id").value, TotalPremium(quote), reference, payment, formData, markPaid, bind, toStr)
  {
  }

  /** Every bridge request of the reference step carries its amount. */
  lemma ReferenceAmounts(quoteId: JsValue, amount: JsValue, reference: BeepSDK.Route, payment: BeepSDK.Route,
                         formData: JsValue, markPaid: ServiceReply, bind: ServiceReply, toStr: JsValue -> string)
    requires DeliversValue(reference)
    ensures var s := Reference(quoteId, amount, reference, payment, formData, markPaid, bind, toStr);
            forall i :: 0 <= i < |s.calls| && !NoBridgeRequest(s.calls[i]) ==> s.calls[i].amount == amount
  {
    var s := Reference(quoteId, amount, reference, payment, formData, markPaid, bind, toStr);
    if reference.ToSuccess? {
      var p := Payment(quoteId, amount, reference.arg.value, payment, formData, markPaid, bind);
      PaymentOutcomes(quoteId, amount, reference.arg.value, payment, formData, markPaid, bind);
      forall i | 1 <= i < |s.calls| ensures s.calls[i] == p.calls[i - 1] {
      }
    } else {
      assert |s.calls| == 1;
    }
  }

  /** A chain that gets past the guard asks for a reference number first,
      and every amount it sends is the quote's total premium. */
  lemma ChargedAmountIsTotalPremium(submissionData: JsValue, formData: JsValue,
      reference: BeepSDK.Route, payment: BeepSDK.Route, markPaid: ServiceReply, bind: ServiceReply,
      toStr: JsValue -> string)
    requires DeliversValue(reference)
    ensures var s := Continue(submissionData, formData, reference, payment, markPaid, bind, toStr);
            forall i :: 0 <= i < |s.calls| && !NoBridgeRequest(s.calls[i])
              ==> s.calls[i].amount == TotalPremium(QuoteForPayment(submissionData).value)
  {
    if Started(submissionData) {
      var quote := QuoteForPayment(submissionData).value;
      ContinueStarted(submissionData, formData, reference, payment, markPaid, bind, toStr);
      ReferenceAmounts(Get(quote, "id").value, TotalPremium(quote), reference, payment, formData, markPaid, bind, toStr);
    }
  }

  /** Marking the quote paid is requested iff the reference arrived and the
      payment result's status is exactly "success"; a payment result with
      any other status ends with "Payment was not successful". */
  lemma MarkPaidIffPaymentSucceeded(submissionData: JsValue, formData: JsValue,
      reference: BeepSDK.Route, payment: BeepSDK.Route, markPaid: ServiceReply, bind: ServiceReply,
      toStr: JsValue -> string)
    requires DeliversValue(reference) && Started(submissionData)
    ensures var s := Continue(submissionData, formData, reference, payment, markPaid, bind, toStr);
            Requested(s.calls, IsMarkPaid) <==> PaymentSucceeded(reference, payment)
    ensures var s := Continue(submissionData, formData, reference, payment, markPaid, bind, toStr);
            reference.ToSuccess? && payment.ToSuccess? && !PaymentSucceeded(reference, payment)
            ==> s.error == JStr(PaymentUnsuccessfulMessage) && !s.isProcessing
  {
    var s := Continue(submissionData, formData, reference, payment, markPaid, bind, toStr);
    var quote := QuoteForPayment(submissionData).value;
    var amount := TotalPremium(quote);
    var quoteId := Get(quote, "id").value;
    ContinueStarted(submissionData, formData, reference, payment, markPaid, bind, toStr);
    if reference.ToSuccess? {
      var p := Payment(quoteId, amount, reference.arg.value, payment, formData, markPaid, bind);
      PaymentOutcomes(quoteId, amount, reference.arg.value, payment, formData, markPaid, bind);
      assert s.calls == [s.calls[0]] + p.calls;
      RequestedConcat([s.calls[0]], p.calls, IsMarkPaid);
    } else {
      assert s.calls == [s.calls[0]];
    }
  }

  /** The chain reaches the success page iff every step succeeded: the
      guard, the payment, the quote marked "paid" and the quote "bound"; it
      then ends with no error and not processing. */
  lemma NavigatesIffBound(submissionData: JsValue, formData: JsValue,
      reference: BeepSDK.Route, payment: BeepSDK.Route, markPaid: ServiceReply, bind: ServiceReply,
      toStr: JsValue -> string)
    requires DeliversValue(reference)
    ensures var s := Continue(submissionData, formData, reference, payment, markPaid, bind, toStr);
            Requested(s.calls, IsNavigate) <==>
              Started(submissionData) && PaymentSucceeded(reference, payment)
              && Answered(markPaid, "paid") && Answered(bind, "bound")
    ensures var s := Continue(submissionData, formData, reference, payment, markPaid, bind, toStr);
            Requested(s.calls, IsNavigate) ==> s.error == JNull && !s.isProcessing
  {
    var s := Continue(submissionData, formData, reference, payment, markPaid, bind, toStr);
    if Started(submissionData) {
      var quote := QuoteForPayment(submissionData).value;
      var amount := TotalPremium(quote);
      var quoteId := Get(quote, "id").value;
      ContinueStarted(submissionData, formData, reference, payment, markPaid, bind, toStr);
      if reference.ToSuccess? {
        var p := Payment(quoteId, amount, reference.arg.value, payment, formData, markPaid, bind);
        PaymentOutcomes(quoteId, amount, reference.arg.value, payment, formData, markPaid, bind);
        assert s.calls == [s.calls[0]] + p.calls;
        RequestedConcat([s.calls[0]], p.calls, IsNavigate);
      } else {
        assert s.calls == [s.calls[0]];
      }
    }
  }

  /** After a successful payment every failure, whatever step it is in,
      ends with the one activation message and processing cleared; binding
      was asked for iff the quote was marked "paid". */
  lemma FailureAfterPaymentIsActivationError(submissionData: JsValue, formData: JsValue,
      reference: BeepSDK.Route, payment: BeepSDK.Route, markPaid: ServiceReply, bind: ServiceReply,
      toStr: JsValue -> string)
    requires DeliversValue(reference) && Started(submissionData) && PaymentSucceeded(reference, payment)
    requires !(Answered(markPaid, "paid") && Answered(bind, "bound"))
    ensures var s := Continue(submissionData, formData, reference, payment, markPaid, bind, toStr);
            s.error == JStr(ActivationFailMessage) && !s.isProcessing
    ensures var s := Continue(submissionData, formData, reference, payment, markPaid, bind, toStr);
            Requested(s.calls, IsBind) <==> Answered(markPaid, "paid")
  {
    var s := Continue(submissionData, formData, reference, payment, markPaid, bind, toStr);
    var quote := QuoteForPayment(submissionData).value;
    var amount := TotalPremium(quote);
    var quoteId := Get(quote, "id").value;
    ContinueStarted(submissionData, formData, reference, payment, markPaid, bind, toStr);
    var p := Payment(quoteId, amount, reference.arg.value, payment, formData, markPaid, bind);
    PaymentOutcomes(quoteId, amount, reference.arg.value, payment, formData, markPaid, bind);
    assert s.calls == [s.calls[0]] + p.calls;
    RequestedConcat([s.calls[0]], p.calls, IsBind);
  }

  /** A reference-number failure sets the bridge's `errorMessage`, or the
      default message when it has none, and clears processing; nothing is
      asked of the payment bridge. */
  lemma ReferenceFailureStopsChain(quoteId: JsValue, amount: JsValue, reference: BeepSDK.Route,
      payment: BeepSDK.Route, formData: JsValue, markPaid: ServiceReply, bind: ServiceReply, toStr: JsValue -> string)
    requires DeliversValue(reference) && reference.ToFail?
    ensures var s := Reference(quoteId, amount, reference, payment, formData, markPaid, bind, toStr);
            && |s.calls| == 1 && !s.isProcessing
            && (Truthy(Get(reference.arg.value, "errorMessage").value) ==> s.error == Get(reference.arg.value, "errorMessage").value)
            && (!Truthy(Get(reference.arg.value, "errorMessage").value) ==> s.error == JStr(ReferenceFailMessage))
  {
  }

  // ---------------------------------------------------------------------------
  // The bridges' side of the chain

  /** Every outcome of a reference-number request, from the real bridge
      whatever the host does and from the mock, hands its callback an
      object, as Reference requires. */
  lemma ReferenceRoutesDeliverObjects(merchantCode: JsValue, product: JsValue, amount: JsValue, notifyUrl: JsValue,
                                      t: BeepSDK.Transport)
    ensures DeliversValue(BeepSDK.RequestReferenceNumber(merchantCode, product, amount, notifyUrl, t).route)
    ensures DeliversValue(BeepSDKMock.RequestReferenceNumber(merchantCode, product, amount, notifyUrl))
  {
  }

  /** The payment's failure callback is dead code: neither bridge ever
      routes a payment outcome to it. */
  lemma PaymentFailureCallbackUnreachable(paymentType: JsValue, amount: JsValue, fee: JsValue, ref: JsValue,
                                          t: BeepSDK.Transport, now: nat)
    ensures BeepSDK.RequestPayment(paymentType, amount, fee, ref, t).route.ToSuccess?
    ensures BeepSDKMock.RequestPayment(paymentType, amount, fee, ref, now).ToSuccess?
  {
  }

  /** The mock reports the status "SUCCESS" in capitals, which is not the
      "success" the hook compares against: in a browser the chain always
      stops at "Payment was not successful" and never marks the quote paid. */
  lemma MockPaymentNeverMarksPaid(submissionData: JsValue, formData: JsValue, reference: BeepSDK.Route,
      fee: JsValue, ref: JsValue, now: nat, markPaid: ServiceReply, bind: ServiceReply, toStr: JsValue -> string)
    requires DeliversValue(reference) && reference.ToSuccess? && Started(submissionData)
    ensures var payment := BeepSDKMock.RequestPayment(JUndefined, TotalPremium(QuoteForPayment(submissionData).value), fee, ref, now);
            var s := Continue(submissionData, formData, reference, payment, markPaid, bind, toStr);
            !Requested(s.calls, IsMarkPaid) && s.error == JStr(PaymentUnsuccessfulMessage) && !s.isProcessing
  {
    var payment := BeepSDKMock.RequestPayment(JUndefined, TotalPremium(QuoteForPayment(submissionData).value), fee, ref, now);
    assert JStr("SUCCESS") != JStr("success") by { assert "SUCCESS"[0] != "success"[0]; }
    assert !PaymentSucceeded(reference, payment);
    MarkPaidIffPaymentSucceeded(submissionData, formData, reference, payment, markPaid, bind, toStr);
  }

  // ---------------------------------------------------------------------------
  // The hook's state

  class CheckoutHook {
    var submissionData: JsValue
    var formData: JsValue
    var isProcessing: bool
    var error: JsValue
    var loading: bool
    /** Everything the hook has asked of the bridge, the services and the
        router, in order. */
    var calls: seq<Call>

    constructor ()
      ensures submissionData == JNull && formData == JObj(map[]) && !isProcessing && error == JNull
      ensures loading && calls == []
    {
      submissionData := JNull;
      formData := JObj(map[]);
      isProcessing := false;
      error := JNull;
      loading := true;
      calls := [];
    }

    /** The effect run for the page parameters: set the title, take over a
        truthy submission and form from the parameters, stop loading. */
    method Mount(pageParams: JsValue)
      modifies this
      ensures calls == old(calls) + [SetTitle(JStr(PageTitle))]
      ensures submissionData == (if Truthy(pageParams) && Truthy(Get(pageParams, "submissionData").value)
                                 then Get(pageParams, "submissionData").value else old(submissionData))
      ensures formData == (if Truthy(pageParams) && Truthy(Get(pageParams, "formData").value)
                           then Get(pageParams, "formData").value else old(formData))
      ensures !loading && isProcessing == old(isProcessing) && error == old(error)
    {
      calls := calls + [SetTitle(JStr(PageTitle))];
      if Truthy(pageParams) && Truthy(Get(pageParams, "submissionData").value) {
        submissionData := Get(pageParams, "submissionData").value;
      }
      if Truthy(pageParams) && Truthy(Get(pageParams, "formData").value) {
        formData := Get(pageParams, "formData").value;
      }
      loading := false;
    }

    /** Back to the application form; the form is kept by the app state. */
    method HandleNavigateBack()
      modifies this
      ensures calls == old(calls) + [Navigate("application-form", JUndefined)]
      ensures submissionData == old(submissionData) && formData == old(formData)
      ensures isProcessing == old(isProcessing) && error == old(error) && loading == old(loading)
    {
      calls := calls + [Navigate("application-form", JUndefined)];
    }

    /** The bind request's `then` and the chain's `catch`. */
    method OnBindResponse(paymentResult: JsValue, bind: ServiceReply)
      requires error == JNull
      modifies this
      ensures var s := BindOutcome(paymentResult, old(formData), bind);
              calls == old(calls) + s.calls && error == s.error && isProcessing == s.isProcessing
      ensures submissionData == old(submissionData) && formData == old(formData) && loading == old(loading)
    {
      if bind.ServiceAnswered? {
        isProcessing := false;
        if Get(bind.value, "status") == Some(JStr("bound")) {
          calls := calls + [Navigate("payment-success",
                                     JObj(map["paymentDetails" := paymentResult, "formData" := formData]))];
          return;
        }
      }
      error := JStr(ActivationFailMessage);
      isProcessing := false;
    }

    /** The mark-paid request's `then` and the chain's `catch`. */
    method OnMarkPaidResponse(quoteId: JsValue, paymentResult: JsValue, markPaid: ServiceReply, bind: ServiceReply)
      requires error == JNull
      modifies this
      ensures var s := MarkPaidOutcome(quoteId, paymentResult, old(formData), markPaid, bind);
              calls == old(calls) + s.calls && error == s.error && isProcessing == s.isProcessing
      ensures submissionData == old(submissionData) && formData == old(formData) && loading == old(loading)
    {
      if markPaid.ServiceAnswered? && Get(markPaid.value, "status") == Some(JStr("paid")) {
        calls := calls + [Bind(quoteId)];
        OnBindResponse(paymentResult, bind);
        AppendAssoc(old(calls), [Bind(quoteId)], BindOutcome(paymentResult, formData, bind).calls);
      } else {
        error := JStr(ActivationFailMessage);
        isProcessing := false;
      }
    }

    method ProcessQuoteAfterPayment(quoteId: JsValue, amount: JsValue, referenceData: JsValue, paymentResult: JsValue,
                                    markPaid: ServiceReply, bind: ServiceReply)
      requires !IsNullish(referenceData) && !IsNullish(paymentResult) && error == JNull
      modifies this
      ensures var s := AfterPayment(quoteId, amount, referenceData, paymentResult, old(formData), markPaid, bind);
              calls == old(calls) + s.calls && error == s.error && isProcessing == s.isProcessing
      ensures submissionData == old(submissionData) && formData == old(formData) && loading == old(loading)
    {
      var marking := MarkPaid(quoteId, PaymentData(amount, referenceData, paymentResult));
      calls := calls + [marking];
      OnMarkPaidResponse(quoteId, paymentResult, markPaid, bind);
      AppendAssoc(old(calls), [marking], MarkPaidOutcome(quoteId, paymentResult, formData, markPaid, bind).calls);
    }

    /** The payment's `onSuccess`. */
    method OnPaymentSuccess(quoteId: JsValue, amount: JsValue, referenceData: JsValue, paymentResult: JsValue,
                            markPaid: ServiceReply, bind: ServiceReply)
      requires !IsNullish(referenceData) && error == JNull
      modifies this
      ensures var s := PaymentSuccessOutcome(quoteId, amount, referenceData, paymentResult, old(formData), markPaid, bind);
              calls == old(calls) + s.calls && error == s.error && isProcessing == s.isProcessing
      ensures submissionData == old(submissionData) && formData == old(formData) && loading == old(loading)
    {
      if !IsNullish(paymentResult) && Get(paymentResult, "status") == Some(JStr("success")) {
        ProcessQuoteAfterPayment(quoteId, amount, referenceData, paymentResult, markPaid, bind);
      } else {
        error := JStr(PaymentUnsuccessfulMessage);
        isProcessing := false;
      }
    }

    /** The payment's `onFail`. */
    method OnPaymentFail(err: JsValue)
      requires isProcessing && error == JNull
      modifies this
      ensures var s := PaymentFailOutcome(err);
              calls == old(calls) && error == s.error && isProcessing == s.isProcessing
      ensures submissionData == old(submissionData) && formData == old(formData) && loading == old(loading)
    {
      if !IsNullish(err) {
        var message := Get(err, "message").value;
        error := if Truthy(message) then message else JStr(PaymentFailMessage);
        isProcessing := false;
      }
    }

    method ProcessPayment(quoteId: JsValue, amount: JsValue, referenceData: JsValue, payment: BeepSDK.Route,
                          markPaid: ServiceReply, bind: ServiceReply)
      requires !IsNullish(referenceData) && isProcessing && error == JNull
      modifies this
      ensures var s := Payment(quoteId, amount, referenceData, payment, old(formData), markPaid, bind);
              calls == old(calls) + s.calls && error == s.error && isProcessing == s.isProcessing
      ensures submissionData == old(submissionData) && formData == old(formData) && loading == old(loading)
    {
      var request := PaymentRequestFor(amount, referenceData);
      calls := calls + [request];
      if payment.ToFail? {
        OnPaymentFail(ArgValue(payment.arg));
      } else {
        OnPaymentSuccess(quoteId, amount, referenceData, ArgValue(payment.arg), markPaid, bind);
        AppendAssoc(old(calls), [request],
                    PaymentSuccessOutcome(quoteId, amount, referenceData, ArgValue(payment.arg), formData, markPaid, bind).calls);
      }
    }

    /** The reference request's `onFail`. */
    method OnReferenceFail(err: JsValue)
      requires !IsNullish(err)
      modifies this
      ensures var s := ReferenceFailOutcome(err);
              calls == old(calls) && error == s.error && isProcessing == s.isProcessing
      ensures submissionData == old(submissionData) && formData == old(formData) && loading == old(loading)
    {
      var message := Get(err, "errorMessage").value;
      error := if Truthy(message) then message else JStr(ReferenceFailMessage);
      isProcessing := false;
    }

    method RequestPaymentReference(quoteId: JsValue, amount: JsValue, reference: BeepSDK.Route,
                                   payment: BeepSDK.Route, markPaid: ServiceReply, bind: ServiceReply,
                                   toStr: JsValue -> string)
      requires DeliversValue(reference) && isProcessing && error == JNull
      modifies this
      ensures var s := Reference(quoteId, amount, reference, payment, old(formData), markPaid, bind, toStr);
              calls == old(calls) + s.calls && error == s.error && isProcessing == s.isProcessing
      ensures submissionData == old(submissionData) && formData == old(formData) && loading == old(loading)
    {
      var request := ReferenceRequest(JUndefined, Product(quoteId, toStr), amount, JStr(""));
      calls := calls + [request];
      if reference.ToSuccess? {
        ProcessPayment(quoteId, amount, reference.arg.value, payment, markPaid, bind);
        AppendAssoc(old(calls), [request], Payment(quoteId, amount, reference.arg.value, payment, formData, markPaid, bind).calls);
      } else {
        OnReferenceFail(reference.arg.value);
      }
    }

    /** "Continue to payment". A missing submission or premium makes the
        handler throw before any request, leaving processing on. */
    method HandleContinuePayment(reference: BeepSDK.Route, payment: BeepSDK.Route,
                                 markPaid: ServiceReply, bind: ServiceReply, toStr: JsValue -> string)
      requires DeliversValue(reference)
      modifies this
      ensures var s := Continue(old(submissionData), old(formData), reference, payment, markPaid, bind, toStr);
              calls == old(calls) + s.calls && error == s.error && isProcessing == s.isProcessing
      ensures submissionData == old(submissionData) && formData == old(formData) && loading == old(loading)
    {
      isProcessing := true;
      error := JNull;
      if IsNullish(submissionData) {
        return;
      }
      var quotes := Get(submissionData, "quotes").value;
      var quote := if Truthy(quotes) && LengthPositive(quotes) then Index0(quotes) else JNull;
      if !Truthy(quote) || Get(quote, "status") != Some(JStr("generated")) {
        error := JStr(QuoteUnavailableMessage);
        isProcessing := false;
        return;
      }
      var premium := Get(quote, "premium").value;
      if IsNullish(premium) {
        return;
      }
      var totalAmount := Get(premium, "total_premium").value;
      RequestPaymentReference(Get(quote, "id").value, totalAmount, reference, payment, markPaid, bind, toStr);
    }
  }
}

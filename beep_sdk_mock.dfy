/**
 * The in-browser stand-in for the host: `beepSDKMock` answers every
 * operation with a canned value after a delay (the delay is not modelled),
 * and `MiniAppMock` stores the lifecycle handlers and fires onReady once
 * from a timer. No mock operation calls the host transport.
 */
module BeepSDKMock {
  import opened JsValues
  import opened BeepSDK

  const MockUser: JsValue := JObj(map[
    "id" := JNum(1403.0),
    "firstName" := JStr("Test"),
    "lastName" := JStr("User"),
    "phoneNumber" := JStr("09123456789"),
    "email" := JStr("user@test.com")])

  function CardRecord(can: string, expiry: string, status: string, balance: real): JsValue {
    JObj(map["can" := JStr(can), "expiry" := JStr(expiry), "status" := JStr(status), "balance" := JNum(balance)])
  }

  const MockCardList: seq<JsValue> := [
    CardRecord("6378059900462120", "2024-12-31 00:00:00.000Z", "ACTIVE", 6197.49),
    CardRecord("6378059900462121", "2025-01-31 00:00:00.000Z", "INACTIVE", 1500.00)]

  const MockCards: JsValue := JObj(map["cards" := JArr(MockCardList)])

  const MockReferenceNumber: JsValue :=
    JObj(map["referenceNumber" := JStr("REF-12345-67890"), "message" := JStr("Success")])

  const MockPhone: JsValue := JObj(map["phoneNumber" := JStr("09123456789"), "name" := JStr("John Doe")])

  /** A card as the host reports it: an object with can, expiry, status and balance. */
  predicate HasCardShape(v: JsValue) {
    v.JObj? && "can" in v.props && "expiry" in v.props && "status" in v.props && "balance" in v.props
  }

  /** Decimal digits of n, as `String(n)` writes a non-negative integer. */
  function NatToString(n: nat): (s: string)
    ensures |s| >= 1 && AllDigits(s)
    ensures DigitsValue(s) == n
    ensures s[0] == '0' ==> n == 0
  {
    var last := [(('0' as int) + n % 10) as char];
    if n < 10 then
      assert last[..0] == [];
      last
    else
      var prefix := NatToString(n / 10);
      var s := prefix + last;
      assert s[..|s| - 1] == prefix;
      assert s[0] == prefix[0];
      s
  }

  // ---------------------------------------------------------------------------
  // beepSDKMock

  function GetUser(): (r: Route)
    ensures r.ToSuccess? && r.arg.Arg? && HasField(r.arg.value, "id")
    ensures r == BeepSDK.GetUser(Present(Resolved(MockUser))).route
  {
    ToSuccess(Arg(MockUser))
  }

  function GetCards(): (r: Route)
    ensures r.ToSuccess? && r.arg.Arg? && HasField(r.arg.value, "cards")
    ensures r.arg.value.props["cards"].JArr?
    ensures |r.arg.value.props["cards"].items| == 2
    ensures forall c :: c in r.arg.value.props["cards"].items ==> HasCardShape(c)
    ensures r == BeepSDK.GetCards(Present(Resolved(MockCards))).route
  {
    ToSuccess(Arg(MockCards))
  }

  function RequestReferenceNumber(merchantCode: JsValue, product: JsValue, amount: JsValue, notifyUrl: JsValue): (r: Route)
    ensures r.ToSuccess? && r.arg.Arg? && HasField(r.arg.value, "referenceNumber")
    ensures r == BeepSDK.RequestReferenceNumber(merchantCode, product, amount, notifyUrl,
                                                Present(Resolved(MockReferenceNumber))).route
  {
    ToSuccess(Arg(MockReferenceNumber))
  }

  /** The canned payment result; `now` is `Date.now()`. */
  function PaymentResult(now: nat): JsValue {
    JObj(map["status" := JStr("SUCCESS"), "message" := JStr("Payment successful"),
             "transactionId" := JStr("TXN-" + NatToString(now))])
  }

  function RequestPayment(paymentType: JsValue, amount: JsValue, processingFee: JsValue, referenceNumber: JsValue,
                          now: nat): (r: Route)
    ensures r.ToSuccess? && r.arg.Arg? && r.arg.value.JObj?
    ensures Get(r.arg.value, "status") == Some(JStr("SUCCESS"))
    ensures var id := Get(r.arg.value, "transactionId");
            && id.Some? && id.value.JStr? && |id.value.s| > 4 && id.value.s[..4] == "TXN-"
            && AllDigits(id.value.s[4..]) && DigitsValue(id.value.s[4..]) == now
  {
    var result := PaymentResult(now);
    var id := "TXN-" + NatToString(now);
    assert id[4..] == NatToString(now);
    ToSuccess(Arg(result))
  }

  /** Always confirms; onDismissPressed is never called. */
  function ShowDialog(title: JsValue, description: JsValue, confirmTitle: JsValue, dismissTitle: JsValue): (r: Route)
    ensures r.ToSuccess? && r.arg == NoArg
    ensures r == BeepSDK.ShowDialog(title, description, confirmTitle, dismissTitle, Present(Resolved(JBool(true)))).route
  {
    ToSuccess(NoArg)
  }

  function ChooseImageFromFile(allowMultiple: JsValue): (r: Route)
    ensures r.ToSuccess? && r.arg.Arg?
    ensures Truthy(allowMultiple) ==> r.arg.value.JArr? && |r.arg.value.items| == 2
    ensures !Truthy(allowMultiple) ==> r.arg.value.JStr?
  {
    ToSuccess(Arg(if Truthy(allowMultiple)
                  then JArr([JStr("data:image/png;base64,mockImageData1"), JStr("data:image/png;base64,mockImageData2")])
                  else JStr("data:image/png;base64,mockImageData")))
  }

  /** saveImage, showLoading and hideLoading all answer `onSuccess(true)`. */
  function SucceedWithTrue(): (r: Route)
    ensures r.ToSuccess? && r.arg.Arg? && LooselyTrue(r.arg.value) && Truthy(r.arg.value)
  {
    ToSuccess(Arg(JBool(true)))
  }

  /** The canned HTTP response; `timestamp` is `new Date().toISOString()`. */
  function MockBody(timestamp: string): string {
    "{\"success\":true,\"message\":\"Mock API Response\",\"data\":{\"id\":123,\"timestamp\":\""
    + timestamp + "\"}}"
  }

  function HttpResponse(timestamp: string): JsValue {
    JObj(map[
      "statusCode" := JNum(200.0),
      "body" := JStr(MockBody(timestamp)),
      "headers" := JsonHeaders])
  }

  /** Whatever the request, status 200 with a JSON content type; no network. */
  function HttpRequest(httpMethod: JsValue, baseUrl: JsValue, path: JsValue, queryParameters: JsValue,
                       headers: JsValue, requestBody: JsValue, timestamp: string): (r: Route)
    ensures r == BeepSDK.HttpRequest(httpMethod, baseUrl, path, queryParameters, headers, requestBody,
                                     Present(Resolved(HttpResponse(timestamp)))).route
  {
    HttpResponseFields(timestamp);
    ToSuccess(Arg(HttpResponse(timestamp)))
  }

  /** The canned response carries status 200, a success status, and the
      JSON content type. */
  lemma HttpResponseFields(timestamp: string)
    ensures Get(HttpResponse(timestamp), "statusCode") == Some(JNum(200.0))
    ensures Get(HttpResponse(timestamp), "headers") == Some(JObj(map["content-type" := JStr("application/json")]))
    ensures IsSuccessStatus(JNum(200.0))
  {
  }

  function ChoosePhoneFromContact(): (r: Route)
    ensures r.ToSuccess? && r.arg.Arg?
    ensures r == BeepSDK.ChoosePhoneFromContact(Present(Resolved(MockPhone))).route
  {
    ToSuccess(Arg(MockPhone))
  }

  /** `today` is the date part of `new Date().toISOString()`. */
  function DatePicker(format: JsValue, minimumDate: JsValue, maximumDate: JsValue, today: string): (r: Route)
    ensures r == ToSuccess(Arg(JObj(map["date" := JStr(today)])))
    ensures forall id, onSuccess, onFail :: today != "" ==>
              Fire(DatePicked(id, Some(onSuccess), onFail), r.arg.value) == Deliver(r, Some(onSuccess), onFail)
  {
    ToSuccess(Arg(JObj(map["date" := JStr(today)])))
  }

  /** Where the real bridge passes the host's value on, the mock routes its
      canned value exactly as the bridge would; for the four yes/no
      operations the real bridge calls onSuccess() with no argument while the
      mock passes a value. */
  lemma MockArgumentsDifferForYesNoOperations(allowMultiple: JsValue, url: JsValue)
    ensures BeepSDK.ChooseImageFromFile(allowMultiple, Present(Resolved(ChooseImageFromFile(allowMultiple).arg.value))).route
            == ToSuccess(NoArg) != ChooseImageFromFile(allowMultiple)
    ensures BeepSDK.SaveImage(url, Present(Resolved(JBool(true)))).route == ToSuccess(NoArg) != SucceedWithTrue()
    ensures BeepSDK.ShowLoading(Present(Resolved(JBool(true)))).route == ToSuccess(NoArg) != SucceedWithTrue()
    ensures BeepSDK.HideLoading(Present(Resolved(JBool(true)))).route == ToSuccess(NoArg) != SucceedWithTrue()
  {
  }

  // ---------------------------------------------------------------------------
  // window.mockTriggerActionButton / window.mockTriggerBackButton

  /** The two global trigger slots. A slot holds the onTap captured by the
      last registration (itself possibly absent); None means never set. */
  class MockTriggers {
    var actionButton: Option<Option<CbId>>
    var backButton: Option<Option<CbId>>

    constructor ()
      ensures actionButton == None && backButton == None
    {
      actionButton := None;
      backButton := None;
    }

    /** Overwrites the action-button slot: the last registration wins. */
    method ActionButton(title: JsValue, onTap: Option<CbId>)
      modifies this
      ensures actionButton == Some(onTap) && backButton == old(backButton)
    {
      actionButton := Some(onTap);
    }

    method OnBackPressed(onTap: Option<CbId>)
      modifies this
      ensures backButton == Some(onTap) && actionButton == old(actionButton)
    {
      backButton := Some(onTap);
    }

    /** Calling the trigger runs the most recently registered onTap, if any. */
    method TriggerActionButton() returns (invoked: seq<Invocation>)
      ensures |invoked| <= 1
      ensures invoked != [] <==> actionButton.Some? && actionButton.value.Some?
      ensures invoked != [] ==> invoked[0] == Invocation(actionButton.value.value, NoArg)
    {
      invoked := if actionButton.Some? && actionButton.value.Some? then [Invocation(actionButton.value.value, NoArg)] else [];
    }

    method TriggerBackButton() returns (invoked: seq<Invocation>)
      ensures |invoked| <= 1
      ensures invoked != [] <==> backButton.Some? && backButton.value.Some?
      ensures invoked != [] ==> invoked[0] == Invocation(backButton.value.value, NoArg)
    {
      invoked := if backButton.Some? && backButton.value.Some? then [Invocation(backButton.value.value, NoArg)] else [];
    }
  }

  // ---------------------------------------------------------------------------
  // MiniAppMock

  /** `if (handler) handler()`. */
  function CallIfPresent(handler: Option<CbId>): (r: seq<Invocation>)
    ensures |r| <= 1
    ensures r != [] <==> handler.Some?
    ensures r != [] ==> r[0] == Invocation(handler.value, NoArg)
  {
    if handler.Some? then [Invocation(handler.value, NoArg)] else []
  }

  class MiniAppMock {
    const onReadyHandler: Option<CbId>
    const onResumeHandler: Option<CbId>
    const onPausedHandler: Option<CbId>
    const onStopHandler: Option<CbId>
    /** The constructor's 500 ms timer has not fired yet. */
    var readyTimerPending: bool

    constructor (onReady: Option<CbId>, onResume: Option<CbId>, onPaused: Option<CbId>, onStop: Option<CbId>)
      ensures onReadyHandler == onReady && onResumeHandler == onResume
      ensures onPausedHandler == onPaused && onStopHandler == onStop
      ensures readyTimerPending
    {
      onReadyHandler := onReady;
      onResumeHandler := onResume;
      onPausedHandler := onPaused;
      onStopHandler := onStop;
      readyTimerPending := true;
    }

    /** The scheduled timer: runs onReady the first time only. */
    method ReadyTimerFires() returns (invoked: seq<Invocation>)
      modifies this
      ensures !readyTimerPending
      ensures invoked == if old(readyTimerPending) then CallIfPresent(onReadyHandler) else []
    {
      invoked := if readyTimerPending then CallIfPresent(onReadyHandler) else [];
      readyTimerPending := false;
    }

    method ManuallyTriggerReady() returns (invoked: seq<Invocation>)
      ensures forall inv :: inv in invoked ==> Some(inv.callback) == onReadyHandler
      ensures invoked == CallIfPresent(onReadyHandler)
    {
      invoked := CallIfPresent(onReadyHandler);
    }

    method SimulateResume() returns (invoked: seq<Invocation>)
      ensures forall inv :: inv in invoked ==> Some(inv.callback) == onResumeHandler
      ensures invoked == CallIfPresent(onResumeHandler)
    {
      invoked := CallIfPresent(onResumeHandler);
    }

    method SimulatePause() returns (invoked: seq<Invocation>)
      ensures forall inv :: inv in invoked ==> Some(inv.callback) == onPausedHandler
      ensures invoked == CallIfPresent(onPausedHandler)
    {
      invoked := CallIfPresent(onPausedHandler);
    }

    method SimulateStop() returns (invoked: seq<Invocation>)
      ensures forall inv :: inv in invoked ==> Some(inv.callback) == onStopHandler
      ensures invoked == CallIfPresent(onStopHandler)
    {
      invoked := CallIfPresent(onStopHandler);
    }
  }
}

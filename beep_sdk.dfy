/**
 * The real host bridge: `BeepMiniAppApi` and `MiniApp`.
 *
 * Every operation first checks whether the host transport
 * (`window.flutter_inappwebview`) exists. The host's answer to a call is an
 * input here (`Transport`); each callback-style operation turns it into a
 * `Route` (which of its two callbacks runs, and with what argument) and
 * `Deliver` performs the `if (cb) cb(arg)` of the source. The listener-based
 * operations keep one slot per event name over a window listener table.
 */
module BeepSDK {
  import opened JsValues

  /** Identity of a callback function passed by a caller. */
  type CbId = nat

  /** What the host's promise did. */
  datatype HostResponse = Rejected(error: string) | Resolved(result: JsValue)

  /** Absent: `window.flutter_inappwebview` is undefined; Present: the call
      reached the host, which answered with `response`. */
  datatype Transport = Absent | Present(response: HostResponse)

  datatype Arg = NoArg | Arg(value: JsValue)

  /** Which of an operation's two callbacks is run. For showDialog, ToSuccess
      is `onConfirmPressed` and ToFail is `onDismissPressed`. */
  datatype Route = ToSuccess(arg: Arg) | ToFail(arg: Arg)

  datatype Invocation = Invocation(callback: CbId, arg: Arg)

  /** `callHandler(handler, ...args)` on the host transport. */
  datatype HostCall = HostCall(handler: string, args: seq<JsValue>)

  /** A callback-style operation: the host call it made (none when the
      transport is absent) and where the outcome is routed. */
  datatype Outcome = Outcome(hostCall: Option<HostCall>, route: Route)

  const Unavailable := "WebView API not available"

  function ErrorObject(message: string): JsValue {
    JObj(map["errorMessage" := JStr(message)])
  }

  /** `if (cb) cb(arg)` for the callback the route selects. */
  function Deliver(route: Route, onSuccess: Option<CbId>, onFail: Option<CbId>): (r: seq<Invocation>)
    ensures |r| <= 1
    ensures route.ToSuccess? && onSuccess.Some? ==> r == [Invocation(onSuccess.value, route.arg)]
    ensures route.ToFail? && onFail.Some? ==> r == [Invocation(onFail.value, route.arg)]
    ensures route.ToSuccess? && onSuccess.None? ==> r == []
    ensures route.ToFail? && onFail.None? ==> r == []
  {
    var cb := if route.ToSuccess? then onSuccess else onFail;
    if cb.Some? then [Invocation(cb.value, route.arg)] else []
  }

  // ---------------------------------------------------------------------------
  // Operations that accept a result carrying one required field

  /** getUser, getCards and requestReferenceNumber: success iff
      `result[field] != null`; a result that is itself null or undefined makes
      that read throw, and the rejection handler turns the throw into onFail. */
  function FieldChecked(handler: string, args: seq<JsValue>, field: string, t: Transport): (o: Outcome)
    ensures t.Absent? ==> o == Outcome(None, ToFail(Arg(ErrorObject(Unavailable))))
    ensures t.Present? ==> o.hostCall == Some(HostCall(handler, args))
    ensures o.route.ToSuccess? <==> t.Present? && t.response.Resolved? && HasField(t.response.result, field)
    ensures o.route.ToSuccess? ==> o.route.arg == Arg(t.response.result)
    ensures t.Present? && t.response.Rejected? ==> o.route == ToFail(Arg(ErrorObject(t.response.error)))
    ensures (t.Present? && t.response.Resolved? && !IsNullish(t.response.result) && !HasField(t.response.result, field))
              ==> o.route == ToFail(Arg(t.response.result))
  {
    match t
    case Absent => Outcome(None, ToFail(Arg(ErrorObject(Unavailable))))
    case Present(resp) =>
      var route :=
        match resp
        case Rejected(msg) => ToFail(Arg(ErrorObject(msg)))
        case Resolved(v) =>
          match Get(v, field)
          case None => ToFail(Arg(ErrorObject(ReadErrorMessage(v, field))))
          case Some(f) => if !IsNullish(f) then ToSuccess(Arg(v)) else ToFail(Arg(v));
      Outcome(Some(HostCall(handler, args)), route)
  }

  function GetUser(t: Transport): (o: Outcome)
    ensures o.route.ToSuccess? <==> t.Present? && t.response.Resolved? && HasField(t.response.result, "id")
    ensures t.Absent? ==> o.hostCall.None? && o.route == ToFail(Arg(ErrorObject(Unavailable)))
  {
    FieldChecked("getUser", [], "id", t)
  }

  function GetCards(t: Transport): (o: Outcome)
    ensures o.route.ToSuccess? <==> t.Present? && t.response.Resolved? && HasField(t.response.result, "cards")
    ensures t.Absent? ==> o.hostCall.None? && o.route == ToFail(Arg(ErrorObject(Unavailable)))
  {
    FieldChecked("getCards", [], "cards", t)
  }

  function RequestReferenceNumber(merchantCode: JsValue, product: JsValue, amount: JsValue, notifyUrl: JsValue,
                                  t: Transport): (o: Outcome)
    ensures o.route.ToSuccess? <==> t.Present? && t.response.Resolved? && HasField(t.response.result, "referenceNumber")
    ensures t.Present? ==> o.hostCall == Some(HostCall("requestReferenceNumber", [merchantCode, product, amount, notifyUrl]))
    ensures t.Absent? ==> o.hostCall.None? && o.route == ToFail(Arg(ErrorObject(Unavailable)))
  {
    FieldChecked("requestReferenceNumber", [merchantCode, product, amount, notifyUrl], "referenceNumber", t)
  }

  // ---------------------------------------------------------------------------
  // requestPayment: no failure callback at all

  function PaymentError(message: string): JsValue {
    JObj(map["status" := JStr("ERROR"), "message" := JStr(message)])
  }

  /** `type` defaults to 'CHECKOUT' when the caller leaves it undefined. The
      host is called with (amount, processingFee, referenceNumber, type). */
  function RequestPayment(paymentType: JsValue, amount: JsValue, processingFee: JsValue, referenceNumber: JsValue,
                          t: Transport): (o: Outcome)
    ensures o.route.ToSuccess?
    ensures t.Present? ==> o.hostCall == Some(HostCall("requestPayment",
              [amount, processingFee, referenceNumber, if paymentType.JUndefined? then JStr("CHECKOUT") else paymentType]))
    ensures t.Absent? ==> o.hostCall.None? && o.route.arg == Arg(PaymentError(Unavailable))
    ensures t.Present? && t.response.Rejected? ==> o.route.arg == Arg(PaymentError(t.response.error))
    ensures t.Present? && t.response.Resolved? ==> o.route.arg == Arg(t.response.result)
  {
    var kind := if paymentType.JUndefined? then JStr("CHECKOUT") else paymentType;
    match t
    case Absent => Outcome(None, ToSuccess(Arg(PaymentError(Unavailable))))
    case Present(Rejected(msg)) =>
      Outcome(Some(HostCall("requestPayment", [amount, processingFee, referenceNumber, kind])), ToSuccess(Arg(PaymentError(msg))))
    case Present(Resolved(v)) =>
      Outcome(Some(HostCall("requestPayment", [amount, processingFee, referenceNumber, kind])), ToSuccess(Arg(v)))
  }

  // ---------------------------------------------------------------------------
  // Operations whose callbacks take no argument

  /** showDialog confirms iff the host answers with something `== true`;
      absence and rejection both dismiss. */
  function ShowDialog(title: JsValue, description: JsValue, confirmTitle: JsValue, dismissTitle: JsValue,
                      t: Transport): (o: Outcome)
    ensures o.route.ToSuccess? <==> t.Present? && t.response.Resolved? && LooselyTrue(t.response.result)
    ensures o.route.arg == NoArg
    ensures t.Present? <==> o.hostCall == Some(HostCall("showDialog", [title, description, confirmTitle, dismissTitle]))
  {
    match t
    case Absent => Outcome(None, ToFail(NoArg))
    case Present(resp) =>
      Outcome(Some(HostCall("showDialog", [title, description, confirmTitle, dismissTitle])),
              if resp.Resolved? && LooselyTrue(resp.result) then ToSuccess(NoArg) else ToFail(NoArg))
  }

  /** The shape shared by chooseImageFromFile, saveImage, showLoading and
      hideLoading: onSuccess() iff `accept` holds of the resolved result,
      otherwise onFail(), both without argument. */
  function Boolish(handler: string, args: seq<JsValue>, accept: JsValue -> bool, t: Transport): (o: Outcome)
    ensures o.route.ToSuccess? <==> t.Present? && t.response.Resolved? && accept(t.response.result)
    ensures o.route.arg == NoArg
    ensures t.Present? <==> o.hostCall == Some(HostCall(handler, args))
  {
    match t
    case Absent => Outcome(None, ToFail(NoArg))
    case Present(resp) =>
      Outcome(Some(HostCall(handler, args)),
              if resp.Resolved? && accept(resp.result) then ToSuccess(NoArg) else ToFail(NoArg))
  }

  function ChooseImageFromFile(allowMultiple: JsValue, t: Transport): (o: Outcome)
    ensures o.route.ToSuccess? <==> t.Present? && t.response.Resolved? && !IsNullish(t.response.result)
    ensures o.route.arg == NoArg
  {
    Boolish("chooseImageFromFile", [allowMultiple], v => !IsNullish(v), t)
  }

  function SaveImage(url: JsValue, t: Transport): (o: Outcome)
    ensures o.route.ToSuccess? <==> t.Present? && t.response.Resolved? && Truthy(t.response.result)
    ensures o.route.arg == NoArg
  {
    Boolish("saveImage", [url], v => Truthy(v), t)
  }

  function ShowLoading(t: Transport): (o: Outcome)
    ensures o.route.ToSuccess? <==> t.Present? && t.response.Resolved? && LooselyTrue(t.response.result)
    ensures o.route.arg == NoArg
  {
    Boolish("showLoading", [], v => LooselyTrue(v), t)
  }

  function HideLoading(t: Transport): (o: Outcome)
    ensures o.route.ToSuccess? <==> t.Present? && t.response.Resolved? && LooselyTrue(t.response.result)
    ensures o.route.arg == NoArg
  {
    Boolish("hideLoading", [], v => LooselyTrue(v), t)
  }

  // ---------------------------------------------------------------------------
  // httpRequest

  const JsonHeaders := JObj(map["content-type" := JStr("application/json")])

  /** A destructuring default: applies only when the argument is undefined. */
  function OrDefault(v: JsValue, default: JsValue): JsValue {
    if v.JUndefined? then default else v
  }

  /** `statusCode >= 200 && statusCode <= 299`, both comparisons numeric. */
  predicate IsSuccessStatus(statusCode: JsValue) {
    ToNumber(statusCode).Some? && 200.0 <= ToNumber(statusCode).value <= 299.0
  }

  function HttpRequest(httpMethod: JsValue, baseUrl: JsValue, path: JsValue, queryParameters: JsValue,
                       headers: JsValue, requestBody: JsValue, t: Transport): (o: Outcome)
    ensures o.route.ToSuccess? <==> t.Present? && t.response.Resolved? && !IsNullish(t.response.result)
                                     && IsSuccessStatus(Get(t.response.result, "statusCode").value)
    ensures o.route.ToSuccess? ==> o.route.arg == Arg(t.response.result)
    ensures o.route.ToFail? ==> o.route.arg == NoArg
    ensures t.Present? <==> o.hostCall == Some(HostCall("httpRequest",
              [OrDefault(httpMethod, JStr("GET")), baseUrl, OrDefault(path, JStr("")), OrDefault(queryParameters, JObj(map[])),
               OrDefault(headers, JsonHeaders), OrDefault(requestBody, JObj(map[]))]))
  {
    match t
    case Absent => Outcome(None, ToFail(NoArg))
    case Present(resp) =>
      var call := HostCall("httpRequest",
        [OrDefault(httpMethod, JStr("GET")), baseUrl, OrDefault(path, JStr("")), OrDefault(queryParameters, JObj(map[])),
         OrDefault(headers, JsonHeaders), OrDefault(requestBody, JObj(map[]))]);
      var route :=
        match resp
        case Rejected(_) => ToFail(NoArg)
        case Resolved(v) =>
          match Get(v, "statusCode")
          case None => ToFail(NoArg)
          case Some(code) => if IsSuccessStatus(code) then ToSuccess(Arg(v)) else ToFail(NoArg);
      Outcome(Some(call), route)
  }

  // ---------------------------------------------------------------------------
  // choosePhoneFromContact: success iff the result carries no error message

  function ChoosePhoneFromContact(t: Transport): (o: Outcome)
    ensures o.route.ToSuccess? <==> t.Present? && t.response.Resolved? && !IsNullish(t.response.result)
                                     && IsNullish(Get(t.response.result, "errorMessage").value)
    ensures o.route.ToSuccess? ==> o.route.arg == Arg(t.response.result)
    ensures t.Absent? ==> o.hostCall.None? && o.route == ToFail(Arg(ErrorObject(Unavailable)))
  {
    match t
    case Absent => Outcome(None, ToFail(Arg(ErrorObject(Unavailable))))
    case Present(resp) =>
      var route :=
        match resp
        case Rejected(msg) => ToFail(Arg(ErrorObject(msg)))
        case Resolved(v) =>
          match Get(v, "errorMessage")
          case None => ToFail(Arg(ErrorObject(ReadErrorMessage(v, "errorMessage"))))
          case Some(e) => if IsNullish(e) then ToSuccess(Arg(v)) else ToFail(Arg(v));
      Outcome(Some(HostCall("choosePhoneFromContact", [])), route)
  }

  // ---------------------------------------------------------------------------
  // Properties over the whole operation set

  /** The callback-style operations, by handler name. */
  datatype Op =
    | OpGetUser | OpGetCards | OpRequestReferenceNumber | OpRequestPayment | OpShowDialog
    | OpChooseImageFromFile | OpSaveImage | OpShowLoading | OpHideLoading | OpHttpRequest
    | OpChoosePhoneFromContact

  /** One call of `op` with all its parameters undefined (so defaults apply). */
  function Run(op: Op, t: Transport): Outcome {
    match op
    case OpGetUser => GetUser(t)
    case OpGetCards => GetCards(t)
    case OpRequestReferenceNumber => RequestReferenceNumber(JUndefined, JUndefined, JUndefined, JUndefined, t)
    case OpRequestPayment => RequestPayment(JUndefined, JUndefined, JUndefined, JUndefined, t)
    case OpShowDialog => ShowDialog(JUndefined, JUndefined, JUndefined, JUndefined, t)
    case OpChooseImageFromFile => ChooseImageFromFile(JUndefined, t)
    case OpSaveImage => SaveImage(JUndefined, t)
    case OpShowLoading => ShowLoading(t)
    case OpHideLoading => HideLoading(t)
    case OpHttpRequest => HttpRequest(JUndefined, JUndefined, JUndefined, JUndefined, JUndefined, JUndefined, t)
    case OpChoosePhoneFromContact => ChoosePhoneFromContact(t)
  }

  /** With the transport absent no operation touches the host, and every one
      except requestPayment routes to its failure callback; requestPayment
      reports the absence as an "ERROR" status through onSuccess. */
  lemma AbsentTransportFailsWithoutHostCall(op: Op)
    ensures Run(op, Absent).hostCall.None?
    ensures op != OpRequestPayment ==> Run(op, Absent).route.ToFail?
    ensures op == OpRequestPayment ==> Run(op, Absent).route == ToSuccess(Arg(PaymentError(Unavailable)))
  {
  }

  /** When the transport is present, exactly one host call is made. This
      holds by the shape of `Outcome`: every present-transport branch of
      `Run` builds its outcome with a host call. */
  lemma PresentTransportCallsHostOnce(op: Op, r: HostResponse)
    ensures Run(op, Present(r)).hostCall.Some?
  {
  }

  /** Exactly one callback runs, once, whenever the caller passed both. This
      holds by the definition of `Deliver`: a route names one callback, and
      an outcome carries one route. */
  lemma ExactlyOneCallback(op: Op, t: Transport, onSuccess: CbId, onFail: CbId)
    ensures |Deliver(Run(op, t).route, Some(onSuccess), Some(onFail))| == 1
  {
  }

  /** useCheckout's `onFail` for requestPayment is never run: the bridge
      routes every payment outcome to onSuccess. */
  lemma RequestPaymentNeverFails(paymentType: JsValue, amount: JsValue, fee: JsValue, ref: JsValue,
                                 t: Transport, onSuccess: Option<CbId>, onFail: CbId)
    ensures forall inv :: inv in Deliver(RequestPayment(paymentType, amount, fee, ref, t).route, onSuccess, Some(onFail))
              ==> onSuccess.Some? && inv.callback == onSuccess.value
  {
  }

  // ---------------------------------------------------------------------------
  // The window listener table and the single-slot registrations

  const DatePickedEvent := "onDatePicked"
  const ActionButtonEvent := "onActionButtonTapped"
  const BackPressedEvent := "onBackButtonPressed"
  const ReadyEvent := "flutterInAppWebViewPlatformReady"
  const ResumedEvent := "onResumed"
  const PausedEvent := "onPaused"
  const ClosedEvent := "onWebViewClosed"

  /** A function registered with `window.addEventListener`; `id` is the
      function object's identity. Noop is the `function () { }` that a slot
      holds before its first registration. */
  datatype Listener =
    | Noop
    | DatePicked(id: nat, onSuccess: Option<CbId>, onFail: Option<CbId>)
    | Tapped(id: nat, event: string, onTap: Option<CbId>)
    | Lifecycle(id: nat, event: string, callback: Option<CbId>)

  ghost predicate NoDuplicates(s: seq<Listener>) {
    forall i, j :: 0 <= i < j < |s| ==> s[i] != s[j]
  }

  /** `s` with every occurrence of `l` taken out. */
  function Without(s: seq<Listener>, l: Listener): (r: seq<Listener>)
    ensures forall x :: x in r <==> x in s && x != l
    ensures NoDuplicates(s) ==> NoDuplicates(r)
  {
    if s == [] then []
    else
      var rest := Without(s[1..], l);
      if s[0] == l then rest
      else
        assert NoDuplicates(s) ==> s[0] !in s[1..];
        [s[0]] + rest
  }

  /** What one listener does when its event is dispatched with `detail`
      (`event.detail`). The date-picked listener reads `detail.date`, which
      throws when `detail` is null or undefined; its callbacks and onTap are
      called without a presence check, so a missing one throws. */
  function Fire(l: Listener, detail: JsValue): (r: seq<Invocation>)
    ensures |r| <= 1
    ensures l.Noop? ==> r == []
    ensures l.Tapped? ==> r == if l.onTap.Some? then [Invocation(l.onTap.value, NoArg)] else []
    ensures l.Lifecycle? ==> r == if l.callback.Some? then [Invocation(l.callback.value, NoArg)] else []
    ensures l.DatePicked? && IsNullish(detail) ==> r == []
    ensures l.DatePicked? && !IsNullish(detail) && Truthy(Get(detail, "date").value) ==>
              r == if l.onSuccess.Some? then [Invocation(l.onSuccess.value, Arg(detail))] else []
    ensures l.DatePicked? && !IsNullish(detail) && !Truthy(Get(detail, "date").value) ==>
              r == if l.onFail.Some? then [Invocation(l.onFail.value, Arg(detail))] else []
  {
    match l
    case Noop => []
    case DatePicked(_, onSuccess, onFail) =>
      (match Get(detail, "date")
       case None => []
       case Some(date) => Deliver(if Truthy(date) then ToSuccess(Arg(detail)) else ToFail(Arg(detail)), onSuccess, onFail))
    case Tapped(_, _, onTap) => if onTap.Some? then [Invocation(onTap.value, NoArg)] else []
    case Lifecycle(_, _, callback) => if callback.Some? then [Invocation(callback.value, NoArg)] else []
  }

  /** Every listener in registration order. */
  function FireAll(ls: seq<Listener>, detail: JsValue): (r: seq<Invocation>)
    ensures |r| <= |ls|
  {
    if ls == [] then [] else Fire(ls[0], detail) + FireAll(ls[1..], detail)
  }

  /** Listeners that a slot of the bridge owns under event `name`. */
  predicate OwnedBy(l: Listener, name: string) {
    (name == DatePickedEvent && l.DatePicked?) || (l.Tapped? && l.event == name)
  }

  function CountOwned(s: seq<Listener>, name: string): nat {
    if s == [] then 0 else (if OwnedBy(s[0], name) then 1 else 0) + CountOwned(s[1..], name)
  }

  /** `window`'s listener table. */
  class EventTable {
    var listeners: map<string, seq<Listener>>
    var nextId: nat

    ghost predicate Valid()
      reads this
    {
      forall name :: name in listeners ==>
        NoDuplicates(listeners[name]) && forall l :: l in listeners[name] ==> l.Noop? || l.id < nextId
    }

    function Registered(name: string): seq<Listener>
      reads this
    {
      if name in listeners then listeners[name] else []
    }

    constructor ()
      ensures Valid() && listeners == map[] && nextId == 0
    {
      listeners := map[];
      nextId := 0;
    }

    /** A fresh function identity. */
    method Allocate() returns (id: nat)
      requires Valid()
      modifies this
      ensures Valid() && id == old(nextId) && nextId == id + 1 && listeners == old(listeners)
    {
      id := nextId;
      nextId := nextId + 1;
    }

    /** `addEventListener`: a listener already registered under `name` is not added twice. */
    method Add(name: string, l: Listener)
      requires Valid() && (l.Noop? || l.id < nextId)
      modifies this
      ensures Valid() && nextId == old(nextId)
      ensures listeners == old(listeners)[name := if l in old(Registered(name)) then old(Registered(name))
                                                  else old(Registered(name)) + [l]]
    {
      var current := Registered(name);
      if l !in current {
        listeners := listeners[name := current + [l]];
      } else {
        listeners := listeners[name := current];
      }
    }

    /** `addEventListener` with a new arrow function: the listener gets a
        fresh identity, so it is always appended. */
    method AddLifecycle(name: string, callback: Option<CbId>) returns (l: Listener)
      requires Valid()
      modifies this
      ensures Valid() && nextId == old(nextId) + 1
      ensures l == Lifecycle(old(nextId), name, callback)
      ensures listeners == Appended(old(listeners), name, l)
    {
      var id := Allocate();
      l := Lifecycle(id, name, callback);
      assert l !in Registered(name);
      Add(name, l);
    }

    /** `removeEventListener`. */
    method Remove(name: string, l: Listener)
      requires Valid()
      modifies this
      ensures Valid() && nextId == old(nextId)
      ensures listeners == old(listeners)[name := Without(old(Registered(name)), l)]
    {
      listeners := listeners[name := Without(Registered(name), l)];
    }

    /** The remove-then-add sequence of the slot methods, with a listener that is new. */
    method Replace(name: string, previous: Listener, l: Listener)
      requires Valid() && !l.Noop? && l.id < nextId && l !in Registered(name)
      modifies this
      ensures Valid() && nextId == old(nextId)
      ensures listeners == old(listeners)[name := Without(old(Registered(name)), previous) + [l]]
    {
      Remove(name, previous);
      Add(name, l);
    }
  }

  /** In a duplicate-free list whose owned listeners all equal `slot`, at most
      one listener is owned: one handler per event name. */
  lemma {:induction false} SingleSlotAtMostOne(s: seq<Listener>, name: string, slot: Listener)
    requires NoDuplicates(s)
    requires forall l :: l in s && OwnedBy(l, name) ==> l == slot
    ensures CountOwned(s, name) <= 1
    ensures CountOwned(s, name) == 1 <==> slot in s && OwnedBy(slot, name)
  {
    if s != [] {
      assert forall i :: 1 <= i < |s| ==> s[i] in s;
      SingleSlotAtMostOne(s[1..], name, slot);
      if OwnedBy(s[0], name) {
        assert s[0] == slot;
        forall j | 0 <= j < |s| - 1
          ensures s[1..][j] != slot
        {
          assert s[j + 1] != s[0];
        }
      } else {
        assert s == [s[0]] + s[1..];
      }
    }
  }

  class BeepMiniAppApi {
    const window: EventTable
    var onDatePickedListener: Listener
    var onActionButtonTappedListener: Listener
    var onBackPressedListener: Listener
    /** Every `callHandler` made, in order. */
    var hostCalls: seq<HostCall>

    /** Under each slot's event name, any listener the bridge owns is the one
        the slot holds. */
    ghost predicate SlotHolds(name: string, slot: Listener)
      reads this, window
    {
      forall l :: l in window.Registered(name) && OwnedBy(l, name) ==> l == slot
    }

    ghost predicate Valid()
      reads this, window
    {
      && window.Valid()
      && SlotHolds(DatePickedEvent, onDatePickedListener)
      && SlotHolds(ActionButtonEvent, onActionButtonTappedListener)
      && SlotHolds(BackPressedEvent, onBackPressedListener)
      && (onDatePickedListener.Noop? || onDatePickedListener.DatePicked?)
      && (onActionButtonTappedListener.Noop? || (onActionButtonTappedListener.Tapped? && onActionButtonTappedListener.event == ActionButtonEvent))
      && (onBackPressedListener.Noop? || (onBackPressedListener.Tapped? && onBackPressedListener.event == BackPressedEvent))
    }

    constructor (window: EventTable)
      requires window.Valid()
      requires forall name, l :: l in window.Registered(name) ==> !OwnedBy(l, name)
      ensures Valid() && this.window == window && hostCalls == []
      ensures onDatePickedListener == onActionButtonTappedListener == onBackPressedListener == Noop
    {
      this.window := window;
      onDatePickedListener := Noop;
      onActionButtonTappedListener := Noop;
      onBackPressedListener := Noop;
      hostCalls := [];
    }

    /** At most one date-picked, one action-button and one back-pressed
        handler of the bridge is ever registered. */
    lemma SlotsHoldOne()
      requires Valid()
      ensures CountOwned(window.Registered(DatePickedEvent), DatePickedEvent) <= 1
      ensures CountOwned(window.Registered(ActionButtonEvent), ActionButtonEvent) <= 1
      ensures CountOwned(window.Registered(BackPressedEvent), BackPressedEvent) <= 1
    {
      SingleSlotAtMostOne(window.Registered(DatePickedEvent), DatePickedEvent, onDatePickedListener);
      SingleSlotAtMostOne(window.Registered(ActionButtonEvent), ActionButtonEvent, onActionButtonTappedListener);
      SingleSlotAtMostOne(window.Registered(BackPressedEvent), BackPressedEvent, onBackPressedListener);
    }

    /** datePicker: without a transport, onFail at once and nothing else.
        Otherwise the host is asked to open the picker and the result arrives
        later as an onDatePicked event, handled by the new listener that
        replaces the previous one. */
    method DatePicker(present: bool, format: JsValue, minimumDate: JsValue, maximumDate: JsValue,
                      onSuccess: Option<CbId>, onFail: Option<CbId>) returns (immediate: Option<Route>)
      requires Valid()
      modifies this, window
      ensures Valid()
      ensures !present ==> immediate == Some(ToFail(Arg(ErrorObject(Unavailable))))
                           && unchanged(this) && unchanged(window)
      ensures present ==> && immediate == None
                          && hostCalls == old(hostCalls) + [HostCall("datePicker", [format, minimumDate, maximumDate])]
                          && onDatePickedListener == DatePicked(old(window.nextId), onSuccess, onFail)
                          && window.listeners == old(window.listeners)[DatePickedEvent :=
                               Without(old(window.Registered(DatePickedEvent)), old(onDatePickedListener)) + [onDatePickedListener]]
      ensures onActionButtonTappedListener == old(onActionButtonTappedListener)
      ensures onBackPressedListener == old(onBackPressedListener)
    {
      if !present {
        return Some(ToFail(Arg(ErrorObject(Unavailable))));
      }
      hostCalls := hostCalls + [HostCall("datePicker", [format, minimumDate, maximumDate])];
      var id := window.Allocate();
      var l := DatePicked(id, onSuccess, onFail);
      window.Replace(DatePickedEvent, onDatePickedListener, l);
      onDatePickedListener := l;
      immediate := None;
    }

    /** actionButton: no-op without a transport; otherwise sets the app-bar
        action and replaces the tap listener. */
    method ActionButton(present: bool, title: JsValue, onTap: Option<CbId>)
      requires Valid()
      modifies this, window
      ensures Valid()
      ensures !present ==> unchanged(this) && unchanged(window)
      ensures present ==> && hostCalls == old(hostCalls) + [HostCall("appBarAction", [title])]
                          && onActionButtonTappedListener == Tapped(old(window.nextId), ActionButtonEvent, onTap)
                          && window.listeners == old(window.listeners)[ActionButtonEvent :=
                               Without(old(window.Registered(ActionButtonEvent)), old(onActionButtonTappedListener)) + [onActionButtonTappedListener]]
      ensures onDatePickedListener == old(onDatePickedListener)
      ensures onBackPressedListener == old(onBackPressedListener)
    {
      if !present {
        return;
      }
      hostCalls := hostCalls + [HostCall("appBarAction", [title])];
      var id := window.Allocate();
      var l := Tapped(id, ActionButtonEvent, onTap);
      window.Replace(ActionButtonEvent, onActionButtonTappedListener, l);
      onActionButtonTappedListener := l;
    }

    /** onBackPressed: no-op without a transport; otherwise replaces the
        back-button listener. */
    method OnBackPressed(present: bool, onTap: Option<CbId>)
      requires Valid()
      modifies this, window
      ensures Valid()
      ensures !present ==> unchanged(this) && unchanged(window)
      ensures present ==> && hostCalls == old(hostCalls) + [HostCall("onBackPressed", [])]
                          && onBackPressedListener == Tapped(old(window.nextId), BackPressedEvent, onTap)
                          && window.listeners == old(window.listeners)[BackPressedEvent :=
                               Without(old(window.Registered(BackPressedEvent)), old(onBackPressedListener)) + [onBackPressedListener]]
      ensures onDatePickedListener == old(onDatePickedListener)
      ensures onActionButtonTappedListener == old(onActionButtonTappedListener)
    {
      if !present {
        return;
      }
      hostCalls := hostCalls + [HostCall("onBackPressed", [])];
      var id := window.Allocate();
      var l := Tapped(id, BackPressedEvent, onTap);
      window.Replace(BackPressedEvent, onBackPressedListener, l);
      onBackPressedListener := l;
    }

    /** closeMiniApp: fire-and-forget, no-op without a transport. */
    method CloseMiniApp(present: bool)
      requires Valid()
      modifies this
      ensures Valid()
      ensures hostCalls == old(hostCalls) + (if present then [HostCall("closeMiniApp", [])] else [])
      ensures onDatePickedListener == old(onDatePickedListener)
      ensures onActionButtonTappedListener == old(onActionButtonTappedListener)
      ensures onBackPressedListener == old(onBackPressedListener)
    {
      if present {
        hostCalls := hostCalls + [HostCall("closeMiniApp", [])];
      }
    }

    /** appBarTitle: fire-and-forget, no-op without a transport. */
    method AppBarTitle(present: bool, title: JsValue)
      requires Valid()
      modifies this
      ensures Valid()
      ensures hostCalls == old(hostCalls) + (if present then [HostCall("appBarTitle", [title])] else [])
      ensures onDatePickedListener == old(onDatePickedListener)
      ensures onActionButtonTappedListener == old(onActionButtonTappedListener)
      ensures onBackPressedListener == old(onBackPressedListener)
    {
      if present {
        hostCalls := hostCalls + [HostCall("appBarTitle", [title])];
      }
    }
  }

  /** Registering a date listener twice: the next onDatePicked event runs only
      the second registration's callbacks. */
  method DatePickerTwice(api: BeepMiniAppApi, first: CbId, second: CbId, onFail: CbId, date: string)
    requires api.Valid() && api.window.Registered(DatePickedEvent) == []
    requires date != ""
    modifies api, api.window
    ensures FireAll(api.window.Registered(DatePickedEvent), JObj(map["date" := JStr(date)]))
            == [Invocation(second, Arg(JObj(map["date" := JStr(date)])))]
  {
    var _ := api.DatePicker(true, JUndefined, JUndefined, JUndefined, Some(first), Some(onFail));
    var _ := api.DatePicker(true, JUndefined, JUndefined, JUndefined, Some(second), Some(onFail));
    var detail := JObj(map["date" := JStr(date)]);
    assert api.window.Registered(DatePickedEvent) == [api.onDatePickedListener];
    assert Fire(api.onDatePickedListener, detail) == [Invocation(second, Arg(detail))];
  }

  /** `name`'s listener list with `l` appended. */
  function Appended(table: map<string, seq<Listener>>, name: string, l: Listener): (r: map<string, seq<Listener>>)
    ensures r.Keys == table.Keys + {name}
  {
    table[name := (if name in table then table[name] else []) + [l]]
  }

  /** The table after the four lifecycle listeners are added in turn. */
  function LifecycleRegistration(table: map<string, seq<Listener>>, ready: Listener, resumed: Listener,
                                 paused: Listener, closed: Listener): map<string, seq<Listener>>
  {
    Appended(Appended(Appended(Appended(table, ReadyEvent, ready), ResumedEvent, resumed), PausedEvent, paused),
             ClosedEvent, closed)
  }

  /** Each lifecycle event gets its own listener appended, and every other
      event's listeners are as they were. */
  lemma LifecycleListeners(table: map<string, seq<Listener>>, ready: Listener, resumed: Listener,
                           paused: Listener, closed: Listener)
    ensures var t := LifecycleRegistration(table, ready, resumed, paused, closed);
      && t[ReadyEvent] == (if ReadyEvent in table then table[ReadyEvent] else []) + [ready]
      && t[ResumedEvent] == (if ResumedEvent in table then table[ResumedEvent] else []) + [resumed]
      && t[PausedEvent] == (if PausedEvent in table then table[PausedEvent] else []) + [paused]
      && t[ClosedEvent] == (if ClosedEvent in table then table[ClosedEvent] else []) + [closed]
      && forall name :: name in table && name !in {ReadyEvent, ResumedEvent, PausedEvent, ClosedEvent} ==>
           name in t && t[name] == table[name]
  {
    LifecycleEventsDistinct();
  }

  /** The four lifecycle event names are different names. */
  lemma LifecycleEventsDistinct()
    ensures ReadyEvent != ResumedEvent && ReadyEvent != PausedEvent && ReadyEvent != ClosedEvent
    ensures ResumedEvent != PausedEvent && ResumedEvent != ClosedEvent && PausedEvent != ClosedEvent
  {
    assert |ReadyEvent| == 32 && |ResumedEvent| == 9 && |PausedEvent| == 8 && |ClosedEvent| == 15;
  }

  /** The lifecycle listeners of one `MiniApp`; they are added once, in the
      constructor, and never removed. */
  class MiniApp {
    const onReadyHandler: Listener
    const onResumeHandler: Listener
    const onPausedHandler: Listener
    const onStopHandler: Listener

    constructor (window: EventTable, onReady: Option<CbId>, onResume: Option<CbId>, onPaused: Option<CbId>,
                 onStop: Option<CbId>)
      requires window.Valid()
      modifies window
      ensures window.Valid() && window.nextId == old(window.nextId) + 4
      ensures onReadyHandler == Lifecycle(old(window.nextId), ReadyEvent, onReady)
      ensures onResumeHandler == Lifecycle(old(window.nextId) + 1, ResumedEvent, onResume)
      ensures onPausedHandler == Lifecycle(old(window.nextId) + 2, PausedEvent, onPaused)
      ensures onStopHandler == Lifecycle(old(window.nextId) + 3, ClosedEvent, onStop)
      ensures window.listeners == LifecycleRegistration(old(window.listeners), onReadyHandler, onResumeHandler,
                                                        onPausedHandler, onStopHandler)
    {
      var ready := window.AddLifecycle(ReadyEvent, onReady);
      var resumed := window.AddLifecycle(ResumedEvent, onResume);
      var paused := window.AddLifecycle(PausedEvent, onPaused);
      var closed := window.AddLifecycle(ClosedEvent, onStop);
      onReadyHandler, onResumeHandler, onPausedHandler, onStopHandler := ready, resumed, paused, closed;
    }

    /** Runs the ready handler directly: onReady, if one was given. */
    method ManuallyTriggerReady() returns (invoked: seq<Invocation>)
      ensures invoked == Fire(onReadyHandler, JObj(map["detail" := JStr("manually triggered")]))
      ensures onReadyHandler.Lifecycle? ==>
                invoked == (if onReadyHandler.callback.Some? then [Invocation(onReadyHandler.callback.value, NoArg)] else [])
    {
      invoked := Fire(onReadyHandler, JObj(map["detail" := JStr("manually triggered")]));
    }
  }
}

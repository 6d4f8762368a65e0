/**
 * The provider that exposes the bridge to the pages. Every host action is
 * gated on `isReady`; the action button is set once, the app-bar title once
 * unless a reset is forced; without the host transport (a plain browser)
 * each action falls back to fixed data or a simulated effect.
 */
module BeepContext {
  import opened JsValues
  import opened BeepSDK

  /** The user set in browser mode. */
  const BrowserUser: JsValue := JObj(map[
    "id" := JNum(1403.0),
    "firstName" := JStr("Test"),
    "lastName" := JNull,
    "phoneNumber" := JNull,
    "email" := JStr("user@test.com")])

  /** The cards set in browser mode: exactly one card. */
  const BrowserCards: JsValue := JObj(map["cards" := JArr([JObj(map[
    "can" := JStr("6378059900462120"),
    "expiry" := JStr("2024-12-31 00:00:00.000Z"),
    "status" := JStr("ACTIVE"),
    "balance" := JNum(6197.49)])])])

  /** The identity of the back-press handler `() => beep.closeMiniApp()`
      that the ready handler creates (its body is OnBackTapped). The
      provider owns this function object, so the callbacks that pages hand
      to the provider are other functions and carry other identities. */
  const CloseOnBack: CbId := 0

  class BeepProvider {
    /** The shared `beep` bridge object. */
    const beep: BeepMiniAppApi
    /** `typeof window.flutter_inappwebview !== 'undefined'`. */
    const webviewPresent: bool
    /** `ENV.APP_NAME`. */
    const appName: JsValue

    var isReady: bool
    var user: JsValue
    var cards: JsValue
    var isActionButtonSet: bool
    var isAppBarTitleSet: bool
    /** The names of the bridge operations called by the ready handler and
        by the ready-gated actions, in order; the ungated closeMiniApp shows
        only in `beep.hostCalls`. */
    var sdkCalls: seq<string>

    /** The bridge is consistent, and nothing has been fetched or set before
        the provider was ready. */
    ghost predicate Valid()
      reads this, beep, beep.window
    {
      && beep.Valid()
      && (isActionButtonSet || isAppBarTitleSet ==> isReady)
      && (!IsNullish(user) || !IsNullish(cards) ==> isReady)
      && (!isReady ==> sdkCalls == [])
    }

    constructor (beep: BeepMiniAppApi, webviewPresent: bool, appName: JsValue)
      requires beep.Valid()
      ensures Valid() && this.beep == beep && this.webviewPresent == webviewPresent && this.appName == appName
      ensures !isReady && user == JNull && cards == JNull
      ensures !isActionButtonSet && !isAppBarTitleSet && sdkCalls == []
    {
      this.beep := beep;
      this.webviewPresent := webviewPresent;
      this.appName := appName;
      isReady := false;
      user := JNull;
      cards := JNull;
      isActionButtonSet := false;
      isAppBarTitleSet := false;
      sdkCalls := [];
    }

    /** The ready event: the provider becomes ready and registers the
        back-press handler that closes the mini-app. */
    method OnReady()
      requires Valid()
      modifies this, beep, beep.window
      ensures Valid() && isReady
      ensures sdkCalls == old(sdkCalls) + ["onBackPressed"]
      ensures webviewPresent ==>
                && beep.hostCalls == old(beep.hostCalls) + [HostCall("onBackPressed", [])]
                && beep.onBackPressedListener == Tapped(old(beep.window.nextId), BackPressedEvent, Some(CloseOnBack))
                && beep.window.listeners == old(beep.window.listeners)[BackPressedEvent :=
                     Without(old(beep.window.Registered(BackPressedEvent)), old(beep.onBackPressedListener))
                     + [beep.onBackPressedListener]]
      ensures !webviewPresent ==> unchanged(beep) && unchanged(beep.window)
      ensures beep.onDatePickedListener == old(beep.onDatePickedListener)
      ensures beep.onActionButtonTappedListener == old(beep.onActionButtonTappedListener)
      ensures user == old(user) && cards == old(cards)
      ensures isActionButtonSet == old(isActionButtonSet) && isAppBarTitleSet == old(isAppBarTitleSet)
    {
      isReady := true;
      beep.OnBackPressed(webviewPresent, Some(CloseOnBack));
      sdkCalls := sdkCalls + ["onBackPressed"];
    }

    /** The body of the back-press handler registered by OnReady: the
        bridge's closeMiniApp, which asks the host to close the mini-app when
        the transport is present. */
    method OnBackTapped()
      requires Valid()
      modifies beep
      ensures Valid()
      ensures beep.hostCalls == old(beep.hostCalls) + (if webviewPresent then [HostCall("closeMiniApp", [])] else [])
      ensures beep.onBackPressedListener == old(beep.onBackPressedListener)
      ensures beep.onActionButtonTappedListener == old(beep.onActionButtonTappedListener)
      ensures beep.onDatePickedListener == old(beep.onDatePickedListener)
    {
      beep.CloseMiniApp(webviewPresent);
    }

    /** The 3-second check: a host whose ready event was missed still makes
        the provider ready (without registering the back-press handler). */
    method ReadyCheckTimer()
      requires Valid()
      modifies this
      ensures Valid()
      ensures isReady == (old(isReady) || webviewPresent)
      ensures user == old(user) && cards == old(cards) && sdkCalls == old(sdkCalls)
      ensures isActionButtonSet == old(isActionButtonSet) && isAppBarTitleSet == old(isAppBarTitleSet)
    {
      if !isReady && webviewPresent {
        isReady := true;
      }
    }

    /** The 500 ms timer scheduled only in browser mode. */
    method BrowserReadyTimer()
      requires Valid() && !webviewPresent
      modifies this
      ensures Valid() && isReady
      ensures user == old(user) && cards == old(cards) && sdkCalls == old(sdkCalls)
      ensures isActionButtonSet == old(isActionButtonSet) && isAppBarTitleSet == old(isAppBarTitleSet)
    {
      isReady := true;
    }

    /** fetchUser: nothing before ready; the fixed user in a browser;
        otherwise `beep.getUser`, whose success stores the user it returns. */
    method FetchUser(response: HostResponse)
      requires Valid()
      modifies this
      ensures Valid()
      ensures !old(isReady) ==> user == old(user) && sdkCalls == old(sdkCalls)
      ensures old(isReady) && !webviewPresent ==> user == BrowserUser && sdkCalls == old(sdkCalls)
      ensures old(isReady) && webviewPresent ==>
                && sdkCalls == old(sdkCalls) + ["getUser"]
                && (GetUser(Present(response)).route.ToSuccess? ==> user == response.result)
                && (GetUser(Present(response)).route.ToFail? ==> user == old(user))
      ensures isReady == old(isReady) && cards == old(cards)
      ensures isActionButtonSet == old(isActionButtonSet) && isAppBarTitleSet == old(isAppBarTitleSet)
    {
      if !isReady {
        return;
      }
      if !webviewPresent {
        user := BrowserUser;
        return;
      }
      sdkCalls := sdkCalls + ["getUser"];
      var o := GetUser(Present(response));
      if o.route.ToSuccess? && o.route.arg.Arg? {
        user := o.route.arg.value;
      }
    }

    /** fetchCards: nothing before ready; one fixed card in a browser;
        otherwise `beep.getCards`, whose success stores what it returns. */
    method FetchCards(response: HostResponse)
      requires Valid()
      modifies this
      ensures Valid()
      ensures !old(isReady) ==> cards == old(cards) && sdkCalls == old(sdkCalls)
      ensures old(isReady) && !webviewPresent ==> cards == BrowserCards && sdkCalls == old(sdkCalls)
      ensures old(isReady) && webviewPresent ==>
                && sdkCalls == old(sdkCalls) + ["getCards"]
                && (GetCards(Present(response)).route.ToSuccess? ==> cards == response.result)
                && (GetCards(Present(response)).route.ToFail? ==> cards == old(cards))
      ensures isReady == old(isReady) && user == old(user)
      ensures isActionButtonSet == old(isActionButtonSet) && isAppBarTitleSet == old(isAppBarTitleSet)
    {
      if !isReady {
        return;
      }
      if !webviewPresent {
        cards := BrowserCards;
        return;
      }
      sdkCalls := sdkCalls + ["getCards"];
      var o := GetCards(Present(response));
      if o.route.ToSuccess? && o.route.arg.Arg? {
        cards := o.route.arg.value;
      }
    }

    /** showDialog: nothing before ready; in a browser `confirmed` is the
        answer of `window.confirm` and exactly the matching callback runs, if
        given; otherwise the host's answer is routed by `beep.showDialog`. */
    method ShowDialog(title: JsValue, description: JsValue, confirmTitle: JsValue, dismissTitle: JsValue,
                      onConfirm: Option<CbId>, onDismiss: Option<CbId>, confirmed: bool, response: HostResponse)
      returns (invoked: seq<Invocation>)
      requires Valid()
      modifies this
      ensures Valid()
      ensures !isReady ==> invoked == [] && sdkCalls == old(sdkCalls)
      ensures isReady && !webviewPresent ==>
                && sdkCalls == old(sdkCalls)
                && invoked == (if confirmed then (if onConfirm.Some? then [Invocation(onConfirm.value, NoArg)] else [])
                               else (if onDismiss.Some? then [Invocation(onDismiss.value, NoArg)] else []))
      ensures isReady && webviewPresent ==>
                && sdkCalls == old(sdkCalls) + ["showDialog"]
                && invoked == Deliver(BeepSDK.ShowDialog(title, description, confirmTitle, dismissTitle, Present(response)).route,
                                      onConfirm, onDismiss)
      ensures isReady == old(isReady) && user == old(user) && cards == old(cards)
      ensures isActionButtonSet == old(isActionButtonSet) && isAppBarTitleSet == old(isAppBarTitleSet)
    {
      if !isReady {
        return [];
      }
      if !webviewPresent {
        if confirmed && onConfirm.Some? {
          invoked := [Invocation(onConfirm.value, NoArg)];
        } else if !confirmed && onDismiss.Some? {
          invoked := [Invocation(onDismiss.value, NoArg)];
        } else {
          invoked := [];
        }
        return;
      }
      sdkCalls := sdkCalls + ["showDialog"];
      var o := BeepSDK.ShowDialog(title, description, confirmTitle, dismissTitle, Present(response));
      invoked := Deliver(o.route, onConfirm, onDismiss);
    }

    /** setActionButton: takes effect at most once, and only when ready. */
    method SetActionButton(title: JsValue, onTap: Option<CbId>)
      requires Valid()
      modifies this, beep, beep.window
      ensures Valid()
      ensures !old(isReady) || old(isActionButtonSet) ==>
                isActionButtonSet == old(isActionButtonSet) && sdkCalls == old(sdkCalls)
                && unchanged(beep) && unchanged(beep.window)
      ensures old(isReady) && !old(isActionButtonSet) ==> isActionButtonSet
      ensures old(isReady) && !old(isActionButtonSet) && !webviewPresent ==>
                sdkCalls == old(sdkCalls) && unchanged(beep) && unchanged(beep.window)
      ensures old(isReady) && !old(isActionButtonSet) && webviewPresent ==>
                && sdkCalls == old(sdkCalls) + ["actionButton"]
                && beep.hostCalls == old(beep.hostCalls) + [HostCall("appBarAction", [title])]
                && beep.onActionButtonTappedListener == Tapped(old(beep.window.nextId), ActionButtonEvent, onTap)
                && beep.window.listeners == old(beep.window.listeners)[ActionButtonEvent :=
                     Without(old(beep.window.Registered(ActionButtonEvent)), old(beep.onActionButtonTappedListener))
                     + [beep.onActionButtonTappedListener]]
      ensures beep.onDatePickedListener == old(beep.onDatePickedListener)
      ensures beep.onBackPressedListener == old(beep.onBackPressedListener)
      ensures isReady == old(isReady) && user == old(user) && cards == old(cards)
      ensures isAppBarTitleSet == old(isAppBarTitleSet)
    {
      if !isReady || isActionButtonSet {
        return;
      }
      if !webviewPresent {
        isActionButtonSet := true;
        return;
      }
      beep.ActionButton(true, title, onTap);
      sdkCalls := sdkCalls + ["actionButton"];
      isActionButtonSet := true;
    }

    /** `title || ENV.APP_NAME`. */
    function FinalTitle(title: JsValue): (r: JsValue)
      ensures Truthy(title) ==> r == title
      ensures !Truthy(title) ==> r == appName
    {
      if Truthy(title) then title else appName
    }

    /** setAppBarTitle: only when ready, and once unless `forceReset`; a
        falsy title falls back to the application name. */
    method SetAppBarTitle(title: JsValue, forceReset: bool)
      requires Valid()
      modifies this, beep
      ensures Valid()
      ensures !old(isReady) || (old(isAppBarTitleSet) && !forceReset) ==>
                isAppBarTitleSet == old(isAppBarTitleSet) && sdkCalls == old(sdkCalls) && unchanged(beep)
      ensures old(isReady) && (!old(isAppBarTitleSet) || forceReset) ==> isAppBarTitleSet
      ensures old(isReady) && (!old(isAppBarTitleSet) || forceReset) && !webviewPresent ==>
                sdkCalls == old(sdkCalls) && unchanged(beep)
      ensures old(isReady) && (!old(isAppBarTitleSet) || forceReset) && webviewPresent ==>
                && sdkCalls == old(sdkCalls) + ["appBarTitle"]
                && beep.hostCalls == old(beep.hostCalls) + [HostCall("appBarTitle", [FinalTitle(title)])]
      ensures beep.onDatePickedListener == old(beep.onDatePickedListener)
      ensures beep.onActionButtonTappedListener == old(beep.onActionButtonTappedListener)
      ensures beep.onBackPressedListener == old(beep.onBackPressedListener)
      ensures isReady == old(isReady) && user == old(user) && cards == old(cards)
      ensures isActionButtonSet == old(isActionButtonSet)
    {
      if !isReady || (isAppBarTitleSet && !forceReset) {
        return;
      }
      var finalTitle := FinalTitle(title);
      if !webviewPresent {
        isAppBarTitleSet := true;
        return;
      }
      beep.AppBarTitle(true, finalTitle);
      sdkCalls := sdkCalls + ["appBarTitle"];
      isAppBarTitleSet := true;
    }

    /** closeMiniApp: not gated on readiness; simulated in a browser. */
    method CloseMiniApp()
      requires Valid()
      modifies beep
      ensures Valid()
      ensures beep.hostCalls == old(beep.hostCalls) + (if webviewPresent then [HostCall("closeMiniApp", [])] else [])
      ensures beep.onDatePickedListener == old(beep.onDatePickedListener)
      ensures beep.onActionButtonTappedListener == old(beep.onActionButtonTappedListener)
      ensures beep.onBackPressedListener == old(beep.onBackPressedListener)
    {
      if webviewPresent {
        beep.CloseMiniApp(true);
      }
    }
  }

  /** Removing the only listener a list holds empties it. */
  lemma {:induction false} WithoutOnly(s: seq<Listener>, l: Listener)
    requires forall x :: x in s ==> x == l
    ensures Without(s, l) == []
  {
    if s != [] {
      assert s[0] in s;
      assert forall x :: x in s[1..] ==> x in s;
      WithoutOnly(s[1..], l);
    }
  }

  /** Inside the host, once the provider is ready a back press runs exactly
      the handler OnReady registered, once, and that handler closes the
      mini-app: the host sees onBackPressed, then closeMiniApp. */
  method ReadyThenBackPressed(p: BeepProvider, detail: JsValue) returns (invoked: seq<Invocation>)
    requires p.Valid() && p.webviewPresent
    requires forall l :: l in p.beep.window.Registered(BackPressedEvent) ==> OwnedBy(l, BackPressedEvent)
    modifies p, p.beep, p.beep.window
    ensures p.Valid() && p.isReady
    ensures invoked == [Invocation(CloseOnBack, NoArg)]
    ensures p.beep.hostCalls == old(p.beep.hostCalls) + [HostCall("onBackPressed", []), HostCall("closeMiniApp", [])]
  {
    ghost var before := p.beep.window.Registered(BackPressedEvent);
    ghost var slot := p.beep.onBackPressedListener;
    assert forall l :: l in before ==> l == slot;
    WithoutOnly(before, slot);
    p.OnReady();
    assert p.beep.window.Registered(BackPressedEvent) == [p.beep.onBackPressedListener];
    invoked := FireAll(p.beep.window.Registered(BackPressedEvent), detail);
    ghost var ls := p.beep.window.Registered(BackPressedEvent);
    assert ls[0] == p.beep.onBackPressedListener && ls[1..] == [];
    assert Fire(ls[0], detail) == [Invocation(CloseOnBack, NoArg)];
    assert invoked == Fire(ls[0], detail) + FireAll(ls[1..], detail);
    p.OnBackTapped();
  }

  /** A second setActionButton after a successful one changes nothing. */
  method SetActionButtonTwice(p: BeepProvider, first: JsValue, second: JsValue, onTap: Option<CbId>)
    requires p.Valid() && p.isReady && !p.isActionButtonSet
    modifies p, p.beep, p.beep.window
    ensures p.Valid() && p.isActionButtonSet
    ensures p.webviewPresent ==> p.beep.hostCalls == old(p.beep.hostCalls) + [HostCall("appBarAction", [first])]
  {
    p.SetActionButton(first, onTap);
    p.SetActionButton(second, onTap);
  }
}

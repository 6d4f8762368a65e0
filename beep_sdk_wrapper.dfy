/**
 * The choice between the real bridge and the mock. `beepSDK` is a table
 * built once, when the module is loaded, from the environment at that
 * moment; getCards and httpRequest are wired to the mock whatever the
 * environment.
 */
module BeepSDKWrapper {
  import opened JsValues
  import BeepSDKMock

  /** Whether `window` and `window.flutter_inappwebview` are defined. */
  datatype Environment = Environment(windowDefined: bool, webviewDefined: bool)

  /** In a browser without the host transport, the mock is needed. */
  function IsBrowserEnvironment(e: Environment): (r: bool)
    ensures r ==> e.windowDefined && !e.webviewDefined
    ensures e.windowDefined && !e.webviewDefined ==> r
  {
    e.windowDefined && !e.webviewDefined
  }

  datatype Impl = Real | Mock

  datatype SdkMethod =
    | GetUser | GetCards | RequestReferenceNumber | RequestPayment | ShowDialog | ChooseImageFromFile
    | SaveImage | ShowLoading | HideLoading | HttpRequest | ChoosePhoneFromContact | DatePicker
    | ActionButton | OnBackPressed | CloseMiniApp | AppBarTitle

  /** `getImplementation(m)`: `beepSDKMock[m]` in a browser, `beep[m]` otherwise. */
  function GetImplementation(e: Environment, m: SdkMethod): (r: Impl)
    ensures r == Mock <==> !e.webviewDefined && e.windowDefined
    ensures r == Real <==> e.webviewDefined || !e.windowDefined
  {
    if IsBrowserEnvironment(e) then Mock else Real
  }

  /** The entries of the `beepSDK` table, in source order. */
  const AllMethods: set<SdkMethod> :=
    {GetUser, GetCards, RequestReferenceNumber, RequestPayment, ShowDialog, ChooseImageFromFile,
     SaveImage, ShowLoading, HideLoading, HttpRequest, ChoosePhoneFromContact, DatePicker,
     ActionButton, OnBackPressed, CloseMiniApp, AppBarTitle}

  lemma AllMethodsListed()
    ensures forall m: SdkMethod :: m in AllMethods
  {
    forall m: SdkMethod ensures m in AllMethods {
      match m
      case GetUser => case GetCards => case RequestReferenceNumber => case RequestPayment =>
      case ShowDialog => case ChooseImageFromFile => case SaveImage => case ShowLoading =>
      case HideLoading => case HttpRequest => case ChoosePhoneFromContact => case DatePicker =>
      case ActionButton => case OnBackPressed => case CloseMiniApp => case AppBarTitle =>
    }
  }

  /** The `beepSDK` table for the environment seen at load time. */
  function Table(loadEnv: Environment): (t: map<SdkMethod, Impl>)
    ensures forall m: SdkMethod :: m in t
    ensures t[GetCards] == Mock && t[HttpRequest] == Mock
    ensures forall m :: m in t && m != GetCards && m != HttpRequest ==> (t[m] == Mock <==> IsBrowserEnvironment(loadEnv))
  {
    AllMethodsListed();
    map m | m in AllMethods :: if m == GetCards || m == HttpRequest then Mock else GetImplementation(loadEnv, m)
  }

  /** Outside a browser the only mocked entries are the two hard-wired ones. */
  lemma OnlyHardWiredEntriesMockedInHost(loadEnv: Environment)
    requires !IsBrowserEnvironment(loadEnv)
    ensures forall m :: Table(loadEnv)[m] == Mock <==> m == GetCards || m == HttpRequest
  {
  }

  /** The loaded module: the table is a constant computed once from the
      environment at load time, so a later change of environment does not
      switch any entry. */
  class SdkModule {
    const loadEnv: Environment
    const table: map<SdkMethod, Impl>

    constructor (loadEnv: Environment)
      ensures this.loadEnv == loadEnv && table == Table(loadEnv)
    {
      this.loadEnv := loadEnv;
      table := Table(loadEnv);
    }
  }

  datatype MiniAppFactory = RealMiniApp | MockMiniAppFactory

  /** `getMiniApp()`: the mock factory in a browser, the real class otherwise. */
  function GetMiniApp(e: Environment): (f: MiniAppFactory)
    ensures f == MockMiniAppFactory <==> e.windowDefined && !e.webviewDefined
  {
    if IsBrowserEnvironment(e) then MockMiniAppFactory else RealMiniApp
  }

  /** `window._miniAppMockInstance`. */
  class MockInstanceSlot {
    var instance: Option<BeepSDKMock.MiniAppMock>

    constructor ()
      ensures instance == None
    {
      instance := None;
    }

    /** The mock factory: builds a MiniAppMock and records it as the most
        recent instance. */
    method Construct(onReady: Option<nat>, onResume: Option<nat>, onPaused: Option<nat>, onStop: Option<nat>)
      returns (m: BeepSDKMock.MiniAppMock)
      modifies this
      ensures fresh(m) && instance == Some(m)
      ensures m.onReadyHandler == onReady && m.onResumeHandler == onResume
      ensures m.onPausedHandler == onPaused && m.onStopHandler == onStop
      ensures m.readyTimerPending
    {
      m := new BeepSDKMock.MiniAppMock(onReady, onResume, onPaused, onStop);
      instance := Some(m);
    }
  }
}

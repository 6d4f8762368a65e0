# Beep mini-app: decision logic

A model of the decision logic in the Beep mini-app. The app is a React application that runs inside the Beep host's WebView and talks to the host through `window.flutter_inappwebview`. The model covers:

- **The host bridge** (`BeepSDK`): how each `BeepMiniAppApi` operation routes the host's answer to exactly one of its callbacks. It also covers the single-slot listener registrations over the window's listener table and the `MiniApp` lifecycle listeners.
- **The in-browser mock** (`BeepSDKMock`): its canned answers, the global trigger slots and `MiniAppMock`.
- **Implementation selection** (`BeepSDKWrapper`): the choice between the bridge and the mock, made once when the module loads.
- **Configuration** (`Env`): `getEnv` coercion and the `ENV` record.
- **The enrollment form hook** (`UseBeepCards`): card selection, per-card applicant entries, their initialisation and `isFormValid`.
- **The dashboard hook** (`UseDashboard`): policies regrouped as one record per insured beep card with its certificates of cover (COCs).
- **The checkout hook** (`UseCheckout`): the quote → reference number → payment → "paid" → "bound" → success page chain.
- **The two context providers** (`BeepContext`, `AppContext`): readiness gating, once-only actions, browser fallbacks and navigation state.

Two shared modules support them:

- `JsValues` models the JavaScript values the logic depends on: `undefined`/`null`, truthiness, `== null`, `== true`, `Number(s)`, and property reads that throw on `null`/`undefined`.
- `OrderedMaps` models plain objects and `Map`s whose keys enumerate in insertion order.

Host answers, service replies, timers and the environment are inputs to the model.

- A host call's outcome is a `Transport`: either absent, or present with a rejection or a resolved value.
- A caller's callback is an identity (`CbId`). An operation yields the callback `Invocation`s it makes.
- Mutable objects are classes. This covers the bridge with its window listener table, `MiniApp`, `MiniAppMock`, the trigger slots, and each hook's and provider's state.
- Each state-changing method is proved against a specification function. Examples:
  - the dashboard loops against `Group`
  - the form loops against `BlankForms`, `SelectedAmong` and `FormValid`
  - the checkout callbacks against `Continue` and its step functions

## Model

| member | source | states |
|---|---|---|
| BeepSDK.Deliver | src/utils/beepSDK.js:197-226 | `if (cb) cb(arg)`: at most one invocation, of the callback the route selects, and none when that callback is missing |
| BeepSDK.FieldChecked | src/utils/beepSDK.js:79-108 | with the host absent: onFail with "WebView API not available" and no host call; otherwise one host call with the given arguments; success iff the resolved result has the required field non-null, passing the result; rejection gives onFail with `{errorMessage}`; a result lacking the field goes to onFail with the result |
| BeepSDK.GetUser | src/utils/beepSDK.js:79-108 | onSuccess iff the host resolved with a value whose `id` is non-null; absent host gives onFail with the unavailability message and no host call |
| BeepSDK.GetCards | src/utils/beepSDK.js:110-139 | onSuccess iff the resolved value has a non-null `cards`; absent host gives onFail without a host call |
| BeepSDK.RequestReferenceNumber | src/utils/beepSDK.js:141-170 | onSuccess iff the resolved value has a non-null `referenceNumber`; the host call carries merchant code, product, amount and notify URL in that order |
| BeepSDK.RequestPayment | src/utils/beepSDK.js:172-195 | always routes to onSuccess: an absent host or a rejection arrive as a `status: "ERROR"` object; `type` defaults to "CHECKOUT"; the host call carries amount, fee, reference number, type |
| BeepSDK.ShowDialog | src/utils/beepSDK.js:197-226 | confirms iff the host resolved with a value `== true`; absence, rejection and any other value dismiss; no callback argument |
| BeepSDK.Boolish | src/utils/beepSDK.js:228-350 | the shared shape of the yes/no operations: onSuccess() iff the resolved value passes the operation's test, onFail() otherwise, no argument either way |
| BeepSDK.ChooseImageFromFile | src/utils/beepSDK.js:228-257 | onSuccess() iff the resolved result is non-null; no payload is passed on |
| BeepSDK.SaveImage | src/utils/beepSDK.js:259-288 | onSuccess() iff the resolved result is truthy |
| BeepSDK.ShowLoading | src/utils/beepSDK.js:290-319 | onSuccess() iff the resolved result `== true` |
| BeepSDK.HideLoading | src/utils/beepSDK.js:321-350 | onSuccess() iff the resolved result `== true` |
| BeepSDK.HttpRequest | src/utils/beepSDK.js:352-382 | onSuccess(response) iff the response is non-null and its `statusCode` is numerically within 200..299; the host call applies the defaults GET, "", {}, the JSON content-type header and {} to undefined arguments |
| BeepSDK.ChoosePhoneFromContact | src/utils/beepSDK.js:384-413 | onSuccess(result) iff the resolved result's `errorMessage` is null or undefined; absent host gives onFail without a host call |
| BeepSDK.AbsentTransportFailsWithoutHostCall | src/utils/beepSDK.js:79-413 | over every callback-style operation: with the host absent, no host call is made, every operation except requestPayment routes to its failure callback, and requestPayment reports an "ERROR" status through onSuccess |
| BeepSDK.PresentTransportCallsHostOnce | src/utils/beepSDK.js:79-413 | over every callback-style operation: with the host present exactly one host call is made |
| BeepSDK.ExactlyOneCallback | src/utils/beepSDK.js:79-413 | whenever both callbacks are given and they return normally, every operation invokes exactly one of them, once |
| BeepSDK.RequestPaymentNeverFails | src/utils/beepSDK.js:172-195 | a failure callback passed to requestPayment is never invoked, whatever the host does |
| BeepSDK.Without | src/utils/beepSDK.js:427-490 | `removeEventListener` on a listener list: exactly the other listeners remain, and a duplicate-free list stays duplicate-free |
| BeepSDK.Fire | src/utils/beepSDK.js:429-436 | one dispatched listener runs at most one callback: a tap or lifecycle listener its callback, with no argument, iff one was given; the date listener nothing when `detail` is null or undefined, otherwise `onSuccess(detail)` when `detail.date` is truthy and `onFail(detail)` when it is falsy, each only if given; the initial no-op nothing |
| BeepSDK.FireAll | src/utils/beepSDK.js:427-490 | dispatching an event to a list of listeners runs no more callbacks than there are listeners |
| BeepSDK.EventTable.Allocate | src/utils/beepSDK.js:427-490 | a new function identity, distinct from every registered one; the listener table is unchanged |
| BeepSDK.EventTable.Add | src/utils/beepSDK.js:427-490 | `addEventListener`: appends the listener under its event name unless it is already registered there; other names unchanged |
| BeepSDK.EventTable.Remove | src/utils/beepSDK.js:427-490 | `removeEventListener`: every occurrence of the listener is removed under that name; other names unchanged |
| BeepSDK.EventTable.Replace | src/utils/beepSDK.js:427-438 | remove the previous listener, then append the new one |
| BeepSDK.EventTable.AddLifecycle | src/utils/beepSDK.js:45-48 | a new arrow function gets a fresh identity and is appended under its event name |
| BeepSDK.SingleSlotAtMostOne | src/utils/beepSDK.js:427-490 | in a duplicate-free list whose owned listeners all equal the slot, at most one owned listener exists, and one exists iff the slot is registered |
| BeepSDK.BeepMiniAppApi.constructor | src/utils/beepSDK.js:75-77 | the three slots start as the no-op function, with no host calls made |
| BeepSDK.BeepMiniAppApi.SlotsHoldOne | src/utils/beepSDK.js:427-490 | at most one date-picked, one action-button and one back-pressed handler of the bridge is registered at any time |
| BeepSDK.BeepMiniAppApi.DatePicker | src/utils/beepSDK.js:415-440 | absent host: immediate onFail with the unavailability message and nothing changes; present: one datePicker host call, and the date listener is replaced by a new one (old removed, new appended); the other slots are unchanged |
| BeepSDK.BeepMiniAppApi.ActionButton | src/utils/beepSDK.js:442-466 | absent host: no change; present: one appBarAction host call with the title, and the tap listener is replaced by a new one for onTap |
| BeepSDK.BeepMiniAppApi.OnBackPressed | src/utils/beepSDK.js:468-492 | absent host: no change; present: one onBackPressed host call and the back-button listener is replaced by a new one |
| BeepSDK.BeepMiniAppApi.CloseMiniApp | src/utils/beepSDK.js:494-508 | one closeMiniApp host call iff the host is present; listener slots unchanged |
| BeepSDK.BeepMiniAppApi.AppBarTitle | src/utils/beepSDK.js:510-524 | one appBarTitle host call with the title iff the host is present; listener slots unchanged |
| BeepSDK.DatePickerTwice | src/utils/beepSDK.js:427-438 | after two registrations, an onDatePicked event with a truthy date runs only the second registration's onSuccess, once |
| BeepSDK.Appended | src/utils/beepSDK.js:45-48 | appending under a name adds exactly that name to the table's event names |
| BeepSDK.LifecycleListeners | src/utils/beepSDK.js:45-48 | each of the four lifecycle events gets its own listener appended, and every other event's listeners are as they were |
| BeepSDK.LifecycleEventsDistinct | src/utils/beepSDK.js:45-48 | the four lifecycle event names are pairwise different |
| BeepSDK.MiniApp.constructor | src/utils/beepSDK.js:4-61 | four listeners with fresh identities are added, one per lifecycle event, each wrapping its callback; nothing is removed |
| BeepSDK.MiniApp.ManuallyTriggerReady | src/utils/beepSDK.js:64-67 | runs the ready handler: the onReady callback once if it was given, nothing otherwise |
| BeepSDKMock.NatToString | src/utils/beepSDKMock.js:68-75 | `String(n)` for a non-negative integer: a non-empty digit string whose decimal value is n, with no leading zero unless n is 0 |
| BeepSDKMock.GetUser | src/utils/beepSDKMock.js:44-50 | always onSuccess with the fixed user, which has an `id`; the same route the bridge gives for that answer |
| BeepSDKMock.GetCards | src/utils/beepSDKMock.js:52-58 | always onSuccess with exactly two cards, each with can, expiry, status and balance |
| BeepSDKMock.RequestReferenceNumber | src/utils/beepSDKMock.js:60-66 | always onSuccess with a `referenceNumber`, as the bridge routes that answer |
| BeepSDKMock.RequestPayment | src/utils/beepSDKMock.js:68-75 | always onSuccess with status "SUCCESS" and a transaction id "TXN-" followed by the decimal digits of the current time |
| BeepSDKMock.ShowDialog | src/utils/beepSDKMock.js:77-84 | always confirms, never dismisses; the bridge routes a `true` answer the same way |
| BeepSDKMock.ChooseImageFromFile | src/utils/beepSDKMock.js:86-95 | onSuccess with a two-element array when `allowMultiple` is truthy, with a single string otherwise |
| BeepSDKMock.SucceedWithTrue | src/utils/beepSDKMock.js:97-119 | saveImage, showLoading and hideLoading answer onSuccess(true) |
| BeepSDKMock.HttpRequest | src/utils/beepSDKMock.js:121-150 | whatever the request, the route the bridge gives for a status-200 response (no network) |
| BeepSDKMock.HttpResponseFields | src/utils/beepSDKMock.js:121-150 | the canned response has `statusCode` 200, a success status, and the JSON content-type header |
| BeepSDKMock.ChoosePhoneFromContact | src/utils/beepSDKMock.js:152-162 | always onSuccess with the fixed contact, as the bridge routes it |
| BeepSDKMock.DatePicker | src/utils/beepSDKMock.js:164-173 | onSuccess with today's date, exactly what the bridge's date listener delivers for that event |
| BeepSDKMock.MockArgumentsDifferForYesNoOperations | src/utils/beepSDKMock.js:86-119 | for chooseImageFromFile, saveImage, showLoading and hideLoading the bridge calls onSuccess() without an argument while the mock passes a value |
| BeepSDKMock.MockTriggers.ActionButton | src/utils/beepSDKMock.js:175-182 | overwrites the action-button trigger slot with onTap: the last registration wins |
| BeepSDKMock.MockTriggers.OnBackPressed | src/utils/beepSDKMock.js:184-191 | overwrites the back-button trigger slot with onTap |
| BeepSDKMock.MockTriggers.TriggerActionButton | src/utils/beepSDKMock.js:178-181 | runs the most recently registered onTap once, if there is one |
| BeepSDKMock.MockTriggers.TriggerBackButton | src/utils/beepSDKMock.js:187-190 | runs the most recently registered back-button onTap once, if there is one |
| BeepSDKMock.CallIfPresent | src/utils/beepSDKMock.js:223-250 | `if (handler) handler()`: one invocation iff the handler is present |
| BeepSDKMock.MiniAppMock.constructor | src/utils/beepSDKMock.js:206-220 | stores the four handlers and schedules the ready timer |
| BeepSDKMock.MiniAppMock.ReadyTimerFires | src/utils/beepSDKMock.js:213-219 | the timer runs onReady the first time only |
| BeepSDKMock.MiniAppMock.ManuallyTriggerReady | src/utils/beepSDKMock.js:223-228 | calls only onReady, and only when present |
| BeepSDKMock.MiniAppMock.SimulateResume | src/utils/beepSDKMock.js:231-236 | calls only onResume, and only when present |
| BeepSDKMock.MiniAppMock.SimulatePause | src/utils/beepSDKMock.js:238-243 | calls only onPaused, and only when present |
| BeepSDKMock.MiniAppMock.SimulateStop | src/utils/beepSDKMock.js:245-250 | calls only onStop, and only when present |
| BeepSDKWrapper.GetImplementation | src/utils/beepSDKWrapper.js:23-31 | the mock iff `window` is defined and the host transport is not; the bridge otherwise |
| BeepSDKWrapper.IsBrowserEnvironment | src/utils/beepSDKWrapper.js:14-16 | a browser needing the mock iff `window` is defined and the host transport is not |
| BeepSDKWrapper.AllMethodsListed | src/utils/beepSDKWrapper.js:69-169 | the table has an entry for every SDK operation |
| BeepSDKWrapper.Table | src/utils/beepSDKWrapper.js:69-169 | getCards and httpRequest are the mock in every environment; every other entry is the mock iff the load-time environment is a browser |
| BeepSDKWrapper.OnlyHardWiredEntriesMockedInHost | src/utils/beepSDKWrapper.js:82-132 | outside a browser, the mocked entries are exactly getCards and httpRequest |
| BeepSDKWrapper.SdkModule.constructor | src/utils/beepSDKWrapper.js:69-169 | the table is fixed once, from the environment at load time |
| BeepSDKWrapper.GetMiniApp | src/utils/beepSDKWrapper.js:37-57 | the mock factory iff the environment is a browser, `MiniApp` otherwise |
| BeepSDKWrapper.MockInstanceSlot.Construct | src/utils/beepSDKWrapper.js:43-52 | builds a fresh `MiniAppMock` with the given handlers and records it as the most recent instance |
| Env.LowerChar | src/utils/env.js:22-26 | upper-case ASCII letters map to lower case; everything else is kept |
| Env.Lower | src/utils/env.js:22-26 | `toLowerCase` character by character, keeping the length |
| Env.LowerIdempotent | src/utils/env.js:22-26 | lowering twice is lowering once |
| Env.GetEnv | src/utils/env.js:14-36 | undefined, null or "" gives the default; a boolean result is true iff the lowered string is "true"; a non-empty input never gives null; any other string becomes its number when `Number` accepts it and comes back unchanged when it does not |
| Env.GetEnvConversions | src/utils/env.js:22-33 | "true"/"false" in any letter case become the booleans; a digit string becomes its number |
| Env.MakeConfig | src/utils/env.js:41-55 | each flag holds iff the environment is exactly its name; missing variables take their documented defaults |
| Env.EnvironmentFlags | src/utils/env.js:52-54 | at most one of the three environment flags is set; development is set when the variable is missing or empty |
| Env.LetterStartKeptAsString | src/utils/env.js:31-35 | a value that starts with a letter and is not a boolean spelling is kept as the same string |
| Env.CapitalisedEnvironmentSetsNoFlag | src/utils/env.js:50-54 | "Production" is kept as a string and sets none of the three flags |
| Env.MerchantCodeIsUndefined | src/utils/env.js:41-55 | `ENV.BEEP_MERCHANT_CODE` is undefined for every environment |
| Env.ConfigObject | src/utils/env.js:41-55 | `ENV` as an object: `APP_NAME` and `ENVIRONMENT` are the configured values, and the three flags are booleans equal to the record's flags |
| JsValues.Get | src/hooks/useBeepCards.js:28 | a property read throws exactly on null or undefined; on an object it gives the property or undefined |
| JsValues.StringToNumber | src/utils/env.js:31-33 | `Number("")` is 0; a leading "-" negates the unsigned literal after it and a leading "+" keeps it; without a sign the string is the unsigned literal; a negative result only comes from a "-" |
| JsValues.UnsignedDecimal | src/utils/env.js:31-33 | an unsigned literal is never negative, and a non-empty digit string is its decimal value |
| JsValues.UnsignedDecimalParts | src/utils/env.js:31-33 | "whole.frac" with at least one digit is the whole part plus the fraction divided by ten to the number of its digits |
| JsValues.UnsignedDecimalNeedsDigit | src/utils/env.js:31-33 | a string without a digit, such as "" or ".", is no number |
| JsValues.SignedExamples | src/utils/env.js:31-33 | "-1.5" is -1.5 and "+2" is 2 |
| JsValues.FractionExamples | src/utils/env.js:31-33 | ".5" is 0.5; "-" and "." are not numbers |
| JsValues.ToNumber | src/utils/beepSDK.js:366 | `Number(v)`: undefined and objects are NaN; null, "" and [] are 0; booleans are 1 and 0; a number is itself; an array of two or more elements is NaN |
| JsValues.FalsyValues | src/utils/beepSDK.js:259-288 | the falsy values are exactly undefined, null, false, 0 and "" |
| JsValues.LooselyTrueIsTruthy | src/utils/beepSDK.js:210 | a value that is `== true` is truthy |
| JsValues.LooselyTrueExamples | src/utils/beepSDK.js:210 | `== true` holds for true, 1, "1" and [1] and fails for false, "true", null and {} |
| OrderedMaps.Lookup | src/hooks/useBeepCards.js:86-94 | defined exactly for the keys present, giving their values |
| OrderedMaps.Set | src/hooks/useBeepCards.js:86-94 | `{ ...m, [k]: v }`: k maps to v, others unchanged; an existing key keeps its place, a new key goes last |
| OrderedMaps.SetLookups | src/hooks/useBeepCards.js:86-94 | after a write, the written key reads back the new value and every other key what it read before |
| OrderedMaps.Toggle | src/hooks/useBeepCards.js:79-84 | `{ ...prev, [k]: !prev[k] }`: k becomes the negation of its old flag (missing counts as false); every other key unchanged |
| OrderedMaps.ToggleTwice | src/hooks/useBeepCards.js:79-84 | toggling twice restores a present key exactly, and restores the flag's truth value in every case |
| UseBeepCards.WithField | src/hooks/useBeepCards.js:86-94 | sets field f of card c to v; every other field of c and every other card is unchanged; a card without an entry starts from an empty one |
| UseBeepCards.FieldNamesDistinct | src/hooks/useBeepCards.js:37-47 | the six form field names are pairwise different |
| UseBeepCards.MakeEntry | src/hooks/useBeepCards.js:37-47 | an entry with the six fields in written order, each holding its given value |
| UseBeepCards.BlankEntryShape | src/hooks/useBeepCards.js:37-47 | a blank entry holds the card's own number and empty applicant fields |
| UseBeepCards.BlankFormsContents | src/hooks/useBeepCards.js:37-47 | every card number gets exactly the blank entry for that number, and nothing else has an entry |
| UseBeepCards.InitialFormData | src/hooks/useBeepCards.js:37-47 | the `forEach` loop builds exactly the blank forms for the card list |
| UseBeepCards.UserField | src/hooks/useBeepCards.js:50-53 | `user.f` when truthy, "" otherwise |
| UseBeepCards.LoadedState | src/hooks/useBeepCards.js:32-53 | after loading, exactly the first card is selected; every card has an entry carrying its own number; the first card's name, mobile and email come from the user ("" when missing); the birth date and every other card's fields are empty |
| UseBeepCards.SelectedAmongMembers | src/hooks/useBeepCards.js:112-118 | a prefix's selected keys are exactly the selected ones among that prefix, each once |
| UseBeepCards.SelectedKeysMembers | src/hooks/useBeepCards.js:110-130 | exactly the cards whose flag is true, each once, in key order |
| UseBeepCards.EntriesOf | src/hooks/useBeepCards.js:110-119 | each listed card's entry, undefined when it has none |
| UseBeepCards.GetSelectedCardDetails | src/hooks/useBeepCards.js:110-119 | the entries of exactly the selected cards, in key order |
| UseBeepCards.GetSelectedFormData | src/hooks/useBeepCards.js:121-130 | keyed by exactly the selected cards in key order, each mapped to its entry |
| UseBeepCards.HasSelectionByIndex | src/hooks/useBeepCards.js:134-135 | `Object.values(selectedCards).some(Boolean)` is the same as some key being selected |
| UseBeepCards.VisitedAll | src/hooks/useBeepCards.js:138-152 | once every key has been visited, the prefix facts are facts about every selected card |
| UseBeepCards.FormValidMeaning | src/hooks/useBeepCards.js:132-155 | valid iff some card is selected and every selected card has an entry with all five applicant fields filled; throws iff some selected card has no entry |
| UseBeepCards.IsFormValid | src/hooks/useBeepCards.js:132-155 | the loop with its mutable flag computes exactly that validity, false when nothing is selected |
| UseBeepCards.LoadedFormIncomplete | src/hooks/useBeepCards.js:32-53 | a freshly loaded form is not valid, because the birth date is empty |
| UseBeepCards.Cans | src/hooks/useBeepCards.js:38-40 | the `can` of each card, in order |
| UseBeepCards.BridgePayloads | src/hooks/useBeepCards.js:20-28 | both getUser implementations deliver a non-null user on success; the mock getCards delivers two cards with the expected numbers |
| UseBeepCards.BeepCardsHook.constructor | src/hooks/useBeepCards.js:5-16 | initial state from the saved form state; loading is already off when it brings a non-empty card list |
| UseBeepCards.BeepCardsHook.FetchUserAndCards | src/hooks/useBeepCards.js:18-77 | cards are asked for iff getUser succeeded; user failure, card failure and an empty card list each set their own message and keep the form state (the empty list clears `cards`); otherwise the loaded selection and forms, no error; loading ends off |
| UseBeepCards.BeepCardsHook.HandleCardSelection | src/hooks/useBeepCards.js:79-84 | flips only that card's selection flag |
| UseBeepCards.BeepCardsHook.HandleInputChange | src/hooks/useBeepCards.js:86-94 | sets only that field of that card |
| UseBeepCards.BeepCardsHook.HandleDateChange | src/hooks/useBeepCards.js:96-108 | a picked date becomes the card's birth date; a failure or a null answer changes nothing |
| UseDashboard.FormatCardNumber | src/hooks/useDashboard.js:68-70 | longer than six characters: one space inserted after the sixth, and removing it gives the number back; otherwise unchanged |
| UseDashboard.TrimStart | src/hooks/useDashboard.js:73-75 | removes exactly the leading white space |
| UseDashboard.TrimEnd | src/hooks/useDashboard.js:73-75 | removes exactly the trailing white space |
| UseDashboard.InsuredName | src/hooks/useDashboard.js:73-75 | the joined name has no leading or trailing white space and is at most the two names and a space long |
| UseDashboard.InsuredNameCases | src/hooks/useDashboard.js:73-75 | two names are joined by one space; a missing last name leaves the first; two missing names give "" |
| UseDashboard.CocOf | src/hooks/useDashboard.js:78-93 | COC number is the policy number, the download URL is the first document's or null, and the period is the formatted start and end dates |
| UseDashboard.FormatDate | src/hooks/useDashboard.js:119-133 | "" for a missing date, the locale rendering otherwise |
| UseDashboard.OccurrencesIn | src/hooks/useDashboard.js:59-61 | one occurrence per card of the policy, in order |
| UseDashboard.GroupSnoc | src/hooks/useDashboard.js:57-109 | grouping one more occurrence is one more step |
| UseDashboard.FirstSeenMembers | src/hooks/useDashboard.js:63-66 | the first-seen card numbers are exactly the non-empty numbers that occur |
| UseDashboard.GroupKeys | src/hooks/useDashboard.js:96-112 | the card map's keys are the distinct non-empty numbers in first-seen order; empty numbers are skipped |
| UseDashboard.UnseenHasNoCocs | src/hooks/useDashboard.js:96-106 | a number not yet seen has no COCs |
| UseDashboard.GroupRecord | src/hooks/useDashboard.js:57-109 | a card's record has its number formatted and raw, the insured name from its first occurrence (later ones do not change it), and one COC per occurrence in order |
| UseDashboard.GroupContents | src/hooks/useDashboard.js:51-117 | one record per distinct non-empty card number, in first-seen order, each as GroupRecord states |
| UseDashboard.Values | src/hooks/useDashboard.js:112 | the records in key order |
| UseDashboard.AddPolicyCards | src/hooks/useDashboard.js:59-108 | the inner loop adds one policy's cards exactly as the grouping specifies |
| UseDashboard.ProcessPoliciesToCards | src/hooks/useDashboard.js:51-112 | the `try` body: the nested loops and `Map` produce the records of the grouping of all occurrences, in first-seen order |
| UseDashboard.DashboardHook.constructor | src/hooks/useDashboard.js:6-10 | loading, no error, no user, no cards, nothing expanded |
| UseDashboard.DashboardHook.Mount | src/hooks/useDashboard.js:12-49 | sets the title; a user failure sets its message and fetches no policies; a policy failure sets its message; loaded policies become the grouped records, a missing list giving none; data that makes the grouping throw sets "Error processing policy data" and keeps the old cards (lines 113-116); loading ends off |
| UseDashboard.DashboardHook.ToggleCardExpansion | src/hooks/useDashboard.js:135-140 | flips only that card's expansion flag |
| UseCheckout.Index0 | src/hooks/useCheckout.js:149 | `quotes[0]`: the first element of an array |
| UseCheckout.DerivedQuote | src/hooks/useCheckout.js:149 | null without a submission or with a missing or empty quote list; the first quote of a non-empty list |
| UseCheckout.QuoteForPayment | src/hooks/useCheckout.js:45 | the first quote of a non-empty list; null when the list is missing, falsy, empty or without a positive length; reading throws iff the submission is null or undefined |
| UseCheckout.DerivedQuoteAgrees | src/hooks/useCheckout.js:149 | the page's `quote` and the handler's quote are the same element |
| UseCheckout.BeepCards | src/hooks/useCheckout.js:150 | `quote?.data?.beep_cards` when truthy; `[]` for a missing quote, a quote without `data`, or a falsy `beep_cards`; always truthy |
| UseCheckout.FormatCurrency | src/hooks/useCheckout.js:30-32 | "PHP " followed by the two-decimal rendering; throws iff the amount is not a number |
| UseCheckout.PremiumSummary | src/hooks/useCheckout.js:152-161 | all empty without a truthy premium; otherwise the total, base premium and taxes are the formatted `total_premium`, `premium_breakdown.premium` and `tax`, and rendering throws iff the breakdown is missing or one of the three is not a number |
| UseCheckout.TotalPremium | src/hooks/useCheckout.js:52 | `quote.premium.total_premium`; undefined without a quote |
| UseCheckout.BindOutcome | src/hooks/useCheckout.js:127-145 | processing ends; navigation happens iff the bind status is "bound", otherwise the activation message |
| UseCheckout.MarkPaidOutcome | src/hooks/useCheckout.js:116-145 | processing ends on every path |
| UseCheckout.PaymentData | src/hooks/useCheckout.js:110-114 | the amount, `referenceNumber` from the reference response and `reference_number` from the payment result |
| UseCheckout.AfterPayment | src/hooks/useCheckout.js:108-146 | marking paid is the first request, with the payment data; processing ends |
| UseCheckout.PaymentFailOutcome | src/hooks/useCheckout.js:100-104 | no further request |
| UseCheckout.PaymentSuccessOutcome | src/hooks/useCheckout.js:88-99 | processing ends; marking paid, with the payment data, is requested iff the result's status is exactly "success"; otherwise the unsuccessful-payment message |
| UseCheckout.Payment | src/hooks/useCheckout.js:83-106 | the payment request comes first and carries the amount and the reference response's fee and reference number |
| UseCheckout.Product | src/hooks/useCheckout.js:67 | the product label is the fixed prefix followed by the quote id |
| UseCheckout.ReferenceFailOutcome | src/hooks/useCheckout.js:75-79 | the bridge's `errorMessage` when truthy, else the default message; processing ends; no request |
| UseCheckout.Reference | src/hooks/useCheckout.js:64-81 | the reference-number request comes first: undefined merchant code, the product label, the amount and an empty notify URL |
| UseCheckout.Continue | src/hooks/useCheckout.js:40-62 | a missing submission throws and leaves processing on; a missing or non-"generated" quote sets the quote message with no request; no request unless the guard is passed |
| UseCheckout.RequestedConcat | src/hooks/useCheckout.js:40-146 | a request is among two concatenated call lists iff it is among one of them |
| UseCheckout.AfterPaymentOutcomes | src/hooks/useCheckout.js:108-146 | no bridge request after the payment; marking paid always; binding iff "paid"; navigation iff "paid" and "bound", and then no error |
| UseCheckout.PaymentOutcomes | src/hooks/useCheckout.js:83-146 | marking paid iff the payment reports exactly "success"; navigation iff that and "paid" and "bound"; any other success status gives the unsuccessful-payment message; any later failure the activation message |
| UseCheckout.PaymentUnfolds | src/hooks/useCheckout.js:83-106 | a successful payment continues with the post-payment chain; any other success status stops after the request; a failure makes no further request |
| UseCheckout.ContinueStarted | src/hooks/useCheckout.js:40-62 | past the guard, the handler is the reference step on the quote's id and total premium |
| UseCheckout.ReferenceAmounts | src/hooks/useCheckout.js:64-106 | every bridge request of the reference step carries its amount |
| UseCheckout.ChargedAmountIsTotalPremium | src/hooks/useCheckout.js:52-85 | both the reference-number and the payment request carry `quote.premium.total_premium` |
| UseCheckout.MarkPaidIffPaymentSucceeded | src/hooks/useCheckout.js:91-98 | marking paid is requested iff the reference arrived and the payment reports exactly "success"; any other status gives the unsuccessful-payment message |
| UseCheckout.NavigatesIffBound | src/hooks/useCheckout.js:120-137 | the success page is reached iff the guard passed, the payment succeeded, the quote was "paid" and then "bound"; it ends without error and not processing |
| UseCheckout.FailureAfterPaymentIsActivationError | src/hooks/useCheckout.js:141-145 | after a successful payment every failure ends in the single activation message with processing off; binding is requested iff the quote was "paid" |
| UseCheckout.ReferenceFailureStopsChain | src/hooks/useCheckout.js:75-79 | a reference failure makes no request after the reference request, sets its message and clears processing |
| UseCheckout.ReferenceRoutesDeliverObjects | src/utils/beepSDK.js:141-170 | both bridges always pass an object to the reference callbacks |
| UseCheckout.PaymentFailureCallbackUnreachable | src/hooks/useCheckout.js:100-104 | neither bridge ever routes a payment outcome to the failure callback |
| UseCheckout.MockPaymentNeverMarksPaid | src/utils/beepSDKMock.js:71 | with the mock, status "SUCCESS" never equals "success": the quote is never marked paid and the chain ends with the unsuccessful-payment message |
| UseCheckout.CheckoutHook.constructor | src/hooks/useCheckout.js:7-11 | no submission, empty form, not processing, no error, loading |
| UseCheckout.CheckoutHook.Mount | src/hooks/useCheckout.js:13-28 | sets the title; takes over a truthy submission and form from the page parameters; loading ends |
| UseCheckout.CheckoutHook.HandleNavigateBack | src/hooks/useCheckout.js:34-38 | navigates to the application form; nothing else changes |
| UseCheckout.CheckoutHook.OnBindResponse | src/hooks/useCheckout.js:127-145 | reaches the state BindOutcome specifies |
| UseCheckout.CheckoutHook.OnMarkPaidResponse | src/hooks/useCheckout.js:116-145 | reaches the state MarkPaidOutcome specifies |
| UseCheckout.CheckoutHook.ProcessQuoteAfterPayment | src/hooks/useCheckout.js:108-146 | reaches the state AfterPayment specifies |
| UseCheckout.CheckoutHook.OnPaymentSuccess | src/hooks/useCheckout.js:88-99 | reaches the state of the payment's onSuccess: continue on exactly "success", otherwise the unsuccessful-payment message |
| UseCheckout.CheckoutHook.OnPaymentFail | src/hooks/useCheckout.js:100-104 | reaches the state PaymentFailOutcome specifies |
| UseCheckout.CheckoutHook.ProcessPayment | src/hooks/useCheckout.js:83-106 | reaches the state Payment specifies |
| UseCheckout.CheckoutHook.OnReferenceFail | src/hooks/useCheckout.js:75-79 | reaches the state ReferenceFailOutcome specifies |
| UseCheckout.CheckoutHook.RequestPaymentReference | src/hooks/useCheckout.js:64-81 | reaches the state Reference specifies |
| UseCheckout.CheckoutHook.HandleContinuePayment | src/hooks/useCheckout.js:40-62 | reaches the state Continue specifies: the calls made, `error` and `isProcessing`; submission, form and loading unchanged |
| BeepContext.BeepProvider.constructor | src/context/BeepContext.jsx:8-12 | not ready, no user, no cards, neither flag set, no bridge call |
| BeepContext.BeepProvider.OnReady | src/context/BeepContext.jsx:33-44 | becomes ready; with the host present, one onBackPressed host call and the back-button listener replaced by one that runs the provider's close handler; the date and action-button slots unchanged |
| BeepContext.BeepProvider.OnBackTapped | src/context/BeepContext.jsx:39-42 | the back-press handler: one closeMiniApp host call iff the host is present; the bridge's slots unchanged |
| BeepContext.BeepProvider.ReadyCheckTimer | src/context/BeepContext.jsx:63-76 | ready afterwards iff it already was or the host transport is present |
| BeepContext.BeepProvider.BrowserReadyTimer | src/context/BeepContext.jsx:79-86 | in browser mode the provider becomes ready |
| BeepContext.BeepProvider.FetchUser | src/context/BeepContext.jsx:94-130 | nothing before ready; the fixed user (id 1403) in a browser with no bridge call; otherwise one getUser call whose success stores the returned user |
| BeepContext.BeepProvider.FetchCards | src/context/BeepContext.jsx:133-172 | nothing before ready; exactly one fixed card in a browser with no bridge call; otherwise one getCards call whose success stores what it returns |
| BeepContext.BeepProvider.ShowDialog | src/context/BeepContext.jsx:175-208 | nothing before ready; in a browser only onConfirm when confirmed and only onDismiss when not; otherwise the bridge routes the host's answer |
| BeepContext.BeepProvider.SetActionButton | src/context/BeepContext.jsx:211-241 | no effect before ready or once already set; otherwise sets the flag and, with the host present, one appBarAction call and a new tap listener that replaces the old one in the listener table; the date and back-button slots unchanged |
| BeepContext.BeepProvider.FinalTitle | src/context/BeepContext.jsx:256 | the title when truthy, the application name otherwise |
| BeepContext.BeepProvider.SetAppBarTitle | src/context/BeepContext.jsx:244-274 | no effect before ready, or when already set without `forceReset`; otherwise sets the flag and, with the host present, one appBarTitle call with the final title; no listener slot changes |
| BeepContext.BeepProvider.CloseMiniApp | src/context/BeepContext.jsx:277-291 | not gated on readiness: one closeMiniApp host call iff the host is present; no listener slot changes |
| BeepContext.SetActionButtonTwice | src/context/BeepContext.jsx:217-220 | two calls set the action button once: only the first title reaches the host |
| BeepContext.WithoutOnly | src/utils/beepSDK.js:483 | removing the only listener a list holds empties it |
| BeepContext.ReadyThenBackPressed | src/context/BeepContext.jsx:33-44 | inside the host, after the ready event a back press runs exactly the close handler, once, and the host sees onBackPressed then closeMiniApp |
| AppContext.AppState.constructor | src/context/AppContext.jsx:6-17 | page "dashboard", console enabled and hidden, empty parameters, empty application form state |
| AppContext.AppState.NavigateTo | src/context/AppContext.jsx:19-23 | sets the page and replaces the parameters, which default to {} |
| AppContext.AppState.ToggleConsoleVisibility | src/context/AppContext.jsx:25-27 | negates the console's visibility; nothing else changes |
| AppContext.AppState.SaveApplicationFormState | src/context/AppContext.jsx:29-32 | replaces the whole form state |
| AppContext.ToggleTwice | src/context/AppContext.jsx:25-27 | two toggles restore the visibility |

## Left out

- Timers, promises and event dispatch are not modelled as such. A host answer, a service reply, a timer firing and an event's `detail` are inputs, and each callback runs at the point its outcome is given. Interleavings of concurrent asynchronous steps are not modelled.
- `console` logging, `document.readyState` inspection in the `MiniApp` constructor, and the `window.miniAppInstance` debugging store have no behavioural effect and are left out.
- `flutter_inappwebview.callHandler` is a recorded `HostCall`. Presence of the transport is a boolean (`present`, `webviewPresent`), standing for `typeof window.flutter_inappwebview`.
- The quote and policy services are abstract replies (`ServiceReply`, `PolicyResponse`). Their request building, `URL` parsing and `JSON.parse` are not part of this model.
- `toFixed(2)`, `toLocaleDateString`, `toISOString`, `Date.now()` and `String(quoteId)` are parameters (`fixed2`, `render`, `timestamp`/`today`, `now`, `toStr`).
- The mock's 500 ms delays, and React's effect re-runs, memoisation and stale closures, are left out. In particular, the 3-second readiness check is modelled as reading the current `isReady`.
- Numbers are exact reals, and NaN is represented as the absence of a number.
- `JsValues.StringToNumber` accepts signed decimals. It does not accept surrounding white space, exponents, `Infinity`, or hexadecimal, octal or binary literals.
- OrderedMaps.Set: JavaScript enumerates a plain object's array-index keys (canonical numeric strings below 2^32 - 1, such as "42") first, in ascending order, and only the other keys in insertion order. The model appends every new key. Card numbers keyed this way are 16 digits long, so they are not array indices and are unaffected; the dashboard's `Map` is unaffected too.
- Env.GetEnv: lowers ASCII letters only, and takes its default as an explicit argument. Every `ENV` entry passes one, so the `""` default of `defaultValue` is not modelled.
- Env.GetEnv: `isNaN`/`Number` are modelled by `StringToNumber`, so a string in a numeric form it does not accept is kept as a string where JavaScript would convert it.
- UseBeepCards.BeepCardsHook.FetchUserAndCards: requires a delivered card list to be an array of objects whose `can` is a string. The host's payload shape is not otherwise fixed. The mock always satisfies this (UseBeepCards.BridgePayloads).
- UseBeepCards.BeepCardsHook.FetchUserAndCards: the success callback of getUser is assumed to receive a non-null user. Both implementations guarantee this (UseBeepCards.BridgePayloads), so the throw inside the callback is not modelled.
- UseDashboard.DashboardHook.Mount: requires the same of getUser's success.
- UseDashboard.DashboardHook.Mount: which response shapes make the grouping throw is not decided by the model; such a response is the input `PoliciesUnprocessable`.
- UseDashboard.DashboardHook.Mount: policy fields are already-converted strings (`String(x || '')`), so the conversions themselves are not modelled.
- UseCheckout.Continue: requires the reference-number request to deliver an object to its callbacks, which both bridges do (UseCheckout.ReferenceRoutesDeliverObjects). The same requirement holds for UseCheckout.Reference, UseCheckout.CheckoutHook.RequestPaymentReference and UseCheckout.CheckoutHook.HandleContinuePayment.
- UseCheckout.Continue: the `length > 0` comparison is numeric only. A `length` that is not a number counts as not positive.
- UseCheckout.Continue: a handler that throws leaves `isProcessing` true, as the source does. The `catch` around `requestPaymentReference` is not reached, because nothing in the reference step throws synchronously.
- UseCheckout.PaymentFailOutcome: kept for fidelity, although no bridge reaches it (UseCheckout.PaymentFailureCallbackUnreachable).
- BeepSDK.Fire: an onDatePicked event whose `detail` is null throws inside the listener, and no callback runs. The model gives no invocation for it.
- BeepSDK.ExactlyOneCallback: holds for callbacks that return normally. A callback that throws inside the bridge's `then` is caught by the same promise's `catch`: for requestPayment that calls `onSuccess` a second time, and for every other operation it also calls `onFail`. Only requestPayment's null-result case is modelled (UseCheckout.PaymentSuccessOutcome).
- BeepContext.BeepProvider.ShowDialog: `window.confirm`'s answer is the `confirmed` parameter.
- BeepContext: creating a new `MiniApp` each time `isReady` changes (the effect's dependency) is not modelled. The provider is modelled from one `MiniApp`.

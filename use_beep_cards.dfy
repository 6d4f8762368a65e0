/**
 * The enrollment form's state: which beep cards are selected and the
 * applicant details entered for each card, keyed by card number (`can`).
 */
module UseBeepCards {
  import opened JsValues
  import opened OrderedMaps
  import BeepSDK
  import BeepSDKMock

  /** One card's form entry, field name to value. */
  type Entry = OrderedMap<JsValue>
  /** `selectedCards`: card number to whether it is selected. */
  type Selection = OrderedMap<bool>
  /** `formData`: card number to its entry. */
  type Forms = OrderedMap<Entry>

  const CardNumberField := "beep_card_number"
  const FirstNameField := "applicant_first_name"
  const LastNameField := "applicant_last_name"
  const MobileField := "applicant_mobile"
  const EmailField := "applicant_email_address"
  const DobField := "applicant_dob"

  /** The applicant fields a selected card must have filled in. */
  const RequiredFields: seq<string> := [FirstNameField, LastNameField, MobileField, EmailField, DobField]

  const UserFailMessage := "Failed to fetch user data. Please try again."
  const CardsFailMessage := "Failed to fetch your beep cards. Please try again."
  const NoCardsMessage := "No beep cards found in your account"

  // ---------------------------------------------------------------------------
  // Single-entry updates

  /** `handleInputChange`: `{ ...prev, [c]: { ...prev[c], [f]: v } }`; a card
      without an entry starts from an empty one. */
  function WithField(fd: Forms, card: string, field: string, value: JsValue): (r: Forms)
    ensures Lookup(r, card).Some? && Lookup(Lookup(r, card).value, field) == Some(value)
    ensures forall f :: f != field ==> Lookup(Lookup(r, card).value, f) == Lookup(Lookup(fd, card).GetOr(Empty()), f)
    ensures forall c :: c != card ==> Lookup(r, c) == Lookup(fd, c)
    ensures card in fd.keys ==> r.keys == fd.keys
    ensures card !in fd.keys ==> r.keys == fd.keys + [card]
  {
    var prev := Lookup(fd, card).GetOr(Empty());
    var entry := Set(prev, field, value);
    SetLookups(prev, field, value);
    SetLookups(fd, card, entry);
    Set(fd, card, entry)
  }

  // ---------------------------------------------------------------------------
  // Initial form data

  /** The six field names are distinct. */
  lemma FieldNamesDistinct()
    ensures [CardNumberField] + RequiredFields == EntryFields
    ensures forall i, j :: 0 <= i < j < |EntryFields| ==> EntryFields[i] != EntryFields[j]
  {
    assert |CardNumberField| == 16 && |FirstNameField| == 20 && |LastNameField| == 19;
    assert |MobileField| == 16 && |EmailField| == 23 && |DobField| == 13;
    assert CardNumberField[0] != MobileField[0];
  }

  /** The fields of an entry, in the order they are written. */
  const EntryFields: seq<string> := [CardNumberField, FirstNameField, LastNameField, MobileField, EmailField, DobField]

  /** An entry with the given card number and applicant fields. */
  function MakeEntry(can: JsValue, first: JsValue, last: JsValue, mobile: JsValue, email: JsValue, dob: JsValue): (e: Entry)
    ensures e.keys == EntryFields
    ensures Lookup(e, CardNumberField) == Some(can) && Lookup(e, FirstNameField) == Some(first)
    ensures Lookup(e, LastNameField) == Some(last) && Lookup(e, MobileField) == Some(mobile)
    ensures Lookup(e, EmailField) == Some(email) && Lookup(e, DobField) == Some(dob)
  {
    EntryWellFormed(can, first, last, mobile, email, dob);
    RawMap(EntryFields, map[CardNumberField := can, FirstNameField := first, LastNameField := last,
                            MobileField := mobile, EmailField := email, DobField := dob])
  }

  lemma EntryWellFormed(can: JsValue, first: JsValue, last: JsValue, mobile: JsValue, email: JsValue, dob: JsValue)
    ensures WellFormed(RawMap(EntryFields, map[CardNumberField := can, FirstNameField := first, LastNameField := last,
                                               MobileField := mobile, EmailField := email, DobField := dob]))
  {
    FieldNamesDistinct();
  }

  /** A fresh entry: the card's own number and empty applicant fields. */
  function BlankEntry(can: string): Entry
  {
    MakeEntry(JStr(can), JStr(""), JStr(""), JStr(""), JStr(""), JStr(""))
  }

  /** A blank entry holds the card number and then each required field,
      empty. */
  lemma BlankEntryShape(can: string)
    ensures BlankEntry(can).keys == [CardNumberField] + RequiredFields
    ensures Lookup(BlankEntry(can), CardNumberField) == Some(JStr(can))
    ensures forall f :: f in RequiredFields ==> Lookup(BlankEntry(can), f) == Some(JStr(""))
  {
    FieldNamesDistinct();
  }

  /** The form data after a blank entry has been written for each card
      number in turn. */
  function BlankForms(cans: seq<string>): (fd: Forms)
  {
    if cans == [] then Empty()
    else
      var last := cans[|cans| - 1];
      Set(BlankForms(cans[..|cans| - 1]), last, BlankEntry(last))
  }

  /** Every card number gets exactly one entry, the blank one for that
      number, and nothing else has an entry. */
  lemma {:induction false} BlankFormsContents(cans: seq<string>)
    ensures forall c :: Lookup(BlankForms(cans), c) == (if c in cans then Some(BlankEntry(c)) else None)
  {
    if cans != [] {
      var init := cans[..|cans| - 1];
      BlankFormsContents(init);
      assert cans == init + [cans[|cans| - 1]];
      forall c ensures Lookup(BlankForms(cans), c) == (if c in cans then Some(BlankEntry(c)) else None) {
        if c != cans[|cans| - 1] {
          assert c in cans <==> c in init;
        }
      }
    }
  }

  /** The loop that writes a blank entry for every card. */
  method InitialFormData(cans: seq<string>) returns (fd: Forms)
    ensures fd == BlankForms(cans)
  {
    fd := Empty();
    var i := 0;
    while i < |cans|
      invariant 0 <= i <= |cans|
      invariant fd == BlankForms(cans[..i])
    {
      BlankFormsSnoc(cans, i);
      fd := Set(fd, cans[i], BlankEntry(cans[i]));
      i := i + 1;
    }
    assert cans[..i] == cans;
  }

  lemma BlankFormsSnoc(cans: seq<string>, i: nat)
    requires i < |cans|
    ensures BlankForms(cans[..i + 1]) == Set(BlankForms(cans[..i]), cans[i], BlankEntry(cans[i]))
  {
    assert cans[..i + 1][..i] == cans[..i];
  }

  /** `userData.f || ""`. */
  function UserField(user: JsValue, f: string): (v: JsValue)
    requires !IsNullish(user)
    ensures Truthy(v) ==> v == Get(user, f).value
    ensures !Truthy(Get(user, f).value) ==> v == JStr("")
  {
    var x := Get(user, f).value;
    if Truthy(x) then x else JStr("")
  }

  /** The first card's entry, with name, mobile and email from the user:
      the blank entry with those four fields overwritten in place. */
  function FirstEntry(can: string, user: JsValue): (e: Entry)
    requires !IsNullish(user)
  {
    MakeEntry(JStr(can), UserField(user, "firstName"), UserField(user, "lastName"),
              UserField(user, "phoneNumber"), UserField(user, "email"), JStr(""))
  }

  function LoadedSelection(cans: seq<string>): (sel: Selection)
    requires |cans| > 0
  {
    Set(Empty(), cans[0], true)
  }

  function LoadedForms(cans: seq<string>, user: JsValue): (fd: Forms)
    requires |cans| > 0 && !IsNullish(user)
  {
    Set(BlankForms(cans), cans[0], FirstEntry(cans[0], user))
  }

  /** After loading: only the first card is selected; every card has an
      entry carrying its own number; the first card's name, mobile and email
      come from the user (empty when missing) and everything else is empty. */
  lemma LoadedState(cans: seq<string>, user: JsValue)
    requires |cans| > 0 && !IsNullish(user)
    ensures LoadedSelection(cans).keys == [cans[0]] && Lookup(LoadedSelection(cans), cans[0]) == Some(true)
    ensures forall c :: c in cans <==> c in LoadedForms(cans, user).keys
    ensures forall c :: c in cans ==> Lookup(LoadedForms(cans, user).vals[c], CardNumberField) == Some(JStr(c))
    ensures forall c :: c in cans && c != cans[0] ==> LoadedForms(cans, user).vals[c] == BlankEntry(c)
    ensures var e := LoadedForms(cans, user).vals[cans[0]];
      && Lookup(e, FirstNameField) == Some(UserField(user, "firstName"))
      && Lookup(e, LastNameField) == Some(UserField(user, "lastName"))
      && Lookup(e, MobileField) == Some(UserField(user, "phoneNumber"))
      && Lookup(e, EmailField) == Some(UserField(user, "email"))
      && Lookup(e, DobField) == Some(JStr(""))
  {
    BlankFormsContents(cans);
    var fd := LoadedForms(cans, user);
    forall c | c in cans
      ensures Lookup(fd.vals[c], CardNumberField) == Some(JStr(c))
    {
      if c != cans[0] {
        assert Lookup(BlankForms(cans), c) == Some(BlankEntry(c));
        BlankEntryShape(c);
      }
    }
  }

  // ---------------------------------------------------------------------------
  // Projections of the selected cards

  /** The selected card numbers among the first n keys, in key order. */
  function SelectedAmong(sel: Selection, n: nat): (ks: seq<string>)
    requires n <= |sel.keys|
  {
    if n == 0 then []
    else
      var k := sel.keys[n - 1];
      SelectedAmong(sel, n - 1) + (if sel.vals[k] then [k] else [])
  }

  function SelectedKeys(sel: Selection): (ks: seq<string>) {
    SelectedAmong(sel, |sel.keys|)
  }

  /** A card number is among the first n selected keys iff it is one of the
      first n keys and its flag is true; none is listed twice. */
  lemma {:induction false} SelectedAmongMembers(sel: Selection, n: nat)
    requires n <= |sel.keys|
    ensures forall k :: k in SelectedAmong(sel, n) <==> k in sel.keys[..n] && sel.vals[k]
    ensures forall i, j :: 0 <= i < j < |SelectedAmong(sel, n)| ==> SelectedAmong(sel, n)[i] != SelectedAmong(sel, n)[j]
  {
    if n > 0 {
      SelectedAmongMembers(sel, n - 1);
      assert sel.keys[..n] == sel.keys[..n - 1] + [sel.keys[n - 1]];
      var k := sel.keys[n - 1];
      assert k !in sel.keys[..n - 1];
    }
  }

  /** Exactly the selected cards, each once, in key order. */
  lemma SelectedKeysMembers(sel: Selection)
    ensures forall k :: k in SelectedKeys(sel) <==> k in sel.keys && sel.vals[k]
    ensures forall i, j :: 0 <= i < j < |SelectedKeys(sel)| ==> SelectedKeys(sel)[i] != SelectedKeys(sel)[j]
  {
    SelectedAmongMembers(sel, |sel.keys|);
    assert sel.keys[..|sel.keys|] == sel.keys;
  }

  /** The entry of each listed card, undefined (None) when it has none. */
  function EntriesOf(ks: seq<string>, fd: Forms): (r: seq<Option<Entry>>)
    ensures |r| == |ks| && forall i :: 0 <= i < |ks| ==> r[i] == Lookup(fd, ks[i])
  {
    seq(|ks|, i requires 0 <= i < |ks| => Lookup(fd, ks[i]))
  }

  /** `getSelectedCardDetails`: the entries of the selected cards, in key order. */
  method GetSelectedCardDetails(sel: Selection, fd: Forms) returns (details: seq<Option<Entry>>)
    ensures details == EntriesOf(SelectedKeys(sel), fd)
  {
    details := [];
    var i := 0;
    while i < |sel.keys|
      invariant 0 <= i <= |sel.keys|
      invariant details == EntriesOf(SelectedAmong(sel, i), fd)
    {
      var k := sel.keys[i];
      if sel.vals[k] {
        details := details + [Lookup(fd, k)];
      }
      i := i + 1;
    }
  }

  /** `getSelectedFormData`: a map from each selected card number, in key
      order, to its entry (undefined when it has none). */
  method GetSelectedFormData(sel: Selection, fd: Forms) returns (out: OrderedMap<Option<Entry>>)
    ensures out.keys == SelectedKeys(sel)
    ensures forall k :: k in out.vals ==> out.vals[k] == Lookup(fd, k)
  {
    out := Empty();
    var i := 0;
    while i < |sel.keys|
      invariant 0 <= i <= |sel.keys|
      invariant out.keys == SelectedAmong(sel, i)
      invariant forall k :: k in out.vals ==> out.vals[k] == Lookup(fd, k)
    {
      var k := sel.keys[i];
      if sel.vals[k] {
        SelectedAmongMembers(sel, i);
        assert k !in sel.keys[..i];
        out := Set(out, k, Lookup(fd, k));
      }
      i := i + 1;
    }
  }

  // ---------------------------------------------------------------------------
  // Validation

  /** `e[f]` is truthy; a missing field reads as undefined. */
  predicate Filled(e: Entry, f: string) {
    Truthy(Lookup(e, f).GetOr(JUndefined))
  }

  /** All five applicant fields are truthy. */
  predicate Complete(e: Entry) {
    Filled(e, FirstNameField) && Filled(e, LastNameField) && Filled(e, MobileField)
    && Filled(e, EmailField) && Filled(e, DobField)
  }

  predicate IsSelected(sel: Selection, k: string) {
    k in sel.vals && sel.vals[k]
  }

  predicate HasSelection(sel: Selection) {
    exists k :: k in sel.keys && IsSelected(sel, k)
  }

  /** What `isFormValid` returns; None when it throws, which it does when
      some selected card has no entry (reading a field of undefined). */
  function FormValid(sel: Selection, fd: Forms): Option<bool> {
    if !HasSelection(sel) then Some(false)
    else if SomeSelectedMissing(sel, fd) then None
    else Some(AllSelectedComplete(sel, fd))
  }

  predicate SomeSelectedMissing(sel: Selection, fd: Forms) {
    exists k :: k in sel.keys && IsSelected(sel, k) && k !in fd.keys
  }

  predicate AllSelectedComplete(sel: Selection, fd: Forms)
    requires !SomeSelectedMissing(sel, fd)
  {
    forall k :: k in sel.keys && IsSelected(sel, k) ==> Complete(fd.vals[k])
  }

  /** Every selected card among the first i has an entry. */
  predicate PresentUpTo(sel: Selection, fd: Forms, i: nat)
    requires i <= |sel.keys|
  {
    forall j :: 0 <= j < i && IsSelected(sel, sel.keys[j]) ==> sel.keys[j] in fd.keys
  }

  /** Every selected card among the first i is complete. */
  predicate CompleteUpTo(sel: Selection, fd: Forms, i: nat)
    requires i <= |sel.keys| && PresentUpTo(sel, fd, i)
  {
    forall j :: 0 <= j < i && IsSelected(sel, sel.keys[j]) ==> Complete(fd.vals[sel.keys[j]])
  }

  /** `Object.values(selectedCards).some(...)` looks at the same flags as
      HasSelection. */
  lemma HasSelectionByIndex(sel: Selection)
    ensures HasSelection(sel) <==> exists i | 0 <= i < |sel.keys| :: sel.vals[sel.keys[i]]
  {
    if HasSelection(sel) {
      var k :| k in sel.keys && IsSelected(sel, k);
      var i :| 0 <= i < |sel.keys| && sel.keys[i] == k;
    }
  }

  /** Once the whole key list is visited, the prefix facts are the facts
      about every selected card. */
  lemma VisitedAll(sel: Selection, fd: Forms)
    requires PresentUpTo(sel, fd, |sel.keys|)
    ensures !SomeSelectedMissing(sel, fd)
    ensures CompleteUpTo(sel, fd, |sel.keys|) <==> AllSelectedComplete(sel, fd)
  {
    forall k | k in sel.keys && IsSelected(sel, k)
      ensures k in fd.keys
    {
      var j :| 0 <= j < |sel.keys| && sel.keys[j] == k;
    }
    if !CompleteUpTo(sel, fd, |sel.keys|) {
      var j :| 0 <= j < |sel.keys| && IsSelected(sel, sel.keys[j]) && !Complete(fd.vals[sel.keys[j]]);
      assert sel.keys[j] in sel.keys;
    }
  }

  /** `isFormValid` is true exactly when some card is selected and every
      selected card has an entry with all five applicant fields filled. */
  lemma FormValidMeaning(sel: Selection, fd: Forms)
    ensures FormValid(sel, fd) == Some(true) <==>
              HasSelection(sel) && forall k :: k in sel.keys && IsSelected(sel, k) ==> k in fd.keys && Complete(fd.vals[k])
    ensures FormValid(sel, fd).None? <==> HasSelection(sel) && SomeSelectedMissing(sel, fd)
  {
  }

  /** `isFormValid`: false when nothing is selected; otherwise every
      selected card is visited, and the result is whether all of them are
      complete, unless one without an entry makes the call throw. */
  method IsFormValid(sel: Selection, fd: Forms) returns (r: Option<bool>)
    ensures r == FormValid(sel, fd)
  {
    var hasSelected := exists i | 0 <= i < |sel.keys| :: sel.vals[sel.keys[i]];
    HasSelectionByIndex(sel);
    if !hasSelected {
      return Some(false);
    }
    var isValid := true;
    var i := 0;
    while i < |sel.keys|
      invariant 0 <= i <= |sel.keys|
      invariant PresentUpTo(sel, fd, i)
      invariant isValid <==> CompleteUpTo(sel, fd, i)
    {
      var k := sel.keys[i];
      if sel.vals[k] {
        if k !in fd.vals {
          assert SomeSelectedMissing(sel, fd);
          return None;
        }
        var e := fd.vals[k];
        if !Filled(e, FirstNameField) || !Filled(e, LastNameField) || !Filled(e, MobileField)
          || !Filled(e, EmailField) || !Filled(e, DobField)
        {
          isValid := false;
        }
      }
      i := i + 1;
    }
    VisitedAll(sel, fd);
    r := Some(isValid);
  }

  /** A freshly loaded form is not yet valid: the birth date is empty. */
  lemma LoadedFormIncomplete(cans: seq<string>, user: JsValue)
    requires |cans| > 0 && !IsNullish(user)
    ensures FormValid(LoadedSelection(cans), LoadedForms(cans, user)) == Some(false)
  {
    var sel := LoadedSelection(cans);
    var fd := LoadedForms(cans, user);
    var e := FirstEntry(cans[0], user);
    assert fd.vals[cans[0]] == e;
    assert !Filled(e, DobField);
    assert cans[0] in sel.keys && IsSelected(sel, cans[0]);
    assert cans[0] in fd.keys;
    assert HasSelection(sel);
    assert !SomeSelectedMissing(sel, fd);
    assert !AllSelectedComplete(sel, fd);
  }

  // ---------------------------------------------------------------------------
  // Loading from the bridge

  /** A card object whose `can` is a string. */
  predicate CardShaped(v: JsValue) {
    v.JObj? && "can" in v.props && v.props["can"].JStr?
  }

  /** The payload shape this model accepts: when `cardsData.cards` is
      truthy it is an array of card objects. */
  predicate PayloadShaped(cardsData: JsValue) {
    Truthy(cardsData) && Truthy(Get(cardsData, "cards").value) ==>
      var c := Get(cardsData, "cards").value;
      c.JArr? && forall i :: 0 <= i < |c.items| ==> CardShaped(c.items[i])
  }

  /** `cardsData && cardsData.cards && cardsData.cards.length > 0`. */
  predicate HasCards(cardsData: JsValue) {
    && Truthy(cardsData)
    && var c := Get(cardsData, "cards").value;
       Truthy(c) && c.JArr? && |c.items| > 0
  }

  function Cans(items: seq<JsValue>): (cans: seq<string>)
    requires forall i :: 0 <= i < |items| ==> CardShaped(items[i])
    ensures |cans| == |items|
    ensures forall i :: 0 <= i < |items| ==> CardShaped(items[i]) && cans[i] == items[i].props["can"].s
  {
    seq(|items|, i requires 0 <= i < |items| && CardShaped(items[i]) => items[i].props["can"].s)
  }

  function ArgValue(a: BeepSDK.Arg): JsValue {
    if a.Arg? then a.value else JUndefined
  }

  /** Both implementations of getUser pass a non-null user on success, and
      the mock getCards passes a payload of the accepted shape with two cards. */
  lemma BridgePayloads(t: BeepSDK.Transport)
    ensures var r := BeepSDK.GetUser(t).route; r.ToSuccess? ==> r.arg.Arg? && !IsNullish(r.arg.value)
    ensures var r := BeepSDKMock.GetUser(); r.ToSuccess? && r.arg.Arg? && !IsNullish(r.arg.value)
    ensures var d := ArgValue(BeepSDKMock.GetCards().arg);
      && PayloadShaped(d) && HasCards(d)
      && Cans(Get(d, "cards").value.items) == ["6378059900462120", "6378059900462121"]
  {
  }

  datatype InitialState = InitialState(cards: Option<seq<JsValue>>, selectedCards: Option<Selection>, formData: Option<Forms>)

  class BeepCardsHook {
    var loading: bool
    var error: Option<string>
    var cards: seq<JsValue>
    var selectedCards: Selection
    var formData: Forms

    /** The hook's first render and its mount effect: loading is off at once
        when the initial state brings a non-empty card list. */
    constructor (initial: InitialState)
      ensures cards == initial.cards.GetOr([])
      ensures selectedCards == initial.selectedCards.GetOr(Empty())
      ensures formData == initial.formData.GetOr(Empty())
      ensures error == None
      ensures loading <==> !(initial.cards.Some? && |initial.cards.value| > 0)
    {
      cards := initial.cards.GetOr([]);
      selectedCards := initial.selectedCards.GetOr(Empty());
      formData := initial.formData.GetOr(Empty());
      error := None;
      loading := true;
      if initial.cards.Some? && |initial.cards.value| > 0 {
        loading := false;
      }
    }

    /** `fetchUserAndCards`, given how getUser and then getCards answer.
        Cards are asked for only after the user has been fetched. */
    method FetchUserAndCards(userRoute: BeepSDK.Route, cardsRoute: BeepSDK.Route) returns (askedForCards: bool)
      requires userRoute.ToSuccess? ==> userRoute.arg.Arg? && !IsNullish(userRoute.arg.value)
      requires cardsRoute.ToSuccess? ==> PayloadShaped(ArgValue(cardsRoute.arg))
      modifies this
      ensures !loading
      ensures askedForCards <==> userRoute.ToSuccess?
      ensures userRoute.ToFail? ==>
                error == Some(UserFailMessage)
                && cards == old(cards) && selectedCards == old(selectedCards) && formData == old(formData)
      ensures userRoute.ToSuccess? && cardsRoute.ToFail? ==>
                error == Some(CardsFailMessage)
                && cards == old(cards) && selectedCards == old(selectedCards) && formData == old(formData)
      ensures userRoute.ToSuccess? && cardsRoute.ToSuccess? && !HasCards(ArgValue(cardsRoute.arg)) ==>
                error == Some(NoCardsMessage)
                && cards == [] && selectedCards == old(selectedCards) && formData == old(formData)
      ensures userRoute.ToSuccess? && cardsRoute.ToSuccess? && HasCards(ArgValue(cardsRoute.arg)) ==>
                var items := Get(ArgValue(cardsRoute.arg), "cards").value.items;
                && error == None
                && cards == items
                && selectedCards == LoadedSelection(Cans(items))
                && formData == LoadedForms(Cans(items), userRoute.arg.value)
    {
      loading := true;
      error := None;
      if userRoute.ToFail? {
        error := Some(UserFailMessage);
        loading := false;
        return false;
      }
      askedForCards := true;
      var user := userRoute.arg.value;
      if cardsRoute.ToFail? {
        error := Some(CardsFailMessage);
        loading := false;
        return;
      }
      var cardsData := ArgValue(cardsRoute.arg);
      if HasCards(cardsData) {
        var items := Get(cardsData, "cards").value.items;
        var cans := Cans(items);
        selectedCards := Set(Empty(), cans[0], true);
        var fd := InitialFormData(cans);
        BlankFormsContents(cans);
        fd := Set(fd, cans[0], FirstEntry(cans[0], user));
        formData := fd;
        cards := items;
        loading := false;
      } else {
        error := Some(NoCardsMessage);
        loading := false;
        cards := [];
      }
    }

    method HandleCardSelection(cardNumber: string)
      modifies this
      ensures selectedCards == Toggle(old(selectedCards), cardNumber)
      ensures loading == old(loading) && error == old(error) && cards == old(cards) && formData == old(formData)
    {
      selectedCards := Toggle(selectedCards, cardNumber);
    }

    method HandleInputChange(cardNumber: string, field: string, value: JsValue)
      modifies this
      ensures formData == WithField(old(formData), cardNumber, field, value)
      ensures loading == old(loading) && error == old(error) && cards == old(cards) && selectedCards == old(selectedCards)
    {
      formData := WithField(formData, cardNumber, field, value);
    }

    /** `handleDateChange`, given how the date picker answers: on success the
        picked `date` becomes the card's birth date; a failure changes
        nothing, and so does a null answer, on which reading `date` throws. */
    method HandleDateChange(cardNumber: string, picked: BeepSDK.Route)
      modifies this
      ensures picked.ToSuccess? && !IsNullish(ArgValue(picked.arg)) ==>
                formData == WithField(old(formData), cardNumber, DobField, Get(ArgValue(picked.arg), "date").value)
      ensures !(picked.ToSuccess? && !IsNullish(ArgValue(picked.arg))) ==> formData == old(formData)
      ensures loading == old(loading) && error == old(error) && cards == old(cards) && selectedCards == old(selectedCards)
    {
      if picked.ToSuccess? {
        var dateData := ArgValue(picked.arg);
        if !IsNullish(dateData) {
          HandleInputChange(cardNumber, DobField, Get(dateData, "date").value);
        }
      }
    }
  }
}

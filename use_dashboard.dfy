/**
 * The dashboard: the user's policies regrouped as one record per insured
 * beep card, each listing the certificates of cover (COCs) that cover it.
 */
module UseDashboard {
  import opened JsValues
  import opened OrderedMaps
  import BeepSDK

  /** A beep card listed in a policy's quote (`quote_data.data.beep_cards`);
      each field is already the string `String(x || '')`, so a missing
      value is "". */
  datatype InsuredCard = InsuredCard(beepCardNumber: string, firstName: string, lastName: string)

  datatype Document = Document(downloadUrl: JsValue)

  /** A policy; a missing `documents` or card list is empty, a missing date "". */
  datatype Policy = Policy(id: JsValue, policyNumber: JsValue, startDate: string, endDate: string,
                           documents: seq<Document>, beepCards: seq<InsuredCard>)

  datatype Coc = Coc(cocNumber: JsValue, periodOfInsurance: string, downloadUrl: JsValue, policyId: JsValue)

  datatype CardRecord = CardRecord(cardNumber: string, rawCardNumber: string, insuredName: string, cocs: seq<Coc>)

  const DashboardTitle := "beep\U{2122} Protect"
  const UserFailMessage := "Failed to load user information. Please try again."
  const PoliciesFailMessage := "Failed to load your policies. Please try again."
  const ProcessingFailMessage := "Error processing policy data. Please try again."

  // ---------------------------------------------------------------------------
  // Formatting

  /** The card number with a space after its sixth character, when it is
      longer than six; removing that space gives the number back. */
  function FormatCardNumber(n: string): (r: string)
    ensures |n| <= 6 ==> r == n
    ensures |n| > 6 ==> |r| == |n| + 1 && r[6] == ' ' && r[..6] + r[7..] == n
  {
    if |n| > 6 then
      var r := n[..6] + " " + n[6..];
      assert r[..6] == n[..6] && r[7..] == n[6..];
      r
    else n
  }

  /** The characters `String.prototype.trim` removes. */
  predicate IsSpace(c: char) {
    || c == ' ' || c == '\t' || c == '\n' || c == '\r' || c == '\U{000B}' || c == '\U{000C}'
    || c == '\U{00A0}' || c == '\U{1680}' || ('\U{2000}' <= c <= '\U{200A}') || c == '\U{2028}'
    || c == '\U{2029}' || c == '\U{202F}' || c == '\U{205F}' || c == '\U{3000}' || c == '\U{FEFF}'
  }

  function TrimStart(s: string): (r: string)
    ensures |r| <= |s| && r == s[|s| - |r|..]
    ensures forall i :: 0 <= i < |s| - |r| ==> IsSpace(s[i])
    ensures r == "" || !IsSpace(r[0])
  {
    if s != [] && IsSpace(s[0]) then TrimStart(s[1..]) else s
  }

  function TrimEnd(s: string): (r: string)
    ensures |r| <= |s| && r == s[..|r|]
    ensures forall i :: |r| <= i < |s| ==> IsSpace(s[i])
    ensures r == "" || !IsSpace(r[|r| - 1])
  {
    if s != [] && IsSpace(s[|s| - 1]) then TrimEnd(s[..|s| - 1]) else s
  }

  function Trim(s: string): string {
    TrimEnd(TrimStart(s))
  }

  /** `` `${first} ${last}`.trim() ``. */
  function InsuredName(card: InsuredCard): (r: string)
    ensures |r| <= |card.firstName| + 1 + |card.lastName|
    ensures r == "" || (!IsSpace(r[0]) && !IsSpace(r[|r| - 1]))
  {
    Trim(card.firstName + " " + card.lastName)
  }

  /** Names without surrounding blanks are joined by one space; a missing
      name leaves just the other one, and two missing names give "". */
  lemma InsuredNameCases(card: InsuredCard)
    ensures card.firstName == "" && card.lastName == "" ==> InsuredName(card) == ""
    ensures (&& card.firstName != "" && !IsSpace(card.firstName[0]) && !IsSpace(card.firstName[|card.firstName| - 1])
             && card.lastName == "")
            ==> InsuredName(card) == card.firstName
    ensures (&& card.firstName != "" && !IsSpace(card.firstName[0])
             && card.lastName != "" && !IsSpace(card.lastName[|card.lastName| - 1]))
            ==> InsuredName(card) == card.firstName + " " + card.lastName
  {
    var joined := card.firstName + " " + card.lastName;
    if card.firstName == "" && card.lastName == "" {
      assert joined == " ";
      assert TrimStart(joined) == TrimStart("");
    }
    if card.firstName != "" && !IsSpace(card.firstName[0]) {
      assert joined[0] == card.firstName[0];
      assert TrimStart(joined) == joined;
      if card.lastName == "" && !IsSpace(card.firstName[|card.firstName| - 1]) {
        assert joined[..|joined| - 1] == card.firstName;
        assert TrimEnd(joined) == TrimEnd(card.firstName);
      }
      if card.lastName != "" && !IsSpace(card.lastName[|card.lastName| - 1]) {
        assert joined[|joined| - 1] == card.lastName[|card.lastName| - 1];
      }
    }
  }

  /** `formatDate`: "" for a missing date, otherwise the locale rendering
      `render` of it. */
  function FormatDate(render: string -> string, dateString: string): (r: string)
    ensures dateString == "" ==> r == ""
    ensures dateString != "" ==> r == render(dateString)
  {
    if dateString == "" then "" else render(dateString)
  }

  /** The COC one policy contributes to each card it covers. */
  function CocOf(p: Policy, render: string -> string): (c: Coc)
    ensures c.cocNumber == p.policyNumber && c.policyId == p.id
    ensures c.downloadUrl == if |p.documents| > 0 then p.documents[0].downloadUrl else JNull
    ensures c.periodOfInsurance == FormatDate(render, p.startDate) + " - " + FormatDate(render, p.endDate)
  {
    Coc(p.policyNumber,
        FormatDate(render, p.startDate) + " - " + FormatDate(render, p.endDate),
        if |p.documents| > 0 then p.documents[0].downloadUrl else JNull,
        p.id)
  }

  // ---------------------------------------------------------------------------
  // Grouping, as a specification

  /** One card of one policy, as the nested loops meet them. */
  datatype Occurrence = Occurrence(policy: Policy, card: InsuredCard)

  function OccurrencesIn(p: Policy): (os: seq<Occurrence>)
    ensures |os| == |p.beepCards| && forall j :: 0 <= j < |os| ==> os[j] == Occurrence(p, p.beepCards[j])
  {
    seq(|p.beepCards|, j requires 0 <= j < |p.beepCards| => Occurrence(p, p.beepCards[j]))
  }

  /** Every card of every policy, policy by policy. */
  function Occurrences(policies: seq<Policy>): seq<Occurrence> {
    if policies == [] then []
    else Occurrences(policies[..|policies| - 1]) + OccurrencesIn(policies[|policies| - 1])
  }

  function Number(o: Occurrence): string {
    o.card.beepCardNumber
  }

  /** One step of the inner loop: a card with no number is skipped; a known
      number gets one more COC; a new number gets a new record. */
  function Step(m: OrderedMap<CardRecord>, o: Occurrence, render: string -> string): OrderedMap<CardRecord> {
    var n := Number(o);
    if |n| == 0 then m
    else if n in m.vals then Set(m, n, m.vals[n].(cocs := m.vals[n].cocs + [CocOf(o.policy, render)]))
    else Set(m, n, CardRecord(FormatCardNumber(n), n, InsuredName(o.card), [CocOf(o.policy, render)]))
  }

  /** The card map after the given occurrences. */
  function Group(os: seq<Occurrence>, render: string -> string): OrderedMap<CardRecord> {
    if os == [] then Empty() else Step(Group(os[..|os| - 1], render), os[|os| - 1], render)
  }

  lemma GroupSnoc(os: seq<Occurrence>, o: Occurrence, render: string -> string)
    ensures Group(os + [o], render) == Step(Group(os, render), o, render)
  {
    assert (os + [o])[..|os|] == os;
  }

  /** The distinct non-empty card numbers, in order of first appearance. */
  function FirstSeen(os: seq<Occurrence>): seq<string> {
    if os == [] then []
    else
      var n := Number(os[|os| - 1]);
      var prior := FirstSeen(os[..|os| - 1]);
      if n == "" || n in prior then prior else prior + [n]
  }

  /** The COCs of the occurrences of card number k, in order. */
  function CocsFor(os: seq<Occurrence>, k: string, render: string -> string): seq<Coc> {
    if os == [] then []
    else
      var o := os[|os| - 1];
      CocsFor(os[..|os| - 1], k, render) + (if Number(o) == k then [CocOf(o.policy, render)] else [])
  }

  /** The insured name at the first occurrence of card number k. */
  function FirstName(os: seq<Occurrence>, k: string): string {
    if os == [] then ""
    else
      var o := os[|os| - 1];
      var prefix := os[..|os| - 1];
      if k in FirstSeen(prefix) then FirstName(prefix, k)
      else if Number(o) == k then InsuredName(o.card)
      else ""
  }

  /** A card number is first-seen iff it is non-empty and some occurrence has it. */
  lemma {:induction false} FirstSeenMembers(os: seq<Occurrence>)
    ensures forall k :: k in FirstSeen(os) <==> k != "" && exists i :: 0 <= i < |os| && Number(os[i]) == k
  {
    if os != [] {
      var prefix := os[..|os| - 1];
      FirstSeenMembers(prefix);
      forall k ensures k in FirstSeen(os) <==> k != "" && exists i :: 0 <= i < |os| && Number(os[i]) == k {
        if k != "" && Number(os[|os| - 1]) != k {
          if exists i :: 0 <= i < |os| && Number(os[i]) == k {
            var i :| 0 <= i < |os| && Number(os[i]) == k;
            assert prefix[i] == os[i];
          }
        }
      }
    }
  }

  /** The map's keys are the first-seen card numbers, in that order; the
      empty number is never one of them. */
  lemma {:induction false} GroupKeys(os: seq<Occurrence>, render: string -> string)
    ensures Group(os, render).keys == FirstSeen(os)
    ensures "" !in FirstSeen(os)
  {
    if os != [] {
      GroupKeys(os[..|os| - 1], render);
    }
  }

  /** A card number never used before has no COCs yet. */
  lemma {:induction false} UnseenHasNoCocs(os: seq<Occurrence>, k: string, render: string -> string)
    requires k !in FirstSeen(os) && k != ""
    ensures CocsFor(os, k, render) == []
  {
    if os != [] {
      var prefix := os[..|os| - 1];
      assert k !in FirstSeen(prefix);
      UnseenHasNoCocs(prefix, k, render);
    }
  }

  /** The record of card number k: its number formatted and raw, the
      insured name from its first occurrence, and one COC per occurrence, in
      order. */
  lemma {:induction false} GroupRecord(os: seq<Occurrence>, k: string, render: string -> string)
    requires k in Group(os, render).vals
    ensures Group(os, render).vals[k] == CardRecord(FormatCardNumber(k), k, FirstName(os, k), CocsFor(os, k, render))
  {
    var prefix := os[..|os| - 1];
    var o := os[|os| - 1];
    var m := Group(prefix, render);
    var coc := CocOf(o.policy, render);
    GroupKeys(prefix, render);
    assert Group(os, render) == Step(m, o, render);
    assert FirstName(os, k) == if k in FirstSeen(prefix) then FirstName(prefix, k)
                               else if Number(o) == k then InsuredName(o.card) else "";
    assert CocsFor(os, k, render) == CocsFor(prefix, k, render) + (if Number(o) == k then [coc] else []);
    if k in m.vals {
      GroupRecord(prefix, k, render);
      assert k in FirstSeen(prefix);
      if Number(o) == k {
        assert Group(os, render).vals[k] == m.vals[k].(cocs := m.vals[k].cocs + [coc]);
      } else {
        assert Group(os, render).vals[k] == m.vals[k];
      }
    } else {
      assert Number(o) == k && k != "";
      UnseenHasNoCocs(prefix, k, render);
      assert Group(os, render).vals[k] == CardRecord(FormatCardNumber(k), k, InsuredName(o.card), [coc]);
    }
  }

  /** The grouping, stated record by record: one record per distinct
      non-empty number, in first-seen order, each as GroupRecord states. */
  lemma GroupContents(os: seq<Occurrence>, render: string -> string)
    ensures Group(os, render).keys == FirstSeen(os)
    ensures forall k :: k in Group(os, render).vals ==>
              Group(os, render).vals[k] == CardRecord(FormatCardNumber(k), k, FirstName(os, k), CocsFor(os, k, render))
  {
    GroupKeys(os, render);
    forall k | k in Group(os, render).vals
      ensures Group(os, render).vals[k] == CardRecord(FormatCardNumber(k), k, FirstName(os, k), CocsFor(os, k, render))
    {
      GroupRecord(os, k, render);
    }
  }

  /** `Array.from(cardsMap.values())`: the records in key order. */
  function Values(m: OrderedMap<CardRecord>): (r: seq<CardRecord>)
    ensures |r| == |m.keys| && forall i :: 0 <= i < |m.keys| ==> r[i] == m.vals[m.keys[i]]
  {
    seq(|m.keys|, i requires 0 <= i < |m.keys| => m.vals[m.keys[i]])
  }

  // ---------------------------------------------------------------------------
  // The loops

  // The sequence facts the loops need, kept apart from the card-map facts so
  // that the solver does not search both at once.

  lemma TakeNone<T>(before: seq<T>, xs: seq<T>)
    ensures before + xs[..0] == before
  {
  }

  lemma TakeOneMore<T>(before: seq<T>, xs: seq<T>, j: nat)
    requires j < |xs|
    ensures before + xs[..j + 1] == (before + xs[..j]) + [xs[j]]
  {
  }

  lemma TakeAll<T>(before: seq<T>, xs: seq<T>)
    ensures before + xs[..|xs|] == before + xs
  {
  }

  lemma OccurrencesPrefix(policies: seq<Policy>, i: nat)
    requires i < |policies|
    ensures Occurrences(policies[..i + 1]) == Occurrences(policies[..i]) + OccurrencesIn(policies[i])
  {
    assert policies[..i + 1][..i] == policies[..i];
  }

  /** The inner loop: one policy's cards, in order, added to the card map. */
  method AddPolicyCards(cardsMap: OrderedMap<CardRecord>, policy: Policy, render: string -> string,
                        ghost before: seq<Occurrence>)
    returns (m: OrderedMap<CardRecord>)
    requires cardsMap == Group(before, render)
    ensures m == Group(before + OccurrencesIn(policy), render)
  {
    m := cardsMap;
    ghost var occ := OccurrencesIn(policy);
    TakeNone(before, occ);
    var j := 0;
    while j < |policy.beepCards|
      invariant 0 <= j <= |policy.beepCards|
      invariant m == Group(before + occ[..j], render)
    {
      var card := policy.beepCards[j];
      var cardNumber := card.beepCardNumber;
      GroupSnoc(before + occ[..j], Occurrence(policy, card), render);
      TakeOneMore(before, occ, j);
      ghost var prev := m;
      if |cardNumber| > 0 {
        var coc := CocOf(policy, render);
        if cardNumber in m.vals {
          var existing := m.vals[cardNumber];
          m := Set(m, cardNumber, existing.(cocs := existing.cocs + [coc]));
        } else {
          m := Set(m, cardNumber, CardRecord(FormatCardNumber(cardNumber), cardNumber, InsuredName(card), [coc]));
        }
      }
      assert m == Step(prev, Occurrence(policy, card), render);
      j := j + 1;
    }
    TakeAll(before, occ);
  }

  /** `processPoliciesToCards`: the nested loops filling the card map, then
      its records in insertion order. */
  method ProcessPoliciesToCards(policies: seq<Policy>, render: string -> string) returns (cards: seq<CardRecord>)
    ensures cards == Values(Group(Occurrences(policies), render))
  {
    var cardsMap: OrderedMap<CardRecord> := Empty();
    var i := 0;
    while i < |policies|
      invariant 0 <= i <= |policies|
      invariant cardsMap == Group(Occurrences(policies[..i]), render)
    {
      OccurrencesPrefix(policies, i);
      cardsMap := AddPolicyCards(cardsMap, policies[i], render, Occurrences(policies[..i]));
      i := i + 1;
    }
    assert policies[..i] == policies;
    cards := Values(cardsMap);
  }

  // ---------------------------------------------------------------------------
  // The hook's state

  /** What the policy service answers: a rejection; a `data` list of
      policies (None when `data` is falsy, which counts as no policies); or
      a `data` that makes the grouping throw part-way, caught by
      `processPoliciesToCards` — for example a truthy `data` that is not an
      array, a null policy, a null card, a truthy `beep_cards` that is not
      an array, a null first document, or a `documents` value with a
      positive length but no element 0. */
  datatype PolicyResponse = PoliciesFailed | PoliciesLoaded(data: Option<seq<Policy>>) | PoliciesUnprocessable

  class DashboardHook {
    var loading: bool
    var error: Option<string>
    var userData: JsValue
    var cards: seq<CardRecord>
    var expandedCards: OrderedMap<bool>

    constructor ()
      ensures loading && error == None && userData == JNull && cards == [] && expandedCards == Empty()
    {
      loading := true;
      error := None;
      userData := JNull;
      cards := [];
      expandedCards := Empty();
    }

    /** The mount effect: the app-bar title is set, then the user and
        their policies are fetched; `response` is what the policy service
        answers for the user's email, which is returned. */
    method Mount(userRoute: BeepSDK.Route, response: PolicyResponse, render: string -> string)
      returns (title: string, requestedEmail: Option<JsValue>)
      requires userRoute.ToSuccess? ==> userRoute.arg.Arg? && !IsNullish(userRoute.arg.value)
      modifies this
      ensures title == DashboardTitle && !loading && expandedCards == old(expandedCards)
      ensures userRoute.ToFail? ==>
                && requestedEmail == None && error == Some(UserFailMessage)
                && userData == old(userData) && cards == old(cards)
      ensures userRoute.ToSuccess? ==>
                && userData == userRoute.arg.value
                && requestedEmail == Some(Get(userRoute.arg.value, "email").value)
      ensures userRoute.ToSuccess? && response.PoliciesFailed? ==>
                error == Some(PoliciesFailMessage) && cards == old(cards)
      ensures userRoute.ToSuccess? && response.PoliciesLoaded? ==>
                && error == old(error)
                && cards == Values(Group(Occurrences(response.data.GetOr([])), render))
      ensures userRoute.ToSuccess? && response == PoliciesLoaded(None) ==> cards == []
      ensures userRoute.ToSuccess? && response.PoliciesUnprocessable? ==>
                error == Some(ProcessingFailMessage) && cards == old(cards)
    {
      title := DashboardTitle;
      if userRoute.ToFail? {
        error := Some(UserFailMessage);
        loading := false;
        return title, None;
      }
      var user := userRoute.arg.value;
      userData := user;
      requestedEmail := Some(Get(user, "email").value);
      match response
      case PoliciesFailed =>
        error := Some(PoliciesFailMessage);
        loading := false;
      case PoliciesLoaded(data) =>
        var policyData := data.GetOr([]);
        cards := ProcessPoliciesToCards(policyData, render);
        loading := false;
      case PoliciesUnprocessable =>
        // the `catch` of processPoliciesToCards: the card list is set only
        // after both loops finish, so it keeps its old value
        error := Some(ProcessingFailMessage);
        loading := false;
    }

    method ToggleCardExpansion(cardNumber: string)
      modifies this
      ensures expandedCards == Toggle(old(expandedCards), cardNumber)
      ensures loading == old(loading) && error == old(error) && userData == old(userData) && cards == old(cards)
    {
      expandedCards := Toggle(expandedCards, cardNumber);
    }
  }
}

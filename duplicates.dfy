/**
 * The duplicate checker: classifies the answer of the duplicate-search
 * endpoint into one of five scenarios and extracts the first account id it
 * names. The endpoint answers with a positional array; element 0 is metadata
 * and the elements from index 1 on describe existing customers.
 */
module Duplicates {
  import opened JsValues

  /** One entry of `OPORTUNIDADES`; only its `OPP: STATUS` is read. */
  datatype Opportunity = Opportunity(status: Option<string>)

  /** One entry of `UBICACIONES`; only the number of entries matters. */
  datatype Location = Location(name: Option<string>)

  /** One element of the lookup array; None stands for an absent key. */
  datatype LookupElement = LookupElement(
    opportunities: Option<seq<Opportunity>>,  // `OPORTUNIDADES`
    locations: Option<seq<Location>>,         // `UBICACIONES`
    accountId: Option<string>)                // `CUENTA: ID`

  /** The endpoint's answer: an array of elements, or anything that is not an array. */
  datatype LookupData = NotAnArray | Array(elements: seq<LookupElement>)

  datatype Scenario =
    | OpportunityOpen   // an opportunity is still open: nothing may be created
    | OpportunityClose  // the customer has opportunities, all of them closed
    | OpportunityNone   // no opportunity, but the customer has locations
    | LocationNone      // the customer exists with neither opportunities nor locations
    | ClientNone        // no customer found

  /** The tag under which a scenario travels between the two endpoints. */
  function Tag(s: Scenario): string {
    match s
    case OpportunityOpen => "Opportunity_open"
    case OpportunityClose => "Opportunity_close"
    case OpportunityNone => "Opportunity_none"
    case LocationNone => "Location_none"
    case ClientNone => "Client_none"
  }

  /** Reads a tag back; any other text names no scenario. */
  function ScenarioOfTag(t: string): (r: Option<Scenario>)
    ensures r.Some? ==> Tag(r.value) == t
  {
    if t == "Opportunity_open" then Some(OpportunityOpen)
    else if t == "Opportunity_close" then Some(OpportunityClose)
    else if t == "Opportunity_none" then Some(OpportunityNone)
    else if t == "Location_none" then Some(LocationNone)
    else if t == "Client_none" then Some(ClientNone)
    else None
  }

  lemma TagRoundTrip(s: Scenario)
    ensures ScenarioOfTag(Tag(s)) == Some(s)
  {
  }

  /** `x || []` on a list that may be absent. */
  function ListOrEmpty<T>(v: Option<seq<T>>): seq<T> {
    if v.Some? then v.value else []
  }

  /** An opportunity is closed when its status, defaulting to '', is Closed Won or Closed Lost. */
  predicate IsClosed(o: Opportunity) {
    var status := Or(o.status, "");
    status == "Closed Won" || status == "Closed Lost"
  }

  function AllClosed(opps: seq<Opportunity>): bool {
    opps == [] || (IsClosed(opps[0]) && AllClosed(opps[1..]))
  }

  /** The opportunities of element 1; an absent list counts as empty. */
  function SecondOpportunities(d: LookupData): seq<Opportunity>
    requires d.Array? && |d.elements| >= 2
  {
    ListOrEmpty(d.elements[1].opportunities)
  }

  /** The locations of element 1; an absent list counts as empty. */
  function SecondLocations(d: LookupData): seq<Location>
    requires d.Array? && |d.elements| >= 2
  {
    ListOrEmpty(d.elements[1].locations)
  }

  /**
   * The scenario a lookup answer stands for, rule by rule. The contract is
   * its decision table, stated without the rule order.
   */
  function Classify(d: LookupData): (s: Scenario)
    ensures !d.Array? || |d.elements| < 2 ==> s == ClientNone
    ensures d.Array? && |d.elements| >= 2 ==>
      var opps, locs := SecondOpportunities(d), SecondLocations(d);
      && (s == OpportunityOpen <==> exists i :: 0 <= i < |opps| && !IsClosed(opps[i]))
      && (s == OpportunityClose <==> |opps| > 0 && forall i :: 0 <= i < |opps| ==> IsClosed(opps[i]))
      && (s == OpportunityNone <==> |opps| == 0 && |locs| > 0)
      && (s == LocationNone <==> |opps| == 0 && |locs| == 0)
      && s != ClientNone
  {
    if !d.Array? || |d.elements| < 2 then ClientNone
    else
      var opps := SecondOpportunities(d);
      AllClosedEvery(opps);
      if |opps| > 0 then
        if AllClosed(opps) then OpportunityClose else OpportunityOpen
      else if |SecondLocations(d)| > 0 then OpportunityNone
      else LocationNone
  }

  lemma {:induction false} AllClosedEvery(opps: seq<Opportunity>)
    ensures AllClosed(opps) <==> forall i :: 0 <= i < |opps| ==> IsClosed(opps[i])
  {
    if opps != [] {
      AllClosedEvery(opps[1..]);
      assert forall i :: 1 <= i < |opps| ==> opps[i] == opps[1..][i - 1];
    }
  }

  /** An opportunity without a status, or with an empty one, counts as open. */
  lemma MissingStatusIsOpen(d: LookupData, i: nat)
    requires d.Array? && |d.elements| >= 2
    requires i < |SecondOpportunities(d)|
    requires !Truthy(SecondOpportunities(d)[i].status)
    ensures Classify(d) == OpportunityOpen
  {
  }

  /** Only element 1 decides the scenario: element 0 and elements past 1 are never read. */
  lemma ClassifyReadsOnlyElementOne(d: LookupData, e: LookupData)
    requires d.Array? && e.Array? && |d.elements| >= 2 && |e.elements| >= 2
    requires d.elements[1] == e.elements[1]
    ensures Classify(d) == Classify(e)
  {
  }

  /** `detectSfScenario`: the same decision, scanning the opportunities with an early return. */
  method DetectSfScenario(d: LookupData) returns (s: Scenario)
    ensures s == Classify(d)
  {
    if !d.Array? || |d.elements| < 2 {
      return ClientNone;
    }
    var opps := ListOrEmpty(d.elements[1].opportunities);
    var locs := ListOrEmpty(d.elements[1].locations);
    if |opps| > 0 {
      var i := 0;
      while i < |opps|
        invariant 0 <= i <= |opps|
        invariant forall j :: 0 <= j < i ==> IsClosed(opps[j])
      {
        var status := Or(opps[i].status, "");
        if status != "Closed Won" && status != "Closed Lost" {
          AllClosedEvery(opps);
          return OpportunityOpen;
        }
        i := i + 1;
      }
      AllClosedEvery(opps);
      return OpportunityClose;
    }
    if |locs| > 0 {
      return OpportunityNone;
    } else {
      return LocationNone;
    }
  }

  /** The first truthy `CUENTA: ID` at index `from` or later, or '' when there is none. */
  function FirstAccountIdFrom(elements: seq<LookupElement>, from: nat): string
    decreases |elements| - from
  {
    if from >= |elements| then ""
    else if Truthy(elements[from].accountId) then elements[from].accountId.value
    else FirstAccountIdFrom(elements, from + 1)
  }

  lemma {:induction false} FirstAccountIdFromIsFirst(elements: seq<LookupElement>, from: nat)
    ensures var r := FirstAccountIdFrom(elements, from);
      && (r == "" <==> forall k :: from <= k < |elements| ==> !Truthy(elements[k].accountId))
      && (r != "" ==> exists k :: from <= k < |elements| && Truthy(elements[k].accountId)
                       && r == elements[k].accountId.value
                       && forall j :: from <= j < k ==> !Truthy(elements[j].accountId))
    decreases |elements| - from
  {
    if from < |elements| && !Truthy(elements[from].accountId) {
      FirstAccountIdFromIsFirst(elements, from + 1);
    }
  }

  /**
   * The account id `extractFirstAccountId` reports: '' for a non-array or an
   * array shorter than 2; otherwise the first truthy account id at index 1 or
   * later, or '' if there is none.
   */
  function FirstAccountId(d: LookupData): (r: string)
    ensures !d.Array? || |d.elements| < 2 ==> r == ""
    ensures d.Array? ==>
      && (r == "" <==> forall k :: 1 <= k < |d.elements| ==> !Truthy(d.elements[k].accountId))
      && (r != "" ==> exists k :: 1 <= k < |d.elements| && Truthy(d.elements[k].accountId)
                       && r == d.elements[k].accountId.value
                       && forall j :: 1 <= j < k ==> !Truthy(d.elements[j].accountId))
  {
    if !d.Array? || |d.elements| < 2 then ""
    else
      FirstAccountIdFromIsFirst(d.elements, 1);
      FirstAccountIdFrom(d.elements, 1)
  }

  /** Element 0 is never read for the account id. */
  lemma FirstAccountIdIgnoresElementZero(d: LookupData, e0: LookupElement)
    requires d.Array? && |d.elements| >= 1
    ensures FirstAccountId(Array([e0] + d.elements[1..])) == FirstAccountId(d)
  {
    var e := Array([e0] + d.elements[1..]);
    assert forall k :: 1 <= k < |d.elements| ==> e.elements[k] == d.elements[k];
  }

  /** `extractFirstAccountId`: the index loop with an early return. */
  method ExtractFirstAccountId(d: LookupData) returns (id: string)
    ensures id == FirstAccountId(d)
  {
    if !d.Array? || |d.elements| < 2 {
      return "";
    }
    var i := 1;
    while i < |d.elements|
      invariant 1 <= i <= |d.elements|
      invariant FirstAccountIdFrom(d.elements, i) == FirstAccountId(d)
    {
      if Truthy(d.elements[i].accountId) {
        return d.elements[i].accountId.value;
      }
      i := i + 1;
    }
    return "";
  }

  /** What `checkDuplicates` answers once the lookup succeeded. */
  datatype DuplicatesReply = DuplicatesReply(
    success: bool,
    message: string,
    scenario: Scenario,   // sent as Tag(scenario) in MAI_composer_type_sf
    accountId: string,    // MAI_accountid_callback_sf
    raw: LookupData)      // sf_raw

  const OpenOpportunityMessage := "Ya existe un cliente con oportunidad abierta. No se puede crear."
  const ContinueMessage := "OK. No hay oportunidad abierta, puedes continuar."
  const LookupErrorMessage := "Error consultando duplicados en Salesforce"

  /** The lookup GET url; the document is appended as is, without encoding. */
  function LookupUrl(endpoint: string, doc: string): (url: string)
    ensures |url| == |endpoint| + 5 + |doc|
    ensures url[..|endpoint|] == endpoint && url[|endpoint| + 5..] == doc
    ensures url[|endpoint|..|endpoint| + 5] == "?dni="
  {
    endpoint + "?dni=" + doc
  }

  /**
   * `checkDuplicates`. The token request and the authorised GET are I/O:
   * `token` is what the token request gave (or the error it threw) and
   * `get(url, token)` what the lookup answered (or the error it threw).
   */
  method CheckDuplicates(
    endpoint: string, doc: string,
    token: Result<string>, get: (string, string) -> Result<LookupData>)
    returns (r: Result<DuplicatesReply>)
    ensures token.Failure? ==> r == Failure(token.error)
    ensures token.Success? && get(LookupUrl(endpoint, doc), token.value).Failure? ==>
      r == Failure(LookupErrorMessage)
    ensures token.Success? && get(LookupUrl(endpoint, doc), token.value).Success? ==>
      var d := get(LookupUrl(endpoint, doc), token.value).value;
      && r.Success?
      && r.value.scenario == Classify(d)
      && r.value.accountId == FirstAccountId(d)
      && r.value.raw == d
      && (r.value.success <==> r.value.scenario != OpportunityOpen)
      && r.value.message == (if r.value.success then ContinueMessage else OpenOpportunityMessage)
  {
    if token.Failure? {
      return Failure(token.error);
    }
    var fetched := get(LookupUrl(endpoint, doc), token.value);
    if fetched.Failure? {
      return Failure(LookupErrorMessage);
    }
    var dupData := fetched.value;
    var scenario := DetectSfScenario(dupData);
    var accountIdCallback := ExtractFirstAccountId(dupData);
    if scenario == OpportunityOpen {
      return Success(DuplicatesReply(false, OpenOpportunityMessage, scenario, accountIdCallback, dupData));
    }
    return Success(DuplicatesReply(true, ContinueMessage, scenario, accountIdCallback, dupData));
  }
}

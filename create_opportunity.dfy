/**
 * `createOpportunity`: the scenario gate in front of the composite builder,
 * the submission of the composite request, and the reading of Salesforce's
 * composite response into the answer returned to Landbot/Magick.
 */
module CreateOpportunity {
  import opened JsValues
  import opened CompositeBuilder

  /* ---------- the composite response ---------- */

  /** One entry of an error list: `errorCode` and `message`, each possibly undefined. */
  datatype ErrorItem = ErrorItem(errorCode: Option<string>, message: Option<string>)

  /**
   * The body of one sub-response: a list (Salesforce reports a failed
   * sub-request as a list of errors), an object with an optional `id`, or nothing.
   */
  datatype SubBody = ListBody(items: seq<ErrorItem>) | RecordBody(id: Option<string>) | NoBody

  datatype SubResponse = SubResponse(body: SubBody, referenceId: string)

  /** `compositeResponse`: absent (or falsy), present but not an array, or an array. */
  datatype CompositeField = Missing | NotAList | List(subs: seq<SubResponse>)

  /** `sfResponse.data`; `errors` is None when the member is absent. */
  datatype SfData = SfData(compositeResponse: CompositeField, errors: Option<seq<ErrorItem>>)

  /** A sub-response reports an error when its body is a list whose first entry has a truthy `errorCode`. */
  predicate HasError(sub: SubResponse) {
    sub.body.ListBody? && |sub.body.items| > 0 && Truthy(sub.body.items[0].errorCode)
  }

  /** The sub-response of the Opportunity step, with a truthy `body.id`. */
  predicate CarriesOpportunityId(sub: SubResponse) {
    sub.referenceId == "oportunidad" && sub.body.RecordBody? && Truthy(sub.body.id)
  }

  /** The position of the first sub-response reporting an error; |subs| when there is none. */
  function FirstErrorIndex(subs: seq<SubResponse>): (k: nat)
    ensures k <= |subs|
    ensures forall j :: 0 <= j < k ==> !HasError(subs[j])
    ensures k < |subs| ==> HasError(subs[k])
  {
    if subs == [] then 0
    else if HasError(subs[0]) then 0
    else 1 + FirstErrorIndex(subs[1..])
  }

  /** The position of the first sub-response carrying the opportunity id; |subs| when there is none. */
  function FirstOpportunityIndex(subs: seq<SubResponse>): (k: nat)
    ensures k <= |subs|
    ensures forall j :: 0 <= j < k ==> !CarriesOpportunityId(subs[j])
    ensures k < |subs| ==> CarriesOpportunityId(subs[k])
  {
    if subs == [] then 0
    else if CarriesOpportunityId(subs[0]) then 0
    else 1 + FirstOpportunityIndex(subs[1..])
  }

  /** The opportunity id the answer reports: null when no sub-response carries one. */
  function OpportunityIdOf(subs: seq<SubResponse>): Option<string> {
    var k := FirstOpportunityIndex(subs);
    if k < |subs| then Some(subs[k].body.id.value) else None
  }

  /* ---------- the answer ---------- */

  /** The answer of `createOpportunity`, one constructor per return statement. */
  datatype CreateOutcome =
    | OpenOpportunity
    | NothingToCreate
    | SalesforceError(errorCode: string, errorMessage: Option<string>, response: SfData)
    | GlobalError(errors: seq<ErrorItem>)
    | Sent(opportunityId: Option<string>, response: SfData)
    | SubmitFailed(error: string)

  /** The answer's `success` member. */
  predicate Succeeded(o: CreateOutcome) {
    o.NothingToCreate? || o.Sent?
  }

  /** The answer's `message` member. */
  function Message(o: CreateOutcome): string {
    match o
    case OpenOpportunity => "Ya existe un cliente con oportunidad abierta. No se puede crear (scenario #1)."
    case NothingToCreate => "No se procede a crear nada en Salesforce (Scenario 1)."
    case SalesforceError(code, message, _) => "Error Salesforce: " + code + " => " + JsString(message)
    case GlobalError(_) => "Error global en Salesforce"
    case Sent(_, _) => "Enviado correctamente a Salesforce"
    case SubmitFailed(_) => "Error al enviar composite a Salesforce"
  }

  /**
   * What a composite response means: the first sub-response reporting an
   * error, else the top-level `errors` when there is no list of
   * sub-responses, else success with the opportunity id. The contract is the
   * decision table of the reading.
   */
  function Interpret(sf: SfData): (o: CreateOutcome)
    ensures o.SalesforceError? <==>
      sf.compositeResponse.List? && exists i :: 0 <= i < |sf.compositeResponse.subs| && HasError(sf.compositeResponse.subs[i])
    ensures o.GlobalError? <==> !sf.compositeResponse.List? && sf.errors.Some?
    ensures o.SalesforceError? || o.GlobalError? || o.Sent?
    ensures Succeeded(o) <==> o.Sent?
  {
    match sf.compositeResponse
    case List(subs) =>
      var k := FirstErrorIndex(subs);
      if k < |subs| then
        SalesforceError(subs[k].body.items[0].errorCode.value, subs[k].body.items[0].message, sf)
      else
        Sent(OpportunityIdOf(subs), sf)
    case _ =>
      if sf.errors.Some? then GlobalError(sf.errors.value) else Sent(None, sf)
  }

  /** The error scan, then the search for the opportunity id, each stopping at the first match. */
  method InterpretResponse(sf: SfData) returns (r: CreateOutcome)
    ensures r == Interpret(sf)
  {
    if sf.compositeResponse.List? {
      var subs := sf.compositeResponse.subs;
      var i := 0;
      while i < |subs|
        invariant 0 <= i <= |subs|
        invariant forall j :: 0 <= j < i ==> !HasError(subs[j])
      {
        if HasError(subs[i]) {
          var item := subs[i].body.items[0];
          assert FirstErrorIndex(subs) == i;
          return SalesforceError(item.errorCode.value, item.message, sf);
        }
        i := i + 1;
      }
      assert FirstErrorIndex(subs) == |subs|;
    } else if sf.errors.Some? {
      return GlobalError(sf.errors.value);
    }

    var opportunityId: Option<string> := None;
    if sf.compositeResponse.List? {
      var subs := sf.compositeResponse.subs;
      var i := 0;
      while i < |subs|
        invariant 0 <= i <= |subs|
        invariant forall j :: 0 <= j < i ==> !CarriesOpportunityId(subs[j])
      {
        if CarriesOpportunityId(subs[i]) {
          assert FirstOpportunityIndex(subs) == i;
          opportunityId := Some(subs[i].body.id.value);
          break;
        }
        i := i + 1;
      }
      assert opportunityId == OpportunityIdOf(subs);
    }
    return Sent(opportunityId, sf);
  }

  /** An error is reported from the first sub-response with one, with its code and message. */
  lemma FirstErrorReported(sf: SfData, i: nat)
    requires sf.compositeResponse.List? && i < |sf.compositeResponse.subs|
    requires HasError(sf.compositeResponse.subs[i])
    requires forall j :: 0 <= j < i ==> !HasError(sf.compositeResponse.subs[j])
    ensures var item := sf.compositeResponse.subs[i].body.items[0];
      && Interpret(sf) == SalesforceError(item.errorCode.value, item.message, sf)
      && Message(Interpret(sf)) == "Error Salesforce: " + item.errorCode.value + " => " + JsString(item.message)
      && !Succeeded(Interpret(sf))
  {
    assert FirstErrorIndex(sf.compositeResponse.subs) == i;
  }

  /** With a list of sub-responses the top-level `errors` member is never consulted. */
  lemma ErrorsIgnoredWithList(sf: SfData, errors: Option<seq<ErrorItem>>)
    requires sf.compositeResponse.List?
    ensures var o, o' := Interpret(sf), Interpret(sf.(errors := errors));
      && Succeeded(o') == Succeeded(o)
      && Message(o') == Message(o)
      && (o.Sent? ==> o'.Sent? && o'.opportunityId == o.opportunityId)
      && !o'.GlobalError?
  {
  }

  /**
   * A successful answer reports the id of the first `oportunidad`
   * sub-response with a truthy id, and null when there is none.
   */
  lemma OpportunityIdIsFirstCreated(sf: SfData)
    requires Interpret(sf).Sent?
    ensures Interpret(sf).opportunityId.Some? <==>
      sf.compositeResponse.List? && exists i :: 0 <= i < |sf.compositeResponse.subs| && CarriesOpportunityId(sf.compositeResponse.subs[i])
    ensures Interpret(sf).opportunityId.Some? ==>
      exists i :: 0 <= i < |sf.compositeResponse.subs|
        && sf.compositeResponse.subs[i] == SubResponse(RecordBody(Interpret(sf).opportunityId), "oportunidad")
        && forall j :: 0 <= j < i ==> !CarriesOpportunityId(sf.compositeResponse.subs[j])
  {
    if sf.compositeResponse.List? {
      var subs := sf.compositeResponse.subs;
      var k := FirstOpportunityIndex(subs);
      if k < |subs| {
        assert subs[k] == SubResponse(RecordBody(Interpret(sf).opportunityId), "oportunidad");
      } else {
        assert forall i :: 0 <= i < |subs| ==> !CarriesOpportunityId(subs[i]);
      }
    }
  }

  /* ---------- createOpportunity ---------- */

  /** The scenario tag: `data.MAI_composer_type_sf || ''`. */
  function ComposerType(data: Payload): string {
    Or(Get(data, MAI_composer_type_sf), "")
  }

  const CompositePath := "/services/data/v57.0/composite"

  /** The POST of a composite request: url, bearer token and body. */
  datatype Submission = Submission(url: string, token: string, body: CompositeRequest)

  /**
   * `createOpportunity`. The token request and the POST are I/O: `token` is
   * what the token request gave (or the error it threw), `post(s)` what
   * Salesforce answered to submission `s` (or the error the call threw).
   * `submitted` is the submission made, if any.
   */
  method CreateOpportunity(
    data: Payload, instanceUrl: string,
    token: Result<string>, post: Submission -> Result<SfData>)
    returns (r: Result<CreateOutcome>, submitted: Option<Submission>)
    ensures token.Failure? ==> r == Failure(token.error) && submitted.None?
    ensures token.Success? && ComposerType(data) == "Opportunity_open" ==>
      r == Success(OpenOpportunity) && submitted.None?
    ensures (token.Success? && ComposerType(data) != "Opportunity_open"
             && BuildCompositeBody(data, ComposerType(data)).None?) ==>
      r == Success(NothingToCreate) && submitted.None?
    ensures submitted.Some? <==> token.Success? && BuildCompositeBody(data, ComposerType(data)).Some?
    ensures submitted.Some? ==>
      && submitted.value == Submission(instanceUrl + CompositePath, token.value,
           BuildCompositeBody(data, ComposerType(data)).value)
      && r == Success(match post(submitted.value)
                      case Failure(e) => SubmitFailed(e)
                      case Success(sf) => Interpret(sf))
  {
    if token.Failure? {
      return Failure(token.error), None;
    }
    var composerType := ComposerType(data);
    if composerType == "Opportunity_open" {
      return Success(OpenOpportunity), None;
    }
    var compositeBody := BuildCompositeBody(data, composerType);
    if compositeBody.None? {
      return Success(NothingToCreate), None;
    }
    submitted := Some(Submission(instanceUrl + CompositePath, token.value, compositeBody.value));
    var sfResponse := post(submitted.value);
    if sfResponse.Failure? {
      return Success(SubmitFailed(sfResponse.error)), submitted;
    }
    var outcome := InterpretResponse(sfResponse.value);
    return Success(outcome), submitted;
  }
}

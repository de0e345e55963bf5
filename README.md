# api-solarmagick relay: a Dafny model of its decision core

The relay sits between the Landbot/Magick conversational front ends and
Salesforce. It answers two calls:

- **Duplicate check** (`POST /api/salesforce/duplicates`). It asks a
  Salesforce duplicate-search endpoint about a customer document. It sorts the
  positional array it gets back into one of five scenarios:
  `Client_none`, `Location_none`, `Opportunity_none`, `Opportunity_close` or
  `Opportunity_open`. It also reports the first account id the array names.
- **Creation** (`POST /api/salesforce/create`). It takes the scenario tag and
  a flat payload of `MAI_*` fields. It builds one Salesforce *composite*
  request for the scenario: 10, 9 or 3 sub-requests, where later ones refer to
  earlier results with `@{referenceId.path}`. It submits that request and
  reads the composite response into an answer.

Both routes sit behind an API-key gate.

The model has one module per source file, plus a small module of JavaScript
value conventions:

| file | module | models |
|---|---|---|
| `js_values.dfy` | `JsValues` | `undefined` as `None`, `x \|\| d` truthiness, `'' + x`, and a thrown error as `Failure(message)` |
| `duplicates.dfy` | `Duplicates` | `services/duplicatesService.js`: classifier, account-id scan, `checkDuplicates` |
| `composite_builder.dfy` | `CompositeBuilder` | `buildCompositeBody` and the installation-type normalisation in `services/createOpportunityService.js` |
| `create_opportunity.dfy` | `CreateOpportunity` | `createOpportunity`: the scenario gate, the submission and the reading of the response |
| `auth_middleware.dfy` | `AuthMiddleware` | `middleware/authMiddleware.js` |
| `salesforce_controller.dfy` | `SalesforceController` | `controllers/salesforceController.js`: document choice and status codes |

## How the model is organised

- **Loops become methods.** The source's loops become methods with `while`
  loops:
  - `detectSfScenario` and `extractFirstAccountId`;
  - the error scan of the composite response and the search for the
    opportunity id, which stop with an early `return` and a `break`.

  Each such method is proved equal to a recursive or declarative
  specification function. The lemmas are stated about that function.
- **Templates are data.** The three composite templates are values
  (`StepTemplate` lists). Each body field records where its value comes from:
  a literal, `data.key || fallback`, `data.key` passed as is, a reference to
  an earlier step, or a parsed number. `InstantiateAll` fills a template from
  the payload. Shape, reference and defaulting properties are proved on the
  templates and on the filled sub-requests.
- **Payload keys and Salesforce fields are enumerations.** Each constructor
  is named after the JSON key it stands for. Only the keys and fields the
  templates use are present.
- **The normalised installation type is never sent.** `buildCompositeBody`
  normalises `MAI_fld_tipoInstalacionElectrica__c`, but the result is never
  used. Every Quote body sends `data.MAI_tipoInst` instead. The model keeps
  this as written:
  - `InstallationType` computes the normalised value;
  - the `…IgnoresControlValues` lemmas show that no template depends on the
    raw key.
- **A fixed account id in Location_none.** The `cliente1` and `relacion1`
  queries of Location_none contain the literal account id
  `001dt0000062qgkAAA` where Client_none refers to the new customer. This
  is also kept as written (`FixedQueryAccount`).
- **Two keys for the installer commission.** The Client_none Quote reads the
  commission from `MAI_margenBrutoComisionInstalador`. The other Quotes read
  it from `MAI_fld_margenBrutoComisionInstalador`. Both keys are modelled as
  written.

## Model

| member | source | states |
|---|---|---|
| Duplicates.ScenarioOfTag | services/duplicatesService.js:116-144 | a tag that is read back names the scenario whose tag it is |
| Duplicates.TagRoundTrip | services/duplicatesService.js:116-144 | each of the five scenarios is recovered from its tag |
| Duplicates.AllClosedEvery | services/duplicatesService.js:127-135 | the "all closed" scan holds exactly when every opportunity is Closed Won or Closed Lost |
| Duplicates.Classify | services/duplicatesService.js:116-144 | Client_none for a non-array or an array shorter than 2; otherwise Opportunity_open iff some opportunity is open, Opportunity_close iff the list is non-empty and all closed, Opportunity_none iff there are no opportunities but some locations, Location_none iff there are neither; never Client_none then |
| Duplicates.MissingStatusIsOpen | services/duplicatesService.js:129-131 | an opportunity with a missing or empty status makes the scenario Opportunity_open |
| Duplicates.ClassifyReadsOnlyElementOne | services/duplicatesService.js:122-124 | two answers that agree on element 1 get the same scenario |
| Duplicates.DetectSfScenario | services/duplicatesService.js:116-144 | the loop with an early return computes the classification |
| Duplicates.FirstAccountIdFromIsFirst | services/duplicatesService.js:153-158 | the scan from an index gives '' exactly when no later element has a truthy id; otherwise it gives the first truthy id at or after that index |
| Duplicates.FirstAccountId | services/duplicatesService.js:149-158 | '' for a non-array or an array shorter than 2; otherwise '' exactly when no element from index 1 on has a truthy `CUENTA: ID`, and else the first such id |
| Duplicates.FirstAccountIdIgnoresElementZero | services/duplicatesService.js:153 | replacing element 0 never changes the account id |
| Duplicates.ExtractFirstAccountId | services/duplicatesService.js:149-158 | the index loop with an early return computes the account id |
| Duplicates.LookupUrl | services/duplicatesService.js:56 | the lookup url is the endpoint, then `?dni=`, then the document, unencoded |
| Duplicates.CheckDuplicates | services/duplicatesService.js:51-110 | a token failure is rethrown; a failed lookup throws 'Error consultando duplicados en Salesforce'; otherwise the reply carries the classified scenario, the first account id and the raw answer, with `success` false exactly for Opportunity_open and the matching message |
| CompositeBuilder.TemplateFor | services/createOpportunityService.js:158-553 | no template for an empty tag, Opportunity_open or an unknown tag; Client_none and Location_none select their own templates, and Opportunity_close and Opportunity_none share one |
| CompositeBuilder.BuildCompositeBody | services/createOpportunityService.js:158-554 | null exactly for tags other than Client_none, Location_none, Opportunity_close and Opportunity_none |
| CompositeBuilder.BuildForEveryScenario | services/createOpportunityService.js:552-553 | of the five scenario tags, only Opportunity_open builds nothing |
| CompositeBuilder.ClientNoneShape | services/createOpportunityService.js:189-338 | the Client_none template (`ClientNoneTemplate`) has 10 steps: cliente, contacto1, cliente1, contacto2, relacion1, ubicacion, relacion2, oportunidad, catalogo, oferta |
| CompositeBuilder.LocationNoneShape | services/createOpportunityService.js:343-470 | the Location_none template (`LocationNoneTemplate`) has 9 steps: contacto1, cliente1, contacto2, relacion1, ubicacion, relacion2, oportunidad, catalogo, PREoferta |
| CompositeBuilder.OpportunityShape | services/createOpportunityService.js:475-546 | the Opportunity_close/none template (`OpportunityTemplate`) has 3 steps: oportunidad, catalogo, PREoferta |
| CompositeBuilder.ClientNoneComposite | services/createOpportunityService.js:189-338 | for every payload, the Client_none composite is the filled Client_none template: 10 sub-requests with reference ids cliente, contacto1, cliente1, contacto2, relacion1, ubicacion, relacion2, oportunidad, catalogo, oferta |
| CompositeBuilder.LocationNoneComposite | services/createOpportunityService.js:343-470 | for every payload, the Location_none composite is the filled Location_none template: 9 sub-requests with reference ids contacto1, cliente1, contacto2, relacion1, ubicacion, relacion2, oportunidad, catalogo, PREoferta |
| CompositeBuilder.OpportunityComposite | services/createOpportunityService.js:472-546 | for every payload, Opportunity_close and Opportunity_none both give the filled shared template: 3 sub-requests with reference ids oportunidad, catalogo, PREoferta |
| CompositeBuilder.ContactFieldsRefer | services/createOpportunityService.js:214-224 | the Contact body refers to nothing but its account argument |
| CompositeBuilder.LocationFieldsRefer | services/createOpportunityService.js:246-262 | the location body refers to nothing but its parent argument |
| CompositeBuilder.OpportunityFieldsRefer | services/createOpportunityService.js:273-298 | the Opportunity body refers to nothing but its account and customer arguments |
| CompositeBuilder.LocationNoneOpportunityFieldsRefer | services/createOpportunityService.js:407-430 | the Location_none Opportunity body refers only to `ubicacion` |
| CompositeBuilder.QuoteFieldsRefer | services/createOpportunityService.js:327-329 | both Quote bodies refer only to `oportunidad` and `catalogo` |
| CompositeBuilder.UniqueIdsGiveOneOpportunity | services/createOpportunityService.js:275 | with distinct reference ids, an `oportunidad` step is the only one |
| CompositeBuilder.ClientNoneCustomerStepsRefer | services/createOpportunityService.js:192-243 | the first five Client_none steps refer only to `cliente` and `contacto1` |
| CompositeBuilder.ClientNoneOpportunityStepsRefer | services/createOpportunityService.js:246-333 | the last five Client_none steps refer only to cliente, contacto1, ubicacion, oportunidad and catalogo, each as the steps need |
| CompositeBuilder.ClientNoneRefersBackward | services/createOpportunityService.js:218-329 | every `@{ref}` in a Client_none url or body names an earlier step |
| CompositeBuilder.ClientNoneWellFormed | services/createOpportunityService.js:189-338 | Client_none: distinct reference ids, references only backwards, exactly one `oportunidad` step |
| CompositeBuilder.LocationNoneRefersBackward | services/createOpportunityService.js:369-461 | every `@{ref}` in a Location_none url or body names an earlier step |
| CompositeBuilder.LocationNoneWellFormed | services/createOpportunityService.js:343-470 | Location_none: distinct reference ids, references only backwards, exactly one `oportunidad` step |
| CompositeBuilder.OpportunityRefersBackward | services/createOpportunityService.js:535-537 | every `@{ref}` in an Opportunity_close/none body names an earlier step |
| CompositeBuilder.OpportunityWellFormed | services/createOpportunityService.js:475-546 | Opportunity_close/none: distinct reference ids, references only backwards, exactly one `oportunidad` step |
| CompositeBuilder.ConcatIgnoresUnreadKey | services/createOpportunityService.js:281 | a concatenation that names no piece from a key does not depend on that key |
| CompositeBuilder.EvalIgnoresUnreadKey | services/createOpportunityService.js:189-546 | a field value that does not read a key does not depend on that key |
| CompositeBuilder.InstantiateIgnoresUnreadKey | services/createOpportunityService.js:189-546 | a template none of whose fields reads a key builds the same sub-requests whatever that key holds |
| CompositeBuilder.AccountFieldsIgnore | services/createOpportunityService.js:193-210 | the Account body reads no control key (tag, existing account, raw installation type) |
| CompositeBuilder.ContactFieldsIgnore | services/createOpportunityService.js:214-224 | the Contact body reads no control key beyond its account argument |
| CompositeBuilder.LocationFieldsIgnore | services/createOpportunityService.js:246-262 | the location body reads no control key beyond its parent argument |
| CompositeBuilder.OpportunityFieldsIgnore | services/createOpportunityService.js:273-298 | the Opportunity body reads no control key beyond its arguments |
| CompositeBuilder.LocationNoneOpportunityFieldsIgnore | services/createOpportunityService.js:407-430 | the Location_none Opportunity body reads neither the tag nor the raw installation type |
| CompositeBuilder.OfertaFieldsIgnore | services/createOpportunityService.js:307-333 | the Client_none Quote body reads no control key |
| CompositeBuilder.PreofertaFieldsIgnore | services/createOpportunityService.js:439-465 | the PREoferta Quote body reads no control key beyond its status argument |
| CompositeBuilder.ClientNoneIgnoresControlKeys | services/createOpportunityService.js:189-338 | no Client_none field reads the tag, the existing account id or the raw installation type |
| CompositeBuilder.LocationNoneIgnoresControlKeys | services/createOpportunityService.js:343-470 | no Location_none field reads the tag or the raw installation type |
| CompositeBuilder.OpportunityIgnoresControlKeys | services/createOpportunityService.js:475-546 | no Opportunity_close/none field reads the tag or the raw installation type |
| CompositeBuilder.ClientNoneIgnoresControlValues | services/createOpportunityService.js:174-182 | Client_none's sub-requests are the same whatever the tag, the existing account id or the raw installation type hold: the normalised type is never sent |
| CompositeBuilder.LocationNoneIgnoresControlValues | services/createOpportunityService.js:174-179 | Location_none's sub-requests are the same whatever the tag or the raw installation type hold |
| CompositeBuilder.OpportunityIgnoresControlValues | services/createOpportunityService.js:174-179 | Opportunity_close/none's sub-requests are the same whatever the tag or the raw installation type hold |
| CompositeBuilder.ConcatPair | services/createOpportunityService.js:281 | a two-piece value is the two texts joined |
| CompositeBuilder.ClientNoneUsesNewCustomer | services/createOpportunityService.js:218-282 | Client_none puts `@{cliente.id}` in the Contact's AccountId, the location's ParentId and the Opportunity's SLR_fld_cliente__c |
| CompositeBuilder.LocationNoneReusesAccount | services/createOpportunityService.js:352-416 | in those places Location_none puts `MAI_accountid_callback_sf \|\| ''` |
| CompositeBuilder.OpportunityReusesAccount | services/createOpportunityService.js:486-490 | Opportunity_close/none put `MAI_accountid_callback_sf \|\| ''` in the Opportunity's AccountId and SLR_fld_cliente__c |
| CompositeBuilder.ClientNoneMasterIds | services/createOpportunityService.js:198-281 | Client_none sends master id + registroID for the customer and 'INC\|' + registroID for the opportunity, each missing value as '' |
| CompositeBuilder.LocationNoneMasterId | services/createOpportunityService.js:415 | Location_none sends 'INC\|' + registroID, and 'INC\|undefined' when it is missing |
| CompositeBuilder.OpportunityMasterId | services/createOpportunityService.js:489 | Opportunity_close/none send 'INC\|' + registroID, and 'INC\|undefined' when it is missing |
| CompositeBuilder.ClientNoneQuoteStatus | services/createOpportunityService.js:330 | the Client_none Quote Status is `MAI_status \|\| ''` |
| CompositeBuilder.LocationNoneQuoteStatus | services/createOpportunityService.js:462 | the Location_none Quote Status is `MAI_status` as is, undefined when missing |
| CompositeBuilder.OpportunityQuoteStatus | services/createOpportunityService.js:538 | the Opportunity_close/none Quote Status is `MAI_status \|\| 'Draft'` |
| CompositeBuilder.FillBodyKeepsNumberDefaults | services/createOpportunityService.js:311-332 | the numbers of a filled body all carry a given `\|\| 0` choice exactly when the template's parsed fields do |
| CompositeBuilder.ClientNoneNumbersDefaultToZero | services/createOpportunityService.js:311-332 | every Client_none Quote number falls back to 0 when it does not parse |
| CompositeBuilder.LocationNoneNumbersWithoutDefault | services/createOpportunityService.js:443-464 | no Location_none Quote number has a fallback |
| CompositeBuilder.OpportunityNumbersWithoutDefault | services/createOpportunityService.js:519-540 | no Opportunity_close/none Quote number has a fallback |
| CompositeBuilder.PaybackParsers | services/createOpportunityService.js:317-525 | the payback is parseInt(...) \|\| 0 in Client_none, parseInt in Location_none and parseFloat in Opportunity_close/none |
| CompositeBuilder.MonofasicoAnyCase | services/createOpportunityService.js:174-176 | 'monofasico' and 'MonoFasico' are normalised to 'Monofásico' |
| CompositeBuilder.TrifasicoAnyCase | services/createOpportunityService.js:177-178 | 'TriFasico' is normalised to 'Trifásico' |
| CompositeBuilder.OtherInstallationTypeKept | services/createOpportunityService.js:174-179 | every value whose upper-casing is neither MONOFASICO nor TRIFASICO is kept unchanged |
| CompositeBuilder.NormaliseInstallationType | services/createOpportunityService.js:175-179 | the result is 'Monofásico' exactly when the value spells MONOFASICO in any letter case or already is 'Monofásico', likewise for 'Trifásico'; any change of the value comes from one of the two recognised spellings |
| CompositeBuilder.InstallationType | services/createOpportunityService.js:174 | a missing MAI_fld_tipoInstalacionElectrica__c is read as '' and gives ''; a present one is normalised |
| CompositeBuilder.NormaliseInstallationTypeIdempotent | services/createOpportunityService.js:174-179 | normalising twice is the same as normalising once |
| CompositeBuilder.NormaliseInstallationTypeCaseInsensitive | services/createOpportunityService.js:175-177 | two values that differ only in letter case are normalised alike, or both kept as they are |
| CreateOpportunity.FirstErrorIndex | services/createOpportunityService.js:96-98 | the position of the first sub-response whose body is a list with a truthy errorCode in element 0 |
| CreateOpportunity.FirstOpportunityIndex | services/createOpportunityService.js:121-123 | the position of the first `oportunidad` sub-response with a truthy body.id |
| CreateOpportunity.InterpretResponse | services/createOpportunityService.js:95-137 | the error scan with an early return, then the id search with a break, computes the answer's meaning |
| CreateOpportunity.Interpret | services/createOpportunityService.js:95-137 | a Salesforce error iff a list of sub-responses has an erroring one; a global error iff there is no list and `errors` is present; success otherwise, and only then |
| CreateOpportunity.FirstErrorReported | services/createOpportunityService.js:97-106 | the first erroring sub-response gives `success` false and the message 'Error Salesforce: <code> => <message>' |
| CreateOpportunity.ErrorsIgnoredWithList | services/createOpportunityService.js:95-116 | with a list of sub-responses, the top-level `errors` changes neither `success`, the message nor the opportunity id |
| CreateOpportunity.OpportunityIdIsFirstCreated | services/createOpportunityService.js:119-127 | a successful answer has an opportunity id exactly when some `oportunidad` sub-response carries a truthy id; then it is the first one |
| CreateOpportunity.CreateOpportunity | services/createOpportunityService.js:55-137 | a token failure is rethrown; Opportunity_open gives `success` false; a null composite gives `success` true ("nothing created"); neither submits anything. Otherwise the composite is posted to `<instance>/services/data/v57.0/composite` with the token, and the answer is the post's failure or the reading of its response |
| AuthMiddleware.RequestAnswer | middleware/authMiddleware.js:10-31 | the answer is 401 'API Key is required' exactly when neither the header nor the query parameter holds a non-empty key, 403 'Invalid API Key' exactly when a key is sent and is neither configured key, and no answer (the request proceeds) exactly when it is one of them |
| AuthMiddleware.Decide | middleware/authMiddleware.js:7-32 | 401 exactly when neither the header nor the query parameter holds a non-empty key; proceed exactly when the key sent is one of the two configured keys; 403 exactly when a key is sent and is neither |
| AuthMiddleware.HeaderTakesPrecedence | middleware/authMiddleware.js:10 | with a non-empty `x-api-key` header the query parameter is never read |
| AuthMiddleware.UnsetKeysAdmitNothing | middleware/authMiddleware.js:20-28 | with neither key configured, no request proceeds |
| SalesforceController.LeadingSpace | controllers/salesforceController.js:18 | the number of white-space characters at the start of a string |
| SalesforceController.TrailingSpace | controllers/salesforceController.js:18 | the number of white-space characters at the end of a string |
| SalesforceController.TrimEmpty | controllers/salesforceController.js:18-19 | the trimmed document is empty exactly when it held white space only |
| SalesforceController.TrimKeepsMiddle | controllers/salesforceController.js:18 | trimming keeps a contiguous middle part, drops only white space, and leaves no white space at either end |
| SalesforceController.DocumentOf | controllers/salesforceController.js:18 | the document is numDocumento if truthy, else cif if truthy, else '', trimmed |
| SalesforceController.SearchDuplicates | controllers/salesforceController.js:13-40 | the status is 400, 200 or 500; 400 exactly when the chosen document is white space only; 200 exactly when it is not and the duplicate check answers, and then the body is that answer unchanged; any other status carries an error body |
| SalesforceController.MissingDocumentRejected | controllers/salesforceController.js:19-24 | a missing or blank document gives 400 'Falta DNI/CIF para verificar duplicados.' whatever the duplicate check would say |
| SalesforceController.DocumentChecked | controllers/salesforceController.js:26-39 | a document that is not blank is checked: the reply comes back unchanged with 200, or a thrown error gives 500 with its message |
| SalesforceController.CreateHandler | controllers/salesforceController.js:47-72 | any answer of the service, `success` true or false, goes back with 200; a thrown error gives 500 'Error interno al crear oportunidad' with its message |
| SalesforceController.CreateFailureIsStill200 | controllers/salesforceController.js:57-62 | a refused or failed creation still gets status 200 |

## Left out

- The token requests (`getAccessToken`, in both services). They are network
  calls; their outcome is a parameter (`token: Result<string>`), and a
  failure carries the message they throw.
- The axios GET and POST, with their headers and timeouts. The lookup answer
  and the composite response are parameters (`get`, `post`). A response
  shaped so that reading it throws (a `null` sub-response, say) is not
  modelled.
- The log writers (`services/createLogService.js`,
  `services/duplicatesLogService.js`) and every `console.error`. They are
  file and console output and affect no answer.
- `index.js`, `routes/salesforceRoutes.js` and
  `middleware/errorMiddleware.js`: Express wiring, helmet, the rate limiter
  and a fixed 500 handler. The handlers' outcomes are modelled as
  `(status, body)` values.
- Environment variables. The two API keys, the instance url and the
  duplicates endpoint are parameters.
- `parseFloat` and `parseInt`. A parsed number keeps the text it came from,
  the parser and the `|| 0` choice (`JNumber`). Floating-point parsing is not
  evaluated.
- `toUpperCase` is modelled for the letters a-z only. Characters outside
  a-z whose upper case is a letter of 'MONOFASICO' or 'TRIFASICO' (such as
  'ı', U+0131, which upper-cases to 'I', and 'ſ', U+017F, which upper-cases
  to 'S') are not modelled: `NormaliseInstallationType` keeps "monofasıco"
  unchanged where JavaScript gives 'Monofásico'. The normalised value is
  never sent, so no composite depends on this.
- Payload values are strings. A number, boolean or object sent in a `MAI_*`
  field, and `null` as distinct from a missing key, are not modelled.
- Only the payload keys that the templates read are modelled, and the sent
  JSON is not serialised. A member whose value is `JUndefined` is the one
  that `JSON.stringify` drops.
- A reference is kept as a structured `@{target.path}` value. Text in the
  payload that happens to contain `@{` is not interpreted, and the
  duplicate-lookup url is not URL-encoded (neither is it in the source).
- Top-level `errors` is modelled as absent or a list. A falsy but present
  value (`null`, `''`) counts as absent.
- A repeated `api_key` query parameter, which Express's query parser turns
  into an array, is not modelled: the key is a string or absent. (A repeated
  `x-api-key` header arrives joined into one string, which is covered.)
- A `numDocumento` or `cif` that is not a string is not modelled (`trim`
  would throw on it and answer 500).

/**
 * The composite builder: from a scenario tag and the caller's flat payload,
 * the ordered list of sub-requests of one Salesforce composite call. Later
 * sub-requests name the results of earlier ones by reference id, written
 * `@{referenceId.path}` in a url or a body value.
 *
 * Each template is a constant that says, field by field, which payload key
 * fills the field and with what default; `BuildCompositeBody` instantiates
 * the template of the tag against the payload.
 */
module CompositeBuilder {
  import opened JsValues
  import Duplicates

  /**
   * The payload keys the relay reads, each constructor named after the JSON
   * key it stands for. Keys the relay never reads are not modelled.
   */
  datatype Key =
    | MAI_composer_type_sf
    | MAI_accountid_callback_sf
    | MAI_firstName
    | MAI_lastName
    | MAI_contactPhone
    | MAI_email
    | MAI_nameUbicacion
    | MAI_phoneUbicacion
    | MAI_billingCityUbicacion
    | MAI_billingCountryCodeUbicacion
    | MAI_billingPostalCodeUbicacion
    | MAI_billingStateCodeUbicacion
    | MAI_billingStreetUbicacion
    | MAI_opportunityName
    | MAI_fld_tipoCliente__c
    | MAI_closeDate
    | MAI_stageName
    | MAI_fld_distribuidor__c
    | MAI_fld_codigoDistribuidor__c
    | MAI_fld_agencia__c
    | MAI_fld_canal__c
    | MAI_fld_canalOrigen__c
    | MAI_fld_empresaOrigen__c
    | MAI_fld_subcanal__c
    | MAI_fld_tipologiaOrigen__c
    | MAI_fld_campanya__c
    | MAI_fld_figuraSolar__c
    | MAI_fld_matriculaAgente__c
    | MAI_registroID
    | MAI_fld_numPaneles__c
    | MAI_fld_potenciaTotal__c
    | MAI_fld_potenciaNominalIns__c
    | MAI_fld_capacidadBateria__c
    | MAI_fld_precioConIVA__c
    | MAI_fld_tipoImpositivo__c
    | MAI_fld_paybackOferta__c
    | MAI_fld_produccionAnualEstimada__c
    | MAI_fld_tipoAutoconsumo__c
    | MAI_fld_tipoInversor__c
    | MAI_fld_marcaInversor__c
    | MAI_fld_marcaPanel__c
    | MAI_fld_potenciaNominalPanel__c
    | MAI_tipoInst
    | MAI_fld_tipoEstructura__c
    | MAI_fld_cuotaSuscripcion__c
    | MAI_ofertaId
    | MAI_status
    | MAI_margenBrutoComisionInstalador
    | MAI_fld_margenBrutoComisionInstalador
    | MAI_fld_masterRecordId__c
    | MAI_name
    | MAI_phone
    | MAI_fld_tipoDocumento__c
    | MAI_fld_numeroDocumento__c
    | MAI_billingCity
    | MAI_billingCountryCode
    | MAI_billingPostalCode
    | MAI_billingStateCode
    | MAI_billingStreet
    | MAI_fld_tipoInstalacionElectrica__c

  /** The caller's flat JSON payload: a string under some of the keys; a missing key reads as undefined. */
  type Payload = map<Key, string>

  /** The Salesforce field names the composite writes, each constructor named after the field. */
  datatype SfField =
    | AccountId
    | FirstName
    | LastName
    | MobilePhone
    | Email
    | RecordType
    | Name
    | Phone
    | BillingCity
    | BillingCountryCode
    | BillingPostalCode
    | BillingStateCode
    | BillingStreet
    | ParentId
    | SLR_fld_tipoCliente__c
    | CloseDate
    | SLR_fld_masterRecordId__c
    | SLR_fld_cliente__c
    | StageName
    | SLR_fld_distribuidor__c
    | SLR_fld_codigoDistribuidor__c
    | SLR_fld_agencia__c
    | SLR_fld_canal__c
    | SLR_fld_canalOrigen__c
    | SLR_fld_empresaOrigen__c
    | SLR_fld_subcanal__c
    | SLR_fld_tipologiaOrigen__c
    | SLR_fld_campanya__c
    | SLR_fld_figuraSolar__c
    | SLR_fld_matriculaAgente__c
    | SLR_fld_codigo_instalador__c
    | SLR_fld_numPaneles__c
    | SLR_fld_potenciaTotal__c
    | SLR_fld_potenciaNominalIns__c
    | SLR_fld_capacidadBateria__c
    | SLR_fld_precioConIVA__c
    | SLR_fld_tipoImpositivo__c
    | SLR_fld_paybackOferta__c
    | SLR_fld_produccionAnualEstimada__c
    | SLR_fld_tipoAutoconsumo__c
    | SLR_fld_tipoInversor__c
    | SLR_fld_marcaInversor__c
    | SLR_fld_marcaPanel__c
    | SLR_fld_potenciaNominalPanel__c
    | SLR_fld_tipoInstalacionElectrica__c
    | SLR_fld_tipoEstructura__c
    | SLR_fld_cuotaSuscripcion__c
    | OpportunityId
    | Pricebook2Id
    | Status
    | SLR_fld_asociadoWattwin__c
    | SLR_fld_comisionInstalador__c
    | SLR_fld_preofertaID__c
    | ContactId
    | SLR_fld_tipoDocumento__c
    | SLR_fld_numeroDocumento__c

  datatype HttpMethod = GET | POST

  /** `@{target.path}`: a field of the result of the sub-request whose reference id is `target`. */
  datatype Reference = Reference(target: string, path: string)

  function RefText(r: Reference): string {
    "@{" + r.target + "." + r.path + "}"
  }

  function ClienteId(): Reference { Reference("cliente", "id") }
  function Contacto1Id(): Reference { Reference("contacto1", "id") }
  function UbicacionId(): Reference { Reference("ubicacion", "id") }
  function OportunidadId(): Reference { Reference("oportunidad", "id") }
  function CatalogoFirstId(): Reference { Reference("catalogo", "records[0].Id") }

  /** A url is literal text with references spliced in. */
  datatype UrlPart = Lit(text: string) | UrlRef(ref: Reference)

  function UrlText(url: seq<UrlPart>): string {
    if url == [] then ""
    else (match url[0] case Lit(t) => t case UrlRef(r) => RefText(r)) + UrlText(url[1..])
  }

  datatype NumberParser = ParseFloat | ParseInt

  /** One piece of a string value. */
  datatype Piece =
    | Literal(s: string)                    // 'text'
    | KeyOr(key: Key, fallback: string)    // data.key || fallback
    | KeyText(key: Key)                    // data.key inside `+`: "undefined" when absent

  /** How a body field is filled from the payload. */
  datatype Source =
    | Text(piece: Piece)                      // a single piece
    | Str(pieces: seq<Piece>)                 // the pieces concatenated with `+`
    | AsIs(key: Key)                          // data.key, left undefined when absent
    | RefTo(ref: Reference)                   // '@{target.path}'
    | Parsed(parser: NumberParser, key: Key, zeroIfNaN: bool)
                                              // parser(data.key), `|| 0` when zeroIfNaN
    | Flag(b: bool)
    | RecordTypeNamed(name: string)           // { Name: name }

  datatype Field = Field(name: SfField, source: Source)

  datatype StepTemplate = StepTemplate(verb: HttpMethod, url: seq<UrlPart>, referenceId: string, body: Option<seq<Field>>)

  /* ---------- the JSON that is sent ---------- */

  /**
   * A body value as sent. A parsed number keeps the text it was parsed from:
   * parseFloat and parseInt are not evaluated here.
   */
  datatype Json =
    | JString(s: string)
    | JUndefined
    | JNumber(parser: NumberParser, text: Option<string>, zeroIfNaN: bool)
    | JBool(b: bool)
    | JRecordType(name: string)

  datatype Member = Member(name: SfField, value: Json)

  datatype SubRequest = SubRequest(verb: HttpMethod, url: string, referenceId: string, body: Option<seq<Member>>)

  datatype CompositeRequest = CompositeRequest(compositeRequest: seq<SubRequest>)

  function PieceText(p: Piece, data: Payload): string {
    match p
    case Literal(s) => s
    case KeyOr(key, fallback) => Or(Get(data, key), fallback)
    case KeyText(key) => JsString(Get(data, key))
  }

  function Concat(pieces: seq<Piece>, data: Payload): string {
    if pieces == [] then "" else PieceText(pieces[0], data) + Concat(pieces[1..], data)
  }

  function Eval(src: Source, data: Payload): Json {
    match src
    case Text(piece) => JString(PieceText(piece, data))
    case Str(pieces) => JString(Concat(pieces, data))
    case AsIs(key) => if key in data then JString(data[key]) else JUndefined
    case RefTo(r) => JString(RefText(r))
    case Parsed(parser, key, zeroIfNaN) => JNumber(parser, Get(data, key), zeroIfNaN)
    case Flag(b) => JBool(b)
    case RecordTypeNamed(name) => JRecordType(name)
  }

  function FillBody(fields: seq<Field>, data: Payload): (body: seq<Member>)
    ensures |body| == |fields|
    ensures forall i :: 0 <= i < |fields| ==> body[i] == Member(fields[i].name, Eval(fields[i].source, data))
  {
    seq(|fields|, i requires 0 <= i < |fields| => Member(fields[i].name, Eval(fields[i].source, data)))
  }

  function Instantiate(step: StepTemplate, data: Payload): SubRequest {
    SubRequest(step.verb, UrlText(step.url), step.referenceId,
               if step.body.Some? then Some(FillBody(step.body.value, data)) else None)
  }

  function InstantiateAll(steps: seq<StepTemplate>, data: Payload): (r: seq<SubRequest>)
    ensures |r| == |steps|
    ensures forall i :: 0 <= i < |steps| ==> r[i] == Instantiate(steps[i], data)
  {
    seq(|steps|, i requires 0 <= i < |steps| => Instantiate(steps[i], data))
  }

  /* ---------- field shorthands ---------- */

  /** `data.key || ''`. */
  function OrEmpty(key: Key): Source { Text(KeyOr(key, "")) }

  /** A literal string. */
  function Const(s: string): Source { Text(Literal(s)) }

  /** The account id reused by the templates that attach to an existing customer: `data.MAI_accountid_callback_sf || ''`. */
  function ExistingAccount(): Source { OrEmpty(MAI_accountid_callback_sf) }

  function SObjectUrl(sobject: string): seq<UrlPart> {
    [Lit("/services/data/v57.0/sobjects/" + sobject + "/")]
  }

  const QueryBase := "/services/data/v57.0/query/?q=SELECT+Id+FROM+"

  /* ---------- bodies shared by several templates ---------- */

  /** The customer Account of Client_none. */
  function AccountFields(): seq<Field> {
    [
      Field(SLR_fld_masterRecordId__c, Str([KeyOr(MAI_fld_masterRecordId__c, ""), KeyOr(MAI_registroID, "")])),
      Field(Name, Text(KeyOr(MAI_name, "Cliente Genérico"))),
      Field(Phone, OrEmpty(MAI_phone)),
      Field(SLR_fld_tipoCliente__c, OrEmpty(MAI_fld_tipoCliente__c)),
      Field(SLR_fld_tipoDocumento__c, OrEmpty(MAI_fld_tipoDocumento__c)),
      Field(SLR_fld_numeroDocumento__c, OrEmpty(MAI_fld_numeroDocumento__c)),
      Field(BillingCity, OrEmpty(MAI_billingCity)),
      Field(BillingCountryCode, OrEmpty(MAI_billingCountryCode)),
      Field(BillingPostalCode, OrEmpty(MAI_billingPostalCode)),
      Field(BillingStateCode, OrEmpty(MAI_billingStateCode)),
      Field(BillingStreet, OrEmpty(MAI_billingStreet)),
      Field(RecordType, RecordTypeNamed("Cliente"))
    ]
  }

  function ContactFields(account: Source): seq<Field> {
    [
      Field(AccountId, account),
      Field(FirstName, OrEmpty(MAI_firstName)),
      Field(LastName, OrEmpty(MAI_lastName)),
      Field(MobilePhone, OrEmpty(MAI_contactPhone)),
      Field(Email, OrEmpty(MAI_email)),
      Field(RecordType, RecordTypeNamed("SLR_rt_contacto"))
    ]
  }

  function LocationFields(parent: Source): seq<Field> {
    [
      Field(Name, OrEmpty(MAI_nameUbicacion)),
      Field(Phone, OrEmpty(MAI_phoneUbicacion)),
      Field(BillingCity, OrEmpty(MAI_billingCityUbicacion)),
      Field(BillingCountryCode, OrEmpty(MAI_billingCountryCodeUbicacion)),
      Field(BillingPostalCode, OrEmpty(MAI_billingPostalCodeUbicacion)),
      Field(BillingStateCode, OrEmpty(MAI_billingStateCodeUbicacion)),
      Field(BillingStreet, OrEmpty(MAI_billingStreetUbicacion)),
      Field(ParentId, parent),
      Field(RecordType, RecordTypeNamed("Ubicación"))
    ]
  }

  /** The Opportunity fields of Client_none and of Opportunity_close/none. */
  function OpportunityFields(account: Source, cliente: Source, masterId: Source): seq<Field> {
    [
      Field(Name, OrEmpty(MAI_opportunityName)),
      Field(AccountId, account),
      Field(SLR_fld_tipoCliente__c, OrEmpty(MAI_fld_tipoCliente__c)),
      Field(CloseDate, OrEmpty(MAI_closeDate)),
      Field(SLR_fld_masterRecordId__c, masterId),
      Field(SLR_fld_cliente__c, cliente),
      Field(StageName, OrEmpty(MAI_stageName)),
      Field(SLR_fld_distribuidor__c, OrEmpty(MAI_fld_distribuidor__c)),
      Field(SLR_fld_codigoDistribuidor__c, OrEmpty(MAI_fld_codigoDistribuidor__c)),
      Field(SLR_fld_agencia__c, OrEmpty(MAI_fld_agencia__c)),
      Field(SLR_fld_canal__c, OrEmpty(MAI_fld_canal__c)),
      Field(SLR_fld_canalOrigen__c, OrEmpty(MAI_fld_canalOrigen__c)),
      Field(SLR_fld_empresaOrigen__c, OrEmpty(MAI_fld_empresaOrigen__c)),
      Field(SLR_fld_subcanal__c, OrEmpty(MAI_fld_subcanal__c)),
      Field(SLR_fld_tipologiaOrigen__c, OrEmpty(MAI_fld_tipologiaOrigen__c)),
      Field(SLR_fld_campanya__c, OrEmpty(MAI_fld_campanya__c)),
      Field(SLR_fld_figuraSolar__c, OrEmpty(MAI_fld_figuraSolar__c)),
      Field(SLR_fld_matriculaAgente__c, OrEmpty(MAI_fld_matriculaAgente__c)),
      Field(SLR_fld_codigo_instalador__c, Const("134")),
      Field(RecordType, RecordTypeNamed("Op. Instalación"))
    ]
  }

  /** The Opportunity fields of Location_none: no distributor code nor agency, blank figure and agent. */
  function LocationNoneOpportunityFields(): seq<Field> {
    [
      Field(Name, OrEmpty(MAI_opportunityName)),
      Field(AccountId, RefTo(UbicacionId())),
      Field(SLR_fld_tipoCliente__c, OrEmpty(MAI_fld_tipoCliente__c)),
      Field(CloseDate, OrEmpty(MAI_closeDate)),
      Field(SLR_fld_masterRecordId__c, Str([Literal("INC|"), KeyText(MAI_registroID)])),
      Field(SLR_fld_cliente__c, ExistingAccount()),
      Field(StageName, OrEmpty(MAI_stageName)),
      Field(SLR_fld_distribuidor__c, OrEmpty(MAI_fld_distribuidor__c)),
      Field(SLR_fld_canal__c, OrEmpty(MAI_fld_canal__c)),
      Field(SLR_fld_canalOrigen__c, OrEmpty(MAI_fld_canalOrigen__c)),
      Field(SLR_fld_empresaOrigen__c, OrEmpty(MAI_fld_empresaOrigen__c)),
      Field(SLR_fld_subcanal__c, OrEmpty(MAI_fld_subcanal__c)),
      Field(SLR_fld_tipologiaOrigen__c, OrEmpty(MAI_fld_tipologiaOrigen__c)),
      Field(SLR_fld_campanya__c, OrEmpty(MAI_fld_campanya__c)),
      Field(SLR_fld_figuraSolar__c, Const("")),
      Field(SLR_fld_matriculaAgente__c, Const("")),
      Field(SLR_fld_codigo_instalador__c, Const("134")),
      Field(RecordType, RecordTypeNamed("Op. Instalación"))
    ]
  }

  /** The Quote fields of Client_none: numbers default to 0, texts to ''. */
  function OfertaFields(): seq<Field> {
    [
      Field(SLR_fld_numPaneles__c, Parsed(ParseFloat, MAI_fld_numPaneles__c, true)),
      Field(SLR_fld_potenciaTotal__c, Parsed(ParseFloat, MAI_fld_potenciaTotal__c, true)),
      Field(SLR_fld_potenciaNominalIns__c, Parsed(ParseFloat, MAI_fld_potenciaNominalIns__c, true)),
      Field(SLR_fld_capacidadBateria__c, Parsed(ParseFloat, MAI_fld_capacidadBateria__c, true)),
      Field(SLR_fld_precioConIVA__c, Parsed(ParseFloat, MAI_fld_precioConIVA__c, true)),
      Field(SLR_fld_tipoImpositivo__c, Parsed(ParseFloat, MAI_fld_tipoImpositivo__c, true)),
      Field(SLR_fld_paybackOferta__c, Parsed(ParseInt, MAI_fld_paybackOferta__c, true)),
      Field(SLR_fld_produccionAnualEstimada__c, Parsed(ParseFloat, MAI_fld_produccionAnualEstimada__c, true)),
      Field(SLR_fld_tipoAutoconsumo__c, OrEmpty(MAI_fld_tipoAutoconsumo__c)),
      Field(SLR_fld_tipoInversor__c, OrEmpty(MAI_fld_tipoInversor__c)),
      Field(SLR_fld_marcaInversor__c, OrEmpty(MAI_fld_marcaInversor__c)),
      Field(SLR_fld_marcaPanel__c, OrEmpty(MAI_fld_marcaPanel__c)),
      Field(SLR_fld_potenciaNominalPanel__c, Parsed(ParseFloat, MAI_fld_potenciaNominalPanel__c, true)),
      Field(SLR_fld_tipoInstalacionElectrica__c, AsIs(MAI_tipoInst)),
      Field(SLR_fld_tipoEstructura__c, OrEmpty(MAI_fld_tipoEstructura__c)),
      Field(SLR_fld_cuotaSuscripcion__c, AsIs(MAI_fld_cuotaSuscripcion__c)),
      Field(OpportunityId, RefTo(OportunidadId())),
      Field(Name, OrEmpty(MAI_ofertaId)),
      Field(Pricebook2Id, RefTo(CatalogoFirstId())),
      Field(Status, OrEmpty(MAI_status)),
      Field(SLR_fld_asociadoWattwin__c, Flag(false)),
      Field(SLR_fld_comisionInstalador__c, Parsed(ParseFloat, MAI_margenBrutoComisionInstalador, true)),
      Field(SLR_fld_preofertaID__c, OrEmpty(MAI_ofertaId)),
      Field(RecordType, RecordTypeNamed("Preoferta"))
    ]
  }

  /**
   * The Quote fields of Location_none and Opportunity_close/none: numbers and
   * texts are passed on without defaults. The payback parser and the Status
   * source differ between the two templates.
   */
  function PreofertaFields(payback: NumberParser, status: Source): seq<Field> {
    [
      Field(SLR_fld_numPaneles__c, Parsed(ParseFloat, MAI_fld_numPaneles__c, false)),
      Field(SLR_fld_potenciaTotal__c, Parsed(ParseFloat, MAI_fld_potenciaTotal__c, false)),
      Field(SLR_fld_potenciaNominalIns__c, Parsed(ParseFloat, MAI_fld_potenciaNominalIns__c, false)),
      Field(SLR_fld_capacidadBateria__c, Parsed(ParseFloat, MAI_fld_capacidadBateria__c, false)),
      Field(SLR_fld_precioConIVA__c, Parsed(ParseFloat, MAI_fld_precioConIVA__c, false)),
      Field(SLR_fld_tipoImpositivo__c, Parsed(ParseFloat, MAI_fld_tipoImpositivo__c, false)),
      Field(SLR_fld_paybackOferta__c, Parsed(payback, MAI_fld_paybackOferta__c, false)),
      Field(SLR_fld_produccionAnualEstimada__c, Parsed(ParseFloat, MAI_fld_produccionAnualEstimada__c, false)),
      Field(SLR_fld_tipoAutoconsumo__c, AsIs(MAI_fld_tipoAutoconsumo__c)),
      Field(SLR_fld_tipoInversor__c, AsIs(MAI_fld_tipoInversor__c)),
      Field(SLR_fld_marcaInversor__c, AsIs(MAI_fld_marcaInversor__c)),
      Field(SLR_fld_marcaPanel__c, AsIs(MAI_fld_marcaPanel__c)),
      Field(SLR_fld_potenciaNominalPanel__c, Parsed(ParseFloat, MAI_fld_potenciaNominalPanel__c, false)),
      Field(SLR_fld_tipoInstalacionElectrica__c, AsIs(MAI_tipoInst)),
      Field(SLR_fld_tipoEstructura__c, AsIs(MAI_fld_tipoEstructura__c)),
      Field(SLR_fld_cuotaSuscripcion__c, AsIs(MAI_fld_cuotaSuscripcion__c)),
      Field(OpportunityId, RefTo(OportunidadId())),
      Field(Name, AsIs(MAI_ofertaId)),
      Field(Pricebook2Id, RefTo(CatalogoFirstId())),
      Field(Status, status),
      Field(SLR_fld_asociadoWattwin__c, Flag(false)),
      Field(SLR_fld_comisionInstalador__c, Parsed(ParseFloat, MAI_fld_margenBrutoComisionInstalador, false)),
      Field(SLR_fld_preofertaID__c, AsIs(MAI_ofertaId)),
      Field(RecordType, RecordTypeNamed("Preoferta"))
    ]
  }

  function ContactQuery(): StepTemplate {
    StepTemplate(GET, [Lit(QueryBase + "Contact+WHERE+Id='"), UrlRef(Contacto1Id()), Lit("'+LIMIT+1")], "contacto2", None)
  }

  function CatalogoQuery(): StepTemplate {
    StepTemplate(GET, [Lit(QueryBase + "PriceBook2+WHERE+IsStandard=true+LIMIT+1")], "catalogo", None)
  }

  function RelationStep(): StepTemplate {
    StepTemplate(POST, SObjectUrl("AccountContactRelation"), "relacion2",
                 Some([Field(AccountId, RefTo(UbicacionId())), Field(ContactId, RefTo(Contacto1Id()))]))
  }

  /* ---------- the three templates ---------- */

  /** Client_none: the customer, its contact, its location, the opportunity and its Quote. */
  function ClientNoneTemplate(): seq<StepTemplate> {
    [
      StepTemplate(POST, SObjectUrl("Account"), "cliente", Some(AccountFields())),
      StepTemplate(POST, SObjectUrl("Contact"), "contacto1", Some(ContactFields(RefTo(ClienteId())))),
      StepTemplate(GET, [Lit(QueryBase + "Account+WHERE+Id='"), UrlRef(ClienteId()), Lit("'+LIMIT+1")], "cliente1", None),
      ContactQuery(),
      StepTemplate(GET, [Lit(QueryBase + "AccountContactRelation+WHERE+AccountId+='"), UrlRef(ClienteId()),
                         Lit("'+AND+ContactId+='"), UrlRef(Contacto1Id()), Lit("'+LIMIT+1")], "relacion1", None),
      StepTemplate(POST, SObjectUrl("Account"), "ubicacion", Some(LocationFields(RefTo(ClienteId())))),
      RelationStep(),
      StepTemplate(POST, SObjectUrl("Opportunity"), "oportunidad",
        Some(OpportunityFields(RefTo(UbicacionId()), RefTo(ClienteId()), Str([Literal("INC|"), KeyOr(MAI_registroID, "")])))),
      CatalogoQuery(),
      StepTemplate(POST, SObjectUrl("Quote"), "oferta", Some(OfertaFields()))
    ]
  }

  /** The account the Location_none queries name: a fixed id, not the reused account. */
  const FixedQueryAccount := "001dt0000062qgkAAA"

  /** Location_none: a contact, a location and the opportunity under an existing account. */
  function LocationNoneTemplate(): seq<StepTemplate> {
    [
      StepTemplate(POST, SObjectUrl("Contact"), "contacto1", Some(ContactFields(ExistingAccount()))),
      StepTemplate(GET, [Lit(QueryBase + "Account+WHERE+Id='" + FixedQueryAccount + "'+LIMIT+1")], "cliente1", None),
      ContactQuery(),
      StepTemplate(GET, [Lit(QueryBase + "AccountContactRelation+WHERE+AccountId+='" + FixedQueryAccount + "'+AND+ContactId+='"),
                         UrlRef(Contacto1Id()), Lit("'+LIMIT+1")], "relacion1", None),
      StepTemplate(POST, SObjectUrl("Account"), "ubicacion", Some(LocationFields(ExistingAccount()))),
      RelationStep(),
      StepTemplate(POST, SObjectUrl("Opportunity"), "oportunidad", Some(LocationNoneOpportunityFields())),
      CatalogoQuery(),
      StepTemplate(POST, SObjectUrl("Quote"), "PREoferta", Some(PreofertaFields(ParseInt, AsIs(MAI_status))))
    ]
  }

  /** Opportunity_close and Opportunity_none: the opportunity and its Quote under an existing account. */
  function OpportunityTemplate(): seq<StepTemplate> {
    [
      StepTemplate(POST, SObjectUrl("Opportunity"), "oportunidad",
        Some(OpportunityFields(ExistingAccount(), ExistingAccount(), Str([Literal("INC|"), KeyText(MAI_registroID)])))),
      CatalogoQuery(),
      StepTemplate(POST, SObjectUrl("Quote"), "PREoferta", Some(PreofertaFields(ParseFloat, Text(KeyOr(MAI_status, "Draft")))))
    ]
  }

  /** The three shapes of composite. */
  datatype TemplateKind = ClientNoneKind | LocationNoneKind | OpportunityKind

  function Steps(kind: TemplateKind): seq<StepTemplate> {
    match kind
    case ClientNoneKind => ClientNoneTemplate()
    case LocationNoneKind => LocationNoneTemplate()
    case OpportunityKind => OpportunityTemplate()
  }

  /**
   * The template a tag selects: None for an empty tag, Opportunity_open and
   * any unknown tag; Opportunity_close and Opportunity_none share one.
   */
  function TemplateFor(composerType: string): (k: Option<TemplateKind>)
    ensures k.None? <==>
      !(composerType == "Client_none" || composerType == "Location_none"
        || composerType == "Opportunity_close" || composerType == "Opportunity_none")
    ensures composerType == "Client_none" ==> k == Some(ClientNoneKind)
    ensures composerType == "Location_none" ==> k == Some(LocationNoneKind)
    ensures composerType == "Opportunity_close" || composerType == "Opportunity_none" ==>
      k == Some(OpportunityKind)
  {
    if composerType == "" || composerType == "Opportunity_open" then None
    else if composerType == "Client_none" then Some(ClientNoneKind)
    else if composerType == "Location_none" then Some(LocationNoneKind)
    else if composerType == "Opportunity_close" || composerType == "Opportunity_none" then Some(OpportunityKind)
    else None
  }

  /**
   * `buildCompositeBody`: None (null) when nothing is to be created. A member
   * whose value is JUndefined is dropped when the request is serialised.
   */
  function BuildCompositeBody(data: Payload, composerType: string): (r: Option<CompositeRequest>)
    ensures r.None? <==>
      !(composerType == "Client_none" || composerType == "Location_none"
        || composerType == "Opportunity_close" || composerType == "Opportunity_none")
  {
    match TemplateFor(composerType)
    case None => None
    case Some(kind) => Some(CompositeRequest(InstantiateAll(Steps(kind), data)))
  }

  /**
   * The installation type, normalised case-insensitively. The builder computes
   * it before choosing a template, but no template reads it: the Quote bodies
   * send `data.MAI_tipoInst` instead.
   */
  function InstallationType(data: Payload): (t: string)
    ensures MAI_fld_tipoInstalacionElectrica__c !in data ==> t == ""
    ensures MAI_fld_tipoInstalacionElectrica__c in data ==>
      t == NormaliseInstallationType(data[MAI_fld_tipoInstalacionElectrica__c])
  {
    NormaliseInstallationType(Or(Get(data, MAI_fld_tipoInstalacionElectrica__c), ""))
  }

  /**
   * The two recognised spellings, in any letter case, become their accented
   * names; every other value is kept. So the result is an accented name
   * exactly when the input spells it or already is it.
   */
  function NormaliseInstallationType(tipoInst: string): (r: string)
    ensures r == "Monofásico" <==> UpperCase(tipoInst) == "MONOFASICO" || tipoInst == "Monofásico"
    ensures r == "Trifásico" <==> UpperCase(tipoInst) == "TRIFASICO" || tipoInst == "Trifásico"
    ensures r != tipoInst ==> UpperCase(tipoInst) == "MONOFASICO" || UpperCase(tipoInst) == "TRIFASICO"
  {
    if UpperCase(tipoInst) == "MONOFASICO" then "Monofásico"
    else if UpperCase(tipoInst) == "TRIFASICO" then "Trifásico"
    else tipoInst
  }

  /** `toUpperCase` on the letters a-z; other characters are kept. */
  function UpperCase(s: string): (r: string)
    ensures |r| == |s|
    ensures forall i :: 0 <= i < |s| ==> r[i] == UpperChar(s[i])
  {
    seq(|s|, i requires 0 <= i < |s| => UpperChar(s[i]))
  }

  function UpperChar(c: char): char {
    if 'a' <= c <= 'z' then (c as int - 'a' as int + 'A' as int) as char else c
  }

  /* ---------- what the templates guarantee ---------- */

  function ReferenceIds(steps: seq<StepTemplate>): (ids: seq<string>)
    ensures |ids| == |steps|
    ensures forall i :: 0 <= i < |steps| ==> ids[i] == steps[i].referenceId
  {
    seq(|steps|, i requires 0 <= i < |steps| => steps[i].referenceId)
  }

  predicate UniqueReferenceIds(ids: seq<string>) {
    forall i, j :: 0 <= i < j < |ids| ==> ids[i] != ids[j]
  }

  /** Every `@{...}` in the url names one of `allowed`. */
  predicate UrlRefersWithin(url: seq<UrlPart>, allowed: set<string>) {
    forall j :: 0 <= j < |url| && url[j].UrlRef? ==> url[j].ref.target in allowed
  }

  /** Every `@{...}` value in the body names one of `allowed`. */
  predicate FieldsReferWithin(fields: seq<Field>, allowed: set<string>) {
    forall j :: 0 <= j < |fields| && fields[j].source.RefTo? ==> fields[j].source.ref.target in allowed
  }

  predicate StepRefersWithin(step: StepTemplate, allowed: set<string>) {
    UrlRefersWithin(step.url, allowed) && (step.body.Some? ==> FieldsReferWithin(step.body.value, allowed))
  }

  /** The reference ids of the steps before step `i`. */
  function IdsBefore(steps: seq<StepTemplate>, i: nat): set<string>
    requires i <= |steps|
  {
    set j | 0 <= j < i :: steps[j].referenceId
  }

  /** Each reference names the reference id of an earlier step. */
  predicate ReferencesPointBackward(steps: seq<StepTemplate>) {
    forall i :: 0 <= i < |steps| ==> StepRefersWithin(steps[i], IdsBefore(steps, i))
  }

  /** Exactly one step creates the opportunity. */
  predicate OneOpportunityStep(steps: seq<StepTemplate>) {
    exists k :: 0 <= k < |steps| && steps[k].referenceId == "oportunidad"
      && forall j :: 0 <= j < |steps| && j != k ==> steps[j].referenceId != "oportunidad"
  }

  predicate WellFormed(steps: seq<StepTemplate>) {
    UniqueReferenceIds(ReferenceIds(steps)) && ReferencesPointBackward(steps) && OneOpportunityStep(steps)
  }

  /** The reference ids of the sub-requests of a composite, in order. */
  function RequestIds(reqs: seq<SubRequest>): (ids: seq<string>)
    ensures |ids| == |reqs|
  {
    seq(|reqs|, i requires 0 <= i < |reqs| => reqs[i].referenceId)
  }

  /** A filled template keeps the template's reference ids. */
  lemma InstantiateKeepsIds(steps: seq<StepTemplate>, data: Payload)
    ensures RequestIds(InstantiateAll(steps, data)) == ReferenceIds(steps)
  {
  }

  /** The three templates: 10, 9 and 3 steps, with these reference ids in this order. */
  lemma ClientNoneShape()
    ensures ReferenceIds(ClientNoneTemplate()) ==
      ["cliente", "contacto1", "cliente1", "contacto2", "relacion1", "ubicacion", "relacion2", "oportunidad", "catalogo", "oferta"]
  {
  }

  lemma LocationNoneShape()
    ensures ReferenceIds(LocationNoneTemplate()) ==
      ["contacto1", "cliente1", "contacto2", "relacion1", "ubicacion", "relacion2", "oportunidad", "catalogo", "PREoferta"]
  {
  }

  lemma OpportunityShape()
    ensures ReferenceIds(OpportunityTemplate()) ==
      ["oportunidad", "catalogo", "PREoferta"]
  {
  }

  /** What `buildCompositeBody` sends for Client_none: the ten steps, in order. */
  lemma ClientNoneComposite(data: Payload)
    ensures var r := BuildCompositeBody(data, "Client_none");
      && r == Some(CompositeRequest(InstantiateAll(ClientNoneTemplate(), data)))
      && |r.value.compositeRequest| == 10
      && RequestIds(r.value.compositeRequest) ==
        ["cliente", "contacto1", "cliente1", "contacto2", "relacion1", "ubicacion", "relacion2", "oportunidad", "catalogo", "oferta"]
  {
    ClientNoneShape();
    InstantiateKeepsIds(ClientNoneTemplate(), data);
  }

  /** What `buildCompositeBody` sends for Location_none: the nine steps, in order. */
  lemma LocationNoneComposite(data: Payload)
    ensures var r := BuildCompositeBody(data, "Location_none");
      && r == Some(CompositeRequest(InstantiateAll(LocationNoneTemplate(), data)))
      && |r.value.compositeRequest| == 9
      && RequestIds(r.value.compositeRequest) ==
        ["contacto1", "cliente1", "contacto2", "relacion1", "ubicacion", "relacion2", "oportunidad", "catalogo", "PREoferta"]
  {
    LocationNoneShape();
    InstantiateKeepsIds(LocationNoneTemplate(), data);
  }

  /** What `buildCompositeBody` sends for Opportunity_close and Opportunity_none: the same three steps. */
  lemma OpportunityComposite(data: Payload, composerType: string)
    requires composerType == "Opportunity_close" || composerType == "Opportunity_none"
    ensures var r := BuildCompositeBody(data, composerType);
      && r == Some(CompositeRequest(InstantiateAll(OpportunityTemplate(), data)))
      && |r.value.compositeRequest| == 3
      && RequestIds(r.value.compositeRequest) == ["oportunidad", "catalogo", "PREoferta"]
  {
    OpportunityShape();
    InstantiateKeepsIds(OpportunityTemplate(), data);
  }

  /** The reference id a source names, if it is a reference. */
  function SourceTargets(src: Source): set<string> {
    if src.RefTo? then {src.ref.target} else {}
  }

  lemma ContactFieldsRefer(account: Source)
    ensures FieldsReferWithin(ContactFields(account), SourceTargets(account))
  {
  }

  lemma LocationFieldsRefer(parent: Source)
    ensures FieldsReferWithin(LocationFields(parent), SourceTargets(parent))
  {
  }

  lemma OpportunityFieldsRefer(account: Source, cliente: Source, masterId: Source)
    requires !masterId.RefTo?
    ensures FieldsReferWithin(OpportunityFields(account, cliente, masterId), SourceTargets(account) + SourceTargets(cliente))
  {
  }

  lemma LocationNoneOpportunityFieldsRefer()
    ensures FieldsReferWithin(LocationNoneOpportunityFields(), {"ubicacion"})
  {
  }

  lemma QuoteFieldsRefer(payback: NumberParser, status: Source)
    requires !status.RefTo?
    ensures FieldsReferWithin(OfertaFields(), {"oportunidad", "catalogo"})
    ensures FieldsReferWithin(PreofertaFields(payback, status), {"oportunidad", "catalogo"})
  {
  }

  /** With distinct reference ids, one `oportunidad` step is the only one. */
  lemma UniqueIdsGiveOneOpportunity(steps: seq<StepTemplate>, k: nat)
    requires UniqueReferenceIds(ReferenceIds(steps))
    requires k < |steps| && steps[k].referenceId == "oportunidad"
    ensures OneOpportunityStep(steps)
  {
    forall j | 0 <= j < |steps| && j != k
      ensures steps[j].referenceId != "oportunidad"
    {
      if j < k {
        assert ReferenceIds(steps)[j] != ReferenceIds(steps)[k];
      } else {
        assert ReferenceIds(steps)[k] != ReferenceIds(steps)[j];
      }
    }
  }

  /** The steps of Client_none that create the customer and its contact, each with the reference ids it mentions. */
  lemma ClientNoneCustomerStepsRefer()
    ensures var steps := ClientNoneTemplate();
      && StepRefersWithin(steps[0], {})
      && StepRefersWithin(steps[1], {"cliente"})
      && StepRefersWithin(steps[2], {"cliente"})
      && StepRefersWithin(steps[3], {"contacto1"})
      && StepRefersWithin(steps[4], {"cliente", "contacto1"})
  {
    ContactFieldsRefer(RefTo(ClienteId()));
  }

  /** The steps of Client_none from the location on, each with the reference ids it mentions. */
  lemma ClientNoneOpportunityStepsRefer()
    ensures var steps := ClientNoneTemplate();
      && StepRefersWithin(steps[5], {"cliente"})
      && StepRefersWithin(steps[6], {"ubicacion", "contacto1"})
      && StepRefersWithin(steps[7], {"ubicacion", "cliente"})
      && StepRefersWithin(steps[8], {})
      && StepRefersWithin(steps[9], {"oportunidad", "catalogo"})
  {
    LocationFieldsRefer(RefTo(ClienteId()));
    OpportunityFieldsRefer(RefTo(UbicacionId()), RefTo(ClienteId()), Str([Literal("INC|"), KeyOr(MAI_registroID, "")]));
    QuoteFieldsRefer(ParseFloat, AsIs(MAI_status));
  }

  lemma ClientNoneRefersBackward()
    ensures ReferencesPointBackward(ClientNoneTemplate())
  {
    var steps := ClientNoneTemplate();
    ClientNoneCustomerStepsRefer();
    ClientNoneOpportunityStepsRefer();
    assert steps[0].referenceId == "cliente" && steps[1].referenceId == "contacto1";
    assert steps[5].referenceId == "ubicacion" && steps[7].referenceId == "oportunidad";
    assert steps[8].referenceId == "catalogo";
    forall i | 0 <= i < |steps|
      ensures StepRefersWithin(steps[i], IdsBefore(steps, i))
    {
      if i == 0 {
      } else if i <= 3 {
        assert "cliente" in IdsBefore(steps, i);
      } else if i <= 5 {
      } else if i <= 7 {
      } else {
      }
    }
  }

  lemma ClientNoneWellFormed()
    ensures WellFormed(ClientNoneTemplate())
  {
    ClientNoneShape();
    ClientNoneRefersBackward();
    UniqueIdsGiveOneOpportunity(ClientNoneTemplate(), 7);
  }

  lemma LocationNoneRefersBackward()
    ensures ReferencesPointBackward(LocationNoneTemplate())
  {
    var steps := LocationNoneTemplate();
    ContactFieldsRefer(ExistingAccount());
    LocationFieldsRefer(ExistingAccount());
    LocationNoneOpportunityFieldsRefer();
    QuoteFieldsRefer(ParseInt, AsIs(MAI_status));
    assert steps[0].referenceId == "contacto1" && steps[4].referenceId == "ubicacion";
    assert steps[6].referenceId == "oportunidad" && steps[7].referenceId == "catalogo";
  }

  lemma LocationNoneWellFormed()
    ensures WellFormed(LocationNoneTemplate())
  {
    LocationNoneShape();
    LocationNoneRefersBackward();
    UniqueIdsGiveOneOpportunity(LocationNoneTemplate(), 6);
  }

  lemma OpportunityRefersBackward()
    ensures ReferencesPointBackward(OpportunityTemplate())
  {
    var steps := OpportunityTemplate();
    OpportunityFieldsRefer(ExistingAccount(), ExistingAccount(), Str([Literal("INC|"), KeyText(MAI_registroID)]));
    QuoteFieldsRefer(ParseFloat, Text(KeyOr(MAI_status, "Draft")));
    assert steps[0].referenceId == "oportunidad" && steps[1].referenceId == "catalogo";
  }

  lemma OpportunityWellFormed()
    ensures WellFormed(OpportunityTemplate())
  {
    OpportunityShape();
    OpportunityRefersBackward();
    UniqueIdsGiveOneOpportunity(OpportunityTemplate(), 0);
  }

  /* ---------- which payload keys a template reads ---------- */

  predicate PieceReads(p: Piece, key: Key) {
    match p
    case Literal(_) => false
    case KeyOr(k, _) => k == key
    case KeyText(k) => k == key
  }

  predicate SourceReads(src: Source, key: Key) {
    match src
    case Text(p) => PieceReads(p, key)
    case Str(pieces) => exists i :: 0 <= i < |pieces| && PieceReads(pieces[i], key)
    case AsIs(k) => k == key
    case Parsed(_, k, _) => k == key
    case RefTo(_) => false
    case Flag(_) => false
    case RecordTypeNamed(_) => false
  }

  predicate FieldsIgnore(fields: seq<Field>, key: Key) {
    forall j :: 0 <= j < |fields| ==> !SourceReads(fields[j].source, key)
  }

  /** No body field of any step is filled from `key`. */
  predicate Ignores(steps: seq<StepTemplate>, key: Key) {
    forall i :: 0 <= i < |steps| && steps[i].body.Some? ==> FieldsIgnore(steps[i].body.value, key)
  }

  lemma {:induction false} ConcatIgnoresUnreadKey(pieces: seq<Piece>, data: Payload, key: Key, v: string)
    requires forall i :: 0 <= i < |pieces| ==> !PieceReads(pieces[i], key)
    ensures Concat(pieces, data[key := v]) == Concat(pieces, data)
    decreases |pieces|
  {
    if pieces != [] {
      ConcatIgnoresUnreadKey(pieces[1..], data, key, v);
    }
  }

  lemma EvalIgnoresUnreadKey(src: Source, data: Payload, key: Key, v: string)
    requires !SourceReads(src, key)
    ensures Eval(src, data[key := v]) == Eval(src, data)
  {
    if src.Str? {
      ConcatIgnoresUnreadKey(src.pieces, data, key, v);
    }
  }

  /** A template that does not read `key` builds the same sub-requests whatever `key` holds. */
  lemma InstantiateIgnoresUnreadKey(steps: seq<StepTemplate>, data: Payload, key: Key, v: string)
    requires Ignores(steps, key)
    ensures InstantiateAll(steps, data[key := v]) == InstantiateAll(steps, data)
  {
    forall i | 0 <= i < |steps|
      ensures Instantiate(steps[i], data[key := v]) == Instantiate(steps[i], data)
    {
      if steps[i].body.Some? {
        var fields := steps[i].body.value;
        forall j | 0 <= j < |fields|
          ensures Eval(fields[j].source, data[key := v]) == Eval(fields[j].source, data)
        {
          EvalIgnoresUnreadKey(fields[j].source, data, key, v);
        }
        assert FillBody(fields, data[key := v]) == FillBody(fields, data);
      }
    }
  }

  /**
   * The keys that steer the relay rather than fill a Salesforce field: the
   * scenario tag, the account id found by the duplicate check and the raw
   * installation type.
   */
  predicate ControlKey(key: Key) {
    key == MAI_composer_type_sf || key == MAI_accountid_callback_sf || key == MAI_fld_tipoInstalacionElectrica__c
  }

  lemma AccountFieldsIgnore(key: Key)
    requires ControlKey(key)
    ensures FieldsIgnore(AccountFields(), key)
  {
  }

  lemma ContactFieldsIgnore(key: Key, account: Source)
    requires ControlKey(key) && !SourceReads(account, key)
    ensures FieldsIgnore(ContactFields(account), key)
  {
  }

  lemma LocationFieldsIgnore(key: Key, parent: Source)
    requires ControlKey(key) && !SourceReads(parent, key)
    ensures FieldsIgnore(LocationFields(parent), key)
  {
  }

  lemma OpportunityFieldsIgnore(key: Key, account: Source, cliente: Source, masterId: Source)
    requires ControlKey(key) && !SourceReads(account, key) && !SourceReads(cliente, key) && !SourceReads(masterId, key)
    ensures FieldsIgnore(OpportunityFields(account, cliente, masterId), key)
  {
  }

  lemma LocationNoneOpportunityFieldsIgnore(key: Key)
    requires ControlKey(key) && key != MAI_accountid_callback_sf
    ensures FieldsIgnore(LocationNoneOpportunityFields(), key)
  {
  }

  lemma OfertaFieldsIgnore(key: Key)
    requires ControlKey(key)
    ensures FieldsIgnore(OfertaFields(), key)
  {
  }

  lemma PreofertaFieldsIgnore(key: Key, payback: NumberParser, status: Source)
    requires ControlKey(key) && !SourceReads(status, key)
    ensures FieldsIgnore(PreofertaFields(payback, status), key)
  {
  }

  /** Client_none reads none of the control keys, the duplicate check's account id included. */
  lemma ClientNoneIgnoresControlKeys(key: Key)
    requires ControlKey(key)
    ensures Ignores(ClientNoneTemplate(), key)
  {
    var steps := ClientNoneTemplate();
    forall i | 0 <= i < |steps| && steps[i].body.Some?
      ensures FieldsIgnore(steps[i].body.value, key)
    {
      if i == 0 {
        AccountFieldsIgnore(key);
      } else if i == 1 {
        ContactFieldsIgnore(key, RefTo(ClienteId()));
      } else if i == 5 {
        LocationFieldsIgnore(key, RefTo(ClienteId()));
      } else if i == 7 {
        OpportunityFieldsIgnore(key, RefTo(UbicacionId()), RefTo(ClienteId()), Str([Literal("INC|"), KeyOr(MAI_registroID, "")]));
      } else if i == 9 {
        OfertaFieldsIgnore(key);
      }
    }
  }

  /** Location_none reads the duplicate check's account id, but neither the tag nor the raw installation type. */
  lemma LocationNoneIgnoresControlKeys(key: Key)
    requires ControlKey(key) && key != MAI_accountid_callback_sf
    ensures Ignores(LocationNoneTemplate(), key)
  {
    var steps := LocationNoneTemplate();
    forall i | 0 <= i < |steps| && steps[i].body.Some?
      ensures FieldsIgnore(steps[i].body.value, key)
    {
      if i == 0 {
        ContactFieldsIgnore(key, ExistingAccount());
      } else if i == 4 {
        LocationFieldsIgnore(key, ExistingAccount());
      } else if i == 6 {
        LocationNoneOpportunityFieldsIgnore(key);
      } else if i == 8 {
        PreofertaFieldsIgnore(key, ParseInt, AsIs(MAI_status));
      }
    }
  }

  /** Opportunity_close/none read the duplicate check's account id, but neither the tag nor the raw installation type. */
  lemma OpportunityIgnoresControlKeys(key: Key)
    requires ControlKey(key) && key != MAI_accountid_callback_sf
    ensures Ignores(OpportunityTemplate(), key)
  {
    var steps := OpportunityTemplate();
    forall i | 0 <= i < |steps| && steps[i].body.Some?
      ensures FieldsIgnore(steps[i].body.value, key)
    {
      if i == 0 {
        OpportunityFieldsIgnore(key, ExistingAccount(), ExistingAccount(), Str([Literal("INC|"), KeyText(MAI_registroID)]));
      } else if i == 2 {
        PreofertaFieldsIgnore(key, ParseFloat, Text(KeyOr(MAI_status, "Draft")));
      }
    }
  }

  /**
   * The normalised installation type is never sent, and the tag only selects
   * the template: no template's sub-requests depend on either key's value.
   * Client_none does not depend on the duplicate check's account id either.
   */
  lemma ClientNoneIgnoresControlValues(data: Payload, key: Key, v: string)
    requires ControlKey(key)
    ensures InstantiateAll(ClientNoneTemplate(), data[key := v]) == InstantiateAll(ClientNoneTemplate(), data)
  {
    ClientNoneIgnoresControlKeys(key);
    InstantiateIgnoresUnreadKey(ClientNoneTemplate(), data, key, v);
  }

  lemma LocationNoneIgnoresControlValues(data: Payload, key: Key, v: string)
    requires key == MAI_fld_tipoInstalacionElectrica__c || key == MAI_composer_type_sf
    ensures InstantiateAll(LocationNoneTemplate(), data[key := v]) == InstantiateAll(LocationNoneTemplate(), data)
  {
    LocationNoneIgnoresControlKeys(key);
    InstantiateIgnoresUnreadKey(LocationNoneTemplate(), data, key, v);
  }

  lemma OpportunityIgnoresControlValues(data: Payload, key: Key, v: string)
    requires key == MAI_fld_tipoInstalacionElectrica__c || key == MAI_composer_type_sf
    ensures InstantiateAll(OpportunityTemplate(), data[key := v]) == InstantiateAll(OpportunityTemplate(), data)
  {
    OpportunityIgnoresControlKeys(key);
    InstantiateIgnoresUnreadKey(OpportunityTemplate(), data, key, v);
  }

  /* ---------- values the templates send ---------- */

  /** A value made of one piece is that piece's text. */
  lemma ConcatSingle(p: Piece, data: Payload)
    ensures Concat([p], data) == PieceText(p, data)
  {
    assert [p][1..] == [];
    assert PieceText(p, data) + "" == PieceText(p, data);
  }

  /** A value made of two pieces is their texts joined. */
  lemma ConcatPair(p: Piece, q: Piece, data: Payload)
    ensures Concat([p, q], data) == PieceText(p, data) + PieceText(q, data)
  {
    assert [p, q][1..] == [q];
    ConcatSingle(q, data);
  }

  /**
   * Where Client_none refers to the customer it has just created, the other
   * templates put the account id found by the duplicate check, or ''.
   */
  lemma ClientNoneUsesNewCustomer(data: Payload)
    ensures var steps, cliente := InstantiateAll(ClientNoneTemplate(), data), JString(RefText(ClienteId()));
      && steps[1].body.value[0] == Member(AccountId, cliente)
      && steps[5].body.value[7] == Member(ParentId, cliente)
      && steps[7].body.value[5] == Member(SLR_fld_cliente__c, cliente)
  {
  }

  lemma LocationNoneReusesAccount(data: Payload)
    ensures var steps, account := InstantiateAll(LocationNoneTemplate(), data), JString(Or(Get(data, MAI_accountid_callback_sf), ""));
      && steps[0].body.value[0] == Member(AccountId, account)
      && steps[4].body.value[7] == Member(ParentId, account)
      && steps[6].body.value[5] == Member(SLR_fld_cliente__c, account)
  {
  }

  lemma OpportunityReusesAccount(data: Payload)
    ensures var steps, account := InstantiateAll(OpportunityTemplate(), data), JString(Or(Get(data, MAI_accountid_callback_sf), ""));
      && steps[0].body.value[1] == Member(AccountId, account)
      && steps[0].body.value[5] == Member(SLR_fld_cliente__c, account)
  {
  }

  /**
   * The opportunity's master id is 'INC|' + registroID. Client_none turns a
   * missing id into '', the other templates into "undefined"; the Client_none
   * customer's master id joins the master id and registroID, each defaulting to ''.
   */
  lemma ClientNoneMasterIds(data: Payload)
    ensures var steps := InstantiateAll(ClientNoneTemplate(), data);
      && steps[0].body.value[0] == Member(SLR_fld_masterRecordId__c,
           JString(Or(Get(data, MAI_fld_masterRecordId__c), "") + Or(Get(data, MAI_registroID), "")))
      && steps[7].body.value[4] == Member(SLR_fld_masterRecordId__c, JString("INC|" + Or(Get(data, MAI_registroID), "")))
  {
    ConcatPair(KeyOr(MAI_fld_masterRecordId__c, ""), KeyOr(MAI_registroID, ""), data);
    ConcatPair(Literal("INC|"), KeyOr(MAI_registroID, ""), data);
  }

  lemma LocationNoneMasterId(data: Payload)
    ensures InstantiateAll(LocationNoneTemplate(), data)[6].body.value[4] ==
      Member(SLR_fld_masterRecordId__c, JString("INC|" + JsString(Get(data, MAI_registroID))))
  {
    ConcatPair(Literal("INC|"), KeyText(MAI_registroID), data);
  }

  lemma OpportunityMasterId(data: Payload)
    ensures InstantiateAll(OpportunityTemplate(), data)[0].body.value[4] ==
      Member(SLR_fld_masterRecordId__c, JString("INC|" + JsString(Get(data, MAI_registroID))))
  {
    ConcatPair(Literal("INC|"), KeyText(MAI_registroID), data);
  }

  /**
   * The Quote Status defaults to '' in Client_none and to 'Draft' in
   * Opportunity_close/none; Location_none passes it on as is, undefined when absent.
   */
  lemma ClientNoneQuoteStatus(data: Payload)
    ensures InstantiateAll(ClientNoneTemplate(), data)[9].body.value[19] == Member(Status, JString(Or(Get(data, MAI_status), "")))
  {
  }

  lemma LocationNoneQuoteStatus(data: Payload)
    ensures InstantiateAll(LocationNoneTemplate(), data)[8].body.value[19] ==
      Member(Status, if MAI_status in data then JString(data[MAI_status]) else JUndefined)
  {
  }

  lemma OpportunityQuoteStatus(data: Payload)
    ensures InstantiateAll(OpportunityTemplate(), data)[2].body.value[19] == Member(Status, JString(Or(Get(data, MAI_status), "Draft")))
  {
  }

  /** Every number in the fields is parsed with the same `|| 0` choice. */
  predicate ParsedWithDefault(fields: seq<Field>, zeroIfNaN: bool) {
    forall j :: 0 <= j < |fields| && fields[j].source.Parsed? ==> fields[j].source.zeroIfNaN == zeroIfNaN
  }

  predicate NumbersWithDefault(body: seq<Member>, zeroIfNaN: bool) {
    forall j :: 0 <= j < |body| && body[j].value.JNumber? ==> body[j].value.zeroIfNaN == zeroIfNaN
  }

  /** The numbers of a filled body are exactly the parsed fields of its template, with their defaults. */
  lemma FillBodyKeepsNumberDefaults(fields: seq<Field>, data: Payload, zeroIfNaN: bool)
    ensures NumbersWithDefault(FillBody(fields, data), zeroIfNaN) <==> ParsedWithDefault(fields, zeroIfNaN)
  {
    var body := FillBody(fields, data);
    forall j | 0 <= j < |fields|
      ensures body[j].value.JNumber? <==> fields[j].source.Parsed?
      ensures fields[j].source.Parsed? ==> body[j].value.zeroIfNaN == fields[j].source.zeroIfNaN
    {
    }
  }

  /** Client_none substitutes 0 for a Quote number that does not parse. */
  lemma ClientNoneNumbersDefaultToZero(data: Payload)
    ensures NumbersWithDefault(InstantiateAll(ClientNoneTemplate(), data)[9].body.value, true)
  {
    assert ParsedWithDefault(OfertaFields(), true);
    FillBodyKeepsNumberDefaults(OfertaFields(), data, true);
  }

  /** Location_none and Opportunity_close/none send the parse result of a Quote number as is. */
  lemma LocationNoneNumbersWithoutDefault(data: Payload)
    ensures NumbersWithDefault(InstantiateAll(LocationNoneTemplate(), data)[8].body.value, false)
  {
    assert ParsedWithDefault(PreofertaFields(ParseInt, AsIs(MAI_status)), false);
    FillBodyKeepsNumberDefaults(PreofertaFields(ParseInt, AsIs(MAI_status)), data, false);
  }

  lemma OpportunityNumbersWithoutDefault(data: Payload)
    ensures NumbersWithDefault(InstantiateAll(OpportunityTemplate(), data)[2].body.value, false)
  {
    assert ParsedWithDefault(PreofertaFields(ParseFloat, Text(KeyOr(MAI_status, "Draft"))), false);
    FillBodyKeepsNumberDefaults(PreofertaFields(ParseFloat, Text(KeyOr(MAI_status, "Draft"))), data, false);
  }

  /** The payback is parsed as an integer except in Opportunity_close/none. */
  lemma PaybackParsers(data: Payload)
    ensures InstantiateAll(ClientNoneTemplate(), data)[9].body.value[6] ==
      Member(SLR_fld_paybackOferta__c, JNumber(ParseInt, Get(data, MAI_fld_paybackOferta__c), true))
    ensures InstantiateAll(LocationNoneTemplate(), data)[8].body.value[6] ==
      Member(SLR_fld_paybackOferta__c, JNumber(ParseInt, Get(data, MAI_fld_paybackOferta__c), false))
    ensures InstantiateAll(OpportunityTemplate(), data)[2].body.value[6] ==
      Member(SLR_fld_paybackOferta__c, JNumber(ParseFloat, Get(data, MAI_fld_paybackOferta__c), false))
  {
  }

  /** Every tag the duplicate check can report builds a composite, except Opportunity_open. */
  lemma BuildForEveryScenario(data: Payload, s: Duplicates.Scenario)
    ensures BuildCompositeBody(data, Duplicates.Tag(s)).None? <==> s == Duplicates.OpportunityOpen
  {
  }

  /* ---------- installation type ---------- */

  /** Recognised spellings are normalised whatever their case; anything else is kept. */
  lemma MonofasicoAnyCase()
    ensures NormaliseInstallationType("monofasico") == "Monofásico"
    ensures NormaliseInstallationType("MonoFasico") == "Monofásico"
  {
    assert UpperCase("monofasico") == "MONOFASICO";
    assert UpperCase("MonoFasico") == "MONOFASICO";
  }

  lemma TrifasicoAnyCase()
    ensures NormaliseInstallationType("TriFasico") == "Trifásico"
  {
    assert UpperCase("TriFasico") == "TRIFASICO";
  }

  lemma OtherInstallationTypeKept(tipoInst: string)
    requires UpperCase(tipoInst) != "MONOFASICO" && UpperCase(tipoInst) != "TRIFASICO"
    ensures NormaliseInstallationType(tipoInst) == tipoInst
  {
  }

  /** Normalising twice is normalising once: the accented names are not recognised again. */
  lemma NormaliseInstallationTypeIdempotent(tipoInst: string)
    ensures NormaliseInstallationType(NormaliseInstallationType(tipoInst)) == NormaliseInstallationType(tipoInst)
  {
    assert UpperCase("Monofásico")[5] == 'á';
    assert UpperCase("Trifásico")[4] == 'á';
  }

  /** Two spellings that differ only in the case of a-z are normalised alike. */
  lemma NormaliseInstallationTypeCaseInsensitive(a: string, b: string)
    requires UpperCase(a) == UpperCase(b)
    ensures NormaliseInstallationType(a) == NormaliseInstallationType(b) || (NormaliseInstallationType(a) == a && NormaliseInstallationType(b) == b)
  {
  }
}

/**
 * The two route handlers: each chooses the HTTP status and the JSON body
 * returned to Landbot/Magick from what the services answered.
 */
module SalesforceController {
  import opened JsValues
  import Duplicates
  import CreateOpportunity

  /** A JSON body: the service's answer as is, or `{ success: false, message, error }`. */
  datatype Body<T> = Answer(value: T) | ErrorBody(message: string, error: Option<string>)

  datatype Response<T> = Response(status: int, body: Body<T>)

  /* ---------- String.prototype.trim ---------- */

  /** The characters `trim` removes: ECMAScript white space and line terminators. */
  predicate IsJsWhitespace(c: char) {
    c == '\U{9}' || c == '\U{A}' || c == '\U{B}' || c == '\U{C}' || c == '\U{D}' || c == '\U{20}'
    || c == '\U{A0}' || c == '\U{1680}' || ('\U{2000}' <= c <= '\U{200A}')
    || c == '\U{2028}' || c == '\U{2029}' || c == '\U{202F}' || c == '\U{205F}' || c == '\U{3000}'
    || c == '\U{FEFF}'
  }

  /** The number of white-space characters at the start of `s`. */
  function LeadingSpace(s: string): (k: nat)
    ensures k <= |s|
    ensures forall i :: 0 <= i < k ==> IsJsWhitespace(s[i])
    ensures k < |s| ==> !IsJsWhitespace(s[k])
  {
    if s == [] || !IsJsWhitespace(s[0]) then 0 else 1 + LeadingSpace(s[1..])
  }

  /** The number of white-space characters at the end of `s`. */
  function TrailingSpace(s: string): (k: nat)
    ensures k <= |s|
    ensures forall i :: |s| - k <= i < |s| ==> IsJsWhitespace(s[i])
    ensures k < |s| ==> !IsJsWhitespace(s[|s| - k - 1])
  {
    if s == [] || !IsJsWhitespace(s[|s| - 1]) then 0 else 1 + TrailingSpace(s[..|s| - 1])
  }

  /** `s.trim()`: `s` without its leading and trailing white space. */
  function Trim(s: string): string {
    var lead := LeadingSpace(s);
    s[lead..][..|s| - lead - TrailingSpace(s[lead..])]
  }

  /** `trim` gives the empty string exactly for a string made of white space only. */
  lemma TrimEmpty(s: string)
    ensures Trim(s) == "" <==> forall i :: 0 <= i < |s| ==> IsJsWhitespace(s[i])
  {
    var lead := LeadingSpace(s);
    var rest := s[lead..];
    if lead < |s| {
      // the first character kept is not white space, so the trailing count stops before it
      assert rest[0] == s[lead];
    }
  }

  /** `trim` keeps the middle of `s`, from its first to its last non-white-space character. */
  lemma TrimKeepsMiddle(s: string)
    ensures exists i, j ::
      && 0 <= i <= j <= |s| && Trim(s) == s[i..j]
      && (forall k :: 0 <= k < i ==> IsJsWhitespace(s[k]))
      && (forall k :: j <= k < |s| ==> IsJsWhitespace(s[k]))
    ensures Trim(s) != "" ==> !IsJsWhitespace(Trim(s)[0]) && !IsJsWhitespace(Trim(s)[|Trim(s)| - 1])
  {
    var lead := LeadingSpace(s);
    var rest := s[lead..];
    var j := lead + |rest| - TrailingSpace(rest);
    assert Trim(s) == s[lead..j];
    forall k | j <= k < |s| ensures IsJsWhitespace(s[k]) {
      assert s[k] == rest[k - lead];
    }
  }

  /* ---------- searchDuplicates ---------- */

  const MissingDocumentMessage := "Falta DNI/CIF para verificar duplicados."
  const SearchErrorMessage := "Error interno al buscar duplicados"

  /**
   * The document searched, `(numDocumento || cif || '').trim()`: a truthy
   * `numDocumento` is used, and `cif` only stands in when it is missing or empty.
   */
  function DocumentOf(numDocumento: Option<string>, cif: Option<string>): (doc: string)
    ensures Truthy(numDocumento) ==> doc == Trim(numDocumento.value)
    ensures !Truthy(numDocumento) && Truthy(cif) ==> doc == Trim(cif.value)
    ensures !Truthy(numDocumento) && !Truthy(cif) ==> doc == ""
  {
    Trim(Or(numDocumento, Or(cif, "")))
  }

  /**
   * `searchDuplicates`. `numDocumento` and `cif` are the request body's
   * members (None when absent, or when there is no body); `check(doc)` is what
   * `checkDuplicates` answers for `doc`, or the message of the error it threw.
   */
  function SearchDuplicates(numDocumento: Option<string>, cif: Option<string>,
                            check: string -> Result<Duplicates.DuplicatesReply>): (r: Response<Duplicates.DuplicatesReply>)
    ensures r.status == 400 || r.status == 200 || r.status == 500
    ensures r.status == 400 <==>
      var raw := Or(numDocumento, Or(cif, ""));
      forall i :: 0 <= i < |raw| ==> IsJsWhitespace(raw[i])
    ensures r.status == 200 <==> DocumentOf(numDocumento, cif) != "" && check(DocumentOf(numDocumento, cif)).Success?
    ensures r.status == 200 ==> r.body == Answer(check(DocumentOf(numDocumento, cif)).value)
    ensures r.status != 200 ==> !r.body.Answer?
  {
    TrimEmpty(Or(numDocumento, Or(cif, "")));
    var doc := DocumentOf(numDocumento, cif);
    if doc == "" then Response(400, ErrorBody(MissingDocumentMessage, None))
    else match check(doc)
      case Success(reply) => Response(200, Answer(reply))
      case Failure(e) => Response(500, ErrorBody(SearchErrorMessage, Some(e)))
  }

  /**
   * With no document, or one of white space only, the answer is 400 and the
   * duplicate check is not consulted: any other check gives the same answer.
   */
  lemma MissingDocumentRejected(numDocumento: Option<string>, cif: Option<string>,
                                check: string -> Result<Duplicates.DuplicatesReply>,
                                check': string -> Result<Duplicates.DuplicatesReply>)
    requires var raw := Or(numDocumento, Or(cif, ""));
      forall i :: 0 <= i < |raw| ==> IsJsWhitespace(raw[i])
    ensures SearchDuplicates(numDocumento, cif, check) == Response(400, ErrorBody(MissingDocumentMessage, None))
    ensures SearchDuplicates(numDocumento, cif, check) == SearchDuplicates(numDocumento, cif, check')
  {
    TrimEmpty(Or(numDocumento, Or(cif, "")));
  }

  /**
   * A document with a non-white-space character is checked: the reply comes
   * back unchanged with 200, a thrown error as 500 with its message.
   */
  lemma DocumentChecked(numDocumento: Option<string>, cif: Option<string>,
                        check: string -> Result<Duplicates.DuplicatesReply>, i: nat)
    requires var raw := Or(numDocumento, Or(cif, ""));
      i < |raw| && !IsJsWhitespace(raw[i])
    ensures var doc := DocumentOf(numDocumento, cif);
      && doc != ""
      && (check(doc).Success? ==> SearchDuplicates(numDocumento, cif, check) == Response(200, Answer(check(doc).value)))
      && (check(doc).Failure? ==> SearchDuplicates(numDocumento, cif, check) == Response(500, ErrorBody(SearchErrorMessage, Some(check(doc).error))))
  {
    TrimEmpty(Or(numDocumento, Or(cif, "")));
  }

  /* ---------- createOpportunity ---------- */

  const CreateErrorMessage := "Error interno al crear oportunidad"

  /**
   * The create handler: whatever `createOpportunity` answered, `success`
   * true or false, goes back with 200; a thrown error gives 500.
   */
  function CreateHandler(result: Result<CreateOpportunity.CreateOutcome>): (r: Response<CreateOpportunity.CreateOutcome>)
    ensures r.status == 200 <==> result.Success?
    ensures r.status == 500 <==> result.Failure?
    ensures result.Success? ==> r.body == Answer(result.value)
    ensures result.Failure? ==> r.body == ErrorBody(CreateErrorMessage, Some(result.error))
  {
    match result
    case Success(outcome) => Response(200, Answer(outcome))
    case Failure(e) => Response(500, ErrorBody(CreateErrorMessage, Some(e)))
  }

  /** A refused or failed creation is still answered with 200. */
  lemma CreateFailureIsStill200(outcome: CreateOpportunity.CreateOutcome)
    requires !CreateOpportunity.Succeeded(outcome)
    ensures CreateHandler(Success(outcome)).status == 200
  {
  }
}

/**
 * `apiKeyMiddleware`: the API-key gate in front of every route. Landbot and
 * Magick each have a configured key; a request carries its key in the
 * `x-api-key` header or the `api_key` query parameter.
 */
module AuthMiddleware {
  import opened JsValues

  /** Answer 401, answer 403, or hand the request on (`next()`) without answering. */
  datatype AuthDecision = Reject401 | Reject403 | Proceed

  /** The key sent: `headers['x-api-key'] || query.api_key`. */
  function SentKey(header: Option<string>, query: Option<string>): Option<string> {
    if Truthy(header) then header else query
  }

  /**
   * The decision for a request. `magickKey` and `landbotKey` are the two
   * configured keys, None when the variable is not set. No key, or an empty
   * one, in both places gives 401; otherwise the request proceeds exactly
   * when the key sent is one of the two configured keys.
   */
  function Decide(header: Option<string>, query: Option<string>,
                  magickKey: Option<string>, landbotKey: Option<string>): (d: AuthDecision)
    ensures d == Reject401 <==> !Truthy(header) && !Truthy(query)
    ensures d == Proceed <==>
      Truthy(SentKey(header, query)) && (SentKey(header, query) == magickKey || SentKey(header, query) == landbotKey)
    ensures d == Reject403 <==>
      Truthy(SentKey(header, query)) && SentKey(header, query) != magickKey && SentKey(header, query) != landbotKey
  {
    var apiKeySent := SentKey(header, query);
    if !Truthy(apiKeySent) then Reject401
    else if apiKeySent != magickKey && apiKeySent != landbotKey then Reject403
    else Proceed
  }

  /** The status and message of a rejection; None when the request proceeds and nothing is answered. */
  function Rejection(d: AuthDecision): (r: Option<(int, string)>)
    ensures r.None? <==> d == Proceed
  {
    match d
    case Reject401 => Some((401, "API Key is required"))
    case Reject403 => Some((403, "Invalid API Key"))
    case Proceed => None
  }

  /**
   * What the middleware answers a request: 401 'API Key is required' when no
   * key is sent, 403 'Invalid API Key' when the key sent is neither configured
   * key, and nothing at all (the request is handed on) otherwise.
   */
  lemma RequestAnswer(header: Option<string>, query: Option<string>, magickKey: Option<string>, landbotKey: Option<string>)
    ensures var answer := Rejection(Decide(header, query, magickKey, landbotKey));
      var key := SentKey(header, query);
      && (answer == Some((401, "API Key is required")) <==> !Truthy(header) && !Truthy(query))
      && (answer == Some((403, "Invalid API Key")) <==> Truthy(key) && key != magickKey && key != landbotKey)
      && (answer.None? <==> Truthy(key) && (key == magickKey || key == landbotKey))
  {
  }

  /** A non-empty header key is the one checked: the query parameter is then never read. */
  lemma HeaderTakesPrecedence(header: Option<string>, query: Option<string>, query': Option<string>,
                              magickKey: Option<string>, landbotKey: Option<string>)
    requires Truthy(header)
    ensures Decide(header, query, magickKey, landbotKey) == Decide(header, query', magickKey, landbotKey)
    ensures Decide(header, query, magickKey, landbotKey) == Proceed <==> header == magickKey || header == landbotKey
  {
  }

  /** Neither an unset nor an empty configured key lets a request through. */
  lemma UnsetKeysAdmitNothing(header: Option<string>, query: Option<string>, magickKey: Option<string>, landbotKey: Option<string>)
    requires !Truthy(magickKey) && !Truthy(landbotKey)
    ensures Decide(header, query, magickKey, landbotKey) != Proceed
  {
  }
}

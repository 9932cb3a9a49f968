/** API-key authorization of an inbound request.  Four credential sources are
    accepted, each in the style of one client protocol: an OAuth 2.0 bearer
    token in the `Authorization` header (section 2.1 of RFC 6750), a `key` query
    parameter, an `x-goog-api-key` header and an `x-api-key` header. */
module Auth {
  import opened Wrappers

  /** The parts of an inbound HTTP request the dispatch layer reads: header
      values by lower-cased name, and the decoded query parameters in URL order. */
  datatype IncomingRequest = IncomingRequest(headers: map<string, string>, query: seq<(string, string)>)

  /** `req.headers[name]`: `None` when the header is absent. */
  function Header(req: IncomingRequest, name: string): Option<string> {
    if name in req.headers then Some(req.headers[name]) else None
  }

  /** `URLSearchParams.get(name)`: the first value given for `name`, `None` (null) if there is none. */
  function SearchParam(query: seq<(string, string)>, name: string): (r: Option<string>)
    ensures r.Some? ==> exists i :: FirstParam(query, name, i) && query[i].1 == r.value
    ensures r.None? ==> forall i :: 0 <= i < |query| ==> query[i].0 != name
  {
    if query == [] then None
    else if query[0].0 == name then
      assert FirstParam(query, name, 0);
      Some(query[0].1)
    else
      var rest := SearchParam(query[1..], name);
      if rest.Some? then
        var i :| FirstParam(query[1..], name, i) && query[1..][i].1 == rest.value;
        assert FirstParam(query, name, i + 1) by {
          forall k | 0 <= k < i + 1 ensures query[k].0 != name {
            if k > 0 {
              assert query[k] == query[1..][k - 1];
            }
          }
        }
        rest
      else rest
  }

  /** `query[i]` is the first parameter named `name`. */
  predicate FirstParam(query: seq<(string, string)>, name: string, i: int) {
    0 <= i < |query| && query[i].0 == name && forall k :: 0 <= k < i ==> query[k].0 != name
  }

  /** The scheme prefix, matched case-sensitively and with exactly one space. */
  const BEARER: string := "Bearer "

  /** The token after a `Bearer ` prefix (`authHeader.substring(7)`), if the header has that prefix. */
  function BearerToken(authHeader: Option<string>): (r: Option<string>)
    ensures r.Some? <==> authHeader.Some? && BEARER <= authHeader.value
    ensures r.Some? ==> authHeader.value == BEARER + r.value
  {
    if authHeader.Some? && BEARER <= authHeader.value
    then Some(authHeader.value[|BEARER|..])
    else None
  }

  /** isAuthorized: the four sources are tried in turn and the first that equals
      the configured key authorizes; the result is true exactly when at least one
      source carries the key, the Authorization header in the exact form `Bearer <key>`. */
  function IsAuthorized(req: IncomingRequest, requiredApiKey: string): (r: bool)
    ensures r <==>
      || Header(req, "authorization") == Some(BEARER + requiredApiKey)
      || SearchParam(req.query, "key") == Some(requiredApiKey)
      || Header(req, "x-goog-api-key") == Some(requiredApiKey)
      || Header(req, "x-api-key") == Some(requiredApiKey)
  {
    var authHeader := Header(req, "authorization");
    var queryKey := SearchParam(req.query, "key");
    var googApiKey := Header(req, "x-goog-api-key");
    var claudeApiKey := Header(req, "x-api-key");
    var token := BearerToken(authHeader);
    assert token == Some(requiredApiKey) <==> authHeader == Some(BEARER + requiredApiKey) by {
      if authHeader == Some(BEARER + requiredApiKey) {
        assert BEARER <= authHeader.value;
        assert authHeader.value[|BEARER|..] == requiredApiKey;
      }
    }
    if token.Some? && token.value == requiredApiKey then true
    else if queryKey == Some(requiredApiKey) then true
    else if googApiKey == Some(requiredApiKey) then true
    else if claudeApiKey == Some(requiredApiKey) then true
    else false
  }

  /** The scheme name is matched case-sensitively: a lower-case `bearer` header alone never authorizes. */
  lemma BearerIsCaseSensitive(key: string)
    ensures !IsAuthorized(IncomingRequest(map["authorization" := "bearer " + key], []), key)
  {
    var req := IncomingRequest(map["authorization" := "bearer " + key], []);
    assert Header(req, "authorization") == Some("bearer " + key);
    assert ("bearer " + key)[0] != (BEARER + key)[0];
  }

  /** Only the first `key` query parameter counts: a later matching one does not authorize. */
  lemma FirstQueryKeyCounts(key: string, other: string)
    requires other != key
    ensures !IsAuthorized(IncomingRequest(map[], [("key", other), ("key", key)]), key)
  {
  }
}

/**
 * The browser's API client (frontend/src/api/axiosConfig.jsx): the base URL
 * it is configured with, the request interceptor that attaches the stored
 * token, and the response-error interceptor that ends the session on a 401.
 *
 * The browser's localStorage is a class holding a map from keys to values;
 * the headers object of a request config is a class holding a map that the
 * request interceptor updates in place.
 */
module ApiClient {
  import opened Js

  // ------------------------------------------------------------ base URL

  /** The base used when `REACT_APP_API_BASE` is unset or empty. */
  const DefaultBase := "http://localhost:5001/api"

  predicate EndsWithSlash(s: string) {
    |s| > 0 && s[|s| - 1] == '/'
  }

  /**
   * Where the pattern `\/?$` matches when tried at position `i` of `s`, as
   * the end of the match: the optional slash is tried first (greedily), then
   * without it; either way the end of the input must follow.
   */
  function MatchAt(s: string, i: nat): Option<nat>
    requires i <= |s|
  {
    if i < |s| && s[i] == '/' && i + 1 == |s| then Some(i + 1)
    else if i == |s| then Some(i)
    else None
  }

  /** The leftmost match at or after position `i`, as (start, end). */
  function LeftmostMatch(s: string, i: nat): (m: (nat, nat))
    requires i <= |s|
    ensures i <= m.0 <= m.1 <= |s|
    decreases |s| - i
  {
    match MatchAt(s, i)
    case Some(end) => (i, end)
    case None => LeftmostMatch(s, i + 1)
  }

  /** The leftmost match is the final slash when there is one, else the empty match at the end. */
  lemma {:induction false} LeftmostMatchPosition(s: string, i: nat)
    requires i <= |s|
    ensures LeftmostMatch(s, i) ==
      if EndsWithSlash(s) && i <= |s| - 1 then (|s| - 1, |s|) else (|s|, |s|)
    decreases |s| - i
  {
    if MatchAt(s, i).None? {
      LeftmostMatchPosition(s, i + 1);
    }
  }

  /** `s.replace(/\/?$/, "/")`: the leftmost match of the pattern replaced by one slash. */
  function ReplaceTrailingSlash(s: string): (r: string)
    ensures EndsWithSlash(r)
    ensures EndsWithSlash(s) ==> r == s
    ensures !EndsWithSlash(s) ==> r == s + "/"
  {
    LeftmostMatchPosition(s, 0);
    var m := LeftmostMatch(s, 0);
    s[..m.0] + "/" + s[m.1..]
  }

  /** Normalising the base twice is normalising it once. */
  lemma ReplaceTrailingSlashIdempotent(s: string)
    ensures ReplaceTrailingSlash(ReplaceTrailingSlash(s)) == ReplaceTrailingSlash(s)
  {
  }

  /** `BASE`: the configured base (or the default when unset or empty), with a trailing slash. */
  function ApiBase(configured: Option<string>): (base: string)
    ensures EndsWithSlash(base)
    ensures var raw := if configured.Some? && Truthy(configured.value) then configured.value else DefaultBase;
      && (EndsWithSlash(raw) ==> base == raw)
      && (!EndsWithSlash(raw) ==> base == raw + "/")
  {
    var raw := if configured.Some? && Truthy(configured.value) then configured.value else DefaultBase;
    ReplaceTrailingSlash(raw)
  }

  /** Without a configured base the client talks to the local API. */
  lemma DefaultApiBase()
    ensures ApiBase(None) == "http://localhost:5001/api/"
    ensures ApiBase(Some("")) == "http://localhost:5001/api/"
  {
    assert !EndsWithSlash(DefaultBase);
  }

  // ------------------------------------------------------------- storage

  /** `localStorage.getItem(key)` on the stored items; `None` is `null`. */
  function StoredItem(items: map<string, string>, key: string): Option<string> {
    if key in items then Some(items[key]) else None
  }

  class LocalStorage {
    var items: map<string, string>

    constructor (items: map<string, string>)
      ensures this.items == items
    {
      this.items := items;
    }

    function GetItem(key: string): (r: Option<string>)
      reads this
      ensures r.Some? <==> key in items
      ensures r.Some? ==> r.value == items[key]
    {
      StoredItem(items, key)
    }

    method RemoveItem(key: string)
      modifies this
      ensures items == old(items) - {key}
    {
      items := items - {key};
    }
  }

  // ------------------------------------------------- request interceptor

  const AuthorizationHeader := "Authorization"

  /**
   * The headers after the request interceptor, for the stored `token`: an
   * `Authorization: Bearer <token>` header is set exactly when the token is
   * non-empty; every other header is kept.
   */
  function WithBearer(headers: map<string, string>, token: Option<string>): (r: map<string, string>)
    ensures r.Keys == headers.Keys + (if token.Some? && Truthy(token.value) then {AuthorizationHeader} else {})
    ensures token.Some? && Truthy(token.value) ==> r[AuthorizationHeader] == "Bearer " + token.value
    ensures forall k :: k in headers && (k != AuthorizationHeader || token.None? || !Truthy(token.value))
                        ==> r[k] == headers[k]
  {
    if token.Some? && Truthy(token.value) then headers[AuthorizationHeader := "Bearer " + token.value]
    else headers
  }

  /** The request config the interceptor receives; its headers object is changed in place. */
  class RequestConfig {
    var headers: map<string, string>

    constructor (headers: map<string, string>)
      ensures this.headers == headers
    {
      this.headers := headers;
    }
  }

  /** The request interceptor: attaches the stored token, then hands the same config on. */
  method InterceptRequest(config: RequestConfig, storage: LocalStorage) returns (next: RequestConfig)
    modifies config
    ensures next == config
    ensures config.headers == WithBearer(old(config.headers), storage.GetItem("token"))
  {
    var token := storage.GetItem("token");
    if token.Some? && Truthy(token.value) {
      config.headers := config.headers[AuthorizationHeader := "Bearer " + token.value];
    }
    next := config;
  }

  // ------------------------------------------- response-error interceptor

  const Unauthorized := 401
  const LoginPath := "/login"

  /** A failed request: the status of its response (`None`: no response) and its message. */
  datatype RequestError = RequestError(responseStatus: Option<int>, message: string)

  /** The stored items after a failed request: a 401 ends the session by removing token and user. */
  function SessionAfter(items: map<string, string>, status: Option<int>): (r: map<string, string>)
    ensures status == Some(Unauthorized) ==> r.Keys == items.Keys - {"token", "user"}
    ensures status != Some(Unauthorized) ==> r == items
    ensures forall k :: k in r ==> k in items && r[k] == items[k]
  {
    if status == Some(Unauthorized) then items - {"token", "user"} else items
  }

  /**
   * The response-error interceptor: on a 401 it clears the session and sends
   * the browser to the login page; every error is rejected unchanged.
   */
  method InterceptResponseError(storage: LocalStorage, err: RequestError)
    returns (rejected: RequestError, redirect: Option<string>)
    modifies storage
    ensures rejected == err
    ensures storage.items == SessionAfter(old(storage.items), err.responseStatus)
    ensures redirect == if err.responseStatus == Some(Unauthorized) then Some(LoginPath) else None
  {
    redirect := None;
    if err.responseStatus == Some(Unauthorized) {
      storage.RemoveItem("token");
      storage.RemoveItem("user");
      redirect := Some(LoginPath);
    }
    rejected := err;
  }

  /** After a 401 the next request goes out without a bearer token of its own. */
  lemma NoBearerAfterUnauthorized(items: map<string, string>, headers: map<string, string>)
    ensures StoredItem(SessionAfter(items, Some(Unauthorized)), "token").None?
    ensures WithBearer(headers, StoredItem(SessionAfter(items, Some(Unauthorized)), "token")) == headers
  {
    assert "token" !in SessionAfter(items, Some(Unauthorized));
  }
}

/**
 * Request signing (`sign`): the URL of a call, and for the private API class
 * the signed query string and the API-key header.
 */
module Signer {
  import opened Wrappers
  import opened Base
  import opened Describe
  import Dict

  datatype Credentials = Credentials(apiKey: Option<string>, secret: Option<string>)

  /** What `sign` returns: `{ url, method, body, headers }`. */
  datatype Signed = Signed(url: string, httpMethod: string, body: Json, headers: Json)

  /** `checkRequiredCredentials()`: the API key and the secret are both set and non-empty. */
  predicate HasCredentials(c: Credentials) {
    c.apiKey.Some? && c.apiKey.value != "" && c.secret.Some? && c.secret.value != ""
  }

  const DEFAULT_RECV_WINDOW: int := 5000

  const API_KEY_HEADER: string := "X-MBX-APIKEY"

  /** `safeInteger(options, 'recvWindow', 5000)`. */
  function RecvWindow(env: Env, options: Json): (w: int)
    ensures SafeInteger(env, options, "recvWindow").None? ==> w == DEFAULT_RECV_WINDOW
    ensures SafeInteger(env, options, "recvWindow").Some? ==> w == SafeInteger(env, options, "recvWindow").value
  {
    match SafeInteger(env, options, "recvWindow")
    case Some(w) => w
    case None => DEFAULT_RECV_WINDOW
  }

  /** The parameters of a signed request before encoding: timestamp and receive window, then the caller's. */
  function SignedParams(nonce: int, recvWindow: int, params: Params): Params {
    Dict.Extend([("timestamp", JNum(nonce as real)), ("recvWindow", JNum(recvWindow as real))], params)
  }

  /** The query of a signed request: the encoded parameters followed by the HMAC of exactly that encoding. */
  function SignedQuery(env: Env, nonce: int, recvWindow: int, params: Params, secret: string): string {
    var query := env.urlencodeRepeat(SignedParams(nonce, recvWindow, params));
    query + "&signature=" + env.hmac(query, secret)
  }

  /**
   * The signed parameters start with `timestamp` and `recvWindow`, followed by
   * the caller's other keys in their order; a caller key overrides a value but
   * keeps its position, and every caller value is sent unchanged.
   */
  lemma {:induction false} SignedParamsShape(nonce: int, recvWindow: int, params: Params)
    requires Dict.Distinct(Dict.Keys(params))
    ensures Dict.Keys(SignedParams(nonce, recvWindow, params))
         == ["timestamp", "recvWindow"] + Dict.Without(Dict.Keys(params), ["timestamp", "recvWindow"])
    ensures Dict.Get(SignedParams(nonce, recvWindow, params), "timestamp")
         == if Dict.HasKey(params, "timestamp") then Dict.Get(params, "timestamp") else JNum(nonce as real)
    ensures Dict.Get(SignedParams(nonce, recvWindow, params), "recvWindow")
         == if Dict.HasKey(params, "recvWindow") then Dict.Get(params, "recvWindow") else JNum(recvWindow as real)
    ensures forall k :: Dict.HasKey(params, k) ==> Dict.Get(SignedParams(nonce, recvWindow, params), k) == Dict.Get(params, k)
  {
    var base: Params := [("timestamp", JNum(nonce as real)), ("recvWindow", JNum(recvWindow as real))];
    assert Dict.Keys(base) == ["timestamp", "recvWindow"];
    Dict.ExtendKeys(base, params);
    Dict.ExtendGet(base, params, "timestamp");
    Dict.ExtendGet(base, params, "recvWindow");
    forall k | Dict.HasKey(params, k)
      ensures Dict.Get(SignedParams(nonce, recvWindow, params), k) == Dict.Get(params, k)
    {
      Dict.ExtendGet(base, params, k);
    }
  }

  /** Signing `{ symbol: 'BTCUSDT' }` puts the symbol after the timestamp and the receive window. */
  lemma SignedParamsExample()
    ensures Dict.Keys(SignedParams(1000, DEFAULT_RECV_WINDOW, [("symbol", JStr("BTCUSDT"))]))
         == ["timestamp", "recvWindow", "symbol"]
  {
    var p: Params := [("symbol", JStr("BTCUSDT"))];
    assert Dict.Keys(p) == ["symbol"];
    SignedParamsShape(1000, DEFAULT_RECV_WINDOW, p);
    assert Dict.Without(["symbol"], ["timestamp", "recvWindow"]) == ["symbol"];
  }

  /**
   * `sign(path, api, method, params, headers, body)`; `nonce` is the clock
   * reading `nonce()` returns during the call.
  */
  method Sign(env: Env, creds: Credentials, options: Json, nonce: int, path: string, api: string,
              httpMethod: string, params: Params, headers: Json, body: Json)
    returns (r: Result<Signed>)
    ensures api !in API_URLS ==> r == Failure(NotSupported(api))
    ensures api in API_URLS && api == "signed" && !HasCredentials(creds) ==> r == Failure(AuthenticationError)
    ensures r.Success? <==> api in API_URLS && (api == "signed" ==> HasCredentials(creds))
    ensures r.Success? ==> var prefix := API_URLS[api] + "/" + path;
                           |prefix| <= |r.value.url| && r.value.url[..|prefix|] == prefix
    ensures r.Success? ==> r.value.httpMethod == httpMethod && r.value.body == body
    ensures r.Success? && api == "signed" ==>
              && r.value.url == API_URLS[api] + "/" + path + "?"
                                + SignedQuery(env, nonce, RecvWindow(env, options), params, creds.secret.value)
              && r.value.headers == JObj(map[API_KEY_HEADER := JStr(creds.apiKey.value)])
    ensures r.Success? && api != "signed" ==>
              && r.value.headers == headers
              && r.value.url == API_URLS[api] + "/" + path
                                + (if httpMethod == "GET" && |params| > 0 then "?" + env.urlencode(params) else "")
  {
    if api !in API_URLS {
      return Failure(NotSupported(api));
    }
    var url := API_URLS[api];
    url := url + "/" + path;
    ghost var prefix := url;
    var outHeaders := headers;
    if api == "signed" {
      if !HasCredentials(creds) {
        return Failure(AuthenticationError);
      }
      outHeaders := JObj(map[API_KEY_HEADER := JStr(creds.apiKey.value)]);
      var recvWindow := RecvWindow(env, options);
      var query := env.urlencodeRepeat(Dict.Extend([("timestamp", JNum(nonce as real)),
                                                    ("recvWindow", JNum(recvWindow as real))], params));
      var signature := env.hmac(query, creds.secret.value);
      query := query + "&signature=" + signature;
      url := url + "?" + query;
      assert url == prefix + ("?" + query);
    } else if httpMethod == "GET" {
      if |params| > 0 {
        url := url + "?" + env.urlencode(params);
        assert url == prefix + ("?" + env.urlencode(params));
      }
    }
    assert url[..|prefix|] == prefix;
    return Success(Signed(url, httpMethod, body, outHeaders));
  }
}

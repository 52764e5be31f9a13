/** `Request<T>` (Source/DataProviders/Request.swift): the mutable fluent request builder. Its setters
    change the builder in place and return it; setting the offline policy rebinds the data provider;
    projecting it to a wire request attaches the token of the chosen authentication mode, lets custom
    headers override it, and adds `include=true` to the params when "include all" was asked for. */
module Requests {
  import opened Common
  import opened TagModel

  /** The three data providers `DataProviderManager` offers. */
  datatype DataProvider = Online | OnlineOffline | Offline

  /** The `offlinePolicy` observer: each policy selects exactly one provider. */
  function ProviderFor(p: OfflinePolicy): (d: DataProvider)
    ensures d == Online <==> p == PolicyNone
    ensures d == OnlineOffline <==> p == LoadAndStoreLocalData
    ensures d == Offline <==> p == ReturnLocalDataDontLoad
  {
    match p
    case PolicyNone => Online
    case LoadAndStoreLocalData => OnlineOffline
    case ReturnLocalDataDontLoad => Offline
  }

  /** Two different policies never share a provider. */
  lemma ProviderForIsInjective(p: OfflinePolicy, q: OfflinePolicy)
    ensures ProviderFor(p) == ProviderFor(q) <==> p == q
  {
  }

  /** What `init(router:)` reads of a router case in the revision this file was written against. */
  datatype Endpoint = Endpoint(
    path: string,
    httpMethod: HttpMethod,
    encoding: ParameterEncoding,
    headers: map<string, string>,
    params: Option<map<string, Json>>)

  /** The errors the response methods throw. */
  datatype HaloError = NotImplementedOfflinePolicy | NotImplementedResponseParser

  /** The core manager's `defaultOfflinePolicy` and `dataProvider`, read when a request is created. */
  datatype Defaults = Defaults(offlinePolicy: OfflinePolicy, dataProvider: DataProvider)

  /** `Router.appToken` and `Router.userToken`. */
  datatype Tokens = Tokens(appToken: Option<Token>, userToken: Option<Token>)

  /** The raw payload of an HTTP response. */
  type Bytes = seq<bv8>

  /** What the network collaborator delivers for a started request. */
  datatype Delivery<+V> = Delivery(response: Option<HttpResponse>, result: Result<V>)

  /** What a response method does: throw before anything is sent, start the request and hand the
      completion handler the given delivery, or start it and trap in the completion on a payload that
      is not JSON. */
  datatype Outcome<+V> = Thrown(error: HaloError) | Started(handled: Delivery<V>) | Trapped

  /** The token of the chosen authentication mode. */
  function TokenFor(mode: AuthenticationMode, tokens: Tokens): Option<Token> {
    match mode
    case AppAuth => tokens.appToken
    case UserAuth => tokens.userToken
  }

  /** The keys of a Swift dictionary in the order a `for` loop visits them: each key exactly once. Swift
      leaves that order unspecified, so it is a parameter wherever the source iterates a dictionary. */
  predicate IsOrderOf<V>(order: seq<string>, m: map<string, V>) {
    && (forall k :: k in order ==> k in m)
    && (forall k :: k in m ==> k in order)
    && (forall i, j :: 0 <= i < j < |order| ==> order[i] != order[j])
  }

  /** `for (key, value) in headers { req.setValue(value, forHTTPHeaderField: key) }`, in the given order. */
  function SetFields(fields: map<string, string>, custom: map<string, string>, order: seq<string>): map<string, string>
    requires forall k :: k in order ==> k in custom
  {
    if order == [] then fields
    else
      var last := order[|order| - 1];
      SetHeaderField(SetFields(fields, custom, order[..|order| - 1]), last, custom[last])
  }

  /** Setting the custom headers adds exactly their folded names to the fields. */
  lemma {:induction false} SetFieldsKeys(fields: map<string, string>, custom: map<string, string>, order: seq<string>)
    requires forall k :: k in order ==> k in custom
    ensures SetFields(fields, custom, order).Keys == fields.Keys + (set k | k in order :: Lower(k))
  {
    if order != [] {
      var init := order[..|order| - 1];
      var last := order[|order| - 1];
      SetFieldsKeys(fields, custom, init);
      assert forall k :: k in order <==> k in init || k == last;
      assert (set k | k in order :: Lower(k)) == (set k | k in init :: Lower(k)) + {Lower(last)};
    }
  }

  /** A name no custom header folds to keeps its value. */
  lemma {:induction false} SetFieldsKeepsOthers(fields: map<string, string>, custom: map<string, string>, order: seq<string>, n: string)
    requires forall k :: k in order ==> k in custom
    requires n in fields && forall k :: k in order ==> Lower(k) != n
    ensures n in SetFields(fields, custom, order) && SetFields(fields, custom, order)[n] == fields[n]
  {
    if order != [] {
      SetFieldsKeepsOthers(fields, custom, order[..|order| - 1], n);
    }
  }

  /** A custom header that no later one in the order shares a folded name with is sent with its value. */
  lemma {:induction false} SetFieldsLastWins(fields: map<string, string>, custom: map<string, string>, order: seq<string>, i: nat)
    requires forall k :: k in order ==> k in custom
    requires i < |order| && forall j :: i < j < |order| ==> Lower(order[j]) != Lower(order[i])
    ensures Lower(order[i]) in SetFields(fields, custom, order)
    ensures SetFields(fields, custom, order)[Lower(order[i])] == custom[order[i]]
  {
    var init := order[..|order| - 1];
    if i < |order| - 1 {
      assert forall j :: i < j < |init| ==> init[j] == order[j];
      SetFieldsLastWins(fields, custom, init, i);
    }
  }

  /** A folded name that some custom header has: the value sent under it is that of one such header. */
  lemma {:induction false} SetFieldsPicksACustomValue(fields: map<string, string>, custom: map<string, string>,
                                                      order: seq<string>, n: string)
    requires forall k :: k in order ==> k in custom
    requires exists k :: k in order && Lower(k) == n
    ensures var r := SetFields(fields, custom, order);
      n in r && exists k :: k in order && Lower(k) == n && r[n] == custom[k]
  {
    var init := order[..|order| - 1];
    var last := order[|order| - 1];
    if Lower(last) != n {
      var k :| k in order && Lower(k) == n;
      assert k in init by { assert forall k' :: k' in order <==> k' in init || k' == last; }
      SetFieldsPicksACustomValue(fields, custom, init, n);
      var k' :| k' in init && Lower(k') == n && SetFields(fields, custom, init)[n] == custom[k'];
      assert k' in order;
    }
  }

  /** The header fields of the wire request: the Authorization header first, then every custom header
      in the dictionary's order, each replacing whatever was set under the same folded name. */
  function WireHeaders(mode: AuthenticationMode, tokens: Tokens, custom: map<string, string>, order: seq<string>): map<string, string>
    requires IsOrderOf(order, custom)
  {
    SetFields(TokenHeader(mode, tokens), custom, order)
  }

  /** The Authorization header carries the app token in app mode and the user token in user mode and is
      missing when that token is nil, unless a custom header of any spelling of that name overrides it.
      Every custom header is sent under its folded name; one that no other spelling shares is sent with
      its value, and of several spellings of one name, one of their values is sent. */
  lemma AuthorizationHeaderSpec(mode: AuthenticationMode, tokens: Tokens, custom: map<string, string>, order: seq<string>)
    requires IsOrderOf(order, custom)
    ensures var h := WireHeaders(mode, tokens, custom, order);
      && h.Keys == (set k | k in custom :: Lower(k)) + (if TokenFor(mode, tokens).Some? then {AuthorizationField} else {})
      && (forall k :: SoleSpelling(custom, k) ==> Lower(k) in h && h[Lower(k)] == custom[k])
      && (forall k :: k in custom ==> SomeSpellingSent(h, custom, k))
      && (NoCustomAuthorization(custom) ==>
            && (AuthorizationField in h <==> TokenFor(mode, tokens).Some?)
            && (TokenFor(mode, tokens).Some? ==> h[AuthorizationField] == AuthorizationValue(TokenFor(mode, tokens).value)))
  {
    WireHeadersKeys(mode, tokens, custom, order);
    WireHeadersSoleSpelling(mode, tokens, custom, order);
    WireHeadersSomeSpelling(mode, tokens, custom, order);
    if NoCustomAuthorization(custom) {
      WireHeadersToken(mode, tokens, custom, order);
    }
  }

  /** The fields before the custom headers: the Authorization field when the mode's token exists. */
  function TokenHeader(mode: AuthenticationMode, tokens: Tokens): map<string, string> {
    var token := TokenFor(mode, tokens);
    if token.Some? then map[AuthorizationField := AuthorizationValue(token.value)] else map[]
  }

  /** The fields sent are the folded custom names, plus Authorization when there is a token. */
  lemma WireHeadersKeys(mode: AuthenticationMode, tokens: Tokens, custom: map<string, string>, order: seq<string>)
    requires IsOrderOf(order, custom)
    ensures WireHeaders(mode, tokens, custom, order).Keys
         == (set k | k in custom :: Lower(k)) + (if TokenFor(mode, tokens).Some? then {AuthorizationField} else {})
  {
    SetFieldsKeys(TokenHeader(mode, tokens), custom, order);
    assert (set k | k in order :: Lower(k)) == (set k | k in custom :: Lower(k));
  }

  /** A custom header whose folded name no other custom header shares is sent with its own value. */
  lemma WireHeadersSoleSpelling(mode: AuthenticationMode, tokens: Tokens, custom: map<string, string>, order: seq<string>)
    requires IsOrderOf(order, custom)
    ensures var h := WireHeaders(mode, tokens, custom, order);
      forall k :: SoleSpelling(custom, k) ==> Lower(k) in h && h[Lower(k)] == custom[k]
  {
    forall k | SoleSpelling(custom, k) {
      SoleSpellingAt(TokenHeader(mode, tokens), custom, order, k);
    }
  }

  /** `WireHeadersSoleSpelling` for one header. */
  lemma SoleSpellingAt(fields: map<string, string>, custom: map<string, string>, order: seq<string>, k: string)
    requires IsOrderOf(order, custom)
    requires SoleSpelling(custom, k)
    ensures var r := SetFields(fields, custom, order); Lower(k) in r && r[Lower(k)] == custom[k]
  {
    var i :| 0 <= i < |order| && order[i] == k;
    SetFieldsLastWins(fields, custom, order, i);
  }

  /** `k` is a custom header that no other custom header shares a folded name with. */
  predicate SoleSpelling(custom: map<string, string>, k: string) {
    k in custom && forall k' :: k' in custom && Lower(k') == Lower(k) ==> k' == k
  }

  /** No custom header is an Authorization header in any spelling. */
  predicate NoCustomAuthorization(custom: map<string, string>) {
    forall k :: k in custom ==> Lower(k) != AuthorizationField
  }

  /** The field under `k`'s folded name carries the value of some custom header of that folded name. */
  predicate SomeSpellingSent(h: map<string, string>, custom: map<string, string>, k: string) {
    Lower(k) in h && exists k' :: k' in custom && Lower(k') == Lower(k) && h[Lower(k)] == custom[k']
  }

  /** Every custom header's folded name carries the value of one of its spellings. */
  lemma WireHeadersSomeSpelling(mode: AuthenticationMode, tokens: Tokens, custom: map<string, string>, order: seq<string>)
    requires IsOrderOf(order, custom)
    ensures forall k :: k in custom ==> SomeSpellingSent(WireHeaders(mode, tokens, custom, order), custom, k)
  {
    forall k | k in custom {
      SomeSpellingAt(mode, tokens, custom, order, k);
    }
  }

  /** `WireHeadersSomeSpelling` for one header. */
  lemma SomeSpellingAt(mode: AuthenticationMode, tokens: Tokens, custom: map<string, string>, order: seq<string>, k: string)
    requires IsOrderOf(order, custom)
    requires k in custom
    ensures SomeSpellingSent(WireHeaders(mode, tokens, custom, order), custom, k)
  {
    assert k in order;
    var fields := TokenHeader(mode, tokens);
    SetFieldsPicksACustomValue(fields, custom, order, Lower(k));
    var k' :| k' in order && Lower(k') == Lower(k) && SetFields(fields, custom, order)[Lower(k)] == custom[k'];
    assert k' in custom;
  }

  /** Without a custom Authorization header, that field is present exactly when the mode's token is, and carries it. */
  lemma WireHeadersToken(mode: AuthenticationMode, tokens: Tokens, custom: map<string, string>, order: seq<string>)
    requires IsOrderOf(order, custom)
    requires NoCustomAuthorization(custom)
    ensures var h := WireHeaders(mode, tokens, custom, order);
      && (AuthorizationField in h <==> TokenFor(mode, tokens).Some?)
      && (TokenFor(mode, tokens).Some? ==> h[AuthorizationField] == AuthorizationValue(TokenFor(mode, tokens).value))
  {
    SetFieldsKeys(TokenHeader(mode, tokens), custom, order);
    if TokenFor(mode, tokens).Some? {
      SetFieldsKeepsOthers(TokenHeader(mode, tokens), custom, order, AuthorizationField);
    }
  }

  /** A custom header named Authorization in any case (`AuthorizationFieldIsFolded` gives one spelling)
      replaces the token's header. */
  lemma CustomAuthorizationWins(mode: AuthenticationMode, tokens: Tokens, name: string, value: string)
    requires Lower(name) == AuthorizationField
    ensures WireHeaders(mode, tokens, map[name := value], [name]) == map[AuthorizationField := value]
  {
    var t := TokenHeader(mode, tokens);
    assert t.Keys <= {Lower(name)};
    SetFieldsSingle(t, map[name := value], name);
    SetOnlyField(t, name, value);
  }

  /** Setting a field over fields that hold at most that one name leaves only it. */
  lemma SetOnlyField(fields: map<string, string>, name: string, value: string)
    requires fields.Keys <= {Lower(name)}
    ensures SetHeaderField(fields, name, value) == map[Lower(name) := value]
  {
  }

  /** Setting the custom headers in a one-element order sets that one field. */
  lemma SetFieldsSingle(fields: map<string, string>, custom: map<string, string>, k: string)
    requires k in custom
    ensures SetFields(fields, custom, [k]) == SetHeaderField(fields, k, custom[k])
  {
    assert [k][..0] == [];
  }

  /** The params once "include all" has been applied. */
  function WithInclude(params: map<string, Json>, includeAll: bool): map<string, Json> {
    if includeAll then params["include" := JBool(true)] else params
  }

  /** Projecting twice injects nothing more than projecting once. */
  lemma WithIncludeIdempotent(params: map<string, Json>, includeAll: bool)
    ensures WithInclude(WithInclude(params, includeAll), includeAll) == WithInclude(params, includeAll)
  {
  }

  /** The wire request the builder projects to, its headers visited in `order`. */
  function WireOf(url: Url, m: HttpMethod, encoding: ParameterEncoding, mode: AuthenticationMode,
                  headers: map<string, string>, order: seq<string>, params: map<string, Json>, includeAll: bool,
                  tokens: Tokens): WireRequest
    requires IsOrderOf(order, headers)
  {
    WireRequest(url, m, WireHeaders(mode, tokens, headers, order), Encoded(encoding, WithInclude(params, includeAll)))
  }

  /** What the encoded URL and the encoded body are computed from: everything but the header fields. */
  datatype Fingerprint = Fingerprint(url: Url, httpMethod: HttpMethod, payload: Payload)

  function FingerprintOf(w: WireRequest): Fingerprint {
    Fingerprint(w.url, w.httpMethod, w.payload)
  }

  /** Swift's `Int` on a 64-bit platform. */
  const IntMin: int := -0x8000_0000_0000_0000
  const IntMax: int := 0x7fff_ffff_ffff_ffff
  type Int64 = x: int | IntMin <= x <= IntMax

  /** `hash()`: the hash of the encoded body plus the hash of the encoded URL. Both hashes belong to
      Foundation and are parameters here; they are 64-bit `Int`s, and a missing body or URL hashes to 0
      inside them. Swift's `+` traps when the sum leaves the `Int` range, which is the None outcome. */
  function RequestHash(w: WireRequest, bodyHash: Fingerprint -> Int64, urlHash: Fingerprint -> Int64): (r: Option<int>)
    ensures r.None? <==> !(IntMin <= bodyHash(FingerprintOf(w)) + urlHash(FingerprintOf(w)) <= IntMax)
    ensures r.Some? ==> IntMin <= r.value <= IntMax && r.value - urlHash(FingerprintOf(w)) == bodyHash(FingerprintOf(w))
  {
    var sum := bodyHash(FingerprintOf(w)) + urlHash(FingerprintOf(w));
    if IntMin <= sum <= IntMax then Some(sum) else None
  }

  /** Two large hashes overflow the sum: any request whose body and URL both hash to `Int.max` traps,
      and so does one with a body hash of `Int.max` and a URL hash of 1. */
  lemma HashCanTrap(w: WireRequest)
    ensures RequestHash(w, f => IntMax, f => 1).None?
    ensures RequestHash(w, f => IntMin, f => -1).None?
    ensures RequestHash(w, f => IntMax, f => IntMin) == Some(-1)
  {
  }

  /** A request without a body (body hash 0), or whose two hashes have opposite signs, never traps. */
  lemma HashTrapsOnlyOnSameSigns(w: WireRequest, bodyHash: Fingerprint -> Int64, urlHash: Fingerprint -> Int64)
    ensures RequestHash(w, bodyHash, urlHash).None? ==>
              (bodyHash(FingerprintOf(w)) > 0 && urlHash(FingerprintOf(w)) > 0)
              || (bodyHash(FingerprintOf(w)) < 0 && urlHash(FingerprintOf(w)) < 0)
  {
  }

  /** The hash ignores header fields, authentication mode and tokens: two builders that agree on URL,
      method, encoding and params hash alike. This holds by construction: `hash` feeds only the body and
      the URL of the projected request to Foundation's hashes, and `FingerprintOf` reads nothing else,
      so the lemma records a design fact of the source rather than a computed behaviour. */
  lemma HashIgnoresHeadersAndAuth(url: Url, m: HttpMethod, encoding: ParameterEncoding, params: map<string, Json>, includeAll: bool,
                                  mode1: AuthenticationMode, headers1: map<string, string>, order1: seq<string>, tokens1: Tokens,
                                  mode2: AuthenticationMode, headers2: map<string, string>, order2: seq<string>, tokens2: Tokens,
                                  bodyHash: Fingerprint -> Int64, urlHash: Fingerprint -> Int64)
    requires IsOrderOf(order1, headers1) && IsOrderOf(order2, headers2)
    ensures RequestHash(WireOf(url, m, encoding, mode1, headers1, order1, params, includeAll, tokens1), bodyHash, urlHash)
         == RequestHash(WireOf(url, m, encoding, mode2, headers2, order2, params, includeAll, tokens2), bodyHash, urlHash)
  {
  }

  /** `response`: a payload goes through `try! JSONSerialization.jsonObject` (`parseJson`, None when the
      payload is not JSON), so it is delivered parsed and not cached, or traps (None here); a failure
      passes through. */
  function JsonResult(r: Result<Bytes>, parseJson: Bytes -> Option<Json>): (j: Option<Result<Json>>)
    ensures j.None? <==> r.Success? && parseJson(r.value).None?
    ensures j.Some? ==> (j.value.Success? <==> r.Success?)
    ensures j.Some? && j.value.Success? ==> j.value.value == parseJson(r.value).value && !j.value.cached
    ensures j.Some? && j.value.Failure? ==> j.value.error == r.error
  {
    match r
    case Success(data, _) => if parseJson(data).Some? then Some(Success(parseJson(data).value, false)) else None
    case Failure(e) => Some(Failure(e))
  }

  /** `responseObject`: the parsed JSON goes through the response parser and is delivered as not cached. */
  function ParsedResult<T>(r: Result<Json>, parser: Json -> Option<T>): (p: Result<Option<T>>)
    ensures p.Success? <==> r.Success?
    ensures p.Success? ==> p.value == parser(r.value) && !p.cached
    ensures p.Failure? ==> p.error == r.error
  {
    match r
    case Success(json, _) => Success(parser(json), false)
    case Failure(e) => Failure(e)
  }

  /** Every field of a builder, to say in one place what a setter leaves alone. */
  datatype Snapshot<T> = Snapshot(
    url: Url,
    includeAll: bool,
    httpMethod: HttpMethod,
    parameterEncoding: ParameterEncoding,
    headers: map<string, string>,
    params: map<string, Json>,
    responseParser: Option<Json -> Option<T>>,
    authenticationMode: AuthenticationMode,
    offlinePolicy: OfflinePolicy,
    numberOfRetries: Option<int>,
    dataProvider: DataProvider)

  class Request<T> {
    var url: Url
    var includeAll: bool
    var httpMethod: HttpMethod
    var parameterEncoding: ParameterEncoding
    var headers: map<string, string>
    var params: map<string, Json>
    var responseParser: Option<Json -> Option<T>>
    var authenticationMode: AuthenticationMode
    var offlinePolicy: OfflinePolicy
    var numberOfRetries: Option<int>
    var dataProvider: DataProvider

    ghost function State(): Snapshot<T>
      reads this
    {
      Snapshot(url, includeAll, httpMethod, parameterEncoding, headers, params, responseParser,
             authenticationMode, offlinePolicy, numberOfRetries, dataProvider)
    }

    /** `init(path:relativeToURL:)`: GET, URL encoding, app authentication, no headers, params, retries
        or parser. The policy and the provider are the core manager's defaults; the policy observer
        does not run during initialisation, so the provider is the manager's and not derived from the
        policy. */
    constructor (path: string, relativeTo: Option<string>, defaults: Defaults)
      ensures State() == Snapshot(Url(path, relativeTo), false, GET, URL, map[], map[], None, AppAuth,
                                defaults.offlinePolicy, None, defaults.dataProvider)
    {
      url := Url(path, relativeTo);
      includeAll := false;
      httpMethod := GET;
      parameterEncoding := URL;
      headers := map[];
      params := map[];
      responseParser := None;
      authenticationMode := AppAuth;
      offlinePolicy := defaults.offlinePolicy;
      numberOfRetries := None;
      dataProvider := defaults.dataProvider;
    }

    /** `init(router:)`: URL, method, encoding, headers and params come from the router case. */
    constructor FromRouter(endpoint: Endpoint, baseURL: string, defaults: Defaults)
      ensures State() == Snapshot(Url(endpoint.path, Some(baseURL)), false, endpoint.httpMethod, endpoint.encoding,
                                endpoint.headers, if endpoint.params.Some? then endpoint.params.value else map[],
                                None, AppAuth, defaults.offlinePolicy, None, defaults.dataProvider)
    {
      url := Url(endpoint.path, Some(baseURL));
      includeAll := false;
      httpMethod := endpoint.httpMethod;
      parameterEncoding := endpoint.encoding;
      headers := endpoint.headers;
      params := map[];
      responseParser := None;
      authenticationMode := AppAuth;
      offlinePolicy := defaults.offlinePolicy;
      numberOfRetries := None;
      dataProvider := defaults.dataProvider;
      new;
      if endpoint.params.Some? {
        var _ := Params(endpoint.params.value);
      }
    }

    method SetResponseParser(parser: Json -> Option<T>) returns (r: Request<T>)
      modifies this
      ensures r == this
      ensures State() == old(State()).(responseParser := Some(parser))
    {
      responseParser := Some(parser);
      r := this;
    }

    /** `offlinePolicy(policy:)`: the observer rebinds the data provider to the one the policy selects. */
    method SetOfflinePolicy(policy: OfflinePolicy) returns (r: Request<T>)
      modifies this
      ensures r == this
      ensures State() == old(State()).(offlinePolicy := policy, dataProvider := ProviderFor(policy))
    {
      offlinePolicy := policy;
      match offlinePolicy {
        case PolicyNone => dataProvider := Online;
        case LoadAndStoreLocalData => dataProvider := OnlineOffline;
        case ReturnLocalDataDontLoad => dataProvider := Offline;
      }
      r := this;
    }

    method SetNumberOfRetries(retries: int) returns (r: Request<T>)
      modifies this
      ensures r == this
      ensures State() == old(State()).(numberOfRetries := Some(retries))
    {
      numberOfRetries := Some(retries);
      r := this;
    }

    method SetMethod(m: HttpMethod) returns (r: Request<T>)
      modifies this
      ensures r == this
      ensures State() == old(State()).(httpMethod := m)
    {
      httpMethod := m;
      r := this;
    }

    method SetAuthenticationMode(mode: AuthenticationMode) returns (r: Request<T>)
      modifies this
      ensures r == this
      ensures State() == old(State()).(authenticationMode := mode)
    {
      authenticationMode := mode;
      r := this;
    }

    method SetParameterEncoding(encoding: ParameterEncoding) returns (r: Request<T>)
      modifies this
      ensures r == this
      ensures State() == old(State()).(parameterEncoding := encoding)
    {
      parameterEncoding := encoding;
      r := this;
    }

    method AddHeader(field: string, value: string) returns (r: Request<T>)
      modifies this
      ensures r == this
      ensures State() == old(State()).(headers := old(headers)[field := value])
    {
      headers := headers[field := value];
      r := this;
    }

    /** `addHeaders(headers:)`: `addHeader` once per pair, so the result is the old headers overridden by
        the new ones and nothing else changes. */
    method AddHeaders(hs: map<string, string>) returns (r: Request<T>)
      modifies this
      ensures r == this
      ensures State() == old(State()).(headers := old(headers) + hs)
    {
      var todo := hs.Keys;
      while todo != {}
        invariant todo <= hs.Keys
        invariant State() == old(State()).(headers := old(headers) + (hs - todo))
        decreases todo
      {
        var k :| k in todo;
        var _ := AddHeader(k, hs[k]);
        todo := todo - {k};
      }
      r := this;
    }

    /** `params(params:)`: last write wins per key; keys not mentioned keep their values. */
    method Params(ps: map<string, Json>) returns (r: Request<T>)
      modifies this
      ensures r == this
      ensures State() == old(State()).(params := old(params) + ps)
    {
      var todo := ps.Keys;
      while todo != {}
        invariant todo <= ps.Keys
        invariant State() == old(State()).(params := old(params) + (ps - todo))
        decreases todo
      {
        var k :| k in todo;
        params := params[k := ps[k]];
        todo := todo - {k};
      }
      r := this;
    }

    method IncludeAll() returns (r: Request<T>)
      modifies this
      ensures r == this
      ensures State() == old(State()).(includeAll := true)
    {
      includeAll := true;
      r := this;
    }

    /** `paginate(page:limit:)`: exactly `page` and `limit` are set. */
    method Paginate(page: int, limit: int) returns (r: Request<T>)
      modifies this
      ensures r == this
      ensures State() == old(State()).(params := old(params)["page" := JNumber(page)]["limit" := JNumber(limit)])
    {
      params := params["page" := JNumber(page)];
      params := params["limit" := JNumber(limit)];
      r := this;
    }

    method SkipPagination() returns (r: Request<T>)
      modifies this
      ensures r == this
      ensures State() == old(State()).(params := old(params)["skip" := JString("true")])
    {
      params := params["skip" := JString("true")];
      r := this;
    }

    method Fields(fields: seq<string>) returns (r: Request<T>)
      modifies this
      ensures r == this
      ensures State() == old(State()).(params := old(params)["fields" := Strings(fields)])
    {
      params := params["fields" := Strings(fields)];
      r := this;
    }

    /** `tags(tags:)`: every tag's dictionary is serialised to JSON text (`encodeJson`, a Foundation
        collaborator) and written to the same key, so only the last tag survives. */
    method Tags(tags: seq<Tag>, encodeJson: map<string, Json> -> string) returns (r: Request<T>)
      modifies this
      ensures r == this
      ensures State() == old(State()).(params :=
        if tags == [] then old(params) else old(params)["filter[tags][]" := JString(encodeJson(ToDictionary(tags[|tags| - 1])))])
    {
      var i := 0;
      while i < |tags|
        invariant 0 <= i <= |tags|
        invariant State() == old(State()).(params :=
          if i == 0 then old(params) else old(params)["filter[tags][]" := JString(encodeJson(ToDictionary(tags[i - 1])))])
      {
        params := params["filter[tags][]" := JString(encodeJson(ToDictionary(tags[i])))];
        i := i + 1;
      }
      r := this;
    }

    /** The wire request this builder stands for, under the router's current tokens, with `order` the
        order in which the headers dictionary is visited. */
    function Projection(tokens: Tokens, order: seq<string>): WireRequest
      reads this
      requires IsOrderOf(order, headers)
    {
      WireOf(url, httpMethod, parameterEncoding, authenticationMode, headers, order, params, includeAll, tokens)
    }

    /** `URLRequest`: builds the wire request; as a side effect `include` is written into the params when
        "include all" was asked for, which does not change the projection. */
    method URLRequest(tokens: Tokens, order: seq<string>) returns (w: WireRequest)
      requires IsOrderOf(order, headers)
      modifies this`params
      ensures params == WithInclude(old(params), includeAll)
      ensures w == Projection(tokens, order) == old(Projection(tokens, order))
    {
      var token := TokenFor(authenticationMode, tokens);
      var fields: map<string, string> := map[];
      if token.Some? {
        fields := fields[AuthorizationField := AuthorizationValue(token.value)];
      }
      fields := SetCustomHeaders(fields, order);
      if includeAll {
        params := params["include" := JBool(true)];
      }
      WithIncludeIdempotent(old(params), includeAll);
      w := WireRequest(url, httpMethod, fields, Encoded(parameterEncoding, params));
    }

    /** The loop of `URLRequest` over the custom headers, in the dictionary's order. */
    method SetCustomHeaders(fields: map<string, string>, order: seq<string>) returns (r: map<string, string>)
      requires IsOrderOf(order, headers)
      ensures r == SetFields(fields, headers, order)
    {
      r := fields;
      var i := 0;
      while i < |order|
        invariant 0 <= i <= |order|
        invariant r == SetFields(fields, headers, order[..i])
      {
        assert order[..i + 1][..i] == order[..i];
        r := SetHeaderField(r, order[i], headers[order[i]]);
        i := i + 1;
      }
      assert order[..|order|] == order;
    }

    /** `hash()`: projects the request twice (once for the body, once for the URL). */
    method Hash(tokens: Tokens, order: seq<string>, bodyHash: Fingerprint -> Int64, urlHash: Fingerprint -> Int64)
      returns (h: Option<int>)
      requires IsOrderOf(order, headers)
      modifies this`params
      ensures params == WithInclude(old(params), includeAll)
      ensures h == RequestHash(old(Projection(tokens, order)), bodyHash, urlHash)
      ensures h.None? <==> !(IntMin <= bodyHash(FingerprintOf(old(Projection(tokens, order))))
                                       + urlHash(FingerprintOf(old(Projection(tokens, order)))) <= IntMax)
    {
      var forBody := URLRequest(tokens, order);
      var forUrl := URLRequest(tokens, order);
      var sum := bodyHash(FingerprintOf(forBody)) + urlHash(FingerprintOf(forUrl));
      if IntMin <= sum <= IntMax {
        h := Some(sum);
      } else {
        h := None;
      }
    }

    /** `responseData`: only the network-only policy is implemented; any other policy throws and
        nothing is sent. */
    method ResponseData(delivered: Delivery<Bytes>) returns (o: Outcome<Bytes>)
      ensures o.Thrown? <==> offlinePolicy != PolicyNone
      ensures o.Thrown? ==> o.error == NotImplementedOfflinePolicy
      ensures !o.Trapped? && (o.Started? ==> o.handled == delivered)
    {
      match offlinePolicy {
        case PolicyNone => o := Started(delivered);
        case _ => o := Thrown(NotImplementedOfflinePolicy);
      }
    }

    /** `response`: `responseData` with the payload parsed as JSON and the cached flag dropped; a
        payload that is not JSON traps. */
    method Response(delivered: Delivery<Bytes>, parseJson: Bytes -> Option<Json>) returns (o: Outcome<Json>)
      ensures o.Thrown? <==> offlinePolicy != PolicyNone
      ensures o.Thrown? ==> o.error == NotImplementedOfflinePolicy
      ensures o.Trapped? <==> offlinePolicy == PolicyNone && JsonResult(delivered.result, parseJson).None?
      ensures o.Started? ==> o.handled == Delivery(delivered.response, JsonResult(delivered.result, parseJson).value)
    {
      var raw := ResponseData(delivered);
      match raw {
        case Thrown(e) => o := Thrown(e);
        case Started(d) =>
          var parsed := JsonResult(d.result, parseJson);
          if parsed.Some? {
            o := Started(Delivery(d.response, parsed.value));
          } else {
            o := Trapped;
          }
      }
    }

    /** `responseObject`: without a parser it throws before any request is made, whatever the policy;
        otherwise it is `response` with the JSON passed through the parser. */
    method ResponseObject(delivered: Delivery<Bytes>, parseJson: Bytes -> Option<Json>) returns (o: Outcome<Option<T>>)
      ensures responseParser.None? ==> o == Thrown(NotImplementedResponseParser)
      ensures responseParser.Some? ==> (o.Thrown? <==> offlinePolicy != PolicyNone)
      ensures responseParser.Some? && o.Thrown? ==> o.error == NotImplementedOfflinePolicy
      ensures responseParser.Some? ==>
        (o.Trapped? <==> offlinePolicy == PolicyNone && JsonResult(delivered.result, parseJson).None?)
      ensures responseParser.Some? && o.Started? ==>
        o.handled == Delivery(delivered.response, ParsedResult(JsonResult(delivered.result, parseJson).value, responseParser.value))
    {
      if responseParser.None? {
        return Thrown(NotImplementedResponseParser);
      }
      var parser := responseParser.value;
      var json := Response(delivered, parseJson);
      match json {
        case Thrown(e) => o := Thrown(e);
        case Started(d) => o := Started(Delivery(d.response, ParsedResult(d.result, parser)));
        case Trapped => o := Trapped;
      }
    }
  }
}

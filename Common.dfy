/** Datatypes shared by the whole model of the Halo SDK: optional values, JSON-like values standing for
    the SDK's `[String: AnyObject]` dictionaries, the typed result of a request, HTTP methods, offline
    policies, authentication modes, tokens and the wire-level description of a request. */
module Common {

  datatype Option<+T> = None | Some(value: T)

  /** A JSON-like value: what the SDK keeps in `AnyObject` slots of its dictionaries.
      Numbers are integers here; floating-point numbers are not part of this model. */
  datatype Json =
    | JNull
    | JBool(b: bool)
    | JNumber(n: int)
    | JString(s: string)
    | JArray(items: seq<Json>)
    | JObject(fields: map<string, Json>)

  /** `NSError` as the SDK builds it: a domain, a code and a localized description. */
  datatype Error = Error(domain: string, code: int, description: string)

  /** `Halo.Result`: a value together with the "served from cache" flag, or an error. No other states. */
  datatype Result<+T> = Success(value: T, cached: bool) | Failure(error: Error)

  /** `Halo.Method`. */
  datatype HttpMethod = OPTIONS | GET | HEAD | POST | PUT | PATCH | DELETE | TRACE | CONNECT

  /** `OfflinePolicy`; `PolicyNone` is the source's `.none` (network only). */
  datatype OfflinePolicy = PolicyNone | LoadAndStoreLocalData | ReturnLocalDataDontLoad

  /** `AuthenticationMode`: `.app` and `.user`. */
  datatype AuthenticationMode = AppAuth | UserAuth

  /** `ParameterEncoding`: how the params of a request are put on the wire. */
  datatype ParameterEncoding = URL | JSON

  /** An OAuth token: the Authorization header carries `<tokenType> <token>`, the credentials form of
      section 4.2 of RFC 7235. */
  datatype Token = Token(tokenType: string, token: string)

  /** A locale; only its `description` is ever sent. */
  datatype Locale = Locale(description: string)

  /** `URL(string: path, relativeTo: base)`. Resolving the path against the base is not modelled:
      the URL is the pair itself. */
  datatype Url = Url(path: string, base: Option<string>)

  /** What the parameter encoding step receives: no params at all, or params with the encoding to use. */
  datatype Payload = Unencoded | Encoded(encoding: ParameterEncoding, params: map<string, Json>)

  /** A request as handed to the transport: URL, method, header fields and the payload to encode. */
  datatype WireRequest = WireRequest(url: Url, httpMethod: HttpMethod, headers: map<string, string>, payload: Payload)

  /** `setValue(_:forHTTPHeaderField:)` of `NSMutableURLRequest`: header field names are compared without
      regard to case, so a request's fields are kept under their lower-cased names, and setting a field
      replaces the value set under any spelling of the same name. */
  function SetHeaderField(fields: map<string, string>, name: string, value: string): (r: map<string, string>)
    ensures r.Keys == fields.Keys + {Lower(name)}
    ensures r[Lower(name)] == value
    ensures forall n :: n in fields && n != Lower(name) ==> r[n] == fields[n]
  {
    fields[Lower(name) := value]
  }

  /** The folded name of the Authorization header: setting "Authorization" puts the value under it
      (`AuthorizationFolds`). */
  const AuthorizationField := "authorization"

  /** The name the source sets the Authorization header under folds to that field. */
  lemma AuthorizationFolds()
    ensures Lower("Authorization") == AuthorizationField
  {
    LowerIs("Authorization", AuthorizationField);
  }

  /** The field name is already folded. */
  lemma AuthorizationFieldIsFolded()
    ensures Lower(AuthorizationField) == AuthorizationField
  {
    LowerIs(AuthorizationField, AuthorizationField);
  }

  lemma LowerIs(s: string, t: string)
    requires |s| == |t| && forall i :: 0 <= i < |s| ==> LowerChar(s[i]) == t[i]
    ensures Lower(s) == t
  {
  }

  /** An HTTP response as far as the SDK looks at it. */
  datatype HttpResponse = HttpResponse(statusCode: int)

  /** The value of the Authorization header for a token. */
  function AuthorizationValue(t: Token): (v: string)
    ensures |v| == |t.tokenType| + 1 + |t.token|
    ensures v[..|t.tokenType|] == t.tokenType && v[|t.tokenType|] == ' ' && v[|t.tokenType| + 1..] == t.token
  {
    t.tokenType + " " + t.token
  }

  /** `dict[key] as? String`. */
  function StringAt(dict: map<string, Json>, key: string): (r: Option<string>)
    ensures r.Some? <==> key in dict && dict[key].JString?
    ensures r.Some? ==> dict[key] == JString(r.value)
  {
    if key in dict && dict[key].JString? then Some(dict[key].s) else None
  }

  /** `dict[key] as? Bool` under Swift 2's Foundation bridging: a boolean reads as itself, and any number
      reads as a boolean too, true exactly when it is not zero. */
  function BoolAt(dict: map<string, Json>, key: string): (r: Option<bool>)
    ensures r.Some? <==> key in dict && (dict[key].JBool? || dict[key].JNumber?)
    ensures key in dict && dict[key].JBool? ==> r == Some(dict[key].b)
    ensures key in dict && dict[key].JNumber? ==> r == Some(dict[key].n != 0)
  {
    if key !in dict then None
    else match dict[key]
      case JBool(b) => Some(b)
      case JNumber(n) => Some(n != 0)
      case _ => None
  }

  /** A list of strings as a JSON array. */
  function Strings(ss: seq<string>): (j: Json)
    ensures j.JArray? && |j.items| == |ss|
    ensures forall i :: 0 <= i < |ss| ==> j.items[i] == JString(ss[i])
  {
    JArray(seq(|ss|, i requires 0 <= i < |ss| => JString(ss[i])))
  }

  /** Lower-cases the ASCII letters of a string and leaves every other character as it is. */
  function Lower(s: string): (r: string)
    ensures |r| == |s|
    ensures forall i :: 0 <= i < |s| ==> r[i] == LowerChar(s[i])
  {
    if s == [] then [] else [LowerChar(s[0])] + Lower(s[1..])
  }

  function LowerChar(c: char): char {
    if 'A' <= c <= 'Z' then (c as int - 'A' as int + 'a' as int) as char else c
  }

  /** The decimal digits of a natural number, as Swift's string interpolation writes it. */
  function NatToString(n: nat): (s: string)
    ensures |s| > 0
    ensures forall i :: 0 <= i < |s| ==> '0' <= s[i] <= '9'
    decreases n
  {
    if n < 10 then [Digit(n)] else NatToString(n / 10) + [Digit(n % 10)]
  }

  function Digit(d: nat): (c: char)
    requires d < 10
    ensures '0' <= c <= '9'
  {
    "0123456789"[d]
  }

  /** Two dictionaries that agree away from one key, where the first holds `v`, differ only by that
      update. */
  lemma UpdatedAt<K, V>(after: map<K, V>, before: map<K, V>, key: K, v: V)
    requires key in after && after[key] == v
    requires forall k :: k != key ==> (k in after <==> k in before)
    requires forall k :: k != key && k in after ==> after[k] == before[k]
    ensures after == before[key := v]
  {
    assert after.Keys == before[key := v].Keys;
  }

  lemma OnlyKey<K, V>(m: map<K, V>, key: K, v: V)
    requires key in m && m[key] == v
    requires forall k :: k != key ==> k !in m
    ensures m == map[key := v]
  {
    assert m.Keys == {key};
  }
}

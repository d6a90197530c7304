/** What the Expo client's screens share: JavaScript values and their
    truthiness, the outcome of an axios request, the navigation and request
    actions a handler takes, the token store, and the request interceptor
    that attaches the stored token. */
module Client {
  import opened Common

  /** A JSON-like JavaScript value. */
  datatype JsValue =
    | Undefined
    | Null
    | Bool(b: bool)
    | Num(n: real)
    | Str(s: string)
    | Arr(items: seq<JsValue>)
    | Obj(fields: map<string, JsValue>)

  /** JavaScript truthiness (NaN is not a value of this model). */
  predicate Truthy(v: JsValue) {
    match v
    case Undefined => false
    case Null => false
    case Bool(b) => b
    case Num(n) => n != 0.0
    case Str(s) => s != ""
    case Arr(_) => true
    case Obj(_) => true
  }

  /** `v[key]`: None when reading a property of undefined or null throws a
      TypeError; a missing property, or one of a non-object, is undefined. */
  function Get(v: JsValue, key: string): (r: Option<JsValue>)
    ensures r.None? <==> v.Undefined? || v.Null?
    ensures v.Obj? ==> r == Some(if key in v.fields then v.fields[key] else Undefined)
  {
    match v
    case Undefined => None
    case Null => None
    case Obj(fields) => Some(if key in fields then fields[key] else Undefined)
    case _ => Some(Undefined)
  }

  /** `a[i]` on an array: undefined past its end. */
  function At(a: seq<JsValue>, i: nat): (r: JsValue)
    ensures i < |a| ==> r == a[i]
    ensures i >= |a| ==> r == Undefined
  {
    if i < |a| then a[i] else Undefined
  }

  /** How an axios call ends: a 2xx reply with its body, an error carrying the
      reply's status, or an error with no reply at all. */
  datatype ApiReply = Response(data: JsValue) | ErrorResponse(status: int) | NoResponse

  /** What a rejected promise carries, as far as the handlers look at it. */
  datatype ClientError = HttpError(status: int) | NetworkError | TypeError

  /** The error an axios call that failed rejects with. */
  function ErrorOf(reply: ApiReply): (e: ClientError)
    requires !reply.Response?
    ensures reply.ErrorResponse? ==> e == HttpError(reply.status)
    ensures reply.NoResponse? ==> e == NetworkError
  {
    if reply.ErrorResponse? then HttpError(reply.status) else NetworkError
  }

  /** The side effects of a handler, in order. */
  datatype Action = Post(path: string) | Navigate(route: string)

  /** A character outside the Basic Multilingual Plane, which UTF-16 stores
      as a surrogate pair. */
  predicate Astral(c: char) {
    c as int > 0xFFFF
  }

  /** `s.length`: JavaScript counts UTF-16 code units, so an astral character
      counts twice. */
  function JsLength(s: string): (n: nat)
    ensures |s| <= n <= 2 * |s|
    ensures n == |s| <==> forall i :: 0 <= i < |s| ==> !Astral(s[i])
    decreases |s|
  {
    if s == [] then 0
    else
      assert forall i :: 0 < i < |s| ==> s[i] == s[1..][i - 1];
      (if Astral(s[0]) then 2 else 1) + JsLength(s[1..])
  }

  const AuthRoute: string := "/Auth"
  const HomeRoute: string := "/Home"
  const TripsRoute: string := "/Trips"
  const ConfirmRoute: string := "/Confirm"

  /** AsyncStorage.getItem('token') is truthy: a stored, non-empty string. */
  predicate TokenTruthy(token: Option<string>) {
    token.Some? && token.value != ""
  }

  const AuthorizationHeader: string := "Authorization"

  /** The headers after the interceptor: `Authorization: Bearer <token>` when
      a token is stored, every other header as it was. */
  function WithAuth(headers: map<string, string>, token: Option<string>): (h: map<string, string>)
    ensures TokenTruthy(token) ==> AuthorizationHeader in h && h[AuthorizationHeader] == "Bearer " + token.value
    ensures forall k :: k != AuthorizationHeader ==> (k in h <==> k in headers)
    ensures forall k :: k != AuthorizationHeader && k in h ==> h[k] == headers[k]
    ensures !TokenTruthy(token) ==> h == headers
  {
    if TokenTruthy(token) then headers[AuthorizationHeader := "Bearer " + token.value] else headers
  }

  /** Running the interceptor again on its own output changes nothing. */
  lemma WithAuthIdempotent(headers: map<string, string>, token: Option<string>)
    ensures WithAuth(WithAuth(headers, token), token) == WithAuth(headers, token)
  {
  }

  /** The request configuration the interceptor edits in place. */
  class RequestConfig {
    var headers: map<string, string>

    constructor (headers0: map<string, string>)
      ensures headers == headers0
    {
      headers := headers0;
    }

    /** The axios request interceptor, given the stored token. */
    method Intercept(token: Option<string>)
      modifies this
      ensures headers == WithAuth(old(headers), token)
    {
      if TokenTruthy(token) {
        headers := headers[AuthorizationHeader := "Bearer " + token.value];
      }
    }
  }

  /** AsyncStorage, as far as the app uses it: the one key "token". */
  class TokenStore {
    var token: Option<string>

    constructor (token0: Option<string>)
      ensures token == token0
    {
      token := token0;
    }

    /** AsyncStorage.setItem('token', value). */
    method SetToken(value: string)
      modifies this
      ensures token == Some(value)
    {
      token := Some(value);
    }
  }
}

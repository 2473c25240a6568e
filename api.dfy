/**
 * The API client: a single stored bearer token, a `request` helper that
 * builds headers and body and turns a failed response into an error
 * message, and the calls built on it. The network is a parameter: each call
 * is given the response it receives (or a network failure) and returns the
 * request it would send.
 */
module Api {
  import opened Wrappers
  import opened JsValues
  import opened Permissions

  const DefaultBaseUrl := "http://localhost:3001"
  const MePath := "/api/v1/auth/me"
  const SignInPath := "/api/v1/auth/sign_in"
  const SignUpPath := "/api/v1/auth/sign_up"
  const UsersPath := "/api/v1/users"
  const AdminDashboardPath := "/api/v1/admin/dashboard"
  const RequestFailed := "Request failed"
  const ContentTypeHeader := "Content-Type"
  const AuthorizationHeader := "Authorization"
  const JsonContentType := "application/json"

  // ---------------------------------------------------------------- requests

  /** A request body: a FormData object, or any other JavaScript value (`undefined` for none). */
  datatype RequestBody = FormData(handle: nat) | Value(v: JsValue)

  /** What goes on the wire: nothing, the FormData as is, or the JSON encoding of a value. */
  datatype SentBody = NoBody | SendFormData(handle: nat) | SendJson(v: JsValue)

  datatype RequestOptions = RequestOptions(httpMethod: Option<string>, headers: map<string, string>, body: RequestBody)

  const NoOptions := RequestOptions(None, map[], Value(Undefined))

  datatype HttpRequest = HttpRequest(url: string, httpMethod: Option<string>, headers: map<string, string>, body: SentBody)

  /** `import.meta.env.VITE_API_URL ?? 'http://localhost:3001'`. */
  function BaseUrl(env: Option<string>): (url: string)
    ensures env.Some? ==> url == env.value
    ensures env.None? ==> url == DefaultBaseUrl
  {
    env.GetOr(DefaultBaseUrl)
  }

  /** `if (token)`: a stored empty string counts as no token. */
  predicate HasToken(token: Option<string>)
    ensures HasToken(token) <==> token.Some? && Truthy(Str(token.value))
  {
    token.Some? && token.value != ""
  }

  /** `body !== undefined && !(body instanceof FormData)`. */
  predicate NeedsJsonContentType(body: RequestBody)
    ensures NeedsJsonContentType(body) ==> !body.FormData?
    ensures body.Value? && Truthy(body.v) ==> NeedsJsonContentType(body)
    ensures body == Value(Null) ==> NeedsJsonContentType(body) && EncodeBody(body) == NoBody
  {
    body.Value? && body.v != Undefined
  }

  /** FormData is passed through, a truthy value is JSON-encoded, a falsy one is dropped. */
  function EncodeBody(body: RequestBody): (sent: SentBody)
    ensures sent.SendFormData? <==> body.FormData?
    ensures sent.SendJson? <==> body.Value? && Truthy(body.v)
    ensures sent.SendJson? ==> sent.v == body.v
    ensures sent.SendFormData? ==> sent.handle == body.handle
  {
    match body
    case FormData(h) => SendFormData(h)
    case Value(v) => if Truthy(v) then SendJson(v) else NoBody
  }

  // ---------------------------------------------------------------- responses

  /** The fields of a response body the client reads. */
  datatype Payload = Payload(error: Option<string>, message: Option<string>, errors: JsValue, token: Option<string>, user: Option<User>)

  const EmptyPayload := Payload(None, None, Undefined, None, None)

  datatype ResponseBody = Unparseable | Json(payload: Payload)

  datatype Response = Received(ok: bool, body: ResponseBody) | NetworkFailure

  datatype RequestError = HttpError(message: string) | NetworkError

  /** `res.json().catch(() => ({}))`. */
  function BodyData(body: ResponseBody): (p: Payload)
    ensures body.Json? ==> p == body.payload
    ensures body.Unparseable? ==> p.token.None? && p.user.None? && !Truthy(p.errors) && p.error.None? && p.message.None?
  {
    match body
    case Unparseable => EmptyPayload
    case Json(p) => p
  }

  /** The two shapes of `err`: `{ errors }` when `errors` is truthy, else `{ error }`. */
  datatype ApiError = ErrorList(errors: JsValue) | ErrorText(error: string)

  function ApiErrorOf(data: Payload): (e: ApiError)
    ensures e.ErrorList? <==> Truthy(data.errors)
    ensures e.ErrorList? ==> e.errors == data.errors
    ensures e.ErrorText? && data.error.Some? ==> e.error == data.error.value
    ensures e.ErrorText? && data.error.None? && data.message.Some? ==> e.error == data.message.value
    ensures e.ErrorText? && data.error.None? && data.message.None? ==> e.error == RequestFailed
  {
    if Truthy(data.errors) then ErrorList(data.errors)
    else ErrorText(if data.error.Some? then data.error.value
                   else if data.message.Some? then data.message.value
                   else RequestFailed)
  }

  /** `items.join(sep)`. */
  function Join(items: seq<string>, sep: string): string {
    if items == [] then ""
    else if |items| == 1 then items[0]
    else items[0] + sep + Join(items[1..], sep)
  }

  /** The thrown message: the joined list if it is an array, else `error ?? message ?? 'Request failed'`. */
  function MessageOf(err: ApiError): (m: string)
    ensures err.ErrorList? && err.errors.Arr? ==> m == Join(err.errors.items, ", ")
    ensures err.ErrorList? && err.errors == Arr([]) ==> m == ""
    ensures err.ErrorList? && err.errors.Arr? && |err.errors.items| >= 1 ==>
              |m| == SumLengths(err.errors.items) + (|err.errors.items| - 1) * 2
    ensures err.ErrorList? && !err.errors.Arr? ==> m == RequestFailed
    ensures err.ErrorText? ==> m == err.error
  {
    if err.ErrorList? && err.errors.Arr? && |err.errors.items| >= 1 then
      JoinLength(err.errors.items, ", ");
      Join(err.errors.items, ", ")
    else
    match err
    case ErrorList(errors) => if errors.Arr? then Join(errors.items, ", ") else RequestFailed
    case ErrorText(e) => e
  }

  /**
   * The message of a failed response, by priority: a truthy `errors` array
   * joined with ", "; a truthy `errors` that is not an array gives the
   * fallback; otherwise `error`, then `message`, then the fallback.
   */
  function ErrorMessage(data: Payload): (m: string)
    ensures data.errors.Arr? ==> m == Join(data.errors.items, ", ")
    ensures Truthy(data.errors) && !data.errors.Arr? ==> m == RequestFailed
    ensures !Truthy(data.errors) && data.error.Some? ==> m == data.error.value
    ensures !Truthy(data.errors) && data.error.None? && data.message.Some? ==> m == data.message.value
    ensures !Truthy(data.errors) && data.error.None? && data.message.None? ==> m == RequestFailed
  {
    MessageOf(ApiErrorOf(data))
  }

  /** What `request` resolves to or throws, given the response. */
  function Outcome(response: Response): (r: Result<Payload, RequestError>)
    ensures r.Success? <==> response.Received? && response.ok
    ensures r.Success? ==> r.value == BodyData(response.body)
    ensures response.Received? && !response.ok ==> r == Failure(HttpError(ErrorMessage(BodyData(response.body))))
  {
    match response
    case NetworkFailure => Failure(NetworkError)
    case Received(ok, body) =>
      if ok then Success(BodyData(body)) else Failure(HttpError(ErrorMessage(BodyData(body))))
  }

  /** A failing response whose body is not JSON reports "Request failed". */
  lemma UnparseableFailure()
    ensures Outcome(Received(false, Unparseable)) == Failure(HttpError(RequestFailed))
  {
  }

  /** The total length of the joined items, separators not counted. */
  function SumLengths(items: seq<string>): nat {
    if items == [] then 0 else |items[0]| + SumLengths(items[1..])
  }

  /** Joining one more item appends the separator and that item. */
  lemma {:induction false} JoinAppend(items: seq<string>, x: string, sep: string)
    requires |items| >= 1
    ensures Join(items + [x], sep) == Join(items, sep) + sep + x
  {
    assert (items + [x])[0] == items[0];
    if |items| == 1 {
      assert (items + [x])[1..] == [x];
    } else {
      assert (items + [x])[1..] == items[1..] + [x];
      JoinAppend(items[1..], x, sep);
    }
  }

  /** The joined message holds every item and one separator between each neighbouring pair. */
  lemma {:induction false} JoinLength(items: seq<string>, sep: string)
    requires |items| >= 1
    ensures |Join(items, sep)| == SumLengths(items) + (|items| - 1) * |sep|
  {
    if |items| >= 2 {
      JoinLength(items[1..], sep);
    }
  }

  /** The single-slot token store and the calls that use it. */
  class ApiClient {
    const baseUrlEnv: Option<string>
    var token: Option<string>

    constructor (env: Option<string>, stored: Option<string>)
      ensures baseUrlEnv == env && token == stored
    {
      baseUrlEnv := env;
      token := stored;
    }

    method GetToken() returns (t: Option<string>)
      ensures t == token
    {
      t := token;
    }

    /** Overwrites whatever token was stored. */
    method SetToken(t: string)
      modifies this
      ensures token == Some(t)
    {
      token := Some(t);
    }

    method ClearToken()
      modifies this
      ensures token == None
    {
      token := None;
    }

    /**
     * `request(path, options)`: the caller's headers are kept, JSON content
     * type is added for a non-FormData body that is not `undefined`, the
     * bearer header for a stored token; the result is the response's body or
     * the error it carries.
     */
    method Request(path: string, options: RequestOptions, response: Response) returns (sent: HttpRequest, result: Result<Payload, RequestError>)
      ensures sent.url == BaseUrl(baseUrlEnv) + path
      ensures sent.httpMethod == options.httpMethod
      ensures sent.body == EncodeBody(options.body)
      ensures NeedsJsonContentType(options.body) ==>
                ContentTypeHeader in sent.headers && sent.headers[ContentTypeHeader] == JsonContentType
      ensures HasToken(token) ==>
                AuthorizationHeader in sent.headers && sent.headers[AuthorizationHeader] == "Bearer " + token.value
      ensures forall h :: h in options.headers
                && !(h == ContentTypeHeader && NeedsJsonContentType(options.body))
                && !(h == AuthorizationHeader && HasToken(token))
                ==> h in sent.headers && sent.headers[h] == options.headers[h]
      ensures forall h :: h in sent.headers ==>
                h in options.headers
                || (h == ContentTypeHeader && NeedsJsonContentType(options.body))
                || (h == AuthorizationHeader && HasToken(token))
      ensures result == Outcome(response)
    {
      var headers := options.headers;
      if NeedsJsonContentType(options.body) {
        headers := headers[ContentTypeHeader := JsonContentType];
      }
      var t := GetToken();
      if HasToken(t) {
        headers := headers[AuthorizationHeader := "Bearer " + t.value];
      }
      sent := HttpRequest(BaseUrl(baseUrlEnv) + path, options.httpMethod, headers, EncodeBody(options.body));
      result := Outcome(response);
    }

    /**
     * `getCurrentUser()`: no token, no request and no user; otherwise ask
     * who is signed in, and on any failure forget the token and report
     * nobody.
     */
    method GetCurrentUser(response: Response) returns (user: Option<User>, sent: Option<HttpRequest>)
      modifies this
      ensures !HasToken(old(token)) ==> user == None && sent == None && token == old(token)
      ensures HasToken(old(token)) ==> sent.Some? && sent.value.url == BaseUrl(baseUrlEnv) + MePath
      ensures HasToken(old(token)) ==>
                AuthorizationHeader in sent.value.headers && sent.value.headers[AuthorizationHeader] == "Bearer " + old(token).value
      ensures HasToken(old(token)) && Outcome(response).Success? ==>
                user == Outcome(response).value.user && token == old(token)
      ensures HasToken(old(token)) && Outcome(response).Failure? ==> user == None && token == None
    {
      var t := GetToken();
      if !HasToken(t) {
        return None, None;
      }
      var request, result := Request(MePath, NoOptions, response);
      sent := Some(request);
      match result {
        case Success(data) =>
          user := data.user;
        case Failure(_) =>
          ClearToken();
          user := None;
      }
    }

    /** `localStorage.setItem` stores a missing token as the text "undefined". */
    static function StoredToken(t: Option<string>): (s: string)
      ensures t.Some? ==> s == t.value
      ensures t.None? ==> s == "undefined"
    {
      t.GetOr("undefined")
    }

    /** The shared part of sign-in and sign-up: POST, then store the token only on success. */
    method Authenticate(path: string, fields: map<string, string>, response: Response) returns (sent: HttpRequest, result: Result<Payload, RequestError>)
      modifies this
      ensures sent.url == BaseUrl(baseUrlEnv) + path && sent.httpMethod == Some("POST")
      ensures sent.body == SendJson(Obj(fields))
      ensures ContentTypeHeader in sent.headers && sent.headers[ContentTypeHeader] == JsonContentType
      ensures result == Outcome(response)
      ensures result.Success? ==> token == Some(StoredToken(result.value.token))
      ensures result.Failure? ==> token == old(token)
    {
      sent, result := Request(path, RequestOptions(Some("POST"), map[], Value(Obj(fields))), response);
      if result.Success? {
        SetToken(StoredToken(result.value.token));
      }
    }

    /** `signIn(email, password)`. */
    method SignIn(email: string, password: string, response: Response) returns (sent: HttpRequest, result: Result<Payload, RequestError>)
      modifies this
      ensures sent.url == BaseUrl(baseUrlEnv) + SignInPath && sent.httpMethod == Some("POST")
      ensures sent.body == SendJson(Obj(map["email" := email, "password" := password]))
      ensures result == Outcome(response)
      ensures result.Success? ==> token == Some(StoredToken(result.value.token))
      ensures result.Failure? ==> token == old(token)
    {
      sent, result := Authenticate(SignInPath, map["email" := email, "password" := password], response);
    }

    /** `signUp(email, password, password_confirmation)`. */
    method SignUp(email: string, password: string, confirmation: string, response: Response) returns (sent: HttpRequest, result: Result<Payload, RequestError>)
      modifies this
      ensures sent.url == BaseUrl(baseUrlEnv) + SignUpPath && sent.httpMethod == Some("POST")
      ensures sent.body == SendJson(Obj(map["email" := email, "password" := password, "password_confirmation" := confirmation]))
      ensures result == Outcome(response)
      ensures result.Success? ==> token == Some(StoredToken(result.value.token))
      ensures result.Failure? ==> token == old(token)
    {
      sent, result := Authenticate(SignUpPath, map["email" := email, "password" := password, "password_confirmation" := confirmation], response);
    }

    /** An authenticated GET with no options. */
    method Get(path: string, response: Response) returns (sent: HttpRequest, result: Result<Payload, RequestError>)
      ensures sent.url == BaseUrl(baseUrlEnv) + path && sent.httpMethod == None && sent.body == NoBody
      ensures HasToken(token) <==> AuthorizationHeader in sent.headers
      ensures HasToken(token) ==> sent.headers[AuthorizationHeader] == "Bearer " + token.value
      ensures result == Outcome(response)
    {
      sent, result := Request(path, NoOptions, response);
    }

    /** `getUsers()`. */
    method GetUsers(response: Response) returns (sent: HttpRequest, result: Result<Payload, RequestError>)
      ensures sent.url == BaseUrl(baseUrlEnv) + UsersPath
      ensures HasToken(token) <==> AuthorizationHeader in sent.headers
      ensures result == Outcome(response)
    {
      sent, result := Get(UsersPath, response);
    }

    /** `getUser(id)`: the id is written in decimal after the users path. */
    method GetUser(id: nat, response: Response) returns (sent: HttpRequest, result: Result<Payload, RequestError>)
      ensures sent.url == BaseUrl(baseUrlEnv) + UsersPath + "/" + NatToString(id)
      ensures HasToken(token) <==> AuthorizationHeader in sent.headers
      ensures result == Outcome(response)
    {
      sent, result := Get(UsersPath + "/" + NatToString(id), response);
    }

    /** `getAdminDashboard()`: the token is sent as for any other call; the server decides. */
    method GetAdminDashboard(response: Response) returns (sent: HttpRequest, result: Result<Payload, RequestError>)
      ensures sent.url == BaseUrl(baseUrlEnv) + AdminDashboardPath
      ensures HasToken(token) <==> AuthorizationHeader in sent.headers
      ensures result == Outcome(response)
    {
      sent, result := Get(AdminDashboardPath, response);
    }
  }

  /**
   * A worked scenario, stated by its assertions rather than an ensures: a
   * token stored by sign-in is used by the next call and cleared by a failed
   * user check.
   */
  method SignInThenCheck(api: ApiClient, email: string, password: string, token: string, user: User, rejection: Response)
    requires token != "" && !(rejection.Received? && rejection.ok)
    modifies api
  {
    var signIn := Received(true, Json(Payload(None, None, Undefined, Some(token), Some(user))));
    var _, result := api.SignIn(email, password, signIn);
    assert api.token == Some(token);
    var who, sent := api.GetCurrentUser(rejection);
    assert sent.Some? && sent.value.headers[AuthorizationHeader] == "Bearer " + token;
    assert who == None && api.token == None;
  }
}

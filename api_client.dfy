/** `PondAPIClient` (lib/api-client.ts): the bearer token it holds, the
    headers and request options it builds, how it turns a response into a
    value or an error message, login and logout, and the WebSocket address.
    A response is given as data: its status, status text and a body that
    is JSON (its top-level text fields) or not. */
module ApiClient {
  import opened Wrappers
  import opened Text

  const DefaultApiBase := "http://localhost:8000"

  type Header = (string, string)

  /** A response body: JSON, read as its top-level text fields, or text the
      JSON parser rejects with the given message. */
  datatype Body = Json(fields: map<string, string>) | NotJson(syntaxError: string)

  datatype Response = Response(ok: bool, status: int, statusText: string, body: Body)

  /** What a request yields: the fetch itself throws, or a response comes. */
  datatype Sent = NetworkFailure(message: string) | Received(response: Response)

  /** A settled call: its value, or the message of the `Error` it throws. */
  datatype Answer = Parsed(fields: map<string, string>) | Thrown(message: string)

  /** `data.name`, with an absent field read as the empty, falsy text. */
  function Field(fields: map<string, string>, name: string): string {
    if name in fields then fields[name] else ""
  }

  /** The message of a failed response before the fixed messages apply:
      the body's `detail`, else its `message`, else `HTTP <status>`; when
      the body is not JSON, the status text, else `HTTP <status>`. */
  function BodyMessage(r: Response): (m: string)
    ensures |m| > 0
    ensures r.body.Json? && Field(r.body.fields, "detail") != "" ==> m == r.body.fields["detail"]
    ensures r.body.Json? && Field(r.body.fields, "detail") == "" && Field(r.body.fields, "message") != "" ==>
      m == r.body.fields["message"]
    ensures r.body.NotJson? && r.statusText != "" ==> m == r.statusText
  {
    var fallback := "HTTP " + IntText(r.status);
    match r.body
    case Json(fields) =>
      if Field(fields, "detail") != "" then fields["detail"]
      else if Field(fields, "message") != "" then fields["message"]
      else fallback
    case NotJson(_) =>
      if r.statusText != "" then r.statusText else fallback
  }

  /** The statuses whose message is fixed whatever the body says. */
  predicate FixedStatus(status: int) {
    status == 0 || status == 401 || status == 403 || status == 404 || status >= 500
  }

  /** The message `handleResponse` throws for a failed response. */
  function ErrorMessage(r: Response): (m: string)
    ensures |m| > 0
    ensures !FixedStatus(r.status) ==> m == BodyMessage(r)
  {
    if r.status == 0 then "Network error - check if backend is running on http://localhost:8000"
    else if r.status == 401 then "Authentication failed - check credentials or token expired"
    else if r.status == 403 then "Access forbidden - insufficient permissions"
    else if r.status == 404 then "Endpoint not found - check backend API routes"
    else if r.status >= 500 then "Server error (" + IntText(r.status) + ") - check backend logs"
    else BodyMessage(r)
  }

  /** For a fixed status the body and the status text make no difference:
      two failed responses with that status throw the same message. */
  lemma FixedStatusIgnoresBody(a: Response, b: Response)
    requires FixedStatus(a.status) && a.status == b.status
    ensures ErrorMessage(a) == ErrorMessage(b)
  {
  }

  /** Server errors name their status, and different server errors throw
      different messages. */
  lemma ServerErrorsNamed(a: Response, b: Response)
    requires a.status >= 500 && b.status >= 500 && a.status != b.status
    ensures ErrorMessage(a) != ErrorMessage(b)
  {
    if ErrorMessage(a) == ErrorMessage(b) {
      StripAffixes("Server error (", IntText(a.status), IntText(b.status), ") - check backend logs");
      NatTextRoundTrip(a.status);
      NatTextRoundTrip(b.status);
    }
  }

  /** `handleResponse`: the parsed body of an OK response; otherwise the
      error message.  An OK response whose body is not JSON throws the
      parser's error. */
  function HandleResponse(r: Response): (a: Answer)
    ensures a.Parsed? <==> r.ok && r.body.Json?
    ensures a.Parsed? ==> a.fields == r.body.fields
    ensures !r.ok ==> a == Thrown(ErrorMessage(r))
  {
    if !r.ok then Thrown(ErrorMessage(r))
    else match r.body
      case Json(fields) => Parsed(fields)
      case NotJson(syntaxError) => Thrown(syntaxError)
  }

  /** A value that may be passed as a request body; only its truthiness
      matters here (its JSON text is left out). */
  datatype Value = Null | Bool(b: bool) | Number(n: real) | Text(s: string) | Object(json: string)

  /** JavaScript truthiness of a body value. */
  predicate Truthy(v: Value) {
    match v
    case Null => false
    case Bool(b) => b
    case Number(n) => n != 0.0
    case Text(s) => s != ""
    case Object(_) => true
  }

  datatype Options = Options(verb: string, headers: seq<Header>, mode: string, credentials: string, body: Option<Value>)

  class Client {
    /** `token`: the bearer token, `null` when logged out. */
    var token: Option<string>

    /** The client reads the saved token, if any. */
    constructor(saved: Option<string>)
      ensures token == saved
    {
      token := saved;
    }

    /** `if (this.token)`: a token that is present and not empty. */
    predicate HasToken()
      reads this
    {
      token.Some? && token.value != ""
    }

    /** `getHeaders`: JSON content type and accept always, and the bearer
        header exactly when there is a token. */
    function Headers(): (r: seq<Header>)
      reads this
      ensures ("Content-Type", "application/json") in r && ("Accept", "application/json") in r
      ensures (exists v :: ("Authorization", v) in r) <==> HasToken()
      ensures HasToken() ==> ("Authorization", "Bearer " + token.value) in r
    {
      var base := [("Content-Type", "application/json"), ("Accept", "application/json")];
      if HasToken() then base + [("Authorization", "Bearer " + token.value)] else base
    }

    /** `getFetchOptions`: CORS mode, no cookies, and a body only when one
        is supplied and truthy. */
    function FetchOptions(verb: string, body: Option<Value>): (r: Options)
      reads this
      ensures r.verb == verb && r.headers == Headers()
      ensures r.mode == "cors" && r.credentials == "omit"
      ensures r.body.Some? <==> body.Some? && Truthy(body.value)
      ensures r.body.Some? ==> r.body == body
    {
      Options(verb, Headers(), "cors", "omit", if body.Some? && Truthy(body.value) then body else None)
    }

    /** `login`: a parsed answer stores its `access_token` as the token;
        any failure leaves the token and is thrown again behind
        "Login failed: ". */
    method Login(sent: Sent) returns (a: Answer)
      modifies this
      ensures a.Parsed? ==>
        sent.Received? && HandleResponse(sent.response).Parsed? && a == HandleResponse(sent.response)
        && token == (if "access_token" in a.fields then Some(a.fields["access_token"]) else None)
      ensures a.Thrown? ==> token == old(token) && |a.message| >= 14 && a.message[..14] == "Login failed: "
      ensures sent.NetworkFailure? ==> a == Thrown("Login failed: " + sent.message)
      ensures sent.Received? && HandleResponse(sent.response).Thrown? ==>
        a == Thrown("Login failed: " + HandleResponse(sent.response).message)
    {
      match sent {
        case NetworkFailure(message) =>
          return Thrown("Login failed: " + message);
        case Received(response) =>
          a := HandleResponse(response);
          if a.Thrown? {
            return Thrown("Login failed: " + a.message);
          }
          token := if "access_token" in a.fields then Some(a.fields["access_token"]) else None;
      }
    }

    /** `logout`. */
    method Logout()
      modifies this
      ensures token == None && !HasToken()
    {
      token := None;
    }
  }

  /** `createWebSocketConnection`'s address: the first "http" of the base
      becomes "ws", then "/mvp/ws". */
  function WebSocketUrl(apiBase: string): string {
    ReplaceFirst(apiBase, "http", "ws") + "/mvp/ws"
  }

  /** An `http` base gives a `ws` address and an `https` base a `wss` one,
      on the same host. */
  lemma WebSocketSchemes(rest: string)
    ensures WebSocketUrl("http://" + rest) == "ws://" + rest + "/mvp/ws"
    ensures WebSocketUrl("https://" + rest) == "wss://" + rest + "/mvp/ws"
  {
    ReplaceFirstAtFront("http://" + rest, "http", "ws");
    assert ("http://" + rest)[4..] == "://" + rest;
    ReplaceFirstAtFront("https://" + rest, "http", "ws");
    assert ("https://" + rest)[4..] == "s://" + rest;
  }
}

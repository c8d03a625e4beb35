/**
 * The HTTP values the proxy handles (http4k's Method, Request and Response as plain values),
 * its transport exceptions, and a scripted HTTP client standing in for the real network.
 */
module Http {
  import opened Wrappers
  import opened Text

  /** http4k's Method enumeration. */
  datatype Method = GET | POST | PUT | DELETE | OPTIONS | TRACE | PATCH | PURGE | HEAD

  function MethodName(m: Method): string {
    match m
    case GET => "GET"
    case POST => "POST"
    case PUT => "PUT"
    case DELETE => "DELETE"
    case OPTIONS => "OPTIONS"
    case TRACE => "TRACE"
    case PATCH => "PATCH"
    case PURGE => "PURGE"
    case HEAD => "HEAD"
  }

  /**
   * Method.valueOf(name): the enumeration constant with exactly that (case-sensitive) name;
   * None where Kotlin throws IllegalArgumentException.
   */
  function MethodOf(name: string): (r: Option<Method>)
    ensures r.Some? ==> MethodName(r.value) == name
  {
    if name == "GET" then Some(GET)
    else if name == "POST" then Some(POST)
    else if name == "PUT" then Some(PUT)
    else if name == "DELETE" then Some(DELETE)
    else if name == "OPTIONS" then Some(OPTIONS)
    else if name == "TRACE" then Some(TRACE)
    else if name == "PATCH" then Some(PATCH)
    else if name == "PURGE" then Some(PURGE)
    else if name == "HEAD" then Some(HEAD)
    else None
  }

  /** Every method is looked up by its own name, so an unknown name names no method at all. */
  lemma MethodOfName(m: Method, name: string)
    ensures MethodOf(MethodName(m)) == Some(m)
    ensures MethodOf(name).None? ==> MethodName(m) != name
  {
  }

  /** The proxy's own control headers. */
  const TARGET_APP := "target-app"
  const TARGET_NAMESPACE := "target-namespace"
  const TARGET_ONLY_REDIRECT := "target-only-redirect"

  /** A header is a (name, value) pair; a message keeps its headers in order, duplicates allowed. */
  type Header = (string, string)

  /** A message body: text passed through untouched, or the URL-encoded form of a token request. */
  datatype Body = Text(text: string) | Form(fields: seq<(string, string)>)

  datatype Request = Request(verb: Method, url: string, headers: seq<Header>, body: Body)

  datatype Response = Response(status: nat, headers: seq<Header>, body: Body)

  /**
   * An inbound request as the router hands it over: `uri` is the path with its query, `rest` the
   * part of the path captured by the route's `{rest}` pattern (without the leading slash).
   */
  datatype Inbound = Inbound(verb: Method, uri: string, rest: string, headers: seq<Header>, body: Body)

  const OK: nat := 200
  const NON_AUTHORITATIVE_INFORMATION: nat := 203
  const BAD_REQUEST: nat := 400
  const UNAUTHORIZED: nat := 401
  const INTERNAL_SERVER_ERROR: nat := 500
  const SERVICE_UNAVAILABLE: nat := 503
  const GATEWAY_TIMEOUT: nat := 504

  /** A plain-text response without headers, as `Response(status).body(text)` builds it. */
  function TextResponse(status: nat, text: string): Response {
    Response(status, [], Text(text))
  }

  /** Header names compare case-insensitively: equal once both are lower-cased. */
  predicate SameName(a: string, b: string) {
    |a| == |b| && forall i :: 0 <= i < |a| ==> LowerChar(a[i]) == LowerChar(b[i])
  }

  lemma SameNameLower(a: string, b: string)
    ensures SameName(a, b) <==> Lower(a) == Lower(b)
  {
    if Lower(a) == Lower(b) {
      assert forall i :: 0 <= i < |a| ==> Lower(a)[i] == Lower(b)[i];
    }
  }

  /** `message.header(name)`: the value of the first header with that name, ignoring case. */
  function HeaderValue(headers: seq<Header>, name: string): (r: Option<string>)
    ensures r.None? <==> forall i :: 0 <= i < |headers| ==> !SameName(headers[i].0, name)
    ensures r.Some? ==> exists i :: 0 <= i < |headers| && SameName(headers[i].0, name) && headers[i].1 == r.value
                                    && forall j :: 0 <= j < i ==> !SameName(headers[j].0, name)
  {
    if headers == [] then None
    else if SameName(headers[0].0, name) then Some(headers[0].1)
    else
      var r := HeaderValue(headers[1..], name);
      assert forall i :: 1 <= i < |headers| ==> headers[i] == headers[1..][i - 1];
      r
  }

  /** The transport-level exceptions the clients can throw. */
  datatype ExceptionKind = SslHandshake | NoHttpResponse | OtherException

  datatype Exception = Exception(kind: ExceptionKind, message: string)

  /** What one call of a client does: answer with a response, or throw. */
  datatype Outcome<R> = Responded(response: R) | Threw(exception: Exception)

  /** The i-th answer of a script; a script that has run out behaves as a peer that never answers. */
  function OutcomeAt<R>(script: seq<Outcome<R>>, i: nat): Outcome<R> {
    if i < |script| then script[i] else Threw(Exception(NoHttpResponse, "no response"))
  }

  /**
   * An HTTP client whose answers are fixed in advance: the i-th call receives `script[i]`.
   * `sent` logs every request in the order it was sent, so a proof can count the calls.
   */
  class ScriptedClient<Q, R> {
    const script: seq<Outcome<R>>
    var sent: seq<Q>

    constructor (script: seq<Outcome<R>>)
      ensures this.script == script && sent == []
    {
      this.script := script;
      sent := [];
    }

    method Call(q: Q) returns (o: Outcome<R>)
      modifies this
      ensures sent == old(sent) + [q]
      ensures o == OutcomeAt(script, |old(sent)|)
    {
      o := OutcomeAt(script, |sent|);
      sent := sent + [q];
    }
  }
}

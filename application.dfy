/**
 * The proxy's request handling: the decision what to do with an inbound call, the header
 * filters on the way out and back, the target alias and URL, and the handler that exchanges the
 * token, forwards the call and retries a failed GET once.
 */
module Application {
  import opened Wrappers
  import opened Text
  import opened Http
  import opened Errors
  import opened Ingresses
  import opened Whitelist
  import opened Telemetry
  import opened KeyValue
  import opened Valkey
  import opened TokenExchange

  /** The request headers never forwarded, lower-cased: the proxy's own three, and host and authorization. */
  const BLOCK_FROM_FORWARDING: seq<string> := [TARGET_APP, TARGET_NAMESPACE, TARGET_ONLY_REDIRECT, "host", "authorization"]

  /**
   * The response headers never passed back: the hop-by-hop headers of section 6.1 of RFC 7230,
   * and content-length and upgrade.
   */
  const BLOCK_FROM_RESPONSE: seq<string> := [
    "connection", "keep-alive", "proxy-authenticate", "proxy-authorization", "te", "trailer",
    "transfer-encoding", "content-length", "upgrade"]

  const MISSING_HEADER := "Proxy: Bad request - missing header"
  const NOT_AUTHORIZED := "Proxy: Not authorized"

  /** `headers.filter { name.lowercase() !in blocked }`. */
  function KeepHeaders(headers: seq<Header>, blocked: seq<string>): (r: seq<Header>)
    ensures |r| <= |headers|
    ensures forall h :: h in r <==> h in headers && Lower(h.0) !in blocked
  {
    if headers == [] then []
    else
      var rest := KeepHeaders(headers[1..], blocked);
      assert forall h :: h in headers <==> h == headers[0] || h in headers[1..];
      if Lower(headers[0].0) in blocked then rest else [headers[0]] + rest
  }

  /** The filter keeps the order: filtering a concatenation filters each part. */
  lemma {:induction false} KeepHeadersOrder(a: seq<Header>, b: seq<Header>, blocked: seq<string>)
    ensures KeepHeaders(a + b, blocked) == KeepHeaders(a, blocked) + KeepHeaders(b, blocked)
  {
    if a == [] {
      assert a + b == b;
    } else {
      assert (a + b)[1..] == a[1..] + b;
      KeepHeadersOrder(a[1..], b, blocked);
    }
  }

  /** A header whose name is not blocked is kept where it was, the others are dropped. */
  lemma KeepHeadersOne(h: Header, blocked: seq<string>)
    ensures KeepHeaders([h], blocked) == if Lower(h.0) in blocked then [] else [h]
  {
    assert [h][1..] == [];
  }

  /** The headers of the forwarded call: the inbound ones, filtered, then the exchanged token. */
  function ForwardHeaders(headers: seq<Header>, token: string): seq<Header> {
    KeepHeaders(headers, BLOCK_FROM_FORWARDING) + [("Authorization", "Bearer " + token)]
  }

  /** Text without capitals is its own lower-case form. */
  lemma LowerOfLowerCase(s: string)
    requires forall i :: 0 <= i < |s| ==> !IsUpper(s[i])
    ensures Lower(s) == s
  {
  }

  lemma AuthorizationParts()
    ensures "Authorization" == ['A'] + "uthorization"
    ensures forall i :: 0 <= i < |"uthorization"| ==> !IsUpper("uthorization"[i])
    ensures forall i :: 0 <= i < |"authorization"| ==> !IsUpper("authorization"[i])
  {
  }

  lemma AuthorizationLower()
    ensures Lower("Authorization") == "authorization"
    ensures Lower("authorization") == "authorization"
  {
    AuthorizationParts();
    LowerOfLowerCase("uthorization");
    LowerOfLowerCase("authorization");
    assert Lower(['A'] + "uthorization") == [LowerChar('A')] + Lower("uthorization");
  }

  /** A header name that only the last header has is looked up to the last header's value. */
  lemma OnlyLastNamed(r: seq<Header>, name: string)
    requires |r| > 0 && SameName(r[|r| - 1].0, name)
    requires forall i :: 0 <= i < |r| - 1 ==> !SameName(r[i].0, name)
    ensures HeaderValue(r, name) == Some(r[|r| - 1].1)
  {
  }

  /**
   * The forwarded call carries exactly one Authorization header, the last one, with the
   * exchanged token: whatever authorization the caller sent is dropped.
   */
  lemma ForwardHeadersAuthorization(headers: seq<Header>, token: string)
    ensures var r := ForwardHeaders(headers, token);
            && r[|r| - 1] == ("Authorization", "Bearer " + token)
            && (forall i :: 0 <= i < |r| - 1 ==> !SameName(r[i].0, "Authorization"))
            && HeaderValue(r, "authorization") == Some("Bearer " + token)
  {
    var r := ForwardHeaders(headers, token);
    var kept := KeepHeaders(headers, BLOCK_FROM_FORWARDING);
    AuthorizationLower();
    assert "authorization" in BLOCK_FROM_FORWARDING;
    forall i | 0 <= i < |r| - 1
      ensures !SameName(r[i].0, "Authorization") && !SameName(r[i].0, "authorization")
    {
      assert r[i] == kept[i] && kept[i] in kept;
      SameNameLower(r[i].0, "Authorization");
      SameNameLower(r[i].0, "authorization");
    }
    SameNameLower("Authorization", "authorization");
    OnlyLastNamed(r, "authorization");
  }

  /** `withoutBlockedHeaders`: the same status and body, without the headers of the blocked list. */
  function WithoutBlockedHeaders(response: Response): (r: Response)
    ensures r.status == response.status && r.body == response.body
    ensures forall h :: h in r.headers <==> h in response.headers && Lower(h.0) !in BLOCK_FROM_RESPONSE
  {
    response.(headers := KeepHeaders(response.headers, BLOCK_FROM_RESPONSE))
  }

  /** `targetCluster`: the proxy's cluster, with gcp replaced by fss when the target is an ingress. */
  function TargetCluster(cluster: string, ingress: Option<Ingress>): string {
    if ingress.Some? then ReplaceAll(cluster, "gcp", "fss") else cluster
  }

  lemma {:induction false} ReplaceAllKeeps(a: string, rest: string, target: string, replacement: string)
    requires |target| > 0
    requires forall i :: 0 <= i < |a| ==> !OccursAt(a + rest, target, i)
    ensures ReplaceAll(a + rest, target, replacement) == a + ReplaceAll(rest, target, replacement)
    decreases |a|
  {
    if a == [] {
      assert a + rest == rest;
    } else {
      var s := a + rest;
      assert !OccursAt(s, target, 0);
      assert s[1..] == a[1..] + rest;
      forall i | 0 <= i < |a[1..]|
        ensures !OccursAt(a[1..] + rest, target, i)
      {
        if OccursAt(a[1..] + rest, target, i) {
          assert s[i + 1..i + 1 + |target|] == (a[1..] + rest)[i..i + |target|];
          assert OccursAt(s, target, i + 1);
        }
      }
      ReplaceAllKeeps(a[1..], rest, target, replacement);
      if |s| < |target| {
        assert ReplaceAll(s, target, replacement) == s;
        assert ReplaceAll(rest, target, replacement) == rest;
      } else {
        assert s[0] == a[0] && [a[0]] + a[1..] == a;
        assert s[..|target|] != target;
        assert ReplaceAll(s, target, replacement) == [s[0]] + ReplaceAll(s[1..], target, replacement);
        assert [s[0]] + (a[1..] + ReplaceAll(rest, target, replacement)) == a + ReplaceAll(rest, target, replacement);
      }
    }
  }

  lemma GcpBecomesFss()
    ensures ReplaceAll("gcp", "gcp", "fss") == "fss"
  {
    assert "gcp"[..3] == "gcp";
    assert "gcp"[3..] == "";
  }

  /** A cluster named "<env>-gcp" is addressed as "<env>-fss" when the target is an ingress, and as itself otherwise. */
  lemma ClusterOfIngress(env: string, ingress: Option<Ingress>)
    requires 'g' !in env
    ensures TargetCluster(env + "-gcp", ingress) == if ingress.Some? then env + "-fss" else env + "-gcp"
  {
    if ingress.Some? {
      var a := env + "-";
      assert env + "-gcp" == a + "gcp";
      forall i | 0 <= i < |a|
        ensures !OccursAt(a + "gcp", "gcp", i)
      {
        assert (a + "gcp")[i] == a[i] != 'g';
      }
      ReplaceAllKeeps(a, "gcp", "gcp", "fss");
      GcpBecomesFss();
      assert a + "fss" == env + "-fss";
    }
  }

  /** A cluster name without "gcp" in it is used as it is. */
  lemma ClusterWithoutGcp(cluster: string, ingress: Option<Ingress>)
    requires forall i :: !OccursAt(cluster, "gcp", i)
    ensures TargetCluster(cluster, ingress) == cluster
  {
    if ingress.Some? {
      ReplaceAllAbsent(cluster, "gcp", "fss");
    }
  }

  /** The alias a token is asked for: "<cluster>.<namespace>.<app>". */
  function TargetAlias(cluster: string, ingress: Option<Ingress>, namespace: string, app: string): string {
    TargetCluster(cluster, ingress) + "." + namespace + "." + app
  }

  /** Names without dots can be read back out of the alias. */
  lemma TargetAliasParts(cluster: string, ingress: Option<Ingress>, namespace: string, app: string)
    requires '.' !in TargetCluster(cluster, ingress) && '.' !in namespace && '.' !in app
    ensures Split(TargetAlias(cluster, ingress, namespace, app), '.') == [TargetCluster(cluster, ingress), namespace, app]
  {
    var c := TargetCluster(cluster, ingress);
    AppendAssociates(c, ".", namespace, "." + app);
    assert c + "." + namespace + "." + app == c + ['.'] + (namespace + ['.'] + app);
    SplitAfterFirst(c, '.', namespace + ['.'] + app);
    SplitAfterFirst(namespace, '.', app);
    SplitNoDelimiter(app, '.');
  }

  /** The outbound URL: the ingress when there is one, else the app's service in its namespace, then the inbound URI. */
  function BaseUrl(ingress: Option<Ingress>, namespace: string, app: string): string {
    if ingress.Some? then ingress.value else "http://" + app + "." + namespace
  }

  function OutboundUrl(ingress: Option<Ingress>, namespace: string, app: string, uri: string): (r: string)
    ensures ingress.Some? ==> StartsWith(r, ingress.value)
    ensures ingress.None? ==> StartsWith(r, "http://" + app + "." + namespace)
    ensures EndsWith(r, uri)
  {
    BaseUrl(ingress, namespace, app) + uri
  }

  /** What the handler does with an inbound call, before any call leaves the proxy. */
  datatype Decision =
    /** Only-redirect mode with a valid token: pass the call on to the given URL as it is. */
    | PassOn(url: string, headers: seq<Header>)
    /** The proxy answers by itself. */
    | Reply(response: Response)
    /** The call is whitelisted but carries no valid token: 401, counted against the app. */
    | NoToken(app: string)
    /** Exchange the token for one to the target and forward the call. */
    | Forward(app: string, namespace: string, ingress: Option<Ingress>, scope: string)

  /** The three headers the handler reads first: target-app, target-namespace and target-only-redirect. */
  datatype Targets = Targets(app: Option<string>, namespace: Option<string>, onlyRedirect: Option<string>)

  function TargetsOf(headers: seq<Header>): Targets {
    Targets(HeaderValue(headers, TARGET_APP), HeaderValue(headers, TARGET_NAMESPACE), HeaderValue(headers, TARGET_ONLY_REDIRECT))
  }

  /**
   * The decision of redirectHttpHandler, in the order its branches are tried: only-redirect
   * mode, a missing target-app header, rules that do not approve the call, a missing token.
   * `t` holds the call's target headers, `token` the validator's first valid token, if any.
   */
  function Decide(t: Targets, req: Inbound, token: Option<Jwt>, rs: RuleSet, ingressSet: IngressSet): Result<Decision, Error> {
    match t.onlyRedirect
    case Some(target) =>
      if token.Some? then Success(PassOn(target + req.uri, KeepHeaders(req.headers, BLOCK_FROM_FORWARDING)))
      else Success(Reply(TextResponse(UNAUTHORIZED, "")))
    case None =>
      match t.app
      case None => Success(Reply(TextResponse(BAD_REQUEST, MISSING_HEADER)))
      case Some(app) => DecideFor(t, req, token, rs, ingressSet, app)
  }

  /** The decision for a call that names its app: resolve the namespace, filter the rules, judge. */
  function DecideFor(t: Targets, req: Inbound, token: Option<Jwt>, rs: RuleSet, ingressSet: IngressSet, app: string)
    : Result<Decision, Error>
  {
    match ResolveNamespace(t.namespace, rs, app)
    case Failure(e) => Failure(e)
    case Success(namespace) =>
      match ApprovedRules(RulesOf(rs, app, namespace), req.verb, "/" + req.rest)
      case Failure(e) => Failure(e)
      case Success(approved) => Success(Judge(req.rest, token, app, namespace, IngressOf(ingressSet, app, namespace), approved))
  }

  /** The last two steps: no approving rule gives 400 before the token is looked at, then 401 without a token. */
  function Judge(rest: string, token: Option<Jwt>, app: string, namespace: string, ingress: Option<Ingress>,
                 approved: seq<Rule>): Decision
  {
    if approved == [] then Reply(TextResponse(BAD_REQUEST, "Proxy: Bad request - " + rest + " is not whitelisted"))
    else if token.None? then NoToken(app)
    else Forward(app, namespace, ingress, FindScope(approved))
  }

  /**
   * Only-redirect mode bypasses the whitelist: the decision does not depend on the rules or the
   * ingresses, and the call is passed on iff it carries a valid token, 401 otherwise.
   */
  lemma OnlyRedirectBypassesRules(t: Targets, req: Inbound, token: Option<Jwt>, rs: RuleSet, ingressSet: IngressSet,
                                  rs2: RuleSet, ingressSet2: IngressSet)
    requires t.onlyRedirect.Some?
    ensures Decide(t, req, token, rs, ingressSet) == Decide(t, req, token, rs2, ingressSet2)
    ensures Decide(t, req, token, rs, ingressSet).Success?
    ensures Decide(t, req, token, rs, ingressSet).value.PassOn? <==> token.Some?
    ensures token.None? ==> Decide(t, req, token, rs, ingressSet) == Success(Reply(TextResponse(UNAUTHORIZED, "")))
  {
  }

  /**
   * A call is forwarded only when it carries a valid token, names its app, is not in
   * only-redirect mode, and some rule of the app in the resolved namespace accepts its method
   * and path; the scope is the one the accepting rules name.
   */
  lemma ForwardOnlyApproved(t: Targets, req: Inbound, token: Option<Jwt>, rs: RuleSet, ingressSet: IngressSet,
                            app: string, namespace: string, ingress: Option<Ingress>, scope: string)
    requires Decide(t, req, token, rs, ingressSet) == Success(Forward(app, namespace, ingress, scope))
    ensures token.Some?
    ensures t.onlyRedirect.None?
    ensures t.app == Some(app)
    ensures ResolveNamespace(t.namespace, rs, app) == Success(namespace)
    ensures ingress == IngressOf(ingressSet, app, namespace)
    ensures exists rule :: rule in RulesOf(rs, app, namespace) && EvaluateAsRule(rule, req.verb, "/" + req.rest) == Success(true)
    ensures ApprovedRules(RulesOf(rs, app, namespace), req.verb, "/" + req.rest).Success?
    ensures scope == FindScope(ApprovedRules(RulesOf(rs, app, namespace), req.verb, "/" + req.rest).value)
  {
    assert DecideFor(t, req, token, rs, ingressSet, app) == Success(Forward(app, namespace, ingress, scope));
    var rules := RulesOf(rs, app, namespace);
    var approved := ApprovedRules(rules, req.verb, "/" + req.rest);
    assert approved.Success? && approved.value != [];
    ApprovedRulesMeaning(rules, req.verb, "/" + req.rest);
    assert approved.value[0] in approved.value;
  }

  /** No approving rule means 400 whatever the token; approving rules give 401 without a token. */
  lemma JudgeWhitelistFirst(rest: string, app: string, namespace: string, ingress: Option<Ingress>,
                            approved: seq<Rule>, jwt: Jwt)
    ensures approved == [] ==> Judge(rest, None, app, namespace, ingress, approved) == Judge(rest, Some(jwt), app, namespace, ingress, approved)
    ensures approved == [] ==> (Judge(rest, None, app, namespace, ingress, approved).Reply?
              && Judge(rest, None, app, namespace, ingress, approved).response.status == BAD_REQUEST)
    ensures approved != [] ==> (Judge(rest, None, app, namespace, ingress, approved) == NoToken(app)
              && Judge(rest, Some(jwt), app, namespace, ingress, approved).Forward?)
  {
  }

  /**
   * The whitelist is checked before the token: a call no rule approves gets 400 with or without
   * a token, and an approved call without a token gets 401.
   */
  lemma WhitelistBeforeToken(t: Targets, req: Inbound, rs: RuleSet, ingressSet: IngressSet, jwt: Jwt, app: string, namespace: string)
    requires t.onlyRedirect.None?
    requires t.app == Some(app)
    requires ResolveNamespace(t.namespace, rs, app) == Success(namespace)
    requires ApprovedRules(RulesOf(rs, app, namespace), req.verb, "/" + req.rest).Success?
    ensures var approved := ApprovedRules(RulesOf(rs, app, namespace), req.verb, "/" + req.rest).value;
            var ingress := IngressOf(ingressSet, app, namespace);
            && Decide(t, req, None, rs, ingressSet) == Success(Judge(req.rest, None, app, namespace, ingress, approved))
            && Decide(t, req, Some(jwt), rs, ingressSet) == Success(Judge(req.rest, Some(jwt), app, namespace, ingress, approved))
  {
  }

  /** The clock readings of one forwarded call: its arrival, just before and just after the outbound call. */
  datatype Times = Times(startMs: int, beforeRedirectMs: int, afterRedirectMs: nat, token: Clock)

  /** The token-type label of forwarded calls. */
  function TokenTypeLabel(jwt: Jwt): (r: string)
    ensures r == "proxy:obo" || r == "proxy:m2m"
    ensures r == "proxy:obo" <==> IsOboToken(jwt)
  {
    "proxy:" + (if IsOboToken(jwt) then OBO else M2M)
  }

  /** A decision to forward is only made for a call that carries a token. */
  lemma ForwardHasToken(t: Targets, req: Inbound, token: Option<Jwt>, rs: RuleSet, ingressSet: IngressSet)
    ensures var d := Decide(t, req, token, rs, ingressSet);
            d.Success? && d.value.Forward? ==> token.Some?
  {
    var d := Decide(t, req, token, rs, ingressSet);
    if d.Success? && d.value.Forward? {
      ForwardOnlyApproved(t, req, token, rs, ingressSet, d.value.app, d.value.namespace, d.value.ingress, d.value.scope);
    }
  }

  /**
   * What the proxy's world holds at one moment: the calls sent onward, the token handler's
   * state, the commands sent to the last-seen store and its entries, and the counters and
   * histograms of the traffic.
   */
  datatype ProxyState = ProxyState(
    sent: seq<Request>, tokens: TokenState, lastSeenIssued: seq<Command>, lastSeenEntries: map<string, Entry>,
    apiCalls: map<(string, string), nat>, noAuth: map<string, nat>, testApiCalls: map<string, nat>,
    forwardedCalls: map<CallLabels, nat>, totalMs: seq<(TimingLabels, int)>, handlingMs: seq<(TimingLabels, int)>)

  /** One more forwarded call counted, under its labels with the given status. */
  function Counting(s: ProxyState, labels: CallLabels, status: string): ProxyState {
    s.(forwardedCalls := Bump(s.forwardedCalls, labels.(status := status)))
  }

  /**
   * The proxy: its cluster, the rule and ingress tables, the outbound client, the token handler,
   * the metrics and the Valkey bookkeeping.
   */
  class Proxy {
    const cluster: string
    const ruleSet: RuleSet
    const ingressSet: IngressSet
    const client: ScriptedClient<Request, Response>
    const tokens: TokenExchangeHandler
    const metrics: Metrics
    const valkey: Valkey

    /** The token handler counts into the proxy's metrics, and its cache is not the last-seen store. */
    predicate Valid()
      reads metrics
    {
      tokens.metrics == metrics && tokens.cache != valkey.commands && metrics.Valid()
    }

    constructor (cluster: string, ruleSet: RuleSet, ingressSet: IngressSet, client: ScriptedClient<Request, Response>,
                 tokens: TokenExchangeHandler, valkey: Valkey)
      requires tokens.cache != valkey.commands && tokens.metrics.Valid()
      ensures Valid()
      ensures this.cluster == cluster && this.ruleSet == ruleSet && this.ingressSet == ingressSet
      ensures this.client == client && this.tokens == tokens && this.metrics == tokens.metrics && this.valkey == valkey
    {
      this.cluster := cluster;
      this.ruleSet := ruleSet;
      this.ingressSet := ingressSet;
      this.client := client;
      this.tokens := tokens;
      this.metrics := tokens.metrics;
      this.valkey := valkey;
    }

    /** What the proxy's world holds now. */
    function State(): ProxyState
      reads client, tokens.idp, tokens.cache, tokens.metrics, metrics, valkey.commands
    {
      ProxyState(client.sent, tokens.State(), valkey.commands.issued, valkey.commands.entries,
                 metrics.apiCalls, metrics.noAuth, metrics.testApiCalls, metrics.forwardedCalls, metrics.totalMs, metrics.handlingMs)
    }

    /**
     * An answer to the forwarded call: counted with its status, its total and token-handling
     * times observed, the app's last-seen time written with a 90-day life, the answer passed
     * back without its hop-by-hop headers.
     */
    function Delivering(s: ProxyState, response: Response, labels: CallLabels, app: string, namespace: string, times: Times)
      : (Response, ProxyState)
    {
      var status := NatToString(response.status);
      var timing := TimingLabels(labels.targetApp, labels.tokenType, status);
      var totalCallTime := times.afterRedirectMs - times.startMs;
      var redirectCallTime := times.afterRedirectMs - times.beforeRedirectMs;
      var key := LastSeenKey(namespace, app);
      var stamp := NatToString(times.afterRedirectMs / 1000);
      (WithoutBlockedHeaders(response),
       Counting(s, labels, status).(
         totalMs := s.totalMs + [(timing, totalCallTime)],
         handlingMs := s.handlingMs + [(timing, totalCallTime - redirectCallTime)],
         lastSeenIssued := s.lastSeenIssued + [SetExCommand(key, LAST_SEEN_TTL, stamp)],
         lastSeenEntries := if valkey.commands.reachable
                            then Stored(s.lastSeenEntries, key, LAST_SEEN_TTL, stamp, times.afterRedirectMs)
                            else s.lastSeenEntries))
    }

    /**
     * The outbound call of a forwarded request: an answer is delivered; after an exception a
     * GET is sent once more and counted as a retry, any other method is counted and gets 500
     * with the exception's text.
     */
    function Sending(s: ProxyState, redirect: Request, labels: CallLabels, app: string, namespace: string, times: Times)
      : (Response, ProxyState)
    {
      var called := s.(sent := s.sent + [redirect]);
      match OutcomeAt(client.script, |s.sent|)
      case Responded(response) => Delivering(called, response, labels, app, namespace, times)
      case Threw(e) => Recovering(called, redirect, e, labels)
    }

    /** After the first call threw `e`: a GET is sent once more and counted as a retry, any other method gets 500. */
    function Recovering(s: ProxyState, redirect: Request, e: Exception, labels: CallLabels): (Response, ProxyState) {
      if redirect.verb != GET then (TextResponse(INTERNAL_SERVER_ERROR, e.message), Counting(s, labels, "500"))
      else
        var again := s.(sent := s.sent + [redirect]);
        match OutcomeAt(client.script, |s.sent|)
        case Responded(response) => (WithoutBlockedHeaders(response), Counting(again, labels, "retry-" + NatToString(response.status)))
        case Threw(e2) => (TextResponse(INTERNAL_SERVER_ERROR, e2.message), Counting(again, labels, "retry-500"))
    }

    /**
     * A forwarded call: the token is exchanged for one to `<cluster>.<namespace>.<app>`, then
     * the call is dispatched with the outcome of the exchange.
     */
    function Forwarding(s: ProxyState, req: Inbound, jwt: Jwt, app: string, namespace: string, ingress: Option<Ingress>,
                        scope: string, times: Times): (Result<Response, Error>, ProxyState)
    {
      var (token, ts) := tokens.Exchanging(s.tokens, jwt, TargetAlias(cluster, ingress, namespace, app), scope, times.token);
      Dispatching(s.(tokens := ts), req, token, TokenTypeLabel(jwt), app, namespace, ingress, times)
    }

    /**
     * A failed exchange ends the call before anything is sent; otherwise the call goes to the
     * target's URL with the new token in place of the control headers and the old token.
     */
    function Dispatching(s: ProxyState, req: Inbound, token: Result<string, Error>, tokenType: string, app: string,
                         namespace: string, ingress: Option<Ingress>, times: Times): (Result<Response, Error>, ProxyState)
    {
      if token.Failure? then (Failure(token.error), s)
      else
        var (response, sent) := Sending(s, Outbound(req, token.value, app, namespace, ingress),
                                        CallLabels(app, Mask(req.rest), ingress.GetOr(""), tokenType, ""), app, namespace, times);
        (Success(response), sent)
    }

    /** The call sent to the target: the inbound method and body, the target's URL, the forwarded headers. */
    function Outbound(req: Inbound, token: string, app: string, namespace: string, ingress: Option<Ingress>): Request {
      Request(req.verb, OutboundUrl(ingress, namespace, app, req.uri), ForwardHeaders(req.headers, token), req.body)
    }

    /**
     * What the handler does with a decision other than forwarding: a failure or a reply of the
     * proxy's own leaves the world as it is; a missing token is counted against the app and
     * gets 401; only-redirect mode passes the call on once, an exception of the client being
     * the handler's.
     */
    function Acting(s: ProxyState, req: Inbound, d: Result<Decision, Error>): (Result<Response, Error>, ProxyState)
      requires !(d.Success? && d.value.Forward?)
    {
      if d.Failure? then (Failure(d.error), s)
      else match d.value
        case Reply(response) => (Success(response), s)
        case NoToken(app) => (Success(TextResponse(UNAUTHORIZED, NOT_AUTHORIZED)), s.(noAuth := Bump(s.noAuth, app)))
        case PassOn(url, headers) =>
          var o := OutcomeAt(client.script, |s.sent|);
          (if o.Responded? then Success(WithoutBlockedHeaders(o.response)) else Failure(Thrown(o.exception)),
           s.(sent := s.sent + [Request(req.verb, url, headers, req.body)]))
    }

    /**
     * redirectHttpHandler: a call naming its app is counted under the app and the masked path;
     * a forwarded call is as Forwarding says, any other decision as Acting says.
     */
    function Handling(s: ProxyState, req: Inbound, token: Option<Jwt>, times: Times): (Result<Response, Error>, ProxyState) {
      var t := TargetsOf(req.headers);
      var counted := if t.app.Some? then s.(apiCalls := Bump(s.apiCalls, (t.app.value, Mask(req.rest)))) else s;
      var d := Decide(t, req, token, ruleSet, ingressSet);
      ForwardHasToken(t, req, token, ruleSet, ingressSet);
      if d.Success? && d.value.Forward? then
        Forwarding(counted, req, token.value, d.value.app, d.value.namespace, d.value.ingress, d.value.scope, times)
      else Acting(counted, req, d)
    }

    /** The outbound call of the proxied path, with the one retry of a GET that threw. */
    method Send(redirect: Request, labels: CallLabels, app: string, namespace: string, times: Times)
      returns (r: Response)
      requires Valid()
      modifies client, metrics, valkey.commands
      ensures Valid()
      ensures (r, State()) == Sending(old(State()), redirect, labels, app, namespace, times)
    {
      var first := client.Call(redirect);
      match first
      case Responded(response) =>
        r := Deliver(response, labels, app, namespace, times);
      case Threw(e) =>
        r := AfterException(redirect, e, labels);
    }

    method Deliver(response: Response, labels: CallLabels, app: string, namespace: string, times: Times)
      returns (r: Response)
      requires Valid()
      modifies metrics, valkey.commands
      ensures Valid()
      ensures (r, State()) == Delivering(old(State()), response, labels, app, namespace, times)
    {
      var totalCallTime := times.afterRedirectMs - times.startMs;
      var redirectCallTime := times.afterRedirectMs - times.beforeRedirectMs;
      metrics.ForwardedCallsInc(labels.(status := NatToString(response.status)),
                                Some(totalCallTime), Some(totalCallTime - redirectCallTime));
      valkey.UpdateAppLastSeen(app, namespace, LAST_SEEN_TTL, times.afterRedirectMs);
      r := WithoutBlockedHeaders(response);
    }

    method AfterException(redirect: Request, e: Exception, labels: CallLabels) returns (r: Response)
      requires Valid()
      modifies client, metrics
      ensures Valid()
      ensures (r, State()) == Recovering(old(State()), redirect, e, labels)
    {
      if redirect.verb == GET {
        var second := client.Call(redirect);
        match second
        case Responded(response) =>
          metrics.ForwardedCallsInc(labels.(status := "retry-" + NatToString(response.status)), None, None);
          r := WithoutBlockedHeaders(response);
        case Threw(e2) =>
          metrics.ForwardedCallsInc(labels.(status := "retry-500"), None, None);
          r := TextResponse(INTERNAL_SERVER_ERROR, e2.message);
      } else {
        metrics.ForwardedCallsInc(labels.(status := "500"), None, None);
        r := TextResponse(INTERNAL_SERVER_ERROR, e.message);
      }
    }

    /** redirectHttpHandler. `token` is the validator's first valid token of the call, if any. */
    method Redirect(req: Inbound, token: Option<Jwt>, times: Times) returns (r: Result<Response, Error>)
      requires Valid()
      modifies client, tokens.idp, tokens.cache, metrics, valkey.commands
      ensures Valid()
      ensures (r, State()) == Handling(old(State()), req, token, times)
    {
      var t := TargetsOf(req.headers);
      if t.app.Some? {
        metrics.ApiCallsInc(t.app.value, Mask(req.rest));
      }
      var d := Decide(t, req, token, ruleSet, ingressSet);
      ForwardHasToken(t, req, token, ruleSet, ingressSet);
      if d.Success? && d.value.Forward? {
        var f := d.value;
        r := Forward(req, token.value, f.app, f.namespace, f.ingress, f.scope, times);
      } else {
        r := Act(req, d);
      }
    }

    method Act(req: Inbound, d: Result<Decision, Error>) returns (r: Result<Response, Error>)
      requires Valid()
      requires !(d.Success? && d.value.Forward?)
      modifies client, metrics
      ensures Valid()
      ensures (r, State()) == Acting(old(State()), req, d)
    {
      if d.Failure? {
        return Failure(d.error);
      }
      match d.value
      case Reply(response) =>
        r := Success(response);
      case NoToken(app) =>
        metrics.NoAuthInc(app);
        r := Success(TextResponse(UNAUTHORIZED, NOT_AUTHORIZED));
      case PassOn(url, headers) =>
        var o := client.Call(Request(req.verb, url, headers, req.body));
        r := if o.Responded? then Success(WithoutBlockedHeaders(o.response)) else Failure(Thrown(o.exception));
    }

    method Forward(req: Inbound, jwt: Jwt, app: string, namespace: string, ingress: Option<Ingress>, scope: string, times: Times)
      returns (r: Result<Response, Error>)
      requires Valid()
      modifies client, tokens.idp, tokens.cache, metrics, valkey.commands
      ensures Valid()
      ensures (r, State()) == Forwarding(old(State()), req, jwt, app, namespace, ingress, scope, times)
    {
      var alias := TargetAlias(cluster, ingress, namespace, app);
      var token := tokens.Exchange(jwt, alias, scope, times.token);
      if token.Failure? {
        return Failure(token.error);
      }
      var labels := CallLabels(app, Mask(req.rest), ingress.GetOr(""), TokenTypeLabel(jwt), "");
      var response := Send(Outbound(req, token.value, app, namespace, ingress), labels, app, namespace, times);
      r := Success(response);
    }

    /**
     * isReadyHttpHandler: 200 once the Valkey check has passed and the token validator is
     * ready, 503 until then. `validatorReady` is the validator's answer.
     */
    method IsReadyHandler(validatorReady: bool, nowMs: int, queryMillis: int) returns (r: Response)
      modifies valkey, valkey.commands
      ensures r == if old(valkey.initialCheckPassed) && validatorReady then TextResponse(OK, "")
                   else TextResponse(SERVICE_UNAVAILABLE, "")
      ensures valkey.commands.entries == old(valkey.commands.entries)
      ensures !old(valkey.initialCheckPassed) ==>
                valkey.initialCheckPassed == (valkey.commands.reachable && queryMillis < PROBE_LIMIT_MS)
                && valkey.commands.issued == old(valkey.commands.issued) + [GetCommand(PROBE_KEY)]
      ensures old(valkey.initialCheckPassed) ==>
                valkey.initialCheckPassed && valkey.commands.issued == old(valkey.commands.issued)
    {
      var ready := valkey.IsReady(nowMs, queryMillis);
      if ready && validatorReady {
        r := TextResponse(OK, "");
      } else {
        r := TextResponse(SERVICE_UNAVAILABLE, "");
      }
    }

    /**
     * An outbound call that is answered is sent once and counted with the answer's status; the
     * answer is passed back with its status and body and without blocked headers, and the app's
     * last-seen time is written with its 90-day life. The token handler and the other counters
     * are left alone.
     */
    lemma SendingAnswered(s: ProxyState, redirect: Request, labels: CallLabels, app: string, namespace: string, times: Times)
      requires OutcomeAt(client.script, |s.sent|).Responded?
      ensures var (r, after) := Sending(s, redirect, labels, app, namespace, times);
              var answer := OutcomeAt(client.script, |s.sent|).response;
              && r.status == answer.status && r.body == answer.body
              && (forall h :: h in r.headers <==> h in answer.headers && Lower(h.0) !in BLOCK_FROM_RESPONSE)
              && after.sent == s.sent + [redirect]
              && after.forwardedCalls == Bump(s.forwardedCalls, labels.(status := NatToString(answer.status)))
              && after.lastSeenIssued == s.lastSeenIssued + [SetExCommand(LastSeenKey(namespace, app), LAST_SEEN_TTL, NatToString(times.afterRedirectMs / 1000))]
              && after.tokens == s.tokens && after.apiCalls == s.apiCalls
              && after.noAuth == s.noAuth && after.testApiCalls == s.testApiCalls
    {
    }

    /**
     * An outbound call other than a GET that throws is not sent again: it is counted with
     * status 500 and answered 500 with the exception's text, and no last-seen time is written.
     */
    lemma SendingFailed(s: ProxyState, redirect: Request, labels: CallLabels, app: string, namespace: string, times: Times)
      requires OutcomeAt(client.script, |s.sent|).Threw? && redirect.verb != GET
      ensures var (r, after) := Sending(s, redirect, labels, app, namespace, times);
              && r == TextResponse(INTERNAL_SERVER_ERROR, OutcomeAt(client.script, |s.sent|).exception.message)
              && after.sent == s.sent + [redirect]
              && after.forwardedCalls == Bump(s.forwardedCalls, labels.(status := "500"))
              && after.lastSeenIssued == s.lastSeenIssued && after.lastSeenEntries == s.lastSeenEntries
              && after.tokens == s.tokens && after.apiCalls == s.apiCalls
              && after.noAuth == s.noAuth && after.testApiCalls == s.testApiCalls
    {
    }

    /**
     * A GET that throws is sent once more: the second answer is passed back, or 500 with the
     * second exception's text, and counted under a status with the prefix "retry-"; no
     * last-seen time is written.
     */
    lemma SendingRetried(s: ProxyState, redirect: Request, labels: CallLabels, app: string, namespace: string, times: Times)
      requires OutcomeAt(client.script, |s.sent|).Threw? && redirect.verb == GET
      ensures var (r, after) := Sending(s, redirect, labels, app, namespace, times);
              var second := OutcomeAt(client.script, |s.sent| + 1);
              && (second.Responded? ==>
                    && r.status == second.response.status && r.body == second.response.body
                    && after.forwardedCalls == Bump(s.forwardedCalls, labels.(status := "retry-" + NatToString(second.response.status))))
              && (second.Threw? ==>
                    && r == TextResponse(INTERNAL_SERVER_ERROR, second.exception.message)
                    && after.forwardedCalls == Bump(s.forwardedCalls, labels.(status := "retry-500")))
              && after.sent == s.sent + [redirect, redirect]
              && after.lastSeenIssued == s.lastSeenIssued && after.lastSeenEntries == s.lastSeenEntries
              && after.tokens == s.tokens && after.apiCalls == s.apiCalls
              && after.noAuth == s.noAuth && after.testApiCalls == s.testApiCalls
    {
      var called := s.(sent := s.sent + [redirect]);
      var again := called.(sent := called.sent + [redirect]);
      assert s.sent + [redirect] + [redirect] == s.sent + [redirect, redirect];
      match OutcomeAt(client.script, |s.sent| + 1)
      case Responded(response) =>
        assert Sending(s, redirect, labels, app, namespace, times)
            == (WithoutBlockedHeaders(response), Counting(again, labels, "retry-" + NatToString(response.status)));
      case Threw(e2) =>
        assert Sending(s, redirect, labels, app, namespace, times)
            == (TextResponse(INTERNAL_SERVER_ERROR, e2.message), Counting(again, labels, "retry-500"));
    }

    /**
     * Every call sent to the target goes to the target's URL with the inbound method and body,
     * and carries the exchanged token as its one Authorization header; a failed exchange sends
     * nothing.
     */
    lemma DispatchedCallsCarryToken(s: ProxyState, req: Inbound, token: Result<string, Error>, tokenType: string, app: string,
                                    namespace: string, ingress: Option<Ingress>, times: Times)
      ensures var (r, after) := Dispatching(s, req, token, tokenType, app, namespace, ingress, times);
              && (token.Failure? ==> r == Failure(token.error) && after == s)
              && (token.Success? ==>
                    && r.Success?
                    && (after.sent == s.sent + [Outbound(req, token.value, app, namespace, ingress)] ||
                        after.sent == s.sent + [Outbound(req, token.value, app, namespace, ingress), Outbound(req, token.value, app, namespace, ingress)])
                    && Outbound(req, token.value, app, namespace, ingress).verb == req.verb
                    && Outbound(req, token.value, app, namespace, ingress).body == req.body
                    && Outbound(req, token.value, app, namespace, ingress).url == OutboundUrl(ingress, namespace, app, req.uri)
                    && HeaderValue(Outbound(req, token.value, app, namespace, ingress).headers, "authorization") == Some("Bearer " + token.value))
              && after.tokens == s.tokens && after.apiCalls == s.apiCalls
              && after.noAuth == s.noAuth && after.testApiCalls == s.testApiCalls
    {
      if token.Success? {
        var redirect := Outbound(req, token.value, app, namespace, ingress);
        var labels := CallLabels(app, Mask(req.rest), ingress.GetOr(""), tokenType, "");
        ForwardHeadersAuthorization(req.headers, token.value);
        if OutcomeAt(client.script, |s.sent|).Responded? {
          SendingAnswered(s, redirect, labels, app, namespace, times);
        } else if req.verb != GET {
          SendingFailed(s, redirect, labels, app, namespace, times);
        } else {
          SendingRetried(s, redirect, labels, app, namespace, times);
        }
      }
    }

    /**
     * A decision other than forwarding reaches neither the token handler nor the last-seen
     * store, and sends a call only when it passes one on, exactly one. Only a whitelisted call
     * without a token is counted as unauthorized.
     */
    lemma ActingLocally(s: ProxyState, req: Inbound, d: Result<Decision, Error>)
      requires !(d.Success? && d.value.Forward?)
      ensures var after := Acting(s, req, d).1;
              && after.apiCalls == s.apiCalls && after.testApiCalls == s.testApiCalls
              && after.noAuth == (if d.Success? && d.value.NoToken? then Bump(s.noAuth, d.value.app) else s.noAuth)
              && after.sent == (if d.Success? && d.value.PassOn? then s.sent + [Request(req.verb, d.value.url, d.value.headers, req.body)] else s.sent)
              && after.tokens == s.tokens && after.lastSeenIssued == s.lastSeenIssued && after.lastSeenEntries == s.lastSeenEntries
    {
      if d.Success? {
        match d.value
        case Reply(_) =>
        case NoToken(app) =>
          assert Acting(s, req, d).1 == s.(noAuth := Bump(s.noAuth, app));
        case PassOn(url, headers) =>
          assert Acting(s, req, d).1 == s.(sent := s.sent + [Request(req.verb, url, headers, req.body)]);
      }
    }

    /** A forwarded call counts nothing but forwarded calls, and only adds to the calls sent. */
    lemma ForwardingCounters(s: ProxyState, req: Inbound, jwt: Jwt, app: string, namespace: string,
                             ingress: Option<Ingress>, scope: string, times: Times)
      ensures var after := Forwarding(s, req, jwt, app, namespace, ingress, scope, times).1;
              && after.apiCalls == s.apiCalls && after.testApiCalls == s.testApiCalls && after.noAuth == s.noAuth
              && |s.sent| <= |after.sent| && after.sent[..|s.sent|] == s.sent
    {
      var (tk, ts) := tokens.Exchanging(s.tokens, jwt, TargetAlias(cluster, ingress, namespace, app), scope, times.token);
      DispatchedCallsCarryToken(s.(tokens := ts), req, tk, TokenTypeLabel(jwt), app, namespace, ingress, times);
    }

    /** A call is counted under its app and masked path exactly when it names an app. */
    lemma CountedByApp(s: ProxyState, req: Inbound, token: Option<Jwt>, times: Times)
      ensures var after := Handling(s, req, token, times).1;
              var t := TargetsOf(req.headers);
              && after.apiCalls == (if t.app.Some? then Bump(s.apiCalls, (t.app.value, Mask(req.rest))) else s.apiCalls)
              && after.testApiCalls == s.testApiCalls
    {
      var t := TargetsOf(req.headers);
      var counted := if t.app.Some? then s.(apiCalls := Bump(s.apiCalls, (t.app.value, Mask(req.rest)))) else s;
      var d := Decide(t, req, token, ruleSet, ingressSet);
      ForwardHasToken(t, req, token, ruleSet, ingressSet);
      if d.Success? && d.value.Forward? {
        var f := d.value;
        assert Handling(s, req, token, times) == Forwarding(counted, req, token.value, f.app, f.namespace, f.ingress, f.scope, times);
        ForwardingCounters(counted, req, token.value, f.app, f.namespace, f.ingress, f.scope, times);
      } else {
        assert Handling(s, req, token, times) == Acting(counted, req, d);
        ActingLocally(counted, req, d);
      }
    }

    /**
     * A call leaves the proxy only with a valid token, passed on in only-redirect mode or
     * forwarded after its rules approved it; only a forwarded call reaches the token handler or
     * writes a last-seen time.
     */
    lemma OnlyAllowedCallsLeave(s: ProxyState, req: Inbound, token: Option<Jwt>, times: Times)
      ensures var after := Handling(s, req, token, times).1;
              var d := Decide(TargetsOf(req.headers), req, token, ruleSet, ingressSet);
              && (after.sent != s.sent ==> token.Some? && d.Success? && (d.value.PassOn? || d.value.Forward?))
              && (after.tokens != s.tokens || after.lastSeenIssued != s.lastSeenIssued ==> token.Some? && d.Success? && d.value.Forward?)
              && (d.Success? && d.value.PassOn? ==> TargetsOf(req.headers).onlyRedirect.Some?)
    {
      var t := TargetsOf(req.headers);
      var counted := if t.app.Some? then s.(apiCalls := Bump(s.apiCalls, (t.app.value, Mask(req.rest)))) else s;
      var d := Decide(t, req, token, ruleSet, ingressSet);
      ForwardHasToken(t, req, token, ruleSet, ingressSet);
      if !(d.Success? && d.value.Forward?) {
        assert Handling(s, req, token, times) == Acting(counted, req, d);
        ActingLocally(counted, req, d);
      }
    }
  }
}

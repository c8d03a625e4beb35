/**
 * The whitelist: namespace -> app -> rules, where a rule is the string "METHOD PATTERN [scope:NAME]".
 * Rule evaluation, namespace deduction, rule lookup, scope derivation and the dry-run report.
 */
module Whitelist {
  import opened Wrappers
  import opened Text
  import opened Http
  import opened Pattern
  import opened Errors
  import opened Ingresses
  import opened Telemetry

  type Rule = string

  type RuleSet = map<string, map<string, seq<Rule>>>

  /** The scope asked for when no rule names one. */
  const DEFAULT_SCOPE := "defaultaccess"

  /**
   * `rule.evaluateAsRule(method, path)`. The first word must name an HTTP method, or the call fails;
   * a rule without a second word fails; when the methods differ the pattern is never compiled,
   * so the answer is false even for a pattern that would not compile.
   */
  function EvaluateAsRule(rule: Rule, m: Method, path: string): Result<bool, Error>
  {
    var parts := Split(rule, ' ');
    match MethodOf(parts[0])
    case None => Failure(UnknownMethod(parts[0]))
    case Some(methodPart) =>
      if |parts| < 2 then Failure(MissingPattern(rule))
      else if m != methodPart then Success(false)
      else
        match FullMatch(parts[1], path)
        case None => Failure(PatternOutsideSubset(parts[1]))
        case Some(b) => Success(b)
  }

  /**
   * What evaluation means: true iff the rule's method is the request's method and its pattern
   * fully matches the path; an unknown method name or a missing pattern is an error, while a
   * different method is a plain false.
   */
  lemma EvaluateAsRuleMeaning(rule: Rule, m: Method, path: string)
    ensures var parts := Split(rule, ' ');
      (EvaluateAsRule(rule, m, path) == Success(true)
       <==> MethodOf(parts[0]) == Some(m) && |parts| >= 2 && FullMatch(parts[1], path) == Some(true))
    ensures var parts := Split(rule, ' ');
      MethodOf(parts[0]).None? ==> EvaluateAsRule(rule, m, path) == Failure(UnknownMethod(parts[0]))
    ensures var parts := Split(rule, ' ');
      MethodOf(parts[0]).Some? && |parts| < 2 ==> EvaluateAsRule(rule, m, path) == Failure(MissingPattern(rule))
    ensures var parts := Split(rule, ' ');
      MethodOf(parts[0]).Some? && MethodOf(parts[0]) != Some(m) && |parts| >= 2 ==> EvaluateAsRule(rule, m, path) == Success(false)
  {
  }

  /** The namespaces whose app table lists `app`. */
  function NamespacesOf(rs: RuleSet, app: string): set<string> {
    set ns | ns in rs && app in rs[ns]
  }

  lemma SingletonUnique(s: set<string>, a: string, b: string)
    requires |s| == 1 && a in s && b in s
    ensures a == b
  {
    if a != b {
      assert {a, b} <= s;
      assert |{a, b}| == 2;
      SubsetCardinality({a, b}, s);
    }
  }

  lemma SubsetCardinality(a: set<string>, b: set<string>)
    requires a <= b
    ensures |a| <= |b|
  {
    assert b == a + (b - a);
  }

  /**
   * `ruleSet.namespaceOfApp(app)`: the one namespace listing the app, None when none does,
   * and an IllegalStateException when two or more do.
   */
  function NamespaceOfApp(rs: RuleSet, app: string): (r: Result<Option<string>, Error>)
    ensures r == Success(None) <==> NamespacesOf(rs, app) == {}
    ensures r.Success? && r.value.Some? ==> NamespacesOf(rs, app) == {r.value.value}
    ensures |NamespacesOf(rs, app)| == 1 ==> r.Success? && r.value.Some?
    ensures r.Failure? <==> |NamespacesOf(rs, app)| > 1
    ensures r.Failure? ==> r.error == AmbiguousApp(app)
  {
    var owners := NamespacesOf(rs, app);
    if |owners| > 1 then Failure(AmbiguousApp(app))
    else if owners == {} then Success(None)
    else
      assert forall a, b | a in owners && b in owners :: a == b by {
        forall a, b | a in owners && b in owners ensures a == b {
          SingletonUnique(owners, a, b);
        }
      }
      var ns :| ns in owners;
      assert owners == {ns};
      Success(Some(ns))
  }

  /** `ruleSet.rulesOf(app, namespace)`: the app's rules, or no rules; never fails. */
  function RulesOf(rs: RuleSet, app: string, namespace: string): (r: seq<Rule>)
    ensures namespace in rs && app in rs[namespace] ==> r == rs[namespace][app]
    ensures namespace !in rs || app !in rs[namespace] ==> r == []
  {
    if namespace in rs && app in rs[namespace] then rs[namespace][app] else []
  }

  /**
   * The namespace a request targets: the namespace header when given (the rules are then
   * not searched, so an ambiguous app is no error), else the deduced one, else "".
   */
  function ResolveNamespace(header: Option<string>, rs: RuleSet, app: string): (r: Result<string, Error>)
    ensures header.Some? ==> r == Success(header.value)
    ensures header.None? && NamespacesOf(rs, app) == {} ==> r == Success("")
    ensures header.None? && |NamespacesOf(rs, app)| == 1 ==> r.Success? && NamespacesOf(rs, app) == {r.value}
    ensures r.Failure? <==> header.None? && |NamespacesOf(rs, app)| > 1
  {
    match header
    case Some(ns) => Success(ns)
    case None =>
      match NamespaceOfApp(rs, app)
      case Failure(e) => Failure(e)
      case Success(found) => Success(found.GetOr(""))
  }

  /** The scope one rule names: its third word without a `scope:` prefix, or "" when it has none. */
  function ScopeOf(rule: Rule): (r: string)
    ensures ' ' !in r
  {
    var parts := Split(rule, ' ');
    if |parts| > 2 then RemovePrefix(parts[2], "scope:") else ""
  }

  /** `rules.findScope()`: the first non-empty scope in list order, else the default scope. */
  function FindScope(rules: seq<Rule>): (r: string)
    ensures r != ""
    ensures (forall i :: 0 <= i < |rules| ==> ScopeOf(rules[i]) == "") ==> r == DEFAULT_SCOPE
    ensures forall i ::
              0 <= i < |rules| && ScopeOf(rules[i]) != "" && (forall j :: 0 <= j < i ==> ScopeOf(rules[j]) == "")
              ==> r == ScopeOf(rules[i])
  {
    if rules == [] then DEFAULT_SCOPE
    else if ScopeOf(rules[0]) != "" then ScopeOf(rules[0])
    else
      var r := FindScope(rules[1..]);
      assert forall i :: 1 <= i < |rules| ==> rules[i] == rules[1..][i - 1];
      r
  }

  /**
   * `rules.filter { it.evaluateAsRule(method, path) }`: the rules that accept the call, in order;
   * the first rule that fails to evaluate makes the whole filter fail.
   */
  function ApprovedRules(rules: seq<Rule>, m: Method, path: string): Result<seq<Rule>, Error>
  {
    if rules == [] then Success([])
    else
      match EvaluateAsRule(rules[0], m, path)
      case Failure(e) => Failure(e)
      case Success(accepted) =>
        match ApprovedRules(rules[1..], m, path)
        case Failure(e) => Failure(e)
        case Success(rest) => Success(if accepted then [rules[0]] + rest else rest)
  }

  /**
   * What the filter means: on success every rule evaluated and exactly the accepting rules are
   * kept; on failure the error is that of the first rule that could not be evaluated.
   */
  lemma {:induction false} ApprovedRulesMeaning(rules: seq<Rule>, m: Method, path: string)
    ensures var r := ApprovedRules(rules, m, path);
      r.Success? ==> forall i :: 0 <= i < |rules| ==> EvaluateAsRule(rules[i], m, path).Success?
    ensures var r := ApprovedRules(rules, m, path);
      r.Success? ==> forall x :: x in r.value <==> x in rules && EvaluateAsRule(x, m, path) == Success(true)
    ensures var r := ApprovedRules(rules, m, path);
      r.Failure? ==> exists i :: (0 <= i < |rules| && EvaluateAsRule(rules[i], m, path) == Failure(r.error)
        && forall j :: 0 <= j < i ==> EvaluateAsRule(rules[j], m, path).Success?)
  {
    if rules != [] {
      ApprovedRulesMeaning(rules[1..], m, path);
      assert forall i :: 1 <= i < |rules| ==> rules[i] == rules[1..][i - 1];
      var r := ApprovedRules(rules, m, path);
      if r.Failure? && EvaluateAsRule(rules[0], m, path).Success? {
        var i :| 0 <= i < |rules[1..]| && EvaluateAsRule(rules[1..][i], m, path) == Failure(r.error)
          && forall j :: 0 <= j < i ==> EvaluateAsRule(rules[1..][j], m, path).Success?;
        assert EvaluateAsRule(rules[i + 1], m, path) == Failure(r.error);
      }
    }
  }

  /**
   * The filter keeps the rules' order: filtering a concatenation filters each part, and the first
   * part's failure comes before the second's.
   */
  lemma {:induction false} ApprovedRulesOrder(a: seq<Rule>, b: seq<Rule>, m: Method, path: string)
    ensures var ra := ApprovedRules(a, m, path);
            var rb := ApprovedRules(b, m, path);
            ApprovedRules(a + b, m, path)
              == if ra.Failure? then ra else if rb.Failure? then rb else Success(ra.value + rb.value)
  {
    if a == [] {
      assert a + b == b;
      var rb := ApprovedRules(b, m, path);
      if rb.Success? {
        assert [] + rb.value == rb.value;
      }
    } else {
      assert (a + b)[0] == a[0];
      assert (a + b)[1..] == a[1..] + b;
      ApprovedRulesOrder(a[1..], b, m, path);
      var ra := ApprovedRules(a[1..], m, path);
      var rb := ApprovedRules(b, m, path);
      if ra.Success? && rb.Success? && EvaluateAsRule(a[0], m, path) == Success(true) {
        assert [a[0]] + (ra.value + rb.value) == ([a[0]] + ra.value) + rb.value;
      }
    }
  }

  /** A single rule is kept iff it accepts the call, and its evaluation error is the filter's. */
  lemma ApprovedRulesOne(x: Rule, m: Method, path: string)
    ensures ApprovedRules([x], m, path)
              == match EvaluateAsRule(x, m, path)
                 case Failure(e) => Failure(e)
                 case Success(accepted) => Success(if accepted then [x] else [])
  {
    assert [x][0] == x;
    assert ApprovedRules([x][1..], m, path) == Success([]);
    assert [x] + [] == [x];
  }

  /** The filter fails with the error of the first rule that fails to evaluate. */
  lemma {:induction false} ApprovedRulesFailsAt(rules: seq<Rule>, m: Method, path: string, i: nat)
    requires i < |rules|
    requires forall j :: 0 <= j < i ==> EvaluateAsRule(rules[j], m, path).Success?
    requires EvaluateAsRule(rules[i], m, path).Failure?
    ensures ApprovedRules(rules, m, path) == Failure(EvaluateAsRule(rules[i], m, path).error)
  {
    if i > 0 {
      assert forall j :: 0 <= j < i - 1 ==> rules[1..][j] == rules[j + 1];
      ApprovedRulesFailsAt(rules[1..], m, path, i - 1);
    }
  }

  /** When every rule evaluates, the filter succeeds, and it keeps some rule iff some rule accepts. */
  lemma {:induction false} ApprovedRulesAllSucceed(rules: seq<Rule>, m: Method, path: string)
    requires forall j :: 0 <= j < |rules| ==> EvaluateAsRule(rules[j], m, path).Success?
    ensures ApprovedRules(rules, m, path).Success?
    ensures ApprovedRules(rules, m, path).value != []
        <==> exists j :: 0 <= j < |rules| && EvaluateAsRule(rules[j], m, path) == Success(true)
  {
    if rules != [] {
      assert forall j :: 0 <= j < |rules| - 1 ==> rules[1..][j] == rules[j + 1];
      ApprovedRulesAllSucceed(rules[1..], m, path);
      if exists j :: 0 <= j < |rules| && EvaluateAsRule(rules[j], m, path) == Success(true) {
        var j :| 0 <= j < |rules| && EvaluateAsRule(rules[j], m, path) == Success(true);
        if j > 0 {
          assert rules[1..][j - 1] == rules[j];
        }
      }
    }
  }

  /** Kotlin's rendering of a Boolean. */
  function BoolText(b: bool): string { if b then "true" else "false" }

  /** One report line per rule: what was evaluated and what came out. */
  function ReportLine(rule: Rule, verb: string, rest: string, accepted: bool): string {
    LineStart(rule, verb, rest) + BoolText(accepted) + "\n"
  }

  /** What the report says before the rule is evaluated. */
  function LineStart(rule: Rule, verb: string, rest: string): string {
    "Evaluating " + rule + " on method " + verb + ", path /" + rest + " "
  }

  /** The predicate the dry-run filter applies to each rule. */
  type Evaluator = Rule -> Result<bool, Error>

  /** The filter's predicate for a request with method `m` and path `path`. */
  function EvaluatorFor(m: Method, path: string): Evaluator {
    rule => EvaluateAsRule(rule, m, path)
  }

  /**
   * The report lines of the first `i` rules as `accepts` judges them, together with whether one of
   * them was accepted; the first rule that fails to evaluate turns the whole report into its error.
   */
  function LinesUpTo(rules: seq<Rule>, accepts: Evaluator, i: nat, verb: string, rest: string): Result<(string, bool), Error>
    requires i <= |rules|
  {
    if i == 0 then Success(("", false))
    else
      match LinesUpTo(rules, accepts, i - 1, verb, rest)
      case Failure(e) => Failure(e)
      case Success((lines, approved)) =>
        match accepts(rules[i - 1])
        case Failure(e) => Failure(e)
        case Success(accepted) => Success((lines + ReportLine(rules[i - 1], verb, rest, accepted), approved || accepted))
  }

  /** Reading the lines: every rule evaluated, or the error is the first failed one; and whether some accepted. */
  lemma {:induction false} LinesUpToMeaning(rules: seq<Rule>, accepts: Evaluator, i: nat, verb: string, rest: string)
    requires i <= |rules|
    ensures var r := LinesUpTo(rules, accepts, i, verb, rest);
      r.Success? ==> forall j :: 0 <= j < i ==> accepts(rules[j]).Success?
    ensures var r := LinesUpTo(rules, accepts, i, verb, rest);
      r.Success? ==> (r.value.1 <==> exists j :: 0 <= j < i && accepts(rules[j]) == Success(true))
    ensures var r := LinesUpTo(rules, accepts, i, verb, rest);
      r.Failure? ==> exists k :: (0 <= k < i && accepts(rules[k]) == Failure(r.error)
        && forall j :: 0 <= j < k ==> accepts(rules[j]).Success?)
  {
    if i > 0 {
      LinesUpToMeaning(rules, accepts, i - 1, verb, rest);
    }
  }

  /** One turn of the report loop: the report, which holds the lines so far, grows by the next rule's line. */
  lemma ExtendReport(head: string, report: string, rules: seq<Rule>, accepts: Evaluator, i: nat, verb: string, rest: string)
    requires i < |rules|
    requires LinesUpTo(rules, accepts, i, verb, rest).Success?
    requires report == head + LinesUpTo(rules, accepts, i, verb, rest).value.0
    requires accepts(rules[i]).Success?
    ensures LinesUpTo(rules, accepts, i + 1, verb, rest).Success?
    ensures report + LineStart(rules[i], verb, rest) + BoolText(accepts(rules[i]).value) + "\n"
      == head + LinesUpTo(rules, accepts, i + 1, verb, rest).value.0
    ensures LinesUpTo(rules, accepts, i + 1, verb, rest).value.1
      == (LinesUpTo(rules, accepts, i, verb, rest).value.1 || accepts(rules[i]).value)
  {
    var lines := LinesUpTo(rules, accepts, i, verb, rest).value.0;
    var line := ReportLine(rules[i], verb, rest, accepts(rules[i]).value);
    AppendAssociates(report, LineStart(rules[i], verb, rest), BoolText(accepts(rules[i]).value), "\n");
    AppendAssociates(head, lines, line, "");
  }

  /** Once the first `k` rules fail, the lines of all of them fail the same way. */
  lemma {:induction false} LinesUpToFailure(rules: seq<Rule>, accepts: Evaluator, k: nat, i: nat, verb: string, rest: string)
    requires k <= i <= |rules|
    requires LinesUpTo(rules, accepts, k, verb, rest).Failure?
    ensures LinesUpTo(rules, accepts, i, verb, rest) == LinesUpTo(rules, accepts, k, verb, rest)
  {
    if i > k {
      LinesUpToFailure(rules, accepts, k, i - 1, verb, rest);
    }
  }

  /** The loop-built lines agree with the rule filter: same error, and the same verdict. */
  lemma LinesAgree(rules: seq<Rule>, m: Method, rest: string)
    ensures var r := LinesUpTo(rules, EvaluatorFor(m, "/" + rest), |rules|, MethodName(m), rest);
      r.Failure? <==> ApprovedRules(rules, m, "/" + rest).Failure?
    ensures var r := LinesUpTo(rules, EvaluatorFor(m, "/" + rest), |rules|, MethodName(m), rest);
      r.Failure? ==> r.error == ApprovedRules(rules, m, "/" + rest).error
    ensures var r := LinesUpTo(rules, EvaluatorFor(m, "/" + rest), |rules|, MethodName(m), rest);
      r.Success? ==> (r.value.1 <==> ApprovedRules(rules, m, "/" + rest).value != [])
  {
    var accepts := EvaluatorFor(m, "/" + rest);
    LinesUpToMeaning(rules, accepts, |rules|, MethodName(m), rest);
    var r := LinesUpTo(rules, accepts, |rules|, MethodName(m), rest);
    if r.Failure? {
      var i :| 0 <= i < |rules| && accepts(rules[i]) == Failure(r.error)
        && forall j :: 0 <= j < i ==> accepts(rules[j]).Success?;
      ApprovedRulesFailsAt(rules, m, "/" + rest, i);
    } else {
      ApprovedRulesAllSucceed(rules, m, "/" + rest);
    }
  }

  function IngressLine(ingress: Option<Ingress>): string {
    match ingress
    case Some(url) => "Targets ingress " + url + "\n"
    case None => "Targets app in gcp\n"
  }

  function Verdict(approved: bool): string { if approved then "Approved" else "Not approved" }

  /** The verdict can be read off the end of the report. */
  lemma VerdictAtEnd(prefix: string, approved: bool)
    ensures EndsWith(prefix + Verdict(approved), "Approved") <==> approved
  {
    var s := prefix + Verdict(approved);
    if approved {
      assert s[|s| - 8..] == "Approved";
    } else {
      assert s[|s| - 8..] == "approved";
      assert "approved"[0] != "Approved"[0];
    }
  }

  /** The whole dry-run report: a header naming the target, one line per rule, then the verdict. */
  function Report(rules: seq<Rule>, ingress: Option<Ingress>, accepts: Evaluator, verb: string, rest: string): Result<string, Error>
  {
    match LinesUpTo(rules, accepts, |rules|, verb, rest)
    case Failure(e) => Failure(e)
    case Success((lines, approved)) => Success("Report:\n" + IngressLine(ingress) + lines + Verdict(approved))
  }

  /**
   * With the rule evaluation of the request, the report fails exactly when the rule filter fails,
   * and ends in "Approved" exactly when the filter keeps some rule.
   */
  lemma ReportMeaning(rules: seq<Rule>, ingress: Option<Ingress>, m: Method, rest: string)
    ensures var r := Report(rules, ingress, EvaluatorFor(m, "/" + rest), MethodName(m), rest);
      r.Failure? <==> ApprovedRules(rules, m, "/" + rest).Failure?
    ensures var r := Report(rules, ingress, EvaluatorFor(m, "/" + rest), MethodName(m), rest);
      r.Failure? ==> r.error == ApprovedRules(rules, m, "/" + rest).error
    ensures var r := Report(rules, ingress, EvaluatorFor(m, "/" + rest), MethodName(m), rest);
      r.Success? ==>
        && StartsWith(r.value, "Report:\n" + IngressLine(ingress))
        && (EndsWith(r.value, "Approved") <==> ApprovedRules(rules, m, "/" + rest).value != [])
  {
    LinesAgree(rules, m, rest);
    var lines := LinesUpTo(rules, EvaluatorFor(m, "/" + rest), |rules|, MethodName(m), rest);
    if lines.Success? {
      var head := "Report:\n" + IngressLine(ingress);
      var report := head + lines.value.0 + Verdict(lines.value.1);
      assert report[..|head|] == head;
      VerdictAtEnd(head + lines.value.0, lines.value.1);
    }
  }

  /**
   * The report of the dry-run endpoint, built by the filter over the rules: each rule's line is
   * started, the rule is judged by `accepts`, and the verdict finishes the line.
   */
  method BuildReport(rules: seq<Rule>, ingress: Option<Ingress>, accepts: Evaluator, verb: string, rest: string)
    returns (r: Result<string, Error>)
    ensures r == Report(rules, ingress, accepts, verb, rest)
  {
    ghost var head := "Report:\n" + IngressLine(ingress);
    var report := "Report:\n" + IngressLine(ingress);
    var approved := false;
    var i := 0;
    while i < |rules|
      invariant 0 <= i <= |rules|
      invariant LinesUpTo(rules, accepts, i, verb, rest).Success?
      invariant report == head + LinesUpTo(rules, accepts, i, verb, rest).value.0
      invariant approved == LinesUpTo(rules, accepts, i, verb, rest).value.1
    {
      ghost var before := report;
      report := report + LineStart(rules[i], verb, rest);
      var accepted := accepts(rules[i]);
      if accepted.Failure? {
        LinesUpToFailure(rules, accepts, i + 1, |rules|, verb, rest);
        return Failure(accepted.error);
      }
      ExtendReport(head, before, rules, accepts, i, verb, rest);
      report := report + BoolText(accepted.value) + "\n";
      approved := approved || accepted.value;
      i := i + 1;
    }
    report := report + Verdict(approved);
    r := Success(report);
  }

  /**
   * The answer of the dry-run endpoint `/internal/test/{rest}`: 400 without the target-app
   * header, 203 when the app has no rules, otherwise 200 whose body is exactly the Report of the
   * app's rules, ending in "Approved" exactly when some rule accepts the call's method and path.
   */
  predicate TestAnswered(req: Inbound, rs: RuleSet, ingressSet: IngressSet, r: Result<Response, Error>) {
    if HeaderValue(req.headers, TARGET_APP).None? then r == Success(TextResponse(BAD_REQUEST, "Proxy: Missing target-app header"))
    else
      var app := HeaderValue(req.headers, TARGET_APP).value;
      var resolved := ResolveNamespace(HeaderValue(req.headers, TARGET_NAMESPACE), rs, app);
      if resolved.Failure? then r == Failure(resolved.error)
      else
        var rules := RulesOf(rs, app, resolved.value);
        var approved := ApprovedRules(rules, req.verb, "/" + req.rest);
        if rules == [] then r == Success(TextResponse(NON_AUTHORITATIVE_INFORMATION, "App not found in rules. Not approved"))
        else if approved.Failure? then r == Failure(approved.error)
        else
          && r.Success? && r.value.status == OK && r.value.headers == [] && r.value.body.Text?
          && (EndsWith(r.value.body.text, "Approved") <==> approved.value != [])
          && Report(rules, IngressOf(ingressSet, app, resolved.value), EvaluatorFor(req.verb, "/" + req.rest),
                    MethodName(req.verb), req.rest) == Success(r.value.body.text)
  }

  /** The dry-run endpoint's answer, with BuildReport's report of every rule's verdict. */
  method TestRulesHandler(req: Inbound, rs: RuleSet, ingressSet: IngressSet) returns (r: Result<Response, Error>)
    ensures TestAnswered(req, rs, ingressSet, r)
  {
    var targetApp := HeaderValue(req.headers, TARGET_APP);
    if targetApp.None? {
      return Success(TextResponse(BAD_REQUEST, "Proxy: Missing target-app header"));
    }
    var app := targetApp.value;
    var resolved := ResolveNamespace(HeaderValue(req.headers, TARGET_NAMESPACE), rs, app);
    if resolved.Failure? {
      return Failure(resolved.error);
    }
    var namespace := resolved.value;
    var ingress := IngressOf(ingressSet, app, namespace);
    var rules := RulesOf(rs, app, namespace);
    if rules == [] {
      return Success(TextResponse(NON_AUTHORITATIVE_INFORMATION, "App not found in rules. Not approved"));
    }
    var report := BuildReport(rules, ingress, EvaluatorFor(req.verb, "/" + req.rest), MethodName(req.verb), req.rest);
    ReportMeaning(rules, ingress, req.verb, req.rest);
    ghost var approved := ApprovedRules(rules, req.verb, "/" + req.rest);
    if report.Failure? {
      return Failure(report.error);
    }
    assert EndsWith(report.value, "Approved") <==> approved.value != [];
    r := Success(TextResponse(OK, report.value));
  }

  /** testRulesHandler: every call is counted under its path, then answered as TestAnswered says. */
  method TestRules(req: Inbound, rs: RuleSet, ingressSet: IngressSet, metrics: Metrics) returns (r: Result<Response, Error>)
    modifies metrics
    ensures metrics.Counted() == old(metrics.Counted()).(testApiCalls := Bump(old(metrics.testApiCalls), req.rest))
    ensures metrics.Timed() == old(metrics.Timed())
    ensures TestAnswered(req, rs, ingressSet, r)
  {
    metrics.TestApiCallsInc(req.rest);
    r := TestRulesHandler(req, rs, ingressSet);
  }
}

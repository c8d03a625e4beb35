/**
 * The behaviour the repository's whitelist tests pin down, proved about the model on the same
 * rules, methods and paths, and on a small rule set shaped like the dev whitelist.
 */
module WhitelistTests {
  import opened Wrappers
  import opened Text
  import opened Http
  import opened Pattern
  import opened Errors
  import opened Whitelist

  /** A two-word rule splits into its method word and its pattern. */
  lemma SplitRule(verb: string, pattern: string)
    requires ' ' !in verb && ' ' !in pattern
    ensures Split(verb + " " + pattern, ' ') == [verb, pattern]
  {
    assert verb + " " + pattern == verb + [' '] + pattern;
    SplitAfterFirst(verb, ' ', pattern);
    SplitNoDelimiter(pattern, ' ');
  }

  /** A well-formed rule with a literal pattern accepts exactly its own method and path. */
  lemma LiteralRule(verb: string, want: Method, pattern: string, m: Method, path: string)
    requires ' ' !in verb && ' ' !in pattern && Literal(pattern)
    requires MethodOf(verb) == Some(want)
    ensures EvaluateAsRule(verb + " " + pattern, m, path) == Success(m == want && path == pattern)
  {
    SplitRule(verb, pattern);
    LiteralFullMatch(pattern, path);
  }

  /** "POST /done" accepts POST /done; "GET /done" accepts no POST at all, whatever the path. */
  lemma DonePaths()
    ensures EvaluateAsRule("POST /done", POST, "/done") == Success(true)
    ensures EvaluateAsRule("GET /done", POST, "/done") == Success(false)
    ensures EvaluateAsRule("GET /done", POST, "/don") == Success(false)
    ensures EvaluateAsRule("GET /done", POST, "/done/") == Success(false)
    ensures EvaluateAsRule("GET /done", GET, "/don") == Success(false)
    ensures EvaluateAsRule("GET /done", GET, "/done/") == Success(false)
  {
    assert "POST /done" == "POST" + " " + "/done";
    assert "GET /done" == "GET" + " " + "/done";
    LiteralRule("POST", POST, "/done", POST, "/done");
    LiteralRule("GET", GET, "/done", POST, "/done");
    LiteralRule("GET", GET, "/done", POST, "/don");
    LiteralRule("GET", GET, "/done", POST, "/done/");
    LiteralRule("GET", GET, "/done", GET, "/don");
    LiteralRule("GET", GET, "/done", GET, "/done/");
  }

  /** A well-formed rule whose pattern compiles accepts its method on the paths the pattern matches. */
  lemma PatternRule(verb: string, want: Method, pattern: string, m: Method, path: string)
    requires ' ' !in verb && ' ' !in pattern
    requires MethodOf(verb) == Some(want)
    requires FullMatch(pattern, path).Some?
    ensures EvaluateAsRule(verb + " " + pattern, m, path) == Success(m == want && FullMatch(pattern, path).value)
  {
    SplitRule(verb, pattern);
  }

  lemma ApiPathParts()
    ensures "/api/.*" == "/api/" + ".*"
    ensures "GET /api/.*" == "GET" + " " + "/api/.*"
    ensures ' ' !in "/api/.*"
    ensures "/api/something/in/the/end" == "/api/" + ("something" + "/in/the/end")
  {
  }

  lemma ApiPatternMatches()
    ensures FullMatch("/api/.*", "/api/something/in/the/end") == Some(true)
    ensures FullMatch("/api/.*", "/something/in/the/end") == Some(false)
  {
    ApiPathParts();
    LiteralText("/api/");
    PathText("something");
    PathText("/in/the/end");
    SingleLineConcat("something", "/in/the/end");
    PrefixAnyMatchesLine("/api/", "something" + "/in/the/end");
    PrefixAnyFullMatch("/api/", "/something/in/the/end");
    assert "/something/in/the/end"[1] != "/api/"[1];
  }

  /** Text of lower-case letters and slashes, as the test patterns' fixed parts are, is literal. */
  lemma LiteralText(s: string)
    requires forall i :: 0 <= i < |s| ==> 'a' <= s[i] <= 'z' || s[i] == '/'
    ensures Literal(s)
  {
  }

  /** Text of lower-case letters and slashes, as the test paths are, is one line. */
  lemma PathText(s: string)
    requires forall i :: 0 <= i < |s| ==> 'a' <= s[i] <= 'z' || s[i] == '/'
    ensures SingleLine(s)
  {
  }

  /** "GET /api/.*" accepts paths under /api/ and rejects the same path without the prefix. */
  lemma ApiPrefix()
    ensures EvaluateAsRule("GET /api/.*", GET, "/api/something/in/the/end") == Success(true)
    ensures EvaluateAsRule("GET /api/.*", GET, "/something/in/the/end") == Success(false)
  {
    ApiPathParts();
    ApiPatternMatches();
    PatternRule("GET", GET, "/api/.*", GET, "/api/something/in/the/end");
    PatternRule("GET", GET, "/api/.*", GET, "/something/in/the/end");
  }

  lemma MiddlePathParts()
    ensures "/path/.*/ending" == "/path/" + ".*" + "/ending"
    ensures "/path/something/in/the/middle/ending" == "/path/" + ("something" + "/in/the/middle") + "/ending"
  {
  }

  lemma MiddleRuleParts()
    ensures "GET /path/.*/ending" == "GET" + " " + "/path/.*/ending"
    ensures ' ' !in "/path/.*/ending"
  {
  }

  lemma MiddlePatternMatches()
    ensures FullMatch("/path/.*/ending", "/path/something/in/the/middle/ending") == Some(true)
  {
    MiddlePathParts();
    LiteralText("/path/");
    LiteralText("/ending");
    PathText("something");
    PathText("/in/the/middle");
    SingleLineConcat("something", "/in/the/middle");
    InfixAnyFullMatch("/path/", "/ending", "something" + "/in/the/middle");
  }

  // "GET /path/.*/ending" accepts a path with anything between the two literal parts.
  lemma PathWithMiddle()
    ensures EvaluateAsRule("GET /path/.*/ending", GET, "/path/something/in/the/middle/ending") == Success(true)
  {
    MiddleRuleParts();
    MiddlePatternMatches();
    PatternRule("GET", GET, "/path/.*/ending", GET, "/path/something/in/the/middle/ending");
  }

  /** A rule whose first word is no method name fails, as `Method.valueOf("GE")` throws. */
  lemma UnknownMethodWord()
    ensures EvaluateAsRule("GE /path", GET, "/path") == Failure(UnknownMethod("GE"))
  {
    assert "GE /path" == "GE" + " " + "/path";
    SplitRule("GE", "/path");
  }

  const KNOWN_NAMESPACE := "teamnks"
  const KNOWN_APP := "sf-brukernotifikasjon"

  /** A rule set in which the known app sits in the known namespace only. */
  function DevRules(): RuleSet {
    map[KNOWN_NAMESPACE := map[KNOWN_APP := ["POST /done"]], "other" := map["other-app" := ["GET /x"]]]
  }

  /** The same rule set with a twin of the known app in another namespace. */
  function TwinRules(): RuleSet {
    DevRules()[("Other namespace") := map[KNOWN_APP := ["Other Rule"]]]
  }

  /** The namespace of a known app is found; an unknown app has none. */
  lemma NamespaceLookup()
    ensures NamespaceOfApp(DevRules(), KNOWN_APP) == Success(Some(KNOWN_NAMESPACE))
    ensures NamespaceOfApp(DevRules(), "NON_EXISTING") == Success(None)
  {
    assert "other" != KNOWN_NAMESPACE;
    assert NamespacesOf(DevRules(), KNOWN_APP) == {KNOWN_NAMESPACE};
    assert "other-app" != "NON_EXISTING";
    assert KNOWN_APP != "NON_EXISTING";
    assert NamespacesOf(DevRules(), "NON_EXISTING") == {};
  }

  /** A twin app in another namespace makes the lookup fail as ambiguous. */
  lemma TwinNamespaceFails()
    ensures NamespaceOfApp(TwinRules(), KNOWN_APP) == Failure(AmbiguousApp(KNOWN_APP))
  {
    assert "Other namespace" != KNOWN_NAMESPACE;
    assert {KNOWN_NAMESPACE, "Other namespace"} <= NamespacesOf(TwinRules(), KNOWN_APP);
    SubsetCardinality({KNOWN_NAMESPACE, "Other namespace"}, NamespacesOf(TwinRules(), KNOWN_APP));
  }

  /** The known app has rules; an unknown app or namespace has none. */
  lemma RulesLookup()
    ensures RulesOf(DevRules(), KNOWN_APP, KNOWN_NAMESPACE) != []
    ensures RulesOf(DevRules(), "NON_EXISTING", KNOWN_NAMESPACE) == []
    ensures RulesOf(DevRules(), KNOWN_APP, "NON_EXISTING") == []
  {
    assert KNOWN_APP != "NON_EXISTING";
    assert "other" != "NON_EXISTING";
  }
}

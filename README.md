# saas-proxy in Dafny

A model of the core of saas-proxy, a reverse proxy that lets Salesforce and other software-as-a-service
clients call apps inside the NAIS platform. For each inbound call the proxy:

- reads the target app (and optionally its namespace) from control headers;
- checks the call's method and path against a whitelist of rules `"METHOD PATTERN [scope:NAME]"`;
- exchanges the caller's token at the identity provider for one addressed to the target. A token on
  behalf of a person takes the on-behalf-of grant (JWT bearer, section 2.1 of RFC 7523). Any other token
  is answered with the proxy's own client-credentials token (section 4.4 of RFC 6749). Both are cached
  in a key-value store;
- forwards the call with the new token and without its control headers, and passes the answer back
  without hop-by-hop headers. A GET that throws is retried once.

Around this sit:
- a dry-run endpoint that reports how the rules judge a call;
- the readiness probe;
- Prometheus metrics with a path mask that keeps label values few;
- "last seen" bookkeeping of proxied apps in Valkey.

The modules follow the program's structure:

| module | models |
|---|---|
| `Wrappers` | Option and Result |
| `Text` | the Kotlin string calls used: `lowercase`, `split`, `removePrefix`, `replace`, `toString`/`toLongOrNull` |
| `Http` | http4k's `Method`, `Request`, `Response` as values; case-insensitive header lookup; a scripted HTTP client |
| `Pattern` | the part of Java regular expressions the rules use, as a full match |
| `Errors` | the exceptions that escape the handlers, as values |
| `Whitelist` | `whitelist/Whitelist.kt` (rule evaluation, namespace and rule lookup, scope, the dry-run handler) |
| `WhitelistTests` | the behaviour `WhitelistTest.kt` pins down on `Extentions.kt`'s duplicates of the same functions |
| `Ingresses` | `ingresses/Ingresses.kt` |
| `Telemetry` | `Metrics.kt`: the four-stage `mask`, the counters, the histogram condition, the max gauges |
| `KeyValue` | a Redis-family server: entries with expiry, GET, SETEX, and a log of the commands sent |
| `Valkey` | `token/Valkey.kt`: the readiness memo, `updateAppLastSeen`, `fetchAllLastSeen` |
| `TokenExchange` | `token/TokenExchangeHandler.kt` |
| `Application` | `Application.kt`: the dispatch decision, header filters, target alias and URL, the redirect handler with its GET retry, the readiness handler |

Operations that change state are methods of classes that own that state; `Metrics`, `Valkey`,
`TokenExchangeHandler`, `Proxy`, `Store` and `ScriptedClient` are the classes. Each state-changing
method is specified against a pure function of the previous state and the inputs, in the form
`ensures (r, State()) == F(old(State()), args)`: for example `Handling` for the redirect handler and
`Exchanging` for the token exchange. Lemmas then state what those functions promise. Loops of the
source are loops in the model: the retry loop, the report loop of the dry-run handler, and the scan
loop of `fetchAllLastSeen`.

Inputs from outside the proxy are parameters:
- the token validator's verdict;
- the identity provider's and the target's answers, as scripts of outcomes;
- the clock readings;
- the SCAN pages of the key-value store;
- the time a cache command takes.

Two behaviours of the code are worth knowing:
- `extractAccessToken` (`src/main/kotlin/no/nav/saas/proxy/token/TokenExchangeHandler.kt:184-195`)
  does not look at the status of the identity provider's answer. Any answer whose body holds an
  `access_token` is accepted. The model follows the code.
- The token cache is reached through `Application.useRedis` and `Redis.commands`, which
  `token/Redis.kt` no longer defines. The model gives the token handler its own key-value store and
  a `useCache` flag, separate from the Valkey store of the last-seen entries.

## Model

Paths are relative to the repository root.

| member | source | states |
|---|---|---|
| Text.Lower | src/main/kotlin/no/nav/saas/proxy/Application.kt:127 | lower-casing keeps the length and lower-cases every ASCII capital, character by character |
| Text.RemovePrefix | src/main/kotlin/no/nav/saas/proxy/whitelist/Whitelist.kt:46 | a string starting with the prefix is the prefix followed by the result; any other string is returned as it is |
| Text.Split | src/main/kotlin/no/nav/saas/proxy/whitelist/Whitelist.kt:26 | splitting never gives an empty list, and no part contains the delimiter |
| Text.SplitJoin | src/main/kotlin/no/nav/saas/proxy/whitelist/Whitelist.kt:26 | the parts joined with the delimiter give back the string: split loses nothing |
| Text.ParseLong | src/main/kotlin/no/nav/saas/proxy/token/Valkey.kt:97 | a parsed value is always within the range of a Kotlin Long; a plain digit string parses to its decimal value when that fits a Long, and to nothing otherwise |
| Text.ParseLongRoundTrip | src/main/kotlin/no/nav/saas/proxy/token/Valkey.kt:97 | decimal text without a leading zero parses to a value whose text is the string itself: parsing and printing are inverse |
| Text.NatToStringParses | src/main/kotlin/no/nav/saas/proxy/token/Valkey.kt:65-69 | the decimal text written for a timestamp parses back as the same Long |
| Text.ReplaceAllAbsent | src/main/kotlin/no/nav/saas/proxy/Application.kt:292 | replacing a target that never occurs leaves a string unchanged |
| Text.ReplaceAll | src/main/kotlin/no/nav/saas/proxy/Application.kt:292 | `String.replace`: every occurrence replaced from left to right without overlap, the replaced text not searched again (stated by ReplaceAllAbsent, and by ClusterOfIngress and ClusterWithoutGcp for the cluster name) |
| Http.MethodOf | src/main/kotlin/no/nav/saas/proxy/whitelist/Whitelist.kt:27 | a method found for a word is the method with exactly that name |
| Http.MethodOfName | src/main/kotlin/no/nav/saas/proxy/whitelist/Whitelist.kt:27 | every method is found by its own name, and a word for which no method is found names no method |
| Http.SameNameLower | src/main/kotlin/no/nav/saas/proxy/Application.kt:127 | two header names are the same name exactly when their lower-cased forms are equal |
| Http.SameName | src/main/kotlin/no/nav/saas/proxy/Application.kt:110-112 | http4k compares header names ignoring case (stated by SameNameLower, and used by HeaderValue) |
| Http.HeaderValue | src/main/kotlin/no/nav/saas/proxy/Application.kt:110-112 | a header is absent exactly when no header has the name in any case; a value found is that of the first header of that name |
| Http.ScriptedClient.Call | src/main/kotlin/no/nav/saas/proxy/Application.kt:193 | the request is logged as sent, and the call receives the next outcome of the script |
| Pattern.LiteralFullMatch | src/main/kotlin/no/nav/saas/proxy/whitelist/Whitelist.kt:29 | a pattern without metacharacters matches exactly its own text, and no longer or shorter path |
| Pattern.Compile | src/main/kotlin/no/nav/saas/proxy/whitelist/Whitelist.kt:29 | `Regex(pathPart)` for literals, `.` and `*`; any other metacharacter is outside the model (stated through FullMatch by LiteralFullMatch, PrefixAnyFullMatch and InfixAnyFullMatch) |
| Pattern.FullMatch | src/main/kotlin/no/nav/saas/proxy/whitelist/Whitelist.kt:29 | `Regex(pathPart).matches(path)`: the whole path must match, with `.` refusing line terminators (stated by LiteralFullMatch, PrefixAnyFullMatch, PrefixAnyMatchesLine and InfixAnyFullMatch) |
| Pattern.PrefixAnyFullMatch | src/main/kotlin/no/nav/saas/proxy/whitelist/Whitelist.kt:29 | `prefix.*` matches exactly the strings that start with the prefix and have no line terminator after it |
| Pattern.PrefixAnyMatchesLine | src/main/kotlin/no/nav/saas/proxy/whitelist/Whitelist.kt:29 | `prefix.*` matches the prefix followed by any one line |
| Pattern.InfixAnyFullMatch | src/main/kotlin/no/nav/saas/proxy/whitelist/Whitelist.kt:29 | `a.*b` matches `a`, then any one line, then `b` |
| Whitelist.EvaluateAsRuleMeaning | src/main/kotlin/no/nav/saas/proxy/whitelist/Whitelist.kt:25-30 | a rule accepts a call iff its first word names the call's method and its second word fully matches the path. An unknown method word or a missing pattern is an error, not a false; a different method is false |
| Whitelist.EvaluateAsRule | src/main/kotlin/no/nav/saas/proxy/whitelist/Whitelist.kt:25-30 | rule evaluation: method word first, then pattern; a method mismatch is false without looking at the pattern (its meaning is stated by EvaluateAsRuleMeaning) |
| Whitelist.NamespaceOfApp | src/main/kotlin/no/nav/saas/proxy/whitelist/Whitelist.kt:32-36 | no namespace when none lists the app; the one namespace when exactly one does; an ambiguity error iff two or more do |
| Whitelist.NamespacesOf | src/main/kotlin/no/nav/saas/proxy/whitelist/Whitelist.kt:33 | the namespaces whose app table lists the app (stated by NamespaceOfApp and ResolveNamespace, which decide by its size) |
| Whitelist.RulesOf | src/main/kotlin/no/nav/saas/proxy/whitelist/Whitelist.kt:38-40 | the app's rule list when both namespace and app are present, the empty list otherwise, never a failure |
| Whitelist.ResolveNamespace | src/main/kotlin/no/nav/saas/proxy/Application.kt:149 | the namespace header wins without searching the rules; without it, the rules' one namespace, or "" when none lists the app; it fails iff the header is absent and the app is ambiguous |
| Whitelist.ScopeOf | src/main/kotlin/no/nav/saas/proxy/whitelist/Whitelist.kt:44-49 | the scope a rule names is a single word |
| Whitelist.FindScope | src/main/kotlin/no/nav/saas/proxy/whitelist/Whitelist.kt:42-50 | the first non-empty scope in list order, "defaultaccess" when no rule names one, in particular for no rules; never empty |
| Whitelist.ApprovedRules | src/main/kotlin/no/nav/saas/proxy/Application.kt:151-154 | the filter of the rules accepting the call, in order, failing at the first rule that cannot be evaluated (stated by the ApprovedRules lemmas) |
| Whitelist.ApprovedRulesMeaning | src/main/kotlin/no/nav/saas/proxy/Application.kt:151-154 | on success every rule was evaluated and exactly the accepting rules are kept; a failure is the error of the first rule that could not be evaluated |
| Whitelist.ApprovedRulesFailsAt | src/main/kotlin/no/nav/saas/proxy/Application.kt:151-154 | the first rule that fails to evaluate decides the filter's error |
| Whitelist.ApprovedRulesAllSucceed | src/main/kotlin/no/nav/saas/proxy/Application.kt:151-154 | when all rules evaluate, the filter succeeds, and keeps some rule iff some rule accepts the call |
| Whitelist.ApprovedRulesOrder | src/main/kotlin/no/nav/saas/proxy/Application.kt:151-154 | the filter keeps order: filtering a concatenation gives the filtered parts concatenated, with the first part's failure before the second's |
| Whitelist.ApprovedRulesOne | src/main/kotlin/no/nav/saas/proxy/Application.kt:151-154 | a single rule is kept iff it accepts the call, and its evaluation error is the filter's |
| Whitelist.LinesUpToMeaning | src/main/kotlin/no/nav/saas/proxy/whitelist/Whitelist.kt:72-75 | the report lines succeed only when every rule evaluated, and then say "approved" iff some rule accepted; a failure is the first failing rule's |
| Whitelist.LinesUpTo | src/main/kotlin/no/nav/saas/proxy/whitelist/Whitelist.kt:72-75 | the report lines of the first rules with whether one was approved, failing at the first rule that cannot be evaluated (stated by LinesUpToMeaning, ExtendReport and LinesAgree) |
| Whitelist.ExtendReport | src/main/kotlin/no/nav/saas/proxy/whitelist/Whitelist.kt:73-74 | one rule more adds its "Evaluating …" line and its verdict to the report, and the approval becomes "so far or this rule" |
| Whitelist.LinesAgree | src/main/kotlin/no/nav/saas/proxy/whitelist/Whitelist.kt:72-75 | the report loop and the rule filter of the forwarding path agree: both fail with the same error, or both succeed with the same approval |
| Whitelist.VerdictAtEnd | src/main/kotlin/no/nav/saas/proxy/whitelist/Whitelist.kt:76 | the report ends in "Approved" exactly when the verdict is approval ("Not approved" does not) |
| Whitelist.Report | src/main/kotlin/no/nav/saas/proxy/whitelist/Whitelist.kt:70-77 | the dry-run report text: header, target line, one "Evaluating …" line per rule, verdict (stated by ReportMeaning) |
| Whitelist.ReportMeaning | src/main/kotlin/no/nav/saas/proxy/whitelist/Whitelist.kt:70-77 | the report starts with its header and target line, and ends in "Approved" iff some rule accepts the call; it fails exactly when the rule filter fails, with the same error |
| Whitelist.BuildReport | src/main/kotlin/no/nav/saas/proxy/whitelist/Whitelist.kt:70-77 | the loop that appends inside the filter builds exactly the report described |
| Whitelist.TestRulesHandler | src/main/kotlin/no/nav/saas/proxy/whitelist/Whitelist.kt:57-79 | 400 without target-app; an ambiguous app's error; 203 when the app has no rules; the first unevaluable rule's error; otherwise 200 whose body is exactly the Report of the app's rules, ending in "Approved" iff some rule accepts the call's method and path |
| Whitelist.TestAnswered | src/main/kotlin/no/nav/saas/proxy/whitelist/Whitelist.kt:60-78 | the dry-run answer: 400, the namespace error, 203, the rule error, or 200 with the Report as body ending in "Approved" iff approved (the ensures of TestRulesHandler and TestRules) |
| Whitelist.TestRules | src/main/kotlin/no/nav/saas/proxy/whitelist/Whitelist.kt:52-80 | every dry-run call is counted once under its path, no other metric moves, and the answer is as above |
| WhitelistTests.SplitRule | src/main/kotlin/no/nav/saas/proxy/Extentions.kt:8 | a two-word rule splits into its method word and its pattern |
| WhitelistTests.LiteralRule | src/main/kotlin/no/nav/saas/proxy/Extentions.kt:7-12 | a rule with a literal pattern accepts exactly its own method on exactly its own path, so a GET rule never accepts a POST |
| WhitelistTests.PatternRule | src/main/kotlin/no/nav/saas/proxy/Extentions.kt:7-12 | a rule whose pattern compiles accepts its method on the paths the pattern matches, and nothing else |
| WhitelistTests.DonePaths | src/test/kotlin/no/nav/saas/proxy/WhitelistTest.kt:82-87 | "POST /done" accepts POST /done; "GET /done" rejects POST /done, /don and /done/, and rejects GET /don and GET /done/ |
| WhitelistTests.PathWithMiddle | src/test/kotlin/no/nav/saas/proxy/WhitelistTest.kt:89 | "GET /path/.*/ending" accepts a path with a multi-segment middle |
| WhitelistTests.ApiPrefix | src/test/kotlin/no/nav/saas/proxy/WhitelistTest.kt:90-91 | "GET /api/.*" accepts a path under /api/ and rejects the same tail without the prefix: the match is a full match |
| WhitelistTests.UnknownMethodWord | src/test/kotlin/no/nav/saas/proxy/WhitelistTest.kt:75-80 | rule "GE /path" fails with an unknown-method error |
| WhitelistTests.NamespaceLookup | src/test/kotlin/no/nav/saas/proxy/WhitelistTest.kt:33-39 | a known app's namespace is found, and an unknown app has none (`Extentions.kt:14-18`) |
| WhitelistTests.RulesLookup | src/test/kotlin/no/nav/saas/proxy/WhitelistTest.kt:41-48 | a known app has rules; an unknown app or namespace has none (`Extentions.kt:20-22`) |
| WhitelistTests.TwinNamespaceFails | src/test/kotlin/no/nav/saas/proxy/WhitelistTest.kt:50-57 | the same app under a second namespace makes the namespace lookup fail as ambiguous |
| Ingresses.IngressOf | src/main/kotlin/no/nav/saas/proxy/ingresses/Ingresses.kt:13-15 | the table's entry when namespace and app are both present; none when the namespace is absent, or present without the app |
| Ingresses.IngressOfOnlyReadsItsNamespace | src/main/kotlin/no/nav/saas/proxy/ingresses/Ingresses.kt:14 | two tables that agree on the namespace give the same answer, whatever their other namespaces hold |
| Ingresses.NoFallbackSearch | src/main/kotlin/no/nav/saas/proxy/ingresses/Ingresses.kt:14 | adding the app under another namespace leaves a miss a miss: there is no fallback search |
| Telemetry.MaskIdsLeavesNoNumber | src/main/kotlin/no/nav/saas/proxy/Metrics.kt:126 | after stage one no slash is followed by a digit |
| Telemetry.Mask | src/main/kotlin/no/nav/saas/proxy/Metrics.kt:124-129 | the four masking stages in order: ids, idents, file names, codes (stated by MaskOneNumber and MaskUnitContactPath) |
| Telemetry.MaskIds | src/main/kotlin/no/nav/saas/proxy/Metrics.kt:126 | stage one keeps emptiness and the first character (its meaning is stated by the MaskIds lemmas) |
| Telemetry.MaskIdents | src/main/kotlin/no/nav/saas/proxy/Metrics.kt:127 | stage two keeps emptiness and the first character (stated by MaskIdentsIdent and MaskIdentsWithoutCapitals) |
| Telemetry.MaskFilename | src/main/kotlin/no/nav/saas/proxy/Metrics.kt:128 | stage three keeps emptiness and the first character (stated by MaskFilenameSplit and MaskFilenameOtherEnding) |
| Telemetry.MaskCodes | src/main/kotlin/no/nav/saas/proxy/Metrics.kt:129 | stage four keeps emptiness and the first character (stated by MaskCodesCode and MaskCodesWithoutCapitals) |
| Telemetry.MaskIdsWithoutNumber | src/main/kotlin/no/nav/saas/proxy/Metrics.kt:126 | a path without a number after a slash passes stage one unchanged |
| Telemetry.MaskIdsFixedPoints | src/main/kotlin/no/nav/saas/proxy/Metrics.kt:126 | stage one changes a path iff it has a number after a slash, and is idempotent |
| Telemetry.MaskIdsKeepsPrefix | src/main/kotlin/no/nav/saas/proxy/Metrics.kt:126 | text before the first number after a slash is copied unchanged |
| Telemetry.MaskIdsNumber | src/main/kotlin/no/nav/saas/proxy/Metrics.kt:126 | a slash with the maximal digit run after it becomes "/{id}", and masking goes on after the run |
| Telemetry.IdentSurvivesIds | src/main/kotlin/no/nav/saas/proxy/Metrics.kt:126-127 | stage one leaves a slash, capital and digits alone, so stage two still sees the ident |
| Telemetry.MaskIdentsIdent | src/main/kotlin/no/nav/saas/proxy/Metrics.kt:127 | a slash, one capital and four or more digits (the whole run) become "/{ident}" |
| Telemetry.MaskIdentsKeepsPrefix | src/main/kotlin/no/nav/saas/proxy/Metrics.kt:127 | text in which no `/[A-Z]\d{4,}` match starts is copied unchanged ahead of stage two's result, so an ident is masked wherever it sits |
| Telemetry.MaskIdentsWithoutCapitals | src/main/kotlin/no/nav/saas/proxy/Metrics.kt:127 | text without capitals passes stage two unchanged |
| Telemetry.MaskFilenameSplit | src/main/kotlin/no/nav/saas/proxy/Metrics.kt:128 | a slash-free last segment naming an .xml or .pdf file becomes "/{filename}"; text before it is unchanged |
| Telemetry.MaskFilenameOtherEnding | src/main/kotlin/no/nav/saas/proxy/Metrics.kt:128 | a path not ending in .xml or .pdf passes stage three unchanged |
| Telemetry.MaskCodesCode | src/main/kotlin/no/nav/saas/proxy/Metrics.kt:129 | a slash and three capitals followed by a slash or the end become "/{code}", and the following slash may start the next code |
| Telemetry.MaskCodesKeepsPrefix | src/main/kotlin/no/nav/saas/proxy/Metrics.kt:129 | text in which no `/[A-Z]{3}(?=/\|$)` match starts is copied unchanged ahead of stage four's result, so a code is masked wherever it sits |
| Telemetry.MaskCodesWithoutCapitals | src/main/kotlin/no/nav/saas/proxy/Metrics.kt:129 | text without capitals passes stage four unchanged |
| Telemetry.MaskOneNumber | src/main/kotlin/no/nav/saas/proxy/Metrics.kt:124-129 | through all four stages, a path of lower-case text whose only number sits after a slash masks to "{id}" in its place |
| Telemetry.MaskUnitContactPath | src/main/kotlin/no/nav/saas/proxy/Metrics.kt:124-129 | every unit number in the unit register's contact-information path masks to one label |
| Telemetry.MaskingTestPaths | src/test/kotlin/no/nav/saas/proxy/PathMaskingTest.kt:17-36 | the 0602 and 0702 paths both mask to "norg2/api/v1/enhet/{id}/kontaktinformasjon" |
| Telemetry.BumpCounts | src/main/kotlin/no/nav/saas/proxy/Metrics.kt:71 | incrementing a labelled counter raises that child by one and leaves every other child as it was |
| Telemetry.PeakIsMaximum | src/main/kotlin/no/nav/saas/proxy/Metrics.kt:54 | the max gauge holds the largest observation (or its initial 0), at least every observation |
| Telemetry.PeakMonotone | src/main/kotlin/no/nav/saas/proxy/Metrics.kt:59 | further observations never lower the max gauge |
| Telemetry.PeakStep | src/main/kotlin/no/nav/saas/proxy/Metrics.kt:54 | one observation raises the gauge to itself exactly when it is strictly larger |
| Telemetry.Metrics.constructor | src/main/kotlin/no/nav/saas/proxy/Metrics.kt:19-40 | every counter and summary starts empty and both max gauges at 0, consistent with their summaries |
| Telemetry.Metrics.ApiCallsInc | src/main/kotlin/no/nav/saas/proxy/Application.kt:115 | only the api-call counter of (app, path) moves, by one |
| Telemetry.Metrics.TokenFetchFailInc | src/main/kotlin/no/nav/saas/proxy/token/TokenExchangeHandler.kt:191 | only the failed-fetch counter of (alias, token type) moves, by one |
| Telemetry.Metrics.NoAuthInc | src/main/kotlin/no/nav/saas/proxy/Application.kt:169 | only the unauthorized counter of the app moves, by one |
| Telemetry.Metrics.TestApiCallsInc | src/main/kotlin/no/nav/saas/proxy/whitelist/Whitelist.kt:55 | only the dry-run counter of the path moves, by one |
| Telemetry.Metrics.FetchTimeObserve | src/main/kotlin/no/nav/saas/proxy/Metrics.kt:52-55 | the duration is observed; the max gauge stays the peak of all observations, never falls, and ends at least at the duration |
| Telemetry.Metrics.StoreTimeObserve | src/main/kotlin/no/nav/saas/proxy/Metrics.kt:57-60 | as FetchTimeObserve, for the store-time summary and gauge |
| Telemetry.Metrics.ForwardedCallsInc | src/main/kotlin/no/nav/saas/proxy/Metrics.kt:62-76 | the forwarded-call counter always rises by one; the two histograms observe only when both timings are given |
| KeyValue.Visible | src/main/kotlin/no/nav/saas/proxy/token/TokenExchangeHandler.kt:51 | GET answers a value iff the key is set and not expired, and then the stored value |
| KeyValue.StoredThenVisible | src/main/kotlin/no/nav/saas/proxy/token/TokenExchangeHandler.kt:137 | a SETEX value is read back until its time to live runs out, then no more; other keys read as before |
| KeyValue.Store.Get | src/main/kotlin/no/nav/saas/proxy/token/TokenExchangeHandler.kt:51 | GET is logged, changes no entry, answers the visible value, or throws when the server is out of reach |
| KeyValue.Store.SetEx | src/main/kotlin/no/nav/saas/proxy/token/Valkey.kt:69 | SETEX is logged; it stores the value for its life when reachable with a positive time to live, and otherwise fails and stores nothing |
| Valkey.KeyNames | src/main/kotlin/no/nav/saas/proxy/token/Valkey.kt:92-95 | a key is read iff it has at least three parts, as (second part, third part) |
| Valkey.LastSeenKey | src/main/kotlin/no/nav/saas/proxy/token/Valkey.kt:66 | the key `last_seen:<namespace>:<app>` (stated by LastSeenKeyRoundTrip) |
| Valkey.LastSeenKeyRoundTrip | src/main/kotlin/no/nav/saas/proxy/token/Valkey.kt:66 | names without ':' are read back from their `last_seen:<namespace>:<app>` key |
| Valkey.PutEffect | src/main/kotlin/no/nav/saas/proxy/token/Valkey.kt:98-99 | grouping by namespace then app: the entry is set or overwritten, every other entry stays, no empty namespace group appears |
| Valkey.Put | src/main/kotlin/no/nav/saas/proxy/token/Valkey.kt:98-99 | `result.getOrPut(namespace) { mutableMapOf() }[appName] = timestamp` (stated by PutEffect) |
| Valkey.RecordOther | src/main/kotlin/no/nav/saas/proxy/token/Valkey.kt:92-100 | a key that does not name (namespace, app) with a Long value leaves that entry alone: short keys and unparsable values are skipped |
| Valkey.Record | src/main/kotlin/no/nav/saas/proxy/token/Valkey.kt:92-100 | one scanned key: recorded when it has three parts and holds a Long, skipped otherwise (stated by RecordOther and RecordSame) |
| Valkey.RecordSame | src/main/kotlin/no/nav/saas/proxy/token/Valkey.kt:92-100 | a key naming (namespace, app) with a Long value sets that entry to it |
| Valkey.LastSeenOfFound | src/main/kotlin/no/nav/saas/proxy/token/Valkey.kt:86-103 | the result lists (namespace, app) iff some scanned key names them and holds a Long |
| Valkey.LastSeenOfLatest | src/main/kotlin/no/nav/saas/proxy/token/Valkey.kt:86-103 | when several keys name the same app, the last one scanned wins |
| Valkey.LastSeenOfSnoc | src/main/kotlin/no/nav/saas/proxy/token/Valkey.kt:90-101 | one key more scanned updates the result by that key's record alone: the scan is a left fold over the keys |
| Valkey.LastSeenOf | src/main/kotlin/no/nav/saas/proxy/token/Valkey.kt:86-103 | the result of scanning keys in order (stated by LastSeenOfFound, LastSeenOfLatest, LastSeenOfSnoc) |
| Valkey.WrittenThenRead | src/main/kotlin/no/nav/saas/proxy/token/Valkey.kt:65-69 | a last-seen entry written at some instant and scanned before it expires reads back that epoch second |
| Valkey.Valkey.constructor | src/main/kotlin/no/nav/saas/proxy/token/Valkey.kt:21 | the readiness check starts as not passed |
| Valkey.Valkey.IsReady | src/main/kotlin/no/nav/saas/proxy/token/Valkey.kt:23-41 | once passed, true with no query; otherwise one probe and false, with the flag set iff the probe was answered in under 100 ms |
| Valkey.Valkey.UpdateAppLastSeen | src/main/kotlin/no/nav/saas/proxy/token/Valkey.kt:59-75 | one SETEX of the epoch second under `last_seen:<namespace>:<app>`; errors are swallowed, and then nothing is stored |
| Valkey.Valkey.ReadKey | src/main/kotlin/no/nav/saas/proxy/token/Valkey.kt:92-100 | a key is read only when it has three parts, and recorded as Record says |
| Valkey.Valkey.ReadPage | src/main/kotlin/no/nav/saas/proxy/token/Valkey.kt:90-102 | one page adds its keys' records on top of the pages before it, and reads exactly its keys of three parts |
| Valkey.Valkey.FetchAllLastSeen | src/main/kotlin/no/nav/saas/proxy/token/Valkey.kt:77-106 | over all pages in order, the result is the accumulation of all scanned keys; an unreachable server's error propagates |
| TokenExchange.OboKeySeparatesTokens | src/main/kotlin/no/nav/saas/proxy/token/TokenExchangeHandler.kt:47 | two incoming tokens share a cache key for a target iff they are the same token |
| TokenExchange.IsOboToken | src/main/kotlin/no/nav/saas/proxy/token/TokenExchangeHandler.kt:42 | a token is on behalf of a person iff it carries the NAVident claim (used by Exchange) |
| TokenExchange.OboKey | src/main/kotlin/no/nav/saas/proxy/token/TokenExchangeHandler.kt:47 | the cache key of an on-behalf-of token: target alias followed by the incoming token (stated by OboKeySeparatesTokens) |
| TokenExchange.ServiceScope | src/main/kotlin/no/nav/saas/proxy/token/TokenExchangeHandler.kt:105 | "defaultaccess" is asked for as ".default", any other scope as it is (stated by GrantFields) |
| TokenExchange.Retry | src/main/kotlin/no/nav/saas/proxy/token/TokenExchangeHandler.kt:148-182 | the retry loop as a recursive function (stated by RetryFrom and RetryMeaning) |
| TokenExchange.CacheTtl | src/main/kotlin/no/nav/saas/proxy/token/TokenExchangeHandler.kt:130-131 | a token's cache life: its whole seconds to live less three (stated by CachedTokenExpiresFirst and CachedTokenServed) |
| TokenExchange.WorthCaching | src/main/kotlin/no/nav/saas/proxy/token/TokenExchangeHandler.kt:135 | a token is stored only when its cache life is more than three seconds |
| TokenExchange.GrantFields | src/main/kotlin/no/nav/saas/proxy/token/TokenExchangeHandler.kt:61-115 | the on-behalf-of grant is a jwt-bearer form carrying the incoming token and the scope as given; the client-credentials grant asks for ".default" in place of "defaultaccess" and any other scope as it is |
| TokenExchange.OboRequest | src/main/kotlin/no/nav/saas/proxy/token/TokenExchangeHandler.kt:61-82 | the on-behalf-of form posted to the token endpoint (stated by GrantFields and ExchangeSendsGrant) |
| TokenExchange.ServiceRequest | src/main/kotlin/no/nav/saas/proxy/token/TokenExchangeHandler.kt:105-115 | the client-credentials form posted to the token endpoint, with "defaultaccess" sent as ".default" (stated by GrantFields and ExchangeSendsGrant) |
| TokenExchange.RetryFrom | src/main/kotlin/no/nav/saas/proxy/token/TokenExchangeHandler.kt:156-181 | from any attempt, the retry loop answers with the first answer that is not a 504, or fails with the latest exception, within the attempts left |
| TokenExchange.RetryMeaning | src/main/kotlin/no/nav/saas/proxy/token/TokenExchangeHandler.kt:148-182 | at most maxRetries calls; the first answer that is not a 504 after only 504s and exceptions; otherwise the latest exception, or "failed after N attempts" when none threw |
| TokenExchange.Extracted | src/main/kotlin/no/nav/saas/proxy/token/TokenExchangeHandler.kt:184-195 | the answer's token whatever the status; no access token is an authentication error naming alias and token type |
| TokenExchange.CachedTokenExpiresFirst | src/main/kotlin/no/nav/saas/proxy/token/TokenExchangeHandler.kt:129-137 | a cached token is gone from the cache from three seconds before it expires |
| TokenExchange.CachedTokenServed | src/main/kotlin/no/nav/saas/proxy/token/TokenExchangeHandler.kt:129-137 | and it is served until then, up to the rounding of its life to whole seconds |
| TokenExchange.FetchCallsBounds | src/main/kotlin/no/nav/saas/proxy/token/TokenExchangeHandler.kt:156 | a fetch calls the endpoint between one and three times |
| TokenExchange.TokenExchangeHandler.constructor | src/main/kotlin/no/nav/saas/proxy/token/TokenExchangeHandler.kt:37-40 | the handler holds the credentials, the endpoint, the cache switch and the claims document |
| TokenExchange.TokenExchangeHandler.ClientCallWithRetries | src/main/kotlin/no/nav/saas/proxy/token/TokenExchangeHandler.kt:148-182 | the loop sends the request exactly as often as the retry specification says, and returns its result |
| TokenExchange.TokenExchangeHandler.ExtractAccessToken | src/main/kotlin/no/nav/saas/proxy/token/TokenExchangeHandler.kt:184-195 | the token, or the failure counted once under (alias, token type) when the answer has no access token |
| TokenExchange.TokenExchangeHandler.LookupCache | src/main/kotlin/no/nav/saas/proxy/token/TokenExchangeHandler.kt:49-57 | one GET of the key, timed into the fetch-time summary when the server answers; an unreachable cache throws |
| TokenExchange.TokenExchangeHandler.UpdateCache | src/main/kotlin/no/nav/saas/proxy/token/TokenExchangeHandler.kt:128-146 | SETEX with the remaining life less three seconds iff that is more than three, timed; otherwise nothing is stored |
| TokenExchange.TokenExchangeHandler.Obtain | src/main/kotlin/no/nav/saas/proxy/token/TokenExchangeHandler.kt:49-91 | the lookup-then-fetch-then-store protocol both grants share, with only the failed-fetch counter moving |
| TokenExchange.TokenExchangeHandler.Fetch | src/main/kotlin/no/nav/saas/proxy/token/TokenExchangeHandler.kt:83-90 | the fetch after a miss: retries, token extraction, and the conditional store |
| TokenExchange.TokenExchangeHandler.AcquireServiceToken | src/main/kotlin/no/nav/saas/proxy/token/TokenExchangeHandler.kt:94-126 | the client-credentials grant, cached under the target alias |
| TokenExchange.TokenExchangeHandler.Exchange | src/main/kotlin/no/nav/saas/proxy/token/TokenExchangeHandler.kt:45-92 | on-behalf-of exchange for a token with NAVident, the service token otherwise |
| TokenExchange.TokenExchangeHandler.Obtaining | src/main/kotlin/no/nav/saas/proxy/token/TokenExchangeHandler.kt:49-91 | the specification of Obtain: lookup, then fetch on a miss, then the conditional store (described by CacheHitServed, EndpointCalls, FreshTokenCached, FreshTokenReturned, MissingTokenCounted) |
| TokenExchange.TokenExchangeHandler.Fetching | src/main/kotlin/no/nav/saas/proxy/token/TokenExchangeHandler.kt:83-90 | the specification of Fetch: retries, extraction, conditional store |
| TokenExchange.TokenExchangeHandler.Exchanging | src/main/kotlin/no/nav/saas/proxy/token/TokenExchangeHandler.kt:45-92 | the specification of Exchange: the flow chosen by the NAVident claim (described by ServiceTokenIgnoresCaller, OboTokensKeptApart, ExchangeSendsGrant) |
| TokenExchange.TokenExchangeHandler.CacheHitServed | src/main/kotlin/no/nav/saas/proxy/token/TokenExchangeHandler.kt:51-56 | a cache hit is the answer: the endpoint is not called, nothing is stored, no failure is counted |
| TokenExchange.TokenExchangeHandler.EndpointCalls | src/main/kotlin/no/nav/saas/proxy/token/TokenExchangeHandler.kt:83 | only the grant is sent, at most three times, and at least once iff the cache does not settle the call |
| TokenExchange.TokenExchangeHandler.FreshTokenCached | src/main/kotlin/no/nav/saas/proxy/token/TokenExchangeHandler.kt:88-90 | a fetched token is the answer and is cached so that it is served until four seconds before it expires and gone three seconds before |
| TokenExchange.TokenExchangeHandler.FreshTokenReturned | src/main/kotlin/no/nav/saas/proxy/token/TokenExchangeHandler.kt:135-144 | a token with three seconds or less to live in the cache, or any token while the cache is off, is still the answer, and nothing is stored |
| TokenExchange.TokenExchangeHandler.MissingTokenCounted | src/main/kotlin/no/nav/saas/proxy/token/TokenExchangeHandler.kt:191 | the failed-fetch counter rises exactly when a fetched answer lacks an access token, and the call then fails with the authentication error |
| TokenExchange.TokenExchangeHandler.ServiceTokenIgnoresCaller | src/main/kotlin/no/nav/saas/proxy/token/TokenExchangeHandler.kt:46 | any two tokens without NAVident are exchanged alike: the service flow does not depend on the caller |
| TokenExchange.TokenExchangeHandler.OboTokensKeptApart | src/main/kotlin/no/nav/saas/proxy/token/TokenExchangeHandler.kt:47 | an on-behalf-of exchange touches no cache entry but its own incoming token's |
| TokenExchange.TokenExchangeHandler.ExchangeSendsGrant | src/main/kotlin/no/nav/saas/proxy/token/TokenExchangeHandler.kt:46-115 | only the grant of the token's flow goes to the endpoint, and the cache is asked under alias + token for a person and under the alias alone otherwise |
| Application.KeepHeaders | src/main/kotlin/no/nav/saas/proxy/Application.kt:124-128 | a header is kept iff it was there and its lower-cased name is not blocked |
| Application.KeepHeadersOrder | src/main/kotlin/no/nav/saas/proxy/Application.kt:173-177 | the filter keeps the original order: filtering a concatenation filters each part |
| Application.KeepHeadersOne | src/main/kotlin/no/nav/saas/proxy/Application.kt:173-177 | a single header is dropped iff its name is blocked |
| Application.ForwardHeaders | src/main/kotlin/no/nav/saas/proxy/Application.kt:173-185 | the filtered inbound headers with the Authorization header added (stated by ForwardHeadersAuthorization) |
| Application.ForwardHeadersAuthorization | src/main/kotlin/no/nav/saas/proxy/Application.kt:173-185 | the forwarded headers are the filtered inbound ones followed by exactly one Authorization header, "Bearer " and the exchanged token |
| Application.WithoutBlockedHeaders | src/main/kotlin/no/nav/saas/proxy/Application.kt:295-302 | status and body are kept, and exactly the headers whose lower-cased name is one of the nine blocked ones are dropped |
| Application.ClusterOfIngress | src/main/kotlin/no/nav/saas/proxy/Application.kt:290-293 | "<env>-gcp" is addressed as "<env>-fss" when the target has an ingress, and as itself otherwise |
| Application.ClusterWithoutGcp | src/main/kotlin/no/nav/saas/proxy/Application.kt:290-293 | a cluster name without "gcp" is used unchanged |
| Application.TargetCluster | src/main/kotlin/no/nav/saas/proxy/Application.kt:290-293 | the cluster a target is addressed in (stated by ClusterOfIngress and ClusterWithoutGcp) |
| Application.TargetAlias | src/main/kotlin/no/nav/saas/proxy/Application.kt:182 | the alias "<cluster>.<namespace>.<app>" the token is asked for (stated by TargetAliasParts) |
| Application.TargetAliasParts | src/main/kotlin/no/nav/saas/proxy/Application.kt:182 | the alias is "<target cluster>.<namespace>.<app>", and dot-free names are read back from it |
| Application.OutboundUrl | src/main/kotlin/no/nav/saas/proxy/Application.kt:187-188 | the URL starts with the ingress, or with "http://<app>.<namespace>" when there is none, and ends with the inbound URI |
| Application.Decide | src/main/kotlin/no/nav/saas/proxy/Application.kt:121-170 | the dispatch decision for a call (stated by OnlyRedirectBypassesRules, ForwardOnlyApproved, WhitelistBeforeToken, ForwardHasToken) |
| Application.TargetsOf | src/main/kotlin/no/nav/saas/proxy/Application.kt:110-112 | the target-app, target-namespace and target-only-redirect headers, each read ignoring case from the first header of that name (stated by HeaderValue; CountedByApp and Decide use it) |
| Application.Judge | src/main/kotlin/no/nav/saas/proxy/Application.kt:158-172 | the verdict once the rules are filtered: 400, 401 or forward (stated by JudgeWhitelistFirst) |
| Application.OnlyRedirectBypassesRules | src/main/kotlin/no/nav/saas/proxy/Application.kt:121-143 | in only-redirect mode the rules and ingresses do not matter; the call is passed on iff it has a valid token, else 401 |
| Application.ForwardOnlyApproved | src/main/kotlin/no/nav/saas/proxy/Application.kt:144-185 | a call is forwarded only with a token, a named app, some accepting rule in the resolved namespace, that namespace's ingress, and the scope the accepting rules name |
| Application.JudgeWhitelistFirst | src/main/kotlin/no/nav/saas/proxy/Application.kt:158-170 | no accepting rule gives 400 whether or not there is a token; accepting rules without a token give 401 |
| Application.WhitelistBeforeToken | src/main/kotlin/no/nav/saas/proxy/Application.kt:151-170 | the whitelist decides before the token is looked at |
| Application.ForwardHasToken | src/main/kotlin/no/nav/saas/proxy/Application.kt:164-172 | a decision to forward is only made for a call that carries a token |
| Application.Proxy.constructor | src/main/kotlin/no/nav/saas/proxy/Application.kt:42-69 | the proxy's tables, client, token handler, metrics and Valkey, with the token handler counting into the proxy's metrics |
| Application.Proxy.Send | src/main/kotlin/no/nav/saas/proxy/Application.kt:191-281 | the outbound call with its one retry of a GET that threw, as the sending specification says |
| Application.Proxy.Deliver | src/main/kotlin/no/nav/saas/proxy/Application.kt:192-235 | an answered call: counted, timed, last-seen written, answer filtered |
| Application.Proxy.AfterException | src/main/kotlin/no/nav/saas/proxy/Application.kt:236-280 | after an exception: a GET is sent again, any other method gets 500 |
| Application.Proxy.Redirect | src/main/kotlin/no/nav/saas/proxy/Application.kt:106-284 | the redirect handler does what the handling specification says, step by step |
| Application.Proxy.Act | src/main/kotlin/no/nav/saas/proxy/Application.kt:121-170 | the branches that do not forward, as the acting specification says |
| Application.Proxy.Forward | src/main/kotlin/no/nav/saas/proxy/Application.kt:173-281 | the token exchange and the dispatch of a forwarded call |
| Application.Proxy.Delivering | src/main/kotlin/no/nav/saas/proxy/Application.kt:192-235 | the specification of Deliver: count, time, last-seen write, filtered answer (described by SendingAnswered) |
| Application.TokenTypeLabel | src/main/kotlin/no/nav/saas/proxy/Application.kt:213 | the token-type label is "proxy:obo" or "proxy:m2m", and "proxy:obo" exactly for a token with a NAVident claim |
| Application.Proxy.Forwarding | src/main/kotlin/no/nav/saas/proxy/Application.kt:173-190 | the token is exchanged for the alias `<cluster>.<namespace>.<app>` with the rules' scope, then the call is dispatched (stated by ForwardingCounters and OnlyAllowedCallsLeave) |
| Application.Proxy.Dispatching | src/main/kotlin/no/nav/saas/proxy/Application.kt:173-190 | a failed exchange escapes with nothing sent; otherwise the outbound call is sent once or, for a retried GET, twice (stated by DispatchedCallsCarryToken) |
| Application.Proxy.Outbound | src/main/kotlin/no/nav/saas/proxy/Application.kt:187-189 | the inbound method and body to `ingress ?: "http://$targetApp.$namespace"` plus the URI, with the forwarded headers and one Bearer header (stated by DispatchedCallsCarryToken) |
| Application.Proxy.Acting | src/main/kotlin/no/nav/saas/proxy/Application.kt:121-170 | the branches that do not forward: an error, 400, 401 counted under the app, or one call passed on in only-redirect mode (stated by ActingLocally and OnlyAllowedCallsLeave) |
| Application.Proxy.Sending | src/main/kotlin/no/nav/saas/proxy/Application.kt:191-281 | the specification of Send (described by SendingAnswered, SendingFailed, SendingRetried) |
| Application.Proxy.Recovering | src/main/kotlin/no/nav/saas/proxy/Application.kt:236-280 | the specification of AfterException: a GET is sent again, any other method gets 500 (described by SendingFailed and SendingRetried) |
| Application.Proxy.Handling | src/main/kotlin/no/nav/saas/proxy/Application.kt:106-284 | the specification of Redirect (described by CountedByApp, ActingLocally, ForwardingCounters, DispatchedCallsCarryToken, OnlyAllowedCallsLeave) |
| Application.Proxy.IsReadyHandler | src/main/kotlin/no/nav/saas/proxy/Application.kt:91-97 | 200 only when Valkey's check had already passed and the validator is ready, 503 otherwise; a passed check stays passed and sends no query; otherwise exactly one GET of the probe key is sent, and the flag is set iff it was answered in under 100 ms |
| Application.Proxy.SendingAnswered | src/main/kotlin/no/nav/saas/proxy/Application.kt:191-235 | an answered call is sent once, counted under the answer's status, passed back with status and body and without blocked headers, and writes the app's last-seen time for 90 days |
| Application.Proxy.SendingFailed | src/main/kotlin/no/nav/saas/proxy/Application.kt:266-280 | a non-GET that throws is not sent again: counted with status 500, answered 500 with the exception's text, no last-seen write |
| Application.Proxy.SendingRetried | src/main/kotlin/no/nav/saas/proxy/Application.kt:242-265 | a GET that throws is sent exactly once more; the second answer, or 500, is counted under "retry-<status>", and no last-seen write happens |
| Application.Proxy.DispatchedCallsCarryToken | src/main/kotlin/no/nav/saas/proxy/Application.kt:173-193 | every call sent goes to the target's URL with the inbound method and body and the exchanged token as its one Authorization; a failed exchange sends nothing |
| Application.Proxy.ActingLocally | src/main/kotlin/no/nav/saas/proxy/Application.kt:121-170 | the branches that do not forward never touch the token handler or the last-seen store, send one call only when passing on, and count 401 only for a whitelisted call without a token |
| Application.Proxy.ForwardingCounters | src/main/kotlin/no/nav/saas/proxy/Application.kt:173-281 | a forwarded call leaves the api-call, dry-run and unauthorized counters alone, and only appends to the calls sent |
| Application.Proxy.CountedByApp | src/main/kotlin/no/nav/saas/proxy/Application.kt:114-119 | a call is counted under its app and masked path exactly when it names an app |
| Application.Proxy.OnlyAllowedCallsLeave | src/main/kotlin/no/nav/saas/proxy/Application.kt:106-284 | a call leaves the proxy only with a valid token, passed on in only-redirect mode or forwarded after approval; only a forwarded call reaches the token handler or writes a last-seen time |

## Left out

- HTTP serving and routing (http4k routes, Netty), `isAlive`, the GUI, `metricsHttpHandler`: they are framework wiring with no logic of their own.
- `lastSeenHandler` (`Application.kt:99-104`) is left out. Its data is `FetchAllLastSeen`; its JSON rendering with Gson is not modelled.
- JSON parsing of the rule and ingress files (`Whitelist.parse`, `Ingresses.parse`): the tables are given maps.
- JSON and JWT decoding: the identity provider's body is given as its decoded `access_token` field, and a token as its encoded text, claim names and expiry.
- Token validation (`TokenValidation.kt`): its first valid token and its readiness are parameters.
- `/tmp` diagnostic files, logging, `Thread.sleep` between retries, `currentDateTime`, environment lookups: there is no file system, logger or wall clock in the model.
- The clock: System.currentTimeMillis and Instant.now are readings passed in. The last-seen timestamp is taken at the reading after the outbound call.
- Prometheus samples are doubles; the model keeps counters as naturals and observations as integers. Histogram buckets are not modelled, only the observations.
- The api-call counter for a call without a target-app header: `Application.kt:114-119` registers it with a null app label.
  The Prometheus client refuses the null label and throws, and the source swallows the exception, so such a call is never counted.
  The model renders this as not counting the call (`Handling`, stated by `CountedByApp`).
  The `/tmp/failRegisterApiCall` file the catch writes is left out.
- The catch around the forwarded-call metrics at `Application.kt:212-225` is not modelled. Every label there is non-null, so it cannot fire.
- Exceptions are values (`Errors.Error`). A stack trace in a 500 response is modelled as the exception's message.
- Regular expressions: only literal characters, `.` and a starred atom are modelled. A rule whose pattern uses other syntax evaluates to an error, where the source would match it. `.` excludes Java's line terminators.
- Metrics.mask: stages three and four treat `$` as the end of the string only. Java's `$` also matches just before a final line terminator, so the source masks "/ABC\n" to "/{code}\n" and the model leaves it unchanged.
- SCAN: the pages the cursor returns are given; the SCAN commands themselves are not logged.
- Concurrency: the shared token cache and the metrics are modelled under one call at a time.
- `Application.useRedis` and `Redis.commands` do not exist in the shown code. The token cache is a separate key-value store with a `useCache` switch.
- testCall.kt, HttpClientResources.kt, Rules.kt and the root `Ingresses.kt` are not part of this model.
- `toNavRequest` in `Extentions.kt` adapts requests for the token validator, which is a parameter here.
- Lower: lower-cases ASCII capitals only, where Kotlin's `lowercase()` lowers every Unicode capital. Header names are ASCII tokens, so header filtering is unaffected.
- SameName: http4k's ignore-case comparison of header names is Unicode-aware; the model compares ASCII-lowered names.
- ParseLong: accepts ASCII digits only, where `toLongOrNull` takes any Unicode decimal digit (it reads "١٢٣" as 123). Values written by the proxy itself are ASCII, as NatToStringParses states.

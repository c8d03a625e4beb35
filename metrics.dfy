/**
 * The proxy's telemetry: the path mask that keeps metric label values few, and the metric
 * registry with its counters, its histograms and the max-tracking of the cache timings.
 * Prometheus' double-valued samples are modelled as integers.
 */
module Telemetry {
  import opened Wrappers
  import opened Text

  /** The number of decimal digits `s` starts with. */
  function DigitRun(s: string): (n: nat)
    ensures n <= |s|
    ensures forall i :: 0 <= i < n ==> IsDigit(s[i])
    ensures n < |s| ==> !IsDigit(s[n])
  {
    if s != [] && IsDigit(s[0]) then 1 + DigitRun(s[1..]) else 0
  }

  /** `/\d+` matches at i: a slash followed by a digit (the match then takes the whole digit run). */
  predicate NumberAt(s: string, i: int) {
    0 <= i && i + 1 < |s| && s[i] == '/' && IsDigit(s[i + 1])
  }

  /**
   * Stage one, `replace(Regex("/\\d+"), "/{id}")`: scanning left to right, a slash and the
   * maximal run of digits after it become "/{id}"; the scan resumes after the run.
   */
  function MaskIds(s: string): (r: string)
    ensures s == [] <==> r == []
    ensures s != [] ==> r[0] == s[0]
    decreases |s|
  {
    if s == [] then []
    else if NumberAt(s, 0) then "/{id}" + MaskIds(s[1 + DigitRun(s[1..])..])
    else [s[0]] + MaskIds(s[1..])
  }

  /** `/[A-Z]\d{4,}` matches at i: a slash, one capital letter and at least four digits. */
  predicate IdentAt(s: string, i: int) {
    0 <= i && i + 2 <= |s| && s[i] == '/' && IsUpper(s[i + 1]) && DigitRun(s[i + 2..]) >= 4
  }

  /** Stage two, `replace(Regex("/[A-Z]\\d{4,}"), "/{ident}")`, greedy in the digits. */
  function MaskIdents(s: string): (r: string)
    ensures s == [] <==> r == []
    ensures s != [] ==> r[0] == s[0]
    decreases |s|
  {
    if s == [] then []
    else if IdentAt(s, 0) then "/{ident}" + MaskIdents(s[2 + DigitRun(s[2..])..])
    else [s[0]] + MaskIdents(s[1..])
  }

  /** What `[^/]+\.(xml|pdf)$` matches: the rest of the string, slash-free, naming an XML or PDF file. */
  predicate FileName(t: string) {
    |t| >= 5 && '/' !in t && (EndsWith(t, ".xml") || EndsWith(t, ".pdf"))
  }

  /** `/[^/]+\.(xml|pdf)$` matches at i. */
  predicate FileAt(s: string, i: int) {
    0 <= i < |s| && s[i] == '/' && FileName(s[i + 1..])
  }

  /**
   * Stage three, `replace(Regex("/[^/]+\\.(xml|pdf)$"), "/{filename}")`: the match runs to the
   * end of the string, so at most one rewrite happens and the scan ends with it.
   */
  function MaskFilename(s: string): (r: string)
    ensures s == [] <==> r == []
    ensures s != [] ==> r[0] == s[0]
    decreases |s|
  {
    if s == [] then []
    else if FileAt(s, 0) then "/{filename}"
    else [s[0]] + MaskFilename(s[1..])
  }

  /** `/[A-Z]{3}(?=/|$)` matches at i: a slash, three capitals, then a slash or the end. */
  predicate CodeAt(s: string, i: int) {
    0 <= i && i + 4 <= |s| && s[i] == '/' && IsUpper(s[i + 1]) && IsUpper(s[i + 2]) && IsUpper(s[i + 3])
    && (i + 4 == |s| || s[i + 4] == '/')
  }

  /**
   * Stage four, `replace(Regex("/[A-Z]{3}(?=/|$)"), "/{code}")`: the lookahead does not consume
   * the following slash, so it may start the next match.
   */
  function MaskCodes(s: string): (r: string)
    ensures s == [] <==> r == []
    ensures s != [] ==> r[0] == s[0]
    decreases |s|
  {
    if s == [] then []
    else if CodeAt(s, 0) then "/{code}" + MaskCodes(s[4..])
    else [s[0]] + MaskCodes(s[1..])
  }

  /** Metrics.mask: the four stages in the order the source chains them. */
  function Mask(path: string): string {
    MaskCodes(MaskFilename(MaskIdents(MaskIds(path))))
  }

  /** After stage one no slash is followed by a digit: every number after a slash was masked. */
  lemma {:induction false} MaskIdsLeavesNoNumber(s: string)
    ensures forall i :: !NumberAt(MaskIds(s), i)
    decreases |s|
  {
    if s != [] {
      var r := MaskIds(s);
      if NumberAt(s, 0) {
        var u := s[1 + DigitRun(s[1..])..];
        MaskIdsLeavesNoNumber(u);
        var t := MaskIds(u);
        assert r == "/{id}" + t;
        assert u != [] ==> !IsDigit(u[0]);
        forall i ensures !NumberAt(r, i) {
          if 5 <= i {
            assert NumberAt(r, i) ==> NumberAt(t, i - 5);
          }
        }
      } else {
        MaskIdsLeavesNoNumber(s[1..]);
        var t := MaskIds(s[1..]);
        assert r == [s[0]] + t;
        forall i ensures !NumberAt(r, i) {
          if 1 <= i {
            assert NumberAt(r, i) ==> NumberAt(t, i - 1);
          }
        }
      }
    }
  }

  /** A path without a number after a slash passes stage one unchanged. */
  lemma {:induction false} MaskIdsWithoutNumber(s: string)
    requires forall i :: !NumberAt(s, i)
    ensures MaskIds(s) == s
    decreases |s|
  {
    if s != [] {
      NoNumberInTail(s);
      MaskIdsWithoutNumber(s[1..]);
      assert [s[0]] + s[1..] == s;
    }
  }

  /** Stage one changes a path exactly when it holds a number after a slash, and is idempotent. */
  lemma MaskIdsFixedPoints(s: string)
    ensures MaskIds(s) == s <==> forall i :: !NumberAt(s, i)
    ensures MaskIds(MaskIds(s)) == MaskIds(s)
  {
    MaskIdsLeavesNoNumber(s);
    if forall i :: !NumberAt(s, i) {
      MaskIdsWithoutNumber(s);
    }
    MaskIdsWithoutNumber(MaskIds(s));
  }

  /** Dropping the first character keeps a text free of numbers after slashes. */
  lemma NoNumberInTail(a: string)
    requires a != []
    requires forall i :: !NumberAt(a, i)
    ensures forall i :: !NumberAt(a[1..], i)
  {
    forall i ensures !NumberAt(a[1..], i) {
      assert NumberAt(a[1..], i) ==> NumberAt(a, i + 1);
    }
  }

  /** A character that starts no match is copied by stage one. */
  lemma MaskIdsCopies(c: char, t: string)
    requires !(c == '/' && t != [] && IsDigit(t[0]))
    ensures MaskIds([c] + t) == [c] + MaskIds(t)
  {
    var s := [c] + t;
    assert s[1..] == t;
    if |s| >= 2 {
      assert s[1] == t[0];
    }
  }

  /** Text before the first number-after-a-slash passes stage one unchanged. */
  lemma {:induction false} MaskIdsKeepsPrefix(a: string, b: string)
    requires forall i :: !NumberAt(a, i)
    requires a != [] ==> a[|a| - 1] != '/'
    ensures MaskIds(a + b) == a + MaskIds(b)
    decreases |a|
  {
    if a == [] {
      assert a + b == b;
    } else {
      var c, tail := a[0], a[1..];
      assert a == [c] + tail;
      if c == '/' {
        assert |a| >= 2 && !NumberAt(a, 0);
        assert (tail + b)[0] == tail[0] == a[1];
      }
      MaskIdsCopies(c, tail + b);
      NoNumberInTail(a);
      assert tail != [] ==> tail[|tail| - 1] == a[|a| - 1];
      MaskIdsKeepsPrefix(tail, b);
      AppendAssociates([c], tail, b, []);
      AppendAssociates([c], tail, MaskIds(b), []);
    }
  }

  /** A slash, a run of digits and text starting with no digit: the run becomes "/{id}". */
  lemma MaskIdsNumber(digits: string, b: string)
    requires |digits| >= 1 && AllDigits(digits)
    requires b != [] ==> !IsDigit(b[0])
    ensures MaskIds("/" + digits + b) == "/{id}" + MaskIds(b)
  {
    var s := "/" + digits + b;
    assert s[1..] == digits + b;
    assert NumberAt(s, 0);
    DigitRunOf(digits, b);
    assert s[1 + |digits|..] == b;
  }

  lemma {:induction false} DigitRunOf(digits: string, b: string)
    requires AllDigits(digits)
    requires b != [] ==> !IsDigit(b[0])
    ensures DigitRun(digits + b) == |digits|
    decreases |digits|
  {
    if digits != [] {
      assert (digits + b)[1..] == digits[1..] + b;
      DigitRunOf(digits[1..], b);
    }
  }

  /** Stage two on a slash, a capital and four or more digits: the whole run becomes "/{ident}". */
  lemma MaskIdentsIdent(c: char, digits: string, b: string)
    requires IsUpper(c)
    requires |digits| >= 4 && AllDigits(digits)
    requires b != [] ==> !IsDigit(b[0])
    ensures MaskIdents("/" + [c] + digits + b) == "/{ident}" + MaskIdents(b)
  {
    var s := "/" + [c] + digits + b;
    assert s[2..] == digits + b;
    DigitRunOf(digits, b);
    assert IdentAt(s, 0);
    assert s[2 + |digits|..] == b;
  }

  /** Stage one keeps an ident intact: after a slash comes the capital, so its digits are no number. */
  lemma IdentSurvivesIds(c: char, digits: string, b: string)
    requires IsUpper(c)
    requires AllDigits(digits)
    ensures MaskIds("/" + [c] + digits + b) == "/" + [c] + digits + MaskIds(b)
  {
    var a := "/" + [c] + digits;
    forall i ensures !NumberAt(a, i) {
      if 0 < i < |a| {
        assert a[i] == if i == 1 then c else digits[i - 2];
      }
    }
    MaskIdsKeepsPrefix(a, b);
  }

  /** Stage four on a slash and three capitals with a slash or the end after them: they become "/{code}". */
  lemma MaskCodesCode(code: string, b: string)
    requires |code| == 3 && forall i :: 0 <= i < 3 ==> IsUpper(code[i])
    requires b == [] || b[0] == '/'
    ensures MaskCodes("/" + code + b) == "/{code}" + MaskCodes(b)
  {
    var s := "/" + code + b;
    assert s[1] == code[0] && s[2] == code[1] && s[3] == code[2];
    assert b != [] ==> s[4] == b[0];
    assert CodeAt(s, 0);
    assert s[4..] == b;
  }

  /** A match of stage two in the tail of a string is a match one place later in the string. */
  lemma IdentAtShift(s: string, i: nat)
    requires s != []
    ensures IdentAt(s[1..], i) ==> IdentAt(s, i + 1)
  {
    if IdentAt(s[1..], i) {
      assert s[1..][i + 2..] == s[i + 3..];
    }
  }

  /**
   * Text in which no match of stage two starts is copied unchanged ahead of the rest: an ident
   * is masked wherever it sits. A match is judged in the whole string, since its digits may run on.
   */
  lemma {:induction false} MaskIdentsKeepsPrefix(a: string, b: string)
    requires forall i :: 0 <= i < |a| ==> !IdentAt(a + b, i)
    ensures MaskIdents(a + b) == a + MaskIdents(b)
    decreases |a|
  {
    if a == [] {
      assert a + b == b;
    } else {
      var s := a + b;
      assert !IdentAt(s, 0);
      assert s[1..] == a[1..] + b;
      forall i | 0 <= i < |a[1..]|
        ensures !IdentAt(a[1..] + b, i)
      {
        IdentAtShift(s, i);
      }
      MaskIdentsKeepsPrefix(a[1..], b);
      assert s[0] == a[0];
      assert a == [a[0]] + a[1..];
      AppendAssociates([a[0]], a[1..], MaskIdents(b), []);
    }
  }

  /** A match of stage four in the tail of a string is a match one place later in the string. */
  lemma CodeAtShift(s: string, i: nat)
    requires s != []
    ensures CodeAt(s[1..], i) ==> CodeAt(s, i + 1)
  {
  }

  /** Text in which no match of stage four starts is copied unchanged: a code is masked wherever it sits. */
  lemma {:induction false} MaskCodesKeepsPrefix(a: string, b: string)
    requires forall i :: 0 <= i < |a| ==> !CodeAt(a + b, i)
    ensures MaskCodes(a + b) == a + MaskCodes(b)
    decreases |a|
  {
    if a == [] {
      assert a + b == b;
    } else {
      var s := a + b;
      assert !CodeAt(s, 0);
      assert s[1..] == a[1..] + b;
      forall i | 0 <= i < |a[1..]|
        ensures !CodeAt(a[1..] + b, i)
      {
        CodeAtShift(s, i);
      }
      MaskCodesKeepsPrefix(a[1..], b);
      assert s[0] == a[0];
      assert a == [a[0]] + a[1..];
      AppendAssociates([a[0]], a[1..], MaskCodes(b), []);
    }
  }

  /** Text without capital letters. */
  predicate NoCapitals(s: string) {
    forall i :: 0 <= i < |s| ==> !IsUpper(s[i])
  }

  /** Without capital letters there is nothing for stage two to rewrite. */
  lemma {:induction false} MaskIdentsWithoutCapitals(s: string)
    requires NoCapitals(s)
    ensures MaskIdents(s) == s
    decreases |s|
  {
    if s != [] {
      assert |s| >= 2 ==> !IsUpper(s[1]);
      MaskIdentsWithoutCapitals(s[1..]);
      assert [s[0]] + s[1..] == s;
    }
  }

  /** Without capital letters there is nothing for stage four to rewrite. */
  lemma {:induction false} MaskCodesWithoutCapitals(s: string)
    requires NoCapitals(s)
    ensures MaskCodes(s) == s
    decreases |s|
  {
    if s != [] {
      assert |s| >= 2 ==> !IsUpper(s[1]);
      MaskCodesWithoutCapitals(s[1..]);
      assert [s[0]] + s[1..] == s;
    }
  }

  /** A slash-free last segment naming an XML or PDF file becomes "/{filename}"; nothing else changes. */
  lemma {:induction false} MaskFilenameSplit(a: string, t: string)
    requires FileName(t)
    requires forall i :: !FileAt(a, i)
    ensures MaskFilename(a + "/" + t) == a + "/{filename}"
    decreases |a|
  {
    var s := a + "/" + t;
    if a == [] {
      assert s == "/" + t;
      assert s[1..] == t;
    } else {
      assert s[1..][|a| - 1] == s[|a|] == '/';
      assert !FileAt(s, 0);
      assert s[1..] == a[1..] + "/" + t;
      forall i ensures !FileAt(a[1..], i) {
        assert FileAt(a[1..], i) ==> FileAt(a, i + 1) by {
          if 0 <= i < |a[1..]| {
            assert a[1..][i + 1..] == a[i + 2..];
          }
        }
      }
      MaskFilenameSplit(a[1..], t);
    }
  }

  /** A path that does not end in ".xml" or ".pdf" passes stage three unchanged. */
  lemma {:induction false} MaskFilenameOtherEnding(s: string)
    requires !EndsWith(s, ".xml") && !EndsWith(s, ".pdf")
    ensures MaskFilename(s) == s
    decreases |s|
  {
    if s != [] {
      if |s| >= 5 {
        assert s[1..][|s[1..]| - 4..] == s[|s| - 4..];
      }
      assert !FileAt(s, 0);
      MaskFilenameOtherEnding(s[1..]);
      assert [s[0]] + s[1..] == s;
    }
  }

  lemma NoCapitalsConcat(a: string, b: string)
    requires NoCapitals(a) && NoCapitals(b)
    ensures NoCapitals(a + b)
  {
    forall i | 0 <= i < |a + b| ensures !IsUpper((a + b)[i]) {
      if i >= |a| {
        assert (a + b)[i] == b[i - |a|];
      }
    }
  }

  lemma IdMarkerHasNoCapitals()
    ensures NoCapitals("/{id}")
  {
    var m := "/{id}";
    assert m[0] == '/' && m[1] == '{' && m[2] == 'i' && m[3] == 'd' && m[4] == '}';
  }

  /** Stage one on a path whose only number sits after a slash. */
  lemma MaskIdsOneNumber(a: string, digits: string, b: string)
    requires forall i :: !NumberAt(a, i)
    requires a != [] ==> a[|a| - 1] != '/'
    requires |digits| >= 1 && AllDigits(digits)
    requires b != [] ==> !IsDigit(b[0])
    requires forall i :: !NumberAt(b, i)
    ensures MaskIds(a + "/" + digits + b) == a + "/{id}" + b
  {
    AppendAssociates(a, "/", digits, b);
    MaskIdsKeepsPrefix(a, "/" + digits + b);
    MaskIdsNumber(digits, b);
    MaskIdsWithoutNumber(b);
  }

  /** A path whose only number sits after a slash masks to "{id}" in its place. */
  lemma MaskOneNumber(a: string, digits: string, b: string)
    requires forall i :: !NumberAt(a, i)
    requires a != [] ==> a[|a| - 1] != '/'
    requires |digits| >= 1 && AllDigits(digits)
    requires b != [] ==> !IsDigit(b[0])
    requires forall i :: !NumberAt(b, i)
    requires NoCapitals(a) && NoCapitals(b)
    requires !EndsWith(a + "/{id}" + b, ".xml") && !EndsWith(a + "/{id}" + b, ".pdf")
    ensures Mask(a + "/" + digits + b) == a + "/{id}" + b
  {
    MaskIdsOneNumber(a, digits, b);
    var x := a + "/{id}" + b;
    IdMarkerHasNoCapitals();
    NoCapitalsConcat(a, "/{id}");
    NoCapitalsConcat(a + "/{id}", b);
    MaskIdentsWithoutCapitals(x);
    MaskFilenameOtherEnding(x);
    MaskCodesWithoutCapitals(x);
  }

  /** Text made of lower-case letters, digits and slashes. */
  predicate PlainPath(s: string) {
    forall i :: 0 <= i < |s| ==> 'a' <= s[i] <= 'z' || IsDigit(s[i]) || s[i] == '/'
  }

  lemma PlainPathNoCapitals(s: string)
    requires PlainPath(s)
    ensures NoCapitals(s)
  {
  }

  lemma EnhetParts()
    ensures PlainPath("norg2/api/v1/enhet")
    ensures PlainPath("/kontaktinformasjon")
    ensures "/kontaktinformasjon"[0] == '/'
    ensures "norg2/api/v1/enhet"[17] == 't'
    ensures "/kontaktinformasjon"[1] == 'k'
  {
  }

  lemma EnhetPrefixHasNoNumber()
    ensures forall i :: !NumberAt("norg2/api/v1/enhet", i)
  {
    var a := "norg2/api/v1/enhet";
    forall i | 0 <= i && i + 1 < |a| && a[i] == '/' ensures !IsDigit(a[i + 1]) {
      assert i == 5 || i == 9 || i == 12;
    }
  }

  lemma ContactHasNoNumber()
    ensures forall i :: !NumberAt("/kontaktinformasjon", i)
  {
    var b := "/kontaktinformasjon";
    forall i | 0 <= i && i + 1 < |b| && b[i] == '/' ensures !IsDigit(b[i + 1]) {
      assert i == 0;
    }
  }

  lemma EnhetJoin()
    ensures "norg2/api/v1/enhet" + "/{id}" + "/kontaktinformasjon" == "norg2/api/v1/enhet/{id}/kontaktinformasjon"
  {
  }

  lemma EnhetEnding()
    ensures !EndsWith("norg2/api/v1/enhet/{id}/kontaktinformasjon", ".xml")
    ensures !EndsWith("norg2/api/v1/enhet/{id}/kontaktinformasjon", ".pdf")
  {
    var s := "norg2/api/v1/enhet/{id}/kontaktinformasjon";
    assert s[|s| - 1] == 'n';
  }

  /** Any unit number in the contact-information path of the unit register is masked to "{id}". */
  lemma MaskUnitContactPath(id: string)
    requires |id| >= 1 && AllDigits(id)
    ensures Mask("norg2/api/v1/enhet/" + id + "/kontaktinformasjon") == "norg2/api/v1/enhet/{id}/kontaktinformasjon"
  {
    var a := "norg2/api/v1/enhet";
    var b := "/kontaktinformasjon";
    EnhetParts();
    EnhetPrefixHasNoNumber();
    ContactHasNoNumber();
    EnhetJoin();
    EnhetEnding();
    PlainPathNoCapitals(a);
    PlainPathNoCapitals(b);
    assert "norg2/api/v1/enhet/" + id + "/kontaktinformasjon" == a + "/" + id + b;
    MaskOneNumber(a, id, b);
  }

  lemma UnitPath0602()
    ensures "norg2/api/v1/enhet/0602/kontaktinformasjon" == "norg2/api/v1/enhet/" + "0602" + "/kontaktinformasjon"
    ensures AllDigits("0602")
  {
  }

  lemma UnitPath0702()
    ensures "norg2/api/v1/enhet/0702/kontaktinformasjon" == "norg2/api/v1/enhet/" + "0702" + "/kontaktinformasjon"
    ensures AllDigits("0702")
  {
  }

  /** The two paths of the masking test give the same label. */
  lemma MaskingTestPaths()
    ensures Mask("norg2/api/v1/enhet/0602/kontaktinformasjon") == "norg2/api/v1/enhet/{id}/kontaktinformasjon"
    ensures Mask("norg2/api/v1/enhet/0702/kontaktinformasjon") == "norg2/api/v1/enhet/{id}/kontaktinformasjon"
  {
    UnitPath0602();
    UnitPath0702();
    MaskUnitContactPath("0602");
    MaskUnitContactPath("0702");
  }

  /** The value of a counter child, 0 before its first increment. */
  function Count<K>(m: map<K, nat>, k: K): nat {
    if k in m then m[k] else 0
  }

  /** `counter.labels(k).inc()`. */
  function Bump<K(!new)>(m: map<K, nat>, k: K): map<K, nat> {
    m[k := Count(m, k) + 1]
  }

  /** A bumped counter: the child for k goes up by one, every other child is untouched. */
  lemma BumpCounts<K(!new)>(m: map<K, nat>, k: K)
    ensures Count(Bump(m, k), k) == Count(m, k) + 1
    ensures forall j :: j != k ==> Count(Bump(m, k), j) == Count(m, j)
    ensures Bump(m, k).Keys == m.Keys + {k}
  {
  }

  /**
   * The value a max gauge holds after the observations `s` (a gauge starts at 0): each
   * observation replaces it when strictly larger.
   */
  function Peak(s: seq<int>): int {
    if s == [] then 0
    else
      var p := Peak(s[..|s| - 1]);
      if s[|s| - 1] > p then s[|s| - 1] else p
  }

  /** The gauge is the largest observation, or its initial 0 when that is larger. */
  lemma {:induction false} PeakIsMaximum(s: seq<int>)
    ensures Peak(s) >= 0
    ensures forall i :: 0 <= i < |s| ==> s[i] <= Peak(s)
    ensures Peak(s) == 0 || Peak(s) in s
  {
    if s != [] {
      var init := s[..|s| - 1];
      PeakIsMaximum(init);
      assert forall i :: 0 <= i < |init| ==> s[i] == init[i];
      assert Peak(init) in init ==> Peak(init) in s;
    }
  }

  /** Observing more never lowers the gauge. */
  lemma {:induction false} PeakMonotone(s: seq<int>, t: seq<int>)
    ensures Peak(s) <= Peak(s + t)
    decreases |t|
  {
    if t == [] {
      assert s + t == s;
    } else {
      var u := s + t;
      assert u[..|u| - 1] == s + t[..|t| - 1];
      PeakMonotone(s, t[..|t| - 1]);
      assert Peak(u) >= Peak(u[..|u| - 1]);
    }
  }

  /** One more observation: the gauge is raised to it exactly when it is strictly larger. */
  lemma PeakStep(s: seq<int>, d: int)
    ensures Peak(s + [d]) == if d > Peak(s) then d else Peak(s)
  {
    assert (s + [d])[..|s|] == s;
  }

  /** The labels of a forwarded call. */
  datatype CallLabels = CallLabels(targetApp: string, path: string, ingress: string, tokenType: string, status: string)

  /** The labels of the forwarded-call histograms. */
  datatype TimingLabels = TimingLabels(targetApp: string, tokenType: string, status: string)

  /** What the counters, gauges and histograms of forwarded traffic hold, as one value. */
  datatype Counts = Counts(
    apiCalls: map<(string, string), nat>,
    tokenFetchFail: map<(string, string), nat>,
    noAuth: map<string, nat>,
    testApiCalls: map<string, nat>,
    forwardedCalls: map<CallLabels, nat>,
    totalMs: seq<(TimingLabels, int)>,
    handlingMs: seq<(TimingLabels, int)>)

  /** What the two cache-timing summaries and their max gauges hold, as one value. */
  datatype CacheTimes = CacheTimes(fetchTime: seq<int>, fetchTimeMax: int, storeTime: seq<int>, storeTimeMax: int)

  /**
   * The Metrics object. Counters and gauges are maps from label values to their count, a summary
   * or a histogram is the sequence of its observations; each max gauge sits beside its summary.
   */
  class Metrics {
    var apiCalls: map<(string, string), nat>
    var tokenFetchFail: map<(string, string), nat>
    var noAuth: map<string, nat>
    var testApiCalls: map<string, nat>
    var forwardedCalls: map<CallLabels, nat>
    var totalMs: seq<(TimingLabels, int)>
    var handlingMs: seq<(TimingLabels, int)>
    var cacheFetchTime: seq<int>
    var cacheFetchTimeMax: int
    var cacheStoreTime: seq<int>
    var cacheStoreTimeMax: int

    /** Each max gauge holds the peak of the observations its summary has seen. */
    predicate Valid()
      reads this
    {
      FetchMaxValid() && StoreMaxValid()
    }

    predicate FetchMaxValid()
      reads this
    {
      cacheFetchTimeMax == Peak(cacheFetchTime)
    }

    predicate StoreMaxValid()
      reads this
    {
      cacheStoreTimeMax == Peak(cacheStoreTime)
    }

    function Counted(): Counts
      reads this
    {
      Counts(apiCalls, tokenFetchFail, noAuth, testApiCalls, forwardedCalls, totalMs, handlingMs)
    }

    function Timed(): CacheTimes
      reads this
    {
      CacheTimes(cacheFetchTime, cacheFetchTimeMax, cacheStoreTime, cacheStoreTimeMax)
    }

    constructor ()
      ensures Valid()
      ensures Counted() == Counts(map[], map[], map[], map[], map[], [], [])
      ensures Timed() == CacheTimes([], 0, [], 0)
    {
      apiCalls := map[];
      tokenFetchFail := map[];
      noAuth := map[];
      testApiCalls := map[];
      forwardedCalls := map[];
      totalMs := [];
      handlingMs := [];
      cacheFetchTime := [];
      cacheFetchTimeMax := 0;
      cacheStoreTime := [];
      cacheStoreTimeMax := 0;
    }

    /** `apiCalls.labels(app, path).inc()`. */
    method ApiCallsInc(targetApp: string, path: string)
      modifies this
      ensures Counted() == old(Counted()).(apiCalls := Bump(old(apiCalls), (targetApp, path)))
      ensures Timed() == old(Timed())
    {
      apiCalls := Bump(apiCalls, (targetApp, path));
    }

    /** `tokenFetchFail.labels(alias, tokenType).inc()`. */
    method TokenFetchFailInc(targetAlias: string, tokenType: string)
      modifies this
      ensures Counted() == old(Counted()).(tokenFetchFail := Bump(old(tokenFetchFail), (targetAlias, tokenType)))
      ensures Timed() == old(Timed())
    {
      tokenFetchFail := Bump(tokenFetchFail, (targetAlias, tokenType));
    }

    /** `noAuth.labels(app).inc()`. */
    method NoAuthInc(targetApp: string)
      modifies this
      ensures Counted() == old(Counted()).(noAuth := Bump(old(noAuth), targetApp))
      ensures Timed() == old(Timed())
    {
      noAuth := Bump(noAuth, targetApp);
    }

    /** `testApiCalls.labels(path).inc()`. */
    method TestApiCallsInc(path: string)
      modifies this
      ensures Counted() == old(Counted()).(testApiCalls := Bump(old(testApiCalls), path))
      ensures Timed() == old(Timed())
    {
      testApiCalls := Bump(testApiCalls, path);
    }

    /**
     * fetchTimeObserve: the duration goes into the summary, and the max gauge rises to it when
     * it is larger, so the gauge never falls and ends at least at the duration.
     */
    method FetchTimeObserve(durationMillis: int)
      requires FetchMaxValid()
      modifies this
      ensures FetchMaxValid()
      ensures cacheFetchTime == old(cacheFetchTime) + [durationMillis]
      ensures old(cacheFetchTimeMax) <= cacheFetchTimeMax && durationMillis <= cacheFetchTimeMax
      ensures cacheStoreTime == old(cacheStoreTime) && cacheStoreTimeMax == old(cacheStoreTimeMax)
      ensures Counted() == old(Counted())
    {
      var max := cacheFetchTimeMax;
      if durationMillis > max {
        max := durationMillis;
      }
      PeakStep(cacheFetchTime, durationMillis);
      cacheFetchTime := cacheFetchTime + [durationMillis];
      cacheFetchTimeMax := max;
    }

    /** storeTimeObserve: as FetchTimeObserve, on the store-time summary and gauge. */
    method StoreTimeObserve(durationMillis: int)
      requires StoreMaxValid()
      modifies this
      ensures StoreMaxValid()
      ensures cacheStoreTime == old(cacheStoreTime) + [durationMillis]
      ensures old(cacheStoreTimeMax) <= cacheStoreTimeMax && durationMillis <= cacheStoreTimeMax
      ensures cacheFetchTime == old(cacheFetchTime) && cacheFetchTimeMax == old(cacheFetchTimeMax)
      ensures Counted() == old(Counted())
    {
      var max := cacheStoreTimeMax;
      if durationMillis > max {
        max := durationMillis;
      }
      PeakStep(cacheStoreTime, durationMillis);
      cacheStoreTime := cacheStoreTime + [durationMillis];
      cacheStoreTimeMax := max;
    }

    /**
     * forwardedCallsInc: the counter always goes up; the two histograms observe the timings
     * only when both of them are given.
     */
    method ForwardedCallsInc(labels: CallLabels, totalMillis: Option<int>, handlingMillis: Option<int>)
      modifies this
      ensures var timing := TimingLabels(labels.targetApp, labels.tokenType, labels.status);
              var both := totalMillis.Some? && handlingMillis.Some?;
              Counted() == old(Counted()).(
                forwardedCalls := Bump(old(forwardedCalls), labels),
                totalMs := if both then old(totalMs) + [(timing, totalMillis.value)] else old(totalMs),
                handlingMs := if both then old(handlingMs) + [(timing, handlingMillis.value)] else old(handlingMs))
      ensures Timed() == old(Timed())
    {
      forwardedCalls := Bump(forwardedCalls, labels);
      if totalMillis.Some? && handlingMillis.Some? {
        var timing := TimingLabels(labels.targetApp, labels.tokenType, labels.status);
        totalMs := totalMs + [(timing, totalMillis.value)];
        handlingMs := handlingMs + [(timing, handlingMillis.value)];
      }
    }
  }
}

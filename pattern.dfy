/**
 * The part of Java's regular expressions the whitelist rules use: literal characters, `.`
 * (any character but a line terminator) and a starred atom (`x*`, `.*`), matched against the
 * WHOLE input as `Regex(pattern).matches(path)` does.
 */
module Pattern {
  import opened Wrappers
  import opened Text

  datatype Atom = Lit(c: char) | AnyChar

  datatype Piece = Once(atom: Atom) | Star(atom: Atom)

  /** Characters with a meaning in Java's pattern syntax. */
  predicate IsMeta(c: char) {
    c in "\\^$.|?*+()[]{}"
  }

  /** Java's line terminators, which `.` does not match. */
  predicate IsLineTerminator(c: char) {
    c == '\n' || c == '\r' || c == '\U{0085}' || c == '\U{2028}' || c == '\U{2029}'
  }

  /** Text that `.` can run over: no line terminator anywhere. */
  predicate SingleLine(s: string) {
    forall i :: 0 <= i < |s| ==> !IsLineTerminator(s[i])
  }

  lemma SingleLineConcat(a: string, b: string)
    requires SingleLine(a) && SingleLine(b)
    ensures SingleLine(a + b)
  {
    assert forall i :: |a| <= i < |a + b| ==> (a + b)[i] == b[i - |a|];
  }

  /** A pattern made of plain characters only. */
  predicate Literal(p: string) {
    forall i :: 0 <= i < |p| ==> !IsMeta(p[i])
  }

  function Lits(p: string): (r: seq<Piece>)
    ensures |r| == |p|
  {
    if p == [] then [] else [Once(Lit(p[0]))] + Lits(p[1..])
  }

  /** Translate a pattern into pieces; None for syntax outside the modelled subset. */
  function Compile(p: string): Option<seq<Piece>>
    decreases |p|
  {
    if p == [] then Some([])
    else if IsMeta(p[0]) && p[0] != '.' then None
    else
      var atom := if p[0] == '.' then AnyChar else Lit(p[0]);
      if |p| >= 2 && p[1] == '*' then
        match Compile(p[2..])
        case Some(rest) => Some([Star(atom)] + rest)
        case None => None
      else
        match Compile(p[1..])
        case Some(rest) => Some([Once(atom)] + rest)
        case None => None
  }

  predicate AtomMatches(a: Atom, c: char) {
    match a
    case Lit(x) => c == x
    case AnyChar => !IsLineTerminator(c)
  }

  /** Full match: the pieces consume exactly the whole of `s`. */
  predicate Matches(ps: seq<Piece>, s: string)
    decreases |ps|, |s|
  {
    if ps == [] then s == []
    else match ps[0]
      case Once(a) => |s| > 0 && AtomMatches(a, s[0]) && Matches(ps[1..], s[1..])
      case Star(a) => Matches(ps[1..], s) || (|s| > 0 && AtomMatches(a, s[0]) && Matches(ps, s[1..]))
  }

  /** `Regex(pattern).matches(s)`, or None when the pattern lies outside the subset. */
  function FullMatch(pattern: string, s: string): Option<bool> {
    match Compile(pattern)
    case Some(ps) => Some(Matches(ps, s))
    case None => None
  }

  /** One plain character that no `*` follows compiles to one literal piece. */
  lemma CompileLiteralStep(c: char, t: string)
    requires !IsMeta(c)
    requires t == [] || t[0] != '*'
    ensures Compile([c] + t) == (match Compile(t) case Some(rest) => Some([Once(Lit(c))] + rest) case None => None)
  {
    var ct := [c] + t;
    assert ct[0] == c && ct[1..] == t;
    assert !(|ct| >= 2 && ct[1] == '*');
  }

  /** A plain prefix compiles piece by piece, unless the next character stars its last letter. */
  lemma {:induction false} CompileLiteralPrefix(p: string, q: string)
    requires Literal(p)
    requires q == [] || q[0] != '*'
    ensures Compile(p + q) == (match Compile(q) case Some(rest) => Some(Lits(p) + rest) case None => None)
    decreases |p|
  {
    if p == [] {
      assert p + q == q;
      match Compile(q)
      case Some(rest) => assert Lits(p) + rest == rest;
      case None =>
    } else {
      var t := p[1..] + q;
      assert p + q == [p[0]] + t;
      assert !IsMeta(p[0]);
      if |p| >= 2 {
        assert t[0] == p[1];
        assert !IsMeta(p[1]);
      }
      CompileLiteralStep(p[0], t);
      CompileLiteralPrefix(p[1..], q);
      match Compile(q)
      case Some(rest) =>
        assert [Once(Lit(p[0]))] + (Lits(p[1..]) + rest) == Lits(p) + rest;
      case None =>
    }
  }

  /** Literal pieces consume exactly their own text. */
  lemma {:induction false} MatchesLits(p: string, rest: seq<Piece>, s: string)
    ensures Matches(Lits(p) + rest, s) <==> StartsWith(s, p) && Matches(rest, s[|p|..])
    decreases |p|
  {
    var ps := Lits(p) + rest;
    if p == [] {
      assert ps == rest;
      assert s[0..] == s;
    } else {
      assert ps[0] == Once(Lit(p[0]));
      assert ps[1..] == Lits(p[1..]) + rest;
      if |s| == 0 {
        assert !Matches(ps, s);
      } else {
        MatchesLits(p[1..], rest, s[1..]);
        if |s| >= |p| {
          assert s[..|p|] == [s[0]] + s[1..][..|p| - 1];
          assert s[|p|..] == s[1..][|p| - 1..];
        } else {
          assert !StartsWith(s[1..], p[1..]);
        }
      }
    }
  }

  /** `.*` followed by more pieces: some terminator-free stretch is skipped, then the rest matches. */
  lemma {:induction false} MatchesAnyStar(rest: seq<Piece>, s: string, k: nat)
    requires k <= |s|
    requires forall i :: 0 <= i < k ==> !IsLineTerminator(s[i])
    requires Matches(rest, s[k..])
    ensures Matches([Star(AnyChar)] + rest, s)
    decreases k
  {
    var ps := [Star(AnyChar)] + rest;
    assert ps[1..] == rest;
    if k > 0 {
      MatchesAnyStar(rest, s[1..], k - 1);
      assert s[1..][k - 1..] == s[k..];
    }
  }

  /** Conversely, whatever `.*` consumed is free of line terminators. */
  lemma {:induction false} AnyStarOnlyEnd(s: string)
    ensures Matches([Star(AnyChar)], s) <==> forall i :: 0 <= i < |s| ==> !IsLineTerminator(s[i])
    decreases |s|
  {
    var ps := [Star(AnyChar)];
    assert ps[1..] == [];
    if |s| > 0 {
      AnyStarOnlyEnd(s[1..]);
      assert forall i :: 1 <= i < |s| ==> s[i] == s[1..][i - 1];
    }
  }

  /** A plain pattern fully matches exactly its own text: "/done" rejects "/don" and "/done/". */
  lemma LiteralFullMatch(p: string, s: string)
    requires Literal(p)
    ensures FullMatch(p, s) == Some(s == p)
  {
    CompileLiteralPrefix(p, []);
    assert p + [] == p;
    assert Lits(p) + [] == Lits(p);
    MatchesLits(p, [], s);
  }

  /** `prefix.*` matches exactly the strings that start with the prefix and continue on one line. */
  lemma PrefixAnyFullMatch(prefix: string, s: string)
    requires Literal(prefix)
    ensures FullMatch(prefix + ".*", s)
        == Some(StartsWith(s, prefix) && forall i :: |prefix| <= i < |s| ==> !IsLineTerminator(s[i]))
  {
    CompileLiteralPrefix(prefix, ".*");
    assert Compile(".*") == Some([Star(AnyChar)]) by {
      var dotStar := ".*";
      assert dotStar[0] == '.' && dotStar[1] == '*';
      assert dotStar[2..] == [];
      assert [Star(AnyChar)] + [] == [Star(AnyChar)];
    }
    MatchesLits(prefix, [Star(AnyChar)], s);
    if |prefix| <= |s| {
      AnyStarOnlyEnd(s[|prefix|..]);
      assert forall i :: |prefix| <= i < |s| ==> s[i] == s[|prefix|..][i - |prefix|];
    }
  }

  /** `prefix.*` matches the prefix followed by any one line. */
  lemma PrefixAnyMatchesLine(prefix: string, line: string)
    requires Literal(prefix) && SingleLine(line)
    ensures FullMatch(prefix + ".*", prefix + line) == Some(true)
  {
    var s := prefix + line;
    PrefixAnyFullMatch(prefix, s);
    assert s[..|prefix|] == prefix;
    assert forall i :: |prefix| <= i < |s| ==> s[i] == line[i - |prefix|];
  }

  /** `a.*b` matches `a + middle + b` for any one-line middle. */
  lemma InfixAnyFullMatch(a: string, b: string, middle: string)
    requires Literal(a) && Literal(b)
    requires b == [] || b[0] != '*'
    requires SingleLine(middle)
    ensures FullMatch(a + ".*" + b, a + middle + b) == Some(true)
  {
    var s := a + middle + b;
    var rest := [Star(AnyChar)] + Lits(b);
    assert a + ".*" + b == a + (".*" + b);
    CompileLiteralPrefix(a, ".*" + b);
    CompileAnyThenLiteral(b);
    MatchesLits(a, rest, s);
    assert s[|a|..] == middle + b;
    MatchesAnyThenLiteral(middle, b);
  }

  /** `.*` followed by a literal compiles to a star piece followed by the literal's pieces. */
  lemma CompileAnyThenLiteral(b: string)
    requires Literal(b)
    requires b == [] || b[0] != '*'
    ensures Compile(".*" + b) == Some([Star(AnyChar)] + Lits(b))
  {
    CompileLiteralPrefix(b, []);
    assert b + [] == b;
    assert Lits(b) + [] == Lits(b);
    assert (".*" + b)[0] == '.' && (".*" + b)[1] == '*';
    assert (".*" + b)[2..] == b;
  }

  /** A star over a line without terminators, then the literal, matches that line followed by the literal. */
  lemma MatchesAnyThenLiteral(middle: string, b: string)
    requires SingleLine(middle)
    ensures Matches([Star(AnyChar)] + Lits(b), middle + b)
  {
    MatchesLits(b, [], b);
    assert b[|b|..] == [];
    assert Lits(b) + [] == Lits(b);
    assert (middle + b)[|middle|..] == b;
    MatchesAnyStar(Lits(b), middle + b, |middle|);
  }
}

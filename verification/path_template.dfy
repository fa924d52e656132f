/**
 * `convertPathToRegex` and `RegExp.test` for OpenAPI path templates.
 *
 * The source builds `^...$` from the template by escaping each "/" and
 * replacing every `{name}` with `([^/]+)`. The resulting regular expression
 * is a sequence of atoms, modelled as tokens: a literal character, the
 * unescaped `.` (any character but a line terminator) and a placeholder
 * (one or more characters other than "/"). `Matches` is the anchored test.
 */
module PathTemplate {

  datatype Token = Lit(c: char) | AnyChar | Param

  /** Position of the first "}" in `t` at or after `from`, or |t| when there is none. */
  function CloseIndex(t: string, from: nat): (j: nat)
    requires from <= |t|
    ensures from <= j <= |t|
    ensures j < |t| ==> t[j] == '}'
    ensures forall k :: from <= k < j ==> t[k] != '}'
    decreases |t| - from
  {
    if from == |t| || t[from] == '}' then from else CloseIndex(t, from + 1)
  }

  /**
   * Length of the `\{([^}]+)\}` match at the start of `t`, or 0 when the
   * regular expression does not match there.
   */
  function PlaceholderLength(t: string): (n: nat)
    ensures n == 0 || (3 <= n <= |t| && t[0] == '{' && t[n - 1] == '}')
    ensures n > 0 ==> forall k :: 1 <= k < n - 1 ==> t[k] != '}'
  {
    if |t| > 0 && t[0] == '{' then
      var j := CloseIndex(t, 1);
      if 2 <= j < |t| then j + 1 else 0
    else 0
  }

  /** How many characters of `t` the next token covers. */
  function StepLength(t: string): (n: nat)
    requires t != []
    ensures 1 <= n <= |t|
  {
    var p := PlaceholderLength(t);
    if p > 0 then p else 1
  }

  /** The next token of `t`; `dot` is the atom a literal "." turns into. */
  function HeadToken(t: string, dot: Token): Token
    requires t != []
  {
    if PlaceholderLength(t) > 0 then Param
    else if t[0] == '.' then dot
    else Lit(t[0])
  }

  /**
   * The regular expression of template `t` as a token list, scanned from
   * the left the way the global `replace` finds placeholders.
   */
  function Scan(t: string, dot: Token): seq<Token>
    decreases |t|
  {
    if t == [] then [] else [HeadToken(t, dot)] + Scan(t[StepLength(t)..], dot)
  }

  /**
   * The expression as the source builds it: "." is left unescaped and
   * matches any character. A template without "." gives the same
   * expression as the corrected one.
   */
  function TokensAsWritten(t: string): (ts: seq<Token>)
    ensures '.' !in t ==> ts == Tokens(t)
  {
    DotFreeScan(t, AnyChar, Lit('.'));
    Scan(t, AnyChar)
  }

  /** The corrected expression, with "." escaped as well. */
  function Tokens(t: string): seq<Token>
  {
    Scan(t, Lit('.'))
  }

  /** `\n`, `\r`, U+2028 and U+2029, which `.` does not match. */
  predicate IsLineTerminator(c: char)
  {
    c == '\n' || c == '\r' || c == '\U{2028}' || c == '\U{2029}'
  }

  /** `new RegExp("^" + tokens + "$").test(s)`: every atom takes at least one character. */
  predicate Matches(ts: seq<Token>, s: string)
    ensures Matches(ts, s) ==> |ts| <= |s|
    decreases |s|
  {
    if ts == [] then s == []
    else if s == [] then false
    else match ts[0]
      case Lit(c) => s[0] == c && Matches(ts[1..], s[1..])
      case AnyChar => !IsLineTerminator(s[0]) && Matches(ts[1..], s[1..])
      case Param => s[0] != '/' && (Matches(ts[1..], s[1..]) || Matches(ts, s[1..]))
  }

  /** Whether the request path `path` satisfies the template `template`. */
  predicate TemplateMatches(template: string, path: string)
  {
    Matches(Tokens(template), path)
  }

  /** The tokens of a text read literally. */
  function Lits(u: string): (ts: seq<Token>)
    ensures |ts| == |u|
    ensures forall k :: 0 <= k < |u| ==> ts[k] == Lit(u[k])
  {
    seq(|u|, k requires 0 <= k < |u| => Lit(u[k]))
  }

  function SlashCount(s: string): nat
  {
    if s == [] then 0 else (if s[0] == '/' then 1 else 0) + SlashCount(s[1..])
  }

  function SlashTokenCount(ts: seq<Token>): nat
  {
    if ts == [] then 0 else (if ts[0] == Lit('/') then 1 else 0) + SlashTokenCount(ts[1..])
  }

  // ---------------------------------------------------------------------
  // Tokenising

  /** Text without "{" holds no placeholder and reads literally. */
  lemma {:induction false} TokensOfPlainText(u: string)
    requires '{' !in u
    ensures Tokens(u) == Lits(u)
    decreases |u|
  {
    if u != [] {
      TokensOfPlainText(u[1..]);
      assert Lits(u) == [Lit(u[0])] + Lits(u[1..]);
    }
  }

  /** Where the template holds no ".", the atom chosen for "." makes no difference. */
  lemma {:induction false} DotFreeScan(t: string, d1: Token, d2: Token)
    ensures '.' !in t ==> Scan(t, d1) == Scan(t, d2)
    decreases |t|
  {
    if t != [] && '.' !in t {
      var rest := t[StepLength(t)..];
      assert forall k :: 0 <= k < |rest| ==> rest[k] == t[StepLength(t) + k];
      DotFreeScan(rest, d1, d2);
    }
  }

  /** The corrected expression never contains the wildcard. */
  lemma {:induction false} TokensHaveNoWildcard(t: string)
    ensures AnyChar !in Tokens(t)
    decreases |t|
  {
    if t != [] {
      TokensHaveNoWildcard(t[StepLength(t)..]);
    }
  }

  /** The placeholder `{name}` at the start of a text covers exactly "{", the name and "}". */
  lemma PlaceholderAtStart(name: string, w: string)
    requires name != [] && '}' !in name
    ensures PlaceholderLength("{" + name + "}" + w) == |name| + 2
  {
    var t := "{" + name + "}" + w;
    assert t[|name| + 1] == '}';
    assert forall k :: 1 <= k < |name| + 1 ==> t[k] == name[k - 1];
    var j := CloseIndex(t, 1);
    assert j == |name| + 1;
  }

  /**
   * A template with one placeholder between literal texts is the literal
   * tokens, one `Param`, and the literal tokens again.
   */
  lemma TokensOfOnePlaceholder(u: string, name: string, w: string)
    requires '{' !in u && '{' !in w
    requires name != [] && '}' !in name
    ensures Tokens(u + "{" + name + "}" + w) == Lits(u) + [Param] + Lits(w)
  {
    var x := "{" + name + "}" + w;
    Assoc4(u, "{", name, "}", w);
    TokensOfLiteralPrefix(u, x);
    TokensOfLeadingPlaceholder(name, w);
  }

  /** Text without "{" in front of `x` contributes its literal tokens. */
  lemma {:induction false} TokensOfLiteralPrefix(u: string, x: string)
    requires '{' !in u
    ensures Tokens(u + x) == Lits(u) + Tokens(x)
    decreases |u|
  {
    if u == [] {
      assert u + x == x;
    } else {
      ScanAtLiteral(u, x);
      TokensOfLiteralPrefix(u[1..], x);
      LitsCons(u);
    }
  }

  lemma TokensOfLeadingPlaceholder(name: string, w: string)
    requires '{' !in w
    requires name != [] && '}' !in name
    ensures Tokens("{" + name + "}" + w) == [Param] + Lits(w)
  {
    var x := "{" + name + "}" + w;
    PlaceholderAtStart(name, w);
    ScanAtPlaceholder(x, Lit('.'));
    DropPastPrefix("{" + name + "}", w, |name| + 2);
    TokensOfPlainText(w);
  }

  /** With "." read literally, a character other than "{" at the head of a text scans as itself. */
  lemma ScanAtLiteral(u: string, x: string)
    requires u != [] && u[0] != '{'
    ensures Scan(u + x, Lit('.')) == [Lit(u[0])] + Scan(u[1..] + x, Lit('.'))
  {
    var t := u + x;
    assert t[0] == u[0];
    assert PlaceholderLength(t) == 0;
    assert t[1..] == u[1..] + x;
  }

  lemma LitsCons(u: string)
    requires u != []
    ensures Lits(u) == [Lit(u[0])] + Lits(u[1..])
  {
  }

  /**
   * When the first step of scanning `u` is decided inside `u` (no "{" at its
   * head, or one closed inside `u`), text appended to `u` does not change it.
   */
  lemma StepOfPrefix(u: string, x: string, dot: Token)
    requires u != [] && (u[0] != '{' || CloseIndex(u, 1) < |u|)
    ensures StepLength(u + x) == StepLength(u)
    ensures HeadToken(u + x, dot) == HeadToken(u, dot)
  {
    if u[0] == '{' {
      var j := CloseIndex(u, 1);
      assert (u + x)[j] == u[j];
      assert forall k :: 1 <= k < j ==> (u + x)[k] == u[k];
      assert CloseIndex(u + x, 1) == j;
    }
  }

  lemma DropFromConcat(u: string, x: string, m: nat)
    requires m <= |u|
    ensures (u + x)[m..] == u[m..] + x
  {
  }

  /** `x` starts with a placeholder "{name}" with a non-empty name. */
  predicate PlaceholderAhead(x: string)
  {
    |x| >= 1 && x[0] == '{' && 2 <= CloseIndex(x, 1) < |x|
  }

  /** The text after the placeholder `x` starts with. */
  function AfterPlaceholder(x: string): string
    requires PlaceholderAhead(x)
  {
    x[CloseIndex(x, 1) + 1..]
  }

  /** Searching for "}" inside an appended text is searching that text. */
  lemma {:induction false} CloseIndexShift(u: string, x: string, k: nat)
    requires k <= |x|
    ensures CloseIndex(u + x, |u| + k) == |u| + CloseIndex(x, k)
    decreases |x| - k
  {
    if k < |x| {
      assert (u + x)[|u| + k] == x[k];
      if x[k] != '}' {
        CloseIndexShift(u, x, k + 1);
      }
    }
  }

  /** With no "}" left in `u` from `from` on, the search continues into `x`. */
  lemma {:induction false} CloseIndexPastPrefix(u: string, x: string, from: nat)
    requires from <= |u| && CloseIndex(u, from) == |u|
    ensures CloseIndex(u + x, from) == |u| + CloseIndex(x, 0)
    decreases |u| - from
  {
    if from == |u| {
      CloseIndexShift(u, x, 0);
    } else {
      assert (u + x)[from] == u[from] && u[from] != '}';
      CloseIndexPastPrefix(u, x, from + 1);
    }
  }

  /** A "{" left open in `u` reaches up to the "}" closing the placeholder `x` starts with. */
  lemma OpenBraceLength(u: string, x: string)
    requires |u| >= 1 && u[0] == '{' && CloseIndex(u, 1) == |u|
    requires PlaceholderAhead(x)
    ensures PlaceholderLength(u + x) == |u| + CloseIndex(x, 1) + 1
  {
    CloseIndexPastPrefix(u, x, 1);
    assert CloseIndex(x, 0) == CloseIndex(x, 1);
    assert (u + x)[0] == '{';
  }

  /**
   * A "{" left open in `u` is closed by the "}" of the placeholder that
   * follows: both become one placeholder, and scanning resumes after it.
   */
  lemma OpenBraceJoinsPlaceholder(u: string, x: string, dot: Token)
    requires |u| >= 1 && u[0] == '{' && CloseIndex(u, 1) == |u|
    requires PlaceholderAhead(x)
    ensures Scan(u + x, dot) == [Param] + Scan(AfterPlaceholder(x), dot)
  {
    var t := u + x;
    OpenBraceLength(u, x);
    var n := PlaceholderLength(t);
    assert n - |u| == CloseIndex(x, 1) + 1;
    DropPastPrefix(u, x, n);
    assert t[n..] == AfterPlaceholder(x);
    ScanAtPlaceholder(t, dot);
  }

  /** A placeholder at the head of a text scans as one `Param`. */
  lemma ScanAtPlaceholder(t: string, dot: Token)
    requires PlaceholderLength(t) > 0
    ensures Scan(t, dot) == [Param] + Scan(t[PlaceholderLength(t)..], dot)
  {
  }

  /** Dropping past the end of `u` drops into `x`. */
  lemma DropPastPrefix<T>(u: seq<T>, x: seq<T>, m: nat)
    requires |u| <= m <= |u| + |x|
    ensures (u + x)[m..] == x[m - |u|..]
  {
  }

  /**
   * Scanning does not depend on which placeholder follows `u`, only on the
   * text after it.
   */
  lemma {:induction false} ScanIgnoresPlaceholder(u: string, x: string, y: string, dot: Token)
    requires PlaceholderAhead(x) && PlaceholderAhead(y)
    requires AfterPlaceholder(x) == AfterPlaceholder(y)
    ensures Scan(u + x, dot) == Scan(u + y, dot)
    decreases |u|
  {
    if u == [] {
      assert u + x == x && u + y == y;
    } else if u[0] != '{' || CloseIndex(u, 1) < |u| {
      StepOfPrefix(u, x, dot);
      StepOfPrefix(u, y, dot);
      var m := StepLength(u);
      DropFromConcat(u, x, m);
      DropFromConcat(u, y, m);
      ScanIgnoresPlaceholder(u[m..], x, y, dot);
    } else {
      OpenBraceJoinsPlaceholder(u, x, dot);
      OpenBraceJoinsPlaceholder(u, y, dot);
    }
  }

  /**
   * The name written inside a placeholder never matters: two templates that
   * differ only in one placeholder's name give the same expression, whatever
   * surrounds it.
   */
  lemma PlaceholderNameIrrelevant(u: string, a: string, b: string, w: string, dot: Token)
    requires a != [] && '}' !in a
    requires b != [] && '}' !in b
    ensures Scan(u + "{" + a + "}" + w, dot) == Scan(u + "{" + b + "}" + w, dot)
  {
    var x, y := "{" + a + "}" + w, "{" + b + "}" + w;
    PlaceholderAtStart(a, w);
    PlaceholderAtStart(b, w);
    DropPastPrefix("{" + a + "}", w, |a| + 2);
    DropPastPrefix("{" + b + "}", w, |b| + 2);
    ScanIgnoresPlaceholder(u, x, y, dot);
    Assoc4(u, "{", a, "}", w);
    Assoc4(u, "{", b, "}", w);
  }

  lemma Assoc4<T>(u: seq<T>, o: seq<T>, a: seq<T>, c: seq<T>, w: seq<T>)
    ensures u + (o + a + c + w) == u + o + a + c + w
  {
  }

  // ---------------------------------------------------------------------
  // Matching

  /** Literal tokens match their own text and nothing else. */
  lemma {:induction false} LitsMatchExactly(u: string, s: string)
    ensures Matches(Lits(u), s) <==> s == u
    decreases |u|
  {
    if u != [] && s != [] {
      assert Lits(u)[1..] == Lits(u[1..]);
      LitsMatchExactly(u[1..], s[1..]);
      if s[0] == u[0] && s[1..] == u[1..] {
        assert s == [s[0]] + s[1..] && u == [u[0]] + u[1..];
      }
    }
  }

  /**
   * A placeholder followed by literal text `w` matches exactly the paths
   * that end in `w` after a non-empty run free of "/".
   */
  lemma {:induction false} ParamThenLits(w: string, x: string)
    ensures Matches([Param] + Lits(w), x) <==>
      (|x| > |w| && x[|x| - |w|..] == w && '/' !in x[..|x| - |w|])
    decreases |x|
  {
    var ts := [Param] + Lits(w);
    if x != [] {
      assert ts[1..] == Lits(w);
      LitsMatchExactly(w, x[1..]);
      ParamThenLits(w, x[1..]);
      if |x| - 1 == |w| {
        assert x[1..] == x[|x| - |w|..];
        assert x[..|x| - |w|] == [x[0]];
      } else if |x| - 1 > |w| {
        assert x[1..][|x| - 1 - |w|..] == x[|x| - |w|..];
        assert x[..|x| - |w|] == [x[0]] + x[1..][..|x| - 1 - |w|];
      }
    }
  }

  /** Literal tokens in front of `rest` match the text they spell, then `rest` matches what follows. */
  lemma {:induction false} LitsThen(u: string, rest: seq<Token>, s: string)
    ensures Matches(Lits(u) + rest, s) <==> |s| >= |u| && s[..|u|] == u && Matches(rest, s[|u|..])
    decreases |u|
  {
    if u == [] {
      assert Lits(u) + rest == rest;
      assert s[..0] == u && s[0..] == s;
    } else {
      assert (Lits(u) + rest)[1..] == Lits(u[1..]) + rest;
      if s != [] {
        LitsThen(u[1..], rest, s[1..]);
        if |s| >= |u| {
          assert s[1..][|u| - 1..] == s[|u|..];
          assert s[..|u|] == [s[0]] + s[1..][..|u| - 1];
          assert u == [u[0]] + u[1..];
        }
      }
    }
  }

  /**
   * Literal text `u`, a placeholder and literal text `w` match exactly the
   * paths that start with `u`, end with `w`, and hold between them one
   * non-empty run of characters without "/".
   */
  lemma PlaceholderMatchesOneSegment(u: string, w: string, s: string)
    ensures Matches(Lits(u) + [Param] + Lits(w), s) <==>
      |s| > |u| + |w| && s[..|u|] == u && s[|s| - |w|..] == w && '/' !in s[|u|..|s| - |w|]
  {
    Assoc3(Lits(u), [Param], Lits(w));
    LitsThen(u, [Param] + Lits(w), s);
    if |s| >= |u| {
      var x := s[|u|..];
      ParamThenLits(w, x);
      if |x| > |w| {
        assert x[|x| - |w|..] == s[|s| - |w|..];
        assert x[..|x| - |w|] == s[|u|..|s| - |w|];
      }
    }
  }

  lemma Assoc3<T>(a: seq<T>, b: seq<T>, c: seq<T>)
    ensures a + b + c == a + (b + c)
  {
  }

  /**
   * A template "u{name}w", whatever the name, accepts exactly the paths
   * that start with u, end with w, and hold one non-empty, "/"-free
   * segment between them: the test is anchored at both ends.
   */
  lemma OnePlaceholderTemplate(u: string, name: string, w: string, s: string)
    requires '{' !in u && '{' !in w
    requires name != [] && '}' !in name
    ensures TemplateMatches(u + "{" + name + "}" + w, s) <==>
      |s| > |u| + |w| && s[..|u|] == u && s[|s| - |w|..] == w && '/' !in s[|u|..|s| - |w|]
  {
    TokensOfOnePlaceholder(u, name, w);
    PlaceholderMatchesOneSegment(u, w, s);
  }

  /**
   * The same holds of the expression the source builds, as long as the
   * texts around the placeholder hold no "." (the name may hold one).
   */
  lemma OnePlaceholderTemplateAsWritten(u: string, name: string, w: string, s: string)
    requires '{' !in u && '{' !in w
    requires name != [] && '}' !in name
    requires '.' !in u && '.' !in w
    ensures Matches(TokensAsWritten(u + "{" + name + "}" + w), s) <==>
      |s| > |u| + |w| && s[..|u|] == u && s[|s| - |w|..] == w && '/' !in s[|u|..|s| - |w|]
  {
    PlaceholderNameIrrelevant(u, name, "x", w, AnyChar);
    assert '.' !in u + "{" + "x" + "}" + w;
    DotFreeScan(u + "{" + "x" + "}" + w, AnyChar, Lit('.'));
    OnePlaceholderTemplate(u, "x", w, s);
  }

  /** The character `c` of a path satisfies the atom the source makes of the template character `p`. */
  predicate AcceptsAsWritten(p: char, c: char)
  {
    if p == '.' then !IsLineTerminator(c) else c == p
  }

  /**
   * The expression the source builds for a template without placeholders
   * accepts exactly the paths of the same length that agree with the
   * template at every character other than ".", and hold no line
   * terminator where the template has ".".
   */
  lemma {:induction false} PlainTemplateAsWritten(t: string, s: string)
    requires '{' !in t
    ensures Matches(TokensAsWritten(t), s) <==>
      |s| == |t| && forall k :: 0 <= k < |t| ==> AcceptsAsWritten(t[k], s[k])
    decreases |t|
  {
    if t != [] {
      assert PlaceholderLength(t) == 0;
      assert TokensAsWritten(t) == [HeadToken(t, AnyChar)] + TokensAsWritten(t[1..]);
      assert '{' !in t[1..] by {
        assert forall k :: 0 <= k < |t[1..]| ==> t[1..][k] == t[k + 1];
      }
      if s != [] {
        PlainTemplateAsWritten(t[1..], s[1..]);
        if |s| == |t| {
          assert (forall k :: 0 <= k < |t| ==> AcceptsAsWritten(t[k], s[k])) <==>
            AcceptsAsWritten(t[0], s[0]) &&
            forall k :: 0 <= k < |t[1..]| ==> AcceptsAsWritten(t[1..][k], s[1..][k]) by {
            if forall k :: 0 <= k < |t[1..]| ==> AcceptsAsWritten(t[1..][k], s[1..][k]) {
              forall k | 1 <= k < |t| ensures AcceptsAsWritten(t[k], s[k]) {
                assert t[k] == t[1..][k - 1] && s[k] == s[1..][k - 1];
              }
            }
          }
        }
      }
    }
  }

  /** A template without placeholders matches its own text and nothing else. */
  lemma PlainTemplateMatchesOnlyItself(t: string, s: string)
    requires '{' !in t
    ensures TemplateMatches(t, s) <==> s == t
  {
    TokensOfPlainText(t);
    LitsMatchExactly(t, s);
  }

  /** Without the wildcard, every match has exactly the expression's literal "/" count. */
  lemma {:induction false} MatchPreservesSlashes(ts: seq<Token>, s: string)
    requires AnyChar !in ts
    requires Matches(ts, s)
    ensures SlashCount(s) == SlashTokenCount(ts)
    decreases |s|
  {
    if ts != [] {
      assert AnyChar !in ts[1..] by {
        assert forall k :: 0 <= k < |ts[1..]| ==> ts[1..][k] == ts[k + 1];
      }
      match ts[0]
      case Lit(c) =>
        MatchPreservesSlashes(ts[1..], s[1..]);
      case Param =>
        if Matches(ts[1..], s[1..]) {
          MatchPreservesSlashes(ts[1..], s[1..]);
        } else {
          MatchPreservesSlashes(ts, s[1..]);
        }
    }
  }

  /** All paths matching one template have the same number of segments. */
  lemma SameTemplateSameSegments(t: string, s1: string, s2: string)
    requires TemplateMatches(t, s1) && TemplateMatches(t, s2)
    ensures SlashCount(s1) == SlashCount(s2)
  {
    TokensHaveNoWildcard(t);
    MatchPreservesSlashes(Tokens(t), s1);
    MatchPreservesSlashes(Tokens(t), s2);
  }

  /**
   * The expression as written lets the template "/a.b" match "/axb" and
   * "/a/b": a path with a different text and one with an extra segment,
   * which the corrected expression rejects.
   */
  lemma UnescapedDotMatchesAnyCharacter()
    ensures Matches(TokensAsWritten("/a.b"), "/axb")
    ensures Matches(TokensAsWritten("/a.b"), "/a/b")
    ensures !TemplateMatches("/a.b", "/axb")
    ensures !TemplateMatches("/a.b", "/a/b")
  {
    DotTemplateAsWritten();
    DotTemplateMatches('x');
    DotTemplateMatches('/');
    PlainTemplateMatchesOnlyItself("/a.b", "/axb");
    PlainTemplateMatchesOnlyItself("/a.b", "/a/b");
  }

  /** The source's expression for "/a.b" matches "/a", any one character but a line terminator, and "b". */
  lemma DotTemplateMatches(c: char)
    requires !IsLineTerminator(c)
    ensures Matches([Lit('/'), Lit('a'), AnyChar, Lit('b')], ['/', 'a', c, 'b'])
  {
    var ts, s := [Lit('/'), Lit('a'), AnyChar, Lit('b')], ['/', 'a', c, 'b'];
    assert Matches(ts[3..], s[3..]);
    assert Matches(ts[2..], s[2..]) by { assert ts[2..][1..] == ts[3..] && s[2..][1..] == s[3..]; }
    assert Matches(ts[1..], s[1..]) by { assert ts[1..][1..] == ts[2..] && s[1..][1..] == s[2..]; }
  }

  /** The source's expression for "/a.b": three literals and the wildcard in place of ".". */
  lemma DotTemplateAsWritten()
    ensures TokensAsWritten("/a.b") == [Lit('/'), Lit('a'), AnyChar, Lit('b')]
  {
    var t := "/a.b";
    assert PlaceholderLength(t) == 0;
    assert PlaceholderLength(t[1..]) == 0;
    assert PlaceholderLength(t[2..]) == 0;
    assert PlaceholderLength(t[3..]) == 0;
  }

  // ---------------------------------------------------------------------
  // Templates with any number of placeholders

  /** The template made of literal texts with a placeholder between each two. */
  function TemplateOf(lits: seq<string>, names: seq<string>): string
    requires |lits| == |names| + 1
    decreases |names|
  {
    if names == [] then lits[0]
    else lits[0] + "{" + names[0] + "}" + TemplateOf(lits[1..], names[1..])
  }

  /** The path made of the same literal texts with a value between each two. */
  function PathOf(lits: seq<string>, values: seq<string>): string
    requires |lits| == |values| + 1
    decreases |values|
  {
    if values == [] then lits[0]
    else lits[0] + (values[0] + PathOf(lits[1..], values[1..]))
  }

  /** Every value is one non-empty path segment. */
  predicate AreSegments(values: seq<string>)
  {
    forall i :: 0 <= i < |values| ==> values[i] != [] && '/' !in values[i]
  }

  /** A placeholder at the head of a template scans as one `Param`, whatever follows it. */
  lemma LeadingPlaceholder(name: string, w: string, dot: Token)
    requires name != [] && '}' !in name
    ensures Scan("{" + name + "}" + w, dot) == [Param] + Scan(w, dot)
  {
    PlaceholderAtStart(name, w);
    ScanAtPlaceholder("{" + name + "}" + w, dot);
    DropPastPrefix("{" + name + "}", w, |name| + 2);
  }

  /** Text without "{" in front of `x` scans on its own, and then `x` does. */
  lemma {:induction false} ScanOfPlainPrefix(u: string, x: string, dot: Token)
    requires '{' !in u
    ensures Scan(u + x, dot) == Scan(u, dot) + Scan(x, dot)
    decreases |u|
  {
    if u == [] {
      assert u + x == x;
    } else {
      var t := u + x;
      assert t[0] == u[0];
      assert PlaceholderLength(t) == 0 && PlaceholderLength(u) == 0;
      assert HeadToken(t, dot) == HeadToken(u, dot);
      assert t[1..] == u[1..] + x;
      assert '{' !in u[1..] by {
        assert forall k :: 0 <= k < |u[1..]| ==> u[1..][k] == u[k + 1];
      }
      ScanOfPlainPrefix(u[1..], x, dot);
      assert Scan(t, dot) == [HeadToken(u, dot)] + (Scan(u[1..], dot) + Scan(x, dot));
      assert Scan(u, dot) == [HeadToken(u, dot)] + Scan(u[1..], dot);
      Assoc3([HeadToken(u, dot)], Scan(u[1..], dot), Scan(x, dot));
    }
  }

  /** Text without "{" reads literally, with either atom for "." when it holds none. */
  lemma PlainScan(u: string, dot: Token)
    requires '{' !in u
    requires dot == Lit('.') || '.' !in u
    ensures Scan(u, dot) == Lits(u)
  {
    DotFreeScan(u, dot, Lit('.'));
    TokensOfPlainText(u);
  }

  /** A match of a placeholder and `rest` gives the placeholder a non-empty run free of "/". */
  lemma {:induction false} ParamSplit(rest: seq<Token>, s: string) returns (k: nat)
    requires Matches([Param] + rest, s)
    ensures 1 <= k <= |s| && '/' !in s[..k] && Matches(rest, s[k..])
    decreases |s|
  {
    assert ([Param] + rest)[1..] == rest;
    if Matches(rest, s[1..]) {
      k := 1;
    } else {
      var k' := ParamSplit(rest, s[1..]);
      k := k' + 1;
      assert s[..k] == [s[0]] + s[1..][..k'];
      assert s[k..] == s[1..][k'..];
    }
  }

  /** A non-empty run free of "/" followed by a match of `rest` matches a placeholder and `rest`. */
  lemma {:induction false} ParamJoin(rest: seq<Token>, s: string, k: nat)
    requires 1 <= k <= |s| && '/' !in s[..k] && Matches(rest, s[k..])
    ensures Matches([Param] + rest, s)
    decreases k
  {
    assert ([Param] + rest)[1..] == rest;
    assert s[0] == s[..k][0];
    if k == 1 {
      assert s[1..] == s[k..];
    } else {
      assert s[1..][..k - 1] == s[1..k];
      assert '/' !in s[1..k] by {
        assert forall j :: 0 <= j < |s[1..k]| ==> s[1..k][j] == s[..k][j + 1];
      }
      assert s[1..][k - 1..] == s[k..];
      ParamJoin(rest, s[1..], k - 1);
    }
  }

  /**
   * A placeholder followed by any expression matches exactly the paths that
   * open with a non-empty run free of "/" after which the expression matches.
   */
  lemma ParamThen(rest: seq<Token>, s: string)
    ensures Matches([Param] + rest, s) <==>
      exists k :: 1 <= k <= |s| && '/' !in s[..k] && Matches(rest, s[k..])
  {
    if Matches([Param] + rest, s) {
      var k := ParamSplit(rest, s);
    }
    if exists k :: 1 <= k <= |s| && '/' !in s[..k] && Matches(rest, s[k..]) {
      var k :| 1 <= k <= |s| && '/' !in s[..k] && Matches(rest, s[k..]);
      ParamJoin(rest, s, k);
    }
  }

  /** The expression of a template with a placeholder after literal text `u`. */
  lemma ScanOfTemplate(lits: seq<string>, names: seq<string>, dot: Token)
    requires |lits| == |names| + 1 && names != []
    requires '{' !in lits[0] && (dot == Lit('.') || '.' !in lits[0])
    requires names[0] != [] && '}' !in names[0]
    ensures Scan(TemplateOf(lits, names), dot) ==
      Lits(lits[0]) + ([Param] + Scan(TemplateOf(lits[1..], names[1..]), dot))
  {
    var u, w := lits[0], TemplateOf(lits[1..], names[1..]);
    Assoc4(u, "{", names[0], "}", w);
    ScanOfPlainPrefix(u, "{" + names[0] + "}" + w, dot);
    PlainScan(u, dot);
    LeadingPlaceholder(names[0], w, dot);
  }

  /**
   * Literal texts without "{" (and, unless "." is read literally, without
   * "."), separated by placeholders with non-empty names free of "}".
   */
  predicate WellFormedParts(lits: seq<string>, names: seq<string>, dot: Token)
  {
    && |lits| == |names| + 1
    && (forall i :: 0 <= i < |lits| ==> '{' !in lits[i] && (dot == Lit('.') || '.' !in lits[i]))
    && (forall i :: 0 <= i < |names| ==> names[i] != [] && '}' !in names[i])
  }

  lemma PathOfCons(lits: seq<string>, v: string, values: seq<string>)
    requires |lits| == |values| + 2
    ensures PathOf(lits, [v] + values) == lits[0] + (v + PathOf(lits[1..], values))
  {
    assert ([v] + values)[1..] == values;
  }

  lemma WellFormedTail(lits: seq<string>, names: seq<string>, dot: Token)
    requires WellFormedParts(lits, names, dot) && names != []
    ensures WellFormedParts(lits[1..], names[1..], dot)
  {
    assert forall i :: 0 <= i < |lits| - 1 ==> lits[1..][i] == lits[i + 1];
    assert forall i :: 0 <= i < |names| - 1 ==> names[1..][i] == names[i + 1];
  }

  lemma SplitConcat<T>(a: seq<T>, b: seq<T>)
    ensures (a + b)[..|a|] == a && (a + b)[|a|..] == b
  {
  }

  lemma SplitTwice<T>(s: seq<T>, i: nat, k: nat)
    requires i + k <= |s|
    ensures s == s[..i] + (s[i..][..k] + s[i..][k..])
  {
    assert s[i..][..k] + s[i..][k..] == s[i..];
  }

  /** One more segment in front of a segment list. */
  lemma SegmentsCons(v: string, values: seq<string>)
    requires v != [] && '/' !in v && AreSegments(values)
    ensures AreSegments([v] + values)
  {
    forall i | 0 <= i < |[v] + values|
      ensures ([v] + values)[i] != [] && '/' !in ([v] + values)[i]
    {
      if i > 0 {
        assert ([v] + values)[i] == values[i - 1];
      }
    }
  }

  /** A path the template accepts is its literal texts with a segment in place of each placeholder. */
  lemma {:induction false} SegmentsOfMatch(lits: seq<string>, names: seq<string>, dot: Token, s: string)
      returns (values: seq<string>)
    requires WellFormedParts(lits, names, dot)
    requires Matches(Scan(TemplateOf(lits, names), dot), s)
    ensures |values| == |names| && AreSegments(values) && s == PathOf(lits, values)
    decreases |names|
  {
    if names == [] {
      PlainScan(lits[0], dot);
      LitsMatchExactly(lits[0], s);
      values := [];
    } else {
      var u := lits[0];
      var rest := Scan(TemplateOf(lits[1..], names[1..]), dot);
      ScanOfTemplate(lits, names, dot);
      LitsThen(u, [Param] + rest, s);
      var x := s[|u|..];
      var k := ParamSplit(rest, x);
      WellFormedTail(lits, names, dot);
      var values' := SegmentsOfMatch(lits[1..], names[1..], dot, x[k..]);
      values := [x[..k]] + values';
      SegmentsCons(x[..k], values');
      PathOfCons(lits, x[..k], values');
      SplitTwice(s, |u|, k);
    }
  }

  /** The literal texts with a segment in place of each placeholder make a path the template accepts. */
  lemma {:induction false} MatchOfSegments(lits: seq<string>, names: seq<string>, dot: Token, values: seq<string>)
    requires WellFormedParts(lits, names, dot)
    requires |values| == |names| && AreSegments(values)
    ensures Matches(Scan(TemplateOf(lits, names), dot), PathOf(lits, values))
    decreases |names|
  {
    var s := PathOf(lits, values);
    if names == [] {
      PlainScan(lits[0], dot);
      LitsMatchExactly(lits[0], s);
    } else {
      var u := lits[0];
      var rest := Scan(TemplateOf(lits[1..], names[1..]), dot);
      ScanOfTemplate(lits, names, dot);
      var v, tail := values[0], PathOf(lits[1..], values[1..]);
      var x := v + tail;
      assert s == u + x;
      SplitConcat(u, x);
      SplitConcat(v, tail);
      assert AreSegments(values[1..]) by {
        assert forall i :: 0 <= i < |values[1..]| ==> values[1..][i] == values[i + 1];
      }
      WellFormedTail(lits, names, dot);
      MatchOfSegments(lits[1..], names[1..], dot, values[1..]);
      ParamJoin(rest, x, |v|);
      LitsThen(u, [Param] + rest, s);
    }
  }

  /**
   * Each placeholder of a template matches exactly one non-empty path
   * segment, and the literal texts between them match themselves: a path
   * satisfies the template exactly when it is those texts with a segment in
   * place of each placeholder. This holds of the corrected expression for
   * every template, and of the source's expression when the literal texts
   * hold no "." (the placeholder names may).
   */
  lemma EachPlaceholderOneSegment(lits: seq<string>, names: seq<string>, dot: Token, s: string)
    requires WellFormedParts(lits, names, dot)
    ensures Matches(Scan(TemplateOf(lits, names), dot), s) <==>
      exists values :: |values| == |names| && AreSegments(values) && s == PathOf(lits, values)
  {
    if Matches(Scan(TemplateOf(lits, names), dot), s) {
      var values := SegmentsOfMatch(lits, names, dot, s);
    }
    if exists values :: |values| == |names| && AreSegments(values) && s == PathOf(lits, values) {
      var values :| |values| == |names| && AreSegments(values) && s == PathOf(lits, values);
      MatchOfSegments(lits, names, dot, values);
    }
  }

  lemma TwoPlaceholderParts()
    ensures TemplateOf(["/users/", "/posts/", ""], ["id", "postId"]) == "/users/{id}/posts/{postId}"
    ensures WellFormedParts(["/users/", "/posts/", ""], ["id", "postId"], Lit('.'))
  {
    var lits, names := ["/users/", "/posts/", ""], ["id", "postId"];
    assert TemplateOf(lits[2..], names[2..]) == "";
    assert TemplateOf(lits[1..], names[1..]) == "/posts/{postId}";
  }

  lemma TwoPlaceholderPath(values: seq<string>)
    requires |values| == 2
    ensures PathOf(["/users/", "/posts/", ""], values) == "/users/" + values[0] + "/posts/" + values[1]
  {
    var lits := ["/users/", "/posts/", ""];
    assert PathOf(lits[2..], values[2..]) == "";
    assert PathOf(lits[1..], values[1..]) == "/posts/" + values[1];
  }

  /** "/users/{id}/posts/{postId}" accepts exactly the paths "/users/a/posts/b" with segments a and b. */
  lemma TwoPlaceholderRoute(s: string)
    ensures TemplateMatches("/users/{id}/posts/{postId}", s) <==>
      exists values :: |values| == 2 && AreSegments(values) && s == "/users/" + values[0] + "/posts/" + values[1]
  {
    var lits, names := ["/users/", "/posts/", ""], ["id", "postId"];
    TwoPlaceholderParts();
    EachPlaceholderOneSegment(lits, names, Lit('.'), s);
    forall values: seq<string> | |values| == 2
      ensures PathOf(lits, values) == "/users/" + values[0] + "/posts/" + values[1]
    {
      TwoPlaceholderPath(values);
    }
  }
}

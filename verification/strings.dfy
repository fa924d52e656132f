/**
 * The JavaScript string operations the source relies on: `Array.join`,
 * `String.split` on one character, `"  ".repeat(n)`, `toUpperCase` on
 * ASCII letters and the global replacement of "\n" by "\n  ".
 */
module Strings {

  /** `xs.join(sep)`. */
  function Join(xs: seq<string>, sep: string): string
    decreases |xs|
  {
    if |xs| == 0 then ""
    else if |xs| == 1 then xs[0]
    else xs[0] + sep + Join(xs[1..], sep)
  }

  /** `s.split(c)`: the maximal runs between occurrences of `c`. */
  function Split(s: string, c: char): (r: seq<string>)
    ensures |r| >= 1
    ensures forall k :: 0 <= k < |r| ==> c !in r[k]
    decreases |s|
  {
    if s == [] then [""]
    else
      var rest := Split(s[1..], c);
      if s[0] == c then [""] + rest
      else
        var first := [s[0]] + rest[0];
        assert c !in first;
        [first] + rest[1..]
  }

  /** Two or more pieces join as the first, the separator and the join of the rest. */
  lemma JoinCons(xs: seq<string>, sep: string)
    requires |xs| >= 2
    ensures Join(xs, sep) == xs[0] + sep + Join(xs[1..], sep)
  {
  }

  /** Splitting on `c` and joining with `c` gives back the original text. */
  lemma {:induction false} JoinSplit(s: string, c: char)
    ensures Join(Split(s, c), [c]) == s
    decreases |s|
  {
    if s != [] {
      var rest := Split(s[1..], c);
      JoinSplit(s[1..], c);
      if s[0] == c {
        assert Split(s, c) == [""] + rest;
      } else {
        var r := Split(s, c);
        assert r == [[s[0]] + rest[0]] + rest[1..];
        if |rest| == 1 {
          assert Join(r, [c]) == [s[0]] + rest[0];
        } else {
          assert Join(rest, [c]) == rest[0] + [c] + Join(rest[1..], [c]);
          assert r[1..] == rest[1..];
        }
      }
    }
  }

  /** Text without the separator splits into itself alone. */
  lemma {:induction false} SplitWithoutSeparator(s: string, c: char)
    requires c !in s
    ensures Split(s, c) == [s]
    decreases |s|
  {
    if s != [] {
      SplitWithoutSeparator(s[1..], c);
      assert [s[0]] + s[1..] == s;
    }
  }

  /** Splitting distributes over a separator placed between two texts. */
  lemma {:induction false} SplitAtSeparator(a: string, b: string, c: char)
    ensures Split(a + [c] + b, c) == Split(a, c) + Split(b, c)
    decreases |a|
  {
    var t := a + [c] + b;
    if a == [] {
      assert t[1..] == b;
    } else {
      assert t[1..] == a[1..] + [c] + b;
      SplitAtSeparator(a[1..], b, c);
    }
  }

  /** Pieces that are all non-empty join to the empty text only when there are none. */
  lemma {:induction false} JoinNonEmpty(xs: seq<string>, sep: string)
    requires forall k :: 0 <= k < |xs| ==> xs[k] != ""
    ensures Join(xs, sep) == "" <==> xs == []
    decreases |xs|
  {
    if |xs| > 1 {
      assert |Join(xs, sep)| >= |xs[0]|;
    }
  }

  /** `s.split(c)[0]` is the text before the first `c` (all of `s` when there is none). */
  lemma {:induction false} SplitFirstPiece(s: string, c: char)
    ensures Split(s, c)[0] <= s
    ensures c !in Split(s, c)[0]
    ensures |Split(s, c)[0]| < |s| ==> s[|Split(s, c)[0]|] == c
    decreases |s|
  {
    if s != [] && s[0] != c {
      SplitFirstPiece(s[1..], c);
      var rest := Split(s[1..], c);
      assert Split(s, c)[0] == [s[0]] + rest[0];
    }
  }

  /** Joining pieces free of the separator and splitting again gives the pieces back. */
  lemma {:induction false} SplitJoin(xs: seq<string>, c: char)
    requires |xs| >= 1
    requires forall k :: 0 <= k < |xs| ==> c !in xs[k]
    ensures Split(Join(xs, [c]), c) == xs
    decreases |xs|
  {
    if |xs| == 1 {
      SplitWithoutSeparator(xs[0], c);
    } else {
      SplitJoin(xs[1..], c);
      SplitWithoutSeparator(xs[0], c);
      SplitAtSeparator(xs[0], Join(xs[1..], [c]), c);
    }
  }

  /** The pieces written one after the other (`xs.join("")`). */
  function Concat(xs: seq<string>): string
    decreases |xs|
  {
    if xs == [] then "" else xs[0] + Concat(xs[1..])
  }

  /** Appending one more piece extends the text by that piece. */
  lemma {:induction false} ConcatSnoc(xs: seq<string>, x: string)
    ensures Concat(xs + [x]) == Concat(xs) + x
    decreases |xs|
  {
    if xs == [] {
      assert [x][1..] == [];
    } else {
      assert (xs + [x])[1..] == xs[1..] + [x];
      ConcatSnoc(xs[1..], x);
    }
  }

  /** `"  ".repeat(n)`. */
  function Indent(n: nat): (r: string)
    ensures |r| == 2 * n
    ensures forall k :: 0 <= k < |r| ==> r[k] == ' '
  {
    if n == 0 then "" else Indent(n - 1) + "  "
  }

  /** `t.replace(/\n/g, "\n  ")`: every line after the first is indented by two more spaces. */
  function AddIndent(t: string): string
    decreases |t|
  {
    if t == [] then ""
    else (if t[0] == '\n' then "\n  " else [t[0]]) + AddIndent(t[1..])
  }

  lemma {:induction false} AddIndentConcat(a: string, b: string)
    ensures AddIndent(a + b) == AddIndent(a) + AddIndent(b)
    decreases |a|
  {
    if a == [] {
      assert a + b == b;
    } else {
      assert (a + b)[1..] == a[1..] + b;
      AddIndentConcat(a[1..], b);
    }
  }

  /** Text without line breaks is left as it is. */
  lemma {:induction false} AddIndentSingleLine(t: string)
    requires '\n' !in t
    ensures AddIndent(t) == t
    decreases |t|
  {
    if t != [] {
      AddIndentSingleLine(t[1..]);
    }
  }

  /** `c.toUpperCase()` on ASCII letters. */
  function UpperChar(c: char): char
  {
    if 'a' <= c <= 'z' then (c as int - 'a' as int + 'A' as int) as char else c
  }

  /** `s.toUpperCase()` restricted to ASCII letters (the source applies it to HTTP method names only). */
  function ToUpper(s: string): (r: string)
    ensures |r| == |s|
  {
    seq(|s|, i requires 0 <= i < |s| => UpperChar(s[i]))
  }
}

/** String helpers shared by the generator: Python's `sep.join(xs)`, the
    inverse splitting of an argument list at ", ", and prefix/suffix/substring
    tests used to state where generated text contains what. */
module Text {

  predicate StartsWith(s: string, prefix: string)
  {
    |prefix| <= |s| && s[..|prefix|] == prefix
  }

  predicate EndsWith(s: string, suffix: string)
  {
    |suffix| <= |s| && s[|s| - |suffix|..] == suffix
  }

  /** A text ends with whatever was appended last. */
  lemma EndsWithAppended(s: string, suffix: string)
    ensures EndsWith(s + suffix, suffix)
  {
    assert (s + suffix)[|s|..] == suffix;
  }

  /** `t` occurs in `s` starting at index `i`. */
  predicate OccursAt(s: string, t: string, i: int)
  {
    0 <= i <= |s| - |t| && s[i..i + |t|] == t
  }

  ghost predicate Contains(s: string, t: string)
  {
    exists i :: OccursAt(s, t, i)
  }

  /** Python's `sep.join(xs)`: the elements in order with `sep` between neighbours. */
  function Join(sep: string, xs: seq<string>): string
  {
    if |xs| == 0 then ""
    else if |xs| == 1 then xs[0]
    else xs[0] + sep + Join(sep, xs[1..])
  }

  /** Splits a text at every ", " -- the reading of an argument list that
      `Join(", ", _)` produced. There is always at least one field. */
  function SplitArgs(s: string): (fields: seq<string>)
    ensures |fields| >= 1
    decreases |s|
  {
    if |s| >= 2 && s[0] == ',' && s[1] == ' ' then [""] + SplitArgs(s[2..])
    else if s == [] then [""]
    else
      var rest := SplitArgs(s[1..]);
      [[s[0]] + rest[0]] + rest[1..]
  }

  /** Joining a concatenation: the two joins with one separator between them
      exactly when both halves are non-empty. */
  lemma {:induction false} JoinAppend(sep: string, a: seq<string>, b: seq<string>)
    ensures Join(sep, a + b)
         == Join(sep, a) + (if a != [] && b != [] then sep else "") + Join(sep, b)
    decreases |a|
  {
    if |a| == 0 {
      assert a + b == b;
    } else if |a| == 1 {
      if b != [] {
        assert (a + b)[1..] == b;
      } else {
        assert a + b == a;
      }
    } else {
      assert (a + b)[1..] == a[1..] + b;
      JoinAppend(sep, a[1..], b);
    }
  }

  /** A character that is neither in the separator nor in any element is not in the join. */
  lemma {:induction false} JoinAvoidsChar(sep: string, xs: seq<string>, c: char)
    requires c !in sep
    requires forall k :: 0 <= k < |xs| ==> c !in xs[k]
    ensures c !in Join(sep, xs)
    decreases |xs|
  {
    if |xs| > 1 {
      JoinAvoidsChar(sep, xs[1..], c);
    }
  }

  /** Splitting a comma-free field followed by ", " peels off that field. */
  lemma {:induction false} SplitField(x: string, rest: string)
    requires ',' !in x
    ensures SplitArgs(x + ", " + rest) == [x] + SplitArgs(rest)
    ensures SplitArgs(x) == [x]
    decreases |x|
  {
    if x == [] {
      assert x + ", " + rest == ", " + rest;
      assert (", " + rest)[2..] == rest;
    } else {
      assert (x + ", " + rest)[1..] == x[1..] + ", " + rest;
      assert [x[0]] + x[1..] == x;
      SplitField(x[1..], rest);
    }
  }

  /** Round trip: splitting the ", "-join of comma-free fields gives the fields back. */
  lemma {:induction false} SplitJoin(xs: seq<string>)
    requires |xs| >= 1
    requires forall k :: 0 <= k < |xs| ==> ',' !in xs[k]
    ensures SplitArgs(Join(", ", xs)) == xs
    decreases |xs|
  {
    if |xs| == 1 {
      SplitField(xs[0], "");
    } else {
      SplitJoin(xs[1..]);
      SplitField(xs[0], Join(", ", xs[1..]));
      assert [xs[0]] + xs[1..] == xs;
    }
  }

  /** Text without a '>' contains no " -> " segment. */
  lemma NoArrowWithoutGreater(s: string)
    requires '>' !in s
    ensures !Contains(s, " -> ")
  {
    forall i
      ensures !OccursAt(s, " -> ", i)
    {
      if 0 <= i <= |s| - 4 {
        assert s[i..i + 4][2] == s[i + 2] != '>';
      }
    }
  }
}

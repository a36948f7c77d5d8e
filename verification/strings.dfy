/** String operations the form relies on: Rust's `[String]::join("\n")`
    (used to flatten a text area into one value) and `str::replace`
    (used to fill the commit template). */
module Strings {

  /** `p` starts at index `j` of `s`. */
  predicate MatchAt(s: string, p: string, j: int)
  {
    0 <= j <= |s| - |p| && s[j..j + |p|] == p
  }

  /** `s` holds `p` as a contiguous substring. */
  ghost predicate Occurs(s: string, p: string)
  {
    exists j :: MatchAt(s, p, j)
  }

  /** An occurrence in the tail of `s` is an occurrence in `s`. */
  lemma OccursTail(s: string, p: string)
    requires |s| > 0 && Occurs(s[1..], p)
    ensures Occurs(s, p)
  {
    var j :| MatchAt(s[1..], p, j);
    assert s[j + 1..j + 1 + |p|] == s[1..][j..j + |p|];
    assert MatchAt(s, p, j + 1);
  }

  /** `lines.join("\n")`: the lines in order, with one newline between
      neighbours and none at either end. */
  function JoinLines(lines: seq<string>): string
  {
    if |lines| == 0 then ""
    else if |lines| == 1 then lines[0]
    else lines[0] + "\n" + JoinLines(lines[1..])
  }

  /** Cuts `s` at every newline; the inverse of `JoinLines` on lines
      that hold no newline. Never returns an empty sequence. */
  function SplitLines(s: string): (r: seq<string>)
    ensures |r| > 0
    ensures forall i :: 0 <= i < |r| ==> '\n' !in r[i]
    ensures |r| == 1 <==> '\n' !in s
  {
    if |s| == 0 then [""]
    else if s[0] == '\n' then [""] + SplitLines(s[1..])
    else
      var rest := SplitLines(s[1..]);
      [[s[0]] + rest[0]] + rest[1..]
  }

  lemma {:induction false} SplitLineFirst(a: string, b: string)
    requires '\n' !in a
    ensures SplitLines(a + "\n" + b) == [a] + SplitLines(b)
    ensures SplitLines(a) == [a]
    decreases |a|
  {
    if |a| == 0 {
      assert a + "\n" + b == "\n" + b;
      assert ("\n" + b)[1..] == b;
    } else {
      assert (a + "\n" + b)[1..] == a[1..] + "\n" + b;
      assert (a + "\n" + b)[0] == a[0];
      SplitLineFirst(a[1..], b);
      assert [a[0]] + a[1..] == a;
    }
  }

  /** Joining lines that hold no newline and splitting the result gives
      the lines back: the flattened field value loses nothing. */
  lemma {:induction false} SplitJoin(lines: seq<string>)
    requires |lines| > 0
    requires forall i :: 0 <= i < |lines| ==> '\n' !in lines[i]
    ensures SplitLines(JoinLines(lines)) == lines
    decreases |lines|
  {
    if |lines| == 1 {
      SplitLineFirst(lines[0], "");
    } else {
      SplitLineFirst(lines[0], JoinLines(lines[1..]));
      SplitJoin(lines[1..]);
      assert [lines[0]] + lines[1..] == lines;
    }
  }

  /** Rust's `s.replace(pat, rep)`: every non-overlapping occurrence of
      `pat`, found left to right, becomes `rep`. An empty pattern matches
      before every character and at the end. */
  function ReplaceAll(s: string, pat: string, rep: string): string
    decreases |s|
  {
    if |pat| == 0 then
      (if |s| == 0 then rep else rep + [s[0]] + ReplaceAll(s[1..], pat, rep))
    else if pat <= s then rep + ReplaceAll(s[|pat|..], pat, rep)
    else if |s| == 0 then s
    else [s[0]] + ReplaceAll(s[1..], pat, rep)
  }

  /** A string with no occurrence of `pat` comes back unchanged. */
  lemma {:induction false} ReplaceAllAbsent(s: string, pat: string, rep: string)
    requires |pat| > 0 && !Occurs(s, pat)
    ensures ReplaceAll(s, pat, rep) == s
    decreases |s|
  {
    if pat <= s {
      assert MatchAt(s, pat, 0) by { assert s[0..|pat|] == pat; }
    } else if |s| > 0 {
      if Occurs(s[1..], pat) {
        OccursTail(s, pat);
      }
      ReplaceAllAbsent(s[1..], pat, rep);
      assert [s[0]] + s[1..] == s;
    }
  }

  /** A prefix of `a + b` that reaches past `a` is not `pat` when the
      last character of `a` or the first of `b` is foreign to `pat`. */
  lemma NoStraddle(a: string, b: string, pat: string)
    requires 0 < |a| < |pat|
    requires a[|a| - 1] !in pat || (|b| > 0 && b[0] !in pat)
    ensures !(pat <= a + b)
  {
    if |pat| <= |a + b| {
      if a[|a| - 1] !in pat {
        assert (a + b)[|a| - 1] != pat[|a| - 1];
      } else {
        assert (a + b)[|a|] != pat[|a|];
      }
    }
  }

  /** No match of `pat` can straddle the seam between `a` and `b` when a
      character next to the seam is foreign to `pat`; replacing then
      works on the two halves independently. */
  lemma {:induction false} ReplaceAllSplit(a: string, b: string, pat: string, rep: string)
    requires |pat| > 0
    requires (|a| > 0 && a[|a| - 1] !in pat) || (|b| > 0 && b[0] !in pat)
    ensures ReplaceAll(a + b, pat, rep) == ReplaceAll(a, pat, rep) + ReplaceAll(b, pat, rep)
    decreases |a|, 1
  {
    if |a| == 0 {
      assert a + b == b;
    } else if pat <= a {
      SplitAtMatch(a, b, pat, rep);
    } else {
      SplitAtMiss(a, b, pat, rep);
    }
  }

  /** `ReplaceAllSplit` when `a` starts with a match. */
  lemma {:induction false} SplitAtMatch(a: string, b: string, pat: string, rep: string)
    requires |pat| > 0 && pat <= a
    requires a[|a| - 1] !in pat || (|b| > 0 && b[0] !in pat)
    ensures ReplaceAll(a + b, pat, rep) == ReplaceAll(a, pat, rep) + ReplaceAll(b, pat, rep)
    decreases |a|, 0
  {
    assert (a + b)[..|pat|] == a[..|pat|];
    var a' := a[|pat|..];
    assert (a + b)[|pat|..] == a' + b;
    assert ReplaceAll(a + b, pat, rep) == rep + ReplaceAll(a' + b, pat, rep);
    assert ReplaceAll(a, pat, rep) == rep + ReplaceAll(a', pat, rep);
    if |a'| == 0 {
      assert a' + b == b;
    } else {
      assert a'[|a'| - 1] == a[|a| - 1];
      ReplaceAllSplit(a', b, pat, rep);
    }
    AppendAssoc(rep, ReplaceAll(a', pat, rep), ReplaceAll(b, pat, rep));
  }

  /** `ReplaceAllSplit` when `a` does not start with a match. */
  lemma {:induction false} SplitAtMiss(a: string, b: string, pat: string, rep: string)
    requires |pat| > 0 && |a| > 0 && !(pat <= a)
    requires a[|a| - 1] !in pat || (|b| > 0 && b[0] !in pat)
    ensures ReplaceAll(a + b, pat, rep) == ReplaceAll(a, pat, rep) + ReplaceAll(b, pat, rep)
    decreases |a|, 0
  {
    if |a| < |pat| {
      NoStraddle(a, b, pat);
    } else {
      assert (a + b)[..|pat|] == a[..|pat|];
    }
    var a' := a[1..];
    assert (a + b)[1..] == a' + b;
    assert ReplaceAll(a + b, pat, rep) == [a[0]] + ReplaceAll(a' + b, pat, rep);
    assert ReplaceAll(a, pat, rep) == [a[0]] + ReplaceAll(a', pat, rep);
    if |a'| == 0 {
      assert a' + b == b;
    } else {
      assert a'[|a'| - 1] == a[|a| - 1];
      ReplaceAllSplit(a', b, pat, rep);
    }
    AppendAssoc([a[0]], ReplaceAll(a', pat, rep), ReplaceAll(b, pat, rep));
  }

  lemma AppendAssoc(x: string, y: string, z: string)
    ensures x + (y + z) == (x + y) + z
  {
  }

  /** A pattern occurs in itself, so replacing it in itself yields `rep`. */
  lemma {:induction false} ReplaceAllSelf(pat: string, rep: string)
    requires |pat| > 0
    ensures Occurs(pat, pat)
    ensures ReplaceAll(pat, pat, rep) == rep
  {
    assert MatchAt(pat, pat, 0) by { assert pat[0..|pat|] == pat; }
    assert pat[|pat|..] == "";
  }

  /** Joining two strings without an occurrence creates none when a
      character at the seam is foreign to the pattern. */
  lemma OccursJoin(a: string, b: string, p: string)
    requires |p| > 0 && !Occurs(a, p) && !Occurs(b, p)
    requires (|a| > 0 && a[|a| - 1] !in p) || (|b| > 0 && b[0] !in p)
    ensures !Occurs(a + b, p)
  {
    forall j | 0 <= j <= |a + b| - |p|
      ensures !MatchAt(a + b, p, j)
    {
      var w := (a + b)[j..j + |p|];
      if j + |p| <= |a| {
        assert !MatchAt(a, p, j) && a[j..j + |p|] == w;
      } else if j >= |a| {
        assert !MatchAt(b, p, j - |a|) && b[j - |a|..j - |a| + |p|] == w;
      } else if |a| > 0 && a[|a| - 1] !in p {
        assert w[|a| - 1 - j] == a[|a| - 1];
      } else {
        assert w[|a| - j] == b[0];
      }
    }
  }

  /** A first character absent from `s` rules out every occurrence. */
  lemma AbsentHead(s: string, pat: string)
    requires |pat| > 0 && pat[0] !in s
    ensures !Occurs(s, pat)
  {
    forall j | 0 <= j <= |s| - |pat|
      ensures !MatchAt(s, pat, j)
    {
      assert s[j..j + |pat|][0] == s[j];
    }
  }
}

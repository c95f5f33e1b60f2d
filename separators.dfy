/**
 * Trimming of path separators, as `string.Trim('/', '\\')`, `TrimStart` and
 * `TrimEnd` with those two characters do it.
 */
module Separators {

  predicate IsSeparator(c: char) {
    c == '/' || c == '\\'
  }

  predicate AllSeparators(s: string) {
    forall i :: 0 <= i < |s| ==> IsSeparator(s[i])
  }

  /** `s.TrimStart('/', '\\')`: the longest suffix of `s` that does not start with a separator. */
  function TrimStart(s: string): (r: string)
    ensures |r| <= |s| && r == s[|s| - |r|..]
    ensures AllSeparators(s[..|s| - |r|])
    ensures r == [] || !IsSeparator(r[0])
  {
    if s != [] && IsSeparator(s[0]) then
      var r := TrimStart(s[1..]);
      assert s[..|s| - |r|] == [s[0]] + s[1..][..|s| - 1 - |r|];
      r
    else
      s
  }

  /** `s.TrimEnd('/', '\\')`: the longest prefix of `s` that does not end with a separator. */
  function TrimEnd(s: string): (r: string)
    ensures |r| <= |s| && r == s[..|r|]
    ensures AllSeparators(s[|r|..])
    ensures r == [] || !IsSeparator(r[|r| - 1])
  {
    if s != [] && IsSeparator(s[|s| - 1]) then
      var r := TrimEnd(s[..|s| - 1]);
      assert s[|r|..] == s[..|s| - 1][|r|..] + [s[|s| - 1]];
      r
    else
      s
  }

  /** `s.Trim('/', '\\')`: `s` with every leading and every trailing separator removed. */
  function Trim(s: string): (r: string)
    ensures r == [] || (!IsSeparator(r[0]) && !IsSeparator(r[|r| - 1]))
  {
    TrimEnd(TrimStart(s))
  }

  /** What Trim keeps is one contiguous piece of the input, with only separators on either side of it. */
  lemma TrimIsSlice(s: string)
    ensures var r := Trim(s);
            exists k :: 0 <= k <= |s| - |r| && r == s[k..k + |r|]
                          && AllSeparators(s[..k]) && AllSeparators(s[k + |r|..])
  {
    SliceOfSuffixPrefix(s, TrimStart(s), Trim(s));
  }

  /** A prefix that drops only separators, of a suffix that drops only separators, is a slice with separators around it. */
  lemma SliceOfSuffixPrefix(s: string, t: string, r: string)
    requires |t| <= |s| && t == s[|s| - |t|..] && AllSeparators(s[..|s| - |t|])
    requires |r| <= |t| && r == t[..|r|] && AllSeparators(t[|r|..])
    ensures exists k :: 0 <= k <= |s| - |r| && r == s[k..k + |r|]
                        && AllSeparators(s[..k]) && AllSeparators(s[k + |r|..])
  {
    var k := |s| - |t|;
    assert r == s[k..k + |r|];
    assert s[k + |r|..] == t[|r|..];
  }

  /** TrimStart is the only function with its contract: any suffix that drops only separators and does not start with one is it. */
  lemma {:induction false} TrimStartUnique(s: string, r: string)
    requires |r| <= |s| && r == s[|s| - |r|..]
    requires AllSeparators(s[..|s| - |r|])
    requires r == [] || !IsSeparator(r[0])
    ensures TrimStart(s) == r
  {
    if s == [] {
    } else if IsSeparator(s[0]) {
      assert |r| < |s|;
      assert s[1..][..|s| - 1 - |r|] == s[..|s| - |r|][1..];
      TrimStartUnique(s[1..], r);
    } else {
      assert |r| == |s|;
    }
  }

  /** TrimEnd is the only function with its contract: any prefix that drops only separators and does not end with one is it. */
  lemma {:induction false} TrimEndUnique(s: string, r: string)
    requires |r| <= |s| && r == s[..|r|]
    requires AllSeparators(s[|r|..])
    requires r == [] || !IsSeparator(r[|r| - 1])
    ensures TrimEnd(s) == r
  {
    if s != [] && IsSeparator(s[|s| - 1]) {
      assert |r| < |s|;
      assert s[..|s| - 1][|r|..] == s[|r|..][..|s| - 1 - |r|];
      TrimEndUnique(s[..|s| - 1], r);
    } else {
      assert |r| == |s|;
    }
  }

  /** Leading separators in front of a string are all dropped. */
  lemma {:induction false} TrimStartSkipsPadding(p: string, s: string)
    requires AllSeparators(p)
    ensures TrimStart(p + s) == TrimStart(s)
  {
    if p == [] {
      assert p + s == s;
    } else {
      assert (p + s)[1..] == p[1..] + s;
      TrimStartSkipsPadding(p[1..], s);
    }
  }

  /** Trailing separators after a string are all dropped. */
  lemma {:induction false} TrimEndSkipsPadding(s: string, p: string)
    requires AllSeparators(p)
    ensures TrimEnd(s + p) == TrimEnd(s)
  {
    if p == [] {
      assert s + p == s;
    } else {
      assert (s + p)[..|s + p| - 1] == s + p[..|p| - 1];
      TrimEndSkipsPadding(s, p[..|p| - 1]);
    }
  }

  /** Once a non-separator is reached, TrimStart keeps everything after it. */
  lemma {:induction false} TrimStartKeepsTail(s: string, t: string)
    requires !AllSeparators(s)
    ensures TrimStart(s + t) == TrimStart(s) + t
  {
    if IsSeparator(s[0]) {
      var i :| 0 <= i < |s| && !IsSeparator(s[i]);
      assert s[1..][i - 1] == s[i];
      assert (s + t)[1..] == s[1..] + t;
      TrimStartKeepsTail(s[1..], t);
    }
  }

  /** Any mixture of separators on either side of a path makes no difference to Trim. */
  lemma TrimIgnoresPadding(p: string, s: string, q: string)
    requires AllSeparators(p) && AllSeparators(q)
    ensures Trim(p + s + q) == Trim(s)
  {
    assert p + s + q == p + (s + q);
    TrimStartSkipsPadding(p, s + q);
    assert TrimStart(p + s + q) == TrimStart(s + q);
    if AllSeparators(s) {
      AllSeparatorsTrimToNothing(s, q);
      assert TrimStart(s + q) == [] && TrimStart(s) == [];
    } else {
      TrimStartKeepsTail(s, q);
      TrimEndSkipsPadding(TrimStart(s), q);
      assert TrimEnd(TrimStart(s + q)) == TrimEnd(TrimStart(s));
    }
  }

  /** A path of separators only, with more separators after it, trims to nothing from the front. */
  lemma AllSeparatorsTrimToNothing(s: string, q: string)
    requires AllSeparators(s) && AllSeparators(q)
    ensures TrimStart(s + q) == [] && TrimStart(s) == []
  {
    assert AllSeparators(s + q) by {
      forall i | 0 <= i < |s + q| ensures IsSeparator((s + q)[i]) {
        if i < |s| { assert (s + q)[i] == s[i]; } else { assert (s + q)[i] == q[i - |s|]; }
      }
    }
  }

  /** Trimming twice is trimming once. */
  lemma TrimIdempotent(s: string)
    ensures Trim(Trim(s)) == Trim(s)
  {
    var r := Trim(s);
    TrimStartUnique(r, r);
    assert TrimEnd(r) == r by {
      if r != [] { assert r[..|r|] == r; }
    }
  }

  /** A string that does not end with a separator is left as it is by TrimEnd. */
  lemma NoTrailingSeparator(s: string)
    requires s == [] || !IsSeparator(s[|s| - 1])
    ensures TrimEnd(s) == s
  {
  }

  /** A string with no separator at either end is left as it is. */
  lemma NoOuterSeparators(s: string)
    requires s == [] || (!IsSeparator(s[0]) && !IsSeparator(s[|s| - 1]))
    ensures TrimStart(s) == s && TrimEnd(s) == s && Trim(s) == s
  {
  }

  /** Trim leaves nothing only of a string made of separators alone. */
  lemma TrimEmptyOnlyIfAllSeparators(s: string)
    ensures Trim(s) == [] <==> AllSeparators(s)
  {
    var t := TrimStart(s);
    if t == [] {
      assert s[..|s|] == s;
    } else {
      assert !IsSeparator(s[|s| - |t|]);
    }
  }
}

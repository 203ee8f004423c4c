/**
 * jQuery's `$.trim`, which the search panel applies to the text of the search
 * input before committing it as the search query.
 *
 * `$.trim` removes every leading and trailing character that the ECMAScript
 * regular-expression class `\s` matches (white space and line terminators,
 * including the byte-order mark U+FEFF and the no-break space U+00A0), and
 * nothing else.
 */
module JQueryTrim {

  /** The characters ECMAScript's `\s` matches. */
  predicate IsWhitespace(c: char) {
    c == '\t' || c == '\n' || c == '\U{000B}' || c == '\U{000C}' || c == '\r' || c == ' '
    || c == '\U{00A0}' || c == '\U{1680}' || ('\U{2000}' <= c <= '\U{200A}')
    || c == '\U{2028}' || c == '\U{2029}' || c == '\U{202F}' || c == '\U{205F}'
    || c == '\U{3000}' || c == '\U{FEFF}'
  }

  predicate AllWhitespace(s: string) {
    forall k :: 0 <= k < |s| ==> IsWhitespace(s[k])
  }

  /** Neither the first nor the last character (if any) is white space. */
  predicate NoEdgeWhitespace(s: string) {
    s != [] ==> !IsWhitespace(s[0]) && !IsWhitespace(s[|s| - 1])
  }

  /** Drops the leading white space: the result is a suffix of `s`, what was
      dropped is all white space, and the result does not start with any. */
  function TrimStart(s: string): (r: string)
    ensures |r| <= |s| && r == s[|s| - |r|..]
    ensures forall k :: 0 <= k < |s| - |r| ==> IsWhitespace(s[k])
    ensures r != [] ==> !IsWhitespace(r[0])
  {
    if s != [] && IsWhitespace(s[0]) then
      TrimStart(s[1..])
    else
      s
  }

  /** Drops the trailing white space: the result is a prefix of `s`, what was
      dropped is all white space, and the result does not end with any. */
  function TrimEnd(s: string): (r: string)
    ensures |r| <= |s| && r == s[..|r|]
    ensures forall k :: |r| <= k < |s| ==> IsWhitespace(s[k])
    ensures r != [] ==> !IsWhitespace(r[|r| - 1])
  {
    if s != [] && IsWhitespace(s[|s| - 1]) then
      var p := s[..|s| - 1];
      var r := TrimEnd(p);
      assert r == p[..|r|] == s[..|r|];
      r
    else
      s
  }

  /** `$.trim(s)`: the result is a slice of `s` with only white space before
      and after it, and it has no white space at either end. */
  function Trim(s: string): (r: string)
    ensures NoEdgeWhitespace(r)
    ensures exists i, j :: 0 <= i <= j <= |s| && r == s[i..j] && AllWhitespace(s[..i]) && AllWhitespace(s[j..])
  {
    var t := TrimStart(s);
    var r := TrimEnd(t);
    Framed(s, t, r);
    r
  }

  /** A string `t` cut from the end of `s` after white space and not starting
      with any, cut in turn to `r` before white space and not ending with any,
      leaves `r` a slice of `s` framed by white space. */
  lemma Framed(s: string, t: string, r: string)
    requires |t| <= |s| && t == s[|s| - |t|..] && AllWhitespace(s[..|s| - |t|])
    requires t != [] ==> !IsWhitespace(t[0])
    requires |r| <= |t| && r == t[..|r|] && AllWhitespace(t[|r|..])
    requires r != [] ==> !IsWhitespace(r[|r| - 1])
    ensures NoEdgeWhitespace(r)
    ensures exists i, j :: 0 <= i <= j <= |s| && r == s[i..j] && AllWhitespace(s[..i]) && AllWhitespace(s[j..])
  {
    var i := |s| - |t|;
    var j := i + |r|;
    assert r == s[i..j];
    assert s[j..] == t[|r|..];
    assert r != [] ==> r[0] == t[0];
  }

  lemma {:induction false} TrimStartSkips(a: string, x: string)
    requires AllWhitespace(a)
    ensures TrimStart(a + x) == TrimStart(x)
  {
    if a == [] {
      assert a + x == x;
    } else {
      assert (a + x)[1..] == a[1..] + x;
      TrimStartSkips(a[1..], x);
    }
  }

  lemma {:induction false} TrimEndSkips(x: string, b: string)
    requires AllWhitespace(b)
    ensures TrimEnd(x + b) == TrimEnd(x)
  {
    if b == [] {
      assert x + b == x;
    } else {
      assert (x + b)[..|x + b| - 1] == x + b[..|b| - 1];
      TrimEndSkips(x, b[..|b| - 1]);
    }
  }

  /** A string that does not start with white space is its own `TrimStart`. */
  lemma TrimStartFixed(x: string)
    requires x == [] || !IsWhitespace(x[0])
    ensures TrimStart(x) == x
  {
  }

  /** A string that does not end with white space is its own `TrimEnd`. */
  lemma TrimEndFixed(x: string)
    requires x == [] || !IsWhitespace(x[|x| - 1])
    ensures TrimEnd(x) == x
  {
  }

  /** Trim is the only way to cut a string into white space, a middle with no
      white space at its ends, and white space: whenever `s` splits so, the
      middle is `Trim(s)`. */
  lemma {:induction false} TrimCharacterised(s: string, a: string, m: string, b: string)
    requires s == a + m + b
    requires AllWhitespace(a) && AllWhitespace(b) && NoEdgeWhitespace(m)
    ensures Trim(s) == m
  {
    var mb := m + b;
    assert s == a + mb;
    TrimStartSkips(a, mb);
    if m == [] {
      assert mb == b + [];
      TrimStartSkips(b, []);
      TrimStartFixed([]);
      TrimEndFixed([]);
    } else {
      assert mb[0] == m[0];
      TrimStartFixed(mb);
      TrimEndSkips(m, b);
      TrimEndFixed(m);
    }
  }

  /** A string with no white space at its ends is its own `Trim`. */
  lemma TrimFixed(x: string)
    requires NoEdgeWhitespace(x)
    ensures Trim(x) == x
  {
    TrimStartFixed(x);
    TrimEndFixed(x);
  }

  /** Trimming a trimmed string changes nothing. */
  lemma {:induction false} TrimIdempotent(s: string)
    ensures Trim(Trim(s)) == Trim(s)
  {
    TrimFixed(Trim(s));
  }

  /** The trimmed text is empty exactly when the input is white space only. */
  lemma {:induction false} TrimEmptyIffAllWhitespace(s: string)
    ensures Trim(s) == [] <==> AllWhitespace(s)
  {
    if AllWhitespace(s) {
      assert s == s + [] + [];
      TrimCharacterised(s, s, [], []);
    }
    if Trim(s) == [] {
      var i, j :| 0 <= i <= j <= |s| && Trim(s) == s[i..j] && AllWhitespace(s[..i]) && AllWhitespace(s[j..]);
      assert i == j;
      forall k | 0 <= k < |s| ensures IsWhitespace(s[k]) {
        if k < i { assert s[k] == s[..i][k]; } else { assert s[k] == s[j..][k - j]; }
      }
    }
  }
}

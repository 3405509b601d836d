/** Character classes and the string helpers of the JavaScript runtime that
    formatMarkdown leans on: the `\s` class, `trim` and `trimEnd`. */
module Text {

  /** U+00A0, NO-BREAK SPACE. */
  const Nbsp: char := '\U{00A0}'

  /** JavaScript's white space: the WhiteSpace and LineTerminator code points
      that both the regular-expression class `\s` and `String.prototype.trim`
      and `trimEnd` use. */
  predicate IsWs(c: char) {
    || c == '\t' || c == '\n' || c == '\U{000B}' || c == '\U{000C}' || c == '\r'
    || c == ' ' || c == Nbsp || c == '\U{1680}'
    || ('\U{2000}' <= c <= '\U{200A}')
    || c == '\U{2028}' || c == '\U{2029}' || c == '\U{202F}' || c == '\U{205F}'
    || c == '\U{3000}' || c == '\U{FEFF}'
  }

  predicate AllWs(s: string) {
    forall i :: 0 <= i < |s| ==> IsWs(s[i])
  }

  /** `p` occurs somewhere in `s` as a contiguous piece. */
  predicate Infix(p: string, s: string)
    decreases |s|
  {
    p <= s || (s != [] && Infix(p, s[1..]))
  }

  /** An occurrence at a known offset is an occurrence. */
  lemma {:induction false} InfixAt(p: string, s: string, k: nat)
    requires k + |p| <= |s| && s[k..k + |p|] == p
    ensures Infix(p, s)
    decreases k
  {
    if k > 0 {
      assert s[1..][k - 1..k - 1 + |p|] == s[k..k + |p|];
      InfixAt(p, s[1..], k - 1);
    }
  }

  /** Where an occurrence sits. */
  lemma {:induction false} InfixIndex(p: string, s: string) returns (k: nat)
    requires Infix(p, s)
    ensures k + |p| <= |s| && s[k..k + |p|] == p
    decreases |s|
  {
    if p <= s {
      k := 0;
    } else {
      var j := InfixIndex(p, s[1..]);
      k := j + 1;
      assert s[1..][j..j + |p|] == s[k..k + |p|];
    }
  }

  /** An occurrence stays one when text is added on either side. */
  lemma InfixWiden(p: string, x: string, pre: string, post: string)
    requires Infix(p, x)
    ensures Infix(p, pre + x + post)
  {
    var k := InfixIndex(p, x);
    var s := pre + x + post;
    assert s[|pre| + k..|pre| + k + |p|] == x[k..k + |p|];
    InfixAt(p, s, |pre| + k);
  }

  /** Leading white space removed. */
  function TrimStart(s: string): (r: string)
    ensures |r| <= |s| && r == s[|s| - |r|..]
    ensures r == [] || !IsWs(r[0])
  {
    if s != [] && IsWs(s[0]) then TrimStart(s[1..]) else s
  }

  /** What `TrimStart` removes is white space. */
  lemma {:induction false} TrimStartDrops(s: string)
    ensures forall i :: 0 <= i < |s| - |TrimStart(s)| ==> IsWs(s[i])
    decreases |s|
  {
    if s != [] && IsWs(s[0]) {
      TrimStartDrops(s[1..]);
      forall i | 1 <= i < |s| - |TrimStart(s)|
        ensures IsWs(s[i])
      {
        assert s[i] == s[1..][i - 1];
      }
    }
  }

  /** `String.prototype.trimEnd`: trailing white space removed. */
  function TrimEnd(s: string): (r: string)
    ensures r <= s
    ensures r == [] || !IsWs(r[|r| - 1])
  {
    if s != [] && IsWs(s[|s| - 1]) then TrimEnd(s[..|s| - 1]) else s
  }

  /** What `trimEnd` removes is white space. */
  lemma {:induction false} TrimEndDrops(s: string)
    ensures forall i :: |TrimEnd(s)| <= i < |s| ==> IsWs(s[i])
    decreases |s|
  {
    if s != [] && IsWs(s[|s| - 1]) {
      TrimEndDrops(s[..|s| - 1]);
    }
  }

  /** `r` sits in `s` at offset `a` with nothing but white space around it. */
  predicate Around(s: string, a: int, r: string) {
    && 0 <= a && a + |r| <= |s|
    && r == s[a..a + |r|]
    && (forall i :: 0 <= i < a ==> IsWs(s[i]))
    && (forall i :: a + |r| <= i < |s| ==> IsWs(s[i]))
  }

  /** `String.prototype.trim`: white space removed at both ends. */
  function Trim(s: string): (r: string)
    ensures Around(s, |s| - |TrimStart(s)|, r)
    ensures r == [] || (!IsWs(r[0]) && !IsWs(r[|r| - 1]))
  {
    var t := TrimStart(s);
    var r := TrimEnd(t);
    TrimStartDrops(s);
    TrimEndDrops(t);
    InnerSlice(s, t, r);
    PrefixEnds(t, r);
    r
  }

  lemma PrefixEnds(t: string, r: string)
    requires t == [] || !IsWs(t[0])
    requires r <= t && (r == [] || !IsWs(r[|r| - 1]))
    ensures r == [] || (!IsWs(r[0]) && !IsWs(r[|r| - 1]))
  {
    if r != [] {
      assert r[0] == t[0];
    }
  }

  /** A prefix `r` of a suffix `t` of `s`, with white space cut off around
      it, is a slice of `s` with white space on both sides. */
  lemma InnerSlice(s: string, t: string, r: string)
    requires |t| <= |s| && t == s[|s| - |t|..] && (forall i :: 0 <= i < |s| - |t| ==> IsWs(s[i]))
    requires r <= t && (forall i :: |r| <= i < |t| ==> IsWs(t[i]))
    ensures Around(s, |s| - |t|, r)
  {
    var a := |s| - |t|;
    forall i | a + |r| <= i < |s|
      ensures IsWs(s[i])
    {
      assert s[i] == t[i - a];
    }
  }

  /** Trimming is pinned down by its contract: a string that is white space,
      then a piece with no white space at either end, then white space again,
      trims to that piece. */
  lemma {:induction false} TrimUnique(u: string, m: string, v: string)
    requires AllWs(u) && AllWs(v)
    requires m == [] || (!IsWs(m[0]) && !IsWs(m[|m| - 1]))
    ensures Trim(u + m + v) == m
  {
    var w := u + m + v;
    if m == [] {
      assert w == u + v;
      AllWsConcat(u, v);
      TrimStartAllWs(w);
      assert TrimStart(w) == [];
    } else {
      assert (m + v)[0] == m[0];
      assert w == u + (m + v);
      TrimStartSkips(u, m + v);
      assert TrimStart(w) == m + v;
      TrimEndSkips(m, v);
    }
  }

  lemma AllWsConcat(u: string, v: string)
    requires AllWs(u) && AllWs(v)
    ensures AllWs(u + v)
  {
  }

  lemma {:induction false} TrimStartSkips(u: string, w: string)
    requires AllWs(u)
    requires w == [] || !IsWs(w[0])
    ensures TrimStart(u + w) == TrimStart(w)
    decreases |u|
  {
    if u == [] {
      assert u + w == w;
    } else {
      assert (u + w)[0] == u[0];
      assert (u + w)[1..] == u[1..] + w;
      TrimStartSkips(u[1..], w);
    }
  }

  lemma {:induction false} TrimStartAllWs(v: string)
    requires AllWs(v)
    ensures TrimStart(v) == []
    decreases |v|
  {
    if v != [] {
      TrimStartAllWs(v[1..]);
    }
  }

  lemma {:induction false} TrimEndSkips(m: string, v: string)
    requires AllWs(v)
    requires m == [] || !IsWs(m[|m| - 1])
    ensures TrimEnd(m + v) == m
    decreases |v|
  {
    if v == [] {
      assert m + v == m;
    } else {
      assert (m + v)[|m + v| - 1] == v[|v| - 1];
      assert (m + v)[..|m + v| - 1] == m + v[..|v| - 1];
      TrimEndSkips(m, v[..|v| - 1]);
    }
  }

  /** What `trimEnd` keeps of a string never shrinks as text is appended:
      appending can only add to, never take back, the non-white-space part. */
  lemma {:induction false} TrimEndGrows(a: string, x: string)
    ensures TrimEnd(a) <= TrimEnd(a + x)
    decreases |x|
  {
    if x == [] {
      assert a + x == a;
    } else {
      var x' := x[..|x| - 1];
      assert (a + x)[..|a + x| - 1] == a + x';
      assert (a + x)[|a + x| - 1] == x[|x| - 1];
      TrimEndGrows(a, x');
    }
  }

  /** A string that already ends in a non-white-space character is its own `trimEnd`. */
  lemma TrimEndFixed(s: string)
    requires s != [] && !IsWs(s[|s| - 1])
    ensures TrimEnd(s) == s
  {
  }

  /** Whatever is appended after a trimmed text, the trimmed text survives
      trimming the whole. */
  lemma TrimmedSurvives(acc: string, out: string)
    requires TrimEnd(acc) <= out
    ensures TrimEnd(acc) <= TrimEnd(out)
  {
    var p := TrimEnd(acc);
    assert out == p + out[|p|..];
    TrimEndGrows(p, out[|p|..]);
    if p != [] {
      TrimEndFixed(p);
    }
  }

  lemma PrefixTrans(a: string, b: string, c: string)
    requires a <= b && b <= c
    ensures a <= c
  {
    assert c[..|a|] == b[..|a|];
  }
}

/** Stage one of the JSON-like path: white space outside double-quoted
    strings is dropped, everything inside them is kept as written. */
module Compactor {
  import opened Text
  import opened Quotes

  /** The first loop of formatMarkdown's callback, threading the quote flag
      and the text built so far (`cleanedJson`) through the characters of the
      trimmed block. */
  function CompactLoop(s: string, i: nat, inside: bool, acc: string): string
    requires i <= |s|
    decreases |s| - i
  {
    if i == |s| then acc
    else if TogglesAt(s, i) then CompactLoop(s, i + 1, !inside, acc + [s[i]])
    else if inside then CompactLoop(s, i + 1, inside, acc + [s[i]])
    else if !IsWs(s[i]) then CompactLoop(s, i + 1, inside, acc + [s[i]])
    else CompactLoop(s, i + 1, inside, acc)
  }

  function Compact(s: string): string {
    CompactLoop(s, 0, false, [])
  }

  /** What one character contributes, read in state `st`: itself, unless it
      is white space outside quotes. */
  function Emit(st: QState, ch: char): string {
    if Toggles(st, ch) || st.inside || !IsWs(ch) then [ch] else []
  }

  /** The characters of `x`, read from state `st`, that are quoted or are not
      white space, in order. */
  function Keep(st: QState, x: string): string
    decreases |x|
  {
    if x == [] then [] else Keep(st, x[..|x| - 1]) + Emit(Run(st, x[..|x| - 1]), x[|x| - 1])
  }

  lemma KeepSnoc(st: QState, x: string, ch: char)
    ensures Keep(st, x + [ch]) == Keep(st, x) + Emit(Run(st, x), ch)
  {
    assert (x + [ch])[..|x|] == x;
  }

  lemma {:induction false} KeepConcat(st: QState, x: string, y: string)
    ensures Keep(st, x + y) == Keep(st, x) + Keep(Run(st, x), y)
    decreases |y|
  {
    if y == [] {
      assert x + y == x;
    } else {
      var y' := y[..|y| - 1];
      var ch := y[|y| - 1];
      assert x + y == (x + y') + [ch];
      assert y == y' + [ch];
      KeepSnoc(st, x + y', ch);
      KeepConcat(st, x, y');
      RunConcat(st, x, y');
      KeepSnoc(Run(st, x), y', ch);
    }
  }

  /** White space read outside quotes contributes nothing. */
  lemma {:induction false} KeepWsOutside(st: QState, w: string)
    requires AllWs(w) && !st.inside
    ensures Keep(st, w) == []
    decreases |w|
  {
    if w != [] {
      var w' := w[..|w| - 1];
      KeepWsOutside(st, w');
      WsKeepsFlag(st, w');
    }
  }

  lemma {:induction false} CompactLoopKeeps(s: string, i: nat)
    requires i <= |s|
    ensures CompactLoop(s, i, StateAt(s, i).inside, Keep(Start, s[..i])) == Keep(Start, s)
    decreases |s| - i
  {
    if i == |s| {
      assert s[..i] == s;
    } else {
      var st := StateAt(s, i);
      StateAtNext(s, i);
      assert s[..i + 1] == s[..i] + [s[i]];
      KeepSnoc(Start, s[..i], s[i]);
      var next := Keep(Start, s[..i + 1]);
      CompactLoopKeeps(s, i + 1);
      if TogglesAt(s, i) {
        assert next == Keep(Start, s[..i]) + [s[i]];
        assert StateAt(s, i + 1).inside == !st.inside;
      } else if st.inside {
        assert next == Keep(Start, s[..i]) + [s[i]];
        assert StateAt(s, i + 1).inside == st.inside;
      } else if !IsWs(s[i]) {
        assert next == Keep(Start, s[..i]) + [s[i]];
        assert StateAt(s, i + 1).inside == st.inside;
      } else {
        assert next == Keep(Start, s[..i]);
        assert StateAt(s, i + 1).inside == st.inside;
      }
    }
  }

  /** The loop computes the reference filter: exactly the characters that
      are quoted or are not white space survive, in order. */
  lemma CompactIsKeep(s: string)
    ensures Compact(s) == Keep(Start, s)
  {
    CompactLoopKeeps(s, 0);
    assert s[..0] == [];
  }

  /** Compaction read one character at a time: character `n` is kept exactly
      when it lies inside a string literal or is not white space; every
      dropped character is unquoted white space. */
  lemma CompactStep(s: string, n: nat)
    requires n < |s|
    ensures Compact(s[..n + 1]) ==
      Compact(s[..n]) + (if Quoted(s, n) || !IsWs(s[n]) then [s[n]] else [])
  {
    CompactIsKeep(s[..n + 1]);
    CompactIsKeep(s[..n]);
    assert s[..n + 1] == s[..n] + [s[n]];
    KeepSnoc(Start, s[..n], s[n]);
    StateAtNext(s, n);
  }

  /** Compacting a prefix gives a prefix of the compacted whole. */
  lemma CompactPrefix(s: string, n: nat)
    requires n <= |s|
    ensures Compact(s[..n]) <= Compact(s)
  {
    CompactIsKeep(s[..n]);
    CompactIsKeep(s);
    assert s == s[..n] + s[n..];
    KeepConcat(Start, s[..n], s[n..]);
  }

  /** `a` is `b` with some characters left out. */
  predicate Subsequence(a: string, b: string)
    decreases |b|
  {
    if a == [] then true
    else if b == [] then false
    else if a[0] == b[0] then Subsequence(a[1..], b[1..])
    else Subsequence(a, b[1..])
  }

  lemma {:induction false} SubsequenceSnoc(a: string, b: string, ch: char)
    requires Subsequence(a, b)
    ensures Subsequence(a, b + [ch]) && Subsequence(a + [ch], b + [ch])
    decreases |b|
  {
    if a == [] {
      assert Subsequence([ch], [ch]) by {
        assert [ch][1..] == [];
      }
      assert (a + [ch]) == [ch];
      SubsequenceEmpty(b, ch);
    } else if a[0] == b[0] {
      SubsequenceSnoc(a[1..], b[1..], ch);
      assert (b + [ch])[1..] == b[1..] + [ch];
      assert (a + [ch])[1..] == a[1..] + [ch];
    } else {
      SubsequenceSnoc(a, b[1..], ch);
      assert (b + [ch])[1..] == b[1..] + [ch];
    }
  }

  lemma {:induction false} SubsequenceEmpty(b: string, ch: char)
    ensures Subsequence([ch], b + [ch])
    decreases |b|
  {
    if b == [] {
      assert b + [ch] == [ch];
      assert [ch][1..] == [];
    } else if b[0] == ch {
      assert (b + [ch])[0] == ch;
      assert [ch][1..] == [];
    } else {
      assert (b + [ch])[1..] == b[1..] + [ch];
      SubsequenceEmpty(b[1..], ch);
    }
  }

  /** The compacted text is the input with characters left out, never
      reordered or changed. */
  lemma {:induction false} CompactSubsequence(s: string)
    ensures Subsequence(Compact(s), s)
    decreases |s|
  {
    if s == [] {
    } else {
      var n := |s| - 1;
      assert s[..n + 1] == s;
      CompactSubsequence(s[..n]);
      CompactStep(s, n);
      assert s == s[..n] + [s[n]];
      SubsequenceSnoc(Compact(s[..n]), s[..n], s[n]);
      if Quoted(s, n) || !IsWs(s[n]) {
        assert Compact(s) == Compact(s[..n]) + [s[n]];
      } else {
        assert Compact(s) == Compact(s[..n]);
      }
    }
  }

  /** A stretch of quoted characters survives compaction verbatim and in one
      piece, its white space included. */
  lemma {:induction false} QuotedRunKept(s: string, a: nat, b: nat)
    requires a <= b <= |s|
    requires forall k :: a <= k < b ==> Quoted(s, k)
    ensures Compact(s[..b]) == Compact(s[..a]) + s[a..b]
    decreases b - a
  {
    if a < b {
      QuotedRunKept(s, a, b - 1);
      CompactStep(s, b - 1);
      assert s[..b - 1 + 1] == s[..b];
      assert s[a..b] == s[a..b - 1] + [s[b - 1]];
    }
  }

  /** Every white space character of `c` is inside a string literal. */
  predicate NoUnquotedWs(c: string) {
    forall j :: 0 <= j < |c| && IsWs(c[j]) ==> Quoted(c, j)
  }

  /** No backslash outside quotes, as the one-character look-back sees
      quotes, is directly followed by white space. Valid JSON can break this:
      once a string ends in an escaped backslash, the look-back takes its
      closing quote for an escaped one and the scan falls out of step with
      the JSON strings (`EscapedBackslashExample`). */
  predicate NoLooseBackslash(s: string) {
    forall k :: 0 <= k < |s| - 1 && s[k] == '\\' && !Quoted(s, k) ==> !IsWs(s[k + 1])
  }

  /** When no loose backslash is dropped against a quote, re-scanning the
      compacted text meets the same quote states as scanning the input: the
      compactor and the indenter agree on what is inside a string. */
  lemma {:induction false} CompactKeepsQuoteState(s: string, n: nat)
    requires n <= |s|
    requires NoLooseBackslash(s)
    ensures Run(Start, Compact(s[..n])) == StateAt(s, n)
    decreases n
  {
    if n == 0 {
      assert s[..0] == [];
      CompactIsKeep([]);
    } else {
      var m := n - 1;
      assert s[..m + 1] == s[..n];
      CompactKeepsQuoteState(s, m);
      CompactStep(s, m);
      StateAtNext(s, m);
      var st := StateAt(s, m);
      if Quoted(s, m) || !IsWs(s[m]) {
        RunSnoc(Start, Compact(s[..m]), s[m]);
      } else {
        assert !st.inside && !Toggles(st, s[m]);
        if m > 0 && s[m - 1] == '\\' {
          assert false;
        }
        assert !st.afterBackslash;
        assert s[m] != '\\';
        assert StateAt(s, n) == QState(false, false);
        assert Compact(s[..n]) == Compact(s[..m]);
      }
    }
  }

  /** Compaction leaves no white space outside quotes, judged by re-scanning
      its own output, provided no loose backslash gets glued to a quote. */
  lemma {:induction false} CompactNoUnquotedWs(s: string, n: nat)
    requires n <= |s|
    requires NoLooseBackslash(s)
    ensures NoUnquotedWs(Compact(s[..n]))
    decreases n
  {
    if n > 0 {
      var m := n - 1;
      var c := Compact(s[..n]);
      var c' := Compact(s[..m]);
      CompactNoUnquotedWs(s, m);
      CompactStep(s, m);
      assert s[..m + 1] == s[..n];
      forall j | 0 <= j < |c| && IsWs(c[j])
        ensures Quoted(c, j)
      {
        if j < |c'| {
          assert c[..j + 1] == c'[..j + 1];
          assert c'[j] == c[j];
          assert Quoted(c', j);
        } else {
          assert c[..j] == c';
          assert c[j] == s[m];
          CompactKeepsQuoteState(s, m);
          StateAtNext(c, j);
          StateAtNext(s, m);
        }
      }
    }
  }

  /** Text with no white space outside quotes is left as it is. */
  lemma {:induction false} CompactFixpoint(c: string, n: nat)
    requires n <= |c|
    requires NoUnquotedWs(c)
    ensures Compact(c[..n]) == c[..n]
    decreases n
  {
    if n == 0 {
      CompactIsKeep(c[..0]);
    } else {
      CompactFixpoint(c, n - 1);
      CompactStep(c, n - 1);
      assert c[..n] == c[..n - 1] + [c[n - 1]];
    }
  }

  /** Text with no white space at all is left as it is. */
  lemma CompactKeepsSolid(c: string)
    requires forall j :: 0 <= j < |c| ==> !IsWs(c[j])
    ensures Compact(c) == c
  {
    CompactFixpoint(c, |c|);
    assert c[..|c|] == c;
  }

  /** Compacting twice is compacting once, for input without loose
      backslashes. */
  lemma CompactIdempotent(s: string)
    requires NoLooseBackslash(s)
    ensures Compact(Compact(s)) == Compact(s)
  {
    assert s[..|s|] == s;
    CompactNoUnquotedWs(s, |s|);
    var c := Compact(s);
    CompactFixpoint(c, |c|);
    assert c[..|c|] == c;
  }

  /** A quoted stretch of the input reappears in the compacted text in one
      piece, and re-scanning the compacted text still sees it as quoted. */
  lemma QuotedRunStaysQuoted(s: string, a: nat, b: nat)
    requires a < b <= |s|
    requires NoLooseBackslash(s)
    requires forall k :: a <= k < b ==> Quoted(s, k)
    ensures var m := |Compact(s[..a])|;
      && m + (b - a) <= |Compact(s)|
      && Compact(s)[m..m + (b - a)] == s[a..b]
      && forall k :: m <= k < m + (b - a) ==> Quoted(Compact(s), k)
  {
    var c := Compact(s);
    var m := |Compact(s[..a])|;
    QuotedRunKept(s, a, b);
    CompactPrefix(s, b);
    assert c[m..m + (b - a)] == s[a..b];
    forall k | m <= k < m + (b - a)
      ensures Quoted(c, k)
    {
      var e := a + (k - m) + 1;
      QuotedRunKept(s, a, e);
      CompactPrefix(s, e);
      assert c[..k + 1] == Compact(s[..e]);
      CompactKeepsQuoteState(s, e);
      assert Quoted(s, e - 1);
      assert StateAt(c, k + 1) == StateAt(s, e);
    }
  }

  /** Without the proviso the two scans part ways: in `[\ " a"]` the
      compactor sees the `"` after the space as an opening quote and keeps
      ` a`, but once the space is gone the same `"` follows a backslash, so
      compacting again takes the quoted space out. */
  lemma LooseBackslashExample()
    ensures Compact("[\\ \" a\"]") == "[\\\" a\"]"
    ensures Compact(Compact("[\\ \" a\"]")) == "[\\\"a\"]"
    ensures !NoLooseBackslash("[\\ \" a\"]")
  {
    var x := "[\\ \" a\"]";
    assert StateAt(x, 2) == QState(false, true) by {
      StateAtNext(x, 0);
      StateAtNext(x, 1);
      assert x[..0] == [];
    }
    assert !Quoted(x, 1);
  }

  /** Valid JSON on which the one-character look-back goes wrong. In
      `["x\\", "\\ y"]` the quote that closes `"x\\"` follows a backslash,
      so the scan stays inside a string; the next quote, which opens
      `"\\ y"`, is read as a closing one. The space after the comma is then
      kept as quoted, and the space inside the second string is dropped as
      white space that follows a loose backslash. */
  lemma EscapedBackslashExample()
    ensures Compact("[\"x\\\\\", \"\\\\ y\"]") == "[\"x\\\\\", \"\\\\y\"]"
    ensures !NoLooseBackslash("[\"x\\\\\", \"\\\\ y\"]")
  {
    EscapedBackslashCompact("[\"x\\\\\", \"\\\\ y\"]");
    EscapedBackslashScan("[\"x\\\\\", \"\\\\ y\"]");
  }

  /** The compaction and the scan of `EscapedBackslashExample`, a few
      characters at a time. */
  lemma EscapedBackslashCompact(x: string)
    requires x == "[\"x\\\\\", \"\\\\ y\"]"
    ensures Compact(x) == "[\"x\\\\\", \"\\\\y\"]"
  {
    EscapedBackslashCompact1(x);
    EscapedBackslashCompact2(x);
    EscapedBackslashCompact3(x);
    assert |x| == 15;
  }

  lemma EscapedBackslashCompact1(x: string)
    requires x == "[\"x\\\\\", \"\\\\ y\"]"
    ensures CompactLoop(x, 0, false, "") == CompactLoop(x, 5, true, "[\"x\\\\")
  {
    assert CompactLoop(x, 0, false, "") == CompactLoop(x, 1, false, "[") by {
      assert x[0] == '[';
      assert "" + ['['] == "[";
    }
    assert CompactLoop(x, 1, false, "[") == CompactLoop(x, 2, true, "[\"") by {
      assert x[1] == '"';
      assert x[0] == '[';
      assert "[" + ['"'] == "[\"";
    }
    assert CompactLoop(x, 2, true, "[\"") == CompactLoop(x, 3, true, "[\"x") by {
      assert x[2] == 'x';
      assert x[1] == '"';
      assert "[\"" + ['x'] == "[\"x";
    }
    assert CompactLoop(x, 3, true, "[\"x") == CompactLoop(x, 4, true, "[\"x\\") by {
      assert x[3] == '\\';
      assert x[2] == 'x';
      assert "[\"x" + ['\\'] == "[\"x\\";
    }
    assert CompactLoop(x, 4, true, "[\"x\\") == CompactLoop(x, 5, true, "[\"x\\\\") by {
      assert x[4] == '\\';
      assert x[3] == '\\';
      assert "[\"x\\" + ['\\'] == "[\"x\\\\";
    }
  }

  lemma EscapedBackslashCompact2(x: string)
    requires x == "[\"x\\\\\", \"\\\\ y\"]"
    ensures CompactLoop(x, 5, true, "[\"x\\\\") == CompactLoop(x, 10, false, "[\"x\\\\\", \"\\")
  {
    assert CompactLoop(x, 5, true, "[\"x\\\\") == CompactLoop(x, 6, true, "[\"x\\\\\"") by {
      assert x[5] == '"';
      assert x[4] == '\\';
      assert "[\"x\\\\" + ['"'] == "[\"x\\\\\"";
    }
    assert CompactLoop(x, 6, true, "[\"x\\\\\"") == CompactLoop(x, 7, true, "[\"x\\\\\",") by {
      assert x[6] == ',';
      assert x[5] == '"';
      assert "[\"x\\\\\"" + [','] == "[\"x\\\\\",";
    }
    assert CompactLoop(x, 7, true, "[\"x\\\\\",") == CompactLoop(x, 8, true, "[\"x\\\\\", ") by {
      assert x[7] == ' ';
      assert x[6] == ',';
      assert "[\"x\\\\\"," + [' '] == "[\"x\\\\\", ";
    }
    assert CompactLoop(x, 8, true, "[\"x\\\\\", ") == CompactLoop(x, 9, false, "[\"x\\\\\", \"") by {
      assert x[8] == '"';
      assert x[7] == ' ';
      assert "[\"x\\\\\", " + ['"'] == "[\"x\\\\\", \"";
    }
    assert CompactLoop(x, 9, false, "[\"x\\\\\", \"") == CompactLoop(x, 10, false, "[\"x\\\\\", \"\\") by {
      assert x[9] == '\\';
      assert x[8] == '"';
      assert "[\"x\\\\\", \"" + ['\\'] == "[\"x\\\\\", \"\\";
    }
  }

  lemma EscapedBackslashCompact3(x: string)
    requires x == "[\"x\\\\\", \"\\\\ y\"]"
    ensures CompactLoop(x, 10, false, "[\"x\\\\\", \"\\") == CompactLoop(x, 15, true, "[\"x\\\\\", \"\\\\y\"]")
  {
    assert CompactLoop(x, 10, false, "[\"x\\\\\", \"\\") == CompactLoop(x, 11, false, "[\"x\\\\\", \"\\\\") by {
      assert x[10] == '\\';
      assert x[9] == '\\';
      assert "[\"x\\\\\", \"\\" + ['\\'] == "[\"x\\\\\", \"\\\\";
    }
    assert CompactLoop(x, 11, false, "[\"x\\\\\", \"\\\\") == CompactLoop(x, 12, false, "[\"x\\\\\", \"\\\\") by {
      assert x[11] == ' ';
      assert x[10] == '\\';
    }
    assert CompactLoop(x, 12, false, "[\"x\\\\\", \"\\\\") == CompactLoop(x, 13, false, "[\"x\\\\\", \"\\\\y") by {
      assert x[12] == 'y';
      assert x[11] == ' ';
      assert "[\"x\\\\\", \"\\\\" + ['y'] == "[\"x\\\\\", \"\\\\y";
    }
    assert CompactLoop(x, 13, false, "[\"x\\\\\", \"\\\\y") == CompactLoop(x, 14, true, "[\"x\\\\\", \"\\\\y\"") by {
      assert x[13] == '"';
      assert x[12] == 'y';
      assert "[\"x\\\\\", \"\\\\y" + ['"'] == "[\"x\\\\\", \"\\\\y\"";
    }
    assert CompactLoop(x, 14, true, "[\"x\\\\\", \"\\\\y\"") == CompactLoop(x, 15, true, "[\"x\\\\\", \"\\\\y\"]") by {
      assert x[14] == ']';
      assert x[13] == '"';
      assert "[\"x\\\\\", \"\\\\y\"" + [']'] == "[\"x\\\\\", \"\\\\y\"]";
    }
  }

  lemma EscapedBackslashScan(x: string)
    requires x == "[\"x\\\\\", \"\\\\ y\"]"
    ensures !NoLooseBackslash(x)
  {
    EscapedBackslashScan2(x);
    assert x[10] == '\\' && IsWs(x[11]) && !Quoted(x, 10);
  }

  lemma EscapedBackslashScan1(x: string)
    requires x == "[\"x\\\\\", \"\\\\ y\"]"
    ensures StateAt(x, 6) == QState(true, false)
  {
    assert x[..0] == [];
    StateAtNext(x, 0);
    assert StateAt(x, 1) == QState(false, false);
    StateAtNext(x, 1);
    assert StateAt(x, 2) == QState(true, false);
    StateAtNext(x, 2);
    assert StateAt(x, 3) == QState(true, false);
    StateAtNext(x, 3);
    assert StateAt(x, 4) == QState(true, true);
    StateAtNext(x, 4);
    assert StateAt(x, 5) == QState(true, true);
    StateAtNext(x, 5);
    assert StateAt(x, 6) == QState(true, false);
  }

  lemma EscapedBackslashScan2(x: string)
    requires x == "[\"x\\\\\", \"\\\\ y\"]"
    ensures StateAt(x, 11) == QState(false, true)
  {
    EscapedBackslashScan1(x);
    StateAtNext(x, 6);
    assert StateAt(x, 7) == QState(true, false);
    StateAtNext(x, 7);
    assert StateAt(x, 8) == QState(true, false);
    StateAtNext(x, 8);
    assert StateAt(x, 9) == QState(false, false);
    StateAtNext(x, 9);
    assert StateAt(x, 10) == QState(false, true);
    StateAtNext(x, 10);
    assert StateAt(x, 11) == QState(false, true);
  }
}

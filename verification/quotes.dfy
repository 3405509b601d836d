/** The quote tracking shared by the compactor and the indenter.

    Both loops keep a flag `insideQuotes` and flip it on a `"` whose
    previous character is not a backslash (one character of look-back, so
    an escaped backslash before a real quote, `\\"`, is taken for an
    escaped quote). This module states that rule once, as a left-to-right
    scan over a small state, which the other modules use as the reference
    for "this character is inside a string literal". */
module Quotes {
  import opened Text

  /** Where the scan stands: inside a double-quoted string or not, and
      whether the character just read is a backslash. */
  datatype QState = QState(inside: bool, afterBackslash: bool)

  /** Before the first character: outside quotes, nothing read. */
  const Start: QState := QState(false, false)

  /** A `"` flips the flag unless the character just read is a backslash. */
  predicate Toggles(st: QState, ch: char) {
    ch == '"' && !st.afterBackslash
  }

  function Step(st: QState, ch: char): QState {
    QState(if Toggles(st, ch) then !st.inside else st.inside, ch == '\\')
  }

  /** The state after reading all of `x`, starting from `st`. */
  function Run(st: QState, x: string): QState
    decreases |x|
  {
    if x == [] then st else Step(Run(st, x[..|x| - 1]), x[|x| - 1])
  }

  lemma RunSnoc(st: QState, x: string, ch: char)
    ensures Run(st, x + [ch]) == Step(Run(st, x), ch)
  {
    assert (x + [ch])[..|x|] == x;
  }

  /** Reading `x` then `y` is reading `x + y`. */
  lemma {:induction false} RunConcat(st: QState, x: string, y: string)
    ensures Run(st, x + y) == Run(Run(st, x), y)
    decreases |y|
  {
    if y == [] {
      assert x + y == x;
    } else {
      var y' := y[..|y| - 1];
      assert x + y == (x + y') + [y[|y| - 1]];
      RunSnoc(st, x + y', y[|y| - 1]);
      RunConcat(st, x, y');
      RunSnoc(Run(st, x), y', y[|y| - 1]);
      assert y == y' + [y[|y| - 1]];
    }
  }

  /** The scan state just before index `n` of `s`. */
  function StateAt(s: string, n: nat): QState
    requires n <= |s|
  {
    Run(Start, s[..n])
  }

  /** The test both loops of formatMarkdown apply at index `i`:
      `char === '"' && prevChar !== '\\'`, where `prevChar` is `s[i - 1]`
      and is `undefined` (so never a backslash) at index 0. */
  predicate TogglesAt(s: string, i: nat)
    requires i < |s|
  {
    s[i] == '"' && (i == 0 || s[i - 1] != '\\')
  }

  /** Character `k` of `s` lies inside a string literal: the scan is inside
      quotes once it has read it (an opening quote counts, a closing one does
      not). */
  predicate Quoted(s: string, k: nat)
    requires k < |s|
  {
    StateAt(s, k + 1).inside
  }

  /** The scan's backslash memory is exactly the source's look-back, and so
      the index test of the loops is exactly the scan's toggle rule. */
  lemma StateAtNext(s: string, i: nat)
    requires i < |s|
    ensures StateAt(s, i + 1) == Step(StateAt(s, i), s[i])
    ensures StateAt(s, i).afterBackslash <==> (i > 0 && s[i - 1] == '\\')
    ensures TogglesAt(s, i) <==> Toggles(StateAt(s, i), s[i])
  {
    assert s[..i + 1] == s[..i] + [s[i]];
    RunSnoc(Start, s[..i], s[i]);
    if i > 0 {
      assert s[..i] == s[..i - 1] + [s[i - 1]];
      RunSnoc(Start, s[..i - 1], s[i - 1]);
    }
  }

  /** White space never flips the flag, and after any white space the scan
      holds no backslash. */
  lemma {:induction false} WsKeepsFlag(st: QState, w: string)
    requires AllWs(w)
    ensures Run(st, w).inside == st.inside
    ensures w != [] ==> !Run(st, w).afterBackslash
    decreases |w|
  {
    if w != [] {
      WsKeepsFlag(st, w[..|w| - 1]);
    }
  }
}

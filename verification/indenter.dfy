/** Stage two of the JSON-like path: the compacted text is laid out again,
    one item per line, four spaces of indentation per nesting level, with
    the same quote tracking as the compactor so that nothing inside a string
    literal is ever touched. */
module Indenter {
  import opened Text
  import opened Quotes
  import opened Compactor
  import opened Outcome

  /** `'    '.repeat(n)`: four spaces per level. */
  function Pad(n: nat): (r: string)
    ensures |r| == 4 * n
    ensures forall i :: 0 <= i < |r| ==> r[i] == ' '
  {
    if n == 0 then [] else "    " + Pad(n - 1)
  }

  predicate IsOpener(ch: char) {
    ch == '{' || ch == '['
  }

  predicate IsCloser(ch: char) {
    ch == '}' || ch == ']'
  }

  /** The state the second loop threads through the characters: the text
      built so far (`result`), the indent level and the quote flag. */
  datatype IndentState = IndentState(out: string, level: nat, inside: bool)

  /** One pass of the second loop's body at index `i`: flip the quote flag
      on an unescaped `"`, then either copy the character (inside quotes) or
      apply the layout rules for `{ [`, `} ]`, `,` and `:`. A closer at level 0
      makes the count passed to `repeat` negative, which raises. */
  function IndentStep(c: string, i: nat, inside: bool, level: nat, acc: string): Result<IndentState>
    requires i < |c|
  {
    var ch := c[i];
    var q := if TogglesAt(c, i) then !inside else inside;
    if q then Ok(IndentState(acc + [ch], level, q))
    else if IsOpener(ch) then Ok(IndentState(acc + [ch] + "\n" + Pad(level + 1), level + 1, q))
    else if IsCloser(ch) then
      if level == 0 then Err(NegativeIndent)
      else
        var closed := TrimEnd(acc) + "\n" + Pad(level - 1) + [ch];
        if i + 1 < |c| && (c[i + 1] == ',' || c[i + 1] == '}' || c[i + 1] == ']') then
          Ok(IndentState(closed, level - 1, q))
        else if i < |c| - 1 then
          Ok(IndentState(closed + "\n" + Pad(level - 1), level - 1, q))
        else
          Ok(IndentState(closed, level - 1, q))
    else if ch == ',' then Ok(IndentState(acc + [ch] + "\n" + Pad(level), level, q))
    else if ch == ':' then Ok(IndentState(acc + [ch] + " ", level, q))
    else Ok(IndentState(acc + [ch], level, q))
  }

  /** What one step does: it fails exactly on a closer outside quotes at
      level 0; it flips the quote flag exactly on an unescaped `"`; it only
      ever appends to the trimmed text built so far; and a closer outside
      quotes that is followed by `,`, `}`, `]` or nothing ends the text. */
  lemma StepFacts(c: string, i: nat, inside: bool, level: nat, acc: string)
    requires i < |c|
    ensures var r := IndentStep(c, i, inside, level, acc);
      && (r.Err? <==> IsCloser(c[i]) && !inside && level == 0)
      && (r.Ok? ==> r.value.inside == (TogglesAt(c, i) != inside))
      && (r.Ok? ==> TrimEnd(acc) <= r.value.out)
      && (r.Ok? && IsCloser(c[i]) && !inside && (i + 1 == |c| || c[i + 1] in {',', '}', ']'})
        ==> r.value.out != [] && r.value.out[|r.value.out| - 1] == c[i])
  {
  }

  /** The second loop, from index `i` to the end. */
  function IndentLoop(c: string, i: nat, inside: bool, level: nat, acc: string): Result<IndentState>
    requires i <= |c|
    decreases |c| - i
  {
    if i == |c| then Ok(IndentState(acc, level, inside))
    else
      match IndentStep(c, i, inside, level, acc)
      case Err(e) => Err(e)
      case Ok(st) => IndentLoop(c, i + 1, st.inside, st.level, st.out)
  }

  function IndentScan(c: string): Result<IndentState> {
    IndentLoop(c, 0, false, 0, [])
  }

  /** The indented text, or the error the loop raises. */
  function Indent(c: string): Result<string> {
    match IndentScan(c)
    case Ok(st) => Ok(st.out)
    case Err(e) => Err(e)
  }

  // ---------------------------------------------------------------------
  // Nesting depth

  predicate OpensAt(c: string, k: nat)
    requires k < |c|
  {
    IsOpener(c[k]) && !Quoted(c, k)
  }

  predicate ClosesAt(c: string, k: nat)
    requires k < |c|
  {
    IsCloser(c[k]) && !Quoted(c, k)
  }

  /** Unquoted openers minus unquoted closers among the first `n` characters. */
  function Depth(c: string, n: nat): int
    requires n <= |c|
  {
    if n == 0 then 0
    else Depth(c, n - 1) + (if OpensAt(c, n - 1) then 1 else if ClosesAt(c, n - 1) then -1 else 0)
  }

  /** No prefix has more unquoted closers than unquoted openers. */
  predicate NeverNegative(c: string) {
    forall n :: 0 <= n <= |c| ==> Depth(c, n) >= 0
  }

  lemma {:induction false} IndentLoopDepth(c: string, i: nat, acc: string)
    requires i <= |c|
    requires forall n :: 0 <= n <= i ==> Depth(c, n) >= 0
    ensures var r := IndentLoop(c, i, StateAt(c, i).inside, Depth(c, i) as nat, acc);
      && (r.Ok? <==> forall n :: i <= n <= |c| ==> Depth(c, n) >= 0)
      && (r.Ok? ==> r.value.level == Depth(c, |c|) && r.value.inside == StateAt(c, |c|).inside)
    decreases |c| - i
  {
    if i < |c| {
      StateAtNext(c, i);
      var r := IndentStep(c, i, StateAt(c, i).inside, Depth(c, i) as nat, acc);
      if r.Ok? {
        assert Depth(c, i + 1) >= 0;
        assert r.value.level == Depth(c, i + 1);
        IndentLoopDepth(c, i + 1, r.value.out);
      } else {
        assert Depth(c, i + 1) < 0;
      }
    }
  }

  /** The indenter fails exactly when some prefix closes more brackets than
      it opens (outside quotes); otherwise its final level is the unquoted
      nesting depth of the whole text, so a balanced text ends at level 0. */
  lemma {:induction false} IndentSucceedsIff(c: string)
    ensures IndentScan(c).Ok? <==> NeverNegative(c)
    ensures IndentScan(c).Ok? ==> IndentScan(c).value.level == Depth(c, |c|)
    ensures NeverNegative(c) && Depth(c, |c|) == 0 ==> IndentScan(c).Ok? && IndentScan(c).value.level == 0
  {
    assert StateAt(c, 0) == Start by { assert c[..0] == []; }
    assert Depth(c, 0) == 0;
    IndentLoopDepth(c, 0, []);
    var r := IndentLoop(c, 0, StateAt(c, 0).inside, Depth(c, 0) as nat, []);
    assert IndentScan(c) == r;
    if r.Ok? {
      forall n | 0 <= n <= |c|
        ensures Depth(c, n) >= 0
      {
        assert 0 <= n <= |c|;
      }
    }
    if NeverNegative(c) {
      assert forall n :: 0 <= n <= |c| ==> Depth(c, n) >= 0;
    }
  }

  // ---------------------------------------------------------------------
  // Layout against the nesting depth

  /** What character `i` of `c` adds to the text laid out so far, stated
      through the quote scan and the nesting depth rather than the loop's
      own flag and counter. Outside quotes, an opener or a comma is followed
      by a newline and the indentation of the depth after it; a closer goes
      on a fresh line at the depth after it, with trailing white space taken
      off the text before, and is followed by a newline and that indentation
      unless `,`, `}`, `]` or the end comes next; a colon is followed by one
      space. Every other character, and every quoted one, is copied alone. */
  function Layout(c: string, i: nat, acc: string): string
    requires i < |c| && Depth(c, i + 1) >= 0
  {
    var ch := c[i];
    var pad := Pad(Depth(c, i + 1) as nat);
    if Quoted(c, i) then acc + [ch]
    else if IsOpener(ch) || ch == ',' then acc + [ch] + "\n" + pad
    else if IsCloser(ch) then
      TrimEnd(acc) + "\n" + pad + [ch]
        + (if i + 1 == |c| || c[i + 1] in {',', '}', ']'} then [] else "\n" + pad)
    else if ch == ':' then acc + [ch] + " "
    else acc + [ch]
  }

  /** The layout of the first `n` characters, one `Layout` step at a time. */
  function LaidOut(c: string, n: nat): string
    requires n <= |c| && NeverNegative(c)
  {
    if n == 0 then [] else Layout(c, n - 1, LaidOut(c, n - 1))
  }

  /** Run in the state the scan and the depth give for index `i`, a step
      succeeds exactly when the depth after it is not negative; it then
      moves to that depth and to the scan's next quote state, and writes
      `Layout`. */
  lemma StepLayout(c: string, i: nat, acc: string)
    requires i < |c| && Depth(c, i) >= 0
    ensures var r := IndentStep(c, i, StateAt(c, i).inside, Depth(c, i) as nat, acc);
      && (r.Ok? <==> Depth(c, i + 1) >= 0)
      && (r.Ok? ==> r.value == IndentState(Layout(c, i, acc), Depth(c, i + 1) as nat, Quoted(c, i)))
  {
    StateAtNext(c, i);
  }

  lemma {:induction false} IndentLoopLayout(c: string, i: nat)
    requires i <= |c| && NeverNegative(c)
    ensures Depth(c, i) >= 0
    ensures IndentLoop(c, i, StateAt(c, i).inside, Depth(c, i) as nat, LaidOut(c, i))
      == Ok(IndentState(LaidOut(c, |c|), Depth(c, |c|) as nat, StateAt(c, |c|).inside))
    decreases |c| - i
  {
    assert Depth(c, i) >= 0;
    if i < |c| {
      assert Depth(c, i + 1) >= 0;
      StepLayout(c, i, LaidOut(c, i));
      StateAtNext(c, i);
      IndentLoopLayout(c, i + 1);
    }
  }

  /** The indenter's whole output is the depth-driven layout of its input
      when no prefix closes more than it opens, and an error otherwise. */
  lemma IndentLayout(c: string)
    ensures NeverNegative(c) ==> Indent(c) == Ok(LaidOut(c, |c|))
    ensures !NeverNegative(c) ==> Indent(c).Err?
  {
    IndentSucceedsIff(c);
    if NeverNegative(c) {
      assert StateAt(c, 0) == Start by { assert c[..0] == []; }
      IndentLoopLayout(c, 0);
    }
  }

  // ---------------------------------------------------------------------
  // Only white space outside quotes is added or taken away

  /** Appending white space after text that ends outside quotes changes
      nothing the compactor keeps. */
  lemma AppendWsOutside(x: string, w: string)
    requires AllWs(w) && !Run(Start, x).inside
    ensures Keep(Start, x + w) == Keep(Start, x)
    ensures Run(Start, x + w) == (if w == [] then Run(Start, x) else QState(false, false))
  {
    KeepConcat(Start, x, w);
    RunConcat(Start, x, w);
    KeepWsOutside(Run(Start, x), w);
    WsKeepsFlag(Run(Start, x), w);
    if w == [] {
      assert x + w == x;
    }
  }

  lemma NewlinePadWs(n: nat)
    ensures AllWs("\n" + Pad(n)) && "\n" + Pad(n) != []
  {
    var p := Pad(n);
    assert forall i :: 0 < i < |"\n" + p| ==> ("\n" + p)[i] == p[i - 1];
  }

  /** `trimEnd` on text that ends outside quotes drops only what the
      compactor drops too. */
  lemma TrimEndOutside(acc: string)
    requires !Run(Start, acc).inside
    ensures !Run(Start, TrimEnd(acc)).inside
    ensures Keep(Start, TrimEnd(acc)) == Keep(Start, acc)
  {
    var p := TrimEnd(acc);
    var tail := acc[|p|..];
    assert acc == p + tail;
    TrimEndDrops(acc);
    assert AllWs(tail);
    RunConcat(Start, p, tail);
    WsKeepsFlag(Run(Start, p), tail);
    KeepConcat(Start, p, tail);
    KeepWsOutside(Run(Start, p), tail);
  }

  /** A character read outside quotes, then white space. */
  lemma KeepsCharThenWs(acc: string, ch: char, w: string)
    requires !Step(Run(Start, acc), ch).inside
    requires AllWs(w) && (w != [] ==> ch != '\\')
    ensures Run(Start, acc + [ch] + w) == Step(Run(Start, acc), ch)
    ensures Keep(Start, acc + [ch] + w) == Keep(Start, acc) + Emit(Run(Start, acc), ch)
  {
    RunSnoc(Start, acc, ch);
    KeepSnoc(Start, acc, ch);
    AppendWsOutside(acc + [ch], w);
  }

  lemma CloserOutside(ch: char)
    requires IsCloser(ch)
    ensures Step(QState(false, false), ch) == QState(false, false)
    ensures Emit(QState(false, false), ch) == [ch]
  {
  }

  /** A closer read outside quotes: trailing white space taken back, then
      white space, the closer, and possibly more white space. */
  lemma KeepsCloser(acc: string, ch: char, w1: string, w2: string)
    requires !Run(Start, acc).inside && IsCloser(ch)
    requires AllWs(w1) && w1 != [] && AllWs(w2)
    ensures Run(Start, TrimEnd(acc) + w1 + [ch] + w2) == QState(false, false)
    ensures Keep(Start, TrimEnd(acc) + w1 + [ch] + w2) == Keep(Start, acc) + [ch]
  {
    var p := TrimEnd(acc);
    TrimEndOutside(acc);
    AppendWsOutside(p, w1);
    var x := p + w1;
    assert Run(Start, x) == QState(false, false);
    CloserOutside(ch);
    KeepsCharThenWs(x, ch, w2);
  }

  /** One step of the indenter adds to what the compactor keeps exactly what
      the compactor keeps of the character read, and leaves the quote scan of
      the output in step with the quote scan of the input. */
  lemma {:induction false} StepKeeps(c: string, i: nat, level: nat, acc: string)
    requires i < |c|
    requires Run(Start, acc) == StateAt(c, i)
    requires IndentStep(c, i, StateAt(c, i).inside, level, acc).Ok?
    ensures var st := IndentStep(c, i, StateAt(c, i).inside, level, acc).value;
      && Run(Start, st.out) == StateAt(c, i + 1)
      && st.inside == StateAt(c, i + 1).inside
      && Keep(Start, st.out) == Keep(Start, acc) + Emit(StateAt(c, i), c[i])
  {
    StateAtNext(c, i);
    if StateAt(c, i + 1).inside {
      StepKeepsQuoted(c, i, level, acc);
    } else if IsCloser(c[i]) {
      StepKeepsCloser(c, i, level, acc);
    } else {
      StepKeepsPlain(c, i, level, acc);
    }
  }

  lemma {:induction false} StepKeepsQuoted(c: string, i: nat, level: nat, acc: string)
    requires i < |c|
    requires Run(Start, acc) == StateAt(c, i)
    requires StateAt(c, i + 1) == Step(StateAt(c, i), c[i]) && StateAt(c, i + 1).inside
    requires TogglesAt(c, i) <==> Toggles(StateAt(c, i), c[i])
    ensures var r := IndentStep(c, i, StateAt(c, i).inside, level, acc);
      && r.Ok?
      && Run(Start, r.value.out) == StateAt(c, i + 1)
      && r.value.inside == StateAt(c, i + 1).inside
      && Keep(Start, r.value.out) == Keep(Start, acc) + Emit(StateAt(c, i), c[i])
  {
    assert IndentStep(c, i, StateAt(c, i).inside, level, acc).value.out == acc + [c[i]];
    RunSnoc(Start, acc, c[i]);
    KeepSnoc(Start, acc, c[i]);
  }

  lemma {:induction false} StepKeepsCloser(c: string, i: nat, level: nat, acc: string)
    requires i < |c| && IsCloser(c[i])
    requires Run(Start, acc) == StateAt(c, i)
    requires StateAt(c, i + 1) == Step(StateAt(c, i), c[i]) && !StateAt(c, i + 1).inside
    requires IndentStep(c, i, StateAt(c, i).inside, level, acc).Ok?
    ensures var st := IndentStep(c, i, StateAt(c, i).inside, level, acc).value;
      && Run(Start, st.out) == StateAt(c, i + 1)
      && st.inside == StateAt(c, i + 1).inside
      && Keep(Start, st.out) == Keep(Start, acc) + Emit(StateAt(c, i), c[i])
  {
    var ch := c[i];
    var inside := StateAt(c, i).inside;
    assert !inside && !TogglesAt(c, i);
    var st := IndentStep(c, i, inside, level, acc).value;
    assert level > 0;
    NewlinePadWs(level - 1);
    var w1 := "\n" + Pad(level - 1);
    var closed := TrimEnd(acc) + "\n" + Pad(level - 1) + [ch];
    assert closed == TrimEnd(acc) + w1 + [ch];
    assert !IsWs(ch) && ch != '"' && ch != '\\';
    assert Emit(StateAt(c, i), ch) == [ch];
    assert StateAt(c, i + 1) == QState(false, false);
    assert st.inside == false;
    if (i + 1 < |c| && (c[i + 1] == ',' || c[i + 1] == '}' || c[i + 1] == ']')) || i == |c| - 1 {
      assert st.out == closed;
      assert st.out == TrimEnd(acc) + w1 + [ch] + [];
      KeepsCloser(acc, ch, w1, []);
    } else {
      assert st.out == closed + "\n" + Pad(level - 1);
      assert st.out == TrimEnd(acc) + w1 + [ch] + w1;
      KeepsCloser(acc, ch, w1, w1);
    }
  }

  lemma {:induction false} StepKeepsPlain(c: string, i: nat, level: nat, acc: string)
    requires i < |c| && !IsCloser(c[i])
    requires Run(Start, acc) == StateAt(c, i)
    requires StateAt(c, i + 1) == Step(StateAt(c, i), c[i]) && !StateAt(c, i + 1).inside
    requires TogglesAt(c, i) <==> Toggles(StateAt(c, i), c[i])
    ensures var r := IndentStep(c, i, StateAt(c, i).inside, level, acc);
      && r.Ok?
      && Run(Start, r.value.out) == StateAt(c, i + 1)
      && r.value.inside == StateAt(c, i + 1).inside
      && Keep(Start, r.value.out) == Keep(Start, acc) + Emit(StateAt(c, i), c[i])
  {
    var ch := c[i];
    var st := IndentStep(c, i, StateAt(c, i).inside, level, acc).value;
    if IsOpener(ch) {
      NewlinePadWs(level + 1);
      assert st.out == acc + [ch] + ("\n" + Pad(level + 1));
      KeepsCharThenWs(acc, ch, "\n" + Pad(level + 1));
    } else if ch == ',' {
      NewlinePadWs(level);
      assert st.out == acc + [ch] + ("\n" + Pad(level));
      KeepsCharThenWs(acc, ch, "\n" + Pad(level));
    } else if ch == ':' {
      assert st.out == acc + [ch] + " ";
      KeepsCharThenWs(acc, ch, " ");
    } else {
      assert st.out == acc + [ch] + [];
      KeepsCharThenWs(acc, ch, []);
    }
  }

  lemma KeepPrefixNext(c: string, i: nat)
    requires i < |c|
    ensures Keep(Start, c[..i + 1]) == Keep(Start, c[..i]) + Emit(StateAt(c, i), c[i])
  {
    assert c[..i + 1] == c[..i] + [c[i]];
    KeepSnoc(Start, c[..i], c[i]);
  }

  lemma {:induction false} IndentLoopKeeps(c: string, i: nat, level: nat, acc: string)
    requires i <= |c|
    requires Run(Start, acc) == StateAt(c, i)
    requires Keep(Start, acc) == Keep(Start, c[..i])
    requires IndentLoop(c, i, StateAt(c, i).inside, level, acc).Ok?
    ensures Keep(Start, IndentLoop(c, i, StateAt(c, i).inside, level, acc).value.out) == Keep(Start, c)
    decreases |c| - i
  {
    if i == |c| {
      assert c[..i] == c;
    } else {
      var st := IndentStep(c, i, StateAt(c, i).inside, level, acc).value;
      LoopStep(c, i, StateAt(c, i).inside, level, acc, st);
      StepKeeps(c, i, level, acc);
      KeepPrefixNext(c, i);
      IndentLoopKeeps(c, i + 1, st.level, st.out);
    }
  }

  /** Taking out the white space the indenter put in (what the compactor
      takes out) gives back the compacted input: the indenter only ever adds
      or trims white space outside quotes. */
  lemma IndentKeepsCompaction(c: string)
    requires Indent(c).Ok?
    ensures Compact(Indent(c).value) == Compact(c)
    ensures NoUnquotedWs(c) ==> Compact(Indent(c).value) == c
  {
    assert c[..0] == [];
    assert StateAt(c, 0) == Start;
    IndentLoopKeeps(c, 0, 0, []);
    CompactIsKeep(Indent(c).value);
    CompactIsKeep(c);
    if NoUnquotedWs(c) {
      CompactFixpoint(c, |c|);
      assert c[..|c|] == c;
    }
  }

  // ---------------------------------------------------------------------
  // Quoted text is copied verbatim

  /** The indenter only ever takes back trailing white space, so the
      trimmed text built so far is a prefix of the final output. */
  lemma {:induction false} IndentLoopStable(c: string, i: nat, inside: bool, level: nat, acc: string)
    requires i <= |c|
    requires IndentLoop(c, i, inside, level, acc).Ok?
    ensures TrimEnd(acc) <= IndentLoop(c, i, inside, level, acc).value.out
    decreases |c| - i
  {
    if i < |c| {
      var st := IndentStep(c, i, inside, level, acc).value;
      LoopStep(c, i, inside, level, acc, st);
      StepFacts(c, i, inside, level, acc);
      TrimmedSurvives(acc, st.out);
      IndentLoopStable(c, i + 1, st.inside, st.level, st.out);
      PrefixTrans(TrimEnd(acc), TrimEnd(st.out), IndentLoop(c, i + 1, st.inside, st.level, st.out).value.out);
    }
  }

  /** While inside quotes nothing is added or taken back, and the text built
      so far stays a prefix of the output. */
  lemma {:induction false} IndentFromInside(c: string, i: nat, level: nat, acc: string)
    requires i <= |c|
    requires IndentLoop(c, i, true, level, acc).Ok?
    ensures acc <= IndentLoop(c, i, true, level, acc).value.out
    decreases |c| - i
  {
    if i < |c| {
      var st := IndentStep(c, i, true, level, acc).value;
      if st.inside {
        assert st.out == acc + [c[i]];
        IndentFromInside(c, i + 1, level, st.out);
      } else {
        assert c[i] == '"';
        assert st.out == acc + ['"'];
        TrimEndFixed(st.out);
        IndentLoopStable(c, i + 1, st.inside, st.level, st.out);
      }
    }
  }

  lemma {:induction false} IndentRunVerbatim(c: string, i: nat, level: nat, acc: string, a: nat, b: nat, base: string)
    requires a <= i <= b <= |c| && a < b
    requires acc == base + c[a..i]
    requires forall k :: a <= k < b ==> Quoted(c, k)
    requires IndentLoop(c, i, StateAt(c, i).inside, level, acc).Ok?
    ensures base + c[a..b] <= IndentLoop(c, i, StateAt(c, i).inside, level, acc).value.out
    decreases b - i
  {
    if i == b {
      QuotedEnd(c, i, level, acc);
    } else {
      QuotedStep(c, i, level, acc);
      SnocSlice(base, c, a, i);
      IndentRunVerbatim(c, i + 1, level, acc + [c[i]], a, b, base);
    }
  }

  lemma SnocSlice(base: string, c: string, a: nat, i: nat)
    requires a <= i < |c|
    ensures base + c[a..i] + [c[i]] == base + c[a..i + 1]
  {
    assert c[a..i + 1] == c[a..i] + [c[i]];
  }

  /** Right after a quoted character the text built so far is kept. */
  lemma QuotedEnd(c: string, i: nat, level: nat, acc: string)
    requires 0 < i <= |c| && Quoted(c, i - 1)
    requires IndentLoop(c, i, StateAt(c, i).inside, level, acc).Ok?
    ensures acc <= IndentLoop(c, i, StateAt(c, i).inside, level, acc).value.out
  {
    IndentFromInside(c, i, level, acc);
  }

  /** A quoted character is copied and moves the loop on by one. */
  lemma QuotedStep(c: string, i: nat, level: nat, acc: string)
    requires i < |c| && Quoted(c, i)
    ensures IndentLoop(c, i, StateAt(c, i).inside, level, acc)
      == IndentLoop(c, i + 1, StateAt(c, i + 1).inside, level, acc + [c[i]])
  {
    StateAtNext(c, i);
    var st := IndentState(acc + [c[i]], level, true);
    assert IndentStep(c, i, StateAt(c, i).inside, level, acc) == Ok(st);
    LoopStep(c, i, StateAt(c, i).inside, level, acc, st);
  }

  lemma {:induction false} IndentReachesRun(c: string, i: nat, level: nat, acc: string, a: nat, b: nat)
    requires i <= a < b <= |c|
    requires forall k :: a <= k < b ==> Quoted(c, k)
    requires IndentLoop(c, i, StateAt(c, i).inside, level, acc).Ok?
    ensures Infix(c[a..b], IndentLoop(c, i, StateAt(c, i).inside, level, acc).value.out)
    decreases a - i
  {
    var out := IndentLoop(c, i, StateAt(c, i).inside, level, acc).value.out;
    if i == a {
      assert c[a..i] == [];
      IndentRunVerbatim(c, i, level, acc, a, b, acc);
      assert out[|acc|..|acc| + (b - a)] == c[a..b];
      InfixAt(c[a..b], out, |acc|);
    } else {
      StateAtNext(c, i);
      var st := IndentStep(c, i, StateAt(c, i).inside, level, acc).value;
      IndentReachesRun(c, i + 1, st.level, st.out, a, b);
    }
  }

  /** A stretch of quoted characters — string contents, white space
      included — appears in the indented output verbatim and in one piece. */
  lemma IndentKeepsQuotedRun(c: string, a: nat, b: nat)
    requires a < b <= |c|
    requires forall k :: a <= k < b ==> Quoted(c, k)
    requires Indent(c).Ok?
    ensures Infix(c[a..b], Indent(c).value)
  {
    assert StateAt(c, 0) == Start by { assert c[..0] == []; }
    IndentReachesRun(c, 0, 0, [], a, b);
  }

  // ---------------------------------------------------------------------
  // The last character

  lemma {:induction false} IndentLoopLast(c: string, i: nat, level: nat, acc: string)
    requires i < |c|
    requires ClosesAt(c, |c| - 1)
    requires IndentLoop(c, i, StateAt(c, i).inside, level, acc).Ok?
    ensures var out := IndentLoop(c, i, StateAt(c, i).inside, level, acc).value.out;
      out != [] && out[|out| - 1] == c[|c| - 1]
    decreases |c| - i
  {
    StateAtNext(c, i);
    var st := IndentStep(c, i, StateAt(c, i).inside, level, acc).value;
    if i + 1 < |c| {
      IndentLoopLast(c, i + 1, st.level, st.out);
    }
  }

  /** A text that ends with a closing bracket outside quotes yields output
      that ends with that bracket: no newline after the last character. */
  lemma IndentEndsWithCloser(c: string)
    requires c != [] && ClosesAt(c, |c| - 1)
    requires Indent(c).Ok?
    ensures Indent(c).value != [] && Indent(c).value[|Indent(c).value| - 1] == c[|c| - 1]
  {
    assert StateAt(c, 0) == Start by { assert c[..0] == []; }
    IndentLoopLast(c, 0, 0, []);
  }

  // ---------------------------------------------------------------------
  // Worked examples

  /** One turn of the loop. */
  lemma LoopStep(c: string, i: nat, inside: bool, level: nat, acc: string, st: IndentState)
    requires i < |c| && IndentStep(c, i, inside, level, acc) == Ok(st)
    ensures IndentLoop(c, i, inside, level, acc) == IndentLoop(c, i + 1, st.inside, st.level, st.out)
  {
  }

  lemma PadValues()
    ensures Pad(1) == "    " && Pad(2) == "        " && Pad(3) == "            "
    ensures Pad(4) == "                "
  {
  }

  /** The worked example of the layout rules: a closer followed by `,`, `}` or
      `]` adds no line break of its own, and the last character none at all. */
  lemma IndentExampleFlat(c: string)
    requires c == "{\"a\":1,\"b\":[1,2,3]}"
    ensures Indent(c) == Ok("{\n    \"a\": 1,\n    \"b\": [\n        1,\n        2,\n        3\n    ]\n}")
  {
    IndentExampleFlat1(c);
    IndentExampleFlat2(c);
    IndentExampleFlat3(c);
    IndentExampleFlat4(c);
    IndentExampleFlat5(c);
    IndentExampleFlat6(c);
    IndentExampleFlat7(c);
    IndentExampleFlat8(c);
    IndentExampleFlat9(c);
    IndentExampleFlat10(c);
    IndentExampleFlat11(c);
    IndentExampleFlat12(c);
    IndentExampleFlat13(c);
    IndentExampleFlat14(c);
    IndentExampleFlat15(c);
    IndentExampleFlat16(c);
    IndentExampleFlat17(c);
    IndentExampleFlat18(c);
    IndentExampleFlat19(c);
  }

  lemma IndentExampleFlat1(c: string)
    requires c == "{\"a\":1,\"b\":[1,2,3]}"
    ensures IndentLoop(c, 0, false, 0, "") == IndentLoop(c, 1, false, 1, "{\n    ")
  {
    IndentExampleFlatStep1(c);
    LoopStep(c, 0, false, 0, "", IndentState("{\n    ", 1, false));
  }

  lemma IndentExampleFlatStep1(c: string)
    requires c == "{\"a\":1,\"b\":[1,2,3]}"
    ensures IndentStep(c, 0, false, 0, "") == Ok(IndentState("{\n    ", 1, false))
  {
    PadValues();
    assert c[0] == '{';
    assert c[1] == '"';
    assert "" + ['{'] + "\n" + Pad(1) == "{\n    ";
  }

  lemma IndentExampleFlat2(c: string)
    requires c == "{\"a\":1,\"b\":[1,2,3]}"
    ensures IndentLoop(c, 1, false, 1, "{\n    ") == IndentLoop(c, 2, true, 1, "{\n    \"")
  {
    IndentExampleFlatStep2(c);
    LoopStep(c, 1, false, 1, "{\n    ", IndentState("{\n    \"", 1, true));
  }

  lemma IndentExampleFlatStep2(c: string)
    requires c == "{\"a\":1,\"b\":[1,2,3]}"
    ensures IndentStep(c, 1, false, 1, "{\n    ") == Ok(IndentState("{\n    \"", 1, true))
  {
    PadValues();
    assert c[1] == '"';
    assert c[0] == '{';
    assert c[2] == 'a';
    assert "{\n    " + ['"'] == "{\n    \"";
  }

  lemma IndentExampleFlat3(c: string)
    requires c == "{\"a\":1,\"b\":[1,2,3]}"
    ensures IndentLoop(c, 2, true, 1, "{\n    \"") == IndentLoop(c, 3, true, 1, "{\n    \"a")
  {
    IndentExampleFlatStep3(c);
    LoopStep(c, 2, true, 1, "{\n    \"", IndentState("{\n    \"a", 1, true));
  }

  lemma IndentExampleFlatStep3(c: string)
    requires c == "{\"a\":1,\"b\":[1,2,3]}"
    ensures IndentStep(c, 2, true, 1, "{\n    \"") == Ok(IndentState("{\n    \"a", 1, true))
  {
    PadValues();
    assert c[2] == 'a';
    assert c[1] == '"';
    assert c[3] == '"';
    assert "{\n    \"" + ['a'] == "{\n    \"a";
  }

  lemma IndentExampleFlat4(c: string)
    requires c == "{\"a\":1,\"b\":[1,2,3]}"
    ensures IndentLoop(c, 3, true, 1, "{\n    \"a") == IndentLoop(c, 4, false, 1, "{\n    \"a\"")
  {
    IndentExampleFlatStep4(c);
    LoopStep(c, 3, true, 1, "{\n    \"a", IndentState("{\n    \"a\"", 1, false));
  }

  lemma IndentExampleFlatStep4(c: string)
    requires c == "{\"a\":1,\"b\":[1,2,3]}"
    ensures IndentStep(c, 3, true, 1, "{\n    \"a") == Ok(IndentState("{\n    \"a\"", 1, false))
  {
    PadValues();
    assert c[3] == '"';
    assert c[2] == 'a';
    assert c[4] == ':';
    assert "{\n    \"a" + ['"'] == "{\n    \"a\"";
  }

  lemma IndentExampleFlat5(c: string)
    requires c == "{\"a\":1,\"b\":[1,2,3]}"
    ensures IndentLoop(c, 4, false, 1, "{\n    \"a\"") == IndentLoop(c, 5, false, 1, "{\n    \"a\": ")
  {
    IndentExampleFlatStep5(c);
    LoopStep(c, 4, false, 1, "{\n    \"a\"", IndentState("{\n    \"a\": ", 1, false));
  }

  lemma IndentExampleFlatStep5(c: string)
    requires c == "{\"a\":1,\"b\":[1,2,3]}"
    ensures IndentStep(c, 4, false, 1, "{\n    \"a\"") == Ok(IndentState("{\n    \"a\": ", 1, false))
  {
    PadValues();
    assert c[4] == ':';
    assert c[3] == '"';
    assert c[5] == '1';
    assert "{\n    \"a\"" + [':'] + " " == "{\n    \"a\": ";
  }

  lemma IndentExampleFlat6(c: string)
    requires c == "{\"a\":1,\"b\":[1,2,3]}"
    ensures IndentLoop(c, 5, false, 1, "{\n    \"a\": ") == IndentLoop(c, 6, false, 1, "{\n    \"a\": 1")
  {
    IndentExampleFlatStep6(c);
    LoopStep(c, 5, false, 1, "{\n    \"a\": ", IndentState("{\n    \"a\": 1", 1, false));
  }

  lemma IndentExampleFlatStep6(c: string)
    requires c == "{\"a\":1,\"b\":[1,2,3]}"
    ensures IndentStep(c, 5, false, 1, "{\n    \"a\": ") == Ok(IndentState("{\n    \"a\": 1", 1, false))
  {
    PadValues();
    assert c[5] == '1';
    assert c[4] == ':';
    assert c[6] == ',';
    assert "{\n    \"a\": " + ['1'] == "{\n    \"a\": 1";
  }

  lemma IndentExampleFlat7(c: string)
    requires c == "{\"a\":1,\"b\":[1,2,3]}"
    ensures IndentLoop(c, 6, false, 1, "{\n    \"a\": 1") == IndentLoop(c, 7, false, 1, "{\n    \"a\": 1,\n    ")
  {
    IndentExampleFlatStep7(c);
    LoopStep(c, 6, false, 1, "{\n    \"a\": 1", IndentState("{\n    \"a\": 1,\n    ", 1, false));
  }

  lemma IndentExampleFlatStep7(c: string)
    requires c == "{\"a\":1,\"b\":[1,2,3]}"
    ensures IndentStep(c, 6, false, 1, "{\n    \"a\": 1") == Ok(IndentState("{\n    \"a\": 1,\n    ", 1, false))
  {
    PadValues();
    assert c[6] == ',';
    assert c[5] == '1';
    assert c[7] == '"';
    assert "{\n    \"a\": 1" + [','] + "\n" + Pad(1) == "{\n    \"a\": 1,\n    ";
  }

  lemma IndentExampleFlat8(c: string)
    requires c == "{\"a\":1,\"b\":[1,2,3]}"
    ensures IndentLoop(c, 7, false, 1, "{\n    \"a\": 1,\n    ") == IndentLoop(c, 8, true, 1, "{\n    \"a\": 1,\n    \"")
  {
    IndentExampleFlatStep8(c);
    LoopStep(c, 7, false, 1, "{\n    \"a\": 1,\n    ", IndentState("{\n    \"a\": 1,\n    \"", 1, true));
  }

  lemma IndentExampleFlatStep8(c: string)
    requires c == "{\"a\":1,\"b\":[1,2,3]}"
    ensures IndentStep(c, 7, false, 1, "{\n    \"a\": 1,\n    ") == Ok(IndentState("{\n    \"a\": 1,\n    \"", 1, true))
  {
    PadValues();
    assert c[7] == '"';
    assert c[6] == ',';
    assert c[8] == 'b';
    assert "{\n    \"a\": 1,\n    " + ['"'] == "{\n    \"a\": 1,\n    \"";
  }

  lemma IndentExampleFlat9(c: string)
    requires c == "{\"a\":1,\"b\":[1,2,3]}"
    ensures IndentLoop(c, 8, true, 1, "{\n    \"a\": 1,\n    \"") == IndentLoop(c, 9, true, 1, "{\n    \"a\": 1,\n    \"b")
  {
    IndentExampleFlatStep9(c);
    LoopStep(c, 8, true, 1, "{\n    \"a\": 1,\n    \"", IndentState("{\n    \"a\": 1,\n    \"b", 1, true));
  }

  lemma IndentExampleFlatStep9(c: string)
    requires c == "{\"a\":1,\"b\":[1,2,3]}"
    ensures IndentStep(c, 8, true, 1, "{\n    \"a\": 1,\n    \"") == Ok(IndentState("{\n    \"a\": 1,\n    \"b", 1, true))
  {
    PadValues();
    assert c[8] == 'b';
    assert c[7] == '"';
    assert c[9] == '"';
    assert "{\n    \"a\": 1,\n    \"" + ['b'] == "{\n    \"a\": 1,\n    \"b";
  }

  lemma IndentExampleFlat10(c: string)
    requires c == "{\"a\":1,\"b\":[1,2,3]}"
    ensures IndentLoop(c, 9, true, 1, "{\n    \"a\": 1,\n    \"b") == IndentLoop(c, 10, false, 1, "{\n    \"a\": 1,\n    \"b\"")
  {
    IndentExampleFlatStep10(c);
    LoopStep(c, 9, true, 1, "{\n    \"a\": 1,\n    \"b", IndentState("{\n    \"a\": 1,\n    \"b\"", 1, false));
  }

  lemma IndentExampleFlatStep10(c: string)
    requires c == "{\"a\":1,\"b\":[1,2,3]}"
    ensures IndentStep(c, 9, true, 1, "{\n    \"a\": 1,\n    \"b") == Ok(IndentState("{\n    \"a\": 1,\n    \"b\"", 1, false))
  {
    PadValues();
    assert c[9] == '"';
    assert c[8] == 'b';
    assert c[10] == ':';
    assert "{\n    \"a\": 1,\n    \"b" + ['"'] == "{\n    \"a\": 1,\n    \"b\"";
  }

  lemma IndentExampleFlat11(c: string)
    requires c == "{\"a\":1,\"b\":[1,2,3]}"
    ensures IndentLoop(c, 10, false, 1, "{\n    \"a\": 1,\n    \"b\"") == IndentLoop(c, 11, false, 1, "{\n    \"a\": 1,\n    \"b\": ")
  {
    IndentExampleFlatStep11(c);
    LoopStep(c, 10, false, 1, "{\n    \"a\": 1,\n    \"b\"", IndentState("{\n    \"a\": 1,\n    \"b\": ", 1, false));
  }

  lemma IndentExampleFlatStep11(c: string)
    requires c == "{\"a\":1,\"b\":[1,2,3]}"
    ensures IndentStep(c, 10, false, 1, "{\n    \"a\": 1,\n    \"b\"") == Ok(IndentState("{\n    \"a\": 1,\n    \"b\": ", 1, false))
  {
    PadValues();
    assert c[10] == ':';
    assert c[9] == '"';
    assert c[11] == '[';
    assert "{\n    \"a\": 1,\n    \"b\"" + [':'] + " " == "{\n    \"a\": 1,\n    \"b\": ";
  }

  lemma IndentExampleFlat12(c: string)
    requires c == "{\"a\":1,\"b\":[1,2,3]}"
    ensures IndentLoop(c, 11, false, 1, "{\n    \"a\": 1,\n    \"b\": ") == IndentLoop(c, 12, false, 2, "{\n    \"a\": 1,\n    \"b\": [\n        ")
  {
    IndentExampleFlatStep12(c);
    LoopStep(c, 11, false, 1, "{\n    \"a\": 1,\n    \"b\": ", IndentState("{\n    \"a\": 1,\n    \"b\": [\n        ", 2, false));
  }

  lemma IndentExampleFlatStep12(c: string)
    requires c == "{\"a\":1,\"b\":[1,2,3]}"
    ensures IndentStep(c, 11, false, 1, "{\n    \"a\": 1,\n    \"b\": ") == Ok(IndentState("{\n    \"a\": 1,\n    \"b\": [\n        ", 2, false))
  {
    PadValues();
    assert c[11] == '[';
    assert c[10] == ':';
    assert c[12] == '1';
    assert "{\n    \"a\": 1,\n    \"b\": " + ['['] + "\n" + Pad(2) == "{\n    \"a\": 1,\n    \"b\": [\n        ";
  }

  lemma IndentExampleFlat13(c: string)
    requires c == "{\"a\":1,\"b\":[1,2,3]}"
    ensures IndentLoop(c, 12, false, 2, "{\n    \"a\": 1,\n    \"b\": [\n        ") == IndentLoop(c, 13, false, 2, "{\n    \"a\": 1,\n    \"b\": [\n        1")
  {
    IndentExampleFlatStep13(c);
    LoopStep(c, 12, false, 2, "{\n    \"a\": 1,\n    \"b\": [\n        ", IndentState("{\n    \"a\": 1,\n    \"b\": [\n        1", 2, false));
  }

  lemma IndentExampleFlatStep13(c: string)
    requires c == "{\"a\":1,\"b\":[1,2,3]}"
    ensures IndentStep(c, 12, false, 2, "{\n    \"a\": 1,\n    \"b\": [\n        ") == Ok(IndentState("{\n    \"a\": 1,\n    \"b\": [\n        1", 2, false))
  {
    PadValues();
    assert c[12] == '1';
    assert c[11] == '[';
    assert c[13] == ',';
    assert "{\n    \"a\": 1,\n    \"b\": [\n        " + ['1'] == "{\n    \"a\": 1,\n    \"b\": [\n        1";
  }

  lemma IndentExampleFlat14(c: string)
    requires c == "{\"a\":1,\"b\":[1,2,3]}"
    ensures IndentLoop(c, 13, false, 2, "{\n    \"a\": 1,\n    \"b\": [\n        1") == IndentLoop(c, 14, false, 2, "{\n    \"a\": 1,\n    \"b\": [\n        1,\n        ")
  {
    IndentExampleFlatStep14(c);
    LoopStep(c, 13, false, 2, "{\n    \"a\": 1,\n    \"b\": [\n        1", IndentState("{\n    \"a\": 1,\n    \"b\": [\n        1,\n        ", 2, false));
  }

  lemma IndentExampleFlatStep14(c: string)
    requires c == "{\"a\":1,\"b\":[1,2,3]}"
    ensures IndentStep(c, 13, false, 2, "{\n    \"a\": 1,\n    \"b\": [\n        1") == Ok(IndentState("{\n    \"a\": 1,\n    \"b\": [\n        1,\n        ", 2, false))
  {
    PadValues();
    assert c[13] == ',';
    assert c[12] == '1';
    assert c[14] == '2';
    assert "{\n    \"a\": 1,\n    \"b\": [\n        1" + [','] + "\n" + Pad(2) == "{\n    \"a\": 1,\n    \"b\": [\n        1,\n        ";
  }

  lemma IndentExampleFlat15(c: string)
    requires c == "{\"a\":1,\"b\":[1,2,3]}"
    ensures IndentLoop(c, 14, false, 2, "{\n    \"a\": 1,\n    \"b\": [\n        1,\n        ") == IndentLoop(c, 15, false, 2, "{\n    \"a\": 1,\n    \"b\": [\n        1,\n        2")
  {
    IndentExampleFlatStep15(c);
    LoopStep(c, 14, false, 2, "{\n    \"a\": 1,\n    \"b\": [\n        1,\n        ", IndentState("{\n    \"a\": 1,\n    \"b\": [\n        1,\n        2", 2, false));
  }

  lemma IndentExampleFlatStep15(c: string)
    requires c == "{\"a\":1,\"b\":[1,2,3]}"
    ensures IndentStep(c, 14, false, 2, "{\n    \"a\": 1,\n    \"b\": [\n        1,\n        ") == Ok(IndentState("{\n    \"a\": 1,\n    \"b\": [\n        1,\n        2", 2, false))
  {
    PadValues();
    assert c[14] == '2';
    assert c[13] == ',';
    assert c[15] == ',';
    assert "{\n    \"a\": 1,\n    \"b\": [\n        1,\n        " + ['2'] == "{\n    \"a\": 1,\n    \"b\": [\n        1,\n        2";
  }

  lemma IndentExampleFlat16(c: string)
    requires c == "{\"a\":1,\"b\":[1,2,3]}"
    ensures IndentLoop(c, 15, false, 2, "{\n    \"a\": 1,\n    \"b\": [\n        1,\n        2") == IndentLoop(c, 16, false, 2, "{\n    \"a\": 1,\n    \"b\": [\n        1,\n        2,\n        ")
  {
    IndentExampleFlatStep16(c);
    LoopStep(c, 15, false, 2, "{\n    \"a\": 1,\n    \"b\": [\n        1,\n        2", IndentState("{\n    \"a\": 1,\n    \"b\": [\n        1,\n        2,\n        ", 2, false));
  }

  lemma IndentExampleFlatStep16(c: string)
    requires c == "{\"a\":1,\"b\":[1,2,3]}"
    ensures IndentStep(c, 15, false, 2, "{\n    \"a\": 1,\n    \"b\": [\n        1,\n        2") == Ok(IndentState("{\n    \"a\": 1,\n    \"b\": [\n        1,\n        2,\n        ", 2, false))
  {
    PadValues();
    assert c[15] == ',';
    assert c[14] == '2';
    assert c[16] == '3';
    assert "{\n    \"a\": 1,\n    \"b\": [\n        1,\n        2" + [','] + "\n" + Pad(2) == "{\n    \"a\": 1,\n    \"b\": [\n        1,\n        2,\n        ";
  }

  lemma IndentExampleFlat17(c: string)
    requires c == "{\"a\":1,\"b\":[1,2,3]}"
    ensures IndentLoop(c, 16, false, 2, "{\n    \"a\": 1,\n    \"b\": [\n        1,\n        2,\n        ") == IndentLoop(c, 17, false, 2, "{\n    \"a\": 1,\n    \"b\": [\n        1,\n        2,\n        3")
  {
    IndentExampleFlatStep17(c);
    LoopStep(c, 16, false, 2, "{\n    \"a\": 1,\n    \"b\": [\n        1,\n        2,\n        ", IndentState("{\n    \"a\": 1,\n    \"b\": [\n        1,\n        2,\n        3", 2, false));
  }

  lemma IndentExampleFlatStep17(c: string)
    requires c == "{\"a\":1,\"b\":[1,2,3]}"
    ensures IndentStep(c, 16, false, 2, "{\n    \"a\": 1,\n    \"b\": [\n        1,\n        2,\n        ") == Ok(IndentState("{\n    \"a\": 1,\n    \"b\": [\n        1,\n        2,\n        3", 2, false))
  {
    PadValues();
    assert c[16] == '3';
    assert c[15] == ',';
    assert c[17] == ']';
    assert "{\n    \"a\": 1,\n    \"b\": [\n        1,\n        2,\n        " + ['3'] == "{\n    \"a\": 1,\n    \"b\": [\n        1,\n        2,\n        3";
  }

  lemma IndentExampleFlat18(c: string)
    requires c == "{\"a\":1,\"b\":[1,2,3]}"
    ensures IndentLoop(c, 17, false, 2, "{\n    \"a\": 1,\n    \"b\": [\n        1,\n        2,\n        3") == IndentLoop(c, 18, false, 1, "{\n    \"a\": 1,\n    \"b\": [\n        1,\n        2,\n        3\n    ]")
  {
    IndentExampleFlatStep18(c);
    LoopStep(c, 17, false, 2, "{\n    \"a\": 1,\n    \"b\": [\n        1,\n        2,\n        3", IndentState("{\n    \"a\": 1,\n    \"b\": [\n        1,\n        2,\n        3\n    ]", 1, false));
  }

  lemma IndentExampleFlatStep18(c: string)
    requires c == "{\"a\":1,\"b\":[1,2,3]}"
    ensures IndentStep(c, 17, false, 2, "{\n    \"a\": 1,\n    \"b\": [\n        1,\n        2,\n        3") == Ok(IndentState("{\n    \"a\": 1,\n    \"b\": [\n        1,\n        2,\n        3\n    ]", 1, false))
  {
    PadValues();
    assert c[17] == ']';
    assert c[16] == '3';
    assert c[18] == '}';
    TrimEndFixed("{\n    \"a\": 1,\n    \"b\": [\n        1,\n        2,\n        3");
    assert "{\n    \"a\": 1,\n    \"b\": [\n        1,\n        2,\n        3" + "\n" + Pad(1) + [']'] == "{\n    \"a\": 1,\n    \"b\": [\n        1,\n        2,\n        3\n    ]";
  }

  lemma IndentExampleFlat19(c: string)
    requires c == "{\"a\":1,\"b\":[1,2,3]}"
    ensures IndentLoop(c, 18, false, 1, "{\n    \"a\": 1,\n    \"b\": [\n        1,\n        2,\n        3\n    ]") == IndentLoop(c, 19, false, 0, "{\n    \"a\": 1,\n    \"b\": [\n        1,\n        2,\n        3\n    ]\n}")
  {
    IndentExampleFlatStep19(c);
    LoopStep(c, 18, false, 1, "{\n    \"a\": 1,\n    \"b\": [\n        1,\n        2,\n        3\n    ]", IndentState("{\n    \"a\": 1,\n    \"b\": [\n        1,\n        2,\n        3\n    ]\n}", 0, false));
  }

  lemma IndentExampleFlatStep19(c: string)
    requires c == "{\"a\":1,\"b\":[1,2,3]}"
    ensures IndentStep(c, 18, false, 1, "{\n    \"a\": 1,\n    \"b\": [\n        1,\n        2,\n        3\n    ]") == Ok(IndentState("{\n    \"a\": 1,\n    \"b\": [\n        1,\n        2,\n        3\n    ]\n}", 0, false))
  {
    PadValues();
    assert c[18] == '}';
    assert c[17] == ']';
    TrimEndFixed("{\n    \"a\": 1,\n    \"b\": [\n        1,\n        2,\n        3\n    ]");
    assert "{\n    \"a\": 1,\n    \"b\": [\n        1,\n        2,\n        3\n    ]" + "\n" + Pad(0) + ['}'] == "{\n    \"a\": 1,\n    \"b\": [\n        1,\n        2,\n        3\n    ]\n}";
  }

  /** The two spaces inside the string literal are copied as they are. */
  lemma IndentExampleQuotedSpaces(c: string)
    requires c == "{\"text\":\"a  b\"}"
    ensures Indent(c) == Ok("{\n    \"text\": \"a  b\"\n}")
  {
    IndentExampleQuotedSpaces1(c);
    IndentExampleQuotedSpaces2(c);
    IndentExampleQuotedSpaces3(c);
    IndentExampleQuotedSpaces4(c);
    IndentExampleQuotedSpaces5(c);
    IndentExampleQuotedSpaces6(c);
    IndentExampleQuotedSpaces7(c);
    IndentExampleQuotedSpaces8(c);
    IndentExampleQuotedSpaces9(c);
    IndentExampleQuotedSpaces10(c);
    IndentExampleQuotedSpaces11(c);
    IndentExampleQuotedSpaces12(c);
    IndentExampleQuotedSpaces13(c);
    IndentExampleQuotedSpaces14(c);
    IndentExampleQuotedSpaces15(c);
  }

  lemma IndentExampleQuotedSpaces1(c: string)
    requires c == "{\"text\":\"a  b\"}"
    ensures IndentLoop(c, 0, false, 0, "") == IndentLoop(c, 1, false, 1, "{\n    ")
  {
    IndentExampleQuotedSpacesStep1(c);
    LoopStep(c, 0, false, 0, "", IndentState("{\n    ", 1, false));
  }

  lemma IndentExampleQuotedSpacesStep1(c: string)
    requires c == "{\"text\":\"a  b\"}"
    ensures IndentStep(c, 0, false, 0, "") == Ok(IndentState("{\n    ", 1, false))
  {
    PadValues();
    assert c[0] == '{';
    assert c[1] == '"';
    assert "" + ['{'] + "\n" + Pad(1) == "{\n    ";
  }

  lemma IndentExampleQuotedSpaces2(c: string)
    requires c == "{\"text\":\"a  b\"}"
    ensures IndentLoop(c, 1, false, 1, "{\n    ") == IndentLoop(c, 2, true, 1, "{\n    \"")
  {
    IndentExampleQuotedSpacesStep2(c);
    LoopStep(c, 1, false, 1, "{\n    ", IndentState("{\n    \"", 1, true));
  }

  lemma IndentExampleQuotedSpacesStep2(c: string)
    requires c == "{\"text\":\"a  b\"}"
    ensures IndentStep(c, 1, false, 1, "{\n    ") == Ok(IndentState("{\n    \"", 1, true))
  {
    PadValues();
    assert c[1] == '"';
    assert c[0] == '{';
    assert c[2] == 't';
    assert "{\n    " + ['"'] == "{\n    \"";
  }

  lemma IndentExampleQuotedSpaces3(c: string)
    requires c == "{\"text\":\"a  b\"}"
    ensures IndentLoop(c, 2, true, 1, "{\n    \"") == IndentLoop(c, 3, true, 1, "{\n    \"t")
  {
    IndentExampleQuotedSpacesStep3(c);
    LoopStep(c, 2, true, 1, "{\n    \"", IndentState("{\n    \"t", 1, true));
  }

  lemma IndentExampleQuotedSpacesStep3(c: string)
    requires c == "{\"text\":\"a  b\"}"
    ensures IndentStep(c, 2, true, 1, "{\n    \"") == Ok(IndentState("{\n    \"t", 1, true))
  {
    PadValues();
    assert c[2] == 't';
    assert c[1] == '"';
    assert c[3] == 'e';
    assert "{\n    \"" + ['t'] == "{\n    \"t";
  }

  lemma IndentExampleQuotedSpaces4(c: string)
    requires c == "{\"text\":\"a  b\"}"
    ensures IndentLoop(c, 3, true, 1, "{\n    \"t") == IndentLoop(c, 4, true, 1, "{\n    \"te")
  {
    IndentExampleQuotedSpacesStep4(c);
    LoopStep(c, 3, true, 1, "{\n    \"t", IndentState("{\n    \"te", 1, true));
  }

  lemma IndentExampleQuotedSpacesStep4(c: string)
    requires c == "{\"text\":\"a  b\"}"
    ensures IndentStep(c, 3, true, 1, "{\n    \"t") == Ok(IndentState("{\n    \"te", 1, true))
  {
    PadValues();
    assert c[3] == 'e';
    assert c[2] == 't';
    assert c[4] == 'x';
    assert "{\n    \"t" + ['e'] == "{\n    \"te";
  }

  lemma IndentExampleQuotedSpaces5(c: string)
    requires c == "{\"text\":\"a  b\"}"
    ensures IndentLoop(c, 4, true, 1, "{\n    \"te") == IndentLoop(c, 5, true, 1, "{\n    \"tex")
  {
    IndentExampleQuotedSpacesStep5(c);
    LoopStep(c, 4, true, 1, "{\n    \"te", IndentState("{\n    \"tex", 1, true));
  }

  lemma IndentExampleQuotedSpacesStep5(c: string)
    requires c == "{\"text\":\"a  b\"}"
    ensures IndentStep(c, 4, true, 1, "{\n    \"te") == Ok(IndentState("{\n    \"tex", 1, true))
  {
    PadValues();
    assert c[4] == 'x';
    assert c[3] == 'e';
    assert c[5] == 't';
    assert "{\n    \"te" + ['x'] == "{\n    \"tex";
  }

  lemma IndentExampleQuotedSpaces6(c: string)
    requires c == "{\"text\":\"a  b\"}"
    ensures IndentLoop(c, 5, true, 1, "{\n    \"tex") == IndentLoop(c, 6, true, 1, "{\n    \"text")
  {
    IndentExampleQuotedSpacesStep6(c);
    LoopStep(c, 5, true, 1, "{\n    \"tex", IndentState("{\n    \"text", 1, true));
  }

  lemma IndentExampleQuotedSpacesStep6(c: string)
    requires c == "{\"text\":\"a  b\"}"
    ensures IndentStep(c, 5, true, 1, "{\n    \"tex") == Ok(IndentState("{\n    \"text", 1, true))
  {
    PadValues();
    assert c[5] == 't';
    assert c[4] == 'x';
    assert c[6] == '"';
    assert "{\n    \"tex" + ['t'] == "{\n    \"text";
  }

  lemma IndentExampleQuotedSpaces7(c: string)
    requires c == "{\"text\":\"a  b\"}"
    ensures IndentLoop(c, 6, true, 1, "{\n    \"text") == IndentLoop(c, 7, false, 1, "{\n    \"text\"")
  {
    IndentExampleQuotedSpacesStep7(c);
    LoopStep(c, 6, true, 1, "{\n    \"text", IndentState("{\n    \"text\"", 1, false));
  }

  lemma IndentExampleQuotedSpacesStep7(c: string)
    requires c == "{\"text\":\"a  b\"}"
    ensures IndentStep(c, 6, true, 1, "{\n    \"text") == Ok(IndentState("{\n    \"text\"", 1, false))
  {
    PadValues();
    assert c[6] == '"';
    assert c[5] == 't';
    assert c[7] == ':';
    assert "{\n    \"text" + ['"'] == "{\n    \"text\"";
  }

  lemma IndentExampleQuotedSpaces8(c: string)
    requires c == "{\"text\":\"a  b\"}"
    ensures IndentLoop(c, 7, false, 1, "{\n    \"text\"") == IndentLoop(c, 8, false, 1, "{\n    \"text\": ")
  {
    IndentExampleQuotedSpacesStep8(c);
    LoopStep(c, 7, false, 1, "{\n    \"text\"", IndentState("{\n    \"text\": ", 1, false));
  }

  lemma IndentExampleQuotedSpacesStep8(c: string)
    requires c == "{\"text\":\"a  b\"}"
    ensures IndentStep(c, 7, false, 1, "{\n    \"text\"") == Ok(IndentState("{\n    \"text\": ", 1, false))
  {
    PadValues();
    assert c[7] == ':';
    assert c[6] == '"';
    assert c[8] == '"';
    assert "{\n    \"text\"" + [':'] + " " == "{\n    \"text\": ";
  }

  lemma IndentExampleQuotedSpaces9(c: string)
    requires c == "{\"text\":\"a  b\"}"
    ensures IndentLoop(c, 8, false, 1, "{\n    \"text\": ") == IndentLoop(c, 9, true, 1, "{\n    \"text\": \"")
  {
    IndentExampleQuotedSpacesStep9(c);
    LoopStep(c, 8, false, 1, "{\n    \"text\": ", IndentState("{\n    \"text\": \"", 1, true));
  }

  lemma IndentExampleQuotedSpacesStep9(c: string)
    requires c == "{\"text\":\"a  b\"}"
    ensures IndentStep(c, 8, false, 1, "{\n    \"text\": ") == Ok(IndentState("{\n    \"text\": \"", 1, true))
  {
    PadValues();
    assert c[8] == '"';
    assert c[7] == ':';
    assert c[9] == 'a';
    assert "{\n    \"text\": " + ['"'] == "{\n    \"text\": \"";
  }

  lemma IndentExampleQuotedSpaces10(c: string)
    requires c == "{\"text\":\"a  b\"}"
    ensures IndentLoop(c, 9, true, 1, "{\n    \"text\": \"") == IndentLoop(c, 10, true, 1, "{\n    \"text\": \"a")
  {
    IndentExampleQuotedSpacesStep10(c);
    LoopStep(c, 9, true, 1, "{\n    \"text\": \"", IndentState("{\n    \"text\": \"a", 1, true));
  }

  lemma IndentExampleQuotedSpacesStep10(c: string)
    requires c == "{\"text\":\"a  b\"}"
    ensures IndentStep(c, 9, true, 1, "{\n    \"text\": \"") == Ok(IndentState("{\n    \"text\": \"a", 1, true))
  {
    PadValues();
    assert c[9] == 'a';
    assert c[8] == '"';
    assert c[10] == ' ';
    assert "{\n    \"text\": \"" + ['a'] == "{\n    \"text\": \"a";
  }

  lemma IndentExampleQuotedSpaces11(c: string)
    requires c == "{\"text\":\"a  b\"}"
    ensures IndentLoop(c, 10, true, 1, "{\n    \"text\": \"a") == IndentLoop(c, 11, true, 1, "{\n    \"text\": \"a ")
  {
    IndentExampleQuotedSpacesStep11(c);
    LoopStep(c, 10, true, 1, "{\n    \"text\": \"a", IndentState("{\n    \"text\": \"a ", 1, true));
  }

  lemma IndentExampleQuotedSpacesStep11(c: string)
    requires c == "{\"text\":\"a  b\"}"
    ensures IndentStep(c, 10, true, 1, "{\n    \"text\": \"a") == Ok(IndentState("{\n    \"text\": \"a ", 1, true))
  {
    PadValues();
    assert c[10] == ' ';
    assert c[9] == 'a';
    assert c[11] == ' ';
    assert "{\n    \"text\": \"a" + [' '] == "{\n    \"text\": \"a ";
  }

  lemma IndentExampleQuotedSpaces12(c: string)
    requires c == "{\"text\":\"a  b\"}"
    ensures IndentLoop(c, 11, true, 1, "{\n    \"text\": \"a ") == IndentLoop(c, 12, true, 1, "{\n    \"text\": \"a  ")
  {
    IndentExampleQuotedSpacesStep12(c);
    LoopStep(c, 11, true, 1, "{\n    \"text\": \"a ", IndentState("{\n    \"text\": \"a  ", 1, true));
  }

  lemma IndentExampleQuotedSpacesStep12(c: string)
    requires c == "{\"text\":\"a  b\"}"
    ensures IndentStep(c, 11, true, 1, "{\n    \"text\": \"a ") == Ok(IndentState("{\n    \"text\": \"a  ", 1, true))
  {
    PadValues();
    assert c[11] == ' ';
    assert c[10] == ' ';
    assert c[12] == 'b';
    assert "{\n    \"text\": \"a " + [' '] == "{\n    \"text\": \"a  ";
  }

  lemma IndentExampleQuotedSpaces13(c: string)
    requires c == "{\"text\":\"a  b\"}"
    ensures IndentLoop(c, 12, true, 1, "{\n    \"text\": \"a  ") == IndentLoop(c, 13, true, 1, "{\n    \"text\": \"a  b")
  {
    IndentExampleQuotedSpacesStep13(c);
    LoopStep(c, 12, true, 1, "{\n    \"text\": \"a  ", IndentState("{\n    \"text\": \"a  b", 1, true));
  }

  lemma IndentExampleQuotedSpacesStep13(c: string)
    requires c == "{\"text\":\"a  b\"}"
    ensures IndentStep(c, 12, true, 1, "{\n    \"text\": \"a  ") == Ok(IndentState("{\n    \"text\": \"a  b", 1, true))
  {
    PadValues();
    assert c[12] == 'b';
    assert c[11] == ' ';
    assert c[13] == '"';
    assert "{\n    \"text\": \"a  " + ['b'] == "{\n    \"text\": \"a  b";
  }

  lemma IndentExampleQuotedSpaces14(c: string)
    requires c == "{\"text\":\"a  b\"}"
    ensures IndentLoop(c, 13, true, 1, "{\n    \"text\": \"a  b") == IndentLoop(c, 14, false, 1, "{\n    \"text\": \"a  b\"")
  {
    IndentExampleQuotedSpacesStep14(c);
    LoopStep(c, 13, true, 1, "{\n    \"text\": \"a  b", IndentState("{\n    \"text\": \"a  b\"", 1, false));
  }

  lemma IndentExampleQuotedSpacesStep14(c: string)
    requires c == "{\"text\":\"a  b\"}"
    ensures IndentStep(c, 13, true, 1, "{\n    \"text\": \"a  b") == Ok(IndentState("{\n    \"text\": \"a  b\"", 1, false))
  {
    PadValues();
    assert c[13] == '"';
    assert c[12] == 'b';
    assert c[14] == '}';
    assert "{\n    \"text\": \"a  b" + ['"'] == "{\n    \"text\": \"a  b\"";
  }

  lemma IndentExampleQuotedSpaces15(c: string)
    requires c == "{\"text\":\"a  b\"}"
    ensures IndentLoop(c, 14, false, 1, "{\n    \"text\": \"a  b\"") == IndentLoop(c, 15, false, 0, "{\n    \"text\": \"a  b\"\n}")
  {
    IndentExampleQuotedSpacesStep15(c);
    LoopStep(c, 14, false, 1, "{\n    \"text\": \"a  b\"", IndentState("{\n    \"text\": \"a  b\"\n}", 0, false));
  }

  lemma IndentExampleQuotedSpacesStep15(c: string)
    requires c == "{\"text\":\"a  b\"}"
    ensures IndentStep(c, 14, false, 1, "{\n    \"text\": \"a  b\"") == Ok(IndentState("{\n    \"text\": \"a  b\"\n}", 0, false))
  {
    PadValues();
    assert c[14] == '}';
    assert c[13] == '"';
    TrimEndFixed("{\n    \"text\": \"a  b\"");
    assert "{\n    \"text\": \"a  b\"" + "\n" + Pad(0) + ['}'] == "{\n    \"text\": \"a  b\"\n}";
  }

  /** Nested arrays and objects: one more level of four spaces per opener, and
      runs of closers each on their own line. */
  lemma IndentExampleNested(c: string)
    requires c == "[{\"x\":[1]}]"
    ensures Indent(c) == Ok("[\n    {\n        \"x\": [\n            1\n        ]\n    }\n]")
  {
    IndentExampleNested1(c);
    IndentExampleNested2(c);
    IndentExampleNested3(c);
    IndentExampleNested4(c);
    IndentExampleNested5(c);
    IndentExampleNested6(c);
    IndentExampleNested7(c);
    IndentExampleNested8(c);
    IndentExampleNested9(c);
    IndentExampleNested10(c);
    IndentExampleNested11(c);
  }

  lemma IndentExampleNested1(c: string)
    requires c == "[{\"x\":[1]}]"
    ensures IndentLoop(c, 0, false, 0, "") == IndentLoop(c, 1, false, 1, "[\n    ")
  {
    IndentExampleNestedStep1(c);
    LoopStep(c, 0, false, 0, "", IndentState("[\n    ", 1, false));
  }

  lemma IndentExampleNestedStep1(c: string)
    requires c == "[{\"x\":[1]}]"
    ensures IndentStep(c, 0, false, 0, "") == Ok(IndentState("[\n    ", 1, false))
  {
    PadValues();
    assert c[0] == '[';
    assert c[1] == '{';
    assert "" + ['['] + "\n" + Pad(1) == "[\n    ";
  }

  lemma IndentExampleNested2(c: string)
    requires c == "[{\"x\":[1]}]"
    ensures IndentLoop(c, 1, false, 1, "[\n    ") == IndentLoop(c, 2, false, 2, "[\n    {\n        ")
  {
    IndentExampleNestedStep2(c);
    LoopStep(c, 1, false, 1, "[\n    ", IndentState("[\n    {\n        ", 2, false));
  }

  lemma IndentExampleNestedStep2(c: string)
    requires c == "[{\"x\":[1]}]"
    ensures IndentStep(c, 1, false, 1, "[\n    ") == Ok(IndentState("[\n    {\n        ", 2, false))
  {
    PadValues();
    assert c[1] == '{';
    assert c[0] == '[';
    assert c[2] == '"';
    assert "[\n    " + ['{'] + "\n" + Pad(2) == "[\n    {\n        ";
  }

  lemma IndentExampleNested3(c: string)
    requires c == "[{\"x\":[1]}]"
    ensures IndentLoop(c, 2, false, 2, "[\n    {\n        ") == IndentLoop(c, 3, true, 2, "[\n    {\n        \"")
  {
    IndentExampleNestedStep3(c);
    LoopStep(c, 2, false, 2, "[\n    {\n        ", IndentState("[\n    {\n        \"", 2, true));
  }

  lemma IndentExampleNestedStep3(c: string)
    requires c == "[{\"x\":[1]}]"
    ensures IndentStep(c, 2, false, 2, "[\n    {\n        ") == Ok(IndentState("[\n    {\n        \"", 2, true))
  {
    PadValues();
    assert c[2] == '"';
    assert c[1] == '{';
    assert c[3] == 'x';
    assert "[\n    {\n        " + ['"'] == "[\n    {\n        \"";
  }

  lemma IndentExampleNested4(c: string)
    requires c == "[{\"x\":[1]}]"
    ensures IndentLoop(c, 3, true, 2, "[\n    {\n        \"") == IndentLoop(c, 4, true, 2, "[\n    {\n        \"x")
  {
    IndentExampleNestedStep4(c);
    LoopStep(c, 3, true, 2, "[\n    {\n        \"", IndentState("[\n    {\n        \"x", 2, true));
  }

  lemma IndentExampleNestedStep4(c: string)
    requires c == "[{\"x\":[1]}]"
    ensures IndentStep(c, 3, true, 2, "[\n    {\n        \"") == Ok(IndentState("[\n    {\n        \"x", 2, true))
  {
    PadValues();
    assert c[3] == 'x';
    assert c[2] == '"';
    assert c[4] == '"';
    assert "[\n    {\n        \"" + ['x'] == "[\n    {\n        \"x";
  }

  lemma IndentExampleNested5(c: string)
    requires c == "[{\"x\":[1]}]"
    ensures IndentLoop(c, 4, true, 2, "[\n    {\n        \"x") == IndentLoop(c, 5, false, 2, "[\n    {\n        \"x\"")
  {
    IndentExampleNestedStep5(c);
    LoopStep(c, 4, true, 2, "[\n    {\n        \"x", IndentState("[\n    {\n        \"x\"", 2, false));
  }

  lemma IndentExampleNestedStep5(c: string)
    requires c == "[{\"x\":[1]}]"
    ensures IndentStep(c, 4, true, 2, "[\n    {\n        \"x") == Ok(IndentState("[\n    {\n        \"x\"", 2, false))
  {
    PadValues();
    assert c[4] == '"';
    assert c[3] == 'x';
    assert c[5] == ':';
    assert "[\n    {\n        \"x" + ['"'] == "[\n    {\n        \"x\"";
  }

  lemma IndentExampleNested6(c: string)
    requires c == "[{\"x\":[1]}]"
    ensures IndentLoop(c, 5, false, 2, "[\n    {\n        \"x\"") == IndentLoop(c, 6, false, 2, "[\n    {\n        \"x\": ")
  {
    IndentExampleNestedStep6(c);
    LoopStep(c, 5, false, 2, "[\n    {\n        \"x\"", IndentState("[\n    {\n        \"x\": ", 2, false));
  }

  lemma IndentExampleNestedStep6(c: string)
    requires c == "[{\"x\":[1]}]"
    ensures IndentStep(c, 5, false, 2, "[\n    {\n        \"x\"") == Ok(IndentState("[\n    {\n        \"x\": ", 2, false))
  {
    PadValues();
    assert c[5] == ':';
    assert c[4] == '"';
    assert c[6] == '[';
    assert "[\n    {\n        \"x\"" + [':'] + " " == "[\n    {\n        \"x\": ";
  }

  lemma IndentExampleNested7(c: string)
    requires c == "[{\"x\":[1]}]"
    ensures IndentLoop(c, 6, false, 2, "[\n    {\n        \"x\": ") == IndentLoop(c, 7, false, 3, "[\n    {\n        \"x\": [\n            ")
  {
    IndentExampleNestedStep7(c);
    LoopStep(c, 6, false, 2, "[\n    {\n        \"x\": ", IndentState("[\n    {\n        \"x\": [\n            ", 3, false));
  }

  lemma IndentExampleNestedStep7(c: string)
    requires c == "[{\"x\":[1]}]"
    ensures IndentStep(c, 6, false, 2, "[\n    {\n        \"x\": ") == Ok(IndentState("[\n    {\n        \"x\": [\n            ", 3, false))
  {
    PadValues();
    assert c[6] == '[';
    assert c[5] == ':';
    assert c[7] == '1';
    assert "[\n    {\n        \"x\": " + ['['] + "\n" + Pad(3) == "[\n    {\n        \"x\": [\n            ";
  }

  lemma IndentExampleNested8(c: string)
    requires c == "[{\"x\":[1]}]"
    ensures IndentLoop(c, 7, false, 3, "[\n    {\n        \"x\": [\n            ") == IndentLoop(c, 8, false, 3, "[\n    {\n        \"x\": [\n            1")
  {
    IndentExampleNestedStep8(c);
    LoopStep(c, 7, false, 3, "[\n    {\n        \"x\": [\n            ", IndentState("[\n    {\n        \"x\": [\n            1", 3, false));
  }

  lemma IndentExampleNestedStep8(c: string)
    requires c == "[{\"x\":[1]}]"
    ensures IndentStep(c, 7, false, 3, "[\n    {\n        \"x\": [\n            ") == Ok(IndentState("[\n    {\n        \"x\": [\n            1", 3, false))
  {
    PadValues();
    assert c[7] == '1';
    assert c[6] == '[';
    assert c[8] == ']';
    assert "[\n    {\n        \"x\": [\n            " + ['1'] == "[\n    {\n        \"x\": [\n            1";
  }

  lemma IndentExampleNested9(c: string)
    requires c == "[{\"x\":[1]}]"
    ensures IndentLoop(c, 8, false, 3, "[\n    {\n        \"x\": [\n            1") == IndentLoop(c, 9, false, 2, "[\n    {\n        \"x\": [\n            1\n        ]")
  {
    IndentExampleNestedStep9(c);
    LoopStep(c, 8, false, 3, "[\n    {\n        \"x\": [\n            1", IndentState("[\n    {\n        \"x\": [\n            1\n        ]", 2, false));
  }

  lemma IndentExampleNestedStep9(c: string)
    requires c == "[{\"x\":[1]}]"
    ensures IndentStep(c, 8, false, 3, "[\n    {\n        \"x\": [\n            1") == Ok(IndentState("[\n    {\n        \"x\": [\n            1\n        ]", 2, false))
  {
    PadValues();
    assert c[8] == ']';
    assert c[7] == '1';
    assert c[9] == '}';
    TrimEndFixed("[\n    {\n        \"x\": [\n            1");
    assert "[\n    {\n        \"x\": [\n            1" + "\n" + Pad(2) + [']'] == "[\n    {\n        \"x\": [\n            1\n        ]";
  }

  lemma IndentExampleNested10(c: string)
    requires c == "[{\"x\":[1]}]"
    ensures IndentLoop(c, 9, false, 2, "[\n    {\n        \"x\": [\n            1\n        ]") == IndentLoop(c, 10, false, 1, "[\n    {\n        \"x\": [\n            1\n        ]\n    }")
  {
    IndentExampleNestedStep10(c);
    LoopStep(c, 9, false, 2, "[\n    {\n        \"x\": [\n            1\n        ]", IndentState("[\n    {\n        \"x\": [\n            1\n        ]\n    }", 1, false));
  }

  lemma IndentExampleNestedStep10(c: string)
    requires c == "[{\"x\":[1]}]"
    ensures IndentStep(c, 9, false, 2, "[\n    {\n        \"x\": [\n            1\n        ]") == Ok(IndentState("[\n    {\n        \"x\": [\n            1\n        ]\n    }", 1, false))
  {
    PadValues();
    assert c[9] == '}';
    assert c[8] == ']';
    assert c[10] == ']';
    TrimEndFixed("[\n    {\n        \"x\": [\n            1\n        ]");
    assert "[\n    {\n        \"x\": [\n            1\n        ]" + "\n" + Pad(1) + ['}'] == "[\n    {\n        \"x\": [\n            1\n        ]\n    }";
  }

  lemma IndentExampleNested11(c: string)
    requires c == "[{\"x\":[1]}]"
    ensures IndentLoop(c, 10, false, 1, "[\n    {\n        \"x\": [\n            1\n        ]\n    }") == IndentLoop(c, 11, false, 0, "[\n    {\n        \"x\": [\n            1\n        ]\n    }\n]")
  {
    IndentExampleNestedStep11(c);
    LoopStep(c, 10, false, 1, "[\n    {\n        \"x\": [\n            1\n        ]\n    }", IndentState("[\n    {\n        \"x\": [\n            1\n        ]\n    }\n]", 0, false));
  }

  lemma IndentExampleNestedStep11(c: string)
    requires c == "[{\"x\":[1]}]"
    ensures IndentStep(c, 10, false, 1, "[\n    {\n        \"x\": [\n            1\n        ]\n    }") == Ok(IndentState("[\n    {\n        \"x\": [\n            1\n        ]\n    }\n]", 0, false))
  {
    PadValues();
    assert c[10] == ']';
    assert c[9] == '}';
    TrimEndFixed("[\n    {\n        \"x\": [\n            1\n        ]\n    }");
    assert "[\n    {\n        \"x\": [\n            1\n        ]\n    }" + "\n" + Pad(0) + [']'] == "[\n    {\n        \"x\": [\n            1\n        ]\n    }\n]";
  }

  /** An empty object: the closer takes back the indentation its opener added. */
  lemma IndentExampleEmpty(c: string)
    requires c == "{}"
    ensures Indent(c) == Ok("{\n}")
  {
    IndentExampleEmpty1(c);
    IndentExampleEmpty2(c);
  }

  lemma IndentExampleEmpty1(c: string)
    requires c == "{}"
    ensures IndentLoop(c, 0, false, 0, "") == IndentLoop(c, 1, false, 1, "{\n    ")
  {
    IndentExampleEmptyStep1(c);
    LoopStep(c, 0, false, 0, "", IndentState("{\n    ", 1, false));
  }

  lemma IndentExampleEmptyStep1(c: string)
    requires c == "{}"
    ensures IndentStep(c, 0, false, 0, "") == Ok(IndentState("{\n    ", 1, false))
  {
    PadValues();
    assert c[0] == '{';
    assert c[1] == '}';
    assert "" + ['{'] + "\n" + Pad(1) == "{\n    ";
  }

  lemma IndentExampleEmpty2(c: string)
    requires c == "{}"
    ensures IndentLoop(c, 1, false, 1, "{\n    ") == IndentLoop(c, 2, false, 0, "{\n}")
  {
    IndentExampleEmptyStep2(c);
    LoopStep(c, 1, false, 1, "{\n    ", IndentState("{\n}", 0, false));
  }

  lemma IndentExampleEmptyStep2(c: string)
    requires c == "{}"
    ensures IndentStep(c, 1, false, 1, "{\n    ") == Ok(IndentState("{\n}", 0, false))
  {
    PadValues();
    assert c[1] == '}';
    assert c[0] == '{';
    TrimEndSkips("{", "\n    ");
    assert "{" + "\n    " == "{\n    ";
    assert "{" + "\n" + Pad(0) + ['}'] == "{\n}";
  }

  /** A closer with nothing open: the padding of length -1 raises a range error. */
  lemma IndentExampleUnderflow(c: string)
    requires c == "[1]]"
    ensures Indent(c) == Err(NegativeIndent)
  {
    IndentExampleUnderflow1(c);
    IndentExampleUnderflow2(c);
    IndentExampleUnderflow3(c);
    assert IndentStep(c, 3, false, 0, "[\n    1\n]").Err? by {
      assert c[3] == ']';
      assert c[2] == ']';
    }
  }

  lemma IndentExampleUnderflow1(c: string)
    requires c == "[1]]"
    ensures IndentLoop(c, 0, false, 0, "") == IndentLoop(c, 1, false, 1, "[\n    ")
  {
    IndentExampleUnderflowStep1(c);
    LoopStep(c, 0, false, 0, "", IndentState("[\n    ", 1, false));
  }

  lemma IndentExampleUnderflowStep1(c: string)
    requires c == "[1]]"
    ensures IndentStep(c, 0, false, 0, "") == Ok(IndentState("[\n    ", 1, false))
  {
    PadValues();
    assert c[0] == '[';
    assert c[1] == '1';
    assert "" + ['['] + "\n" + Pad(1) == "[\n    ";
  }

  lemma IndentExampleUnderflow2(c: string)
    requires c == "[1]]"
    ensures IndentLoop(c, 1, false, 1, "[\n    ") == IndentLoop(c, 2, false, 1, "[\n    1")
  {
    IndentExampleUnderflowStep2(c);
    LoopStep(c, 1, false, 1, "[\n    ", IndentState("[\n    1", 1, false));
  }

  lemma IndentExampleUnderflowStep2(c: string)
    requires c == "[1]]"
    ensures IndentStep(c, 1, false, 1, "[\n    ") == Ok(IndentState("[\n    1", 1, false))
  {
    PadValues();
    assert c[1] == '1';
    assert c[0] == '[';
    assert c[2] == ']';
    assert "[\n    " + ['1'] == "[\n    1";
  }

  lemma IndentExampleUnderflow3(c: string)
    requires c == "[1]]"
    ensures IndentLoop(c, 2, false, 1, "[\n    1") == IndentLoop(c, 3, false, 0, "[\n    1\n]")
  {
    IndentExampleUnderflowStep3(c);
    LoopStep(c, 2, false, 1, "[\n    1", IndentState("[\n    1\n]", 0, false));
  }

  lemma IndentExampleUnderflowStep3(c: string)
    requires c == "[1]]"
    ensures IndentStep(c, 2, false, 1, "[\n    1") == Ok(IndentState("[\n    1\n]", 0, false))
  {
    PadValues();
    assert c[2] == ']';
    assert c[1] == '1';
    assert c[3] == ']';
    TrimEndFixed("[\n    1");
    assert "[\n    1" + "\n" + Pad(0) + [']'] == "[\n    1\n]";
  }

  /** A closer directly followed by a comma: the comma, not the closer, ends
      the line. */
  lemma IndentExampleCloserComma(c: string)
    requires c == "[[1],2]"
    ensures Indent(c) == Ok("[\n    [\n        1\n    ],\n    2\n]")
  {
    IndentExampleCloserComma1(c);
    IndentExampleCloserComma2(c);
    IndentExampleCloserComma3(c);
    IndentExampleCloserComma4(c);
    IndentExampleCloserComma5(c);
    IndentExampleCloserComma6(c);
    IndentExampleCloserComma7(c);
  }

  lemma IndentExampleCloserComma1(c: string)
    requires c == "[[1],2]"
    ensures IndentLoop(c, 0, false, 0, "") == IndentLoop(c, 1, false, 1, "[\n    ")
  {
    IndentExampleCloserCommaStep1(c);
    LoopStep(c, 0, false, 0, "", IndentState("[\n    ", 1, false));
  }

  lemma IndentExampleCloserCommaStep1(c: string)
    requires c == "[[1],2]"
    ensures IndentStep(c, 0, false, 0, "") == Ok(IndentState("[\n    ", 1, false))
  {
    PadValues();
    assert c[0] == '[';
    assert c[1] == '[';
    assert "" + ['['] + "\n" + Pad(1) == "[\n    ";
  }

  lemma IndentExampleCloserComma2(c: string)
    requires c == "[[1],2]"
    ensures IndentLoop(c, 1, false, 1, "[\n    ") == IndentLoop(c, 2, false, 2, "[\n    [\n        ")
  {
    IndentExampleCloserCommaStep2(c);
    LoopStep(c, 1, false, 1, "[\n    ", IndentState("[\n    [\n        ", 2, false));
  }

  lemma IndentExampleCloserCommaStep2(c: string)
    requires c == "[[1],2]"
    ensures IndentStep(c, 1, false, 1, "[\n    ") == Ok(IndentState("[\n    [\n        ", 2, false))
  {
    PadValues();
    assert c[1] == '[';
    assert c[0] == '[';
    assert c[2] == '1';
    assert "[\n    " + ['['] + "\n" + Pad(2) == "[\n    [\n        ";
  }

  lemma IndentExampleCloserComma3(c: string)
    requires c == "[[1],2]"
    ensures IndentLoop(c, 2, false, 2, "[\n    [\n        ") == IndentLoop(c, 3, false, 2, "[\n    [\n        1")
  {
    IndentExampleCloserCommaStep3(c);
    LoopStep(c, 2, false, 2, "[\n    [\n        ", IndentState("[\n    [\n        1", 2, false));
  }

  lemma IndentExampleCloserCommaStep3(c: string)
    requires c == "[[1],2]"
    ensures IndentStep(c, 2, false, 2, "[\n    [\n        ") == Ok(IndentState("[\n    [\n        1", 2, false))
  {
    PadValues();
    assert c[2] == '1';
    assert c[1] == '[';
    assert c[3] == ']';
    assert "[\n    [\n        " + ['1'] == "[\n    [\n        1";
  }

  lemma IndentExampleCloserComma4(c: string)
    requires c == "[[1],2]"
    ensures IndentLoop(c, 3, false, 2, "[\n    [\n        1") == IndentLoop(c, 4, false, 1, "[\n    [\n        1\n    ]")
  {
    IndentExampleCloserCommaStep4(c);
    LoopStep(c, 3, false, 2, "[\n    [\n        1", IndentState("[\n    [\n        1\n    ]", 1, false));
  }

  lemma IndentExampleCloserCommaStep4(c: string)
    requires c == "[[1],2]"
    ensures IndentStep(c, 3, false, 2, "[\n    [\n        1") == Ok(IndentState("[\n    [\n        1\n    ]", 1, false))
  {
    PadValues();
    assert c[3] == ']';
    assert c[2] == '1';
    assert c[4] == ',';
    TrimEndFixed("[\n    [\n        1");
    assert "[\n    [\n        1" + "\n" + Pad(1) + [']'] == "[\n    [\n        1\n    ]";
  }

  lemma IndentExampleCloserComma5(c: string)
    requires c == "[[1],2]"
    ensures IndentLoop(c, 4, false, 1, "[\n    [\n        1\n    ]") == IndentLoop(c, 5, false, 1, "[\n    [\n        1\n    ],\n    ")
  {
    IndentExampleCloserCommaStep5(c);
    LoopStep(c, 4, false, 1, "[\n    [\n        1\n    ]", IndentState("[\n    [\n        1\n    ],\n    ", 1, false));
  }

  lemma IndentExampleCloserCommaStep5(c: string)
    requires c == "[[1],2]"
    ensures IndentStep(c, 4, false, 1, "[\n    [\n        1\n    ]") == Ok(IndentState("[\n    [\n        1\n    ],\n    ", 1, false))
  {
    PadValues();
    assert c[4] == ',';
    assert c[3] == ']';
    assert c[5] == '2';
    assert "[\n    [\n        1\n    ]" + [','] + "\n" + Pad(1) == "[\n    [\n        1\n    ],\n    ";
  }

  lemma IndentExampleCloserComma6(c: string)
    requires c == "[[1],2]"
    ensures IndentLoop(c, 5, false, 1, "[\n    [\n        1\n    ],\n    ") == IndentLoop(c, 6, false, 1, "[\n    [\n        1\n    ],\n    2")
  {
    IndentExampleCloserCommaStep6(c);
    LoopStep(c, 5, false, 1, "[\n    [\n        1\n    ],\n    ", IndentState("[\n    [\n        1\n    ],\n    2", 1, false));
  }

  lemma IndentExampleCloserCommaStep6(c: string)
    requires c == "[[1],2]"
    ensures IndentStep(c, 5, false, 1, "[\n    [\n        1\n    ],\n    ") == Ok(IndentState("[\n    [\n        1\n    ],\n    2", 1, false))
  {
    PadValues();
    assert c[5] == '2';
    assert c[4] == ',';
    assert c[6] == ']';
    assert "[\n    [\n        1\n    ],\n    " + ['2'] == "[\n    [\n        1\n    ],\n    2";
  }

  lemma IndentExampleCloserComma7(c: string)
    requires c == "[[1],2]"
    ensures IndentLoop(c, 6, false, 1, "[\n    [\n        1\n    ],\n    2") == IndentLoop(c, 7, false, 0, "[\n    [\n        1\n    ],\n    2\n]")
  {
    IndentExampleCloserCommaStep7(c);
    LoopStep(c, 6, false, 1, "[\n    [\n        1\n    ],\n    2", IndentState("[\n    [\n        1\n    ],\n    2\n]", 0, false));
  }

  lemma IndentExampleCloserCommaStep7(c: string)
    requires c == "[[1],2]"
    ensures IndentStep(c, 6, false, 1, "[\n    [\n        1\n    ],\n    2") == Ok(IndentState("[\n    [\n        1\n    ],\n    2\n]", 0, false))
  {
    PadValues();
    assert c[6] == ']';
    assert c[5] == '2';
    TrimEndFixed("[\n    [\n        1\n    ],\n    2");
    assert "[\n    [\n        1\n    ],\n    2" + "\n" + Pad(0) + [']'] == "[\n    [\n        1\n    ],\n    2\n]";
  }

  /** White space outside quotes that reaches the indenter is copied like any
      other character: the newline here is followed by `1`, not by padding. */
  lemma IndentExampleCopiedNewline(c: string)
    requires c == "[\n1]"
    ensures Indent(c) == Ok("[\n    \n1\n]")
  {
    IndentExampleCopiedNewline1(c);
    IndentExampleCopiedNewline2(c);
    IndentExampleCopiedNewline3(c);
    IndentExampleCopiedNewline4(c);
  }

  lemma IndentExampleCopiedNewline1(c: string)
    requires c == "[\n1]"
    ensures IndentLoop(c, 0, false, 0, "") == IndentLoop(c, 1, false, 1, "[\n    ")
  {
    IndentExampleCopiedNewlineStep1(c);
    LoopStep(c, 0, false, 0, "", IndentState("[\n    ", 1, false));
  }

  lemma IndentExampleCopiedNewlineStep1(c: string)
    requires c == "[\n1]"
    ensures IndentStep(c, 0, false, 0, "") == Ok(IndentState("[\n    ", 1, false))
  {
    PadValues();
    assert c[0] == '[';
    assert c[1] == '\n';
    assert "" + ['['] + "\n" + Pad(1) == "[\n    ";
  }

  lemma IndentExampleCopiedNewline2(c: string)
    requires c == "[\n1]"
    ensures IndentLoop(c, 1, false, 1, "[\n    ") == IndentLoop(c, 2, false, 1, "[\n    \n")
  {
    IndentExampleCopiedNewlineStep2(c);
    LoopStep(c, 1, false, 1, "[\n    ", IndentState("[\n    \n", 1, false));
  }

  lemma IndentExampleCopiedNewlineStep2(c: string)
    requires c == "[\n1]"
    ensures IndentStep(c, 1, false, 1, "[\n    ") == Ok(IndentState("[\n    \n", 1, false))
  {
    PadValues();
    assert c[1] == '\n';
    assert c[0] == '[';
    assert c[2] == '1';
    assert "[\n    " + ['\n'] == "[\n    \n";
  }

  lemma IndentExampleCopiedNewline3(c: string)
    requires c == "[\n1]"
    ensures IndentLoop(c, 2, false, 1, "[\n    \n") == IndentLoop(c, 3, false, 1, "[\n    \n1")
  {
    IndentExampleCopiedNewlineStep3(c);
    LoopStep(c, 2, false, 1, "[\n    \n", IndentState("[\n    \n1", 1, false));
  }

  lemma IndentExampleCopiedNewlineStep3(c: string)
    requires c == "[\n1]"
    ensures IndentStep(c, 2, false, 1, "[\n    \n") == Ok(IndentState("[\n    \n1", 1, false))
  {
    PadValues();
    assert c[2] == '1';
    assert c[1] == '\n';
    assert c[3] == ']';
    assert "[\n    \n" + ['1'] == "[\n    \n1";
  }

  lemma IndentExampleCopiedNewline4(c: string)
    requires c == "[\n1]"
    ensures IndentLoop(c, 3, false, 1, "[\n    \n1") == IndentLoop(c, 4, false, 0, "[\n    \n1\n]")
  {
    IndentExampleCopiedNewlineStep4(c);
    LoopStep(c, 3, false, 1, "[\n    \n1", IndentState("[\n    \n1\n]", 0, false));
  }

  lemma IndentExampleCopiedNewlineStep4(c: string)
    requires c == "[\n1]"
    ensures IndentStep(c, 3, false, 1, "[\n    \n1") == Ok(IndentState("[\n    \n1\n]", 0, false))
  {
    PadValues();
    assert c[3] == ']';
    assert c[2] == '1';
    TrimEndFixed("[\n    \n1");
    assert "[\n    \n1" + "\n" + Pad(0) + [']'] == "[\n    \n1\n]";
  }

  /** White space outside quotes that reaches the indenter just before a closer
      is taken back by the `trimEnd` of the closer rule. */
  lemma IndentExampleTrimmedSpace(c: string)
    requires c == "[1 ]"
    ensures Indent(c) == Ok("[\n    1\n]")
  {
    IndentExampleTrimmedSpace1(c);
    IndentExampleTrimmedSpace2(c);
    IndentExampleTrimmedSpace3(c);
    IndentExampleTrimmedSpace4(c);
  }

  lemma IndentExampleTrimmedSpace1(c: string)
    requires c == "[1 ]"
    ensures IndentLoop(c, 0, false, 0, "") == IndentLoop(c, 1, false, 1, "[\n    ")
  {
    IndentExampleTrimmedSpaceStep1(c);
    LoopStep(c, 0, false, 0, "", IndentState("[\n    ", 1, false));
  }

  lemma IndentExampleTrimmedSpaceStep1(c: string)
    requires c == "[1 ]"
    ensures IndentStep(c, 0, false, 0, "") == Ok(IndentState("[\n    ", 1, false))
  {
    PadValues();
    assert c[0] == '[';
    assert c[1] == '1';
    assert "" + ['['] + "\n" + Pad(1) == "[\n    ";
  }

  lemma IndentExampleTrimmedSpace2(c: string)
    requires c == "[1 ]"
    ensures IndentLoop(c, 1, false, 1, "[\n    ") == IndentLoop(c, 2, false, 1, "[\n    1")
  {
    IndentExampleTrimmedSpaceStep2(c);
    LoopStep(c, 1, false, 1, "[\n    ", IndentState("[\n    1", 1, false));
  }

  lemma IndentExampleTrimmedSpaceStep2(c: string)
    requires c == "[1 ]"
    ensures IndentStep(c, 1, false, 1, "[\n    ") == Ok(IndentState("[\n    1", 1, false))
  {
    PadValues();
    assert c[1] == '1';
    assert c[0] == '[';
    assert c[2] == ' ';
    assert "[\n    " + ['1'] == "[\n    1";
  }

  lemma IndentExampleTrimmedSpace3(c: string)
    requires c == "[1 ]"
    ensures IndentLoop(c, 2, false, 1, "[\n    1") == IndentLoop(c, 3, false, 1, "[\n    1 ")
  {
    IndentExampleTrimmedSpaceStep3(c);
    LoopStep(c, 2, false, 1, "[\n    1", IndentState("[\n    1 ", 1, false));
  }

  lemma IndentExampleTrimmedSpaceStep3(c: string)
    requires c == "[1 ]"
    ensures IndentStep(c, 2, false, 1, "[\n    1") == Ok(IndentState("[\n    1 ", 1, false))
  {
    PadValues();
    assert c[2] == ' ';
    assert c[1] == '1';
    assert c[3] == ']';
    assert "[\n    1" + [' '] == "[\n    1 ";
  }

  lemma IndentExampleTrimmedSpace4(c: string)
    requires c == "[1 ]"
    ensures IndentLoop(c, 3, false, 1, "[\n    1 ") == IndentLoop(c, 4, false, 0, "[\n    1\n]")
  {
    IndentExampleTrimmedSpaceStep4(c);
    LoopStep(c, 3, false, 1, "[\n    1 ", IndentState("[\n    1\n]", 0, false));
  }

  lemma IndentExampleTrimmedSpaceStep4(c: string)
    requires c == "[1 ]"
    ensures IndentStep(c, 3, false, 1, "[\n    1 ") == Ok(IndentState("[\n    1\n]", 0, false))
  {
    PadValues();
    assert c[3] == ']';
    assert c[2] == ' ';
    TrimEndSkips("[\n    1", " ");
    assert "[\n    1" + " " == "[\n    1 ";
    assert "[\n    1" + "\n" + Pad(0) + [']'] == "[\n    1\n]";
  }
}

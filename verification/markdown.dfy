/** formatMarkdown as a whole: normalise the NO-BREAK SPACEs, cut the
    document at its fence pairs, and replace every block by its formatted
    form, the JSON-like ones compacted and laid out again. A layout that
    would need a negative indentation makes the whole call fail. */
module Markdown {
  import opened Text
  import N = Normalize
  import opened Fences
  import opened Quotes
  import opened Compactor
  import opened Indenter
  import opened Outcome

  datatype BlockKind = JsonLike | Plain

  /** A block is JSON-like when its trimmed text starts with `{` or `[`. */
  function Classify(code: string): BlockKind {
    var t := Trim(code);
    if t != [] && (t[0] == '{' || t[0] == '[') then JsonLike else Plain
  }

  const JsonOpen: string := "```json\n"
  const PlainOpen: string := "```\n"
  const Close: string := "\n```"

  /** The replacement the callback returns for the inner text `code` of one
      matched block. It fails exactly when the block is JSON-like and some
      prefix of its compacted text closes more than it opens. */
  function FormatBlock(code: string): (r: Result<string>)
    ensures r.Err? <==> Classify(code) == JsonLike && !NeverNegative(Compact(Trim(code)))
  {
    var t := Trim(code);
    if Classify(code) == Plain then Ok(PlainOpen + t + Close)
    else
      IndentSucceedsIff(Compact(t));
      match Indent(Compact(t))
      case Ok(x) => Ok(JsonOpen + x + Close)
      case Err(e) => Err(e)
  }

  /** Every block of the document can be formatted. */
  predicate AllBlocksFormat(d: Doc) {
    match d
    case Tail(_) => true
    case Block(_, c, r) => FormatBlock(c).Ok? && AllBlocksFormat(r)
  }

  /** The document with each block replaced, prose kept as it is. */
  function FormatDoc(d: Doc): (r: Result<string>)
    ensures r.Ok? <==> AllBlocksFormat(d)
    ensures r.Ok? && d.Block? ==> d.before <= r.value
  {
    match d
    case Tail(t) => Ok(t)
    case Block(b, c, rest) =>
      match FormatBlock(c)
      case Err(e) => Err(e)
      case Ok(x) =>
        match FormatDoc(rest)
        case Err(e) => Err(e)
        case Ok(y) => Ok(b + x + y)
  }

  /** formatMarkdown, with the exception it can raise as an `Err`. */
  function FormatMarkdown(s: string): Result<string> {
    FormatDoc(Split(N.Normalize(s)))
  }

  // ---------------------------------------------------------------------
  // The document level

  /** A document in which no block can be matched comes back normalised and
      otherwise untouched; this covers an opening fence without a closing
      one, and everything after it. */
  lemma UnterminatedLeftAlone(s: string)
    requires Unterminated(N.Normalize(s))
    ensures FormatMarkdown(s) == Ok(N.Normalize(s))
  {
    SplitTail(N.Normalize(s));
  }

  /** The leftmost block decides the start of the output: the prose before
      it is kept, the block is replaced, and the rest of the document is
      formatted on its own; the call fails exactly when the block or the
      rest fails. */
  lemma FirstBlockRewritten(s: string, b: string, c: string, rest: string)
    requires N.Normalize(s) == b + Fence + c + Fence + rest
    requires NoFenceWithin(b) && NoFenceWithin(c)
    ensures FormatMarkdown(s).Ok? <==> FormatBlock(c).Ok? && FormatMarkdown(rest).Ok?
    ensures FormatMarkdown(s).Ok? ==>
      FormatMarkdown(s).value == b + FormatBlock(c).value + FormatMarkdown(rest).value
  {
    var t := N.Normalize(s);
    var d := Split(rest);
    assert Nbsp !in rest by {
      assert forall i :: 0 <= i < |rest| ==> rest[i] == t[|b| + 6 + |c| + i];
    }
    N.NormalizeFixesClean(rest);
    assert Render(d) == rest;
    SplitRender(Block(b, c, d));
  }

  /** A document that is one block and nothing else becomes that block's
      replacement. */
  lemma SingleBlock(s: string, c: string)
    requires N.Normalize(s) == Fence + c + Fence
    requires NoFenceWithin(c)
    ensures FormatMarkdown(s) == FormatBlock(c)
  {
    var e: string := [];
    assert N.Normalize(s) == e + Fence + c + Fence + e;
    SplitGlued(e, c, e);
    assert Split(e) == Tail(e);
    assert Split(N.Normalize(s)) == Block(e, c, Tail(e));
    FormatLoneBlock(c);
  }

  lemma FormatLoneBlock(c: string)
    ensures FormatDoc(Block([], c, Tail([]))) == FormatBlock(c)
  {
    var e: string := [];
    if FormatBlock(c).Ok? {
      var x := FormatBlock(c).value;
      assert FormatDoc(Tail(e)) == Ok(e);
      assert e + x + e == x;
    }
  }

  /** Normalisation commutes with the whole pipeline: a document that was
      already passed through formatMarkdown's first step is formatted the
      same way as the original. */
  lemma FormatAfterNormalize(s: string)
    ensures FormatMarkdown(N.Normalize(s)) == FormatMarkdown(s)
  {
    N.NormalizeIdempotent(s);
  }

  // ---------------------------------------------------------------------
  // One block

  /** A block whose text, once trimmed, does not start with `{` or `[` is
      wrapped again as it is, between an untagged opening fence and a
      closing fence on a line of its own. The surrounding white space `u`
      and `v` is what the trim removes. */
  lemma PlainBlockVerbatim(u: string, m: string, v: string)
    requires AllWs(u) && AllWs(v)
    requires m == [] || (!IsWs(m[0]) && !IsWs(m[|m| - 1]))
    requires m == [] || (m[0] != '{' && m[0] != '[')
    ensures FormatBlock(u + m + v) == Ok("```\n" + m + "\n```")
  {
    TrimUnique(u, m, v);
  }

  /** A JSON-like block whose nesting never goes below zero comes out as the
      `json`-tagged fence around a layout `x` of its compacted text `c`;
      taking the white space outside quotes back out of `x` gives `c` again
      whenever no backslash outside quotes is followed by white space. */
  lemma JsonBlockLayout(code: string) returns (x: string)
    requires Classify(code) == JsonLike
    requires NeverNegative(Compact(Trim(code)))
    ensures FormatBlock(code) == Ok(JsonOpen + x + Close)
    ensures Compact(x) == Compact(Compact(Trim(code)))
    ensures NoLooseBackslash(Trim(code)) ==> Compact(x) == Compact(Trim(code))
  {
    var t := Trim(code);
    var c := Compact(t);
    IndentSucceedsIff(c);
    x := Indent(c).value;
    IndentKeepsCompaction(c);
    if NoLooseBackslash(t) {
      CompactIdempotent(t);
    }
  }

  /** A JSON-like block, given by the white space around it and its trimmed
      text `m`, becomes the `json`-tagged fence around the layout of the
      compacted `m`, or fails when that layout fails. */
  lemma JsonBlockVerbatim(u: string, m: string, v: string)
    requires AllWs(u) && AllWs(v)
    requires m != [] && (m[0] == '{' || m[0] == '[') && !IsWs(m[|m| - 1])
    ensures Indent(Compact(m)).Ok? ==>
      FormatBlock(u + m + v) == Ok(JsonOpen + Indent(Compact(m)).value + Close)
    ensures Indent(Compact(m)).Err? ==> FormatBlock(u + m + v) == Err(NegativeIndent)
  {
    TrimUnique(u, m, v);
  }

  /** A quoted stretch of the trimmed block, white space included, appears
      verbatim in the formatted block, provided no backslash outside quotes
      is followed by white space. */
  lemma JsonBlockKeepsQuotedText(code: string, a: nat, b: nat)
    requires Classify(code) == JsonLike
    requires a < b <= |Trim(code)|
    requires forall k :: a <= k < b ==> Quoted(Trim(code), k)
    requires NoLooseBackslash(Trim(code))
    requires FormatBlock(code).Ok?
    ensures Infix(Trim(code)[a..b], FormatBlock(code).value)
  {
    var t := Trim(code);
    var x := InQuotedRun(t, a, b);
    assert FormatBlock(code) == Ok(JsonOpen + x + Close);
    InfixWiden(t[a..b], x, JsonOpen, Close);
  }

  /** The compacted, laid out text of `t` holds the quoted stretch `t[a..b]`. */
  lemma InQuotedRun(t: string, a: nat, b: nat) returns (x: string)
    requires a < b <= |t|
    requires forall k :: a <= k < b ==> Quoted(t, k)
    requires NoLooseBackslash(t)
    requires Indent(Compact(t)).Ok?
    ensures x == Indent(Compact(t)).value && Infix(t[a..b], x)
  {
    var c := Compact(t);
    var m := |Compact(t[..a])|;
    QuotedRunStaysQuoted(t, a, b);
    assert c[m..m + (b - a)] == t[a..b];
    IndentKeepsQuotedRun(c, m, m + (b - a));
    x := Indent(c).value;
  }

  /** A JSON-like block that ends in a closer still ends in it, right before
      the line of the closing fence. */
  lemma JsonBlockEndsWithCloser(code: string)
    requires Classify(code) == JsonLike
    requires FormatBlock(code).Ok?
    requires var c := Compact(Trim(code)); c != [] && ClosesAt(c, |c| - 1)
    ensures var r := FormatBlock(code).value; var t := Trim(code);
      |r| >= 5 && r[|r| - 5] == t[|t| - 1]
  {
    var t := Trim(code);
    var c := Compact(t);
    IndentEndsWithCloser(c);
    CompactStep(t, |t| - 1);
    CompactPrefix(t, |t| - 1);
    assert t[..|t| - 1 + 1] == t;
  }
}

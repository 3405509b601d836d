# formatMarkdown, modelled in Dafny

This project models `formatMarkdown` from `src/services/markdown.ts`. That
function post-processes the markdown of a search result before it is
displayed. It works in four steps:

1. Every NO-BREAK SPACE (U+00A0) becomes a plain space.
2. The document is cut at triple-backtick fences. The regular expression
   ```` /```([\s\S]*?)```/g ```` matches leftmost first and stops at the
   nearest closing fence. Blocks never overlap.
3. The inner text of every block is trimmed. The block is *JSON-like* if the
   trimmed text starts with `{` or `[`.
4. A JSON-like block goes through two passes and is wrapped in a
   `` ```json `` fence:
   - the **compactor** drops white space outside double-quoted strings;
   - the **indenter** lays the compacted text out again, with four spaces per
     nesting level.

   Any other block is wrapped, trimmed, in an untagged fence.

Both passes track quotes the way the source does. A `"` flips the
"inside quotes" flag unless the character just before it is a backslash.
The module `Quotes` states this rule once, as a left-to-right scan over a
two-field state. The loops of `Compactor` and `Indenter` follow the source
index by index, and lemmas connect them to the reference scan.

Modules, in pipeline order:

- `Outcome`: the result type. `'    '.repeat(n)` with `n < 0` raises a
  `RangeError`; the model gives `Err(NegativeIndent)` instead.
- `Text`: JavaScript's white-space set, `trim` and `trimEnd`.
- `Normalize`: step 1.
- `Fences`: step 2, as `Split` into a `Doc` of prose and block pieces.
- `Quotes`: the quote-tracking rule.
- `Compactor`: the first loop (lines 13-28).
- `Indenter`: the second loop (lines 34-69).
- `Markdown`: classification, the replacement of one block, and the whole
  function.
- `Cases`: worked documents, run through the whole function.

## Two consequences of the code

- **Language tags.** The regular expression at `markdown.ts:6` captures
  everything between the fences, so a language tag on the opening fence is
  part of the block. A block opened with `` ```json `` trims to text that
  starts with `json`. It takes the plain path and keeps `json` as its first
  line (`Cases.TaggedBlockCase`).
- **Failure.** `'    '.repeat(-1)` raises a `RangeError`. A closer outside
  quotes at indentation level 0 asks for exactly that, so the whole call
  fails (`Indenter.IndentSucceedsIff`, `Cases.StrayCloserCase`).

## Model

| member | source | states |
|---|---|---|
| Text.IsWs | src/services/markdown.ts:24 | Defines white space as exactly JavaScript's WhiteSpace and LineTerminator code points, the set that `\s` and `trim` share. |
| Text.Trim | src/services/markdown.ts:7 | The trimmed text is a slice of the input. Only white space lies before and after it. Neither end of the result is white space. |
| Text.TrimUnique | src/services/markdown.ts:7 | White space, then a piece with no white space at either end, then white space again, trims to exactly that piece. |
| Text.TrimEnd | src/services/markdown.ts:52 | The result is a prefix of the input and does not end in white space. |
| Text.TrimEndDrops | src/services/markdown.ts:52 | Everything `trimEnd` removes is white space. |
| Text.TrimEndSkips | src/services/markdown.ts:52 | Text that does not end in white space, followed by white space, trims back to exactly that text. |
| Normalize.Normalize | src/services/markdown.ts:3 | The length is unchanged. No NO-BREAK SPACE is left. Each one becomes a space, and every other character stays in place. |
| Normalize.NormalizeFixesClean | src/services/markdown.ts:3 | A document without NO-BREAK SPACEs is returned unchanged. |
| Normalize.NormalizeIdempotent | src/services/markdown.ts:3 | Normalising twice gives the same result as normalising once. |
| Fences.Render | src/services/markdown.ts:6 | Glues a cut document back together: prose, fence, block text, fence, and so on, ending with the unmatched tail. |
| Fences.FindFence | src/services/markdown.ts:6 | The result is the first fence at or after the start position, or there is none. |
| Fences.Split | src/services/markdown.ts:6 | The pieces glue back into the document. The prose before each block and each block's text contain no fence. The last piece cannot contain a complete block. |
| Fences.SplitRender | src/services/markdown.ts:6 | Every cutting with those properties is the one `Split` finds. So leftmost-first, nearest-closer matching is the only possible reading, and `Split` and `Render` are mutually inverse. |
| Quotes.TogglesAt | src/services/markdown.ts:18 | The per-index quote test of both loops: the character is `"` and the one before it, if any, is not a backslash. |
| Quotes.StateAtNext | src/services/markdown.ts:15-19 | The source's per-index test "a quote whose previous character is not a backslash" is exactly a flip of the reference scan. At index 0 there is no previous character, so a quote there always flips. |
| Compactor.CompactLoop | src/services/markdown.ts:13-28 | The first loop from index `i`, carrying the quote flag and `cleanedJson`: a toggling quote or a quoted character is copied, unquoted white space is skipped, anything else is copied. |
| Compactor.Compact | src/services/markdown.ts:10-28 | Runs the first loop from index 0, outside quotes, with empty output. |
| Compactor.CompactIsKeep | src/services/markdown.ts:13-28 | The compacting loop keeps exactly the characters that the reference scan finds quoted or not white space, in order. |
| Compactor.CompactStep | src/services/markdown.ts:13-28 | Adding one character to the input adds it to the output if it is quoted or not white space, and adds nothing otherwise. So every dropped character is white space outside quotes. |
| Compactor.CompactSubsequence | src/services/markdown.ts:13-28 | The compacted text is a subsequence of the trimmed block. |
| Compactor.QuotedRunKept | src/services/markdown.ts:21-23 | A stretch of quoted characters, white space included, appears in the output verbatim and in one piece. |
| Compactor.CompactKeepsQuoteState | src/services/markdown.ts:18-19 | Re-scanning the compacted text meets the same quote states as scanning the input. This requires that no backslash outside quotes is followed by white space. |
| Compactor.CompactNoUnquotedWs | src/services/markdown.ts:24-26 | After compaction, no white space is left outside quotes, judged by re-scanning the output (same proviso). |
| Compactor.CompactFixpoint | src/services/markdown.ts:13-28 | Text with no white space outside quotes is left as it is. |
| Compactor.CompactKeepsSolid | src/services/markdown.ts:24-26 | Text with no white space at all is left as it is. |
| Compactor.CompactIdempotent | src/services/markdown.ts:13-28 | Compacting twice gives the same result as compacting once (same proviso). |
| Compactor.QuotedRunStaysQuoted | src/services/markdown.ts:21-23 | A quoted stretch sits in the compacted text at a known offset. A re-scan of the compacted text still sees it as quoted, which is what the indenter relies on. |
| Compactor.LooseBackslashExample | src/services/markdown.ts:15-26 | Without the proviso the two scans disagree. In `[\ " a"]` compaction keeps ` a` the first time and drops its space the second time. |
| Compactor.EscapedBackslashExample | src/services/markdown.ts:15-26 | The proviso can fail on valid JSON. In `["x\\", "\\ y"]` the quote that ends the first string follows a backslash, so the scan stays inside; the second string's space is then read as unquoted and dropped, giving `["x\\", "\\y"]`. |
| Indenter.Pad | src/services/markdown.ts:49 | `'    '.repeat(n)` is 4n spaces. |
| Indenter.IndentStep | src/services/markdown.ts:40-68 | One turn of the second loop's body: flip the quote flag, then copy a quoted character or apply the rule for an opener, closer, comma, colon or other character. A closer at level 0 gives `Err(NegativeIndent)`. |
| Indenter.IndentLoop | src/services/markdown.ts:34-69 | The second loop from index `i`, threading the output, the indent level and the quote flag, and stopping at the first error. |
| Indenter.Indent | src/services/markdown.ts:30-69 | Runs the second loop from index 0 at level 0, outside quotes, with empty output, and returns the laid-out text or the error. |
| Indenter.Layout | src/services/markdown.ts:45-68 | The reference layout of one character, written with the quote scan and the nesting depth. A quoted character is copied alone. An unquoted opener or comma is followed by a newline and the indentation of the depth after it. An unquoted closer goes on a fresh line at that depth, after trailing white space is removed, and a newline with the same indentation follows unless `,`, `}`, `]` or the end comes next. An unquoted colon is followed by one space. Nothing else adds white space. |
| Indenter.StepLayout | src/services/markdown.ts:40-68 | Started in the state the scan and the depth give for index `i`, one step succeeds exactly when the depth after `i` is not negative. It then writes exactly `Layout`, moves to that depth and takes the scan's next quote state. |
| Indenter.IndentLoopLayout | src/services/markdown.ts:34-69 | From any index of a text that never nests below zero, the loop ends with the full `Layout` of the text, at the text's depth, in the scan's final quote state. |
| Indenter.IndentLayout | src/services/markdown.ts:34-69 | The indenter's output is exactly the character-by-character `Layout` of its input when no prefix closes more than it opens, and an error otherwise. So every newline the indenter inserts after character `i` is followed by exactly `Pad(Depth(c, i + 1))`, four spaces per level of the unquoted depth there. White space already in its input outside quotes is copied like any other character (`Indenter.IndentExampleCopiedNewline`), and taken back by `trimEnd` when a closer follows (`Indenter.IndentExampleTrimmedSpace`). |
| Indenter.StepFacts | src/services/markdown.ts:40-68 | One character fails exactly when it is a closer outside quotes at level 0. The quote flag flips exactly on an unescaped quote. Earlier output survives up to trailing white space. A closer followed by `,`, `}` or `]`, or at the very end, is the last character written. |
| Indenter.IndentSucceedsIff | src/services/markdown.ts:48-52 | The second loop succeeds if and only if no prefix closes more than it opens, counting outside quotes only. It ends at that nesting depth, so balanced text ends at level 0. |
| Indenter.IndentKeepsCompaction | src/services/markdown.ts:45-64 | Outside quotes the indenter only ever adds white space, or trims it before a closer. Compacting its output gives the compacted input back, and gives the input itself when that has no white space outside quotes. |
| Indenter.IndentKeepsQuotedRun | src/services/markdown.ts:65-67 | A quoted stretch of the input appears in the output verbatim, white space included. |
| Indenter.IndentEndsWithCloser | src/services/markdown.ts:53-57 | When the text ends in a closer outside quotes, the layout ends in that closer. No newline or indentation follows it. |
| Indenter.IndentExampleFlat | src/services/markdown.ts:46-63 | `{"a":1,"b":[1,2,3]}` is laid out one member per line. The `]` directly before `}` adds no line break of its own. |
| Indenter.IndentExampleQuotedSpaces | src/services/markdown.ts:65-67 | `{"text":"a  b"}` keeps both spaces inside the string. |
| Indenter.IndentExampleNested | src/services/markdown.ts:46-57 | `[{"x":[1]}]`: each level adds four spaces, and each closer in a run of closers gets its own line. |
| Indenter.IndentExampleEmpty | src/services/markdown.ts:46-52 | `{}` becomes `{`, a newline, `}`: the closer takes back the indentation its opener added. |
| Indenter.IndentExampleUnderflow | src/services/markdown.ts:50-52 | `[1]]` fails on its second closer. |
| Indenter.IndentExampleCloserComma | src/services/markdown.ts:50-59 | `[[1],2]`: the inner `]` is directly followed by `,`, so it adds no line break; the comma ends the line and the next item sits at depth 1. |
| Indenter.IndentExampleCopiedNewline | src/services/markdown.ts:62-64 | In `[\n1]` the newline is not a layout character, so it is copied as it is and followed by `1` rather than by padding. Only newlines the indenter inserts carry the depth's padding. |
| Indenter.IndentExampleTrimmedSpace | src/services/markdown.ts:50-52 | In `[1 ]` the space before the closer is removed by `trimEnd`, so the layout is `[`, `    1`, `]` on three lines: white space in the input outside quotes can also be taken away. |
| Markdown.Classify | src/services/markdown.ts:8 | A block is JSON-like exactly when its trimmed text starts with `{` or `[`. |
| Markdown.FormatMarkdown | src/services/markdown.ts:1-77 | Normalises the document, cuts it at fences and replaces every block, failing when any block fails. |
| Markdown.FormatBlock | src/services/markdown.ts:7-73 | Replacing one block fails exactly when the block is JSON-like and some prefix of its compacted text closes more than it opens. |
| Markdown.FormatDoc | src/services/markdown.ts:6 | Replacing the blocks of a cut document succeeds exactly when every block succeeds. The prose before the first block is kept as the start of the output. |
| Markdown.UnterminatedLeftAlone | src/services/markdown.ts:6 | A document in which no block can be matched comes back normalised and otherwise unchanged. This includes an opening fence with no closing fence, and everything after it. |
| Markdown.FirstBlockRewritten | src/services/markdown.ts:6-74 | For prose, then a fence, a block, a fence and the rest, the output is the prose, then the block's replacement, then the rest formatted on its own. The call fails exactly when the block or the rest fails. |
| Markdown.SingleBlock | src/services/markdown.ts:6 | A document that is one block and nothing else becomes that block's replacement. |
| Markdown.FormatAfterNormalize | src/services/markdown.ts:3 | Formatting an already normalised document gives the same result as formatting the original. |
| Markdown.PlainBlockVerbatim | src/services/markdown.ts:73 | A block whose trimmed text does not start with `{` or `[` becomes an untagged fence around exactly that trimmed text. The white space on either side is removed. |
| Markdown.JsonBlockVerbatim | src/services/markdown.ts:71 | A JSON-like block becomes a `json`-tagged fence around the layout of its compacted trimmed text, or fails when that layout fails. |
| Markdown.JsonBlockLayout | src/services/markdown.ts:9-71 | A JSON-like block that never nests below zero becomes a `json` fence around a layout `x`. Taking the white space outside quotes out of `x` gives back the compacted block. |
| Markdown.JsonBlockKeepsQuotedText | src/services/markdown.ts:21-23 | A quoted stretch of the trimmed block, white space included, appears verbatim in the formatted block. |
| Markdown.JsonBlockEndsWithCloser | src/services/markdown.ts:53-71 | When a JSON-like block ends in a closer, that closer is the last character before the newline of the closing fence. |
| Cases.FlatObjectCase | src/services/markdown.ts:1-77 | A fenced `{"a":1,"b":[1,2,3]}` becomes a `json` fence around its four-space layout. |
| Cases.QuotedSpacesCase | src/services/markdown.ts:1-77 | In a fenced `{"text": "a  b"}`, the space after the colon goes and the two spaces in the string stay. |
| Cases.NestedCase | src/services/markdown.ts:1-77 | Fenced `[{"x":[1]}]` gets one indentation level per container. |
| Cases.StrayCloserCase | src/services/markdown.ts:1-77 | A fenced `[1]]` makes the whole call fail. |
| Cases.TaggedBlockCase | src/services/markdown.ts:6-8 | A `` ```json `` block is treated as plain text that starts with `json`, and is re-wrapped without a tag. |
| Cases.SqlBlockCase | src/services/markdown.ts:73 | A fenced SQL statement is returned as it was. |
| Cases.NoFenceCase | src/services/markdown.ts:3 | Without fences, only the NO-BREAK SPACE changes. |
| Cases.UnclosedFenceCase | src/services/markdown.ts:6 | An opening fence with no closing fence is left alone, along with the unformatted JSON after it. |
| Cases.CompactQuotedSpaces | src/services/markdown.ts:13-28 | Compacting `{"text": "a  b"}` gives `{"text":"a  b"}`. |

## Left out

- The rest of the repository is not part of this model. This covers:
  - page scraping and HTML conversion;
  - embedding generation;
  - database loading and queries;
  - the React components;
  - the build configuration.

  None of it changes what `formatMarkdown` computes.
- The JavaScript regular-expression engine is not modelled as such. Step 2
  is `Fences.Split`, and `Fences.SplitRender` proves that it is the only
  leftmost-first, nearest-closer cutting. The pattern never matches an empty
  string, so `lastIndex` handling plays no part.
- Strings are sequences of abstract characters. UTF-16 surrogate pairs are
  not modelled. Every character the code compares against is a single code
  unit, and so is every member of the white-space set.
- The `RangeError` object and its message are reduced to the single value
  `NegativeIndent`. Blocks are replaced left to right and the first failure
  aborts the call. With only one kind of error, that order cannot be
  observed, so it is not modelled.
- Compactor.CompactKeepsQuoteState, Compactor.CompactNoUnquotedWs,
  Compactor.CompactIdempotent and Compactor.QuotedRunStaysQuoted require that
  no backslash outside quotes is followed by white space. Valid JSON can
  fail this once a string ends in an escaped backslash: the look-back then
  takes the closing quote for an escaped one (`Compactor.EscapedBackslashExample`).
  `Compactor.LooseBackslashExample` shows that without the proviso the
  compactor and the indenter disagree about where strings are.
- Markdown.JsonBlockKeepsQuotedText is weaker than "quoted text is always
  preserved": it carries the same backslash proviso, for the same reason.
- Markdown.JsonBlockLayout gives back the compacted block only under that
  proviso. In general it gives back the compacted block compacted once more.
- Indenter.IndentKeepsQuotedRun and Markdown.JsonBlockKeepsQuotedText say
  that the quoted stretch occurs in the output. They do not say at which
  offset.
- Indenter.IndentExampleFlat, Indenter.IndentExampleQuotedSpaces,
  Indenter.IndentExampleNested, Indenter.IndentExampleEmpty,
  Indenter.IndentExampleUnderflow, Indenter.IndentExampleCloserComma,
  Indenter.IndentExampleCopiedNewline and Indenter.IndentExampleTrimmedSpace
  are fixed inputs, not general laws. The general law for where white
  space goes, and how much, is `Indenter.IndentLayout`.

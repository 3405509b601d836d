/** The worked cases of formatMarkdown on whole documents: a JSON block
    laid out, quoted spaces kept, nesting, the error a stray closer raises,
    a tagged block left as plain text with its tag, a plain block, and a
    document without fences. */
module Cases {
  import opened Text
  import N = Normalize
  import opened Fences
  import opened Compactor
  import opened Indenter
  import opened Markdown
  import opened Outcome

  /** A document that is a single fenced block, with no NO-BREAK SPACE and
      no backtick inside the block, becomes that block's replacement. */
  lemma OneFencedBlock(s: string, c: string)
    requires s == Fence + c + Fence && Nbsp !in c && '`' !in c
    ensures FormatMarkdown(s) == FormatBlock(c)
  {
    assert Nbsp !in s;
    N.NormalizeFixesClean(s);
    NoBacktickNoFence(c);
    SingleBlock(s, c);
  }

  /** An opening fence without a closing one is left alone, together with
      everything after it, white space outside quotes included. */
  lemma UnclosedFenceCase(s: string)
    requires s == "see ```{ \"a\": 1 }"
    ensures FormatMarkdown(s) == Ok(s)
  {
    var a, b := "see ", "{ \"a\": 1 }";
    assert Nbsp !in s && s == a + Fence + b && '`' !in a && '`' !in b;
    N.NormalizeFixesClean(s);
    LoneFence(a, b);
    UnterminatedLeftAlone(s);
  }

  /** Without fences only the NO-BREAK SPACE changes. */
  lemma NoFenceCase(s: string)
    requires s == "a\U{00A0}b"
    ensures FormatMarkdown(s) == Ok("a b")
  {
    var t := N.Normalize(s);
    assert t == "a b" by {
      assert s[0] != Nbsp && s[1] == Nbsp && s[2] != Nbsp;
    }
    UnterminatedLeftAlone(s);
  }

  /** A fenced flat object is recognised as JSON and laid out one member per
      line, the array on lines of its own. */
  lemma FlatObjectCase(s: string)
    requires s == "```\n{\"a\":1,\"b\":[1,2,3]}\n```"
    ensures FormatMarkdown(s) == Ok("```json\n" + "{\n    \"a\": 1,\n    \"b\": [\n        1,\n        2,\n        3\n    ]\n}" + "\n```")
  {
    var u, m, v := "\n", "{\"a\":1,\"b\":[1,2,3]}", "\n";
    FlatObjectCaseDocument(s, u, m, v);
    FlatObjectCaseClean(u, m, v);
    FlatObjectCaseTrimmed(u, m, v);
    FlatIsCompact(m);
    IndentExampleFlat("{\"a\":1,\"b\":[1,2,3]}");
    JsonBlockVerbatim(u, m, v);
    OneFencedBlock(s, u + m + v);
  }

  lemma FlatObjectCaseDocument(s: string, u: string, m: string, v: string)
    requires s == "```\n{\"a\":1,\"b\":[1,2,3]}\n```"
    requires u == "\n" && m == "{\"a\":1,\"b\":[1,2,3]}" && v == "\n"
    ensures s == Fence + (u + m + v) + Fence
  {
  }

  lemma FlatObjectCaseClean(u: string, m: string, v: string)
    requires u == "\n" && m == "{\"a\":1,\"b\":[1,2,3]}" && v == "\n"
    ensures Nbsp !in u + m + v && '`' !in u + m + v
  {
  }

  lemma FlatObjectCaseTrimmed(u: string, m: string, v: string)
    requires u == "\n" && m == "{\"a\":1,\"b\":[1,2,3]}" && v == "\n"
    ensures AllWs(u) && AllWs(v) && m != [] && !IsWs(m[0]) && !IsWs(m[|m| - 1])
    ensures m[0] == '{' || m[0] == '['
  {
  }

  /** The space after the colon goes; the two spaces inside the string literal
      survive both passes. */
  lemma QuotedSpacesCase(s: string)
    requires s == "```\n{\"text\": \"a  b\"}\n```"
    ensures FormatMarkdown(s) == Ok("```json\n" + "{\n    \"text\": \"a  b\"\n}" + "\n```")
  {
    var u, m, v := "\n", "{\"text\": \"a  b\"}", "\n";
    QuotedSpacesCaseDocument(s, u, m, v);
    QuotedSpacesCaseClean(u, m, v);
    QuotedSpacesCaseTrimmed(u, m, v);
    CompactQuotedSpaces(m);
    IndentExampleQuotedSpaces("{\"text\":\"a  b\"}");
    JsonBlockVerbatim(u, m, v);
    OneFencedBlock(s, u + m + v);
  }

  lemma QuotedSpacesCaseDocument(s: string, u: string, m: string, v: string)
    requires s == "```\n{\"text\": \"a  b\"}\n```"
    requires u == "\n" && m == "{\"text\": \"a  b\"}" && v == "\n"
    ensures s == Fence + (u + m + v) + Fence
  {
  }

  lemma QuotedSpacesCaseClean(u: string, m: string, v: string)
    requires u == "\n" && m == "{\"text\": \"a  b\"}" && v == "\n"
    ensures Nbsp !in u + m + v && '`' !in u + m + v
  {
  }

  lemma QuotedSpacesCaseTrimmed(u: string, m: string, v: string)
    requires u == "\n" && m == "{\"text\": \"a  b\"}" && v == "\n"
    ensures AllWs(u) && AllWs(v) && m != [] && !IsWs(m[0]) && !IsWs(m[|m| - 1])
    ensures m[0] == '{' || m[0] == '['
  {
  }

  /** Nested containers: four more spaces per level, and closers that meet
      each other share no line break (for a closer before a comma see
      `Indenter.IndentExampleCloserComma`). */
  lemma NestedCase(s: string)
    requires s == "```\n[{\"x\":[1]}]\n```"
    ensures FormatMarkdown(s) == Ok("```json\n" + "[\n    {\n        \"x\": [\n            1\n        ]\n    }\n]" + "\n```")
  {
    var u, m, v := "\n", "[{\"x\":[1]}]", "\n";
    NestedCaseDocument(s, u, m, v);
    NestedCaseClean(u, m, v);
    NestedCaseTrimmed(u, m, v);
    NestedIsCompact(m);
    IndentExampleNested("[{\"x\":[1]}]");
    JsonBlockVerbatim(u, m, v);
    OneFencedBlock(s, u + m + v);
  }

  lemma NestedCaseDocument(s: string, u: string, m: string, v: string)
    requires s == "```\n[{\"x\":[1]}]\n```"
    requires u == "\n" && m == "[{\"x\":[1]}]" && v == "\n"
    ensures s == Fence + (u + m + v) + Fence
  {
  }

  lemma NestedCaseClean(u: string, m: string, v: string)
    requires u == "\n" && m == "[{\"x\":[1]}]" && v == "\n"
    ensures Nbsp !in u + m + v && '`' !in u + m + v
  {
  }

  lemma NestedCaseTrimmed(u: string, m: string, v: string)
    requires u == "\n" && m == "[{\"x\":[1]}]" && v == "\n"
    ensures AllWs(u) && AllWs(v) && m != [] && !IsWs(m[0]) && !IsWs(m[|m| - 1])
    ensures m[0] == '{' || m[0] == '['
  {
  }

  /** One closer too many makes the whole call fail. */
  lemma StrayCloserCase(s: string)
    requires s == "```\n[1]]\n```"
    ensures FormatMarkdown(s) == Err(NegativeIndent)
  {
    var u, m, v := "\n", "[1]]", "\n";
    StrayCloserCaseDocument(s, u, m, v);
    StrayCloserCaseClean(u, m, v);
    StrayCloserCaseTrimmed(u, m, v);
    StrayIsCompact(m);
    IndentExampleUnderflow("[1]]");
    JsonBlockVerbatim(u, m, v);
    OneFencedBlock(s, u + m + v);
  }

  lemma StrayCloserCaseDocument(s: string, u: string, m: string, v: string)
    requires s == "```\n[1]]\n```"
    requires u == "\n" && m == "[1]]" && v == "\n"
    ensures s == Fence + (u + m + v) + Fence
  {
  }

  lemma StrayCloserCaseClean(u: string, m: string, v: string)
    requires u == "\n" && m == "[1]]" && v == "\n"
    ensures Nbsp !in u + m + v && '`' !in u + m + v
  {
  }

  lemma StrayCloserCaseTrimmed(u: string, m: string, v: string)
    requires u == "\n" && m == "[1]]" && v == "\n"
    ensures AllWs(u) && AllWs(v) && m != [] && !IsWs(m[0]) && !IsWs(m[|m| - 1])
    ensures m[0] == '{' || m[0] == '['
  {
  }

  /** A language tag is not recognised: it stays part of the block, which
      then no longer starts with `{` and is re-wrapped as it is in an
      untagged fence. */
  lemma TaggedBlockCase(s: string)
    requires s == "```json\n{\"a\": 1}\n```"
    ensures FormatMarkdown(s) == Ok("```\njson\n{\"a\": 1}\n```")
  {
    var u, m, v := "", "json\n{\"a\": 1}", "\n";
    TaggedBlockCaseDocument(s, u, m, v);
    TaggedBlockCaseClean(u, m, v);
    TaggedBlockCaseTrimmed(u, m, v);
    PlainBlockVerbatim(u, m, v);
    OneFencedBlock(s, u + m + v);
  }

  lemma TaggedBlockCaseDocument(s: string, u: string, m: string, v: string)
    requires s == "```json\n{\"a\": 1}\n```"
    requires u == "" && m == "json\n{\"a\": 1}" && v == "\n"
    ensures s == Fence + (u + m + v) + Fence
  {
  }

  lemma TaggedBlockCaseClean(u: string, m: string, v: string)
    requires u == "" && m == "json\n{\"a\": 1}" && v == "\n"
    ensures Nbsp !in u + m + v && '`' !in u + m + v
  {
  }

  lemma TaggedBlockCaseTrimmed(u: string, m: string, v: string)
    requires u == "" && m == "json\n{\"a\": 1}" && v == "\n"
    ensures AllWs(u) && AllWs(v) && m != [] && !IsWs(m[0]) && !IsWs(m[|m| - 1])
    ensures m[0] != '{' && m[0] != '['
    ensures "```\n" + m + "\n```" == "```\njson\n{\"a\": 1}\n```"
  {
  }

  /** A block that is not JSON-like keeps its trimmed text as it is. */
  lemma SqlBlockCase(s: string)
    requires s == "```\n  SELECT * FROM t;\n```"
    ensures FormatMarkdown(s) == Ok("```\nSELECT * FROM t;\n```")
  {
    var u, m, v := "\n  ", "SELECT * FROM t;", "\n";
    SqlBlockCaseDocument(s, u, m, v);
    SqlBlockCaseClean(u, m, v);
    SqlBlockCaseTrimmed(u, m, v);
    PlainBlockVerbatim(u, m, v);
    OneFencedBlock(s, u + m + v);
  }

  lemma SqlBlockCaseDocument(s: string, u: string, m: string, v: string)
    requires s == "```\n  SELECT * FROM t;\n```"
    requires u == "\n  " && m == "SELECT * FROM t;" && v == "\n"
    ensures s == Fence + (u + m + v) + Fence
  {
  }

  lemma SqlBlockCaseClean(u: string, m: string, v: string)
    requires u == "\n  " && m == "SELECT * FROM t;" && v == "\n"
    ensures Nbsp !in u + m + v && '`' !in u + m + v
  {
  }

  lemma SqlBlockCaseTrimmed(u: string, m: string, v: string)
    requires u == "\n  " && m == "SELECT * FROM t;" && v == "\n"
    ensures AllWs(u) && AllWs(v) && m != [] && !IsWs(m[0]) && !IsWs(m[|m| - 1])
    ensures m[0] != '{' && m[0] != '['
    ensures "```\n" + m + "\n```" == "```\nSELECT * FROM t;\n```"
  {
  }

  lemma FlatIsCompact(m: string)
    requires m == "{\"a\":1,\"b\":[1,2,3]}"
    ensures Compact(m) == m
  {
    assert forall j :: 0 <= j < |m| ==> !IsWs(m[j]);
    CompactKeepsSolid(m);
  }

  lemma NestedIsCompact(m: string)
    requires m == "[{\"x\":[1]}]"
    ensures Compact(m) == m
  {
    assert forall j :: 0 <= j < |m| ==> !IsWs(m[j]);
    CompactKeepsSolid(m);
  }

  lemma StrayIsCompact(m: string)
    requires m == "[1]]"
    ensures Compact(m) == m
  {
    assert forall j :: 0 <= j < |m| ==> !IsWs(m[j]);
    CompactKeepsSolid(m);
  }

  lemma CompactQuotedSpaces(c: string)
    requires c == "{\"text\": \"a  b\"}"
    ensures Compact(c) == "{\"text\":\"a  b\"}"
  {
    CompactQuotedSpaces1(c);
    CompactQuotedSpaces2(c);
    CompactQuotedSpaces3(c);
    CompactQuotedSpaces4(c);
    CompactQuotedSpaces5(c);
    CompactQuotedSpaces6(c);
    CompactQuotedSpaces7(c);
    CompactQuotedSpaces8(c);
    CompactQuotedSpaces9(c);
    CompactQuotedSpaces10(c);
    CompactQuotedSpaces11(c);
    CompactQuotedSpaces12(c);
    CompactQuotedSpaces13(c);
    CompactQuotedSpaces14(c);
    CompactQuotedSpaces15(c);
    CompactQuotedSpaces16(c);
  }

  lemma CompactQuotedSpaces1(c: string)
    requires c == "{\"text\": \"a  b\"}"
    ensures CompactLoop(c, 0, false, "") == CompactLoop(c, 1, false, "{")
  {
    assert c[0] == '{';
    assert "" + ['{'] == "{";
  }

  lemma CompactQuotedSpaces2(c: string)
    requires c == "{\"text\": \"a  b\"}"
    ensures CompactLoop(c, 1, false, "{") == CompactLoop(c, 2, true, "{\"")
  {
    assert c[1] == '"';
    assert c[0] == '{';
    assert "{" + ['"'] == "{\"";
  }

  lemma CompactQuotedSpaces3(c: string)
    requires c == "{\"text\": \"a  b\"}"
    ensures CompactLoop(c, 2, true, "{\"") == CompactLoop(c, 3, true, "{\"t")
  {
    assert c[2] == 't';
    assert c[1] == '"';
    assert "{\"" + ['t'] == "{\"t";
  }

  lemma CompactQuotedSpaces4(c: string)
    requires c == "{\"text\": \"a  b\"}"
    ensures CompactLoop(c, 3, true, "{\"t") == CompactLoop(c, 4, true, "{\"te")
  {
    assert c[3] == 'e';
    assert c[2] == 't';
    assert "{\"t" + ['e'] == "{\"te";
  }

  lemma CompactQuotedSpaces5(c: string)
    requires c == "{\"text\": \"a  b\"}"
    ensures CompactLoop(c, 4, true, "{\"te") == CompactLoop(c, 5, true, "{\"tex")
  {
    assert c[4] == 'x';
    assert c[3] == 'e';
    assert "{\"te" + ['x'] == "{\"tex";
  }

  lemma CompactQuotedSpaces6(c: string)
    requires c == "{\"text\": \"a  b\"}"
    ensures CompactLoop(c, 5, true, "{\"tex") == CompactLoop(c, 6, true, "{\"text")
  {
    assert c[5] == 't';
    assert c[4] == 'x';
    assert "{\"tex" + ['t'] == "{\"text";
  }

  lemma CompactQuotedSpaces7(c: string)
    requires c == "{\"text\": \"a  b\"}"
    ensures CompactLoop(c, 6, true, "{\"text") == CompactLoop(c, 7, false, "{\"text\"")
  {
    assert c[6] == '"';
    assert c[5] == 't';
    assert "{\"text" + ['"'] == "{\"text\"";
  }

  lemma CompactQuotedSpaces8(c: string)
    requires c == "{\"text\": \"a  b\"}"
    ensures CompactLoop(c, 7, false, "{\"text\"") == CompactLoop(c, 8, false, "{\"text\":")
  {
    assert c[7] == ':';
    assert c[6] == '"';
    assert "{\"text\"" + [':'] == "{\"text\":";
  }

  lemma CompactQuotedSpaces9(c: string)
    requires c == "{\"text\": \"a  b\"}"
    ensures CompactLoop(c, 8, false, "{\"text\":") == CompactLoop(c, 9, false, "{\"text\":")
  {
    assert c[8] == ' ';
    assert c[7] == ':';
  }

  lemma CompactQuotedSpaces10(c: string)
    requires c == "{\"text\": \"a  b\"}"
    ensures CompactLoop(c, 9, false, "{\"text\":") == CompactLoop(c, 10, true, "{\"text\":\"")
  {
    assert c[9] == '"';
    assert c[8] == ' ';
    assert "{\"text\":" + ['"'] == "{\"text\":\"";
  }

  lemma CompactQuotedSpaces11(c: string)
    requires c == "{\"text\": \"a  b\"}"
    ensures CompactLoop(c, 10, true, "{\"text\":\"") == CompactLoop(c, 11, true, "{\"text\":\"a")
  {
    assert c[10] == 'a';
    assert c[9] == '"';
    assert "{\"text\":\"" + ['a'] == "{\"text\":\"a";
  }

  lemma CompactQuotedSpaces12(c: string)
    requires c == "{\"text\": \"a  b\"}"
    ensures CompactLoop(c, 11, true, "{\"text\":\"a") == CompactLoop(c, 12, true, "{\"text\":\"a ")
  {
    assert c[11] == ' ';
    assert c[10] == 'a';
    assert "{\"text\":\"a" + [' '] == "{\"text\":\"a ";
  }

  lemma CompactQuotedSpaces13(c: string)
    requires c == "{\"text\": \"a  b\"}"
    ensures CompactLoop(c, 12, true, "{\"text\":\"a ") == CompactLoop(c, 13, true, "{\"text\":\"a  ")
  {
    assert c[12] == ' ';
    assert c[11] == ' ';
    assert "{\"text\":\"a " + [' '] == "{\"text\":\"a  ";
  }

  lemma CompactQuotedSpaces14(c: string)
    requires c == "{\"text\": \"a  b\"}"
    ensures CompactLoop(c, 13, true, "{\"text\":\"a  ") == CompactLoop(c, 14, true, "{\"text\":\"a  b")
  {
    assert c[13] == 'b';
    assert c[12] == ' ';
    assert "{\"text\":\"a  " + ['b'] == "{\"text\":\"a  b";
  }

  lemma CompactQuotedSpaces15(c: string)
    requires c == "{\"text\": \"a  b\"}"
    ensures CompactLoop(c, 14, true, "{\"text\":\"a  b") == CompactLoop(c, 15, false, "{\"text\":\"a  b\"")
  {
    assert c[14] == '"';
    assert c[13] == 'b';
    assert "{\"text\":\"a  b" + ['"'] == "{\"text\":\"a  b\"";
  }

  lemma CompactQuotedSpaces16(c: string)
    requires c == "{\"text\": \"a  b\"}"
    ensures CompactLoop(c, 15, false, "{\"text\":\"a  b\"") == CompactLoop(c, 16, false, "{\"text\":\"a  b\"}")
  {
    assert c[15] == '}';
    assert c[14] == '"';
    assert "{\"text\":\"a  b\"" + ['}'] == "{\"text\":\"a  b\"}";
  }
}

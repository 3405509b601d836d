/** Step one of formatMarkdown: every NO-BREAK SPACE becomes a plain space,
    over the whole document, fences or not. */
module Normalize {
  import opened Text

  function Normalize(s: string): (r: string)
    ensures |r| == |s|
    ensures Nbsp !in r
    ensures forall i :: 0 <= i < |s| && s[i] != Nbsp ==> r[i] == s[i]
    ensures forall i :: 0 <= i < |s| && s[i] == Nbsp ==> r[i] == ' '
  {
    if s == [] then []
    else [if s[0] == Nbsp then ' ' else s[0]] + Normalize(s[1..])
  }

  /** A document without NO-BREAK SPACEs is left exactly as it is. */
  lemma NormalizeFixesClean(s: string)
    requires Nbsp !in s
    ensures Normalize(s) == s
  {
  }

  /** Normalising twice is normalising once. */
  lemma NormalizeIdempotent(s: string)
    ensures Normalize(Normalize(s)) == Normalize(s)
  {
    NormalizeFixesClean(Normalize(s));
  }
}

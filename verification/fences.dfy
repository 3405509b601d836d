/** Step two of formatMarkdown: cutting the document at triple-backtick
    fences the way the global regular expression ```([\s\S]*?)``` does —
    leftmost first, non-overlapping, each block closed by the NEAREST later
    fence, with no language tag recognised. */
module Fences {

  const Fence: string := "```"

  /** Three backticks start at index `i` of `s`. */
  predicate FenceAt(s: string, i: int) {
    0 <= i && i + 3 <= |s| && s[i] == '`' && s[i + 1] == '`' && s[i + 2] == '`'
  }

  datatype Found = NotFound | FoundAt(pos: nat)

  /** The first fence of `s` at or after index `from`. */
  function FindFence(s: string, from: nat): (r: Found)
    ensures r.FoundAt? ==> from <= r.pos && FenceAt(s, r.pos)
    ensures r.FoundAt? ==> forall k :: from <= k < r.pos ==> !FenceAt(s, k)
    ensures r.NotFound? ==> forall k :: from <= k ==> !FenceAt(s, k)
    decreases |s| - from
  {
    if from + 3 > |s| then NotFound
    else if FenceAt(s, from) then FoundAt(from)
    else FindFence(s, from + 1)
  }

  /** A document cut at its matched fence pairs: prose, a block's inner text,
      and the rest of the document; the last piece is prose that holds no
      complete block. */
  datatype Doc = Tail(text: string) | Block(before: string, code: string, rest: Doc)

  /** Gluing the pieces back together, fences included. */
  function Render(d: Doc): string {
    match d
    case Tail(t) => t
    case Block(b, c, r) => b + Fence + c + Fence + Render(r)
  }

  /** No fence starts inside `x` when `x` is directly followed by a fence:
      `x` is the stretch before the leftmost opening fence, or the inner text
      up to the nearest closing one. */
  predicate NoFenceWithin(x: string) {
    forall k :: 0 <= k < |x| ==> !FenceAt(x + Fence, k)
  }

  /** No block can be matched in `t`: no two fences in it are at least
      three characters apart (an opening fence without a closing one). */
  predicate Unterminated(t: string) {
    forall p, q :: 0 <= p < |t| && 0 <= q < |t| && FenceAt(t, p) && FenceAt(t, q) ==> q < p + 3
  }

  /** The pieces are the ones the leftmost, non-greedy matcher would find. */
  predicate WellFormed(d: Doc) {
    match d
    case Tail(t) => Unterminated(t)
    case Block(b, c, r) => NoFenceWithin(b) && NoFenceWithin(c) && WellFormed(r)
  }

  /** The matcher: the first fence opens a block, the first fence at least
      three characters further on closes it, and matching resumes after the
      closing fence; an opening fence with no closing fence is left alone,
      together with everything after it. */
  function Split(s: string): (d: Doc)
    ensures Render(d) == s
    ensures WellFormed(d)
    decreases |s|
  {
    match FindFence(s, 0)
    case NotFound => Tail(s)
    case FoundAt(p) =>
      match FindFence(s, p + 3)
      case NotFound => Tail(s)
      case FoundAt(q) =>
        var d := Block(s[..p], s[p + 3..q], Split(s[q + 3..]));
        assert s == s[..p] + Fence + s[p + 3..q] + Fence + s[q + 3..];
        FenceBounds(s, 0, p);
        FenceBounds(s, p + 3, q);
        assert s[0..p] == s[..p];
        d
  }

  /** The stretch from `from` up to the first fence at or after `from` has no
      fence within it. */
  lemma FenceBounds(s: string, from: nat, p: nat)
    requires from <= p && FenceAt(s, p)
    requires forall k :: from <= k < p ==> !FenceAt(s, k)
    ensures NoFenceWithin(s[from..p])
  {
    var x := s[from..p];
    assert x + Fence == s[from..p + 3];
    forall k | 0 <= k < |x|
      ensures !FenceAt(x + Fence, k)
    {
      assert !FenceAt(s, from + k);
      assert (x + Fence)[k] == s[from + k];
      assert (x + Fence)[k + 1] == s[from + k + 1];
      assert (x + Fence)[k + 2] == s[from + k + 2];
    }
  }

  /** The matcher is the only reading of this kind: any well-formed cutting
      of a document is the one `Split` finds. Together with the contract of
      `Split` this says `Split` and `Render` are inverse to each other. */
  lemma {:induction false} SplitRender(d: Doc)
    requires WellFormed(d)
    ensures Split(Render(d)) == d
  {
    match d
    case Tail(t) => SplitTail(t);
    case Block(b, c, r) =>
      SplitRender(r);
      SplitBlock(b, c, r);
  }

  lemma SplitTail(t: string)
    requires Unterminated(t)
    ensures Split(t) == Tail(t)
  {
    var f := FindFence(t, 0);
    if f.FoundAt? {
      assert FindFence(t, f.pos + 3).NotFound?;
    }
  }

  lemma SplitBlock(b: string, c: string, r: Doc)
    requires NoFenceWithin(b) && NoFenceWithin(c)
    requires Split(Render(r)) == r
    ensures Split(Render(Block(b, c, r))) == Block(b, c, r)
  {
    SplitGlued(b, c, Render(r));
  }

  /** Text before a fence, a block's text and a fence, then any rest: `Split`
      cuts off that block and goes on with the rest. */
  lemma SplitGlued(b: string, c: string, rest: string)
    requires NoFenceWithin(b) && NoFenceWithin(c)
    ensures Split(b + Fence + c + Fence + rest) == Block(b, c, Split(rest))
  {
    var s := b + Fence + c + Fence + rest;
    var p := |b|;
    var q := |b| + 3 + |c|;
    Pieces(b, c, rest);
    FirstFenceAt(s, 0, b);
    FirstFenceAt(s, p + 3, c);
    SplitAt(s, p, q);
  }

  /** Where the pieces of a rendered block sit. */
  lemma Pieces(b: string, c: string, rest: string)
    ensures var s := b + Fence + c + Fence + rest; var p := |b|; var q := |b| + 3 + |c|;
      && s[0..p + 3] == b + Fence
      && s[p + 3..q + 3] == c + Fence
      && s[..p] == b && s[p + 3..q] == c && s[q + 3..] == rest
  {
  }

  /** `Split` cuts at the first fence and at the next one after it. */
  lemma SplitAt(s: string, p: nat, q: nat)
    requires FindFence(s, 0) == FoundAt(p) && FindFence(s, p + 3) == FoundAt(q)
    ensures Split(s) == Block(s[..p], s[p + 3..q], Split(s[q + 3..]))
  {
  }

  /** If `x` sits at `from` in `s`, is followed there by a fence, and has no
      fence inside it, then the first fence at or after `from` is the one
      right after `x`. */
  lemma FirstFenceAt(s: string, from: nat, x: string)
    requires from + |x| + 3 <= |s|
    requires s[from..from + |x| + 3] == x + Fence
    requires NoFenceWithin(x)
    ensures FindFence(s, from) == FoundAt(from + |x|)
  {
    var e := from + |x|;
    assert FenceAt(s, e) by {
      assert s[e] == (x + Fence)[|x|];
      assert s[e + 1] == (x + Fence)[|x| + 1];
      assert s[e + 2] == (x + Fence)[|x| + 2];
    }
    forall k | from <= k < e
      ensures !FenceAt(s, k)
    {
      assert !FenceAt(x + Fence, k - from);
      assert s[k] == (x + Fence)[k - from];
      assert s[k + 1] == (x + Fence)[k - from + 1];
      assert s[k + 2] == (x + Fence)[k - from + 2];
    }
  }

  /** Text without a backtick holds no fence. */
  lemma NoBacktickNoFence(x: string)
    requires '`' !in x
    ensures NoFenceWithin(x)
  {
    forall k | 0 <= k < |x|
      ensures !FenceAt(x + Fence, k)
    {
      assert (x + Fence)[k] == x[k];
    }
  }

  /** A single fence among text without backticks opens no block. */
  lemma LoneFence(a: string, b: string)
    requires '`' !in a && '`' !in b
    ensures Unterminated(a + Fence + b)
  {
  }
}

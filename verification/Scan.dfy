// Left-to-right, non-overlapping scanning with one pattern: what re.sub and
// re.findall do with a text.

module Scan {
  import opened Wrappers
  import opened Regex
  import opened RegexFacts

  // A text cut up by a scan: gaps, with a matched stretch between two gaps.
  datatype Parts = Last(gap: string) | More(gap: string, hit: string, rest: Parts)

  function Whole(p: Parts): string {
    match p
    case Last(g) => g
    case More(g, h, rest) => g + h + Whole(rest)
  }

  function Hits(p: Parts): seq<string> {
    match p
    case Last(_) => []
    case More(_, h, rest) => [h] + Hits(rest)
  }

  const MASK := "[REDACTED]"

  // The scanned text with every matched stretch replaced by the mask.
  function Masked(p: Parts): string {
    match p
    case Last(g) => g
    case More(g, _, rest) => g + MASK + Masked(rest)
  }

  function Prepend(g: string, p: Parts): Parts {
    match p
    case Last(g') => Last(g + g')
    case More(g', h, rest) => More(g + g', h, rest)
  }

  // Put two cut-up texts one after the other.
  function Fuse(p: Parts, q: Parts): Parts {
    match p
    case Last(g) => Prepend(g, q)
    case More(g, h, rest) => More(g, h, Fuse(rest, q))
  }

  // The length of the match the matcher prefers at the front of `s`.
  function First(r: Regex, x: Ctx, s: string): (n: Option<nat>)
    ensures n.Some? ==> n.value <= |s|
  {
    var ns := Ends(r, x, s);
    if ns == [] then None else Some(ns[0])
  }

  lemma FirstMatches(r: Regex, x: Ctx, s: string)
    ensures First(r, x, s).None? <==> forall n: nat :: !Matches(r, x, s, n)
    ensures First(r, x, s).Some? ==>
      MinLen(r) <= First(r, x, s).value && Matches(r, x, s, First(r, x, s).value)
  {
    var ns := Ends(r, x, s);
    if ns != [] {
      EndsAreMatches(r, x, s, ns[0]);
      MatchLength(r, x, s, ns[0]);
    } else {
      forall n: nat { EndsAreMatches(r, x, s, n); }
    }
  }

  lemma FirstPositive(r: Regex, x: Ctx, s: string)
    requires MinLen(r) > 0
    ensures First(r, x, s).Some? ==> 0 < First(r, x, s).value <= |s|
    ensures s == [] ==> First(r, x, s).None?
  {
    FirstMatches(r, x, s);
  }

  // Scan `s` from left to right; `x` is what stands to the left of it.
  function Split(r: Regex, x: Ctx, s: string): Parts
    requires MinLen(r) > 0
    decreases |s|, 1
  {
    FirstPositive(r, x, s);
    Cut(r, s, First(r, x, s))
  }

  // Cut off a match of `n` characters, or step over one.
  function Cut(r: Regex, s: string, n: Option<nat>): Parts
    requires MinLen(r) > 0
    requires n.Some? ==> 0 < n.value <= |s|
    decreases |s|, 0
  {
    match n
    case Some(n) => More([], s[..n], Split(r, CtxOf(s[n - 1]), s[n..]))
    case None => if s == [] then Last([]) else Prepend([s[0]], Split(r, CtxOf(s[0]), s[1..]))
  }

  function Sub(r: Regex, s: string): string
    requires MinLen(r) > 0
  {
    Masked(Split(r, EDGE, s))
  }

  ghost predicate MatchAt(r: Regex, x: Ctx, s: string, i: nat, n: nat) {
    i <= |s| && Matches(r, After(x, s, i), s[i..], n)
  }

  // No stretch of `s` matches.
  ghost predicate Clean(r: Regex, x: Ctx, s: string) {
    forall i: nat, n: nat :: !MatchAt(r, x, s, i, n)
  }

  /* ---- facts about cut-up texts ---- */

  lemma {:induction p} FuseFacts(p: Parts, q: Parts)
    ensures Whole(Fuse(p, q)) == Whole(p) + Whole(q)
    ensures Masked(Fuse(p, q)) == Masked(p) + Masked(q)
    ensures Hits(Fuse(p, q)) == Hits(p) + Hits(q)
  {
    if p.More? { FuseFacts(p.rest, q); }
  }

  lemma PrependFacts(g: string, q: Parts)
    ensures Masked(Prepend(g, q)) == g + Masked(q)
    ensures Whole(Prepend(g, q)) == g + Whole(q)
    ensures Hits(Prepend(g, q)) == Hits(q)
  {
    if q.More? {
      assert g + q.gap + q.hit + Whole(q.rest) == g + (q.gap + q.hit + Whole(q.rest));
      assert g + q.gap + MASK + Masked(q.rest) == g + (q.gap + MASK + Masked(q.rest));
    }
  }

  // Cutting up loses nothing.
  lemma {:induction false} SplitWhole(r: Regex, x: Ctx, s: string)
    requires MinLen(r) > 0
    ensures Whole(Split(r, x, s)) == s
    decreases |s|
  {
    hide First;
    FirstPositive(r, x, s);
    if First(r, x, s).Some? {
      var n := First(r, x, s).value;
      SplitWhole(r, CtxOf(s[n - 1]), s[n..]);
      assert s == [] + s[..n] + s[n..];
    } else if s != [] {
      SplitWhole(r, CtxOf(s[0]), s[1..]);
      PrependFacts([s[0]], Split(r, CtxOf(s[0]), s[1..]));
    }
  }

  // The preferred match at position `i` of `s`.
  function FirstAt(r: Regex, x: Ctx, s: string, i: nat): (n: Option<nat>)
    requires i <= |s|
  {
    First(r, After(x, s, i), s[i..])
  }

  // `p` begins with the leftmost match of `s`, at which the preferred length is cut
  // out, and goes on with a scan of what follows it.
  ghost predicate CutsFirst(r: Regex, x: Ctx, s: string, p: Parts)
    requires MinLen(r) > 0
  {
    && |p.gap| <= |s| && p.gap == s[..|p.gap|]
    && (forall i :: 0 <= i < |p.gap| ==> FirstAt(r, x, s, i).None?)
    && match p
       case Last(g) => |g| == |s| && FirstAt(r, x, s, |g|).None?
       case More(g, h, rest) =>
         && FirstAt(r, x, s, |g|) == Some(|h|) && |h| > 0
         && |g| + |h| <= |s| && h == s[|g|..|g| + |h|]
         && rest == Split(r, CtxOf(h[|h| - 1]), s[|g| + |h|..])
  }

  lemma {:induction false} SplitStep(r: Regex, x: Ctx, s: string)
    requires MinLen(r) > 0
    ensures CutsFirst(r, x, s, Split(r, x, s))
    decreases |s|
  {
    hide First, MinLen;
    FirstPositive(r, x, s);
    assert s[0..] == s;
    if First(r, x, s).None? && s != [] {
      SplitStep(r, CtxOf(s[0]), s[1..]);
      StepOver(r, x, s, Split(r, CtxOf(s[0]), s[1..]));
    }
  }

  lemma StepOver(r: Regex, x: Ctx, s: string, q: Parts)
    requires MinLen(r) > 0 && s != [] && First(r, x, s).None?
    requires CutsFirst(r, CtxOf(s[0]), s[1..], q)
    ensures CutsFirst(r, x, s, Prepend([s[0]], q))
  {
    hide First, MinLen, Split;
    var t, g := s[1..], 1 + |q.gap|;
    PrependPrefix(s, q.gap);
    forall i | 0 <= i < g
      ensures FirstAt(r, x, s, i).None?
    {
      assert s[0..] == s;
      if i > 0 { ShiftFirst(r, x, s, i); }
    }
    ShiftFirst(r, x, s, g);
    if q.More? {
      assert s[g + |q.hit|..] == t[|q.gap| + |q.hit|..];
      assert s[g..g + |q.hit|] == t[|q.gap|..|q.gap| + |q.hit|];
    }
  }

  lemma ShiftFirst(r: Regex, x: Ctx, s: string, i: nat)
    requires 0 < i <= |s|
    ensures FirstAt(r, x, s, i) == FirstAt(r, CtxOf(s[0]), s[1..], i - 1)
  {
    assert s[i..] == s[1..][i - 1..];
  }

  lemma PrependPrefix(s: string, g: string)
    requires s != [] && |g| < |s| && g == s[1..][..|g|]
    ensures [s[0]] + g == s[..1 + |g|]
  {
  }

  lemma FirstAtMatches(r: Regex, x: Ctx, s: string, i: nat)
    requires i <= |s|
    ensures FirstAt(r, x, s, i).None? <==> forall n: nat :: !MatchAt(r, x, s, i, n)
    ensures FirstAt(r, x, s, i).Some? ==> MatchAt(r, x, s, i, FirstAt(r, x, s, i).value)
  {
    hide Ends;
    FirstMatches(r, After(x, s, i), s[i..]);
    if FirstAt(r, x, s, i).Some? {
      assert MatchAt(r, x, s, i, FirstAt(r, x, s, i).value);
    } else {
      forall n: nat ensures !MatchAt(r, x, s, i, n) { EndsAreMatches(r, After(x, s, i), s[i..], n); }
    }
  }

  // A text is left in one piece exactly when no stretch of it matches.
  lemma SplitClean(r: Regex, x: Ctx, s: string)
    requires MinLen(r) > 0
    ensures Clean(r, x, s) <==> Split(r, x, s).Last?
    ensures Clean(r, x, s) ==> Split(r, x, s) == Last(s)
  {
    hide Split, FirstAt, MatchAt;
    SplitStep(r, x, s);
    var p := Split(r, x, s);
    if p.Last? {
      forall i: nat, n: nat ensures !MatchAt(r, x, s, i, n) {
        if i <= |s| { FirstAtMatches(r, x, s, i); } else { NotBeyond(r, x, s, i, n); }
      }
    } else {
      FirstAtMatches(r, x, s, |p.gap|);
    }
  }

  lemma NotBeyond(r: Regex, x: Ctx, s: string, i: nat, n: nat)
    requires i > |s|
    ensures !MatchAt(r, x, s, i, n)
  {
  }

  // A scan works on the two sides of a barrier independently.
  lemma {:induction false} SplitBarrier(r: Regex, x: Ctx, a: string, b: char, c: string)
    requires MinLen(r) > 0 && Barrier(r, b)
    ensures Split(r, x, a + [b] + c) == Fuse(Split(r, x, a), Prepend([b], Split(r, EDGE, c)))
    decreases |a|
  {
    hide First, Barrier, MinLen;
    var s := a + [b] + c;
    BarrierFirst(r, x, a, b, c);
    if First(r, x, a).Some? {
      var n := First(r, x, a).value;
      CutBarrier(a, b, c, n);
      SplitBarrier(r, CtxOf(a[n - 1]), a[n..], b, c);
    } else if a == [] {
      BarrierContext(r, b);
      assert s == [b] + c && s[1..] == c;
    } else {
      CutBarrier(a, b, c, 1);
      SplitBarrier(r, CtxOf(a[0]), a[1..], b, c);
      PrependFuse([a[0]], Split(r, CtxOf(a[0]), a[1..]), Prepend([b], Split(r, EDGE, c)));
    }
  }

  lemma CutBarrier(a: string, b: char, c: string, n: nat)
    requires n <= |a|
    ensures (a + [b] + c)[n..] == a[n..] + [b] + c
    ensures (a + [b] + c)[..n] == a[..n]
  {
  }

  lemma BarrierContext(r: Regex, b: char)
    requires Barrier(r, b)
    ensures CtxOf(b) == EDGE
  {
  }

  lemma BarrierFirst(r: Regex, x: Ctx, a: string, b: char, c: string)
    requires MinLen(r) > 0 && Barrier(r, b)
    ensures First(r, x, a + [b] + c) == First(r, x, a)
    ensures First(r, x, a).Some? ==> 0 < First(r, x, a).value <= |a|
    ensures a == [] ==> First(r, x, a).None?
  {
    BarrierEnds(r, x, a, [b] + c);
    assert a + [b] + c == a + ([b] + c);
    FirstPositive(r, x, a);
  }

  lemma PrependFuse(g: string, p: Parts, q: Parts)
    ensures Prepend(g, Fuse(p, q)) == Fuse(Prepend(g, p), q)
  {
    if p.Last? {
      assert g + (p.gap + q.gap) == g + p.gap + q.gap;
    }
  }

  // The same for the substituted text.
  lemma SubBarrier(r: Regex, a: string, b: char, c: string)
    requires MinLen(r) > 0 && Barrier(r, b)
    ensures Sub(r, a + [b] + c) == Sub(r, a) + [b] + Sub(r, c)
  {
    hide Split, MinLen, Barrier;
    var p, q := Split(r, EDGE, a), Split(r, EDGE, c);
    SplitBarrier(r, EDGE, a, b, c);
    FuseFacts(p, Prepend([b], q));
    PrependFacts([b], q);
    assert Masked(p) + ([b] + Masked(q)) == Masked(p) + [b] + Masked(q);
  }

  lemma FuseLast(p: Parts, q: Parts)
    ensures Fuse(p, q).Last? <==> p.Last? && q.Last?
  {
  }

  lemma CleanBarrier(r: Regex, a: string, b: char, c: string)
    requires MinLen(r) > 0 && Barrier(r, b)
    ensures Clean(r, EDGE, a + [b] + c) <==> Clean(r, EDGE, a) && Clean(r, EDGE, c)
  {
    SplitBarrier(r, EDGE, a, b, c);
    FuseLast(Split(r, EDGE, a), Prepend([b], Split(r, EDGE, c)));
    SplitClean(r, EDGE, a + [b] + c);
    SplitClean(r, EDGE, a);
    SplitClean(r, EDGE, c);
  }
}

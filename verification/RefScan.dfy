// Scanning the redacted text again for business references: the references of the
// first scan are found again, whole, and any new one lies inside a redacted segment.

module RefScan {
  import opened Wrappers
  import opened Text
  import opened Regex
  import opened RegexFacts
  import opened Scan
  import opened Patterns
  import opened PatternFacts
  import opened Pii
  import opened Survival
  import opened Stability

  function Refs(x: Ctx, s: string): Parts {
    NonEmpty(BusinessRef);
    Split(Rx(BusinessRef), x, s)
  }

  ghost predicate IsRef(x: Ctx, s: string, n: nat) { Matches(Rx(BusinessRef), x, s, n) }

  lemma RefFacts(x: Ctx, s: string, n: nat) returns (k: nat, m: nat)
    requires IsRef(x, s, n) && Sane(x)
    ensures 0 < n <= |s| && x == EDGE && IsLetter(s[0]) && IsDigit(s[n - 1]) && !WordNext(s[n..])
    ensures RefParts(s, n, k, m)
  {
    hide Matches, Rx, Ref;
    Guarded(BusinessRef, x, s, n);
    RefEnds(x, s, n);
    k, m := RefShape(x, s, n);
  }

  // Wherever a reference starts, its end is determined.
  lemma RefUnique(x: Ctx, s: string, n: nat, m: nat)
    requires IsRef(x, s, n) && IsRef(x, s, m) && Sane(x)
    ensures n == m
  {
    hide IsRef;
    var k1, d1 := RefFacts(x, s, n);
    var k2, d2 := RefFacts(x, s, m);
    if n != m { assert false; }
  }

  // No reference starts inside another one.
  lemma NoNestedRef(x: Ctx, s: string, n: nat, j: nat, m: nat)
    requires IsRef(x, s, n) && Sane(x) && 0 < j < n <= |s|
    ensures !IsRef(CtxOf(s[j - 1]), s[j..], m)
  {
    hide IsRef, RefParts;
    var k, d := RefFacts(x, s, n);
    NoWordInside(s, n, k, d, j);
    if IsRef(CtxOf(s[j - 1]), s[j..], m) {
      var k2, d2 := RefFacts(CtxOf(s[j - 1]), s[j..], m);
      NoLinkHead(s[j..], m, k2, d2);
    }
  }

  lemma NoLinkHead(s: string, n: nat, k: nat, m: nat)
    requires RefParts(s, n, k, m)
    ensures !LinkHead(s)
  {
  }

  lemma NoWordInside(s: string, n: nat, k: nat, m: nat, j: nat)
    requires RefParts(s, n, k, m) && 0 < j < n
    ensures IsLetter(s[j]) && !IsWord(s[j - 1]) ==> LinkHead(s[j..])
  {
    hide LinkHead;
    if IsLetter(s[j]) && !IsWord(s[j - 1]) {
      assert k < j < m;
      assert s[k..][j - k] == s[j] && s[k..][j - k - 1] == s[j - 1];
      assert NewWord(s[k..], j - k) && s[k..][j - k..] == s[j..];
    }
  }

  lemma RefFirst(x: Ctx, s: string)
    ensures First(Rx(BusinessRef), x, s).None? <==> forall n: nat :: !IsRef(x, s, n)
    ensures First(Rx(BusinessRef), x, s).Some? ==> IsRef(x, s, First(Rx(BusinessRef), x, s).value)
  {
    hide Ends, Rx;
    FirstMatches(Rx(BusinessRef), x, s);
    if First(Rx(BusinessRef), x, s).None? {
      forall n: nat ensures !IsRef(x, s, n) { EndsAreMatches(Rx(BusinessRef), x, s, n); }
    } else {
      assert IsRef(x, s, First(Rx(BusinessRef), x, s).value);
    }
  }

  lemma RefFirstIs(x: Ctx, s: string, n: nat)
    requires IsRef(x, s, n) && Sane(x)
    ensures First(Rx(BusinessRef), x, s) == Some(n)
  {
    hide Rx, First, IsRef;
    RefFirst(x, s);
    RefUnique(x, s, n, First(Rx(BusinessRef), x, s).value);
  }

  // In front of a reference `h`, the text `a` is scanned as if it stood alone.
  lemma RefBeside(x: Ctx, a: string, h: string, b: string, n: nat)
    requires Sane(x) && a != [] && IsRef(After(x, a, |a|), h + b, |h|)
    ensures IsRef(x, a + (h + b), n) <==> IsRef(x, a, n)
  {
    hide Matches, Rx;
    var s, z := a + (h + b), h + b;
    var y := After(x, a, |a|);
    hide IsRef;
    var _, _ := RefFacts(y, z, |h|);
    assert s[|a|..] == z && s[|a| - 1] == a[|a| - 1] && y == CtxOf(a[|a| - 1]);
    if IsRef(x, s, n) {
      var _, _ := RefFacts(x, s, n);
      if n > |a| { NoNestedRef(x, s, n, |a|, |h|); }
    }
    if IsRef(x, a, n) { var _, _ := RefFacts(x, a, n); }
    if n < |a| { RefPrefix(x, a, z, n); }
  }

  lemma RefPrefix(x: Ctx, a: string, z: string, n: nat)
    requires n < |a| || (n == |a| && !WordNext(z))
    ensures IsRef(x, a + z, n) <==> IsRef(x, a, n)
  {
    SamePrefix(Rx(BusinessRef), x, a, z, n);
  }

  lemma FirstBeside(x: Ctx, a: string, h: string, b: string)
    requires Sane(x) && a != [] && IsRef(After(x, a, |a|), h + b, |h|)
    ensures First(Rx(BusinessRef), x, a + (h + b)) == First(Rx(BusinessRef), x, a)
  {
    hide Rx, First, IsRef;
    forall n: nat ensures IsRef(x, a + (h + b), n) <==> IsRef(x, a, n) { RefBeside(x, a, h, b, n); }
    RefFirst(x, a + (h + b));
    RefFirst(x, a);
    if First(Rx(BusinessRef), x, a).Some? {
      RefFirstIs(x, a + (h + b), First(Rx(BusinessRef), x, a).value);
    }
  }

  // The scan stops at the reference and takes it up there.
  lemma {:induction false} SplitAtRef(x: Ctx, a: string, h: string, b: string)
    requires Sane(x) && h != [] && IsRef(After(x, a, |a|), h + b, |h|)
    ensures Refs(x, a + (h + b)) == Fuse(Refs(x, a), More("", h, Refs(CtxOf(h[|h| - 1]), b)))
    decreases |a|
  {
    hide Rx, First, IsRef, Sane;
    NonEmpty(BusinessRef);
    var r, s, z := Rx(BusinessRef), a + (h + b), h + b;
    FirstPositive(r, x, a);
    if a == [] {
      assert s == z && z[..|h|] == h && z[|h|..] == b;
      RefFirstIs(x, z, |h|);
      assert Refs(x, z) == Cut(r, z, Some(|h|)) && Refs(x, a) == Cut(r, a, None);
    } else {
      FirstBeside(x, a, h, b);
      assert Refs(x, s) == Cut(r, s, First(r, x, a)) && Refs(x, a) == Cut(r, a, First(r, x, a));
      if First(r, x, a).Some? {
        var n := First(r, x, a).value;
        CutBeside(a, z, n);
        AfterCut(x, a, n);
        SplitAtRef(CtxOf(a[n - 1]), a[n..], h, b);
      } else {
        CutBeside(a, z, 1);
        AfterCut(x, a, 1);
        SplitAtRef(CtxOf(a[0]), a[1..], h, b);
        PrependFuse([a[0]], Refs(CtxOf(a[0]), a[1..]), More("", h, Refs(CtxOf(h[|h| - 1]), b)));
      }
    }
  }

  lemma CutBeside(a: string, z: string, n: nat)
    requires n <= |a|
    ensures (a + z)[..n] == a[..n] && (a + z)[n..] == a[n..] + z
  {
  }

  lemma AfterCut(x: Ctx, a: string, n: nat)
    requires 0 < n <= |a|
    ensures After(CtxOf(a[n - 1]), a[n..], |a| - n) == After(x, a, |a|) && Sane(CtxOf(a[n - 1]))
  {
  }

  // A text that does not start with a word character is scanned alike in every context.
  lemma RefsContext(x: Ctx, s: string)
    requires Sane(x) && !WordNext(s)
    ensures Refs(x, s) == Refs(EDGE, s)
  {
    hide Rx, First, IsRef;
    NonEmpty(BusinessRef);
    forall y, n: nat | Sane(y) ensures !IsRef(y, s, n) {
      if IsRef(y, s, n) { var _, _ := RefFacts(y, s, n); }
    }
    RefFirst(x, s);
    RefFirst(EDGE, s);
  }

  /* ---- references that stand free ---- */

  // Every hit is a complete reference by itself, behind a gap that does not end in a
  // word character and before one that does not start with one.
  ghost predicate Standing(q: Parts) {
    q.More? ==>
      && q.hit != [] && IsRef(EDGE, q.hit, |q.hit|)
      && !After(EDGE, q.gap, |q.gap|).word && !WordNext(Whole(q.rest))
      && Standing(q.rest)
  }

  lemma {:induction false} RefsStanding(x: Ctx, s: string)
    requires Sane(x)
    ensures Standing(Refs(x, s))
    decreases |s|
  {
    hide Rx, Split, IsRef, FirstAt, Matches, MatchAt;
    NonEmpty(BusinessRef);
    var q := Refs(x, s);
    SplitStep(Rx(BusinessRef), x, s);
    if q.More? {
      FirstAtMatches(Rx(BusinessRef), x, s, |q.gap|);
      FreeHit(x, s, |q.gap|, |q.hit|);
      var k := |q.gap| + |q.hit|;
      RefsStanding(CtxOf(s[k - 1]), s[k..]);
      SplitWhole(Rx(BusinessRef), CtxOf(s[k - 1]), s[k..]);
      assert After(EDGE, q.gap, |q.gap|) == (if q.gap == [] then EDGE else After(x, s, |q.gap|));
    }
  }

  lemma FreeHit(x: Ctx, s: string, i: nat, n: nat)
    requires Sane(x) && MatchAt(Rx(BusinessRef), x, s, i, n)
    ensures 0 < n && i + n <= |s| && IsRef(EDGE, s[i..i + n], n)
    ensures !After(x, s, i).word && !WordNext(s[i + n..])
  {
    hide Matches, Rx;
    var t := s[i..];
    assert IsRef(After(x, s, i), t, n);
    RefRoom(After(x, s, i), t, n);
    var h, z := s[i..i + n], s[i + n..];
    assert t == h + z && t[n..] == z;
    RefPrefix(EDGE, h, z, n);
  }

  lemma RefRoom(x: Ctx, s: string, n: nat)
    requires IsRef(x, s, n) && Sane(x)
    ensures x == EDGE && 0 < n <= |s| && !WordNext(s[n..])
  {
    hide IsRef;
    var _, _ := RefFacts(x, s, n);
  }

  // A pass keeps the last character of a text or puts a bracket there.
  lemma {:induction false} PassLast(q: Parts)
    ensures Whole(q) == [] <==> Masked(q) == []
    ensures Whole(q) != [] ==>
      Masked(q)[|Masked(q)| - 1] == ']' || Masked(q)[|Masked(q)| - 1] == Whole(q)[|Whole(q)| - 1]
    requires HitsNonEmpty(q)
  {
    if q.More? { PassLast(q.rest); }
  }

  lemma PassKeepsEnd(p: Pattern, s: string)
    requires !After(EDGE, s, |s|).word
    ensures !After(EDGE, Pass(p, s), |Pass(p, s)|).word
  {
    hide Rx, Split;
    NonEmpty(p);
    SplitHits(Rx(p), EDGE, s);
    SplitWhole(Rx(p), EDGE, s);
    PassLast(Scanned(p, s));
  }

  lemma {:induction false} PassesKeepEnd(ps: seq<Pattern>, s: string)
    requires !After(EDGE, s, |s|).word
    ensures !After(EDGE, Passes(ps, s), |Passes(ps, s)|).word
  {
    hide Pass;
    if ps != [] {
      PassKeepsEnd(ps[0], s);
      PassesKeepEnd(ps[1..], Pass(ps[0], s));
    }
  }

  lemma {:induction false} SweptStanding(ps: seq<Pattern>, q: Parts)
    requires Standing(q)
    ensures Standing(Swept(ps, q))
    decreases q
  {
    hide Passes, IsRef;
    if q.More? {
      PassesKeepEnd(ps, q.gap);
      SweptStart(ps, q.rest);
      SweptStanding(ps, q.rest);
    }
  }

  lemma SweptStart(ps: seq<Pattern>, q: Parts)
    requires Standing(q) && !WordNext(Whole(q))
    ensures !WordNext(Whole(Swept(ps, q)))
  {
    hide Passes, IsRef;
    PassesStart(ps, q.gap);
    if q.More? {
      var _, _ := RefFacts(EDGE, q.hit, |q.hit|);
      assert Whole(q) == q.gap + (q.hit + Whole(q.rest));
      assert Whole(Swept(ps, q))[0] == Passes(ps, q.gap)[0];
    }
  }

  lemma {:induction false} PassesStart(ps: seq<Pattern>, s: string)
    requires !WordNext(s)
    ensures !WordNext(Passes(ps, s)) && (s != [] ==> Passes(ps, s) != [])
  {
    hide Pass;
    if ps != [] {
      PassHead(ps[0], s);
      PassesStart(ps[1..], Pass(ps[0], s));
    }
  }

  /* ---- the second scan ---- */

  // Every gap scanned by itself, the references between.
  function Rescanned(q: Parts): Parts {
    match q
    case Last(g) => Refs(EDGE, g)
    case More(g, h, rest) => Fuse(Refs(EDGE, g), More("", h, Rescanned(rest)))
  }

  lemma {:induction false} SecondScan(q: Parts)
    requires Standing(q)
    ensures Refs(EDGE, Whole(q)) == Rescanned(q)
    decreases q
  {
    hide IsRef, Refs;
    match q
    case Last(_) =>
    case More(g, h, rest) =>
      var b := Whole(rest);
      SecondScan(rest);
      RefPrefix(EDGE, h, b, |h|);
      assert After(EDGE, g, |g|) == EDGE;
      SplitAtRef(EDGE, g, h, b);
      assert g + h + b == g + (h + b);
      RefsContext(CtxOf(h[|h| - 1]), b);
  }

  /* ---- segments hold no references ---- */

  // No gap holds a reference when it stands alone.
  ghost predicate GapsFree(q: Parts) {
    Refs(EDGE, q.gap) == Last(q.gap) && (q.More? ==> GapsFree(q.rest))
  }

  lemma {:induction p} FuseHits(p: Parts, h: string, q: Parts)
    ensures |Hits(Fuse(p, More("", h, q)))| == |Hits(p)| + 1 + |Hits(q)|
  {
  }

  // Scanning the gaps by themselves can only add hits.
  lemma {:induction false} RescanHits(q: Parts)
    ensures |Hits(Rescanned(q))| >= |Hits(q)|
    ensures |Hits(Rescanned(q))| == |Hits(q)| ==> GapsFree(q)
    decreases q
  {
    hide Split, Rx;
    NonEmpty(BusinessRef);
    SplitWhole(Rx(BusinessRef), EDGE, q.gap);
    match q
    case Last(_) =>
    case More(g, h, rest) =>
      RescanHits(rest);
      FuseHits(Refs(EDGE, g), h, Rescanned(rest));
  }

  // The scan of the whole text is its own second scan, so the gaps add none.
  lemma SegmentsFree(text: string)
    ensures GapsFree(Scanned(BusinessRef, text))
  {
    hide Rescanned, Standing, Split, Rx, GapsFree;
    NonEmpty(BusinessRef);
    var q := Scanned(BusinessRef, text);
    RefsStanding(EDGE, text);
    SplitWhole(Rx(BusinessRef), EDGE, text);
    SecondScan(q);
    RescanHits(q);
  }

  lemma FreeRedact(g: string)
    requires Refs(EDGE, g) == Last(g)
    ensures Redact(g) == Passes(PASSES, g)
  {
    hide Passes, Split, Rx;
    assert Scanned(BusinessRef, g) == Last(g);
  }

  // Every segment redacted as a text of its own.
  function Segmented(q: Parts): Parts {
    match q
    case Last(g) => Last(Redact(g))
    case More(g, h, rest) => More(Redact(g), h, Segmented(rest))
  }

  lemma {:induction false} SweptIsSegmented(q: Parts)
    requires GapsFree(q)
    ensures Swept(PASSES, q) == Segmented(q)
    decreases q
  {
    hide Redact, Passes, Refs;
    FreeRedact(q.gap);
    if q.More? { SweptIsSegmented(q.rest); }
  }
}

// The passes count brackets: they change a text exactly when a pattern matches in it.

module Detector {
  import opened Text
  import opened Regex
  import opened RegexFacts
  import opened Scan
  import opened Patterns
  import opened PatternFacts
  import opened Pii
  import opened Survival

  // How many masks a text can hold at most: its opening brackets.
  function Brackets(s: string): nat {
    if s == [] then 0 else (if s[0] == '[' then 1 else 0) + Brackets(s[1..])
  }

  lemma {:induction false} BracketsAdd(a: string, b: string)
    ensures Brackets(a + b) == Brackets(a) + Brackets(b)
    decreases |a|
  {
    if a == [] {
      assert a + b == b;
    } else {
      assert (a + b)[1..] == a[1..] + b;
      BracketsAdd(a[1..], b);
    }
  }

  lemma {:induction false} NoBrackets(s: string)
    requires Lacks(s, '[')
    ensures Brackets(s) == 0
    decreases |s|
  {
    if s != [] { NoBrackets(s[1..]); }
  }

  lemma MaskBrackets()
    ensures Brackets(MASK) == 1
  {
    assert MASK[1..] == "REDACTED]" && MASK[0] == '[';
    NoBrackets("REDACTED]");
  }

  predicate HitsLack(p: Parts, c: char) {
    p.More? ==> Lacks(p.hit, c) && HitsLack(p.rest, c)
  }

  // No match contains a bracket or a NUL.
  lemma {:induction false} MatchesLack(p: Pattern, x: Ctx, s: string, c: char)
    requires Stops(c)
    ensures MinLen(Rx(p)) > 0 && HitsLack(Split(Rx(p), x, s), c)
    decreases |s|
  {
    hide Rx, First, Barrier;
    NonEmpty(p);
    FirstPositive(Rx(p), x, s);
    if First(Rx(p), x, s).Some? {
      var n := First(Rx(p), x, s).value;
      FirstLacks(p, x, s, c);
      MatchesLack(p, CtxOf(s[n - 1]), s[n..], c);
    } else if s != [] {
      MatchesLack(p, CtxOf(s[0]), s[1..], c);
    }
  }

  lemma FirstLacks(p: Pattern, x: Ctx, s: string, c: char)
    requires Stops(c) && First(Rx(p), x, s).Some?
    ensures Lacks(s[..First(Rx(p), x, s).value], c)
  {
    hide Rx, First, Consumes, Matches;
    FirstMatches(Rx(p), x, s);
    var n := First(Rx(p), x, s).value;
    PatternStops(p, c);
    forall k | 0 <= k < n ensures s[k] != c { MatchAlphabet(Rx(p), x, s, n, k); }
  }

  // A mask for every hit: the count of brackets goes up by the count of hits.
  lemma {:induction false} MaskedBrackets(p: Parts)
    requires HitsLack(p, '[')
    ensures Brackets(Masked(p)) == Brackets(Whole(p)) + |Hits(p)|
    decreases p
  {
    if p.More? {
      MaskBrackets();
      NoBrackets(p.hit);
      MaskedBrackets(p.rest);
      BracketsAdd(p.gap + MASK, Masked(p.rest));
      BracketsAdd(p.gap, MASK);
      BracketsAdd(p.gap + p.hit, Whole(p.rest));
      BracketsAdd(p.gap, p.hit);
    }
  }

  lemma PassBrackets(p: Pattern, s: string)
    ensures Brackets(Pass(p, s)) == Brackets(s) + |Hits(Scanned(p, s))|
  {
    hide Rx, Split, Brackets;
    MatchesLack(p, EDGE, s, '[');
    MaskedBrackets(Scanned(p, s));
    SplitWhole(Rx(p), EDGE, s);
  }

  // No stretch of `s`, standing alone, matches `p`.
  ghost predicate PassClean(p: Pattern, s: string) { Clean(Rx(p), EDGE, s) }

  ghost predicate AllClean(ps: seq<Pattern>, s: string) {
    forall i :: 0 <= i < |ps| ==> PassClean(ps[i], s)
  }

  lemma PassCleanScan(p: Pattern, s: string)
    ensures PassClean(p, s) <==> Hits(Scanned(p, s)) == []
    ensures PassClean(p, s) ==> Pass(p, s) == s
  {
    hide Rx, Split, Clean;
    NonEmpty(p);
    SplitClean(Rx(p), EDGE, s);
  }

  // The passes never lose a bracket, and they gain none only if no pass finds anything
  // in the text as it was.
  lemma {:induction false} PassesBrackets(ps: seq<Pattern>, s: string)
    ensures Brackets(Passes(ps, s)) >= Brackets(s)
    ensures Brackets(Passes(ps, s)) == Brackets(s) ==> Passes(ps, s) == s && AllClean(ps, s)
  {
    hide Brackets, Pass, Scanned, PassClean;
    if ps != [] {
      PassBrackets(ps[0], s);
      PassCleanScan(ps[0], s);
      PassesBrackets(ps[1..], Pass(ps[0], s));
    }
  }

  lemma {:induction false} PassesClean(ps: seq<Pattern>, s: string)
    requires AllClean(ps, s)
    ensures Passes(ps, s) == s
  {
    hide Pass, PassClean;
    if ps != [] {
      assert PassClean(ps[0], s);
      PassCleanScan(ps[0], s);
      assert AllClean(ps[1..], s);
      PassesClean(ps[1..], s);
    }
  }

  ghost predicate GapsClean(ps: seq<Pattern>, q: Parts) {
    AllClean(ps, q.gap) && (q.More? ==> GapsClean(ps, q.rest))
  }

  lemma {:induction false} SweptBrackets(ps: seq<Pattern>, q: Parts)
    ensures Brackets(Whole(Swept(ps, q))) >= Brackets(Whole(q))
    ensures Brackets(Whole(Swept(ps, q))) == Brackets(Whole(q)) ==> GapsClean(ps, q)
    decreases q
  {
    hide Brackets, Passes, AllClean;
    PassesBrackets(ps, q.gap);
    if q.More? {
      SweptBrackets(ps, q.rest);
      var g := Passes(ps, q.gap);
      BracketsAdd(g + q.hit, Whole(Swept(ps, q.rest)));
      BracketsAdd(g, q.hit);
      BracketsAdd(q.gap + q.hit, Whole(q.rest));
      BracketsAdd(q.gap, q.hit);
    }
  }

  lemma {:induction false} SweptClean(ps: seq<Pattern>, q: Parts)
    requires GapsClean(ps, q)
    ensures Swept(ps, q) == q
    decreases q
  {
    hide Passes, AllClean;
    PassesClean(ps, q.gap);
    if q.More? { SweptClean(ps, q.rest); }
  }

  lemma CleanAround(p: Pattern, a: string, b: char, c: string)
    requires Stops(b)
    ensures PassClean(p, a + [b] + c) <==> PassClean(p, a) && PassClean(p, c)
  {
    hide Rx, Clean;
    PatternStops(p, b);
    CleanBarrier(Rx(p), a, b, c);
  }

  lemma {:induction false} ShieldedClean(p: Pattern, q: Parts, k: nat)
    requires p in PASSES && k + |Hits(q)| <= MAX_REFS
    ensures PassClean(p, Shielded(q, k)) <==> GapsClean([p], q)
    decreases q
  {
    hide Tag, Placeholder, PassClean;
    assert AllClean([p], q.gap) <==> PassClean(p, q.gap) by { assert [p][0] == p; }
    match q
    case Last(g) =>
    case More(g, h, rest) =>
      var y := Shielded(rest, k + 1);
      ShieldedClean(p, rest, k + 1);
      OpenPlaceholder(g, k, y);
      CleanAround(p, g, NUL, Tag(k) + [NUL] + y);
      CleanAround(p, Tag(k), NUL, y);
      TagPassClean(p, k);
  }

  lemma TagPassClean(p: Pattern, k: nat)
    requires p in PASSES && k < MAX_REFS
    ensures PassClean(p, Tag(k))
  {
    hide Clean, Rx, Tag;
    TagClean(p, k);
  }

  lemma {:induction q} GapsCleanAll(ps: seq<Pattern>, q: Parts)
    ensures GapsClean(ps, q) <==> forall i :: 0 <= i < |ps| ==> GapsClean([ps[i]], q)
  {
    hide PassClean;
    forall i | 0 <= i < |ps|
      ensures AllClean([ps[i]], q.gap) <==> PassClean(ps[i], q.gap)
    {
      assert [ps[i]][0] == ps[i];
    }
    if q.More? { GapsCleanAll(ps, q.rest); }
  }
}

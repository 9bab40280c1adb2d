// A pass does not open up new matches of its own or of an earlier pattern, except
// where a masked number uncovers a telephone number in parentheses.

module Stability {
  import opened Text
  import opened Regex
  import opened RegexFacts
  import opened Scan
  import opened Patterns
  import opened PatternFacts
  import opened Pii
  import opened Survival
  import opened Detector

  // `g` starts with a complete telephone number whose area code is in parentheses.
  predicate OpensPhone(g: string) {
    exists n: nat :: n <= |g| && ParenPhone(g, n) && !DigitNext(g[n..])
  }

  // Somewhere, right behind a hit, a gap starts with such a number.
  predicate Glued(q: Parts) {
    q.More? && (OpensPhone(q.rest.gap) || Glued(q.rest))
  }

  predicate Sane(x: Ctx) { x.digit ==> x.word }

  /* ---- a match in a gap standing alone is a match in the whole text ---- */

  lemma InWhole(p: Pattern, x: Ctx, g: string, z: string, i: nat, n: nat)
    requires p in PASSES && MatchAt(Rx(p), EDGE, g, i, n) && n > 0
    requires i > 0 || x == EDGE || p == Email
    requires p != Email && z != [] ==> !After(x, g, |g|).digit
    ensures MatchAt(Rx(p), x, g + z, i, n)
  {
    hide Matches, Rx, Body;
    var t, y := g[i..], After(EDGE, g, i);
    WithinLength(Rx(p), y, t, n);
    assert (g + z)[i..] == t + z;
    if p == Email {
      EmailIsBlind();
      BlindMatch(Rx(p), y, After(x, g + z, i), t, t + z, n);
    } else {
      Around(p, y, t, n);
      assert n == |t| ==> t[n - 1] == g[|g| - 1];
      SamePrefix(Rx(p), y, t, z, n);
      assert y == After(x, g + z, i);
    }
  }

  lemma EmailIsBlind()
    ensures Rx(Email) == EMAIL && Blind(EMAIL)
  {
    EmailProfile('0');
  }

  // A gap that no match of `p` enters, seen from the whole text, has none standing alone.
  lemma GapStaysClean(p: Pattern, x: Ctx, g: string, z: string)
    requires p in PASSES && Sane(x)
    requires forall i: nat, n: nat :: i < |g| ==> !MatchAt(Rx(p), x, g + z, i, n)
    requires p != Email && z != [] ==> !After(x, g, |g|).digit
    requires p != Email ==> x == EDGE || !DigitNext(g)
    requires p == Phone ==> x == EDGE || !OpensPhone(g)
    ensures PassClean(p, g)
  {
    hide Matches, Rx, Body, MatchAt, OpensPhone;
    forall i: nat, n: nat
      ensures !MatchAt(Rx(p), EDGE, g, i, n)
    {
      if MatchAt(Rx(p), EDGE, g, i, n) {
        MatchRoom(p, g, i, n);
        if i == 0 && x != EDGE && p != Email {
          FrontMatch(p, g, n);
          InWhole(p, x, g, z, 1, n - 1);
        } else {
          InWhole(p, x, g, z, i, n);
        }
      }
    }
  }

  lemma MatchRoom(p: Pattern, g: string, i: nat, n: nat)
    requires MatchAt(Rx(p), EDGE, g, i, n)
    ensures 0 < n && i + n <= |g|
  {
    hide Matches, Rx;
    NonEmpty(p);
    MatchLength(Rx(p), After(EDGE, g, i), g[i..], n);
    WithinLength(Rx(p), After(EDGE, g, i), g[i..], n);
  }

  // A match at the front that does not start with a digit is a telephone number: either
  // with an area code in parentheses, or with a plus sign that can be left out.
  lemma FrontMatch(p: Pattern, g: string, n: nat)
    requires p in PASSES && p != Email && MatchAt(Rx(p), EDGE, g, 0, n)
    requires !DigitNext(g) && (p == Phone ==> !OpensPhone(g))
    ensures p == Phone && n > 1 && MatchAt(Rx(p), EDGE, g, 1, n - 1) && |g| > 1
  {
    hide Matches, Rx, Body, OpensPhone;
    assert g[0..] == g;
    Guarded(p, EDGE, g, n);
    BodyEnds(p, EDGE, g, n);
    FrontPhone(g, n);
    Guarded(Phone, CtxOf(g[0]), g[1..], n - 1);
  }

  lemma FrontPhone(g: string, n: nat)
    requires n <= |g| && Matches(Body(Phone), EDGE, g, n) && !DigitNext(g[n..])
    requires !DigitNext(g) && !OpensPhone(g)
    ensures 1 < n <= |g| && g[0] == '+' && Matches(Body(Phone), CtxOf(g[0]), g[1..], n - 1)
    ensures !DigitNext(g[1..][n - 1..])
  {
    hide Matches, ParenPhone;
    PhoneShape(EDGE, g, n);
    assert g[1..][n - 1..] == g[n..];
  }

  /* ---- along a scan ---- */

  lemma ShiftMatch(r: Regex, x: Ctx, s: string, k: nat, i: nat, n: nat)
    requires 0 < k <= |s|
    ensures MatchAt(r, CtxOf(s[k - 1]), s[k..], i, n) <==> MatchAt(r, x, s, k + i, n)
  {
    hide Matches;
    if k + i <= |s| { assert s[k..][i..] == s[k + i..]; }
  }

  lemma CleanTail(r: Regex, x: Ctx, s: string, k: nat)
    requires Clean(r, x, s) && 0 < k <= |s|
    ensures Clean(r, CtxOf(s[k - 1]), s[k..])
  {
    hide Matches, MatchAt;
    var y, t := CtxOf(s[k - 1]), s[k..];
    forall i: nat, n: nat
      ensures !MatchAt(r, y, t, i, n)
    {
      ShiftMatch(r, x, s, k, i, n);
    }
  }

  lemma NoneBefore(p: Pattern, q: Pattern, x: Ctx, s: string)
    requires p == q || Clean(Rx(p), x, s)
    ensures MinLen(Rx(q)) > 0
    ensures forall i: nat, n: nat :: i < |Split(Rx(q), x, s).gap| ==> !MatchAt(Rx(p), x, s, i, n)
  {
    hide Matches, Rx, Split, FirstAt, MatchAt;
    NonEmpty(q);
    if p == q {
      SplitStep(Rx(q), x, s);
      forall i: nat, n: nat | i < |Split(Rx(q), x, s).gap|
        ensures !MatchAt(Rx(p), x, s, i, n)
      {
        FirstAtMatches(Rx(q), x, s, i);
      }
    }
  }

  // A digit to the left is not followed by another one.
  predicate Settled(x: Ctx, s: string) { Sane(x) && (x == EDGE || !DigitNext(s)) }

  // What the first hit says about its neighbours.
  lemma HitNeighbours(q: Pattern, x: Ctx, s: string)
    requires q != Email && Sane(x)
    ensures MinLen(Rx(q)) > 0
    ensures var p := Split(Rx(q), x, s); p.More? ==>
      && |p.hit| > 0 && |p.gap| + |p.hit| <= |s| && !After(x, s, |p.gap|).digit
      && Settled(CtxOf(p.hit[|p.hit| - 1]), s[|p.gap| + |p.hit|..])
  {
    hide Matches, Rx, Split, FirstAt, MatchAt, Settled, After;
    NonEmpty(q);
    SplitStep(Rx(q), x, s);
    var p := Split(Rx(q), x, s);
    if p.More? {
      FirstAtMatches(Rx(q), x, s, |p.gap|);
      Neighbours(q, x, s, |p.gap|, |p.hit|);
    }
  }

  lemma Neighbours(q: Pattern, x: Ctx, s: string, i: nat, n: nat)
    requires q != Email && Sane(x) && MatchAt(Rx(q), x, s, i, n)
    ensures 0 < n && i + n <= |s| && !After(x, s, i).digit && Settled(CtxOf(s[i + n - 1]), s[i + n..])
  {
    hide Matches, Rx;
    var t := s[i..];
    Around(q, After(x, s, i), t, n);
    assert t[n - 1] == s[i + n - 1] && t[n..] == s[i + n..];
  }

  // All gaps of a scan for `q` stay clean of `p`, unless the scan is glued.
  lemma {:induction false} ScanStaysClean(p: Pattern, q: Pattern, x: Ctx, s: string)
    requires p in PASSES && Sane(x)
    requires p == q || Clean(Rx(p), x, s)
    requires p != Email ==> q != Email && (x == EDGE || !DigitNext(s))
    requires MinLen(Rx(q)) > 0
    requires p == Phone ==> (x == EDGE || !OpensPhone(Split(Rx(q), x, s).gap)) && !Glued(Split(Rx(q), x, s))
    ensures GapsClean([p], Split(Rx(q), x, s))
    decreases |s|
  {
    hide Matches, Rx, Split, FirstAt, MatchAt, OpensPhone, Clean, PassClean;
    var parts := Split(Rx(q), x, s);
    SplitStep(Rx(q), x, s);
    var g := parts.gap;
    var z := s[|g|..];
    assert g + z == s;
    NoneBefore(p, q, x, s);
    if q != Email { HitNeighbours(q, x, s); }
    assert After(x, s, |g|) == After(x, g, |g|);
    GapStaysClean(p, x, g, z);
    assert AllClean([p], g);
    if parts.More? {
      var k := |g| + |parts.hit|;
      assert s[k - 1] == parts.hit[|parts.hit| - 1];
      if p != q { CleanTail(Rx(p), x, s, k); }
      ScanStaysClean(p, q, CtxOf(s[k - 1]), s[k..]);
    }
  }

  /* ---- masked text ---- */

  const MASK_WORD := "REDACTED"

  lemma MaskParts(a: string, b: string)
    ensures a + MASK + b == a + ['['] + (MASK_WORD + [']'] + b)
  {
  }

  // No pattern matches inside the mask.
  lemma MaskClean(p: Pattern)
    ensures PassClean(p, MASK_WORD)
  {
    hide Matches, Rx, MatchAt, MASK_WORD;
    forall i: nat, n: nat
      ensures !MatchAt(Rx(p), EDGE, MASK_WORD, i, n)
    {
      NothingInMask(p, i, n);
    }
  }

  lemma NothingInMask(p: Pattern, i: nat, n: nat)
    ensures !MatchAt(Rx(p), EDGE, MASK_WORD, i, n)
  {
    hide Matches, Rx, Body, Needs;
    if i <= |MASK_WORD| {
      var x, t := After(EDGE, MASK_WORD, i), MASK_WORD[i..];
      assert forall k :: 0 <= k < |t| ==> t[k] == MASK_WORD[i + k] && IsLetter(t[k]);
      if Matches(Rx(p), x, t, n) {
        WithinLength(Rx(p), x, t, n);
        if p == Email {
          EmailIsBlind();
          EmailNeedsAt();
          MatchNeeds(EMAIL, x, t, n, '@');
        } else {
          Guarded(p, x, t, n);
          BodyEnds(p, x, t, n);
        }
      }
    }
  }

  // A masked text is clean exactly when all gaps are.
  lemma {:induction false} MaskedClean(p: Pattern, q: Parts)
    requires p in PASSES
    ensures PassClean(p, Masked(q)) <==> GapsClean([p], q)
    decreases q
  {
    hide PassClean;
    assert AllClean([p], q.gap) <==> PassClean(p, q.gap) by { assert [p][0] == p; }
    if q.More? {
      var y := Masked(q.rest);
      MaskedClean(p, q.rest);
      MaskParts(q.gap, y);
      CleanAround(p, q.gap, '[', MASK_WORD + [']'] + y);
      CleanAround(p, MASK_WORD, ']', y);
      MaskClean(p);
    }
  }

  // The pass for `q` leaves the text clean of `p`: of `q` itself, and of whatever it
  // was clean of before.
  lemma PassKeepsClean(p: Pattern, q: Pattern, s: string)
    requires p in PASSES && (p == q || PassClean(p, s)) && (p != Email ==> q != Email)
    requires p == Phone ==> !Glued(Scanned(q, s))
    ensures PassClean(p, Pass(q, s))
  {
    hide Rx, Split, Clean;
    NonEmpty(q);
    ScanStaysClean(p, q, EDGE, s);
    MaskedClean(p, Scanned(q, s));
  }
}

// Redaction of all texts: what it makes of every text that spells no placeholder, and exactly
// when all references survive.

module Bound {
  import opened Text
  import opened Regex
  import opened Scan
  import opened Patterns
  import opened Pii
  import opened Survival
  import opened Detector
  import opened RefScan
  import opened Tags
  import opened Restoring

  // The inputs that redaction is made for: ASCII, which the patterns are modelled for, few
  // enough references, and no placeholder spelled out.
  predicate Redactable(text: string) { Ascii(text) && FewRefs(text) && !Spells(text) }

  /* ---- counting NUL ---- */

  function Nuls(s: string): nat { multiset(s)[NUL] }

  lemma NulsAdd(a: string, b: string)
    ensures Nuls(a + b) == Nuls(a) + Nuls(b)
  {
  }

  lemma NulsNone(s: string)
    ensures Lacks(s, NUL) <==> Nuls(s) == 0
  {
    if Nuls(s) == 0 {
      forall k | 0 <= k < |s| ensures s[k] != NUL { assert s[k] in multiset(s); }
    }
  }

  // The passes take no NUL away and bring none in.
  lemma {:induction false} MaskedNuls(p: Parts)
    requires HitsLack(p, NUL)
    ensures Nuls(Masked(p)) == Nuls(Whole(p))
    decreases p
  {
    hide Nuls;
    if p.More? {
      MaskedNuls(p.rest);
      NulsNone(MASK);
      NulsNone(p.hit);
      NulsAdd(p.gap + MASK, Masked(p.rest));
      NulsAdd(p.gap, MASK);
      NulsAdd(p.gap + p.hit, Whole(p.rest));
      NulsAdd(p.gap, p.hit);
    }
  }

  lemma PassNuls(p: Pattern, s: string)
    ensures Nuls(Pass(p, s)) == Nuls(s)
  {
    hide Rx, Split, Nuls;
    MatchesLack(p, EDGE, s, NUL);
    MaskedNuls(Scanned(p, s));
    SplitWhole(Rx(p), EDGE, s);
  }

  lemma {:induction false} PassesNuls(ps: seq<Pattern>, s: string)
    ensures Nuls(Passes(ps, s)) == Nuls(s)
    decreases |ps|
  {
    hide Pass, Nuls;
    if ps != [] {
      PassNuls(ps[0], s);
      PassesNuls(ps[1..], Pass(ps[0], s));
    }
  }

  lemma {:induction false} SweptNuls(ps: seq<Pattern>, q: Parts)
    ensures Nuls(Whole(Swept(ps, q))) == Nuls(Whole(q))
    decreases q
  {
    hide Passes, Nuls;
    PassesNuls(ps, q.gap);
    if q.More? {
      var g := Passes(ps, q.gap);
      SweptNuls(ps, q.rest);
      NulsAdd(g + q.hit, Whole(Swept(ps, q.rest)));
      NulsAdd(g, q.hit);
      NulsAdd(q.gap + q.hit, Whole(q.rest));
      NulsAdd(q.gap, q.hit);
    }
  }

  // A lost reference leaves its NUL behind.
  lemma {:induction false} SurvivorsNuls(p: Parts, k: nat)
    requires AllSealed(p)
    ensures k + |Hits(p)| <= MAX_REFS ==> Survivors(p, k, true) == p
    ensures Nuls(Whole(Survivors(p, k, true))) >= Nuls(Whole(p))
    ensures k <= MAX_REFS < k + |Hits(p)| ==> Nuls(Whole(Survivors(p, k, true))) > Nuls(Whole(p))
    decreases p
  {
    hide Nuls, BROKEN;
    if p.More? {
      var s := Survivors(p, k, true);
      SurvivorsNuls(p.rest, k + 1);
      NulsNone(p.hit);
      BrokenNuls();
      NulsAdd(s.gap + s.hit, Whole(s.rest));
      NulsAdd(s.gap, s.hit);
      NulsAdd(p.gap + p.hit, Whole(p.rest));
      NulsAdd(p.gap, p.hit);
    }
  }

  lemma BrokenNuls()
    ensures Nuls([NUL] + BROKEN + [NUL]) > 0
  {
    assert ([NUL] + BROKEN + [NUL])[0] == NUL;
  }

  /* ---- the main results ---- */

  lemma {:induction false} PassesMixed(q: Parts, k: nat)
    ensures Passes(PASSES, Shielded(q, k)) == Mixed(Swept(PASSES, q), k, 0, true)
    decreases q
  {
    hide Passes, Tag, BROKEN;
    match q
    case Last(g) =>
    case More(g, h, rest) =>
      PassesMixed(rest, k + 1);
      PassesShielded(PASSES, g, k, Shielded(rest, k + 1));
      PassesTagLeft(k);
  }

  // Redaction restores the swept text.
  lemma RedactRestores(text: string)
    ensures var q := Scanned(BusinessRef, text);
      var p := Swept(PASSES, q);
      && Standing(q) && Standing(p) && Hits(p) == Hits(q) && Whole(q) == text
      && Redact(text) == Unshielded(Mixed(p, 0, 0, true), Hits(p), 0)
  {
    hide Scanned, Standing, Unshielded, Shielded, Passes, Swept, Mixed;
    var q := Scanned(BusinessRef, text);
    WholeCut(text);
    StandingCut(text);
    SweptStanding(PASSES, q);
    SweptHits(PASSES, q);
    PassesMixed(q, 0);
  }

  // Redaction of a text that spells no placeholder, however many references it holds: every
  // segment by itself, and between them the references verbatim, but for those whose number
  // has ten to twelve digits.
  lemma RedactInGeneral(text: string)
    requires !Spells(text)
    ensures Redact(text) == Whole(Survivors(Swept(PASSES, Scanned(BusinessRef, text)), 0, true))
  {
    hide Redact, Scanned, Standing, Swept, Mixed, Survivors, GapsSpellNone, SpellsNone, Unshielded;
    var q := Scanned(BusinessRef, text);
    RedactRestores(text);
    SpellingIsInGaps(q, |Hits(q)|);
    SweptSpellsNone(q, |Hits(q)|);
    Restore(Swept(PASSES, q), true);
  }

  lemma SweptSpellsNone(q: Parts, n: nat)
    ensures GapsSpellNone(q, n) ==> GapsSpellNone(Swept(PASSES, q), n)
    ensures n <= MAX_REFS ==> (GapsSpellNone(Swept(PASSES, q), n) <==> GapsSpellNone(q, n))
  {
    hide InGaps, Swept, Placeholder;
    forall i: nat | i < n
      ensures InGaps(Swept(PASSES, q), Placeholder(i)) ==> InGaps(q, Placeholder(i))
      ensures n <= MAX_REFS ==> (InGaps(Swept(PASSES, q), Placeholder(i)) <==> InGaps(q, Placeholder(i)))
    {
      SweptInGaps(q, i);
    }
  }

  // What a text that is its own redaction, or the one of its segments, must be like.
  lemma OnlyIfFew(text: string, s: string)
    requires Redact(text) == s && Nuls(s) == Nuls(text)
    ensures !Spells(text) ==> FewRefs(text)
  {
    hide Redact, Scanned, Standing, Swept, Mixed, Survivors, Nuls, Unshielded, AllSealed, Spells;
    var q := Scanned(BusinessRef, text);
    var p := Swept(PASSES, q);
    RedactRestores(text);
    if !Spells(text) {
      RedactInGeneral(text);
      StandingSealed(p);
      SurvivorsNuls(p, 0);
      SweptNuls(PASSES, q);
    }
  }

  // All references survive exactly if there are no more than the bound, and no placeholder
  // is spelled out.
  lemma ReferencesSurviveIff(text: string)
    ensures Redact(text) == Whole(Swept(PASSES, Scanned(BusinessRef, text))) <==> FewRefs(text) && !Spells(text)
  {
    hide Redact, Scanned, Swept, Standing, Mixed, Survivors, Nuls, Unshielded, AllSealed, SpellsNone, GapsSpellNone;
    var q := Scanned(BusinessRef, text);
    var p, n := Swept(PASSES, q), |Hits(q)|;
    RedactRestores(text);
    SweptNuls(PASSES, q);
    StandingSealed(p);
    SurvivorsNuls(p, 0);
    if !Spells(text) { RedactInGeneral(text); }
    if Redact(text) == Whole(p) {
      RestoredIsSpelledOut(p, Mixed(p, 0, 0, true));
      SpellingIsInGaps(p, n);
      Restore(p, true);
      SweptSpellsNone(q, n);
      SpellingIsInGaps(q, n);
    }
  }

  // What the reference scan finds in a redacted text: the scans of the redacted
  // segments, and between them the references of the original text.
  lemma SecondScanOfRedacted(text: string)
    requires Redactable(text)
    ensures Scanned(BusinessRef, Redact(text)) == Rescanned(Swept(PASSES, Scanned(BusinessRef, text)))
  {
    hide Redact, Swept, Rescanned, Standing, Split, Rx;
    ReferencesSurviveIff(text);
    RefsStanding(EDGE, text);
    SweptStanding(PASSES, Scanned(BusinessRef, text));
    SecondScan(Swept(PASSES, Scanned(BusinessRef, text)));
  }

  // Redaction is a homomorphism over the references: the redactions of the segments, with
  // the references verbatim between them.
  lemma RedactBySegments(text: string)
    requires Redactable(text)
    ensures Redact(text) == Whole(Segmented(Scanned(BusinessRef, text)))
    ensures Hits(Segmented(Scanned(BusinessRef, text))) == Hits(Scanned(BusinessRef, text))
  {
    hide Redact, Scanned, Swept, Segmented, GapsFree;
    SegmentsFree(text);
    SweptIsSegmented(Scanned(BusinessRef, text));
    SweptHits(PASSES, Scanned(BusinessRef, text));
    ReferencesSurviveIff(text);
  }

  // The texts without what placeholders are made of.
  predicate Plain(text: string) { Ascii(text) && Lacks(text, NUL) }

  lemma PlainSpellsNone(text: string, n: nat)
    requires Lacks(text, NUL)
    ensures SpellsNone(text, n)
  {
    hide Placeholder;
    forall i: nat | i < n ensures !Occurs(Placeholder(i), text) {
      PlaceholderHead(i);
      if Occurs(Placeholder(i), text) {
        var k := Spot(Placeholder(i), text);
      }
    }
  }

  // Plain texts stay plain exactly within the bound: beyond it, lost references leave NUL.
  lemma RedactPlainIff(text: string)
    requires Plain(text)
    ensures Plain(Redact(text)) <==> FewRefs(text)
  {
    hide Redact, Scanned, Swept, Standing, Mixed, Survivors, Nuls, Unshielded, AllSealed, SpellsNone, Ascii;
    var q := Scanned(BusinessRef, text);
    var p := Swept(PASSES, q);
    PlainSpellsNone(text, |Hits(q)|);
    RedactAscii(text);
    RedactRestores(text);
    RedactInGeneral(text);
    StandingSealed(p);
    SurvivorsNuls(p, 0);
    SweptNuls(PASSES, q);
    NulsNone(text);
    NulsNone(Redact(text));
  }
}

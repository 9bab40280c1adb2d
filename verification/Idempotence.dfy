// When redacting twice is the same as redacting once.

module Idempotence {
  import opened Text
  import opened Regex
  import opened RegexFacts
  import opened Scan
  import opened Patterns
  import opened PatternFacts
  import opened Pii
  import opened Survival
  import opened Detector
  import opened Stability
  import opened Exposure
  import opened RefScan
  import opened Restoring
  import opened Bound
  import opened Agreement

  // A gap that holds, read by itself, a reference directly before a parenthesised
  // telephone number.
  predicate RefGlued(q: Parts) {
    Glued(Scanned(BusinessRef, q.gap)) || (q.More? && RefGlued(q.rest))
  }

  // In the telephone scan or the address scan of the segment, something that is masked
  // stands directly before a parenthesised telephone number; or in a gap of the last scan
  // something does that is seen as a reference only next time. The look-behind hides that
  // number now and shows it next time.
  predicate SegmentGlued(s: string) {
    || Glued(Scanned(Phone, PhoneInput(s)))
    || Glued(Scanned(Ip, IpInput(s)))
    || RefGlued(Scanned(Ip, IpInput(s)))
  }

  predicate PartsGlued(q: Parts) {
    SegmentGlued(q.gap) || (q.More? && PartsGlued(q.rest))
  }

  predicate TextGlued(text: string) { PartsGlued(Scanned(BusinessRef, text)) }

  /* ---- references in the gaps of the last scan ---- */

  // No telephone number reaches over a bracket.
  lemma OpensBeforeBracket(g: string, z: string)
    requires z != [] && z[0] == '['
    ensures OpensPhone(g + z) <==> OpensPhone(g)
  {
    hide IsLocal;
    if OpensPhone(g) {
      var n: nat :| n <= |g| && ParenPhone(g, n) && !DigitNext(g[n..]);
      ParenPhoneKept(g, z, n);
    }
    if OpensPhone(g + z) {
      var n: nat :| n <= |g + z| && ParenPhone(g + z, n) && !DigitNext((g + z)[n..]);
      if |g| < n { PhoneChars(g + z, n, |g|); }
      ParenPhoneKept(g, z, n);
    }
  }

  lemma ParenPhoneKept(g: string, z: string, n: nat)
    requires n <= |g|
    ensures ParenPhone(g + z, n) <==> ParenPhone(g, n)
    ensures z != [] && z[0] == '[' ==> (DigitNext((g + z)[n..]) <==> DigitNext(g[n..]))
  {
    if n >= 12 {
      var s, t := (g + z)[5..], g[5..];
      assert forall k :: 0 <= k < n - 5 ==> s[k] == t[k] == g[5 + k];
      assert forall k :: 0 <= k < n ==> (g + z)[k] == g[k];
    }
  }

  lemma {:induction false} GluedFuse(p: Parts, q: Parts)
    requires q.gap != [] && q.gap[0] == '['
    ensures Glued(Fuse(p, q)) <==> Glued(p) || Glued(q)
    decreases p
  {
    hide OpensPhone;
    if p.More? {
      GluedFuse(p.rest, q);
      if p.rest.Last? { OpensBeforeBracket(p.rest.gap, q.gap); }
    }
  }

  // Read again, a masked text shows the references of its gaps.
  lemma {:induction false} RefGluedIff(q: Parts)
    ensures Glued(Scanned(BusinessRef, Masked(q))) <==> RefGlued(q)
    decreases q
  {
    hide Glued, Split, Rx, Clean, MASK_WORD;
    if q.More? {
      var r, z := Rx(BusinessRef), Masked(q.rest);
      RefGluedIff(q.rest);
      PatternStops(BusinessRef, '[');
      PatternStops(BusinessRef, ']');
      MaskParts(q.gap, z);
      SplitBarrier(r, EDGE, q.gap, '[', MASK_WORD + [']'] + z);
      SplitBarrier(r, EDGE, MASK_WORD, ']', z);
      MaskClean(BusinessRef);
      SplitClean(r, EDGE, MASK_WORD);
      var inner := Prepend(MASK_WORD, Prepend([']'], Split(r, EDGE, z)));
      GluedPrepend(['['], inner);
      GluedPrepend(MASK_WORD, Prepend([']'], Split(r, EDGE, z)));
      GluedPrepend([']'], Split(r, EDGE, z));
      GluedFuse(Split(r, EDGE, q.gap), Prepend(['['], inner));
    }
  }

  // The same for the number of references.
  function GapRefs(q: Parts): nat {
    |Hits(Scanned(BusinessRef, q.gap))| + if q.More? then GapRefs(q.rest) else 0
  }

  lemma {:induction p} FusedHits(p: Parts, q: Parts)
    ensures |Hits(Fuse(p, q))| == |Hits(p)| + |Hits(q)|
  {
  }

  lemma {:induction false} MaskedRefs(q: Parts)
    ensures |Hits(Scanned(BusinessRef, Masked(q)))| == GapRefs(q)
    decreases q
  {
    hide Split, Rx, Clean, MASK_WORD;
    if q.More? {
      var r, z := Rx(BusinessRef), Masked(q.rest);
      MaskedRefs(q.rest);
      PatternStops(BusinessRef, '[');
      PatternStops(BusinessRef, ']');
      MaskParts(q.gap, z);
      SplitBarrier(r, EDGE, q.gap, '[', MASK_WORD + [']'] + z);
      SplitBarrier(r, EDGE, MASK_WORD, ']', z);
      MaskClean(BusinessRef);
      SplitClean(r, EDGE, MASK_WORD);
      FusedHits(Split(r, EDGE, q.gap), Prepend(['['], Split(r, EDGE, MASK_WORD + [']'] + z)));
    }
  }

  lemma GluedPrepend(g: string, q: Parts)
    ensures Glued(Prepend(g, q)) <==> Glued(q)
    ensures g <= Prepend(g, q).gap
  {
  }

  /* ---- a segment that is not glued stays as it is ---- */

  lemma EarlyPasses(p: Pattern, s: string)
    requires p in {Email, Ssn, Card}
    ensures PassClean(p, PhoneInput(s))
  {
    hide Pass, PassClean;
    var a := Pass(Email, s);
    var b := Pass(Ssn, a);
    if p == Email { PassKeepsClean(Email, Email, s); PassKeepsClean(Email, Ssn, a); }
    if p == Ssn { PassKeepsClean(Ssn, Ssn, a); }
    PassKeepsClean(p, Card, b);
  }

  lemma FinalClean(p: Pattern, s: string)
    requires p in PASSES
    requires p == Phone ==> !Glued(Scanned(Phone, PhoneInput(s))) && !Glued(Scanned(Ip, IpInput(s)))
    ensures PassClean(p, Final(s))
  {
    hide Pass, PassClean, PhoneInput, Glued, Scanned;
    if p in {Email, Ssn, Card} { EarlyPasses(p, s); }
    if p != Ip { PassKeepsClean(p, Phone, PhoneInput(s)); }
    PassKeepsClean(p, Ip, IpInput(s));
  }

  // Taking references out of the final text opens nothing, unless they are glued.
  lemma RefGapsClean(p: Pattern, w: string)
    requires p in PASSES && PassClean(p, w)
    requires p == Phone ==> !Glued(Scanned(BusinessRef, w))
    ensures GapsClean([p], Scanned(BusinessRef, w))
  {
    hide Split, Rx, Clean, Glued;
    NonEmpty(BusinessRef);
    ScanStaysClean(p, BusinessRef, EDGE, w);
  }

  lemma FinalGlued(s: string)
    ensures Glued(Scanned(BusinessRef, Final(s))) <==> RefGlued(Scanned(Ip, IpInput(s)))
  {
    hide Scanned, Glued, IpInput;
    RefGluedIff(Scanned(Ip, IpInput(s)));
  }

  lemma NotGluedStable(s: string)
    requires !SegmentGlued(s)
    ensures GapsClean(PASSES, Scanned(BusinessRef, Final(s)))
  {
    FinalGlued(s);
    hide PassClean, GapsClean, Final, Scanned, Glued;
    GapsCleanAll(PASSES, Scanned(BusinessRef, Final(s)));
    forall i | 0 <= i < |PASSES|
      ensures GapsClean([PASSES[i]], Scanned(BusinessRef, Final(s)))
    {
      FinalClean(PASSES[i], s);
      RefGapsClean(PASSES[i], Final(s));
    }
  }

  /* ---- a glued segment changes ---- */

  lemma ExposedScan(q: Pattern, s: string)
    requires q in {Ip, BusinessRef} && Exposed(s)
    ensures GapExposed(Scanned(q, s))
  {
    hide Split, Rx, ExposedAt;
    var i: nat, n: nat :| ExposedAt(EDGE, s, i, n);
    ExposedInGap(q, EDGE, s, i, n);
  }

  lemma GluedExposes(q: Pattern, s: string)
    requires Glued(Scanned(q, s))
    ensures Exposed(Pass(q, s))
  {
    hide Scanned, Exposed, Glued;
    GluedExposed(Scanned(q, s));
    GapExposedMasked(Scanned(q, s));
  }

  lemma GluedUnstable(s: string)
    requires SegmentGlued(s)
    ensures !GapsClean(PASSES, Scanned(BusinessRef, Final(s)))
  {
    hide Scanned, Exposed, Glued, GapExposed, GapsClean, PhoneInput;
    var v, w := IpInput(s), Final(s);
    FinalGlued(s);
    if Glued(Scanned(Phone, PhoneInput(s))) {
      GluedExposes(Phone, PhoneInput(s));
      ExposedScan(Ip, v);
      GapExposedMasked(Scanned(Ip, v));
    } else if Glued(Scanned(Ip, v)) {
      GluedExposes(Ip, v);
    }
    var q := Scanned(BusinessRef, w);
    if Exposed(w) { ExposedScan(BusinessRef, w); } else { GluedExposed(q); }
    GapExposedNotClean(q);
    GapsCleanAll(PASSES, q);
    assert PASSES[3] == Phone;
  }

  /* ---- whole texts ---- */

  lemma {:induction false} CleanFuse(ps: seq<Pattern>, p: Parts, h: string, q: Parts)
    ensures GapsClean(ps, Fuse(p, More("", h, q))) <==> GapsClean(ps, p) && GapsClean(ps, q)
    decreases p
  {
    hide AllClean;
    match p
    case Last(g) => assert g + "" == g;
    case More(_, _, rest) => CleanFuse(ps, rest, h, q);
  }

  lemma {:induction false} StableParts(q: Parts)
    ensures GapsClean(PASSES, Rescanned(Swept(PASSES, q))) <==> !PartsGlued(q)
    decreases q
  {
    hide Passes, SegmentGlued, Refs, Scanned, Final;
    FinalIsPasses(q.gap);
    RefsScanned(Final(q.gap));
    if SegmentGlued(q.gap) { GluedUnstable(q.gap); } else { NotGluedStable(q.gap); }
    match q
    case Last(_) =>
    case More(g, h, rest) =>
      StableParts(rest);
      CleanFuse(PASSES, Refs(EDGE, Final(g)), h, Rescanned(Swept(PASSES, rest)));
  }

  lemma RefsScanned(s: string)
    ensures Refs(EDGE, s) == Scanned(BusinessRef, s)
  {
  }

  /* ---- the references of the redacted text ---- */

  // The references that a segment holds once it is redacted: those in the gaps of its last
  // scan.
  function PartsRefs(q: Parts): nat {
    GapRefs(Scanned(Ip, IpInput(q.gap))) + if q.More? then 1 + PartsRefs(q.rest) else 0
  }

  // How many references a text will hold when it is redacted.
  function RefsLeft(text: string): nat { PartsRefs(Scanned(BusinessRef, text)) }

  lemma FinalRefs(s: string)
    ensures |Hits(Scanned(BusinessRef, Final(s)))| == GapRefs(Scanned(Ip, IpInput(s)))
  {
    hide Scanned, IpInput;
    MaskedRefs(Scanned(Ip, IpInput(s)));
  }

  lemma {:induction false} RescannedRefs(q: Parts)
    ensures |Hits(Rescanned(Swept(PASSES, q)))| == PartsRefs(q)
    decreases q
  {
    hide Passes, Refs, Scanned, Final, IpInput;
    FinalIsPasses(q.gap);
    RefsScanned(Final(q.gap));
    FinalRefs(q.gap);
    if q.More? {
      RescannedRefs(q.rest);
      FuseHits(Refs(EDGE, Final(q.gap)), q.hit, Rescanned(Swept(PASSES, q.rest)));
    }
  }

  lemma RefsLeftAre(text: string)
    requires Redactable(text)
    ensures |Hits(Scanned(BusinessRef, Redact(text)))| == RefsLeft(text)
  {
    hide Redact, Swept, Rescanned, Scanned, Ascii, SpellsNone;
    SecondScanOfRedacted(text);
    RescannedRefs(Scanned(BusinessRef, text));
  }

  // Within the bound, the redacted text spells the placeholders that the text spells.
  lemma SpelledAlike(text: string, n: nat)
    requires Redactable(text) && n <= MAX_REFS
    ensures SpellsNone(Redact(text), n) <==> SpellsNone(text, n)
  {
    hide Redact, Swept, Scanned, Ascii, SpellsNone, GapsSpellNone, Standing, Mixed, Unshielded;
    var q := Scanned(BusinessRef, text);
    RedactRestores(text);
    ReferencesSurviveIff(text);
    SpellingIsInGaps(q, n);
    SpellingIsInGaps(Swept(PASSES, q), n);
    SweptSpellsNone(q, n);
  }

  // No segment of the redacted text holds a match exactly when the text is not glued.
  lemma RedactedCleanIff(text: string)
    requires Redactable(text)
    ensures GapsClean(PASSES, Scanned(BusinessRef, Redact(text))) <==> !TextGlued(text)
  {
    hide Redact, Swept, Rescanned, Scanned, PartsGlued, GapsClean, SpellsNone, Ascii;
    SecondScanOfRedacted(text);
    StableParts(Scanned(BusinessRef, text));
  }

  // Redacting a redacted text changes nothing exactly when the text is not glued, and the
  // references that it will hold are within the bound and spelled nowhere.
  lemma IdempotentIff(text: string)
    requires Redactable(text)
    ensures Redact(Redact(text)) == Redact(text) <==>
      RefsLeft(text) <= MAX_REFS && SpellsNone(text, RefsLeft(text)) && !TextGlued(text)
  {
    hide Redact, Scanned, TextGlued, GapsClean, SpellsNone, Ascii, RefsLeft;
    FixedIffClean(Redact(text));
    RefsLeftAre(text);
    if RefsLeft(text) <= MAX_REFS { SpelledAlike(text, RefsLeft(text)); }
    RedactedCleanIff(text);
  }

  /* ---- a guard that needs no scan ---- */

  // A digit directly before an opening parenthesis.
  predicate DigitParenAt(s: string, i: nat) { 0 < i < |s| && IsDigit(s[i - 1]) && s[i] == '(' }

  predicate NoDigitParen(s: string) { forall i :: 0 <= i < |s| ==> !DigitParenAt(s, i) }

  lemma NoDigitParenSub(s: string, i: nat, j: nat)
    requires NoDigitParen(s) && i <= j <= |s|
    ensures NoDigitParen(s[i..j])
  {
    forall k: nat ensures !DigitParenAt(s[i..j], k) {
      assert !DigitParenAt(s, i + k);
    }
  }

  lemma NoDigitParenJoin(a: string, b: string)
    requires NoDigitParen(a) && NoDigitParen(b)
    requires a == [] || b == [] || !(IsDigit(a[|a| - 1]) && b[0] == '(')
    ensures NoDigitParen(a + b)
  {
    forall k: nat ensures !DigitParenAt(a + b, k) {
      assert !DigitParenAt(a, k);
      if k > |a| { assert !DigitParenAt(b, k - |a|); }
    }
  }

  lemma MaskNoDigitParen()
    ensures NoDigitParen(MASK)
  {
    assert forall i :: 0 <= i < |MASK| ==> !IsDigit(MASK[i]);
  }

  // A pass puts no digit before a parenthesis.
  lemma {:induction false} MaskedNoDigitParen(q: Parts)
    requires NoDigitParen(Whole(q))
    ensures NoDigitParen(Masked(q))
    decreases q
  {
    hide NoDigitParen;
    if q.More? {
      var s, k := Whole(q), |q.gap| + |q.hit|;
      assert s[0..|q.gap|] == q.gap && s[k..|s|] == Whole(q.rest);
      NoDigitParenSub(s, 0, |q.gap|);
      NoDigitParenSub(s, k, |s|);
      MaskNoDigitParen();
      MaskedNoDigitParen(q.rest);
      NoDigitParenJoin(q.gap, MASK);
      NoDigitParenJoin(q.gap + MASK, Masked(q.rest));
    }
  }

  lemma PassNoDigitParen(p: Pattern, s: string)
    requires NoDigitParen(s)
    ensures NoDigitParen(Pass(p, s))
  {
    hide Split, Rx, NoDigitParen;
    NonEmpty(p);
    SplitWhole(Rx(p), EDGE, s);
    MaskedNoDigitParen(Scanned(p, s));
  }

  lemma {:induction false} NotGlued(q: Pattern, x: Ctx, s: string)
    requires q in {Phone, Ip, BusinessRef} && Sane(x) && NoDigitParen(s)
    ensures MinLen(Rx(q)) > 0 && !Glued(Split(Rx(q), x, s))
    decreases |s|
  {
    hide Split, Rx, Matches, FirstAt, MatchAt, OpensPhone, NoDigitParen;
    NonEmpty(q);
    SplitStep(Rx(q), x, s);
    var p := Split(Rx(q), x, s);
    if p.More? {
      var k := |p.gap| + |p.hit|;
      FirstAtMatches(Rx(q), x, s, |p.gap|);
      HitEndsInDigit(q, x, s, |p.gap|, |p.hit|);
      NoDigitParenSub(s, k, |s|);
      assert s[k..|s|] == s[k..];
      NotGlued(q, CtxOf(s[k - 1]), s[k..]);
      assert s[k - 1] == p.hit[|p.hit| - 1];
      SplitStep(Rx(q), CtxOf(s[k - 1]), s[k..]);
      NoPhoneBehindDigit(s, k, p.rest.gap);
    }
  }

  lemma HitEndsInDigit(q: Pattern, x: Ctx, s: string, i: nat, n: nat)
    requires q in {Phone, Ip, BusinessRef} && MatchAt(Rx(q), x, s, i, n)
    ensures 0 < n && i + n <= |s| && IsDigit(s[i + n - 1])
  {
    hide Rx, Matches, Body;
    Guarded(q, After(x, s, i), s[i..], n);
    BodyEnds(q, After(x, s, i), s[i..], n);
  }

  lemma NoPhoneBehindDigit(s: string, k: nat, g: string)
    requires NoDigitParen(s) && 0 < k <= |s| && IsDigit(s[k - 1])
    requires |g| <= |s| - k && g == s[k..][..|g|]
    ensures !OpensPhone(g)
  {
    assert !DigitParenAt(s, k);
    if g != [] { assert g[0] == s[k]; }
  }

  lemma SegmentNotGlued(s: string)
    requires NoDigitParen(s)
    ensures !SegmentGlued(s)
  {
    hide Pass, Split, Rx, NoDigitParen, Glued;
    PassNoDigitParen(Email, s);
    PassNoDigitParen(Ssn, Pass(Email, s));
    PassNoDigitParen(Card, Pass(Ssn, Pass(Email, s)));
    PassNoDigitParen(Phone, PhoneInput(s));
    PassNoDigitParen(Ip, IpInput(s));
    NotGlued(Phone, EDGE, PhoneInput(s));
    NotGlued(Ip, EDGE, IpInput(s));
    NotGlued(BusinessRef, EDGE, Final(s));
    FinalGlued(s);
  }

  lemma {:induction false} PartsNotGlued(q: Parts)
    requires NoDigitParen(Whole(q))
    ensures !PartsGlued(q)
    decreases q
  {
    hide NoDigitParen, SegmentGlued;
    var s := Whole(q);
    assert s[0..|q.gap|] == q.gap;
    NoDigitParenSub(s, 0, |q.gap|);
    SegmentNotGlued(q.gap);
    if q.More? {
      assert s[|q.gap| + |q.hit|..|s|] == Whole(q.rest);
      NoDigitParenSub(s, |q.gap| + |q.hit|, |s|);
      PartsNotGlued(q.rest);
    }
  }

  // The docstring's promise holds for every text without a digit directly before an
  // opening parenthesis, unless it will hold too many references or spells them.
  lemma IdempotentWithoutDigitParen(text: string)
    requires Redactable(text) && NoDigitParen(text)
    requires RefsLeft(text) <= MAX_REFS && SpellsNone(text, RefsLeft(text))
    ensures Redact(Redact(text)) == Redact(text)
  {
    hide Redact, Scanned, NoDigitParen, PartsGlued, SpellsNone, RefsLeft, Ascii;
    WholeCut(text);
    PartsNotGlued(Scanned(BusinessRef, text));
    IdempotentIff(text);
  }
}

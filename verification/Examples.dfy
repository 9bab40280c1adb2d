// A concrete text that two redactions change more than one, and the size of the texts
// that the API lets in.

module Examples {
  import opened Wrappers
  import opened Text
  import opened Regex
  import opened RegexFacts
  import opened Scan
  import opened Patterns
  import opened PatternFacts
  import opened Pii
  import opened Survival
  import opened Stability
  import opened Restoring
  import opened Bound
  import opened Idempotence
  import opened Priority

  // The longest ticket of the request schema.
  const TICKET_LIMIT: nat := 8000

  lemma {:induction false} MaskedLength(q: Parts)
    requires HitsNonEmpty(q)
    ensures |Masked(q)| <= 10 * |Whole(q)|
  {
    if q.More? { MaskedLength(q.rest); }
  }

  lemma PassLength(p: Pattern, s: string)
    ensures |Pass(p, s)| <= 10 * |s|
  {
    hide Split, Rx;
    NonEmpty(p);
    SplitHits(Rx(p), EDGE, s);
    SplitWhole(Rx(p), EDGE, s);
    MaskedLength(Scanned(p, s));
  }

  lemma FinalLength(s: string)
    ensures |Passes(PASSES, s)| <= 100_000 * |s|
  {
    hide Pass;
    FinalIsPasses(s);
    PassLength(Email, s);
    PassLength(Ssn, Pass(Email, s));
    PassLength(Card, Pass(Ssn, Pass(Email, s)));
    PassLength(Phone, PhoneInput(s));
    PassLength(Ip, IpInput(s));
  }

  lemma {:induction false} PartsRefsLength(q: Parts)
    ensures PartsRefs(q) <= 100_000 * |Whole(q)| + |Hits(q)|
    decreases q
  {
    hide Scanned, Final, IpInput;
    FinalIsPasses(q.gap);
    FinalLength(q.gap);
    FinalRefs(q.gap);
    FewHitsIn(Final(q.gap));
    if q.More? { PartsRefsLength(q.rest); }
  }

  lemma FewHitsIn(s: string)
    ensures |Hits(Scanned(BusinessRef, s))| <= |s|
  {
    hide Rx, Split;
    NonEmpty(BusinessRef);
    FewHits(Rx(BusinessRef), EDGE, s);
  }

  // A ticket as long as the schema allows is within the bound on references, and stays there.
  lemma TicketFewRefs(text: string)
    requires |text| <= TICKET_LIMIT
    ensures FewRefs(text) && RefsLeft(text) <= MAX_REFS
  {
    hide Scanned, PartsRefs;
    WholeCut(text);
    FewHitsIn(text);
    PartsRefsLength(Scanned(BusinessRef, text));
  }

  // For tickets the exact condition of idempotence needs no bound on references.
  lemma TicketIdempotentIff(text: string)
    requires Ascii(text) && |text| <= TICKET_LIMIT && !Spells(text)
    ensures Redact(Redact(text)) == Redact(text) <==> SpellsNone(text, RefsLeft(text)) && !TextGlued(text)
  {
    hide Redact, TextGlued, FewRefs, Ascii, SpellsNone, RefsLeft;
    TicketFewRefs(text);
    IdempotentIff(text);
  }

  // And for plain ones nothing but the absence of glued numbers.
  lemma PlainTicketIdempotentIff(text: string)
    requires Plain(text) && |text| <= TICKET_LIMIT
    ensures Redact(Redact(text)) == Redact(text) <==> !TextGlued(text)
  {
    hide Redact, TextGlued, Ascii, SpellsNone, RefsLeft, Scanned;
    PlainSpellsNone(text, RefsLeft(text));
    PlainSpellsNone(text, |Hits(Scanned(BusinessRef, text))|);
    TicketIdempotentIff(text);
  }

  /* ---- a text that is glued ---- */

  const GLUED := "5551234567" + "(555)1234567"

  lemma GluedChars()
    ensures |GLUED| == 22 && GLUED[10] == '(' && GLUED[14] == ')' && Lacks(GLUED, NUL)
    ensures Digits(GLUED, 0, 10) && Digits(GLUED, 11, 14) && Digits(GLUED, 15, 22)
    ensures forall k :: 0 <= k < 22 ==> IsDigit(GLUED[k]) || k == 10 || k == 14
  {
  }

  // Digits and parentheses only: no reference, no e-mail address, no social security
  // number, no card number.
  lemma NothingEarly(p: Pattern, i: nat, n: nat)
    requires p in {BusinessRef, Email, Ssn, Card}
    ensures !MatchAt(Rx(p), EDGE, GLUED, i, n)
  {
    hide Matches, Rx, Body, Needs, GLUED;
    GluedChars();
    if i <= |GLUED| {
      var x, t := After(EDGE, GLUED, i), GLUED[i..];
      assert forall k :: 0 <= k < |t| ==> t[k] == GLUED[i + k];
      NothingIn(p, x, t, i, n);
    }
  }

  // A stretch of the text, seen from position `i`.
  predicate Stretch(t: string, i: nat) {
    i <= 22 && |t| == 22 - i &&
    forall k :: 0 <= k < |t| ==> if i + k == 10 then t[k] == '(' else if i + k == 14 then t[k] == ')' else IsDigit(t[k])
  }

  lemma NothingIn(p: Pattern, x: Ctx, t: string, i: nat, n: nat)
    requires p in {BusinessRef, Email, Ssn, Card} && Stretch(t, i)
    ensures !Matches(Rx(p), x, t, n)
  {
    hide Matches, Rx, Stretch, Body;
    match p
    case Email => NoEmailIn(x, t, i, n);
    case BusinessRef =>
      Guarded(p, x, t, n);
      NoRefIn(x, t, i, n);
    case Ssn =>
      Guarded(p, x, t, n);
      NoSsnIn(x, t, i, n);
    case Card =>
      Guarded(p, x, t, n);
      NoCardIn(x, t, i, n);
  }

  lemma NoEmailIn(x: Ctx, t: string, i: nat, n: nat)
    requires Stretch(t, i)
    ensures !Matches(Rx(Email), x, t, n)
  {
    hide Matches, Needs;
    EmailNeedsAt();
    if Matches(EMAIL, x, t, n) {
      WithinLength(EMAIL, x, t, n);
      MatchNeeds(EMAIL, x, t, n, '@');
    }
  }

  lemma NoRefIn(x: Ctx, t: string, i: nat, n: nat)
    requires Stretch(t, i)
    ensures !Matches(Body(BusinessRef), x, t, n)
  {
    hide Matches, Ref;
    if Matches(Ref(), x, t, n) { RefEnds(x, t, n); }
  }

  lemma NoSsnIn(x: Ctx, t: string, i: nat, n: nat)
    requires Stretch(t, i)
    ensures !Matches(Body(Ssn), x, t, n)
  {
    hide Matches;
    if Matches(SSN, x, t, n) { SsnShape(x, t, n); }
  }

  lemma NoCardIn(x: Ctx, t: string, i: nat, n: nat)
    requires Stretch(t, i)
    ensures !Matches(Body(Card), x, t, n)
  {
    hide Matches;
    assert i <= 10 ==> |t| > 10 - i && !(t[10 - i] in " -") && !IsDigit(t[10 - i]);
    if Matches(CARD, x, t, n) { CardShape(x, t, n); }
  }

  lemma EarlyPassesIdle(p: Pattern)
    requires p in {BusinessRef, Email, Ssn, Card}
    ensures Scanned(p, GLUED) == Last(GLUED) && Pass(p, GLUED) == GLUED
  {
    hide Matches, Rx, MatchAt, Split, GLUED;
    NonEmpty(p);
    forall i: nat, n: nat ensures !MatchAt(Rx(p), EDGE, GLUED, i, n) { NothingEarly(p, i, n); }
    SplitClean(Rx(p), EDGE, GLUED);
  }

  /* ---- the telephone pass ---- */

  lemma FirstPhone()
    ensures First(Rx(Phone), EDGE, GLUED) == Some(10)
  {
    hide Matches, Rx, Body, First, GLUED;
    GluedChars();
    PlainPhone(EDGE, GLUED);
    Guarded(Phone, EDGE, GLUED, 10);
    FirstMatches(Rx(Phone), EDGE, GLUED);
    EndIsUnique(Phone, EDGE, GLUED, 10, First(Rx(Phone), EDGE, GLUED).value);
  }

  // Without the opening parenthesis there is no telephone number in "(555)1234567".
  lemma NoOpening(x: Ctx, t: string, n: nat)
    requires |t| == 11 && t[3] == ')' && forall k :: 0 <= k < 11 && k != 3 ==> IsDigit(t[k])
    ensures !Matches(Body(Phone), x, t, n)
  {
    hide Matches, CountIn, Body;
    NoOpeningBody(x, t);
    if Matches(Body(Phone), x, t, n) {
      PhoneCount(x, t, n);
      CountMost(t, n);
    }
  }

  lemma NoOpeningBody(x: Ctx, t: string)
    requires |t| == 11 && t[3] == ')' && forall k :: 0 <= k < 11 && k != 3 ==> IsDigit(t[k])
    ensures !Matches(Body(Phone), x, t, 11)
  {
    hide Matches;
    if Matches(PHONE, x, t, 11) {
      var m := Parse(PHONE, x, t, 11);
      NotInCountry(x, t, m);
      var y, r := After(x, t, m), PHONE.second;
      var k := Parse(r, y, t[m..], 11 - m);
      WithinLength(AREA, y, t[m..], k);
      AreaShape(y, t[m..], k);
      assert t[m..][0] == t[m];
      assert forall i :: m <= i < m + k ==> t[m..][i - m] == t[i];
      var a, b := LocalShape(After(y, t[m..], k), t[m..][k..], 11 - m - k);
    }
  }

  lemma NotInCountry(x: Ctx, t: string, m: nat)
    requires Matches(COUNTRY, x, t, m) && |t| == 11 && t[3] == ')'
    ensures m <= 3
  {
    hide Matches, Consumes;
    WithinLength(COUNTRY, x, t, m);
    CountryProfile(t[3]);
    if m > 3 { MatchAlphabet(COUNTRY, x, t, m, 3); }
  }

  lemma SecondGap(i: nat, n: nat)
    requires i < 12
    ensures !MatchAt(Rx(Phone), CtxOf('7'), GLUED[10..], i, n)
  {
    hide Matches, Rx, Body, GLUED;
    GluedChars();
    var s := GLUED[10..];
    var x, t := After(CtxOf('7'), s, i), s[i..];
    assert forall k :: 0 <= k < |t| ==> t[k] == GLUED[10 + i + k];
    Guarded(Phone, x, t, n);
    if i == 1 {
      NoOpening(x, t, n);
    } else if i > 1 {
      TooFewDigits(x, t, n);
    }
  }

  lemma TooFewDigits(x: Ctx, t: string, n: nat)
    requires |t| < 11 && (|t| == 10 ==> t[2] == ')')
    ensures !Matches(Body(Phone), x, t, n)
  {
    hide Matches, CountIn, Body;
    if Matches(Body(Phone), x, t, n) {
      PhoneCount(x, t, n);
      CountMost(t, n);
    }
  }

  lemma SecondNumber()
    ensures ParenPhone(GLUED[10..], 12)
  {
    GluedChars();
    hide GLUED;
    var t := GLUED[10..][5..];
    assert forall k :: 0 <= k < 7 ==> t[k] == GLUED[15 + k];
    assert LocalPart(t, 7, 0, 0);
  }

  lemma GapIsSecond()
    ensures OpensPhone(Split(Rx(Phone), CtxOf('7'), GLUED[10..]).gap) && MinLen(Rx(Phone)) > 0
  {
    hide Matches, Rx, MatchAt, Split, FirstAt, ParenPhone, GLUED;
    NonEmpty(Phone);
    GluedChars();
    var s := GLUED[10..];
    var p := Split(Rx(Phone), CtxOf('7'), s);
    SplitStep(Rx(Phone), CtxOf('7'), s);
    if |p.gap| < 12 {
      FirstAtMatches(Rx(Phone), CtxOf('7'), s, |p.gap|);
      SecondGap(|p.gap|, |if p.More? then p.hit else ""|);
    }
    assert p.gap == s;
    SecondNumber();
    assert ParenPhone(s, 12) && !DigitNext(s[12..]);
  }

  lemma GluedIsGlued()
    ensures TextGlued(GLUED)
  {
    hide Matches, Rx, MatchAt, First, OpensPhone, GLUED;
    NonEmpty(Phone);
    GluedChars();
    EarlyPassesIdle(BusinessRef);
    EarlyPassesIdle(Email);
    EarlyPassesIdle(Ssn);
    EarlyPassesIdle(Card);
    FirstPhone();
    GapIsSecond();
    assert CtxOf(GLUED[9]) == CtxOf('7');
    assert Scanned(Phone, GLUED) == Cut(Rx(Phone), GLUED, Some(10));
    assert Scanned(Phone, GLUED).rest == Split(Rx(Phone), CtxOf('7'), GLUED[10..]);
    assert Glued(Scanned(Phone, PhoneInput(GLUED)));
  }

  // The docstring's promise fails: this text changes when it is redacted a second time.
  lemma NotAlwaysIdempotent()
    ensures Redact(Redact(GLUED)) != Redact(GLUED)
  {
    hide Redact, TextGlued, Lacks;
    GluedIsGlued();
    GluedChars();
    PlainTicketIdempotentIff(GLUED);
  }
}

// The passes work segment by segment between the placeholders of business references.

module Survival {
  import opened Text
  import opened Regex
  import opened RegexFacts
  import opened Scan
  import opened Patterns
  import opened PatternFacts
  import opened Pii

  predicate PartsLack(p: Parts, c: char) {
    Lacks(p.gap, c) && (p.More? ==> Lacks(p.hit, c) && PartsLack(p.rest, c))
  }

  /* ---- cut-up texts ---- */

  lemma {:induction false} ScanLacks(r: Regex, x: Ctx, s: string, c: char)
    requires MinLen(r) > 0 && Lacks(s, c)
    ensures PartsLack(Split(r, x, s), c)
    decreases |s|
  {
    hide First, MinLen;
    FirstPositive(r, x, s);
    if First(r, x, s).Some? {
      var n := First(r, x, s).value;
      ScanLacks(r, CtxOf(s[n - 1]), s[n..], c);
    } else if s != [] {
      ScanLacks(r, CtxOf(s[0]), s[1..], c);
    }
  }

  /* ---- one pass ---- */

  // A pass keeps the first character of a text or puts a bracket there.
  lemma PassHead(p: Pattern, s: string)
    ensures s == [] <==> Pass(p, s) == []
    ensures s != [] ==> Pass(p, s)[0] == s[0] || Pass(p, s)[0] == '['
  {
    hide Split, FirstAt, Rx, MinLen;
    NonEmpty(p);
    SplitStep(Rx(p), EDGE, s);
    SplitWhole(Rx(p), EDGE, s);
  }

  lemma {:induction p} MaskedLacks(p: Parts, c: char)
    requires PartsLack(p, c) && Lacks(MASK, c)
    ensures Lacks(Masked(p), c)
  {
  }

  lemma PassLacks(p: Pattern, s: string, c: char)
    requires Lacks(s, c) && Lacks(MASK, c)
    ensures Lacks(Pass(p, s), c)
  {
    hide Split, Rx;
    NonEmpty(p);
    ScanLacks(Rx(p), EDGE, s, c);
    MaskedLacks(Scanned(p, s), c);
  }

  // A pass treats the two sides of a NUL or a bracket separately.
  lemma PassBarrier(p: Pattern, a: string, b: char, c: string)
    requires Stops(b)
    ensures Pass(p, a + [b] + c) == Pass(p, a) + [b] + Pass(p, c)
  {
    hide Split, Rx;
    PatternStops(p, b);
    SubBarrier(Rx(p), a, b, c);
  }

  lemma TagLength(k: nat)
    requires k < MAX_REFS
    ensures |Tag(k)| <= 12
  {
    assert Pow10(9) == MAX_REFS;
    DecimalLength(k, 9);
  }

  // The letters of a placeholder in front, then digits.
  predicate LettersDigits(s: string) { forall i :: 0 <= i < |s| ==> if i < 3 then s[i] in "REF" else IsDigit(s[i]) }

  predicate TagLike(s: string) { |s| <= 12 && LettersDigits(s) }

  // A placeholder number below the bound is no PII to any pass.
  lemma TagClean(p: Pattern, k: nat)
    requires k < MAX_REFS && p in PASSES
    ensures Clean(Rx(p), EDGE, Tag(k))
  {
    hide Matches, Rx, Decimal, MatchAt;
    TagLength(k);
    forall i: nat, n: nat
      ensures !MatchAt(Rx(p), EDGE, Tag(k), i, n)
    {
      NothingInTag(p, Tag(k), i, n);
    }
  }

  lemma NothingInTag(p: Pattern, s: string, i: nat, n: nat)
    requires p in PASSES && TagLike(s)
    ensures !MatchAt(Rx(p), EDGE, s, i, n)
  {
    assert LettersDigits(s);
    hide Matches, Rx, Body, TagLike, LettersDigits;
    if i <= |s| {
      var x, t := After(EDGE, s, i), s[i..];
      if p == Email { NoEmailInTag(x, s, i, n); } else {
        Guarded(p, x, t, n);
        NoBodyInTag(p, x, s, i, n);
      }
    }
  }

  lemma EmailNeedsAt()
    ensures Needs(EMAIL, '@')
  {
    assert Needs(EMAIL.second, '@');
  }

  lemma NoEmailInTag(x: Ctx, s: string, i: nat, n: nat)
    requires LettersDigits(s) && i <= |s|
    ensures !Matches(Rx(Email), x, s[i..], n)
  {
    assert forall k :: 0 <= k < |s[i..]| ==> s[i..][k] == s[i + k];
    hide Matches, Needs;
    EmailNeedsAt();
    if Matches(EMAIL, x, s[i..], n) {
      WithinLength(EMAIL, x, s[i..], n);
      MatchNeeds(EMAIL, x, s[i..], n, '@');
    }
  }

  lemma NoBodyInTag(p: Pattern, x: Ctx, s: string, i: nat, n: nat)
    requires p in {Ssn, Card, Phone, Ip} && TagLike(s) && i <= |s|
    ensures !Matches(Body(p), x, s[i..], n)
  {
    hide Matches, TagLike;
    match p
    case Ssn => NoSsnInTag(x, s, i, n);
    case Card => NoCardInTag(x, s, i, n);
    case Phone => NoPhoneInTag(x, s, i, n);
    case Ip => NoIpInTag(x, s, i, n);
  }

  lemma NoSsnInTag(x: Ctx, s: string, i: nat, n: nat)
    requires TagLike(s) && i <= |s|
    ensures !Matches(SSN, x, s[i..], n)
  {
    hide Matches;
    if Matches(SSN, x, s[i..], n) { SsnShape(x, s[i..], n); }
  }

  lemma NoCardInTag(x: Ctx, s: string, i: nat, n: nat)
    requires TagLike(s) && i <= |s|
    ensures !Matches(CARD, x, s[i..], n)
  {
    hide Matches;
    if Matches(CARD, x, s[i..], n) { CardShape(x, s[i..], n); }
  }

  lemma NoPhoneInTag(x: Ctx, s: string, i: nat, n: nat)
    requires TagLike(s) && i <= |s|
    ensures !Matches(PHONE, x, s[i..], n)
  {
    hide Matches, ParenPhone;
    if Matches(PHONE, x, s[i..], n) { PhoneShape(x, s[i..], n); }
  }

  lemma NoIpInTag(x: Ctx, s: string, i: nat, n: nat)
    requires TagLike(s) && i <= |s|
    ensures !Matches(IP, x, s[i..], n)
  {
    hide Matches;
    if Matches(IP, x, s[i..], n) { var a, _ := IpShape(x, s[i..], n); }
  }

  // No pass touches a placeholder.
  lemma PassTag(p: Pattern, k: nat)
    requires k < MAX_REFS && p in PASSES
    ensures Pass(p, Tag(k)) == Tag(k)
  {
    hide Split, Rx, Tag;
    NonEmpty(p);
    TagClean(p, k);
    SplitClean(Rx(p), EDGE, Tag(k));
  }

  /* ---- locality ---- */

  // Cut-up text with the passes `ps` run on every gap by itself.
  function Swept(ps: seq<Pattern>, p: Parts): Parts {
    match p
    case Last(g) => Last(Passes(ps, g))
    case More(g, h, rest) => More(Passes(ps, g), h, Swept(ps, rest))
  }

  // Any passes treat the two sides of a NUL or a bracket separately.
  lemma {:induction false} PassesBarrier(ps: seq<Pattern>, a: string, b: char, c: string)
    requires Stops(b)
    ensures Passes(ps, a + [b] + c) == Passes(ps, a) + [b] + Passes(ps, c)
    decreases |ps|
  {
    hide Pass;
    if ps != [] {
      PassBarrier(ps[0], a, b, c);
      PassesBarrier(ps[1..], Pass(ps[0], a), b, Pass(ps[0], c));
    }
  }

  lemma PassesShielded(ps: seq<Pattern>, g: string, k: nat, y: string)
    ensures Passes(ps, g + Placeholder(k) + y) == Passes(ps, g) + ([NUL] + Passes(ps, Tag(k)) + [NUL]) + Passes(ps, y)
  {
    hide Passes, Tag;
    OpenPlaceholder(g, k, y);
    PassesBarrier(ps, g, NUL, Tag(k) + [NUL] + y);
    PassesBarrier(ps, Tag(k), NUL, y);
    assert Passes(ps, g) + [NUL] + (Passes(ps, Tag(k)) + [NUL] + Passes(ps, y)) ==
      Passes(ps, g) + ([NUL] + Passes(ps, Tag(k)) + [NUL]) + Passes(ps, y);
  }

  lemma OpenPlaceholder(a: string, k: nat, y: string)
    ensures a + Placeholder(k) + y == a + [NUL] + (Tag(k) + [NUL] + y)
  {
    hide Tag;
  }

  lemma {:induction false} PassesTag(ps: seq<Pattern>, k: nat)
    requires k < MAX_REFS && forall i :: 0 <= i < |ps| ==> ps[i] in PASSES
    ensures Passes(ps, Tag(k)) == Tag(k)
  {
    hide Pass, Tag;
    if ps != [] {
      PassTag(ps[0], k);
      PassesTag(ps[1..], k);
    }
  }

  // Passes over the whole shielded text are passes over every segment, and every
  // placeholder stays.
  lemma {:induction false} PassesLocal(ps: seq<Pattern>, q: Parts, k: nat)
    requires forall i :: 0 <= i < |ps| ==> ps[i] in PASSES
    requires k + |Hits(q)| <= MAX_REFS
    ensures Passes(ps, Shielded(q, k)) == Shielded(Swept(ps, q), k)
    decreases q
  {
    hide Passes, Tag;
    match q
    case Last(g) =>
    case More(g, h, rest) =>
      PassesLocal(ps, rest, k + 1);
      PassesShielded(ps, g, k, Shielded(rest, k + 1));
      PassesTag(ps, k);
  }

  // The same for one pass.
  lemma PassLocal(p: Pattern, q: Parts, k: nat)
    requires p in PASSES && k + |Hits(q)| <= MAX_REFS
    ensures Pass(p, Shielded(q, k)) == Shielded(Swept([p], q), k)
  {
    hide Pass, Passes, Swept, Shielded;
    PassesLocal([p], q, k);
    PassesOne(p, Shielded(q, k));
  }

  lemma PassesOne(p: Pattern, s: string)
    ensures Passes([p], s) == Pass(p, s)
  {
    assert [p][1..] == [];
  }

  lemma {:induction q} SweptHits(ps: seq<Pattern>, q: Parts)
    ensures Hits(Swept(ps, q)) == Hits(q)
  {
    hide Passes;
  }

  /* ---- the five passes by name ---- */

  // The texts that the telephone pass and the address pass of a segment see, and the
  // result of the last pass.
  function PhoneInput(s: string): string { Pass(Card, Pass(Ssn, Pass(Email, s))) }

  function IpInput(s: string): string { Pass(Phone, PhoneInput(s)) }

  function Final(s: string): string { Pass(Ip, IpInput(s)) }

  lemma FinalIsPasses(s: string)
    ensures Passes(PASSES, s) == Final(s)
  {
    hide Pass;
    var a := Pass(Email, s);
    var b := Pass(Ssn, a);
    var c := Pass(Card, b);
    var d := Pass(Phone, c);
    assert PASSES[1..] == [Ssn, Card, Phone, Ip] && PASSES[0] == Email;
    assert [Ssn, Card, Phone, Ip][1..] == [Card, Phone, Ip];
    assert [Card, Phone, Ip][1..] == [Phone, Ip];
    assert [Phone, Ip][1..] == [Ip];
    assert Passes([Ip], d) == Pass(Ip, d) by { PassesOne(Ip, d); }
    assert Passes([Phone, Ip], c) == Passes([Ip], d);
    assert Passes([Card, Phone, Ip], b) == Passes([Phone, Ip], c);
    assert Passes([Ssn, Card, Phone, Ip], a) == Passes([Card, Phone, Ip], b);
  }

  /* ---- the cut made by the reference scan ---- */

  predicate FewRefs(text: string) { |Hits(Scanned(BusinessRef, text))| <= MAX_REFS }

  lemma WholeCut(text: string)
    ensures Whole(Scanned(BusinessRef, text)) == text
  {
    hide Rx, Split;
    NonEmpty(BusinessRef);
    SplitWhole(Rx(BusinessRef), EDGE, text);
  }

  lemma {:induction false} FewHits(r: Regex, x: Ctx, s: string)
    requires MinLen(r) > 0
    ensures |Hits(Split(r, x, s))| <= |s|
    decreases |s|
  {
    hide First, MinLen;
    FirstPositive(r, x, s);
    if First(r, x, s).Some? {
      var n := First(r, x, s).value;
      FewHits(r, CtxOf(s[n - 1]), s[n..]);
    } else if s != [] {
      FewHits(r, CtxOf(s[0]), s[1..]);
    }
  }

  // A text within the bound cannot hold more references than that.
  lemma ShortTextFewRefs(text: string)
    requires |text| <= MAX_REFS
    ensures FewRefs(text)
  {
    hide Split, Rx;
    NonEmpty(BusinessRef);
    FewHits(Rx(BusinessRef), EDGE, text);
  }

  /* ---- what redaction cannot bring in or take away ---- */

  lemma {:induction false} PassesLack(ps: seq<Pattern>, s: string, c: char)
    requires Lacks(s, c) && Lacks(MASK, c)
    ensures Lacks(Passes(ps, s), c)
  {
    hide Pass;
    if ps != [] {
      PassLacks(ps[0], s, c);
      PassesLack(ps[1..], Pass(ps[0], s), c);
    }
  }

  lemma {:induction false} ReplaceLacks(s: string, from: string, to: string, c: char)
    requires from != [] && Lacks(s, c) && Lacks(to, c)
    ensures Lacks(Replace(s, from, to), c)
    decreases |s|
  {
    if |s| >= |from| {
      if s[..|from|] == from { ReplaceLacks(s[|from|..], from, to, c); } else { ReplaceLacks(s[1..], from, to, c); }
    }
  }

  lemma {:induction false} UnshieldedLacks(s: string, saved: seq<string>, k: nat, c: char)
    requires k <= |saved| && Lacks(s, c) && forall i :: 0 <= i < |saved| ==> Lacks(saved[i], c)
    ensures Lacks(Unshielded(s, saved, k), c)
    decreases |saved| - k
  {
    hide Replace;
    if k < |saved| {
      ReplaceLacks(s, Placeholder(k), saved[k], c);
      UnshieldedLacks(Replace(s, Placeholder(k), saved[k]), saved, k + 1, c);
    }
  }

  lemma {:induction false} ShieldedLacks(q: Parts, k: nat, c: char)
    requires PartsLack(q, c) && c as int >= 128
    ensures Lacks(Shielded(q, k), c) && forall i :: 0 <= i < |Hits(q)| ==> Lacks(Hits(q)[i], c)
    decreases q
  {
    if q.More? { ShieldedLacks(q.rest, k + 1, c); }
  }

  // Redaction brings in no character outside ASCII.
  lemma RedactLacks(text: string, c: char)
    requires Lacks(text, c) && c as int >= 128
    ensures Lacks(Redact(text), c)
  {
    hide Rx, Split, Passes, Unshielded, Shielded, PartsLack;
    var q := Scanned(BusinessRef, text);
    NonEmpty(BusinessRef);
    ScanLacks(Rx(BusinessRef), EDGE, text, c);
    ShieldedLacks(q, 0, c);
    PassesLack(PASSES, Shielded(q, 0), c);
    UnshieldedLacks(Passes(PASSES, Shielded(q, 0)), Hits(q), 0, c);
  }

  lemma RedactAscii(text: string)
    requires Ascii(text)
    ensures Ascii(Redact(text))
  {
    hide Redact;
    var s := Redact(text);
    forall k | 0 <= k < |s| ensures s[k] as int < 128 {
      if s[k] as int >= 128 { RedactLacks(text, s[k]); }
    }
  }

  lemma PassNonEmpty(p: Pattern, s: string)
    requires s != ""
    ensures Pass(p, s) != ""
  {
    hide Split, Rx;
    NonEmpty(p);
    SplitWhole(Rx(p), EDGE, s);
  }

  lemma {:induction false} PassesNonEmpty(ps: seq<Pattern>, s: string)
    requires s != ""
    ensures Passes(ps, s) != ""
    decreases |ps|
  {
    hide Pass;
    if ps != [] {
      PassNonEmpty(ps[0], s);
      PassesNonEmpty(ps[1..], Pass(ps[0], s));
    }
  }

  lemma ReplaceNonEmpty(s: string, from: string, to: string)
    requires from != [] && s != "" && to != ""
    ensures Replace(s, from, to) != ""
  {
  }

  lemma {:induction false} UnshieldedNonEmpty(s: string, saved: seq<string>, k: nat)
    requires k <= |saved| && s != "" && forall i :: 0 <= i < |saved| ==> saved[i] != ""
    ensures Unshielded(s, saved, k) != ""
    decreases |saved| - k
  {
    hide Replace;
    if k < |saved| {
      ReplaceNonEmpty(s, Placeholder(k), saved[k]);
      UnshieldedNonEmpty(Replace(s, Placeholder(k), saved[k]), saved, k + 1);
    }
  }

  predicate HitsNonEmpty(q: Parts) { q.More? ==> q.hit != [] && HitsNonEmpty(q.rest) }

  lemma {:induction false} SplitHits(r: Regex, x: Ctx, s: string)
    requires MinLen(r) > 0
    ensures HitsNonEmpty(Split(r, x, s))
    decreases |s|
  {
    hide First, MinLen;
    FirstPositive(r, x, s);
    if First(r, x, s).Some? {
      var n := First(r, x, s).value;
      SplitHits(r, CtxOf(s[n - 1]), s[n..]);
    } else if s != [] {
      SplitHits(r, CtxOf(s[0]), s[1..]);
    }
  }

  lemma {:induction q} HitsAreNonEmpty(q: Parts)
    requires HitsNonEmpty(q)
    ensures forall i :: 0 <= i < |Hits(q)| ==> Hits(q)[i] != ""
  {
  }

  // No text is redacted away.
  lemma RedactNonEmpty(text: string)
    requires text != ""
    ensures Redact(text) != ""
  {
    hide Rx, Split, Passes, Unshielded;
    var q := Scanned(BusinessRef, text);
    NonEmpty(BusinessRef);
    SplitHits(Rx(BusinessRef), EDGE, text);
    SplitWhole(Rx(BusinessRef), EDGE, text);
    HitsAreNonEmpty(q);
    assert Shielded(q, 0) != "";
    PassesNonEmpty(PASSES, Shielded(q, 0));
    UnshieldedNonEmpty(Passes(PASSES, Shielded(q, 0)), Hits(q), 0);
  }
}

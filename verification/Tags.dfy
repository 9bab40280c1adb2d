// What the passes make of placeholder numbers.

module Tags {
  import opened Text
  import opened Regex
  import opened Scan
  import opened Patterns
  import opened PatternFacts
  import opened Pii
  import opened Survival
  import opened Priority

  // Placeholder numbers of ten, eleven and twelve digits.
  predicate Eaten(k: nat) { MAX_REFS <= k < 1_000_000_000_000 }

  /* ---- placeholder numbers ---- */

  lemma {:induction false} DecimalAtLeast(n: nat, d: nat)
    requires n >= Pow10(d)
    ensures |Decimal(n)| > d
  {
    if d > 0 {
      assert Pow10(d) == 10 * Pow10(d - 1);
      assert n >= 10;
      DecimalAtLeast(n / 10, d - 1);
    }
  }

  lemma TagDigits(k: nat)
    ensures |Tag(k)| > 3 && LettersDigits(Tag(k)) && Tag(k)[..3] == "REF"
    ensures k < MAX_REFS <==> |Tag(k)| <= 12
    ensures Eaten(k) <==> 13 <= |Tag(k)| <= 15
  {
    assert Pow10(1) == 10 && Pow10(2) == 100 && Pow10(3) == 1000;
    assert Pow10(6) == 1000_000 && Pow10(9) == MAX_REFS && Pow10(12) == 1_000_000_000_000;
    if k < MAX_REFS { DecimalLength(k, 9); } else { DecimalAtLeast(k, 9); }
    if k < 1_000_000_000_000 { DecimalLength(k, 12); } else { DecimalAtLeast(k, 12); }
  }

  // A stretch of such a text can only be a telephone number: the others need a sign that
  // is not there, or a word boundary between a letter and a digit.
  lemma OnlyPhones(p: Pattern, s: string, i: nat, n: nat)
    requires p in {Email, Ssn, Card, Ip} && LettersDigits(s)
    ensures !MatchAt(Rx(p), EDGE, s, i, n)
  {
    hide Matches, Rx, Body, LettersDigits;
    if i <= |s| {
      var x, t := After(EDGE, s, i), s[i..];
      if p == Email {
        NoEmailInTag(x, s, i, n);
      } else {
        Guarded(p, x, t, n);
        if Matches(Rx(p), x, t, n) {
          BodyEnds(p, x, t, n);
          InsideWord(s, i);
        }
      }
    }
  }

  lemma InsideWord(s: string, i: nat)
    requires LettersDigits(s) && i < |s| && IsDigit(s[i])
    ensures After(EDGE, s, i).word
  {
  }

  // A telephone number in such a text is the run of all its digits.
  lemma AllDigits(s: string, i: nat, n: nat)
    requires LettersDigits(s) && |s| > 3 && MatchAt(Rx(Phone), EDGE, s, i, n)
    ensures i == 3 && n == |s| - 3 && 10 <= n <= 12
  {
    hide Matches, Rx, Body, ParenPhone, CountIn;
    var x, t := After(EDGE, s, i), s[i..];
    Guarded(Phone, x, t, n);
    BodyEnds(Phone, x, t, n);
    assert t[0] == s[i];
    PhoneCount(x, t, n);
    CountMost(t, n);
    DigitsCount(t, n);
  }

  lemma {:induction false} DigitsCount(t: string, n: nat)
    requires n <= |t| && forall k :: 0 <= k < n ==> IsDigit(t[k])
    ensures CountIn(t[..n], Digit) == n
  {
    if n > 0 {
      DigitsCount(t, n - 1);
      CountCut(t, n - 1, n, Digit);
      assert t[n - 1..][..1] == [t[n - 1]];
      assert [t[n - 1]][1..] == [];
    }
  }

  // A country part of up to two digits.
  lemma CountryDigits(x: Ctx, s: string, n: nat)
    requires n <= 2 && Digits(s, 0, n)
    ensures Matches(COUNTRY, x, s, n)
  {
    hide Matches;
    assert n <= |s|;
    var c := COUNTRY.body;
    OptMatch(c, x, s, n);
    if n > 0 {
      assert s[0..] == s;
      OptMatch(One(Lit('+')), x, s, 0);
      DigitRun(1, 2, x, s, n);
      SepShape(After(x, s, n), s[n..], 0);
      CatMatches(c.second, x, s, n, n);
      CatMatches(c, x, s, 0, n);
    }
  }

  // Ten to twelve digits are a telephone number.
  lemma RunIsPhone(x: Ctx, s: string)
    requires 10 <= |s| <= 12 && Digits(s, 0, |s|) && !x.digit
    ensures Matches(Rx(Phone), x, s, |s|)
  {
    hide Rx, Matches;
    var c := |s| - 10;
    CountryDigits(x, s, c);
    assert forall k :: 0 <= k < 10 ==> s[c..][k] == s[c + k];
    LocalDigits(After(x, s, c), s[c..]);
    CatMatches(PHONE, x, s, c, |s|);
    Guarded(Phone, x, s, |s|);
  }

  // A number of ten to twelve digits is taken for a telephone number, and no other is.
  lemma TagCleanIff(k: nat)
    ensures (forall p | p in PASSES :: Clean(Rx(p), EDGE, Tag(k))) <==> !Eaten(k)
  {
    hide Rx, MatchAt, Tag, Clean;
    var s := Tag(k);
    TagDigits(k);
    forall p | p in PASSES && (p == Phone ==> !Eaten(k)) ensures Clean(Rx(p), EDGE, s) {
      CleanTag(p, k);
    }
    if Eaten(k) { EatenTag(k); }
    assert Phone in PASSES;
  }

  lemma CleanTag(p: Pattern, k: nat)
    requires p in PASSES && (p == Phone ==> !Eaten(k))
    ensures Clean(Rx(p), EDGE, Tag(k))
  {
    hide Rx, MatchAt, Tag;
    TagDigits(k);
    forall i: nat, n: nat ensures !MatchAt(Rx(p), EDGE, Tag(k), i, n) {
      if p != Phone { OnlyPhones(p, Tag(k), i, n); }
      else if MatchAt(Rx(p), EDGE, Tag(k), i, n) { AllDigits(Tag(k), i, n); }
    }
  }

  lemma EatenTag(k: nat)
    requires Eaten(k)
    ensures MatchAt(Rx(Phone), EDGE, Tag(k), 3, |Tag(k)| - 3) && !Clean(Rx(Phone), EDGE, Tag(k))
  {
    hide Rx, Tag, Matches;
    TagDigits(k);
    var s := Tag(k);
    assert forall j :: 0 <= j < |s| - 3 ==> s[3..][j] == s[3 + j];
    assert s[2] in "REF" && !IsDigit(s[2]);
    RunIsPhone(After(EDGE, s, 3), s[3..]);
  }

  /* ---- what the passes leave of a placeholder ---- */

  const BROKEN: string := "REF" + MASK

  lemma CleanPass(p: Pattern, s: string)
    requires Clean(Rx(p), EDGE, s)
    ensures Pass(p, s) == s
  {
    hide Rx, Split;
    NonEmpty(p);
    SplitClean(Rx(p), EDGE, s);
  }

  lemma PhonePassTag(k: nat)
    requires Eaten(k)
    ensures Pass(Phone, Tag(k)) == BROKEN
  {
    hide Rx, Split, MatchAt, Tag, FirstAt;
    var s := Tag(k);
    TagDigits(k);
    EatenTag(k);
    NonEmpty(Phone);
    SplitClean(Rx(Phone), EDGE, s);
    SplitStep(Rx(Phone), EDGE, s);
    var q := Scanned(Phone, s);
    FirstAtMatches(Rx(Phone), EDGE, s, |q.gap|);
    AllDigits(s, |q.gap|, |q.hit|);
    assert s[|q.gap| + |q.hit|..] == "";
    SplitStep(Rx(Phone), CtxOf(q.hit[|q.hit| - 1]), "");
    assert q.gap == s[..3] == "REF";
    assert q.rest == Last("");
    assert q == More("REF", q.hit, Last(""));
    assert Masked(q) == "REF" + MASK + Masked(q.rest);
  }

  lemma BrokenClean()
    ensures Clean(Rx(Ip), EDGE, BROKEN)
  {
    hide Rx, Matches, Body;
    var s := BROKEN;
    assert forall j :: 0 <= j < |s| ==> !IsDigit(s[j]);
    forall i: nat, n: nat ensures !MatchAt(Rx(Ip), EDGE, s, i, n) {
      if MatchAt(Rx(Ip), EDGE, s, i, n) {
        Guarded(Ip, After(EDGE, s, i), s[i..], n);
        BodyEnds(Ip, After(EDGE, s, i), s[i..], n);
      }
    }
  }

  function TagLeft(k: nat): string { if Eaten(k) then BROKEN else Tag(k) }

  lemma PassesTagLeft(k: nat)
    ensures Passes(PASSES, Tag(k)) == TagLeft(k)
  {
    hide Pass, Passes, Tag, BROKEN, Clean, Rx;
    var s := Tag(k);
    FinalIsPasses(s);
    forall p | p in {Email, Ssn, Card} ensures Pass(p, s) == s { CleanTag(p, k); CleanPass(p, s); }
    if Eaten(k) {
      PhonePassTag(k);
      BrokenClean();
      CleanPass(Ip, BROKEN);
    } else {
      CleanTag(Phone, k);
      CleanPass(Phone, s);
      CleanTag(Ip, k);
      CleanPass(Ip, s);
    }
  }

  // The first number that is lost.
  lemma FirstBroken()
    ensures Eaten(MAX_REFS) && Passes(PASSES, Tag(MAX_REFS)) == BROKEN != Tag(MAX_REFS)
  {
    hide Passes, Tag;
    TagDigits(MAX_REFS);
    PassesTagLeft(MAX_REFS);
    assert BROKEN[3] == '[' && LettersDigits(Tag(MAX_REFS));
  }
}

// What the six patterns match, exactly and in characters.

module Shapes {
  import opened Wrappers
  import opened Text
  import opened Regex
  import opened RegexFacts
  import opened Scan
  import opened Patterns
  import opened PatternFacts

  /* ---- characters ---- */

  predicate DigitCh(c: char) { '0' <= c <= '9' }

  predicate LetterCh(c: char) { 'a' <= c <= 'z' || 'A' <= c <= 'Z' }

  predicate WordCh(c: char) { DigitCh(c) || LetterCh(c) || c == '_' }

  // Tab, line feed, vertical tab, form feed, carriage return, the four separators, space.
  predicate SpaceCh(c: char) { c as int in {9, 10, 11, 12, 13, 28, 29, 30, 31, 32} }

  predicate PhoneSepCh(c: char) { SpaceCh(c) || c == '.' || c == '-' }

  predicate LocalCh(c: char) { DigitCh(c) || LetterCh(c) || c in "._%+-" }

  predicate DomainCh(c: char) { DigitCh(c) || LetterCh(c) || c == '.' || c == '-' }

  predicate RefSepCh(c: char) { SpaceCh(c) || c == ':' || c == '#' }

  lemma ClassesAre(c: char)
    ensures IsDigit(c) <==> DigitCh(c)
    ensures IsWord(c) <==> WordCh(c)
    ensures Has(Digit, c) <==> DigitCh(c)
    ensures Has(Letter, c) <==> LetterCh(c)
    ensures Has(EmailLocal, c) <==> LocalCh(c)
    ensures Has(EmailDomain, c) <==> DomainCh(c)
    ensures Has(CardSep, c) <==> c == ' ' || c == '-'
    ensures Has(PhoneSep, c) <==> PhoneSepCh(c)
    ensures Has(RefSep, c) <==> RefSepCh(c)
  {
  }

  predicate AllDigitCh(t: string) { forall k :: 0 <= k < |t| ==> DigitCh(t[k]) }

  /* ---- texts that a pattern spells ---- */

  ghost predicate Spelt(r: Regex, t: string) { Matches(r, EDGE, t, |t|) }

  // Without look-around a match is about the matched stretch alone.
  lemma SpeltMatches(r: Regex, x: Ctx, s: string, n: nat)
    requires Blind(r)
    ensures Matches(r, x, s, n) <==> n <= |s| && Spelt(r, s[..n])
  {
    hide Matches;
    if Matches(r, x, s, n) {
      WithinLength(r, x, s, n);
      assert s[..n][..n] == s[..n];
      BlindMatch(r, x, EDGE, s, s[..n], n);
    }
    if n <= |s| && Spelt(r, s[..n]) {
      assert s[..n][..n] == s[..n];
      BlindMatch(r, EDGE, x, s[..n], s, n);
    }
  }

  lemma CatSplit(r: Regex, t: string) returns (m: nat)
    requires r.Cat? && Blind(r) && Spelt(r, t)
    ensures m <= |t| && Spelt(r.first, t[..m]) && Spelt(r.second, t[m..])
  {
    hide Matches;
    m := Parse(r, EDGE, t, |t|);
    SpeltMatches(r.first, EDGE, t, m);
    SpeltMatches(r.second, After(EDGE, t, m), t[m..], |t| - m);
    assert t[m..][..|t| - m] == t[m..];
  }

  lemma CatJoin(r: Regex, t: string, m: nat)
    requires r.Cat? && Blind(r) && m <= |t| && Spelt(r.first, t[..m]) && Spelt(r.second, t[m..])
    ensures Spelt(r, t)
  {
    hide Matches;
    SpeltMatches(r.first, EDGE, t, m);
    assert t[m..][..|t| - m] == t[m..];
    SpeltMatches(r.second, After(EDGE, t, m), t[m..], |t| - m);
    CatMatches(r, EDGE, t, m, |t|);
  }

  lemma CatCut(r: Regex, t: string) returns (a: string, b: string)
    requires r.Cat? && Blind(r) && Spelt(r, t)
    ensures t == a + b && Spelt(r.first, a) && Spelt(r.second, b)
  {
    var m := CatSplit(r, t);
    a, b := t[..m], t[m..];
  }

  lemma CatGlue(r: Regex, a: string, b: string)
    requires r.Cat? && Blind(r) && Spelt(r.first, a) && Spelt(r.second, b)
    ensures Spelt(r, a + b)
  {
    hide Spelt;
    assert (a + b)[..|a|] == a && (a + b)[|a|..] == b;
    CatJoin(r, a + b, |a|);
  }

  lemma SpeltOne(cls: CharClass, t: string)
    ensures Spelt(One(cls), t) <==> |t| == 1 && Has(cls, t[0])
  {
    hide Has;
  }

  lemma SpeltRun(r: Regex, t: string)
    requires r.Repeat? && r.body.One?
    ensures Spelt(r, t) <==>
      r.lo <= |t| && (r.hi.Some? ==> |t| <= r.hi.value) && forall k :: 0 <= k < |t| ==> Has(r.body.cls, t[k])
  {
    hide Has;
    ClassRun(r, EDGE, t, |t|);
  }

  lemma SpeltOpt(r: Regex, t: string)
    ensures Spelt(Opt(r), t) <==> t == "" || Spelt(r, t)
  {
    hide Matches;
    OptMatch(r, EDGE, t, |t|);
  }

  lemma SpeltEither(r: Regex, t: string)
    requires r.Either?
    ensures Spelt(r, t) <==> Spelt(r.left, t) || Spelt(r.right, t)
  {
    hide Matches;
    LeafMatches(r, EDGE, t, |t|);
  }

  /* ---- runs of digits ---- */

  lemma SpeltDigits(lo: nat, hi: nat, t: string)
    ensures Spelt(Between(Digit, lo, hi), t) <==> lo <= |t| <= hi && AllDigitCh(t)
  {
    hide Spelt;
    SpeltRun(Between(Digit, lo, hi), t);
    forall k | 0 <= k < |t| ensures Has(Digit, t[k]) <==> DigitCh(t[k]) { ClassesAre(t[k]); }
  }

  lemma SpeltLit(c: char, t: string)
    ensures Spelt(One(Lit(c)), t) <==> t == [c]
  {
    hide Spelt;
    SpeltOne(Lit(c), t);
  }

  /* ---- social security numbers ---- */

  predicate SsnText(t: string) {
    |t| == 11 && AllDigitCh(t[..3]) && t[3] == '-' && AllDigitCh(t[4..6]) && t[6] == '-' && AllDigitCh(t[7..])
  }

  // Parts of a text one after the other.
  lemma Piece(t: string, i: nat, j: nat)
    requires i <= |t| && j <= |t| - i
    ensures t[i..][..j] == t[i..i + j] && t[i..][j..] == t[i + j..]
  {
  }

  lemma SsnExact(t: string)
    ensures Spelt(SSN, t) <==> SsnText(t)
  {
    hide Spelt;
    SsnBlind();
    var r1 := SSN.second;
    var r2 := r1.second;
    var r3 := r2.second;
    if Spelt(SSN, t) {
      var m := CatSplit(SSN, t);
      SpeltDigits(3, 3, t[..m]);
      var m1 := CatSplit(r1, t[3..]);
      Piece(t, 3, m1);
      SpeltLit('-', t[3..3 + m1]);
      var m2 := CatSplit(r2, t[4..]);
      Piece(t, 4, m2);
      SpeltDigits(2, 2, t[4..4 + m2]);
      var m3 := CatSplit(r3, t[6..]);
      Piece(t, 6, m3);
      SpeltLit('-', t[6..6 + m3]);
      SpeltDigits(4, 4, t[7..]);
    }
    if SsnText(t) {
      Piece(t, 3, 1);
      Piece(t, 4, 2);
      Piece(t, 6, 1);
      SpeltDigits(3, 3, t[..3]);
      SpeltLit('-', t[3..4]);
      SpeltDigits(2, 2, t[4..6]);
      SpeltLit('-', t[6..7]);
      SpeltDigits(4, 4, t[7..]);
      CatJoin(r3, t[6..], 1);
      CatJoin(r2, t[4..], 2);
      CatJoin(r1, t[3..], 1);
      CatJoin(SSN, t, 3);
    }
  }

  lemma SsnBlind()
    ensures Blind(SSN)
  {
    SsnProfile('0');
  }

  /* ---- telephone numbers ---- */

  // An optional plus sign, one or two digits, and an optional separator; or nothing.
  predicate CountryText(t: string) {
    t == "" || NationText(if t[0] == '+' then t[1..] else t)
  }

  predicate NationText(t: string) {
    || (1 <= |t| <= 2 && AllDigitCh(t))
    || (2 <= |t| <= 3 && AllDigitCh(t[..|t| - 1]) && PhoneSepCh(t[|t| - 1]))
  }

  // Three digits, by themselves or in parentheses.
  predicate AreaText(t: string) {
    (|t| == 3 && AllDigitCh(t)) || (|t| == 5 && t[0] == '(' && AllDigitCh(t[1..4]) && t[4] == ')')
  }

  // Three digits and four digits, with at most one separator before each group.
  predicate LocalText(t: string) {
    var u := if t != "" && PhoneSepCh(t[0]) then t[1..] else t;
    && |u| >= 7 && AllDigitCh(u[..3])
    && var v := if PhoneSepCh(u[3]) then u[4..] else u[3..]; |v| == 4 && AllDigitCh(v)
  }

  ghost predicate PhoneParts(t: string, country: string, area: string, local: string) {
    t == country + area + local && CountryText(country) && AreaText(area) && LocalText(local)
  }

  ghost predicate PhoneText(t: string) { exists country, area, local :: PhoneParts(t, country, area, local) }

  lemma SpeltSep(t: string)
    ensures Spelt(Opt(One(PhoneSep)), t) <==> t == "" || (|t| == 1 && PhoneSepCh(t[0]))
  {
    hide Spelt;
    SpeltOpt(One(PhoneSep), t);
    SpeltOne(PhoneSep, t);
    if t != "" { ClassesAre(t[0]); }
  }

  lemma PhoneBlind()
    ensures Blind(PHONE) && Blind(COUNTRY) && Blind(AREA) && Blind(LOCAL)
  {
    PhoneProfile('0');
    CountryProfile('0');
  }

  lemma CountryExact(t: string)
    ensures Spelt(COUNTRY, t) <==> CountryText(t)
  {
    hide Spelt;
    PhoneBlind();
    var r := COUNTRY.body;
    var r1 := r.second;
    SpeltOpt(r, t);
    if t != "" && Spelt(r, t) {
      var m := CatSplit(r, t);
      SpeltOpt(One(Lit('+')), t[..m]);
      SpeltLit('+', t[..m]);
      var u := t[m..];
      var k := CatSplit(r1, u);
      SpeltDigits(1, 2, u[..k]);
      SpeltSep(u[k..]);
      assert u[..k] + u[k..] == u;
      assert m == 0 ==> u == t && u[..k][0] == t[0];
      assert k < |u| ==> u[..|u| - 1] == u[..k];
    }
    if t != "" && CountryText(t) {
      var m := if t[0] == '+' then 1 else 0;
      var u := t[m..];
      assert t[0..] == t;
      var k := if |u| <= 2 && AllDigitCh(u) then |u| else |u| - 1;
      SpeltOpt(One(Lit('+')), t[..m]);
      SpeltLit('+', t[..m]);
      assert u[..|u|] == u;
      SpeltDigits(1, 2, u[..k]);
      SpeltSep(u[k..]);
      CatJoin(r1, u, k);
      CatJoin(r, t, m);
    }
  }

  lemma AreaExact(t: string)
    ensures Spelt(AREA, t) <==> AreaText(t)
  {
    hide Spelt;
    PhoneBlind();
    var r := AREA.left;
    var r1 := r.second;
    SpeltEither(AREA, t);
    SpeltDigits(3, 3, t);
    if Spelt(r, t) {
      var m := CatSplit(r, t);
      SpeltLit('(', t[..m]);
      var k := CatSplit(r1, t[1..]);
      Piece(t, 1, k);
      SpeltDigits(3, 3, t[1..1 + k]);
      SpeltLit(')', t[4..]);
      assert t[..1][0] == t[0] && t[4..][0] == t[4];
    }
    if AreaText(t) && |t| == 5 {
      Piece(t, 1, 3);
      SpeltLit('(', t[..1]);
      SpeltDigits(3, 3, t[1..4]);
      SpeltLit(')', t[4..]);
      CatJoin(r1, t[1..], 3);
      CatJoin(r, t, 1);
    }
  }

  lemma LocalExact(t: string)
    ensures Spelt(LOCAL, t) <==> LocalText(t)
  {
    hide Spelt;
    PhoneBlind();
    var r1 := LOCAL.second;
    if Spelt(LOCAL, t) {
      var m := CatSplit(LOCAL, t);
      SpeltSep(t[..m]);
      AfterSepExact(t[m..]);
      assert t[0..] == t;
      assert m == 1 ==> t[..1][0] == t[0];
      assert m == 0 ==> DigitCh(t[..3][0]);
    }
    if LocalText(t) {
      var m := if PhoneSepCh(t[0]) then 1 else 0;
      assert t[0..] == t;
      SpeltSep(t[..m]);
      AfterSepExact(t[m..]);
      CatJoin(LOCAL, t, m);
    }
  }

  lemma AfterSepExact(u: string)
    ensures Spelt(LOCAL.second, u) <==>
      && |u| >= 7 && AllDigitCh(u[..3])
      && var v := if PhoneSepCh(u[3]) then u[4..] else u[3..]; |v| == 4 && AllDigitCh(v)
  {
    hide Spelt;
    PhoneBlind();
    var r := LOCAL.second;
    var r1 := r.second;
    if Spelt(r, u) {
      var k := CatSplit(r, u);
      SpeltDigits(3, 3, u[..k]);
      var m := CatSplit(r1, u[3..]);
      Piece(u, 3, m);
      SpeltSep(u[3..3 + m]);
      SpeltDigits(4, 4, u[3 + m..]);
      assert m == 1 ==> u[3..4][0] == u[3];
      assert m == 0 ==> u[3..][0] == u[3] && DigitCh(u[3]);
    }
    if |u| >= 7 && AllDigitCh(u[..3]) {
      var m := if PhoneSepCh(u[3]) then 1 else 0;
      if |u| == 7 + m && AllDigitCh(u[3 + m..]) {
        Piece(u, 3, m);
        SpeltDigits(3, 3, u[..3]);
        SpeltSep(u[3..3 + m]);
        SpeltDigits(4, 4, u[3 + m..]);
        CatJoin(r1, u[3..], m);
        CatJoin(r, u, 3);
      }
    }
  }

  lemma PhoneExact(t: string)
    ensures Spelt(PHONE, t) <==> PhoneText(t)
  {
    hide Spelt, CountryText, AreaText, LocalText;
    PhoneBlind();
    var r := PHONE.second;
    if Spelt(PHONE, t) {
      var country, u := CatCut(PHONE, t);
      var area, local := CatCut(r, u);
      CountryExact(country);
      AreaExact(area);
      LocalExact(local);
      assert t == country + area + local;
      assert PhoneParts(t, country, area, local);
    }
    if PhoneText(t) {
      var country, area, local :| PhoneParts(t, country, area, local);
      CountryExact(country);
      AreaExact(area);
      LocalExact(local);
      CatGlue(r, area, local);
      CatGlue(PHONE, country, area + local);
      assert t == country + (area + local);
    }
  }

  /* ---- addresses ---- */

  predicate OctetText(t: string) { 1 <= |t| <= 3 && AllDigitCh(t) }

  ghost predicate IpParts(t: string, a: string, b: string, c: string, d: string) {
    t == a + "." + b + "." + c + "." + d && OctetText(a) && OctetText(b) && OctetText(c) && OctetText(d)
  }

  ghost predicate IpText(t: string) { exists a, b, c, d :: IpParts(t, a, b, c, d) }

  lemma OctetDotCut(t: string) returns (a: string)
    requires Spelt(OCTET_DOT, t)
    ensures t == a + "." && OctetText(a)
  {
    hide Spelt;
    IpBlind();
    var dot;
    a, dot := CatCut(OCTET_DOT, t);
    SpeltDigits(1, 3, a);
    SpeltLit('.', dot);
  }

  lemma OctetDotGlue(a: string)
    requires OctetText(a)
    ensures Spelt(OCTET_DOT, a + ".")
  {
    hide Spelt;
    IpBlind();
    SpeltDigits(1, 3, a);
    SpeltLit('.', ".");
    CatGlue(OCTET_DOT, a, ".");
  }

  lemma IpBlind()
    ensures Blind(IP) && Blind(OCTET_DOT)
  {
    IpProfile('0');
  }

  // A repetition takes a first round that is not empty, or none.
  lemma RepeatSplit(r: Regex, t: string) returns (m: nat)
    requires r.Repeat? && Blind(r) && Spelt(r, t) && !(r.lo == 0 && t == "")
    ensures r.hi != Some(0) && 0 < m <= |t| && Spelt(r.body, t[..m]) && Spelt(Again(r), t[m..])
  {
    hide Matches;
    m := Parse(r, EDGE, t, |t|);
    SpeltMatches(r.body, EDGE, t, m);
    SpeltMatches(Again(r), After(EDGE, t, m), t[m..], |t| - m);
    assert t[m..][..|t| - m] == t[m..];
  }

  lemma RepeatJoin(r: Regex, t: string, m: nat)
    requires r.Repeat? && Blind(r) && r.hi != Some(0)
    requires 0 < m <= |t| && Spelt(r.body, t[..m]) && Spelt(Again(r), t[m..])
    ensures Spelt(r, t)
  {
    hide Matches;
    SpeltMatches(r.body, EDGE, t, m);
    assert t[m..][..|t| - m] == t[m..];
    SpeltMatches(Again(r), After(EDGE, t, m), t[m..], |t| - m);
    RepeatMatches(r, EDGE, t, m, |t|);
  }

  lemma SpeltNothing(r: Regex, t: string)
    requires r.Repeat? && r.lo == 0 && (r.hi == Some(0) || t == "")
    ensures Spelt(r, t) <==> t == ""
  {
    hide Matches;
    RepeatMeaning(r, EDGE, t, |t|);
  }

  lemma RepeatCut(r: Regex, t: string) returns (a: string, b: string)
    requires r.Repeat? && Blind(r) && Spelt(r, t) && !(r.lo == 0 && t == "")
    ensures t == a + b && a != "" && Spelt(r.body, a) && Spelt(Again(r), b)
  {
    var m := RepeatSplit(r, t);
    a, b := t[..m], t[m..];
  }

  lemma RepeatGlue(r: Regex, a: string, b: string)
    requires r.Repeat? && Blind(r) && r.hi != Some(0) && a != "" && Spelt(r.body, a) && Spelt(Again(r), b)
    ensures Spelt(r, a + b)
  {
    hide Spelt;
    assert (a + b)[..|a|] == a && (a + b)[|a|..] == b;
    RepeatJoin(r, a + b, |a|);
  }

  lemma IpExact(t: string)
    ensures Spelt(IP, t) <==> IpText(t)
  {
    hide Spelt, OctetText;
    if Spelt(IP, t) { IpCut(t); }
    if IpText(t) {
      var a, b, c, d :| IpParts(t, a, b, c, d);
      IpGlue(a, b, c, d);
      assert t == (a + ".") + ((b + ".") + ((c + ".") + "")) + d;
    }
  }

  lemma IpCut(t: string)
    requires Spelt(IP, t)
    ensures IpText(t)
  {
    hide Spelt, OctetText;
    IpBlind();
    var r3 := IP.first;
    var r2 := Again(r3);
    var u, d := CatCut(IP, t);
    var u1, v := RepeatCut(r3, u);
    var v1, w := RepeatCut(r2, v);
    var w1, z := RepeatCut(Again(r2), w);
    SpeltNothing(Again(Again(r2)), z);
    var a := OctetDotCut(u1);
    var b := OctetDotCut(v1);
    var c := OctetDotCut(w1);
    SpeltDigits(1, 3, d);
    OctetIs(d);
    assert t == a + "." + b + "." + c + "." + d;
    assert IpParts(t, a, b, c, d);
  }

  lemma IpGlue(a: string, b: string, c: string, d: string)
    requires OctetText(a) && OctetText(b) && OctetText(c) && OctetText(d)
    ensures Spelt(IP, (a + ".") + ((b + ".") + ((c + ".") + "")) + d)
  {
    hide Spelt, OctetText;
    IpBlind();
    var r3 := IP.first;
    var r2 := Again(r3);
    OctetDotGlue(a);
    OctetDotGlue(b);
    OctetDotGlue(c);
    SpeltNothing(Again(Again(r2)), "");
    RepeatGlue(Again(r2), c + ".", "");
    RepeatGlue(r2, b + ".", (c + ".") + "");
    RepeatGlue(r3, a + ".", (b + ".") + ((c + ".") + ""));
    SpeltDigits(1, 3, d);
    OctetIs(d);
    CatGlue(IP, (a + ".") + ((b + ".") + ((c + ".") + "")), d);
  }

  lemma OctetIs(t: string)
    ensures OctetText(t) <==> 1 <= |t| <= 3 && AllDigitCh(t)
  {
  }

  /* ---- e-mail addresses ---- */

  predicate AllLocalCh(t: string) { forall k :: 0 <= k < |t| ==> LocalCh(t[k]) }

  predicate AllDomainCh(t: string) { forall k :: 0 <= k < |t| ==> DomainCh(t[k]) }

  predicate AllLetterCh(t: string) { forall k :: 0 <= k < |t| ==> LetterCh(t[k]) }

  ghost predicate EmailParts(t: string, local: string, domain: string, tld: string) {
    && t == local + "@" + domain + "." + tld
    && local != "" && AllLocalCh(local) && domain != "" && AllDomainCh(domain) && |tld| >= 2 && AllLetterCh(tld)
  }

  ghost predicate EmailText(t: string) { exists local, domain, tld :: EmailParts(t, local, domain, tld) }

  lemma EmailRuns(t: string)
    ensures Spelt(AtLeast(EmailLocal, 1), t) <==> t != "" && AllLocalCh(t)
    ensures Spelt(AtLeast(EmailDomain, 1), t) <==> t != "" && AllDomainCh(t)
    ensures Spelt(AtLeast(Letter, 2), t) <==> |t| >= 2 && AllLetterCh(t)
  {
    hide Spelt;
    forall k | 0 <= k < |t|
      ensures Has(EmailLocal, t[k]) <==> LocalCh(t[k])
      ensures Has(EmailDomain, t[k]) <==> DomainCh(t[k])
      ensures Has(Letter, t[k]) <==> LetterCh(t[k])
    {
      ClassesAre(t[k]);
    }
    hide Has, LocalCh, DomainCh, LetterCh;
    SpeltRun(AtLeast(EmailLocal, 1), t);
    SpeltRun(AtLeast(EmailDomain, 1), t);
    SpeltRun(AtLeast(Letter, 2), t);
  }

  lemma EmailExact(t: string)
    ensures Spelt(EMAIL, t) <==> EmailText(t)
  {
    hide Spelt, AllLocalCh, AllDomainCh, AllLetterCh;
    EmailBlind();
    var r1 := EMAIL.second;
    var r2 := r1.second;
    var r3 := r2.second;
    if Spelt(EMAIL, t) {
      var local, u := CatCut(EMAIL, t);
      var at, v := CatCut(r1, u);
      var domain, w := CatCut(r2, v);
      var dot, tld := CatCut(r3, w);
      EmailRuns(local);
      SpeltLit('@', at);
      EmailRuns(domain);
      SpeltLit('.', dot);
      EmailRuns(tld);
      assert t == local + "@" + domain + "." + tld;
      assert EmailParts(t, local, domain, tld);
    }
    if EmailText(t) {
      var local, domain, tld :| EmailParts(t, local, domain, tld);
      EmailRuns(local);
      SpeltLit('@', "@");
      EmailRuns(domain);
      SpeltLit('.', ".");
      EmailRuns(tld);
      CatGlue(r3, ".", tld);
      CatGlue(r2, domain, "." + tld);
      CatGlue(r1, "@", domain + ("." + tld));
      CatGlue(EMAIL, local, "@" + (domain + ("." + tld)));
      assert t == local + ("@" + (domain + ("." + tld)));
    }
  }

  lemma EmailBlind()
    ensures Blind(EMAIL)
  {
    EmailProfile('0');
  }

  /* ---- card numbers ---- */

  function DigitCount(t: string): nat {
    if t == "" then 0 else (if DigitCh(t[0]) then 1 else 0) + DigitCount(t[1..])
  }

  // Starts with a digit and holds digits, spaces and dashes only.
  predicate CardChars(t: string) {
    t != "" && DigitCh(t[0]) && forall k :: 0 <= k < |t| ==> DigitCh(t[k]) || t[k] == ' ' || t[k] == '-'
  }

  predicate CardText(t: string) { CardChars(t) && 13 <= DigitCount(t) <= 16 }

  lemma CardDigitExact(t: string)
    ensures Spelt(CARD_DIGIT, t) <==> CardChars(t) && DigitCount(t) == 1
  {
    hide Spelt, Has;
    CardBlind();
    if Spelt(CARD_DIGIT, t) {
      var m := CatSplit(CARD_DIGIT, t);
      SpeltOne(Digit, t[..m]);
      SpeltRun(CARD_DIGIT.second, t[1..]);
      assert t[..1][0] == t[0];
      ClassesAre(t[0]);
      forall k | 0 <= k < |t| - 1 ensures t[1..][k] == ' ' || t[1..][k] == '-' { ClassesAre(t[1..][k]); }
      assert forall k :: 1 <= k < |t| ==> t[k] == t[1..][k - 1];
      NoDigits(t[1..]);
    }
    if CardChars(t) && DigitCount(t) == 1 {
      NoDigits(t[1..]);
      assert forall k :: 0 <= k < |t| - 1 ==> t[1..][k] == t[k + 1];
      forall k | 0 <= k < |t| - 1 ensures Has(CardSep, t[1..][k]) { ClassesAre(t[1..][k]); }
      ClassesAre(t[0]);
      SpeltOne(Digit, t[..1]);
      SpeltRun(CARD_DIGIT.second, t[1..]);
      CatJoin(CARD_DIGIT, t, 1);
    }
  }

  lemma {:induction false} NoDigits(t: string)
    ensures DigitCount(t) == 0 <==> forall k :: 0 <= k < |t| ==> !DigitCh(t[k])
  {
    if t != "" {
      NoDigits(t[1..]);
      assert forall k :: 1 <= k < |t| ==> t[k] == t[1..][k - 1];
    }
  }

  lemma CardBlind()
    ensures Blind(CARD) && Blind(CARD_DIGIT)
  {
    CardProfile('0');
  }

  // Rounds of one digit each.
  lemma {:induction false} RoundsExact(r: Regex, t: string)
    requires r.Repeat? && r.body == CARD_DIGIT && r.hi.Some? && r.lo <= r.hi.value
    ensures Spelt(r, t) <==> r.lo <= DigitCount(t) <= r.hi.value && (t == "" || CardChars(t))
    decreases |t|
  {
    hide Spelt, CardChars;
    CardBlind();
    if t == "" {
      if r.lo == 0 { SpeltNothing(r, t); } else if Spelt(r, t) { var _ := RepeatSplit(r, t); }
    } else {
      if Spelt(r, t) {
        var m := RepeatSplit(r, t);
        CardDigitExact(t[..m]);
        RoundsExact(Again(r), t[m..]);
        RoundAdded(t, m);
      }
      if CardChars(t) && r.lo <= DigitCount(t) <= r.hi.value {
        var m := FirstRound(t);
        CardDigitExact(t[..m]);
        RoundsExact(Again(r), t[m..]);
        RoundAdded(t, m);
        RepeatJoin(r, t, m);
      }
    }
  }

  // The digit in front and the separators behind it.
  lemma {:induction false} FirstRound(t: string) returns (m: nat)
    requires CardChars(t)
    ensures 0 < m <= |t| && CardChars(t[..m]) && DigitCount(t[..m]) == 1 && (m < |t| ==> CardChars(t[m..]))
  {
    m := 1;
    assert t[..1][1..] == "";
    while m < |t| && !DigitCh(t[m])
      invariant 1 <= m <= |t| && DigitCount(t[..m]) == 1
    {
      assert t[..m + 1] == t[..m] + [t[m]];
      CountJoin(t[..m], [t[m]]);
      assert [t[m]][1..] == "";
      m := m + 1;
    }
  }

  lemma {:induction false} CountJoin(a: string, b: string)
    ensures DigitCount(a + b) == DigitCount(a) + DigitCount(b)
    decreases |a|
  {
    if a == "" {
      assert a + b == b;
    } else {
      assert (a + b)[1..] == a[1..] + b;
      CountJoin(a[1..], b);
    }
  }

  lemma RoundAdded(t: string, m: nat)
    requires 0 < m <= |t|
    ensures DigitCount(t) == DigitCount(t[..m]) + DigitCount(t[m..])
    ensures CardChars(t[..m]) && (m == |t| || CardChars(t[m..])) ==> CardChars(t)
  {
    assert t == t[..m] + t[m..];
    CountJoin(t[..m], t[m..]);
    assert forall k :: 0 <= k < m ==> t[k] == t[..m][k];
    assert forall k :: m <= k < |t| ==> t[k] == t[m..][k - m];
  }

  lemma CardExact(t: string)
    ensures Spelt(CARD, t) <==> CardText(t)
  {
    hide Spelt;
    RoundsExact(CARD, t);
  }

  /* ---- business references ---- */

  // The lower-case word `w`, each letter in either case.
  predicate Folds(w: string, t: string) {
    |t| == |w| && forall k :: 0 <= k < |w| ==> t[k] == w[k] || t[k] as int == w[k] as int - 32
  }

  predicate KeywordText(t: string) {
    || Folds("order", t) || Folds("invoice", t) || Folds("tracking", t) || Folds("ticket", t)
    || Folds("reference", t) || Folds("ref", t) || Folds("awb", t)
  }

  predicate LinkText(t: string) {
    || (|t| == 1 && RefSepCh(t[0])) || Folds("id", t) || Folds("no", t)
    || (|t| == 3 && Folds("no", t[..2]) && t[2] == '.') || Folds("number", t)
  }

  ghost predicate LinkParts(t: string, a: string, b: string) { t == a + b && LinkText(a) }

  // At most `n` links one after the other.
  ghost predicate LinksText(t: string, n: nat)
    decreases n
  {
    t == "" || (n > 0 && exists a, b :: LinkParts(t, a, b) && LinksText(b, n - 1))
  }

  // A keyword, links of which the first is no word character, and three digits or more.
  ghost predicate RefTextParts(t: string, keyword: string, links: string, digits: string) {
    && t == keyword + links + digits && KeywordText(keyword)
    && links != "" && !WordCh(links[0]) && LinksText(links, 20)
    && |digits| >= 3 && AllDigitCh(digits)
  }

  ghost predicate RefText(t: string) { exists keyword, links, digits :: RefTextParts(t, keyword, links, digits) }

  lemma WordExact(w: string, t: string)
    requires LowerWord(w)
    ensures Spelt(Word(w), t) <==> Folds(w, t)
  {
    hide Matches;
    WordMatch(w, EDGE, t, |t|);
    assert t[..|t|] == t;
  }

  lemma KeywordExact(t: string)
    ensures Blind(Keyword()) && (Spelt(Keyword(), t) <==> KeywordText(t))
  {
    hide Matches, AnyWord, Word, Folds, SameWord;
    KeywordsAreWords();
    AnyWordLetters(KEYWORDS, 'a');
    AnyWordMatch(KEYWORDS, EDGE, t, |t|);
    assert t[..|t|] == t;
    forall i | 0 <= i < |KEYWORDS| ensures Folds(KEYWORDS[i], t) <==> |KEYWORDS[i]| == |t| && SameWord(KEYWORDS[i], t) {
      FoldsIs(KEYWORDS[i], t);
    }
    KeywordList(t);
  }

  lemma FoldsIs(w: string, t: string)
    requires LowerWord(w)
    ensures Folds(w, t) <==> |w| == |t| && SameWord(w, t)
  {
  }

  lemma KeywordList(t: string)
    ensures KeywordText(t) <==> exists i :: 0 <= i < |KEYWORDS| && Folds(KEYWORDS[i], t)
  {
    hide Folds;
    var ks := KEYWORDS;
    assert ks[0] == "order" && ks[1] == "invoice" && ks[2] == "tracking" && ks[3] == "ticket";
    assert ks[4] == "reference" && ks[5] == "ref" && ks[6] == "awb" && |ks| == 7;
  }

  lemma LinkBlind()
    ensures Blind(LINK) && Blind(LINK.right.right.left) && MinLen(LINK) > 0
  {
    LinkStops('0');
  }

  lemma LinkExact(t: string)
    ensures Spelt(LINK, t) <==> LinkText(t)
  {
    hide Spelt, Word, Folds;
    LinkBlind();
    var r := LINK.right.right;
    SpeltEither(LINK, t);
    SpeltEither(LINK.right, t);
    SpeltEither(r, t);
    SpeltOne(RefSep, t);
    if t != "" { ClassesAre(t[0]); }
    WordExact("id", t);
    WordExact("number", t);
    if Spelt(r.left, t) {
      var no, dot := CatCut(r.left, t);
      WordExact("no", no);
      SpeltOpt(One(Lit('.')), dot);
      SpeltLit('.', dot);
      FoldsLength("no", no);
      assert t[..2] == no && t[2..] == dot;
    }
    if Folds("no", t) {
      assert t + "" == t;
      NoGlue(t, "");
    }
    if |t| == 3 && Folds("no", t[..2]) && t[2] == '.' {
      assert t[..2] + "." == t;
      NoGlue(t[..2], ".");
    }
  }

  lemma FoldsLength(w: string, t: string)
    requires Folds(w, t)
    ensures |t| == |w|
  {
  }

  lemma NoGlue(no: string, dot: string)
    requires Folds("no", no) && (dot == "" || dot == ".")
    ensures Spelt(LINK.right.right.left, no + dot)
  {
    hide Spelt, Word, Folds;
    LinkBlind();
    WordExact("no", no);
    SpeltOpt(One(Lit('.')), dot);
    SpeltLit('.', dot);
    CatGlue(LINK.right.right.left, no, dot);
  }

  lemma {:induction false} LinksExact(r: Regex, t: string, n: nat)
    requires r == Repeat(LINK, 0, Some(n), true)
    ensures Spelt(r, t) <==> LinksText(t, n)
    decreases n
  {
    hide Spelt, LinkText, LINK;
    LinkBlind();
    if n == 0 || t == "" {
      SpeltNothing(r, t);
    } else {
      if Spelt(r, t) {
        var a, b := RepeatCut(r, t);
        LinkExact(a);
        LinksExact(Again(r), b, n - 1);
        assert LinkParts(t, a, b);
      }
      if LinksText(t, n) {
        var a, b :| LinkParts(t, a, b) && LinksText(b, n - 1);
        LinkExact(a);
        LinkNonEmpty(a);
        LinksExact(Again(r), b, n - 1);
        RepeatGlue(r, a, b);
      }
    }
  }

  lemma LinkNonEmpty(t: string)
    requires LinkText(t)
    ensures t != ""
  {
  }

  lemma TailExact(t: string)
    ensures var r := Cat(LINKS, AtLeast(Digit, 3));
      Blind(r) && (Spelt(r, t) <==> exists links, digits :: TailParts(t, links, digits))
  {
    hide Spelt, LINK, LinksText;
    LinkBlind();
    var r := Cat(LINKS, AtLeast(Digit, 3));
    if Spelt(r, t) {
      var links, digits := CatCut(r, t);
      LinksExact(LINKS, links, 20);
      DigitsExact(digits);
      assert TailParts(t, links, digits);
    }
    if exists links, digits :: TailParts(t, links, digits) {
      var links, digits :| TailParts(t, links, digits);
      LinksExact(LINKS, links, 20);
      DigitsExact(digits);
      CatGlue(r, links, digits);
    }
  }

  ghost predicate TailParts(t: string, links: string, digits: string) {
    t == links + digits && LinksText(links, 20) && |digits| >= 3 && AllDigitCh(digits)
  }

  lemma DigitsExact(t: string)
    ensures Spelt(AtLeast(Digit, 3), t) <==> |t| >= 3 && AllDigitCh(t)
  {
    hide Spelt;
    SpeltRun(AtLeast(Digit, 3), t);
    forall k | 0 <= k < |t| ensures Has(Digit, t[k]) <==> DigitCh(t[k]) { ClassesAre(t[k]); }
  }

  lemma KeywordLetters(t: string)
    requires KeywordText(t)
    ensures t != "" && IsWord(t[|t| - 1])
  {
    assert forall w: string, k :: Folds(w, t) && 0 <= k < |w| && IsLower(w[k]) ==> IsLetter(t[k]);
  }

  // A match of the reference pattern, wherever it stands.
  lemma RefExact(x: Ctx, s: string, n: nat)
    ensures Matches(Ref(), x, s, n) <==> n <= |s| && RefText(s[..n])
  {
    hide Matches, Keyword, LINKS, AtLeast, KeywordText, LinksText, AllDigitCh;
    if Matches(Ref(), x, s, n) { RefCut(x, s, n); }
    if n <= |s| && RefText(s[..n]) {
      var keyword, links, digits :| RefTextParts(s[..n], keyword, links, digits);
      RefGlue(x, s, n, keyword, links, digits);
    }
  }

  lemma RefCut(x: Ctx, s: string, n: nat)
    requires Matches(Ref(), x, s, n)
    ensures n <= |s| && RefText(s[..n])
  {
    hide Matches, Keyword, LINKS, AtLeast, KeywordText, LinksText;
    var r := Ref().second;
    var k := Parse(Ref(), x, s, n);
    var y, t := After(x, s, k), s[k..];
    KeywordExact(s[..k]);
    SpeltMatches(Keyword(), x, s, k);
    KeywordLetters(s[..k]);
    var z := Parse(r, y, t, n - k);
    var _ := Parse(WordEdge, y, t, z);
    assert t[0..] == t;
    TailExact(t[..n - k]);
    SpeltMatches(r.second, y, t, n - k);
    var links, digits :| TailParts(t[..n - k], links, digits);
    assert s[..k][k - 1] == s[k - 1];
    assert t[0] == t[..n - k][0];
    ClassesAre(t[0]);
    assert s[..n] == s[..k] + t[..n - k];
    assert s[..n] == s[..k] + links + digits;
    assert RefTextParts(s[..n], s[..k], links, digits);
  }

  lemma RefGlue(x: Ctx, s: string, n: nat, keyword: string, links: string, digits: string)
    requires n <= |s| && RefTextParts(s[..n], keyword, links, digits)
    ensures Matches(Ref(), x, s, n)
  {
    hide Matches, Keyword, LINKS, AtLeast, KeywordText, LinksText;
    var r, k := Ref().second, |keyword|;
    var y, t := After(x, s, k), s[k..];
    assert s[..n][..k] == keyword && s[..k] == keyword;
    assert t[..n - k] == s[..n][k..] == links + digits;
    KeywordExact(keyword);
    SpeltMatches(Keyword(), x, s, k);
    KeywordLetters(keyword);
    assert s[k - 1] == keyword[k - 1];
    assert t[0] == (links + digits)[0] == links[0];
    ClassesAre(t[0]);
    assert TailParts(links + digits, links, digits);
    TailExact(links + digits);
    SpeltMatches(r.second, y, t, n - k);
    LeafMatches(WordEdge, y, t, 0);
    assert t[0..] == t;
    CatMatches(r, y, t, 0, n - k);
    CatMatches(Ref(), x, s, k, n);
  }

  /* ---- stretches of a text ---- */

  // Text of the kind that a pattern is after.
  ghost predicate KindText(p: Pattern, t: string) {
    match p
    case Email => EmailText(t)
    case Ssn => SsnText(t)
    case Card => CardText(t)
    case Phone => PhoneText(t)
    case Ip => IpText(t)
    case BusinessRef => RefText(t)
  }

  predicate WordBefore(s: string, i: nat) { 0 < i <= |s| && WordCh(s[i - 1]) }

  predicate WordBehind(s: string, i: nat) { i < |s| && WordCh(s[i]) }

  // What the pattern asks of the neighbours of a stretch: nothing, no digit, or the edge of
  // a word.
  predicate Free(p: Pattern, s: string, i: nat, n: nat)
    requires i + n <= |s|
  {
    match p
    case Email => true
    case Phone => !(i > 0 && DigitCh(s[i - 1])) && !(i + n < |s| && DigitCh(s[i + n]))
    case _ => WordBefore(s, i) != WordBehind(s, i) && WordBefore(s, i + n) != WordBehind(s, i + n)
  }

  // A stretch of the kind stands at position `i`.
  ghost predicate Stands(p: Pattern, s: string, i: nat, n: nat) {
    i + n <= |s| && KindText(p, s[i..i + n]) && Free(p, s, i, n)
  }

  lemma BodyExact(p: Pattern, x: Ctx, s: string, n: nat)
    ensures Matches(Body(p), x, s, n) <==> n <= |s| && KindText(p, s[..n])
  {
    hide Matches, RefText, EmailText, SsnText, CardText, PhoneText, IpText;
    match p
    case BusinessRef => RefExact(x, s, n);
    case Email => EmailBlind(); SpeltMatches(EMAIL, x, s, n); if n <= |s| { EmailExact(s[..n]); }
    case Ssn => SsnBlind(); SpeltMatches(SSN, x, s, n); if n <= |s| { SsnExact(s[..n]); }
    case Card => CardBlind(); SpeltMatches(CARD, x, s, n); if n <= |s| { CardExact(s[..n]); }
    case Phone => PhoneBlind(); SpeltMatches(PHONE, x, s, n); if n <= |s| { PhoneExact(s[..n]); }
    case Ip => IpBlind(); SpeltMatches(IP, x, s, n); if n <= |s| { IpExact(s[..n]); }
  }

  // The pattern matches exactly the stretches of its kind.
  lemma StandsIff(p: Pattern, s: string, i: nat, n: nat)
    ensures MatchAt(Rx(p), EDGE, s, i, n) <==> Stands(p, s, i, n)
  {
    hide Matches, Body, KindText, Rx;
    if i <= |s| {
      var x, t := After(EDGE, s, i), s[i..];
      assert i > 0 ==> x == CtxOf(s[i - 1]);
      BodyExact(p, x, t, n);
      if n <= |t| {
        assert t[..n] == s[i..i + n];
        assert n > 0 ==> t[n - 1] == s[i + n - 1];
        assert t[n..] == s[i + n..];
        Neighbours(s, i);
        Neighbours(s, i + n);
        assert After(x, t, n) == After(EDGE, s, i + n);
      }
      if p == Email { EmailIs(); } else { Guarded(p, x, t, n); }
    }
  }

  lemma EmailIs()
    ensures Rx(Email) == Body(Email)
  {
  }

  lemma Neighbours(s: string, i: nat)
    requires i <= |s|
    ensures After(EDGE, s, i).word <==> WordBefore(s, i)
    ensures After(EDGE, s, i).digit <==> i > 0 && DigitCh(s[i - 1])
    ensures WordNext(s[i..]) <==> WordBehind(s, i)
    ensures DigitNext(s[i..]) <==> i < |s| && DigitCh(s[i])
  {
    if i > 0 { ClassesAre(s[i - 1]); }
    if i < |s| { ClassesAre(s[i]); }
  }
}

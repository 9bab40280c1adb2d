// What a match of each of the six patterns looks like: its first and last
// characters, its shape, and what it demands of the characters around it.

module PatternFacts {
  import opened Wrappers
  import opened Text
  import opened Regex
  import opened RegexFacts
  import opened Patterns

  predicate Digits(s: string, i: int, j: int) {
    0 <= i <= j <= |s| && forall k :: i <= k < j ==> IsDigit(s[k])
  }

  /* ---- what no match contains ---- */

  // `r` has no look-around, needs `min` characters, and consumes `c` just if `yes`.
  predicate Profile(r: Regex, c: char, yes: bool, min: nat) {
    Blind(r) && Consumes(r, c) == yes && MinLen(r) == min
  }

  lemma OneProfile(cls: CharClass, c: char)
    ensures Profile(One(cls), c, Has(cls, c), 1)
  {
  }

  lemma RunProfile(cls: CharClass, lo: nat, hi: Option<nat>, greedy: bool, c: char)
    ensures Profile(Repeat(One(cls), lo, hi, greedy), c, Has(cls, c), lo)
  {
    OneProfile(cls, c);
    LoopProfile(One(cls), lo, hi, greedy, c, Has(cls, c), 1);
  }

  lemma LoopProfile(r: Regex, lo: nat, hi: Option<nat>, greedy: bool, c: char, yes: bool, min: nat)
    requires Profile(r, c, yes, min)
    ensures Profile(Repeat(r, lo, hi, greedy), c, yes, lo * min)
  {
  }

  lemma CatProfile(a: Regex, b: Regex, c: char, ya: bool, yb: bool, ma: nat, mb: nat)
    requires Profile(a, c, ya, ma) && Profile(b, c, yb, mb)
    ensures Profile(Cat(a, b), c, ya || yb, ma + mb)
  {
  }

  lemma EitherProfile(a: Regex, b: Regex, c: char, ya: bool, yb: bool, ma: nat, mb: nat)
    requires Profile(a, c, ya, ma) && Profile(b, c, yb, mb)
    ensures Profile(Either(a, b), c, ya || yb, if ma <= mb then ma else mb)
  {
  }

  lemma EmailProfile(c: char)
    ensures Profile(EMAIL, c, Has(EmailLocal, c) || c == '@' || Has(EmailDomain, c) || c == '.' || IsLetter(c), 6)
  {
    hide Profile, IsLetter;
    RunProfile(EmailLocal, 1, None, true, c);
    OneProfile(Lit('@'), c);
    RunProfile(EmailDomain, 1, None, true, c);
    OneProfile(Lit('.'), c);
    RunProfile(Letter, 2, None, true, c);
    var t := EMAIL.second;
    CatProfile(t.second.second.first, t.second.second.second, c, c == '.', IsLetter(c), 1, 2);
    CatProfile(t.second.first, t.second.second, c, Has(EmailDomain, c), c == '.' || IsLetter(c), 1, 3);
    CatProfile(t.first, t.second, c, c == '@', Has(EmailDomain, c) || c == '.' || IsLetter(c), 1, 4);
    CatProfile(EMAIL.first, t, c, Has(EmailLocal, c), c == '@' || Has(EmailDomain, c) || c == '.' || IsLetter(c), 1, 5);
  }

  lemma SsnProfile(c: char)
    ensures Profile(SSN, c, IsDigit(c) || c == '-', 11)
  {
    hide Profile, IsDigit;
    RunProfile(Digit, 3, Some(3), true, c);
    OneProfile(Lit('-'), c);
    RunProfile(Digit, 2, Some(2), true, c);
    RunProfile(Digit, 4, Some(4), true, c);
    var t, d := SSN.second, IsDigit(c) || c == '-';
    CatProfile(t.second.second.first, t.second.second.second, c, c == '-', IsDigit(c), 1, 4);
    CatProfile(t.second.first, t.second.second, c, IsDigit(c), d, 2, 5);
    CatProfile(t.first, t.second, c, c == '-', d, 1, 7);
    CatProfile(SSN.first, t, c, IsDigit(c), d, 3, 8);
  }

  lemma CardProfile(c: char)
    ensures Profile(CARD, c, IsDigit(c) || c in " -", 13)
  {
    hide Profile, IsDigit;
    OneProfile(Digit, c);
    RunProfile(CardSep, 0, None, false, c);
    CatProfile(CARD_DIGIT.first, CARD_DIGIT.second, c, IsDigit(c), c in " -", 1, 0);
    LoopProfile(CARD_DIGIT, 13, Some(16), true, c, IsDigit(c) || c in " -", 1);
  }

  lemma CountryProfile(c: char)
    ensures Profile(COUNTRY, c, c == '+' || IsDigit(c) || Has(PhoneSep, c), 0)
  {
    hide Profile, IsDigit;
    var d, p := IsDigit(c), Has(PhoneSep, c);
    OneProfile(Lit('+'), c);
    OneProfile(PhoneSep, c);
    RunProfile(Digit, 1, Some(2), true, c);
    LoopProfile(One(Lit('+')), 0, Some(1), true, c, c == '+', 1);
    LoopProfile(One(PhoneSep), 0, Some(1), true, c, p, 1);
    var n := COUNTRY.body;
    CatProfile(n.second.first, n.second.second, c, d, p, 1, 0);
    CatProfile(n.first, n.second, c, c == '+', d || p, 0, 1);
    LoopProfile(n, 0, Some(1), true, c, c == '+' || d || p, 1);
  }

  lemma PhoneProfile(c: char)
    ensures Profile(PHONE, c, IsDigit(c) || Has(PhoneSep, c) || c in "+()", 10)
  {
    hide Profile, IsDigit, COUNTRY;
    var d, p := IsDigit(c), Has(PhoneSep, c);
    CountryProfile(c);
    OneProfile(Lit('('), c);
    OneProfile(Lit(')'), c);
    OneProfile(PhoneSep, c);
    RunProfile(Digit, 3, Some(3), true, c);
    RunProfile(Digit, 4, Some(4), true, c);
    LoopProfile(One(PhoneSep), 0, Some(1), true, c, p, 1);
    var a := AREA.left;
    CatProfile(a.second.first, a.second.second, c, d, c == ')', 3, 1);
    CatProfile(a.first, a.second, c, c == '(', d || c == ')', 1, 4);
    EitherProfile(a, AREA.right, c, c == '(' || d || c == ')', d, 5, 3);
    var l := LOCAL.second;
    CatProfile(l.second.first, l.second.second, c, p, d, 0, 4);
    CatProfile(l.first, l.second, c, d, p || d, 3, 4);
    CatProfile(LOCAL.first, l, c, p, d || p, 0, 7);
    CatProfile(AREA, LOCAL, c, c == '(' || d || c == ')', d || p, 3, 7);
    CatProfile(COUNTRY, PHONE.second, c, c == '+' || d || p, c == '(' || d || c == ')' || p, 0, 10);
  }

  lemma IpProfile(c: char)
    ensures Profile(IP, c, IsDigit(c) || c == '.', 7)
  {
    hide Profile, IsDigit;
    RunProfile(Digit, 1, Some(3), true, c);
    OneProfile(Lit('.'), c);
    CatProfile(OCTET_DOT.first, OCTET_DOT.second, c, IsDigit(c), c == '.', 1, 1);
    LoopProfile(OCTET_DOT, 3, Some(3), true, c, IsDigit(c) || c == '.', 2);
    CatProfile(IP.first, IP.second, c, IsDigit(c) || c == '.', IsDigit(c), 6, 1);
  }

  lemma WordProfile(w: string, c: char)
    requires LowerWord(w)
    ensures Profile(Word(w), c, Consumes(Word(w), c), |w|) && (Consumes(Word(w), c) ==> IsLetter(c))
  {
    WordLetters(w, c);
  }

  lemma LinkStops(c: char)
    requires !IsLetter(c) && !Has(RefSep, c) && c != '.'
    ensures Profile(LINK, c, false, 1)
  {
    hide Word, IsLetter;
    WordProfile("id", c);
    WordProfile("no", c);
    WordProfile("number", c);
    OneProfile(RefSep, c);
    OneProfile(Lit('.'), c);
    hide Profile;
    LoopProfile(One(Lit('.')), 0, Some(1), true, c, false, 1);
    var r := LINK.right.right;
    CatProfile(r.left.first, r.left.second, c, false, false, 2, 0);
    EitherProfile(r.left, r.right, c, false, false, 2, 6);
    EitherProfile(LINK.right.left, r, c, false, false, 2, 2);
    EitherProfile(LINK.left, LINK.right, c, false, false, 1, 2);
  }

  // A business reference consumes letters, digits, blanks, ':', '#' and '.'.
  lemma RefStops(c: char)
    requires !IsLetter(c) && !IsDigit(c) && !Has(RefSep, c) && c != '.'
    ensures !Consumes(Ref(), c) && MinLen(Ref()) > 0
  {
    KeywordsAreWords();
    hide Word, AnyWord, IsLetter, IsDigit, LINK;
    AnyWordLetters(KEYWORDS, c);
    LinkStops(c);
    LoopProfile(LINK, 0, Some(20), true, c, false, 1);
    RunProfile(Digit, 3, None, true, c);
    var t := Ref().second.second;
    CatProfile(t.first, t.second, c, false, false, 0, 3);
    CatConsumes(WordEdge, t, c);
    CatConsumes(Ref().first, Ref().second, c);
  }

  lemma CatConsumes(a: Regex, b: Regex, c: char)
    ensures Consumes(Cat(a, b), c) == (Consumes(a, c) || Consumes(b, c))
    ensures MinLen(Cat(a, b)) == MinLen(a) + MinLen(b)
    ensures !Consumes(WordEdge, c) && !Consumes(NotAfterDigit, c) && !Consumes(NotBeforeDigit, c)
  {
  }

  // The characters that a match of `p` can contain.
  predicate InMatch(p: Pattern, c: char) {
    match p
    case Email => Has(EmailLocal, c) || c == '@'
    case Ssn => IsDigit(c) || c == '-'
    case Card => IsDigit(c) || c in " -"
    case Phone => IsDigit(c) || Has(PhoneSep, c) || c in "+()"
    case Ip => IsDigit(c) || c == '.'
    case BusinessRef => IsLetter(c) || IsDigit(c) || Has(RefSep, c) || c == '.'
  }

  lemma BodyAlphabet(p: Pattern, c: char)
    ensures Consumes(Body(p), c) ==> InMatch(p, c)
    ensures MinLen(Body(p)) > 0 && (p == Card ==> MinLen(Body(p)) == 13) && (p == Phone ==> MinLen(Body(p)) == 10)
    ensures p != BusinessRef ==> Blind(Body(p))
  {
    hide Consumes, MinLen, Blind;
    match p
    case Email => EmailProfile(c);
    case Ssn => SsnProfile(c);
    case Card => CardProfile(c);
    case Phone => PhoneProfile(c);
    case Ip => IpProfile(c);
    case BusinessRef =>
      if !InMatch(p, c) { RefStops(c); }
      RefStops('@');
  }

  function Before(p: Pattern): Regex { if p == Phone then NotAfterDigit else WordEdge }

  function Beyond(p: Pattern): Regex { if p == Phone then NotBeforeDigit else WordEdge }

  lemma RxIs(p: Pattern)
    ensures Rx(p) == if p == Email then Body(p) else Cat(Before(p), Cat(Body(p), Beyond(p)))
  {
  }

  lemma RxAlphabet(p: Pattern, c: char)
    ensures Consumes(Rx(p), c) ==> InMatch(p, c)
    ensures MinLen(Rx(p)) > 0 && (p == Card ==> MinLen(Rx(p)) >= 13) && (p == Phone ==> MinLen(Rx(p)) >= 10)
  {
    hide Rx, Body, Consumes, MinLen, InMatch;
    RxIs(p);
    BodyAlphabet(p, c);
    if p != Email {
      CatConsumes(Body(p), Beyond(p), c);
      CatConsumes(Before(p), Cat(Body(p), Beyond(p)), c);
    }
  }

  // The brackets of the mask and NUL stop every pattern.
  lemma PatternStops(p: Pattern, c: char)
    requires Stops(c)
    ensures Barrier(Rx(p), c) && MinLen(Rx(p)) > 0
  {
    hide Rx, MinLen, Consumes;
    RxAlphabet(p, c);
  }

  lemma NonEmpty(p: Pattern)
    ensures MinLen(Rx(p)) > 0
  {
    PatternStops(p, '[');
  }

  /* ---- small repetitions ---- */

  lemma OptMatch(r: Regex, x: Ctx, s: string, n: nat)
    requires n <= |s|
    ensures Matches(Opt(r), x, s, n) <==> n == 0 || Matches(r, x, s, n)
  {
    hide Matches;
    if n == 0 {
      LeafMatches(Opt(r), x, s, n);
    } else {
      if Matches(Opt(r), x, s, n) {
        var m := Parse(Opt(r), x, s, n);
        var k := Parse(Again(Opt(r)), After(x, s, m), s[m..], n - m);
      }
      if Matches(r, x, s, n) {
        LeafMatches(Again(Opt(r)), After(x, s, n), s[n..], 0);
        RepeatMatches(Opt(r), x, s, n, n);
      }
    }
  }

  lemma DigitRun(lo: nat, hi: nat, x: Ctx, s: string, n: nat)
    ensures Matches(Between(Digit, lo, hi), x, s, n) <==> lo <= n <= hi && n <= |s| && Digits(s, 0, n)
  {
    ClassRun(Between(Digit, lo, hi), x, s, n);
  }

  /* ---- shapes ---- */

  // Three digits, two digits and four digits, with dashes between.
  lemma SsnShape(x: Ctx, s: string, n: nat)
    requires Matches(SSN, x, s, n)
    ensures n == 11 <= |s| && Digits(s, 0, 3) && s[3] == '-' && Digits(s, 4, 6) && s[6] == '-' && Digits(s, 7, 11)
  {
    hide Matches;
    var m := Parse(SSN, x, s, n);
    DigitRun(3, 3, x, s, m);
    var r1, x1, s1 := SSN.second, After(x, s, 3), s[3..];
    var m1 := Parse(r1, x1, s1, n - 3);
    var _ := Parse(r1.first, x1, s1, m1);
    var r2, x2, s2 := r1.second, After(x1, s1, 1), s1[1..];
    var m2 := Parse(r2, x2, s2, n - 4);
    DigitRun(2, 2, x2, s2, m2);
    var r3, x3, s3 := r2.second, After(x2, s2, 2), s2[2..];
    var m3 := Parse(r3, x3, s3, n - 6);
    var _ := Parse(r3.first, x3, s3, m3);
    DigitRun(4, 4, After(x3, s3, 1), s3[1..], n - 7);
    assert s1 == s[3..] && s2 == s[4..] && s3 == s[6..] && s3[1..] == s[7..];
    assert forall k :: 4 <= k < 6 ==> s[k] == s2[k - 4];
    assert forall k :: 7 <= k < 11 ==> s[k] == s3[1..][k - 7];
  }

  // Digits with spaces or dashes between; thirteen characters at least.
  lemma CardShape(x: Ctx, s: string, n: nat)
    requires Matches(CARD, x, s, n)
    ensures 13 <= n <= |s| && IsDigit(s[0])
    ensures forall k :: 0 <= k < n ==> IsDigit(s[k]) || s[k] in " -"
  {
    hide Matches;
    CardProfile('0');
    MatchLength(CARD, x, s, n);
    var m := Parse(CARD, x, s, n);
    var k := Parse(CARD_DIGIT, x, s, m);
    var _ := Parse(One(Digit), x, s, k);
    forall i | 0 <= i < n
      ensures IsDigit(s[i]) || s[i] in " -"
    {
      MatchAlphabet(CARD, x, s, n, i);
      CardProfile(s[i]);
    }
  }

  // The last seven digits of a phone number, `a` and `b` separators among them.
  predicate LocalPart(s: string, n: nat, a: nat, b: nat) {
    && a <= 1 && b <= 1 && n == 7 + a + b && n <= |s|
    && (a == 1 ==> Has(PhoneSep, s[0])) && Digits(s, a, a + 3)
    && (b == 1 ==> Has(PhoneSep, s[a + 3])) && Digits(s, a + 3 + b, n)
  }

  lemma LocalShape(x: Ctx, s: string, n: nat) returns (a: nat, b: nat)
    requires Matches(LOCAL, x, s, n)
    ensures LocalPart(s, n, a, b) && IsLocal(s, n)
  {
    hide Matches;
    a := Parse(LOCAL, x, s, n);
    SepShape(x, s, a);
    var r1, x1, s1 := LOCAL.second, After(x, s, a), s[a..];
    var m := Parse(r1, x1, s1, n - a);
    DigitRun(3, 3, x1, s1, m);
    var r2, x2, s2 := r1.second, After(x1, s1, 3), s1[3..];
    b := Parse(r2, x2, s2, n - a - 3);
    SepShape(x2, s2, b);
    DigitRun(4, 4, After(x2, s2, b), s2[b..], n - a - 3 - b);
    assert forall k :: a <= k < a + 3 ==> s[k] == s1[k - a];
    assert forall k :: a + 3 + b <= k < n ==> s[k] == s2[b..][k - a - 3 - b];
  }

  lemma SepShape(x: Ctx, s: string, n: nat)
    ensures Matches(Opt(One(PhoneSep)), x, s, n) <==> n == 0 || (n == 1 <= |s| && Has(PhoneSep, s[0]))
  {
    ClassRun(Opt(One(PhoneSep)), x, s, n);
  }

  lemma LocalMatches(x: Ctx, s: string, n: nat, a: nat, b: nat)
    requires LocalPart(s, n, a, b)
    ensures Matches(LOCAL, x, s, n)
  {
    hide Matches;
    var r1, x1, s1 := LOCAL.second, After(x, s, a), s[a..];
    var r2, x2, s2 := r1.second, After(x1, s1, 3), s1[3..];
    SepShape(x2, s2, b);
    DigitRun(4, 4, After(x2, s2, b), s2[b..], 4);
    CatMatches(r2, x2, s2, b, b + 4);
    DigitRun(3, 3, x1, s1, 3);
    CatMatches(r1, x1, s1, 3, 7 + b);
    SepShape(x, s, a);
    CatMatches(LOCAL, x, s, a, n);
  }

  predicate IsLocal(s: string, n: nat) {
    LocalPart(s, n, 0, 0) || LocalPart(s, n, 0, 1) || LocalPart(s, n, 1, 0) || LocalPart(s, n, 1, 1)
  }

  // A phone number that begins with its area code in parentheses.
  predicate ParenPhone(s: string, n: nat) {
    && 12 <= n <= |s| && s[0] == '(' && Digits(s, 1, 4) && s[4] == ')'
    && IsLocal(s[5..], n - 5)
  }

  lemma AreaShape(x: Ctx, s: string, n: nat)
    requires n <= |s|
    ensures Matches(AREA, x, s, n) <==>
      (n == 5 && s[0] == '(' && Digits(s, 1, 4) && s[4] == ')') || (n == 3 && Digits(s, 0, 3))
  {
    hide Matches;
    var p := AREA.left;
    DigitRun(3, 3, x, s, n);
    LeafMatches(AREA, x, s, n);
    if Matches(p, x, s, n) {
      var m := Parse(p, x, s, n);
      var _ := Parse(p.first, x, s, m);
      var k := Parse(p.second, After(x, s, 1), s[1..], n - 1);
      DigitRun(3, 3, After(x, s, 1), s[1..], k);
      var _ := Parse(p.second.second, After(After(x, s, 1), s[1..], k), s[1..][k..], n - 1 - k);
      assert forall i :: 1 <= i < 4 ==> s[i] == s[1..][i - 1];
    }
    if n == 5 && s[0] == '(' && Digits(s, 1, 4) && s[4] == ')' {
      DigitRun(3, 3, After(x, s, 1), s[1..], 3);
      LeafMatches(p.second.second, After(After(x, s, 1), s[1..], 3), s[1..][3..], 1);
      CatMatches(p.second, After(x, s, 1), s[1..], 3, 4);
      LeafMatches(p.first, x, s, 1);
      CatMatches(p, x, s, 1, 5);
    }
  }

  // The country part is empty, or starts with a digit, or is a plus sign followed by
  // a country part that starts with a digit.
  lemma CountryShape(x: Ctx, s: string, n: nat)
    requires Matches(COUNTRY, x, s, n)
    ensures n > 0 ==> s[0] == '+' || IsDigit(s[0])
    ensures n > 0 && s[0] == '+' ==>
      n > 1 && IsDigit(s[1]) && Matches(COUNTRY, CtxOf(s[0]), s[1..], n - 1)
  {
    hide Matches;
    var c := COUNTRY.body;
    WithinLength(COUNTRY, x, s, n);
    OptMatch(c, x, s, n);
    if n > 0 {
      var m := Parse(c, x, s, n);
      OptMatch(One(Lit('+')), x, s, m);
      LeafMatches(One(Lit('+')), x, s, m);
      var k := Parse(c.second, After(x, s, m), s[m..], n - m);
      DigitRun(1, 2, After(x, s, m), s[m..], k);
      if m == 1 {
        var y, t := CtxOf(s[0]), s[1..];
        OptMatch(One(Lit('+')), y, t, 0);
        CatMatches(c, y, t, 0, n - 1);
        OptMatch(c, y, t, n - 1);
      }
    }
  }

  lemma PhoneShape(x: Ctx, s: string, n: nat)
    requires Matches(PHONE, x, s, n)
    ensures 10 <= n <= |s| && IsDigit(s[n - 1]) && Digits(s, n - 4, n)
    ensures IsDigit(s[0]) || s[0] == '+' || s[0] == '('
    ensures s[0] == '(' ==> ParenPhone(s, n)
    ensures s[0] == '+' ==> n > 1 && Matches(PHONE, CtxOf(s[0]), s[1..], n - 1)
  {
    hide Matches;
    WithinLength(PHONE, x, s, n);
    assert 10 <= n by { MatchLength(PHONE, x, s, n); PhoneProfile('0'); }
    hide MinLen, Consumes;
    var m := Parse(PHONE, x, s, n);
    CountryShape(x, s, m);
    var y, t, r := After(x, s, m), s[m..], PHONE.second;
    var k := Parse(r, y, t, n - m);
    WithinLength(r.first, y, t, k);
    AreaShape(y, t, k);
    var a, b := LocalShape(After(y, t, k), t[k..], n - m - k);
    assert forall i :: n - 4 <= i < n ==> s[i] == t[k..][i - m - k];
    if m == 0 {
      assert t == s;
    } else if s[0] == '+' {
      assert s[1..][m - 1..] == t && After(CtxOf(s[0]), s[1..], m - 1) == y;
      CatMatches(PHONE, CtxOf(s[0]), s[1..], m - 1, n - 1);
    }
  }

  lemma ParenPhoneMatches(x: Ctx, s: string, n: nat)
    requires ParenPhone(s, n)
    ensures Matches(PHONE, x, s, n)
  {
    hide Matches;
    var a: nat, b: nat :| LocalPart(s[5..], n - 5, a, b);
    OptMatch(COUNTRY.body, x, s, 0);
    AreaShape(x, s, 5);
    LocalMatches(After(x, s, 5), s[5..], n - 5, a, b);
    CatMatches(PHONE.second, x, s, 5, n);
    assert s[0..] == s;
    CatMatches(PHONE, x, s, 0, n);
  }

  // A dotted address starts and ends with a digit, and its first two numbers have at
  // most three digits before their dots.
  lemma IpShape(x: Ctx, s: string, n: nat) returns (a: nat, b: nat)
    requires Matches(IP, x, s, n)
    ensures 1 <= a <= 3 && 1 <= b <= 3 && a + b + 2 < n <= |s|
    ensures Digits(s, 0, a) && s[a] == '.' && Digits(s, a + 1, a + 1 + b) && s[a + 1 + b] == '.'
    ensures IsDigit(s[n - 1])
  {
    hide Matches;
    var m := Parse(IP, x, s, n);
    DigitRun(1, 3, After(x, s, m), s[m..], n - m);
    assert s[n - 1] == s[m..][n - m - 1];
    var k := Parse(IP.first, x, s, m);
    a := OctetShape(x, s, k);
    var r, y, t := Again(IP.first), After(x, s, k), s[k..];
    var l := Parse(r, y, t, m - k);
    b := OctetShape(y, t, l);
    assert forall i :: a + 1 <= i < a + 1 + b ==> s[i] == t[i - a - 1];
    MatchLength(Again(r), After(y, t, l), t[l..], m - k - l);
  }

  lemma OctetShape(x: Ctx, s: string, n: nat) returns (a: nat)
    requires Matches(OCTET_DOT, x, s, n)
    ensures 1 <= a <= 3 && n == a + 1 <= |s| && Digits(s, 0, a) && s[a] == '.'
  {
    hide Matches;
    a := Parse(OCTET_DOT, x, s, n);
    DigitRun(1, 3, x, s, a);
    var _ := Parse(One(Lit('.')), After(x, s, a), s[a..], n - a);
  }

  /* ---- business references ---- */

  // What every connector word starts with; no keyword starts so.
  predicate LinkHead(s: string) {
    s != [] && (SameLetter('n', s[0]) || (|s| > 1 && SameLetter('i', s[0]) && SameLetter('d', s[1])))
  }

  // Inside a connector a new word can only start at a connector word.
  predicate NoNewWord(s: string, n: nat)
    requires n <= |s|
  {
    forall j :: 0 <= j < n && NewWord(s, j) ==> LinkHead(s[j..])
  }

  predicate NewWord(s: string, j: int) {
    0 <= j < |s| && IsLetter(s[j]) && (j == 0 || !IsWord(s[j - 1]))
  }

  lemma JoinLinks(s: string, m: nat, n: nat)
    requires m <= n <= |s| && NoNewWord(s, m) && NoNewWord(s[m..], n - m)
    ensures NoNewWord(s, n)
  {
    forall j | 0 <= j < n && NewWord(s, j)
      ensures LinkHead(s[j..])
    {
      if m <= j {
        assert s[j..] == s[m..][j - m..] && NewWord(s[m..], j - m);
      }
    }
  }

  lemma SpelledLetters(w: string, s: string)
    requires |w| <= |s| && SameWord(w, s[..|w|]) && forall k :: 0 <= k < |w| ==> IsLower(w[k])
    ensures forall k :: 0 <= k < |w| ==> IsLetter(s[k]) && SameLetter(w[k], s[k])
  {
    assert forall k :: 0 <= k < |w| ==> SameLetter(w[k], s[..|w|][k]);
  }

  lemma SpelledLink(w: string, s: string)
    requires |w| > 1 && |w| <= |s| && SameWord(w, s[..|w|]) && forall k :: 0 <= k < |w| ==> IsLower(w[k])
    requires w[0] == 'n' || (w[0] == 'i' && w[1] == 'd')
    ensures NoNewWord(s, |w|)
  {
    SpelledLetters(w, s);
    assert s[0..] == s && LinkHead(s);
    assert forall i :: 0 <= i < |w| - 1 ==> IsWord(s[i]);
  }

  lemma LinkShape(x: Ctx, s: string, n: nat)
    requires Matches(LINK, x, s, n)
    ensures 0 < n <= |s| && NoNewWord(s, n)
  {
    hide Matches, NoNewWord, SameWord;
    var _ := Parse(LINK, x, s, n);
    if Matches(One(RefSep), x, s, n) {
      SepLink(x, s, n);
    } else {
      var _ := Parse(LINK.right, x, s, n);
      WordMatch("id", x, s, n);
      if Matches(Word("id"), x, s, n) {
        SpelledLink("id", s);
      } else {
        var _ := Parse(LINK.right.right, x, s, n);
        WordMatch("number", x, s, n);
        if Matches(Word("number"), x, s, n) { SpelledLink("number", s); } else { NoLink(x, s, n); }
      }
    }
  }

  lemma SepLink(x: Ctx, s: string, n: nat)
    requires Matches(One(RefSep), x, s, n)
    ensures n == 1 <= |s| && NoNewWord(s, n)
  {
    assert !NewWord(s, 0);
  }

  lemma NoLink(x: Ctx, s: string, n: nat)
    requires Matches(LINK.right.right.left, x, s, n)
    ensures 0 < n <= |s| && NoNewWord(s, n)
  {
    hide Matches;
    var m := Parse(LINK.right.right.left, x, s, n);
    WordMatch("no", x, s, m);
    SpelledLink("no", s);
    OptMatch(One(Lit('.')), After(x, s, m), s[m..], n - m);
    if m < n {
      var _ := Parse(One(Lit('.')), After(x, s, m), s[m..], n - m);
      assert s[2] == '.' && !NewWord(s, 2);
      assert forall j :: 0 <= j < 3 && NewWord(s, j) ==> j < 2;
    }
  }

  lemma {:induction false} LinksShape(r: Regex, x: Ctx, s: string, n: nat)
    requires r.Repeat? && r.body == LINK && Matches(r, x, s, n)
    ensures n <= |s| && NoNewWord(s, n)
    decreases n
  {
    hide Matches, LINK;
    var m := Parse(r, x, s, n);
    if n > 0 {
      LinkShape(x, s, m);
      LinksShape(Again(r), After(x, s, m), s[m..], n - m);
      JoinLinks(s, m, n);
    }
  }

  // Lower-case words of three letters or more that do not look like a connector word.
  predicate Distinctive(ws: seq<string>) {
    Words(ws) && forall i :: 0 <= i < |ws| ==>
      |ws[i]| >= 3 && ws[i][0] != 'n' && (ws[i][0] == 'i' ==> ws[i][1] != 'd')
  }

  lemma AnyWordShape(ws: seq<string>, x: Ctx, s: string, n: nat)
    requires Distinctive(ws) && Matches(AnyWord(ws), x, s, n)
    ensures 3 <= n <= |s| && !LinkHead(s) && forall k :: 0 <= k < n ==> IsLetter(s[k])
  {
    hide Matches;
    AnyWordMatch(ws, x, s, n);
    var i :| 0 <= i < |ws| && n == |ws[i]| <= |s| && SameWord(ws[i], s[..n]);
    SpelledLetters(ws[i], s);
  }

  lemma KeywordShape(x: Ctx, s: string, n: nat)
    requires Matches(Keyword(), x, s, n)
    ensures 3 <= n <= |s| && !LinkHead(s) && forall k :: 0 <= k < n ==> IsLetter(s[k])
  {
    KeywordsAreWords();
    hide Matches, AnyWord;
    AnyWordShape(KEYWORDS, x, s, n);
  }

  // A keyword of `k` letters, connectors up to `m`, the first of them no word character,
  // and digits to the end.
  ghost predicate RefParts(s: string, n: nat, k: nat, m: nat) {
    && 3 <= k < m && m + 3 <= n <= |s| && !IsWord(s[k])
    && (forall i :: 0 <= i < k ==> IsLetter(s[i])) && !LinkHead(s)
    && NoNewWord(s[k..], m - k)
    && (forall i :: k <= i < m ==> !IsDigit(s[i]))
    && Digits(s, m, n)
  }

  lemma RefShape(x: Ctx, s: string, n: nat) returns (k: nat, m: nat)
    requires Matches(Ref(), x, s, n)
    ensures RefParts(s, n, k, m)
  {
    hide Matches, Consumes, LINK, Keyword;
    k := Parse(Ref(), x, s, n);
    KeywordShape(x, s, k);
    var r1, y, t := Ref().second, After(x, s, k), s[k..];
    var z := Parse(r1, y, t, n - k);
    var _ := Parse(WordEdge, y, t, z);
    assert t[0..] == t;
    var l := Parse(r1.second, y, t, n - k);
    m := k + l;
    LinksShape(LINKS, y, t, l);
    ClassRun(AtLeast(Digit, 3), After(y, t, l), t[l..], n - m);
    assert forall i :: m <= i < n ==> s[i] == t[l..][i - m];
    forall i | k <= i < m
      ensures !IsDigit(s[i])
    {
      LinksNoDigit(y, t, l, i - k);
    }
  }

  lemma LinksNoDigit(x: Ctx, s: string, n: nat, i: nat)
    requires Matches(LINKS, x, s, n) && i < n <= |s|
    ensures !IsDigit(s[i])
  {
    MatchAlphabet(LINKS, x, s, n, i);
    if IsDigit(s[i]) { LinksStop(s[i]); }
  }

  lemma LinksStop(c: char)
    requires IsDigit(c)
    ensures !Consumes(LINKS, c)
  {
    LinkStops(c);
    LoopProfile(LINK, 0, Some(20), true, c, false, 1);
  }

  /* ---- what a match demands of its surroundings ---- */

  lemma GuardOf(a: Regex, b: Regex, z: Regex, x: Ctx, s: string, n: nat)
    requires a.WordEdge? || a.NotAfterDigit?
    requires z.WordEdge? || z.NotBeforeDigit?
    ensures Matches(Cat(a, Cat(b, z)), x, s, n) <==>
      n <= |s| && Matches(b, x, s, n) && Matches(a, x, s, 0) && Matches(z, After(x, s, n), s[n..], 0)
  {
    hide Matches;
    assert s[0..] == s;
    var r := Cat(a, Cat(b, z));
    if Matches(r, x, s, n) {
      var m := Parse(r, x, s, n);
      var _ := Parse(a, x, s, m);
      var k := Parse(r.second, x, s, n);
      var _ := Parse(z, After(x, s, k), s[k..], n - k);
    }
    if n <= |s| && Matches(b, x, s, n) && Matches(a, x, s, 0) && Matches(z, After(x, s, n), s[n..], 0) {
      CatMatches(r.second, x, s, n, n);
      CatMatches(r, x, s, 0, n);
    }
  }

  // A match of a pattern other than the e-mail one is a match of its body between the
  // right neighbours.
  lemma Guarded(p: Pattern, x: Ctx, s: string, n: nat)
    requires p != Email
    ensures Matches(Rx(p), x, s, n) <==>
      && n <= |s| && Matches(Body(p), x, s, n)
      && (p == Phone ==> !x.digit && !DigitNext(s[n..]))
      && (p != Phone ==> x.word != WordNext(s) && After(x, s, n).word != WordNext(s[n..]))
  {
    RxIs(p);
    GuardOf(Before(p), Body(p), Beyond(p), x, s, n);
    hide Matches, Rx, Body;
    if n <= |s| {
      LeafMatches(Before(p), x, s, 0);
      LeafMatches(Beyond(p), After(x, s, n), s[n..], 0);
    }
  }

  lemma IpEnds(x: Ctx, s: string, n: nat)
    requires Matches(IP, x, s, n)
    ensures 0 < n <= |s| && IsDigit(s[0]) && IsDigit(s[n - 1])
  {
    hide Matches;
    var _, _ := IpShape(x, s, n);
  }

  lemma RefEnds(x: Ctx, s: string, n: nat)
    requires Matches(Ref(), x, s, n)
    ensures 0 < n <= |s| && IsLetter(s[0]) && IsDigit(s[n - 1])
  {
    hide Matches, Ref;
    var _, _ := RefShape(x, s, n);
  }

  // The first character and the last of a match of a body.
  lemma BodyEnds(p: Pattern, x: Ctx, s: string, n: nat)
    requires p != Email && Matches(Body(p), x, s, n)
    ensures 0 < n <= |s|
    ensures p == BusinessRef ==> IsLetter(s[0])
    ensures p == Phone ==> IsDigit(s[0]) || s[0] == '+' || s[0] == '('
    ensures p in {Ssn, Card, Ip} ==> IsDigit(s[0])
    ensures if p == Card then IsDigit(s[n - 1]) || s[n - 1] in " -" else IsDigit(s[n - 1])
  {
    hide Matches, ParenPhone, Ref, IsWord;
    match p
    case Ssn => SsnShape(x, s, n);
    case Card => CardShape(x, s, n);
    case Phone => PhoneShape(x, s, n);
    case Ip => IpEnds(x, s, n);
    case BusinessRef => RefEnds(x, s, n);
  }

  // What a match says about the characters next to it.
  lemma Around(p: Pattern, x: Ctx, s: string, n: nat)
    requires p != Email && Matches(Rx(p), x, s, n) && (x.digit ==> x.word)
    ensures 0 < n <= |s| && !x.digit && (p != Phone ==> !x.word)
    ensures n == |s| ==> IsDigit(s[n - 1])
    ensures CtxOf(s[n - 1]) == EDGE || n == |s| || !IsDigit(s[n])
  {
    hide Matches, Rx, Body;
    Guarded(p, x, s, n);
    BodyEnds(p, x, s, n);
  }

  /* ---- runs of digits as telephone numbers ---- */

  lemma PlainPhone(x: Ctx, s: string)
    requires Digits(s, 0, 10)
    ensures Matches(Body(Phone), x, s, 10)
  {
    hide *;
    var c, r := PhoneIs();
    NoCountry(x, s);
    LocalDigits(x, s);
    assert s[0..] == s;
    NoCharsAfter(x, s);
    assert |s| >= 10 by { DigitsRoom(s); }
    CatMatches(Cat(c, r), x, s, 0, 10);
  }

  lemma PhoneIs() returns (c: Regex, r: Regex)
    ensures Body(Phone) == Cat(c, r) && c == COUNTRY && r == PHONE.second
  {
    c, r := COUNTRY, PHONE.second;
  }

  lemma NoCharsAfter(x: Ctx, s: string)
    ensures After(x, s, 0) == x
  {
  }

  lemma DigitsRoom(s: string)
    requires Digits(s, 0, 10)
    ensures |s| >= 10
  {
  }

  lemma NoCountry(x: Ctx, s: string)
    ensures Matches(COUNTRY, x, s, 0)
  {
    hide Matches;
    OptMatch(COUNTRY.body, x, s, 0);
  }

  lemma LocalDigits(x: Ctx, s: string)
    requires Digits(s, 0, 10)
    ensures Matches(PHONE.second, x, s, 10)
  {
    AreaShape(x, s, 3);
    assert forall k :: 0 <= k < 7 ==> s[3..][k] == s[3 + k];
    LocalMatches(After(x, s, 3), s[3..], 7, 0, 0);
    hide Matches, AREA, LOCAL;
    CatMatches(PHONE.second, x, s, 3, 10);
  }
}

// apps/api/src/guardrails/pii.py: shielding of business references, the five
// redaction passes, restoring, and the detector.

module Pii {
  import opened Wrappers
  import opened Text
  import opened Regex
  import opened RegexFacts
  import opened Scan
  import opened Patterns
  import opened PatternFacts

  const NUL: char := '\0'

  // The redaction passes, in their order.
  const PASSES := [Email, Ssn, Card, Phone, Ip]

  // Placeholder numbers up to nine digits are safe from the phone pattern.
  const MAX_REFS: nat := 1_000_000_000

  function Scanned(p: Pattern, s: string): Parts {
    NonEmpty(p);
    Split(Rx(p), EDGE, s)
  }

  function Pass(p: Pattern, s: string): string { Masked(Scanned(p, s)) }

  /* ---- shielding ---- */

  function Tag(k: nat): string { "REF" + Decimal(k) }

  function Placeholder(k: nat): string { [NUL] + Tag(k) + [NUL] }

  // A cut-up text with its hits replaced by placeholders numbered from `k`.
  function Shielded(p: Parts, k: nat): string {
    match p
    case Last(g) => g
    case More(g, _, rest) => g + Placeholder(k) + Shielded(rest, k + 1)
  }

  method ShieldBusinessRefs(text: string) returns (shielded: string, saved: seq<string>)
    ensures shielded == Shielded(Scanned(BusinessRef, text), 0)
    ensures saved == Hits(Scanned(BusinessRef, text))
  {
    NonEmpty(BusinessRef);
    shielded, saved := Stash(Rx(BusinessRef), text);
  }

  // The substitution whose callback appends each match to `saved`.
  method Stash(r: Regex, text: string) returns (shielded: string, saved: seq<string>)
    requires MinLen(r) > 0
    ensures shielded == Shielded(Split(r, EDGE, text), 0) && saved == Hits(Split(r, EDGE, text))
  {
    hide Split, First, MinLen, Shielded, Placeholder;
    shielded, saved := "", [];
    var x, rest := EDGE, text;
    while rest != []
      invariant Shielded(Split(r, EDGE, text), 0) == shielded + Shielded(Split(r, x, rest), |saved|)
      invariant Hits(Split(r, EDGE, text)) == saved + Hits(Split(r, x, rest))
      decreases |rest|
    {
      ShieldStep(r, x, rest, |saved|);
      match First(r, x, rest) {
        case Some(n) =>
          shielded := shielded + Placeholder(|saved|);
          saved := saved + [rest[..n]];
          x, rest := CtxOf(rest[n - 1]), rest[n..];
        case None =>
          shielded := shielded + [rest[0]];
          x, rest := CtxOf(rest[0]), rest[1..];
      }
    }
    ShieldEnd(r, x, |saved|);
  }

  // One step of the substitution: a match becomes a placeholder, any other character stays.
  lemma ShieldStep(r: Regex, x: Ctx, s: string, k: nat)
    requires MinLen(r) > 0 && s != []
    ensures First(r, x, s).Some? ==>
      var n := First(r, x, s).value;
      && 0 < n <= |s|
      && Shielded(Split(r, x, s), k) == Placeholder(k) + Shielded(Split(r, CtxOf(s[n - 1]), s[n..]), k + 1)
      && Hits(Split(r, x, s)) == [s[..n]] + Hits(Split(r, CtxOf(s[n - 1]), s[n..]))
    ensures First(r, x, s).None? ==>
      && Shielded(Split(r, x, s), k) == [s[0]] + Shielded(Split(r, CtxOf(s[0]), s[1..]), k)
      && Hits(Split(r, x, s)) == Hits(Split(r, CtxOf(s[0]), s[1..]))
  {
    hide First, MinLen, Placeholder;
    FirstPositive(r, x, s);
    if First(r, x, s).None? { PrependShielded([s[0]], Split(r, CtxOf(s[0]), s[1..]), k); }
  }

  lemma ShieldEnd(r: Regex, x: Ctx, k: nat)
    requires MinLen(r) > 0
    ensures Shielded(Split(r, x, ""), k) == "" && Hits(Split(r, x, "")) == []
  {
    FirstPositive(r, x, "");
  }

  lemma PrependShielded(g: string, p: Parts, k: nat)
    ensures Shielded(Prepend(g, p), k) == g + Shielded(p, k)
    ensures Hits(Prepend(g, p)) == Hits(p)
  {
    if p.More? {
      var z := Shielded(p.rest, k + 1);
      assert g + p.gap + Placeholder(k) + z == g + (p.gap + Placeholder(k) + z);
    }
  }

  /* ---- restoring ---- */

  // str.replace: every occurrence of `old`, from the left, without overlap.
  function Replace(s: string, from: string, to: string): string
    requires from != []
    decreases |s|
  {
    if |s| < |from| then s
    else if s[..|from|] == from then to + Replace(s[|from|..], from, to)
    else [s[0]] + Replace(s[1..], from, to)
  }

  // Replace placeholder `k`, then `k + 1`, and so on.
  function Unshielded(text: string, saved: seq<string>, k: nat): string
    requires k <= |saved|
    decreases |saved| - k
  {
    if k == |saved| then text else Unshielded(Replace(text, Placeholder(k), saved[k]), saved, k + 1)
  }

  method UnshieldBusinessRefs(text: string, saved: seq<string>) returns (out: string)
    ensures out == Unshielded(text, saved, 0)
  {
    out := text;
    for index := 0 to |saved|
      invariant Unshielded(text, saved, 0) == Unshielded(out, saved, index)
    {
      out := Replace(out, Placeholder(index), saved[index]);
    }
  }

  /* ---- redaction ---- */

  // The passes `ps`, one after the other.
  function Passes(ps: seq<Pattern>, s: string): string {
    if ps == [] then s else Passes(ps[1..], Pass(ps[0], s))
  }

  function Redact(text: string): string {
    var refs := Scanned(BusinessRef, text);
    Unshielded(Passes(PASSES, Shielded(refs, 0)), Hits(refs), 0)
  }

  function RedactOption(text: Option<string>): string {
    match text case None => "" case Some(t) => Redact(t)
  }

  method RedactPii(text: Option<string>) returns (out: string)
    ensures out == RedactOption(text)
  {
    if text == None || text.value == "" {
      RedactEmpty("");
      return "";
    }
    var shielded, saved := ShieldBusinessRefs(text.value);
    ghost var start := shielded;
    for i := 0 to |PASSES|
      invariant Passes(PASSES, start) == Passes(PASSES[i..], shielded)
    {
      shielded := Pass(PASSES[i], shielded);
    }
    out := UnshieldBusinessRefs(shielded, saved);
  }

  lemma EmptyScan(p: Pattern)
    ensures Scanned(p, "") == Last("")
  {
    NonEmpty(p);
    FirstPositive(Rx(p), EDGE, "");
  }

  lemma {:induction false} EmptyPasses(ps: seq<Pattern>)
    ensures Passes(ps, "") == ""
  {
    if ps != [] {
      EmptyScan(ps[0]);
      EmptyPasses(ps[1..]);
    }
  }

  // The early return for an empty text agrees with the general path.
  lemma RedactEmpty(text: string)
    ensures text == "" ==> Redact(text) == text
  {
    EmptyScan(BusinessRef);
    EmptyPasses(PASSES);
  }

  /* ---- detection ---- */

  // How many stretches of a shielded text one pattern finds.
  function Count(p: Pattern, shielded: string): nat { |Hits(Scanned(p, shielded))| }

  // The counts of the patterns found, for the passes `ps`.
  ghost predicate Tally(counts: map<Pattern, nat>, ps: seq<Pattern>, shielded: string) {
    forall p ::
      (p in counts <==> p in ps && Count(p, shielded) > 0) && (p in counts ==> counts[p] == Count(p, shielded))
  }

  method FindPii(text: Option<string>) returns (counts: map<Pattern, nat>)
    ensures text.None? ==> counts == map[]
    ensures text.Some? ==> Tally(counts, PASSES, Shielded(Scanned(BusinessRef, text.value), 0))
  {
    hide Scanned, Tally, Count;
    counts := map[];
    if text == None || text.value == "" {
      TallyEmpty();
      return;
    }
    var shielded, _ := ShieldBusinessRefs(text.value);
    TallyNone(shielded);
    for i := 0 to |PASSES|
      invariant Tally(counts, PASSES[..i], shielded)
    {
      var hits := Hits(Scanned(PASSES[i], shielded));
      TallyStep(counts, PASSES[..i], PASSES[i], shielded);
      if hits != [] {
        counts := counts[PASSES[i] := |hits|];
      }
      assert PASSES[..i + 1] == PASSES[..i] + [PASSES[i]];
    }
    assert PASSES[..|PASSES|] == PASSES;
  }

  lemma TallyEmpty()
    ensures Tally(map[], PASSES, Shielded(Scanned(BusinessRef, ""), 0))
  {
    EmptyScan(BusinessRef);
    hide Scanned;
    forall p ensures Count(p, "") == 0 { EmptyScan(p); }
  }

  lemma TallyNone(shielded: string)
    ensures Tally(map[], [], shielded)
  {
  }

  lemma TallyStep(counts: map<Pattern, nat>, ps: seq<Pattern>, p: Pattern, shielded: string)
    requires Tally(counts, ps, shielded)
    ensures var hits := Hits(Scanned(p, shielded));
      Tally(if hits != [] then counts[p := |hits|] else counts, ps + [p], shielded)
  {
    hide Scanned;
    assert Count(p, shielded) == |Hits(Scanned(p, shielded))|;
  }
}

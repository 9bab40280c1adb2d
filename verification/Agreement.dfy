// The detector and the redactor agree.

module Agreement {
  import opened Text
  import opened Scan
  import opened Patterns
  import opened Pii
  import opened Survival
  import opened Detector
  import opened RefScan
  import opened Tags
  import opened Restoring
  import opened Bound

  // Redaction leaves a text alone exactly if its references are within the bound, it spells
  // no placeholder, and no segment between references holds a match of any pattern.
  lemma FixedIffClean(text: string)
    ensures Redact(text) == text <==>
      FewRefs(text) && !Spells(text) && GapsClean(PASSES, Scanned(BusinessRef, text))
  {
    hide Scanned, Redact, Swept, GapsClean, Brackets, Standing, Mixed, Unshielded, SpellsNone, Nuls;
    var q := Scanned(BusinessRef, text);
    RedactRestores(text);
    ReferencesSurviveIff(text);
    if Redact(text) == text {
      RestoredIsSpelledOut(Swept(PASSES, q), Mixed(Swept(PASSES, q), 0, 0, true));
      OnlyIfFew(text, text);
      SweptBrackets(PASSES, q);
    }
    if GapsClean(PASSES, q) { SweptClean(PASSES, q); }
  }

  // Beyond the bound the shielded text holds a placeholder that is taken for a telephone
  // number.
  lemma {:induction false} ManyNotClean(q: Parts, k: nat)
    requires k <= MAX_REFS < k + |Hits(q)|
    ensures !PassClean(Phone, Shielded(q, k))
    decreases q
  {
    hide Tag, Placeholder, PassClean;
    var y := Shielded(q.rest, k + 1);
    OpenPlaceholder(q.gap, k, y);
    CleanAround(Phone, q.gap, NUL, Tag(k) + [NUL] + y);
    CleanAround(Phone, Tag(k), NUL, y);
    if k == MAX_REFS { FirstNotClean(); } else { ManyNotClean(q.rest, k + 1); }
  }

  lemma FirstNotClean()
    ensures !PassClean(Phone, Tag(MAX_REFS))
  {
    hide Rx, Tag, Clean;
    EatenTag(MAX_REFS);
  }

  // The detector finds nothing exactly if there are few enough references and all segments
  // are clean.
  lemma NothingFoundIff(text: string, counts: map<Pattern, nat>)
    requires Tally(counts, PASSES, Shielded(Scanned(BusinessRef, text), 0))
    ensures counts == map[] <==> FewRefs(text) && GapsClean(PASSES, Scanned(BusinessRef, text))
  {
    hide Scanned, GapsClean, PassClean, Shielded;
    var q := Scanned(BusinessRef, text);
    var s := Shielded(q, 0);
    GapsCleanAll(PASSES, q);
    forall i | 0 <= i < |PASSES|
      ensures PassClean(PASSES[i], s) <==> Count(PASSES[i], s) == 0
      ensures FewRefs(text) ==> (GapsClean([PASSES[i]], q) <==> Count(PASSES[i], s) == 0)
    {
      if FewRefs(text) { ShieldedClean(PASSES[i], q, 0); }
      PassCleanScan(PASSES[i], s);
    }
    assert PASSES[3] == Phone;
    if !FewRefs(text) { ManyNotClean(q, 0); }
    assert counts == map[] <==> forall p :: p !in counts;
    assert forall p :: p in PASSES ==> exists i :: 0 <= i < |PASSES| && PASSES[i] == p;
  }

  // The scan of the shielded text by all patterns independently finds nothing exactly
  // when the passes in sequence change nothing, on every text that spells no placeholder;
  // one that does is always changed.
  lemma DetectorAgrees(text: string, counts: map<Pattern, nat>)
    requires Ascii(text) && Tally(counts, PASSES, Shielded(Scanned(BusinessRef, text), 0))
    ensures Redact(text) == text <==> counts == map[] && !Spells(text)
    ensures Plain(text) ==> !Spells(text)
  {
    hide Scanned, Redact, GapsClean, Tally, Shielded, SpellsNone;
    FixedIffClean(text);
    NothingFoundIff(text, counts);
    if Plain(text) { PlainSpellsNone(text, |Hits(Scanned(BusinessRef, text))|); }
  }
}

# TicketWarden: a verified model of the case pipeline

TicketWarden answers support tickets with a language model and keeps plain code around
it: personal data is redacted on the way in and on the way out, tickets that look like
prompt injection are refused before any model call, tools run only from an allowlist,
what they return is quarantined, a review loop is capped, a leak gate looks at the reply,
and everything is written to two audit logs and to counters. This project models that
code in Dafny and proves what it does for every text, every answer of the model, every
behaviour of the tools and every sequence of cases.

`dafny verify dfyconfig.toml` checks all of it.

## How the model is built

* **Redaction** (`Regex`, `RegexFacts`, `Scan`, `Patterns`, `PatternFacts`, `Pii`; the
  proofs about it up to `Stretches` and `Examples`). Regular
  expressions are a datatype with classes, ordered alternation, greedy and lazy counted
  repeats, word boundaries and digit look-around. `Regex.Ends` lists the lengths of all
  matches at a position in the order in which a backtracking matcher tries them, so the
  first one is the match that is taken. `Regex.Matches` says independently what a match
  is. The six patterns are written out, and the scan of a substitution cuts a text into
  gaps and hits. Methods with the loops and the list of saved references refine these
  functions.
* **Guardrails** (`Injection`, with JSON trees in `Json`). The three tiers carry the labels
  and weights of the source. Which text a label matches is an arbitrary predicate, and so
  is the Unicode fold. The recursive cleaner shares a mutable flag.
* **Tools and research** (`Research`). Audit records are objects that are changed after
  they were appended to the log. A tool box records what really ran.
* **Graph** (`Graph`, `Runs`). Four nodes and a router over a state, driven by a model whose
  four operations are arbitrary functions of the number of calls made so far and of what
  they are asked; each may raise. The engine moves along the edges of the compiled graph.
* **Accounting** (`Accounting`). Token totals, and prices in exact arithmetic.
* **Service** (`Service`, `Outcomes`, `Books`). One class holds the three tables and the
  counters; one method resolves a case, and it redacts with `Pii.RedactPii`. `Outcomes`
  says what the caller can rely on, `Books` that tables and counters agree after any
  sequence of cases. Both hold for whatever redactor is in use, except where a result
  names the service's own (`Redactor`).

## Main results

The character classes of the patterns are the ASCII ones: the results about redaction are
to be read for ASCII texts, also where a lemma does not ask for it.

1. *Exactly when references survive.* Shielding followed by restoring is the identity on
   exactly the texts that do not spell out a placeholder of their own references
   (`ShieldRoundTripIff`). The redaction of a text is the redactions of the segments between
   its business references, with the references verbatim and in order (`RedactBySegments`);
   this holds for exactly the texts that spell no such placeholder and hold at most a
   thousand million references (`ReferencesSurviveIff`). `RedactInGeneral` says what becomes
   of the references beyond that number.
2. *Exactly when redaction is idempotent.* The module promises it for all texts
   (`apps/api/src/guardrails/pii.py:3`). That is false: `5551234567(555)1234567` becomes
   `[REDACTED](555)1234567` and then `[REDACTED][REDACTED]`, because the look-behind at
   the parenthesis sees a digit the first time and a bracket the second
   (`NotAlwaysIdempotent`). `IdempotentIff` gives the exact condition for texts whose
   references survive. In no segment may a hit of the telephone scan or of the address scan,
   or a reference in a gap of the latter, stand directly before a complete telephone number
   whose area code is in parentheses. And the references that the text will hold when it is
   redacted, counted on its gaps, must be within the bound and their placeholders not spelled
   out. They can be more than before: a masked number directly before a keyword opens a new
   reference, because the bracket is no word character. That is why
   `IdempotentWithoutDigitParen`, about texts without a digit directly before a parenthesis,
   asks for it too. For tickets without NUL only the first condition remains
   (`PlainTicketIdempotentIff`).
3. *What counts as personal data*, in characters: `StandsIff` and the six lemmas before it say
   exactly which stretches each pattern takes, `ScanInCharacters` how a pass cuts a text up at
   them, and `NoneSurvivesIff` that none survives in a redacted text that is not glued.
   *Detector and redactor agree.* A text is its own redaction exactly if the five patterns,
   each looking at the text alone, find nothing and it spells no placeholder
   (`DetectorAgrees`). No text without NUL does.
4. *Every run of the graph stops, and is decided unless the model raises.* A run reaches
   the end exactly if none of the replies that the model gives in it raises, and fails with
   what the first such reply raises (`RunEndsIff`); with a model that never raises every run
   ends (`AnsweringModelEnds`). A run that ends is decided, after as many passes as the
   verdicts and the cap say (`RunPasses`, `RunDecides`, `RunEndsWithReviewedDraft`,
   `RunResearch`).
5. *Nothing quarantined reaches the model, and nothing off the allowlist runs*, in any
   case, also in one whose graph raises (`GuardedCase`).
6. *Exactly when a case is refused, resolved or escalated* (`RefusedIffInjection`,
   `ResolvedIff`, `EscalatedOtherwise`), in which words (`ReasonRule`, `UnapprovedReason`),
   and exactly when the customer gets the approved
   draft word for word (`ReplyIsApprovedIff`).
7. *The tools that run are the allowlisted ones of the model's plan below the cap*, in every
   case (`RanAsPlanned`), and *the tool log is complete exactly if the graph ends*, the case
   is refused, or no such tool was planned (`TrailCompleteIff`, `StoredTrailIff`).
8. *The books balance after any sequence of cases* with ids of their own
   (`AlwaysBalanced`), and a new id is not only enough but needed (`CaseKeepsBalanceIff`).
9. *The bill is exact*: rounding to eight places never changes a cost (`CostIsExact`), and a
   cost is at the rates of the right row of the table (`PriceRule`). The cost of a case is
   the sum over its calls (`BillRule`), and the cost counter is always the price of the token
   counters (`AlwaysPriced`).

## Where the code and its documentation differ

The model follows the code.

* Idempotence, as above (`apps/api/src/guardrails/pii.py:3`).
* The placeholder is called digit-free (`apps/api/src/guardrails/pii.py:47`), but it holds
  its number. The telephone pattern has no word boundary, so it takes a number of ten to
  twelve digits for a telephone number, and no other number (`TagCleanIff`, `FirstBroken`).
  A text of at most a thousand million characters never gets there (`ShortTextFewRefs`),
  and so no ticket does (`TicketFewRefs`).
* Nothing in the module excludes NUL, but a text that spells out a placeholder of its own
  references does not come back from shielding; `ShieldRoundTripIff` says that no other
  text fails to, and `NulBreaksRoundTrip` gives an input.
* `README.md:173` says that a leaking reply is never sent. The gate acts only on resolved
  cases. `LeakSentIff` says exactly when a leaking reply is sent: the graph ended without
  approval, and its last draft leaks. `LeakIsSent` gives the inputs, for every guard.
* `README.md:14-17` and `README.md:193-194` say that every tool call is kept and that the
  tool log tells what ran. When the graph raises, the case is closed with the state it
  started in, and the calls of tools that have run are not logged. `TrailCompleteIff` says
  exactly when the log is complete, and `TrailIsLost` gives the inputs on which it is empty.

## Model

| member | source | states |
|---|---|---|
| Regex.EndsAreMatches | apps/api/src/guardrails/pii.py:26-43 | the backtracking matcher finds exactly the lengths that the reference meaning of a pattern allows |
| RegexFacts.SamePrefix | apps/api/src/guardrails/pii.py:26-43 | what follows a text decides about a match inside it only at the very end, and only by being a word character or not |
| RegexFacts.BlindMatch | apps/api/src/guardrails/pii.py:33 | a pattern without look-around, as the e-mail one, matches the same stretch in every context |
| RegexFacts.BarrierEnds | apps/api/src/guardrails/pii.py:52 | a character that no pattern can use, as NUL, cuts the matcher off as the end of the text would, with the same lengths in the same order |
| Scan.SplitWhole | apps/api/src/guardrails/pii.py:68-70 | gaps and hits of a substitution put together are the text: nothing is lost |
| Scan.SplitStep | apps/api/src/guardrails/pii.py:68-70 | a scan takes the leftmost match with its preferred length, leaves out no earlier one, and goes on behind it with the character before it as context |
| Scan.SplitClean | apps/api/src/guardrails/pii.py:69-70 | a text is left alone exactly if no stretch of it matches |
| Scan.SplitBarrier | apps/api/src/guardrails/pii.py:68-70 | a scan works on the two sides of a NUL independently |
| Scan.SubBarrier | apps/api/src/guardrails/pii.py:68-70 | the substituted text on two sides of a NUL is made of the two substituted sides |
| Shapes.SsnExact | apps/api/src/guardrails/pii.py:34 | the pattern spells exactly three, two and four digits with dashes between |
| Shapes.EmailExact | apps/api/src/guardrails/pii.py:33 | exactly a non-empty local part, an at sign, a non-empty domain, a dot and two letters or more, each of its characters |
| Shapes.CardExact | apps/api/src/guardrails/pii.py:35 | exactly the texts of digits, spaces and dashes that start with a digit and hold thirteen to sixteen |
| Shapes.PhoneExact | apps/api/src/guardrails/pii.py:36-41 | exactly an optional country code, three digits with or without parentheses, and three and four digits, with at most one blank, dot or dash before each group |
| Shapes.IpExact | apps/api/src/guardrails/pii.py:42 | exactly four numbers of one to three digits with dots between |
| Shapes.RefExact | apps/api/src/guardrails/pii.py:26-30 | exactly a keyword in either case, at most twenty links of which the first is no word character, and three digits or more |
| Shapes.StandsIff | apps/api/src/guardrails/pii.py:26-43 | in a text, each pattern matches exactly the stretches of its kind between the neighbours it asks for, told in characters |
| Stretches.ScanInCharacters | apps/api/src/guardrails/pii.py:68-70 | the scan is the only way to cut a text up from left to right at every such stretch, the longest e-mail address, the shortest card number, and the only one of any other kind |
| Stretches.FixedIffBare | apps/api/src/guardrails/pii.py:63-71 | redaction changes nothing exactly if references survive and no such stretch stands in a segment |
| Stretches.NothingFoundIffBare | apps/api/src/guardrails/pii.py:74-85 | the detector reports nothing exactly if no such stretch stands in a segment and the references are within the bound |
| Stretches.CountsAreStretches | apps/api/src/guardrails/pii.py:80-84 | the count reported for a pattern is how often the shielded text is cut at its stretches, and a pattern without any is not reported |
| Stretches.NoneSurvivesIff | apps/api/src/guardrails/pii.py:3-8 | no such stretch survives in any segment of a redacted text exactly if the text is not glued |
| Stretches.OpensPhoneIff | apps/api/src/guardrails/pii.py:36-41 | what a glued hit stands before: a telephone number that opens with a parenthesis |
| PatternFacts.Guarded | apps/api/src/guardrails/pii.py:34-42 | each pattern but the e-mail one is its body between word boundaries, or between non-digits for telephone numbers, and nothing else |
| Priority.EndIsUnique | apps/api/src/guardrails/pii.py:34-42 | where a social security number, a telephone number or an address starts, only one length matches, so priority does not matter |
| Priority.PhoneDigits | apps/api/src/guardrails/pii.py:36-41 | every telephone number has ten to twelve digits |
| Priority.CardTakesShortest | apps/api/src/guardrails/pii.py:35 | of all card matches at a position the shortest is taken, since the separators are lazy |
| Priority.EmailTakesLongest | apps/api/src/guardrails/pii.py:33 | wherever an e-mail address matches, the longest possible one is taken |
| Pii.ShieldBusinessRefs | apps/api/src/guardrails/pii.py:46-54 | replaces the references found by the scan with numbered placeholders and returns them in order |
| Pii.Stash | apps/api/src/guardrails/pii.py:50-54 | the substitution loop with its callback does what cutting the text up by the pattern says, for every pattern that matches no empty text |
| Pii.UnshieldBusinessRefs | apps/api/src/guardrails/pii.py:57-60 | replaces the placeholders one number after the other |
| Pii.RedactPii | apps/api/src/guardrails/pii.py:63-71 | shield, five passes in order, restore; an absent or empty text gives an empty one |
| Pii.FindPii | apps/api/src/guardrails/pii.py:74-85 | reports exactly the patterns that match the shielded text, each with its number of hits |
| Pii.RedactEmpty | apps/api/src/guardrails/pii.py:65-66 | the early return for an empty text agrees with the general path |
| Restoring.ShieldRoundTripIff | apps/api/src/guardrails/pii.py:46-60 | restoring what was shielded gives the text back exactly if the text spells none of the placeholders that its references get, for every text |
| Restoring.NulBreaksRoundTrip | apps/api/src/guardrails/pii.py:46-60 | a concrete text that does not come back: it spells a placeholder, which is filled in as well |
| Restoring.RestoredSpellsNone | apps/api/src/guardrails/pii.py:57-60 | after all replacements none of the placeholders is left, and none has come about |
| Restoring.Restore | apps/api/src/guardrails/pii.py:57-60 | replacing one placeholder after the other is one simultaneous substitution wherever no gap spells one of them: no number is taken for another, and no text for a placeholder |
| Tags.TagCleanIff | apps/api/src/guardrails/pii.py:36-54 | no pass finds personal data in a placeholder number exactly if it has fewer than ten digits or more than twelve |
| Tags.FirstBroken | apps/api/src/guardrails/pii.py:47 | the placeholder with number 1000000000 is redacted to REF[REDACTED] |
| Survival.PassLocal | apps/api/src/guardrails/pii.py:68-70 | one pass over shielded text keeps every placeholder and equals that pass on each segment |
| Survival.PassesLocal | apps/api/src/guardrails/pii.py:68-70 | the same for any sequence of passes |
| Bound.RedactBySegments | apps/api/src/guardrails/pii.py:63-71 | the redaction is the redactions of the segments, each as a text of its own, with all business references verbatim and in order between them |
| RefScan.SegmentsFree | apps/api/src/guardrails/pii.py:26-30 | no segment between references holds a reference when it stands alone |
| Bound.RedactInGeneral | apps/api/src/guardrails/pii.py:46-71 | the redaction of every text that spells no placeholder, however many references it holds: those whose number has ten to twelve digits are lost, all others are verbatim |
| Bound.ReferencesSurviveIff | apps/api/src/guardrails/pii.py:17-25 | the redaction is the five passes on each segment with all references between them exactly if there are at most a thousand million and no placeholder is spelled out, for every text |
| Bound.RedactPlainIff | apps/api/src/guardrails/pii.py:63-71 | an ASCII text without NUL is redacted to one exactly if its references are within the bound; lost ones leave NUL |
| Survival.RedactAscii | apps/api/src/guardrails/pii.py:63-71 | redaction brings in no character outside ASCII |
| Survival.RedactNonEmpty | apps/api/src/guardrails/pii.py:63-71 | no text is redacted away entirely |
| Survival.ShortTextFewRefs | apps/api/src/guardrails/pii.py:46-54 | a text of at most a thousand million characters cannot hold too many references |
| Detector.PassesBrackets | apps/api/src/guardrails/pii.py:69-70 | passes never lose a bracket, and gain none only if they change nothing and no pattern matches the original text |
| Agreement.FixedIffClean | apps/api/src/guardrails/pii.py:63-71 | redaction changes nothing exactly if the references are within the bound, no placeholder is spelled out, and no pattern matches in any segment between references |
| Agreement.NothingFoundIff | apps/api/src/guardrails/pii.py:74-85 | the detector reports nothing exactly if the references are within the bound and no pattern matches in any segment |
| Agreement.DetectorAgrees | apps/api/src/guardrails/pii.py:63-85 | the redactor changes nothing exactly if the detector reports nothing and no placeholder is spelled out, as in every text without NUL |
| Stability.GapStaysClean | apps/api/src/guardrails/pii.py:32-43 | a gap that no match enters stays free of matches when it stands alone, unless it opens with a telephone number hidden by the look-behind |
| Stability.ScanStaysClean | apps/api/src/guardrails/pii.py:69-70 | the gaps of one scan stay free of what the text was free of, and of the scan's own pattern |
| Stability.PassKeepsClean | apps/api/src/guardrails/pii.py:69-70 | a pass leaves nothing of its own pattern and makes no match of an earlier one, unless a hit is glued to a telephone number |
| Exposure.GapExposedMasked | apps/api/src/guardrails/pii.py:36-41 | a telephone number that a hit in front of it was hiding is visible once the hit is masked |
| Exposure.ExposedInGap | apps/api/src/guardrails/pii.py:26-43 | a visible parenthesised telephone number survives the scan for addresses and the scan for references in one of the gaps |
| RefScan.RefUnique | apps/api/src/guardrails/pii.py:26-30 | where a business reference starts, its end is determined |
| RefScan.NoNestedRef | apps/api/src/guardrails/pii.py:26-30 | no business reference starts inside another one |
| RefScan.SplitAtRef | apps/api/src/guardrails/pii.py:26-30 | a scan for references takes up a reference standing at a given place whatever the text around it |
| Bound.SecondScanOfRedacted | apps/api/src/guardrails/pii.py:26-30 | a redacted text holds the references of the original, in their places, and besides only those inside redacted segments |
| Idempotence.RefGluedIff | apps/api/src/guardrails/pii.py:26-30 | read again, a masked text shows a reference directly before a parenthesised telephone number exactly if one of the gaps does |
| Idempotence.RefsLeftAre | apps/api/src/guardrails/pii.py:26-30 | how many references a text holds once it is redacted, counted on the gaps of the last scan of its segments |
| Idempotence.IdempotentIff | apps/api/src/guardrails/pii.py:3-8 | redacting twice is redacting once exactly if no hit is glued to a parenthesised telephone number, and the references that will be there are within the bound and not spelled out, for every text whose references survive |
| Idempotence.IdempotentWithoutDigitParen | apps/api/src/guardrails/pii.py:3-8 | redaction is idempotent on every text in which no digit stands directly before an opening parenthesis, if the references that will be there are within the bound and not spelled out |
| Examples.TicketFewRefs | apps/api/src/schemas.py:9 | every ticket as long as the schema lets in is within the bound on references, before and after redaction |
| Examples.TicketIdempotentIff | apps/api/src/schemas.py:9 | for tickets that spell no placeholder the exact condition of idempotence needs no bound on references |
| Examples.PlainTicketIdempotentIff | apps/api/src/schemas.py:9 | for tickets without NUL redaction is idempotent exactly if no hit is glued to a parenthesised telephone number |
| Examples.NotAlwaysIdempotent | apps/api/src/guardrails/pii.py:3 | a concrete text that a second redaction changes |
| Injection.RiskScore | apps/api/src/guardrails/injection.py:172-180 | the score is 3h + 2m + l over the matched signals of the tiers, and the labels keep the order of the list |
| Injection.DetectInjection | apps/api/src/guardrails/injection.py:183-190 | refuses exactly from the threshold on, with score and labels as the reason; never an empty text |
| Injection.RefusalRule | apps/api/src/guardrails/injection.py:165-190 | what a non-empty text is refused for: the signals that match its folded form, one strong, two medium, or a medium and a weak one, with the score 3h + 2m + l and all labels in order as the reason |
| Injection.SameFoldSameVerdict | apps/api/src/guardrails/injection.py:165-169 | texts that fold to the same get the same verdict, reason and leak |
| Injection.LeakRule | apps/api/src/guardrails/injection.py:224-232 | the leak of a non-empty reply is the first pattern of the whole list that matches its folded form |
| Injection.ScanToolResult | apps/api/src/guardrails/injection.py:197-221 | the shared flag is set exactly if some string value in the tree is an injection, and the result is the cleaned tree |
| Injection.Cleaner.Clean | apps/api/src/guardrails/injection.py:205-216 | every recursive call returns the cleaned subtree and raises the flag exactly for an injection in it |
| Injection.OnlyLeavesChange | apps/api/src/guardrails/injection.py:205-216 | the cleaned tree is the only one with the same nesting, lengths, keys and other leaves in which exactly the injecting strings are the marker |
| Injection.UnflaggedUnchanged | apps/api/src/guardrails/injection.py:197-221 | what is not flagged is not changed |
| Injection.CleanedIsClean | apps/api/src/guardrails/injection.py:197-202 | no injecting string value is left after cleaning |
| Injection.CleanTwice | apps/api/src/guardrails/injection.py:197-221 | cleaning again flags nothing and changes nothing |
| Injection.DetectPromptLeak | apps/api/src/guardrails/injection.py:224-232 | reports the first leak pattern that matches the normalized reply, and none exactly if none matches |
| Injection.FirstLeak | apps/api/src/guardrails/injection.py:229-232 | no pattern is returned exactly if none matches, and a returned one is preceded by none that matches |
| Research.DispatchTool | apps/api/src/store/registry.py:78-113 | a tool runs exactly if its name is on the allowlist, once, and the record says how it ended |
| Research.OneRound | apps/api/src/graph/nodes.py:50-63 | the record appended to the log shows the later change of its status and result, and the fact carries the cleaned result |
| Research.Researcher | apps/api/src/graph/nodes.py:40-65 | log, facts and executed tools are those of the rounds over the requests up to the cap |
| Research.SliceLength | apps/api/src/graph/nodes.py:50 | the requests that are looked at are a prefix, as long as the cap allows |
| Research.LogFollowsRequests | apps/api/src/graph/nodes.py:50-54 | one record for every request, in order, with its name and arguments, blocked exactly off the allowlist |
| Research.OnlyAllowedRun | apps/api/src/store/registry.py:84-94 | the executed tools are exactly the allowlisted requests, in order |
| Research.FactsMatchLog | apps/api/src/graph/nodes.py:55-63 | the facts are exactly the successful and sanitized part of the log, with the results that the log finally shows |
| Research.LogRule | apps/api/src/store/registry.py:78-113 | every entry of the log, by the answer of its tool: a result without an error is logged, cleaned and marked where it holds an injection; a dict with an error, bad arguments and exceptions are errors; arguments that count as false are none |
| Research.FactsRule | apps/api/src/graph/nodes.py:50-63 | the facts are made of exactly the requests whose tool returned something other than an error, in order, with the cleaned results |
| Research.AllowedRule | apps/api/src/store/registry.py:83-94 | the tools that run are exactly the requests on the allowlist, in order, with their arguments |
| Research.LogTellsRuns | apps/api/src/store/registry.py:84-113 | the calls in the log that were not blocked are exactly the tools that ran, in order |
| Research.FactsAreClean | apps/api/src/graph/nodes.py:56-63 | no fact holds an injecting string, whatever the tools return |
| Research.LoggedResultsClean | apps/api/src/graph/nodes.py:55-62 | a logged result can hold an injection only if the call was blocked or failed |
| Graph.CompileGraph | apps/api/src/graph/build.py:23-50 | the builder ends with the four nodes, the pipeline edges between them and the two exits of the reviewer |
| Graph.RouterAgrees | apps/api/src/graph/edges.py:20-25 | the router goes to the end exactly if the review has decided the case, and back to the responder exactly if it was turned down below the cap |
| Graph.ReviewerUpdate | apps/api/src/graph/nodes.py:94-117 | the update filled in step by step is the reviewed state |
| Graph.RankDecreases | apps/api/src/graph/edges.py:6-7 | every step uses up a rank made of the passes left and the node, so the review loop cannot spin |
| Graph.ResearcherNode | apps/api/src/graph/nodes.py:40-65 | the node asks for a plan, runs the loop and appends its log and facts to the state |
| Graph.Advance | apps/api/src/graph/build.py:40-48 | one node and then an edge of the compiled graph, or a failure that keeps only what was asked |
| Graph.Invoke | apps/api/src/service.py:144-152 | the run from the initial state to its end or its failure; the loop terminates |
| Runs.StepKeepsInv | apps/api/src/graph/nodes.py:22-119 | what is known between any two nodes: which calls were made with what, no decision before the end, every earlier draft turned down |
| Runs.RunEndsIff | apps/api/src/service.py:144-152 | a run reaches the end exactly if no reply in it raised, and fails by its last call only; the replies are those of the model |
| Runs.AnsweringModelEnds | apps/api/src/graph/edges.py:6-7 | with a model that never raises every run reaches the end |
| Runs.RunPasses | apps/api/src/graph/edges.py:20-25 | if no reply raised: k passes, up to the first approval or to the cap (at least one), with 2 + 2k model calls; each draft gets exactly the feedback before it, and each review the redacted draft |
| Runs.RunDecides | apps/api/src/graph/nodes.py:102-117 | if no reply raised, the run ends and the case is resolved without a reason if the last review approved, and otherwise escalated with a reason that holds the last feedback; reviewer and router agree |
| Runs.RunPassesWordsOn | apps/api/src/graph/nodes.py:108-117 | every draft after the first is asked for with the words of the review before it, and the reason for escalation ends in those of the last one; the stock sentence stands only for absent or empty words |
| Runs.RunAsksAboutTicket | apps/api/src/graph/nodes.py:22-48 | the first two calls classify the ticket and plan for it with the model's category and the order id; drafts are made for that category, those facts and that ticket |
| Runs.RunEndsWithReviewedDraft | apps/api/src/graph/nodes.py:70-100 | the draft of the final state is the one that the last review saw, the redaction of what the model wrote last |
| Runs.RunResearch | apps/api/src/graph/nodes.py:40-65 | in a finished run the executed tools, the log and the facts are those of the plan up to the cap |
| Runs.NoInjectionReachesModel | apps/api/src/graph/nodes.py:56-63 | no draft or review call of any run, finished or failed, gets a fact with an injecting string |
| Runs.RunKeepsAllowlist | apps/api/src/graph/nodes.py:32-38 | no run ever executes a tool off the allowlist |
| Runs.RunRanAsPlanned | apps/api/src/graph/nodes.py:44-53 | in every run, also one that raises, the executed tools are the allowlisted requests of the plan below the cap, and none if no plan was answered |
| Accounting.ExtractUsage | apps/api/src/observability/usage.py:29-56 | the sum over all generations, the older form only where that sum is zero, and nothing if a count that is read is malformed |
| Accounting.ExtractRule | apps/api/src/observability/usage.py:29-56 | the same by the reported counts, prompt and completion each: sums over generations, the older form where both are zero, nothing where a count that is read is malformed |
| Accounting.UsageCollector.OnLlmEnd | apps/api/src/observability/usage.py:67-74 | totals stay the sums over the responses seen, each with its own fallback; a malformed one is a call without tokens |
| Accounting.CostIsExact | apps/api/src/observability/costing.py:84-92 | every cost is a whole number of hundred-millionths of a dollar, so rounding changes nothing |
| Accounting.PriceRule | apps/api/src/observability/costing.py:21-51 | a cost is at the rates of the row for provider and model, else of the provider's row for other models, else at the default; providers in any case of letters, an empty one as openai |
| Accounting.PricesDistinct | apps/api/src/observability/costing.py:21-38 | no two rows of the table have the same provider and model |
| Accounting.CostAdds | apps/api/src/observability/costing.py:55-60 | the price of added tokens is the sum of the prices, and adding usage records loses nothing |
| Accounting.CostOfTotals | apps/api/src/service.py:191-194 | the cost of the totals is the sum of the costs of the calls |
| Service.CaseService.LogSecurityEvent | apps/api/src/service.py:40-42 | one more event and its counter, and nothing else |
| Service.CaseService.Persist | apps/api/src/service.py:45-77 | the ticket is inserted or replaced, every tool call gets its row and counter, and blocked and sanitized ones an event |
| Service.CaseService.Gate | apps/api/src/service.py:154-172 | the reply is redacted once more, and a resolved one that leaks is withheld, escalated and logged |
| Service.CaseService.Account | apps/api/src/service.py:182-194 | the counts of the provider where there are any, else the estimate from ticket and reply, and their price |
| Service.CaseService.Refuse | apps/api/src/service.py:89-117 | response and books of a refused case |
| Service.CaseService.Deliver | apps/api/src/service.py:154-226 | response and books of a case whose graph ended or raised |
| Service.CaseService.ResolveCase | apps/api/src/service.py:80-226 | for every case the response, the new books, and what the model and the tools were asked |
| Outcomes.GraphOutcome | apps/api/src/service.py:144-158 | after the graph a case is resolved exactly if the last review approved and escalated for a reason otherwise; its ticket is unchanged |
| Outcomes.RefusedIffInjection | apps/api/src/service.py:85-117 | refused exactly if the redacted ticket scores as an injection, and exactly then no model call is made; no tool, no cost, no reply |
| Outcomes.ResolvedIff | apps/api/src/service.py:154-172 | resolved exactly if not refused, approved by the last review and without a leak; the reply is the redaction of the approved draft |
| Outcomes.EscalatedOtherwise | apps/api/src/service.py:147-172 | every other case is escalated, and whatever is not resolved has a reason; an approved draft that leaks is withheld |
| Outcomes.ReasonRule | apps/api/src/service.py:92-167 | the reason of a refused, failed or withheld case, word for word, with the score and labels, the error, or the leak pattern |
| Outcomes.UnapprovedReason | apps/api/src/graph/nodes.py:109-117 | an unapproved case is escalated in the words of the last review and with the number of passes |
| Outcomes.CategoryRule | apps/api/src/graph/nodes.py:22-29 | the category of a response is the model's answer to the classification of the redacted ticket, or other |
| Outcomes.WithheldIff | apps/api/src/service.py:164-170 | the reason of a response says that the reply was withheld exactly if the gate withheld it |
| Outcomes.LeakSentIff | README.md:173 | a reply that leaks is sent exactly if the graph ended without approval and its last draft leaks |
| Outcomes.LeakIsSent | README.md:173 | for every guard and every draft that leaks after redaction: with a model that insists on it and reviews that never approve, the case is escalated and the leaking reply is in the response |
| Outcomes.CallsOfCase | apps/api/src/graph/edges.py:20-25 | with n passes reported, 2 + 2n model calls were made, n is at least one and at most the cap, and below the cap the case was approved |
| Outcomes.GuardedCase | apps/api/src/graph/nodes.py:32-65 | in any case only allowlisted tools run and no injection in a fact reaches the model, also where the graph raises |
| Outcomes.RanAsPlanned | apps/api/src/graph/nodes.py:44-53 | the tools that run in a case are the allowlisted requests of the model's plan below the cap, whether its graph ends or raises |
| Outcomes.TrailCompleteIff | README.md:14-17 | the calls of a response that were not blocked are exactly the tools that ran, exactly if the case was refused, the graph ended, or no plan with an allowlisted request below the cap was answered |
| Outcomes.TrailIsLost | README.md:193-194 | with a model that plans an allowlisted call and raises when it should draft, at least one tool runs and the response lists none |
| Books.StoredTrailIff | README.md:193-194 | the rows that a case adds to the tool log name exactly the tools that ran, on the same condition |
| Outcomes.BilledPerCall | apps/api/src/service.py:176-194 | with provider counts the cost is the sum of the prices of the single calls |
| Outcomes.BillRule | apps/api/src/service.py:176-194 | a case is billed call by call where any tokens were reported, and else by the tokenizer on the redacted ticket and the reply that is sent |
| Outcomes.StoredAsAnswered | apps/api/src/service.py:196-226 | the stored ticket agrees with the response in category, decision, reply, reason, passes and cost, its body is the redacted ticket, and no other ticket changes |
| Outcomes.ReplyIsApprovedIff | apps/api/src/service.py:155-156 | a resolved customer gets the approved draft word for word exactly if redaction of what the model wrote is idempotent, by the condition of that result; an empty draft gives no reply |
| Outcomes.StoredBodyCleanIff | apps/api/src/storage/repo.py:31 | the detector finds nothing in the stored body of a ticket that spells no placeholder exactly if the ticket is not glued |
| Books.CaseKeepsBalanceIff | apps/api/src/service.py:40-77 | balanced books stay balanced exactly if the id of the next case is new |
| Books.AlwaysBalanced | apps/api/src/observability/metrics.py:58-92 | after any cases with ids of their own every counter equals its rows, per ticket the security log agrees with the tool log, the decision and the reason for escalation, refusals and usage sources add up to the tickets, and the money to their costs |
| Books.EveryCase | apps/api/src/service.py:88-203 | one case adds exactly its own rows to the two logs, sets its own ticket and moves the counters along |
| Books.ToolsExtend | apps/api/src/storage/repo.py:67-111 | persisting tool calls only appends: their rows, and the events of the blocked and sanitized ones, in order |
| Books.UsedIdUnbalances | apps/api/src/storage/repo.py:40-48 | a case whose id is in use replaces a ticket but is counted, so that the counters no longer match |
| Books.CaseKeepsPrice | apps/api/src/service.py:199-203 | a case keeps the cost counter equal to the price of the two token counters |
| Books.AlwaysPriced | apps/api/src/observability/metrics.py:66-75 | after any cases the cost counter is the price of the token counters, which holds because prices add up without rounding |
| Books.AlwaysCounted | apps/api/src/observability/metrics.py:82-88 | after any cases the counters of model calls and of token sources are the sums over the cases that were not refused |

## Left out

- Unicode: the classes of the patterns are the ASCII ones, so `Redactable` and `DetectorAgrees` ask for ASCII texts; NFKC folding and the removal of invisible characters are one arbitrary function.
- Idempotence.IdempotentIff: asks for a text whose references survive; for the others only a condition on the redacted text itself is given (`FixedIffClean`).
- Bound.RedactInGeneral: asks for a text that spells no placeholder of its own references; what becomes of the others is described only as not surviving (`ReferencesSurviveIff`).
- The concrete injection and leak patterns: each is an arbitrary predicate on texts. What needs it assumes that the quarantine marker matches no signal (`MarkerSilent`).
- Injection.CleanedIsClean: says nothing about dictionary keys and about the arguments inside facts, because the code does not scan them.
- The model providers, prompts and structured output, the tools and their catalog: arbitrary answers, which may raise.
- The library that runs the graph, with its recursion limit and its checkpoints: the transition relation of the compiled graph, started in the state that the service gives it; any exception is the failure that the service catches.
- Accounting.CostIsExact: exact real numbers stand for floats, so float rounding below the eighth decimal place is not modelled.
- Accounting.ExtractUsage: reported token counts are natural numbers; negative ones are not modelled.
- Outcomes.BilledPerCall: the responses that the usage callback sees are arbitrary, and not tied to the model calls of the run.
- Token counting by the tokenizer: an arbitrary function.
- Latency, its histogram, timestamps, tracing and the trace address: environment.
- Service.CaseService.Persist: tables are maps and sequences; the database, its connections and failures of a write are not modelled.
- The random ticket id: a parameter of the case.
- The web interface, the routes and the request validation, except the length limit of a ticket.

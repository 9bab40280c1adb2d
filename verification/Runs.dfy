// What every run of the graph keeps and how it ends, for every model and every tool.

module Runs {
  import opened Wrappers
  import opened Text
  import opened Injection
  import opened Research
  import opened Graph

  /* ---- reading the calls ---- */

  // Pass `j` (from 0) is a draft and then its review.
  function DraftCall(calls: seq<LlmCall>, j: nat): (c: LlmCall)
    requires |calls| > 2 + 2 * j
  {
    calls[2 + 2 * j]
  }

  function ReviewCall(calls: seq<LlmCall>, j: nat): LlmCall
    requires |calls| > 3 + 2 * j
  {
    calls[3 + 2 * j]
  }

  predicate Drafted(calls: seq<LlmCall>, j: nat) {
    |calls| > 2 + 2 * j && DraftCall(calls, j).Draft? && DraftCall(calls, j).text.Answer?
  }

  predicate HasVerdict(calls: seq<LlmCall>, j: nat) {
    |calls| > 3 + 2 * j && ReviewCall(calls, j).Review? && ReviewCall(calls, j).verdict.Answer?
  }

  function VerdictOf(calls: seq<LlmCall>, j: nat): Verdict
    requires HasVerdict(calls, j)
  {
    ReviewCall(calls, j).verdict.value
  }

  function RedactedDraft(w: World, calls: seq<LlmCall>, j: nat): string
    requires Drafted(calls, j)
  {
    w.redact(DraftCall(calls, j).text.value)
  }

  // Draft `j` is made from the facts of the state and, from the second on, from exactly
  // the feedback of the review before it.
  predicate DraftOk(s: CaseState, calls: seq<LlmCall>, j: nat) {
    && Drafted(calls, j) && (j > 0 ==> HasVerdict(calls, j - 1))
    && DraftCall(calls, j).ticket == s.ticket && DraftCall(calls, j).kind == OrOther(s.category)
    && DraftCall(calls, j).facts == s.facts
    && DraftCall(calls, j).feedback == if j == 0 then None else Some(FeedbackText(VerdictOf(calls, j - 1)))
  }

  // Review `j` sees the redacted draft `j` and the same facts.
  predicate ReviewOk(w: World, s: CaseState, calls: seq<LlmCall>, j: nat) {
    && Drafted(calls, j) && HasVerdict(calls, j)
    && ReviewCall(calls, j).ticket == s.ticket && ReviewCall(calls, j).draft == RedactedDraft(w, calls, j)
    && ReviewCall(calls, j).facts == s.facts
  }

  ghost predicate PassesOk(w: World, s: CaseState, calls: seq<LlmCall>, k: nat) {
    forall j: nat :: j < k ==> DraftOk(s, calls, j) && ReviewOk(w, s, calls, j)
  }

  ghost predicate NoneApproved(calls: seq<LlmCall>, k: nat) {
    forall j: nat :: j < k ==> HasVerdict(calls, j) && !VerdictOf(calls, j).approved
  }

  // The run so far has classified and planned, and holds what the researcher found.
  ghost predicate Researched(w: World, init: CaseState, c: Config) {
    && |c.calls| >= 2 && c.calls[0].Classify? && c.calls[1].Plan? && c.calls[1].requests.Answer?
    && c.state.category.Some? && c.state.category.value in CATEGORIES
    && c.state.ticketId == init.ticketId && c.state.ticket == init.ticket && c.state.orderId == init.orderId
    && Findings(c.state.toolCalls, c.state.facts, c.executed) ==
         Rounds(w.guard, w.answers, Findings([], [], []), Slice(c.calls[1].requests.value, w.maxToolRounds))
  }

  ghost predicate Undecided(s: CaseState) { s.decision == None && s.reason == None }

  // Before draft `k`: everything so far was turned down, and the cap allows another pass.
  ghost predicate BeforeDraft(w: World, s: CaseState, calls: seq<LlmCall>, k: nat) {
    && Undecided(s) && PassesOk(w, s, calls, k) && NoneApproved(calls, k) && (k == 0 || k < w.maxReviews)
    && s.feedback == if k == 0 then None else Some(FeedbackText(VerdictOf(calls, k - 1)))
  }

  // The decision that the last verdict, given in pass `k`, leads to at the end.
  predicate DecidedBy(s: CaseState, v: Verdict, k: nat) {
    if v.approved then
      s.decision == Some(RESOLVED) && s.reason == None && s.feedback == None
    else
      && s.decision == Some(ESCALATE) && s.feedback == Some(FeedbackText(v))
      && s.reason == Some(CapReason(k, FeedbackText(v)))
  }

  // The state holds draft `j`, redacted.
  predicate HoldsDraft(w: World, s: CaseState, calls: seq<LlmCall>, j: nat) {
    Drafted(calls, j) && s.draft == Some(RedactedDraft(w, calls, j))
  }

  // How a run ends after `k` passes.
  ghost predicate Ended(w: World, s: CaseState, calls: seq<LlmCall>, k: nat) {
    && k >= 1 && |calls| == 2 + 2 * k
    && PassesOk(w, s, calls, k) && NoneApproved(calls, k - 1) && (k == 1 || k - 1 < w.maxReviews)
    && HoldsDraft(w, s, calls, k - 1) && HasVerdict(calls, k - 1)
    && DecidedBy(s, VerdictOf(calls, k - 1), k)
    && (!VerdictOf(calls, k - 1).approved ==> k >= w.maxReviews)
  }

  // What holds between any two nodes of a run that started in `init`.
  ghost predicate Inv(w: World, init: CaseState, c: Config) {
    var s, k := c.state, c.state.iterations;
    match c.node
    case Start => s == init && c.calls == [] && c.executed == []
    case Classifier => s == init && c.calls == [] && c.executed == []
    case Researcher =>
      && |c.calls| == 1 && c.calls[0].Classify? && c.executed == []
      && s.category.Some? && s.category.value in CATEGORIES && s == init.(category := s.category)
    case Responder =>
      Researched(w, init, c) && |c.calls| == 2 + 2 * k && BeforeDraft(w, s, c.calls, k)
    case Reviewer =>
      && Researched(w, init, c) && |c.calls| == 3 + 2 * k && BeforeDraft(w, s, c.calls, k)
      && DraftOk(s, c.calls, k) && HoldsDraft(w, s, c.calls, k)
    case End =>
      Researched(w, init, c) && Ended(w, s, c.calls, k)
  }

  /* ---- one more call changes nothing about the earlier ones ---- */

  lemma PassesExtend(w: World, s: CaseState, t: CaseState, calls: seq<LlmCall>, call: LlmCall, k: nat)
    requires PassesOk(w, s, calls, k) && s.ticket == t.ticket && s.category == t.category && s.facts == t.facts
    ensures PassesOk(w, t, calls + [call], k)
  {
    forall j: nat | j < k ensures DraftOk(t, calls + [call], j) && ReviewOk(w, t, calls + [call], j) {
      assert DraftOk(s, calls, j) && ReviewOk(w, s, calls, j);
    }
  }

  lemma NoneApprovedExtends(calls: seq<LlmCall>, call: LlmCall, k: nat)
    requires NoneApproved(calls, k)
    ensures NoneApproved(calls + [call], k)
  {
    forall j: nat | j < k ensures HasVerdict(calls + [call], j) && !VerdictOf(calls + [call], j).approved {
      assert HasVerdict(calls, j) && !VerdictOf(calls, j).approved;
    }
  }

  lemma EarlySteps(w: World, init: CaseState, c: Config)
    requires c.node in {Start, Classifier} && Inv(w, init, c) && Step(w, c).Going?
    ensures Inv(w, init, Step(w, c).config)
  {
    hide Rounds;
  }

  lemma ResearcherStep(w: World, init: CaseState, c: Config)
    requires c.node == Researcher && Inv(w, init, c) && Step(w, c).Going?
    requires init == Initial(init.ticketId, init.ticket, init.orderId)
    ensures Inv(w, init, Step(w, c).config)
  {
    hide Rounds, Slice;
    var d := Step(w, c).config;
    assert [] + d.state.facts == d.state.facts && [] + d.state.toolCalls == d.state.toolCalls;
    assert d.calls[0] == c.calls[0];
  }

  lemma ResponderStep(w: World, init: CaseState, c: Config)
    requires c.node == Responder && Inv(w, init, c) && Step(w, c).Going?
    ensures Inv(w, init, Step(w, c).config)
  {
    hide Rounds, Slice, PassesOk, NoneApproved;
    var d, k := Step(w, c).config, c.state.iterations;
    var call := d.calls[|c.calls|];
    assert d.calls == c.calls + [call];
    PassesExtend(w, c.state, d.state, c.calls, call, k);
    NoneApprovedExtends(c.calls, call, k);
    if k > 0 { LastReview(w, c.state, c.calls, k); }
    assert DraftCall(d.calls, k) == call;
  }

  lemma LastReview(w: World, s: CaseState, calls: seq<LlmCall>, k: nat)
    requires PassesOk(w, s, calls, k) && k > 0
    ensures HasVerdict(calls, k - 1)
  {
    assert ReviewOk(w, s, calls, k - 1);
  }

  lemma ReviewerStep(w: World, init: CaseState, c: Config)
    requires c.node == Reviewer && Inv(w, init, c) && Step(w, c).Going?
    ensures Inv(w, init, Step(w, c).config)
  {
    hide Rounds, Slice, PassesOk, NoneApproved;
    var d, k := Step(w, c).config, c.state.iterations;
    var call := d.calls[|c.calls|];
    assert d.calls == c.calls + [call];
    PassesExtend(w, c.state, d.state, c.calls, call, k);
    NoneApprovedExtends(c.calls, call, k);
    assert ReviewCall(d.calls, k) == call && DraftCall(d.calls, k) == DraftCall(c.calls, k);
    if k > 0 {
      LastReview(w, c.state, c.calls, k);
      assert ReviewCall(d.calls, k - 1) == ReviewCall(c.calls, k - 1);
    }
    OneMorePass(w, d.state, d.calls, k);
  }

  lemma OneMorePass(w: World, s: CaseState, calls: seq<LlmCall>, k: nat)
    requires PassesOk(w, s, calls, k) && DraftOk(s, calls, k) && ReviewOk(w, s, calls, k) && NoneApproved(calls, k)
    ensures PassesOk(w, s, calls, k + 1)
    ensures !VerdictOf(calls, k).approved ==> NoneApproved(calls, k + 1)
  {
  }

  // Every step keeps the invariant.
  lemma StepKeepsInv(w: World, init: CaseState, c: Config)
    requires c.node != End && Inv(w, init, c) && Step(w, c).Going?
    requires init == Initial(init.ticketId, init.ticket, init.orderId)
    ensures Inv(w, init, Step(w, c).config)
  {
    hide Step, Inv;
    match c.node
    case Start => EarlySteps(w, init, c);
    case Classifier => EarlySteps(w, init, c);
    case Researcher => ResearcherStep(w, init, c);
    case Responder => ResponderStep(w, init, c);
    case Reviewer => ReviewerStep(w, init, c);
  }

  lemma {:induction false} RunKeepsInv(w: World, init: CaseState, c: Config)
    requires Inv(w, init, c) && init == Initial(init.ticketId, init.ticket, init.orderId)
    ensures var run := RunFrom(w, c); run.Going? ==> run.config.node == End && Inv(w, init, run.config)
    decreases Rank(w, c)
  {
    hide Step, Inv;
    if c.node != End && Step(w, c).Going? {
      RankDecreases(w, c);
      StepKeepsInv(w, init, c);
      RunKeepsInv(w, init, Step(w, c).config);
    }
  }

  /* ---- which runs end ---- */

  // Everything the model was asked in a run, and replied.
  function Transcript(run: Run): seq<LlmCall> {
    match run case Going(c) => c.calls case Failed(_, calls, _) => calls
  }

  // What a call raised, if it did.
  function RaisedBy(call: LlmCall): Option<string> {
    match call
    case Classify(_, r) => if r.Raise? then Some(r.message) else None
    case Plan(_, _, _, r) => if r.Raise? then Some(r.message) else None
    case Draft(_, _, _, _, r) => if r.Raise? then Some(r.message) else None
    case Review(_, _, _, r) => if r.Raise? then Some(r.message) else None
  }

  predicate AllAnswered(calls: seq<LlmCall>) { forall i :: 0 <= i < |calls| ==> RaisedBy(calls[i]).None? }

  // Call `n` says what the model replied to it.
  predicate TrueCall(llm: Llm, n: nat, call: LlmCall) {
    match call
    case Classify(t, r) => r == llm.classify(n, t)
    case Plan(t, kind, order, r) => r == llm.plan(n, t, kind, order)
    case Draft(t, kind, facts, feedback, r) => r == llm.draft(n, t, kind, facts, feedback)
    case Review(t, draft, facts, r) => r == llm.review(n, t, draft, facts)
  }

  predicate TrueCalls(llm: Llm, calls: seq<LlmCall>) { forall i :: 0 <= i < |calls| ==> TrueCall(llm, i, calls[i]) }

  // Failed by the last call and by no other, or ended without any call that raised.
  predicate FailsByCall(run: Run) {
    match run
    case Going(c) => AllAnswered(c.calls)
    case Failed(m, calls, _) =>
      calls != [] && RaisedBy(calls[|calls| - 1]) == Some(m) && AllAnswered(calls[..|calls| - 1])
  }

  // A step makes at most one call, and fails exactly if that call raises.
  lemma StepCall(w: World, c: Config)
    requires c.node != End
    ensures var run, calls := Step(w, c), Transcript(Step(w, c));
      if c.node == Start then run.Going? && calls == c.calls
      else
        && |calls| == |c.calls| + 1 && calls[..|c.calls|] == c.calls && TrueCall(w.llm, |c.calls|, calls[|c.calls|])
        && RaisedBy(calls[|c.calls|]) == if run.Going? then None else Some(run.message)
  {
    hide Rounds, Slice;
  }

  lemma StepTells(w: World, c: Config)
    requires c.node != End && AllAnswered(c.calls) && TrueCalls(w.llm, c.calls)
    ensures FailsByCall(Step(w, c)) && TrueCalls(w.llm, Transcript(Step(w, c)))
  {
    hide Step, TrueCall, RaisedBy;
    StepCall(w, c);
    var calls := Transcript(Step(w, c));
    assert forall i :: 0 <= i < |c.calls| ==> calls[i] == c.calls[i];
  }

  lemma {:induction false} RunTells(w: World, c: Config)
    requires AllAnswered(c.calls) && TrueCalls(w.llm, c.calls)
    ensures FailsByCall(RunFrom(w, c)) && TrueCalls(w.llm, Transcript(RunFrom(w, c)))
    ensures RunFrom(w, c).Going? ==> RunFrom(w, c).config.node == End
    decreases Rank(w, c)
  {
    hide Step, AllAnswered, TrueCalls;
    if c.node != End {
      StepTells(w, c);
      if Step(w, c).Going? {
        RankDecreases(w, c);
        RunTells(w, Step(w, c).config);
      }
    }
  }

  // A run reaches the end exactly if none of the replies the model gives in it raises; it
  // fails with what the first one raises, and asks no more.
  lemma RunEndsIff(w: World, ticketId: string, ticket: string, orderId: Option<string>)
    ensures var run := RunFrom(w, Begin(ticketId, ticket, orderId));
      && (run.Going? <==> AllAnswered(Transcript(run)))
      && FailsByCall(run) && TrueCalls(w.llm, Transcript(run))
      && (run.Going? ==> run.config.node == End)
  {
    hide RunFrom, TrueCalls;
    NothingAsked(w);
    RunTells(w, Begin(ticketId, ticket, orderId));
  }

  lemma NothingAsked(w: World)
    ensures AllAnswered([]) && TrueCalls(w.llm, [])
  {
  }

  // A model that never raises.
  ghost predicate Answers(llm: Llm) {
    && (forall n, t :: llm.classify(n, t).Answer?)
    && (forall n, t, kind, order :: llm.plan(n, t, kind, order).Answer?)
    && (forall n, t, kind, facts, feedback :: llm.draft(n, t, kind, facts, feedback).Answer?)
    && (forall n, t, draft, facts :: llm.review(n, t, draft, facts).Answer?)
  }

  // With such a model every run ends.
  lemma AnsweringModelEnds(w: World, ticketId: string, ticket: string, orderId: Option<string>)
    requires Answers(w.llm)
    ensures RunFrom(w, Begin(ticketId, ticket, orderId)).Going?
  {
    hide RunFrom;
    RunEndsIff(w, ticketId, ticket, orderId);
    var calls := Transcript(RunFrom(w, Begin(ticketId, ticket, orderId)));
    forall i | 0 <= i < |calls| ensures RaisedBy(calls[i]).None? {
      assert TrueCall(w.llm, i, calls[i]);
    }
  }

  /* ---- main results about finished runs ---- */

  // A run in which no reply raises makes k passes: the first approved one is the last, and
  // without one the cap is (at least one pass is always made). One classification, one
  // plan, k drafts and k reviews are all the model is asked.
  lemma RunPasses(w: World, ticketId: string, ticket: string, orderId: Option<string>)
    ensures var run := RunFrom(w, Begin(ticketId, ticket, orderId));
      AllAnswered(Transcript(run)) ==>
        && run.Going?
        && var s, calls, k := run.config.state, run.config.calls, run.config.state.iterations;
           var cap := if w.maxReviews > 1 then w.maxReviews else 1;
           && 1 <= k <= cap && |calls| == 2 + 2 * k
           && PassesOk(w, s, calls, k)
           && NoneApproved(calls, k - 1)
           && HasVerdict(calls, k - 1) && (VerdictOf(calls, k - 1).approved || k == cap)
  {
    hide RunFrom, Rounds, PassesOk, NoneApproved, Slice, AllAnswered, TrueCalls, FailsByCall;
    var init := Initial(ticketId, ticket, orderId);
    RunEndsIff(w, ticketId, ticket, orderId);
    RunKeepsInv(w, init, Begin(ticketId, ticket, orderId));
    var run := RunFrom(w, Begin(ticketId, ticket, orderId));
    if run.Going? { LastReview(w, run.config.state, run.config.calls, run.config.state.iterations); }
  }

  // No such run ends undecided, and none refuses: it is resolved exactly if the last review
  // approved, and otherwise escalated with a reason that carries the last feedback.
  lemma RunDecides(w: World, ticketId: string, ticket: string, orderId: Option<string>)
    ensures var run := RunFrom(w, Begin(ticketId, ticket, orderId));
      AllAnswered(Transcript(run)) ==>
        && run.Going?
        && var s, calls, k := run.config.state, run.config.calls, run.config.state.iterations;
           k >= 1 && HasVerdict(calls, k - 1) && DecidedBy(s, VerdictOf(calls, k - 1), k)
  {
    hide RunFrom, Rounds, PassesOk, NoneApproved, Slice, AllAnswered, TrueCalls, FailsByCall;
    var init := Initial(ticketId, ticket, orderId);
    RunEndsIff(w, ticketId, ticket, orderId);
    RunKeepsInv(w, init, Begin(ticketId, ticket, orderId));
    var run := RunFrom(w, Begin(ticketId, ticket, orderId));
    if run.Going? { LastReview(w, run.config.state, run.config.calls, run.config.state.iterations); }
  }

  // The draft in the final state is the one the last review saw: the redaction of what
  // the model drafted last.
  lemma RunEndsWithReviewedDraft(w: World, ticketId: string, ticket: string, orderId: Option<string>)
    ensures var run := RunFrom(w, Begin(ticketId, ticket, orderId));
      run.Going? ==>
        var s, calls, k := run.config.state, run.config.calls, run.config.state.iterations;
        && k >= 1 && HasVerdict(calls, k - 1) && Drafted(calls, k - 1)
        && s.draft == Some(ReviewCall(calls, k - 1).draft)
        && ReviewCall(calls, k - 1).draft == RedactedDraft(w, calls, k - 1)
  {
    hide RunFrom, Rounds, NoneApproved, Slice;
    var init := Initial(ticketId, ticket, orderId);
    RunKeepsInv(w, init, Begin(ticketId, ticket, orderId));
    var run := RunFrom(w, Begin(ticketId, ticket, orderId));
    if run.Going? { assert ReviewOk(w, run.config.state, run.config.calls, run.config.state.iterations - 1); }
  }

  // The log, the facts and the executed tools of a finished run are those of the
  // researcher loop on the model's plan.
  lemma RunResearch(w: World, ticketId: string, ticket: string, orderId: Option<string>)
    ensures var run := RunFrom(w, Begin(ticketId, ticket, orderId));
      run.Going? ==>
        var c := run.config;
        && |c.calls| > 1 && c.calls[1].Plan? && c.calls[1].requests.Answer?
        && var requests := Slice(c.calls[1].requests.value, w.maxToolRounds);
           && c.executed == Allowed(requests) == RanIn(c.state.toolCalls)
           && |c.state.toolCalls| == |requests|
           && (forall i :: 0 <= i < |requests| ==>
                 (c.state.toolCalls[i].status == Blocked <==> requests[i].name !in ALLOWLIST))
           && c.state.facts == FactsOf(c.state.toolCalls)
  {
    hide RunFrom, Rounds, PassesOk, NoneApproved, Slice, Allowed, FactsOf, RanIn;
    var init := Initial(ticketId, ticket, orderId);
    RunKeepsInv(w, init, Begin(ticketId, ticket, orderId));
    var run := RunFrom(w, Begin(ticketId, ticket, orderId));
    if run.Going? {
      var requests := Slice(run.config.calls[1].requests.value, w.maxToolRounds);
      OnlyAllowedRun(w.guard, w.answers, [], requests);
      LogFollowsRequests(w.guard, w.answers, [], requests);
      FactsMatchLog(w.guard, w.answers, [], requests);
      LogTellsRuns(w.guard, w.answers, [], requests);
    }
  }

  /* ---- clean facts, in every run, also one that raises ---- */

  ghost predicate CallClean(g: Guard, call: LlmCall) {
    match call
    case Draft(_, _, facts, _, _) => CleanFacts(g, facts)
    case Review(_, _, facts, _) => CleanFacts(g, facts)
    case _ => true
  }

  ghost predicate CallsClean(g: Guard, calls: seq<LlmCall>) {
    forall i :: 0 <= i < |calls| ==> CallClean(g, calls[i])
  }

  lemma StepKeepsClean(w: World, c: Config)
    requires c.node != End && MarkerSilent(w.guard)
    requires CallsClean(w.guard, c.calls) && CleanFacts(w.guard, c.state.facts)
    ensures match Step(w, c)
      case Failed(_, calls, _) => CallsClean(w.guard, calls)
      case Going(d) => CallsClean(w.guard, d.calls) && CleanFacts(w.guard, d.state.facts)
  {
    hide Rounds, Slice, MarkerSilent, Injected;
    if c.node == Researcher {
      var reply := w.llm.plan(|c.calls|, c.state.ticket, OrOther(c.state.category), c.state.orderId);
      if reply.Answer? {
        FactsAreClean(w.guard, w.answers, c.executed, Slice(reply.value, w.maxToolRounds));
      }
    }
  }

  lemma {:induction false} RunKeepsClean(w: World, c: Config)
    requires MarkerSilent(w.guard) && CallsClean(w.guard, c.calls) && CleanFacts(w.guard, c.state.facts)
    ensures match RunFrom(w, c)
      case Failed(_, calls, _) => CallsClean(w.guard, calls)
      case Going(d) => CallsClean(w.guard, d.calls) && CleanFacts(w.guard, d.state.facts)
    decreases Rank(w, c)
  {
    hide Step, CallsClean, CleanFacts, MarkerSilent;
    if c.node != End {
      StepKeepsClean(w, c);
      if Step(w, c).Going? {
        RankDecreases(w, c);
        RunKeepsClean(w, Step(w, c).config);
      }
    }
  }

  // Whatever the tools return, no injection in a fact ever reaches a draft or a review.
  lemma NoInjectionReachesModel(w: World, ticketId: string, ticket: string, orderId: Option<string>)
    requires MarkerSilent(w.guard)
    ensures var run := RunFrom(w, Begin(ticketId, ticket, orderId));
      CallsClean(w.guard, if run.Going? then run.config.calls else run.calls)
  {
    hide RunFrom, MarkerSilent;
    RunKeepsClean(w, Begin(ticketId, ticket, orderId));
  }

  /* ---- the allowlist, in every run, also one that raises ---- */

  predicate OnAllowlist(executed: seq<Request>) {
    forall i :: 0 <= i < |executed| ==> executed[i].name in ALLOWLIST
  }

  lemma {:induction false} AllowedOnAllowlist(requests: seq<Request>)
    ensures OnAllowlist(Allowed(requests))
  {
    if requests != [] { AllowedOnAllowlist(requests[..|requests| - 1]); }
  }

  lemma StepKeepsAllowlist(w: World, c: Config)
    requires c.node != End && OnAllowlist(c.executed)
    ensures OnAllowlist(match Step(w, c) case Failed(_, _, x) => x case Going(d) => d.executed)
  {
    hide Rounds, Slice, Allowed;
    if c.node == Researcher {
      var reply := w.llm.plan(|c.calls|, c.state.ticket, OrOther(c.state.category), c.state.orderId);
      if reply.Answer? {
        OnlyAllowedRun(w.guard, w.answers, c.executed, Slice(reply.value, w.maxToolRounds));
        AllowedOnAllowlist(Slice(reply.value, w.maxToolRounds));
      }
    }
  }

  // Whatever the model asks for, only allowlisted tools are ever run.
  lemma {:induction false} RunKeepsAllowlist(w: World, c: Config)
    requires OnAllowlist(c.executed)
    ensures OnAllowlist(match RunFrom(w, c) case Failed(_, _, x) => x case Going(d) => d.executed)
    decreases Rank(w, c)
  {
    hide Step, OnAllowlist;
    if c.node != End {
      StepKeepsAllowlist(w, c);
      if Step(w, c).Going? {
        RankDecreases(w, c);
        RunKeepsAllowlist(w, Step(w, c).config);
      }
    }
  }

  /* ---- the tools that run, also where the graph raises ---- */

  // The allowlisted requests below the cap of the plan that the model has answered with.
  function Planned(rounds: int, calls: seq<LlmCall>): seq<Request> {
    if |calls| > 1 && calls[1].Plan? && calls[1].requests.Answer?
    then Allowed(Slice(calls[1].requests.value, rounds)) else []
  }

  // Between two nodes: nothing has run before the researcher, and then what was planned.
  predicate RanSoFar(w: World, c: Config) {
    && c.executed == Planned(w.maxToolRounds, c.calls)
    && match c.node
       case Start => c.calls == []
       case Classifier => c.calls == []
       case Researcher => |c.calls| == 1
       case _ => |c.calls| > 1
  }

  lemma StepKeepsPlan(w: World, c: Config)
    requires c.node != End && RanSoFar(w, c)
    ensures match Step(w, c)
      case Going(d) => RanSoFar(w, d)
      case Failed(_, calls, x) => x == Planned(w.maxToolRounds, calls)
  {
    hide Rounds, Slice, Allowed;
    if c.node == Researcher {
      var reply := w.llm.plan(|c.calls|, c.state.ticket, OrOther(c.state.category), c.state.orderId);
      if reply.Answer? { OnlyAllowedRun(w.guard, w.answers, [], Slice(reply.value, w.maxToolRounds)); }
    }
  }

  lemma {:induction false} RunKeepsPlan(w: World, c: Config)
    requires RanSoFar(w, c)
    ensures match RunFrom(w, c)
      case Going(d) => d.executed == Planned(w.maxToolRounds, d.calls)
      case Failed(_, calls, x) => x == Planned(w.maxToolRounds, calls)
    decreases Rank(w, c)
  {
    hide Step, Planned;
    if c.node != End {
      StepKeepsPlan(w, c);
      if Step(w, c).Going? {
        RankDecreases(w, c);
        RunKeepsPlan(w, Step(w, c).config);
      }
    }
  }

  // Whatever the model answers later, the tools that run are those it planned.
  lemma RunRanAsPlanned(w: World, ticketId: string, ticket: string, orderId: Option<string>)
    ensures var run := RunFrom(w, Begin(ticketId, ticket, orderId));
      (if run.Going? then run.config.executed else run.executed) == Planned(w.maxToolRounds, Transcript(run))
  {
    hide RunFrom, Allowed, Slice;
    RunKeepsPlan(w, Begin(ticketId, ticket, orderId));
  }

  /* ---- what the model is asked, and in whose words ---- */

  // The words of a review that did not approve: its own, or the stock sentence if it has none.
  predicate WordsOf(v: Verdict, t: string) {
    if v.feedback.Some? && v.feedback.value != "" then t == v.feedback.value
    else t == "Reviewer did not approve this draft."
  }

  // Draft `j` is asked for with the words of the review before it, and the first with none.
  predicate WordsReach(calls: seq<LlmCall>, j: nat) {
    && Drafted(calls, j)
    && (j == 0 ==> DraftCall(calls, j).feedback == None)
    && (j > 0 ==>
          && HasVerdict(calls, j - 1) && DraftCall(calls, j).feedback.Some?
          && WordsOf(VerdictOf(calls, j - 1), DraftCall(calls, j).feedback.value))
  }

  ghost predicate WordsPassedOn(calls: seq<LlmCall>, k: nat) { forall j: nat :: j < k ==> WordsReach(calls, j) }

  lemma PassesPassWordsOn(w: World, s: CaseState, calls: seq<LlmCall>, k: nat)
    requires PassesOk(w, s, calls, k)
    ensures WordsPassedOn(calls, k)
  {
    forall j: nat | j < k ensures WordsReach(calls, j) {
      assert DraftOk(s, calls, j);
    }
  }

  // The words of the reviews reach the next draft, and those of the last one the reason for
  // escalation, which also says how many passes there were.
  lemma RunPassesWordsOn(w: World, ticketId: string, ticket: string, orderId: Option<string>)
    ensures var run := RunFrom(w, Begin(ticketId, ticket, orderId));
      AllAnswered(Transcript(run)) ==>
        && run.Going?
        && var s, calls, k := run.config.state, run.config.calls, run.config.state.iterations;
           && k >= 1 && WordsPassedOn(calls, k) && HasVerdict(calls, k - 1)
           && (!VerdictOf(calls, k - 1).approved ==>
                exists t :: WordsOf(VerdictOf(calls, k - 1), t) &&
                  s.reason == Some("Not approved after " + Decimal(k) + " review pass(es): " + t))
  {
    hide RunFrom, PassesOk, WordsPassedOn, NoneApproved, AllAnswered, TrueCalls, FailsByCall;
    RunPasses(w, ticketId, ticket, orderId);
    RunDecides(w, ticketId, ticket, orderId);
    var run := RunFrom(w, Begin(ticketId, ticket, orderId));
    if AllAnswered(Transcript(run)) {
      var s, calls, k := run.config.state, run.config.calls, run.config.state.iterations;
      PassesPassWordsOn(w, s, calls, k);
      assert WordsOf(VerdictOf(calls, k - 1), FeedbackText(VerdictOf(calls, k - 1)));
    }
  }

  // One of the four categories: the model's answer, or "other" for any other answer.
  function CategoryFor(answer: string): string {
    if answer == "order" || answer == "product" || answer == "refund" then answer else "other"
  }

  // The first two calls are the classification of the ticket and the plan for it, for the
  // category the model gave and with the order id.
  predicate Opens(ticket: string, orderId: Option<string>, calls: seq<LlmCall>) {
    && (|calls| > 0 ==> calls[0].Classify? && calls[0].ticket == ticket)
    && (|calls| > 1 ==>
          && calls[0].category.Answer? && calls[1].Plan? && calls[1].ticket == ticket
          && calls[1].kind == CategoryFor(calls[0].category.value) && calls[1].orderId == orderId)
  }

  predicate OpensSoFar(ticket: string, orderId: Option<string>, c: Config) {
    && Opens(ticket, orderId, c.calls) && c.state.ticket == ticket && c.state.orderId == orderId
    && match c.node
       case Start => c.calls == []
       case Classifier => c.calls == []
       case Researcher =>
         && |c.calls| == 1 && c.calls[0].category.Answer?
         && c.state.category == Some(CategoryFor(c.calls[0].category.value))
       case _ => |c.calls| > 1 && c.state.category == Some(CategoryFor(c.calls[0].category.value))
  }

  lemma StepOpens(w: World, ticket: string, orderId: Option<string>, c: Config)
    requires c.node != End && OpensSoFar(ticket, orderId, c)
    ensures match Step(w, c)
      case Going(d) => OpensSoFar(ticket, orderId, d)
      case Failed(_, calls, _) => Opens(ticket, orderId, calls)
  {
    hide Rounds, Slice;
    assert PIPELINE[Start] == Classifier;
    assert CATEGORIES == {"order", "product", "refund", "other"};
  }

  lemma {:induction false} RunOpens(w: World, ticket: string, orderId: Option<string>, c: Config)
    requires OpensSoFar(ticket, orderId, c)
    ensures match RunFrom(w, c)
      case Going(d) => OpensSoFar(ticket, orderId, d)
      case Failed(_, calls, _) => Opens(ticket, orderId, calls)
    ensures RunFrom(w, c).Going? ==> RunFrom(w, c).config.node == End
    decreases Rank(w, c)
  {
    hide Step, OpensSoFar, Opens;
    if c.node != End {
      StepOpens(w, ticket, orderId, c);
      if Step(w, c).Going? {
        RankDecreases(w, c);
        RunOpens(w, ticket, orderId, Step(w, c).config);
      }
    }
  }

  // Draft `j` is asked for with the ticket, the category and the facts of the case.
  predicate DraftFits(s: CaseState, ticket: string, calls: seq<LlmCall>, j: nat) {
    && Drafted(calls, j) && DraftCall(calls, j).ticket == ticket
    && Some(DraftCall(calls, j).kind) == s.category && DraftCall(calls, j).facts == s.facts
  }

  ghost predicate DraftsFit(s: CaseState, ticket: string, calls: seq<LlmCall>, k: nat) {
    forall j: nat :: j < k ==> DraftFits(s, ticket, calls, j)
  }

  lemma PassesFit(w: World, s: CaseState, calls: seq<LlmCall>, k: nat)
    requires PassesOk(w, s, calls, k) && s.category.Some? && s.category.value != ""
    ensures DraftsFit(s, s.ticket, calls, k)
  {
    forall j: nat | j < k ensures DraftFits(s, s.ticket, calls, j) {
      assert DraftOk(s, calls, j);
    }
  }

  // In every run the model classifies the ticket and plans for it with the order id of the
  // request; a finished one has the category it gave, and drafts were made for that.
  lemma RunAsksAboutTicket(w: World, ticketId: string, ticket: string, orderId: Option<string>)
    ensures var run := RunFrom(w, Begin(ticketId, ticket, orderId));
      && Opens(ticket, orderId, Transcript(run))
      && (run.Going? ==>
            && |run.config.calls| > 1
            && run.config.state.category == Some(CategoryFor(run.config.calls[0].category.value))
            && DraftsFit(run.config.state, ticket, run.config.calls, run.config.state.iterations))
  {
    hide RunFrom, PassesOk, NoneApproved, AllAnswered, FailsByCall, TrueCalls, DraftsFit;
    RunOpens(w, ticket, orderId, Begin(ticketId, ticket, orderId));
    RunEndsIff(w, ticketId, ticket, orderId);
    RunPasses(w, ticketId, ticket, orderId);
    var run := RunFrom(w, Begin(ticketId, ticket, orderId));
    if run.Going? { PassesFit(w, run.config.state, run.config.calls, run.config.state.iterations); }
  }
}

// apps/api/src/store/registry.py and the researcher node of apps/api/src/graph/nodes.py:
// the tool allowlist, dispatch, and the bounded tool loop with its audit log.

module Research {
  import opened Wrappers
  import opened Json
  import opened Injection

  datatype Status = Ok | Error | Blocked | Sanitized

  const ALLOWLIST := {"check_order_status", "get_product_details", "search_catalog"}

  const NO_ARGS := Dict([])

  // A tool request of the model; absent arguments are Null.
  datatype Request = Request(name: string, args: Json)

  // What calling a tool can come to.
  datatype Outcome = Returned(result: Json) | BadArguments(detail: string) | Raised(detail: string)

  // What the tools answer, arbitrary and different from call to call.
  type ToolAnswers = (nat, Request) -> Outcome

  // One entry of the audit log, and one fact handed to the model.
  datatype CallRecord = CallRecord(tool: string, args: Json, result: Json, status: Status)

  datatype Fact = Fact(tool: string, args: Json, data: Json)

  // The log entry while it is still being changed.
  class ToolRecord {
    const tool: string
    const args: Json
    var result: Json
    var status: Status

    constructor (tool: string, args: Json, result: Json, status: Status)
      ensures View() == CallRecord(tool, args, result, status)
    {
      this.tool, this.args, this.result, this.status := tool, args, result, status;
    }

    function View(): CallRecord
      reads this
    {
      CallRecord(tool, args, result, status)
    }
  }

  // The tools. What they answer is arbitrary and may differ from call to call; that
  // they were called is recorded.
  class ToolBox {
    const answers: ToolAnswers
    var executed: seq<Request>

    constructor (answers: ToolAnswers)
      ensures this.answers == answers && executed == []
    {
      this.answers := answers;
      executed := [];
    }

    method Run(req: Request) returns (outcome: Outcome)
      requires req.name in ALLOWLIST
      modifies this
      ensures outcome == answers(|old(executed)|, req) && executed == old(executed) + [req]
    {
      outcome := answers(|executed|, req);
      executed := executed + [req];
    }
  }

  function OrEmpty(args: Json): Json { if Truthy(args) then args else NO_ARGS }

  function ErrorResult(error: string, detail: Option<string>): Json {
    Dict([("error", Str(error))] + if detail.Some? then [("detail", Str(detail.value))] else [])
  }

  // How the outcome of an allowlisted call is recorded.
  function Recorded(req: Request, outcome: Outcome): CallRecord {
    var (result, status) := match outcome
      case Returned(r) => (r, if r.Dict? && Truthy(Lookup(r.entries, "error")) then Error else Ok)
      case BadArguments(d) => (ErrorResult("bad_arguments", Some(d)), Error)
      case Raised(d) => (ErrorResult("tool_exception", Some(d)), Error);
    CallRecord(req.name, req.args, result, status)
  }

  function BlockedRecord(req: Request): CallRecord {
    CallRecord(req.name, req.args, ErrorResult("tool_not_allowlisted", None), Blocked)
  }

  method DispatchTool(tools: ToolBox, name: string, args: Json) returns (record: ToolRecord)
    modifies tools
    ensures fresh(record)
    ensures var req := Request(name, OrEmpty(args));
      if name in ALLOWLIST
      then tools.executed == old(tools.executed) + [req] &&
        record.View() == Recorded(req, tools.answers(|old(tools.executed)|, req))
      else tools.executed == old(tools.executed) && record.View() == BlockedRecord(req)
  {
    var req := Request(name, OrEmpty(args));
    if name !in ALLOWLIST {
      record := new ToolRecord(name, req.args, ErrorResult("tool_not_allowlisted", None), Blocked);
      return;
    }
    var outcome := tools.Run(req);
    match outcome
    case BadArguments(d) =>
      record := new ToolRecord(name, req.args, ErrorResult("bad_arguments", Some(d)), Error);
    case Raised(d) =>
      record := new ToolRecord(name, req.args, ErrorResult("tool_exception", Some(d)), Error);
    case Returned(result) =>
      var status := Ok;
      if result.Dict? && Truthy(Lookup(result.entries, "error")) { status := Error; }
      record := new ToolRecord(name, req.args, result, status);
  }

  /* ---- the loop ---- */

  // requests[:rounds], also for a negative bound.
  function Slice(requests: seq<Request>, rounds: int): seq<Request> {
    if rounds >= 0 then (if rounds < |requests| then requests[..rounds] else requests)
    else if |requests| + rounds > 0 then requests[..|requests| + rounds] else []
  }

  datatype Findings = Findings(calls: seq<CallRecord>, facts: seq<Fact>, executed: seq<Request>)

  // The record of one request, before quarantine, when `n` tools have run before it.
  function FirstRecord(answers: ToolAnswers, n: nat, req: Request): CallRecord {
    if req.name in ALLOWLIST then Recorded(req, answers(n, req)) else BlockedRecord(req)
  }

  // One round: quarantine rewrites the record, and the fact carries the cleaned data.
  ghost function Round(g: Guard, answers: ToolAnswers, f: Findings, request: Request): Findings {
    var req := Request(request.name, OrEmpty(request.args));
    var record := FirstRecord(answers, |f.executed|, req);
    var clean := Cleaned(g, record.result);
    var executed := if req.name in ALLOWLIST then f.executed + [req] else f.executed;
    if record.status != Ok then Findings(f.calls + [record], f.facts, executed)
    else Findings(
      f.calls + [if Injected(g, record.result) then record.(status := Sanitized, result := clean) else record],
      f.facts + [Fact(req.name, req.args, clean)], executed)
  }

  ghost function Rounds(g: Guard, answers: ToolAnswers, f: Findings, requests: seq<Request>): Findings {
    if requests == [] then f
    else Round(g, answers, Rounds(g, answers, f, requests[..|requests| - 1]), requests[|requests| - 1])
  }

  ghost function Views(log: seq<ToolRecord>): seq<CallRecord>
    reads log
  {
    seq(|log|, i requires 0 <= i < |log| reads log => log[i].View())
  }

  // One round of the loop: the record is appended and then goes on being changed, so
  // the log sees the change; the fact is made of the final data.
  method OneRound(g: Guard, tools: ToolBox, request: Request, log0: seq<ToolRecord>, facts0: seq<Fact>)
      returns (log: seq<ToolRecord>, facts: seq<Fact>)
    modifies tools
    ensures |log| == |log0| + 1 && log[..|log0|] == log0 && fresh(log[|log0|])
    ensures Findings(old(Views(log0)) + [log[|log0|].View()], facts, tools.executed) ==
      Round(g, tools.answers, Findings(old(Views(log0)), facts0, old(tools.executed)), request)
  {
    facts := facts0;
    var name, args := request.name, OrEmpty(request.args);
    var record := DispatchTool(tools, name, args);
    assert OrEmpty(args) == args;
    log := log0 + [record];
    if record.status == Ok {
      var flagged, sanitized := ScanToolResult(g, record.result);
      if flagged {
        record.status := Sanitized;
        record.result := sanitized;
      } else {
        UnflaggedUnchanged(g, record.result);
      }
      facts := facts + [Fact(name, args, sanitized)];
    }
  }

  method Researcher(g: Guard, tools: ToolBox, requests: seq<Request>, maxRounds: int)
      returns (log: seq<ToolRecord>, facts: seq<Fact>)
    modifies tools
    ensures forall i :: 0 <= i < |log| ==> fresh(log[i])
    ensures Findings(Views(log), facts, tools.executed) ==
      Rounds(g, tools.answers, Findings([], [], old(tools.executed)), Slice(requests, maxRounds))
  {
    log, facts := [], [];
    var rounds := Slice(requests, maxRounds);
    hide Round;
    for i := 0 to |rounds|
      invariant forall k :: 0 <= k < |log| ==> fresh(log[k])
      invariant Findings(Views(log), facts, tools.executed) ==
        Rounds(g, tools.answers, Findings([], [], old(tools.executed)), rounds[..i])
    {
      ghost var before := Views(log);
      ghost var log0 := log;
      log, facts := OneRound(g, tools, rounds[i], log, facts);
      assert Views(log) == before + [log[|log0|].View()] by {
        assert forall k :: 0 <= k < |log0| ==> log[k] == log0[k];
      }
      assert rounds[..i + 1][..i] == rounds[..i];
    }
    assert rounds[..|rounds|] == rounds;
  }

  /* ---- what the loop does, told without the loop ---- */

  lemma SliceLength(requests: seq<Request>, rounds: int)
    ensures Slice(requests, rounds) <= requests
    ensures rounds >= 0 ==> |Slice(requests, rounds)| == if rounds < |requests| then rounds else |requests|
    ensures rounds < 0 ==> |Slice(requests, rounds)| == if -rounds < |requests| then |requests| + rounds else 0
  {
  }

  function Allowed(requests: seq<Request>): seq<Request> {
    if requests == [] then [] else
      var last := requests[|requests| - 1];
      Allowed(requests[..|requests| - 1]) +
        if last.name in ALLOWLIST then [Request(last.name, OrEmpty(last.args))] else []
  }

  lemma {:induction false} SomeAllowed(requests: seq<Request>, i: nat)
    requires i < |requests| && requests[i].name in ALLOWLIST
    ensures Allowed(requests) != []
  {
    if i < |requests| - 1 { SomeAllowed(requests[..|requests| - 1], i); }
  }

  // The facts that a log accounts for: its successful calls, with the results as logged.
  function FactsOf(calls: seq<CallRecord>): seq<Fact> {
    if calls == [] then [] else
      var last := calls[|calls| - 1];
      FactsOf(calls[..|calls| - 1]) +
        if last.status in {Ok, Sanitized} then [Fact(last.tool, last.args, last.result)] else []
  }

  // One record for every request, in order, blocked exactly off the allowlist.
  lemma {:induction false} LogFollowsRequests(g: Guard, answers: ToolAnswers, x: seq<Request>, requests: seq<Request>)
    ensures var f := Rounds(g, answers, Findings([], [], x), requests);
      && |f.calls| == |requests|
      && forall k :: 0 <= k < |requests| ==>
        && f.calls[k].tool == requests[k].name && f.calls[k].args == OrEmpty(requests[k].args)
        && (f.calls[k].status == Blocked <==> requests[k].name !in ALLOWLIST)
  {
    hide Injected, Cleaned;
    if requests != [] { LogFollowsRequests(g, answers, x, requests[..|requests| - 1]); }
  }

  // The tools that run are exactly the allowlisted requests, in order.
  lemma {:induction false} OnlyAllowedRun(g: Guard, answers: ToolAnswers, x: seq<Request>, requests: seq<Request>)
    ensures Rounds(g, answers, Findings([], [], x), requests).executed == x + Allowed(requests)
  {
    if requests != [] { OnlyAllowedRun(g, answers, x, requests[..|requests| - 1]); }
  }

  // The facts are exactly the successful part of the log, although the records are
  // changed after they have been logged.
  lemma {:induction false} FactsMatchLog(g: Guard, answers: ToolAnswers, x: seq<Request>, requests: seq<Request>)
    ensures var f := Rounds(g, answers, Findings([], [], x), requests); f.facts == FactsOf(f.calls)
  {
    if requests != [] {
      var r := requests[|requests| - 1];
      var f := Rounds(g, answers, Findings([], [], x), requests[..|requests| - 1]);
      FactsMatchLog(g, answers, x, requests[..|requests| - 1]);
      var record := FirstRecord(answers, |f.executed|, Request(r.name, OrEmpty(r.args)));
      if !Injected(g, record.result) { UnflaggedUnchanged(g, record.result); }
      var calls := Round(g, answers, f, r).calls;
      assert calls[..|calls| - 1] == f.calls;
    }
  }

  // The calls of a log that ran a tool, read as the requests they came from.
  function RanIn(calls: seq<CallRecord>): seq<Request> {
    if calls == [] then [] else
      var last := calls[|calls| - 1];
      RanIn(calls[..|calls| - 1]) + if last.status == Blocked then [] else [Request(last.tool, last.args)]
  }

  lemma RoundTells(g: Guard, answers: ToolAnswers, f: Findings, request: Request)
    ensures var d := Round(g, answers, f, request);
      && |d.calls| == |f.calls| + 1 && d.calls[..|f.calls|] == f.calls
      && var last := d.calls[|f.calls|];
         d.executed == f.executed + if last.status == Blocked then [] else [Request(last.tool, last.args)]
  {
    hide Injected, Cleaned;
  }

  // The log tells exactly which tools ran: blocked calls did not, and all others did.
  lemma {:induction false} LogTellsRuns(g: Guard, answers: ToolAnswers, x: seq<Request>, requests: seq<Request>)
    ensures var f := Rounds(g, answers, Findings([], [], x), requests); f.executed == x + RanIn(f.calls)
  {
    hide Round;
    if requests != [] {
      var f := Rounds(g, answers, Findings([], [], x), requests[..|requests| - 1]);
      LogTellsRuns(g, answers, x, requests[..|requests| - 1]);
      RoundTells(g, answers, f, requests[|requests| - 1]);
    }
  }

  /* ---- the log told by the answers of the tools ---- */

  // Arguments are passed on as they are, unless they count as false: then there are none.
  function Passed(args: Json): Json { if Falsy(args) then Dict([]) else args }

  function RequestAt(requests: seq<Request>, k: nat): Request
    requires k < |requests|
  {
    Request(requests[k].name, Passed(requests[k].args))
  }

  lemma PassedRule(args: Json)
    ensures OrEmpty(args) == Passed(args) && Passed(Passed(args)) == Passed(args)
  {
    TruthyRule(args);
  }

  // What is logged of a request whose tool, if it is on the allowlist, answers `outcome`.
  ghost predicate LoggedAs(g: Guard, c: CallRecord, req: Request, outcome: Outcome) {
    && c.tool == req.name && c.args == req.args
    && if req.name !in ALLOWLIST then
         c.status == Blocked && c.result == Dict([("error", Str("tool_not_allowlisted"))])
       else match outcome
         case BadArguments(d) =>
           c.status == Error && c.result == Dict([("error", Str("bad_arguments")), ("detail", Str(d))])
         case Raised(d) =>
           c.status == Error && c.result == Dict([("error", Str("tool_exception")), ("detail", Str(d))])
         case Returned(r) =>
           if NamesError(r) then c.status == Error && c.result == r
           else if Injected(g, r) then c.status == Sanitized && QuarantinedFrom(g, r, c.result)
           else c.status == Ok && c.result == r
  }

  // The answer to request `k`, when `x` tools have run before the first.
  ghost function AnswerTo(answers: ToolAnswers, x: nat, requests: seq<Request>, k: nat): Outcome
    requires k < |requests|
  {
    answers(x + |Allowed(requests[..k])|, RequestAt(requests, k))
  }

  lemma RoundRule(g: Guard, answers: ToolAnswers, f: Findings, request: Request)
    ensures var d, req := Round(g, answers, f, request), Request(request.name, Passed(request.args));
      && |d.calls| == |f.calls| + 1 && d.calls[..|f.calls|] == f.calls
      && LoggedAs(g, d.calls[|f.calls|], req, answers(|f.executed|, req))
  {
    var req := Request(request.name, Passed(request.args));
    PassedRule(request.args);
    var record := FirstRecord(answers, |f.executed|, req);
    FirstRule(answers, |f.executed|, req);
    OnlyLeavesChange(g, record.result, Cleaned(g, record.result));
    hide Injected, Cleaned, NamesError, QuarantinedFrom, FirstRecord;
  }

  lemma FirstRule(answers: ToolAnswers, n: nat, req: Request)
    ensures var c := FirstRecord(answers, n, req);
      && c.tool == req.name && c.args == req.args
      && if req.name !in ALLOWLIST then
           c.status == Blocked && c.result == Dict([("error", Str("tool_not_allowlisted"))])
         else match answers(n, req)
           case BadArguments(d) =>
             c.status == Error && c.result == Dict([("error", Str("bad_arguments")), ("detail", Str(d))])
           case Raised(d) =>
             c.status == Error && c.result == Dict([("error", Str("tool_exception")), ("detail", Str(d))])
           case Returned(r) => c.result == r && c.status == if NamesError(r) then Error else Ok
  {
    hide NamesError, Lookup, Truthy;
    var outcome := answers(n, req);
    if outcome.Returned? { NamesErrorRule(outcome.result); }
    assert [("error", Str("x"))] + [] == [("error", Str("x"))];
  }

  // Every entry of the log follows from the answer of its tool.
  lemma {:induction false} LogRule(g: Guard, answers: ToolAnswers, x: seq<Request>, requests: seq<Request>, k: nat)
    requires k < |requests|
    ensures var f := Rounds(g, answers, Findings([], [], x), requests);
      && |f.calls| == |requests|
      && LoggedAs(g, f.calls[k], RequestAt(requests, k), AnswerTo(answers, |x|, requests, k))
    decreases |requests|
  {
    hide Round, LoggedAs, Allowed, Passed;
    var n := |requests| - 1;
    var f := Rounds(g, answers, Findings([], [], x), requests[..n]);
    LogFollowsRequests(g, answers, x, requests);
    LogFollowsRequests(g, answers, x, requests[..n]);
    OnlyAllowedRun(g, answers, x, requests[..n]);
    RoundRule(g, answers, f, requests[n]);
    if k < n {
      LogRule(g, answers, x, requests[..n], k);
      assert requests[..n][..k] == requests[..k] && RequestAt(requests[..n], k) == RequestAt(requests, k);
    }
  }

  // A request whose tool ran and returned something other than an error.
  ghost predicate Succeeds(answers: ToolAnswers, x: nat, requests: seq<Request>, k: nat)
    requires k < |requests|
  {
    var outcome := AnswerTo(answers, x, requests, k);
    requests[k].name in ALLOWLIST && outcome.Returned? && !NamesError(outcome.result)
  }

  ghost predicate FactAt(g: Guard, answers: ToolAnswers, x: nat, requests: seq<Request>, k: nat, fact: Fact)
    requires k < |requests|
  {
    && Succeeds(answers, x, requests, k) && fact.tool == requests[k].name && fact.args == Passed(requests[k].args)
    && QuarantinedFrom(g, AnswerTo(answers, x, requests, k).result, fact.data)
  }

  // The facts are made of the successful requests, all of them, in order.
  ghost predicate FactsFrom(
    g: Guard, answers: ToolAnswers, x: nat, requests: seq<Request>, at: seq<nat>, facts: seq<Fact>)
  {
    && |at| == |facts|
    && (forall j :: 0 <= j < |at| ==> at[j] < |requests| && FactAt(g, answers, x, requests, at[j], facts[j]))
    && (forall i, j :: 0 <= i < j < |at| ==> at[i] < at[j])
    && (forall k: nat :: k < |requests| && Succeeds(answers, x, requests, k) ==> k in at)
  }

  lemma {:induction false} FactsRule(g: Guard, answers: ToolAnswers, x: seq<Request>, requests: seq<Request>)
      returns (at: seq<nat>)
    ensures FactsFrom(g, answers, |x|, requests, at, Rounds(g, answers, Findings([], [], x), requests).facts)
    decreases |requests|
  {
    hide Round, FactsFrom, Succeeds, Allowed;
    at := [];
    if requests == [] {
      NoFacts(g, answers, |x|);
    } else {
      var n := |requests| - 1;
      var init := requests[..n];
      var f := Rounds(g, answers, Findings([], [], x), init);
      var front := FactsRule(g, answers, x, init);
      OnlyAllowedRun(g, answers, x, init);
      LastFact(g, answers, |x|, requests, f);
      FactsSnoc(g, answers, |x|, requests, front, f.facts, Round(g, answers, f, requests[n]).facts);
      at := if Succeeds(answers, |x|, requests, n) then front + [n] else front;
    }
  }

  lemma NoFacts(g: Guard, answers: ToolAnswers, x: nat)
    ensures FactsFrom(g, answers, x, [], [], [])
  {
  }

  // One more request, and the fact made of it if there is one.
  ghost predicate Grows(
    g: Guard, answers: ToolAnswers, x: nat, requests: seq<Request>, n: nat, facts0: seq<Fact>, facts: seq<Fact>)
    requires n < |requests|
  {
    if Succeeds(answers, x, requests, n)
    then |facts| == |facts0| + 1 && facts[..|facts0|] == facts0 && FactAt(g, answers, x, requests, n, facts[|facts0|])
    else facts == facts0
  }

  lemma FactsSnoc(
    g: Guard, answers: ToolAnswers, x: nat, requests: seq<Request>, front: seq<nat>,
    facts0: seq<Fact>, facts: seq<Fact>)
    requires requests != [] && FactsFrom(g, answers, x, requests[..|requests| - 1], front, facts0)
    requires Grows(g, answers, x, requests, |requests| - 1, facts0, facts)
    ensures var n := |requests| - 1;
      FactsFrom(g, answers, x, requests, if Succeeds(answers, x, requests, n) then front + [n] else front, facts)
  {
    hide Succeeds, FactAt;
    var n := |requests| - 1;
    forall k: nat | k < n
      ensures Succeeds(answers, x, requests[..n], k) <==> Succeeds(answers, x, requests, k)
      ensures forall fact :: FactAt(g, answers, x, requests[..n], k, fact) <==> FactAt(g, answers, x, requests, k, fact)
    {
      SameStart(g, answers, x, requests, n, k);
    }
    var at := if Succeeds(answers, x, requests, n) then front + [n] else front;
    forall j | 0 <= j < |at| ensures at[j] < |requests| && FactAt(g, answers, x, requests, at[j], facts[j]) {
      if j < |front| {
        assert FactAt(g, answers, x, requests[..n], front[j], facts0[j]);
        SameStart(g, answers, x, requests, n, front[j]);
        assert facts[j] == facts0[j];
      } else {
        assert j == |facts0| && at[j] == n;
      }
    }
    forall k: nat | k < |requests| && Succeeds(answers, x, requests, k) ensures k in at {
      if k < n { assert k in front; } else { assert at[|front|] == n; }
    }
  }

  lemma SameStart(g: Guard, answers: ToolAnswers, x: nat, requests: seq<Request>, n: nat, k: nat)
    requires k < n <= |requests|
    ensures Succeeds(answers, x, requests[..n], k) <==> Succeeds(answers, x, requests, k)
    ensures forall fact :: FactAt(g, answers, x, requests[..n], k, fact) <==> FactAt(g, answers, x, requests, k, fact)
  {
    hide Allowed, Passed, QuarantinedFrom, NamesError;
    assert requests[..n][..k] == requests[..k] && RequestAt(requests[..n], k) == RequestAt(requests, k);
  }

  lemma LastFact(g: Guard, answers: ToolAnswers, x: nat, requests: seq<Request>, f: Findings)
    requires requests != [] && |f.executed| == x + |Allowed(requests[..|requests| - 1])|
    ensures var n := |requests| - 1;
      Grows(g, answers, x, requests, n, f.facts, Round(g, answers, f, requests[n]).facts)
  {
    var n := |requests| - 1;
    var req := RequestAt(requests, n);
    PassedRule(requests[n].args);
    var record := FirstRecord(answers, |f.executed|, req);
    FirstRule(answers, |f.executed|, req);
    OnlyLeavesChange(g, record.result, Cleaned(g, record.result));
    hide Injected, Cleaned, NamesError, QuarantinedFrom, FirstRecord, Allowed;
  }

  // The tools that run are the requests on the allowlist, all of them, in order.
  ghost predicate AllowedFrom(requests: seq<Request>, at: seq<nat>, runs: seq<Request>) {
    && |at| == |runs|
    && (forall j :: 0 <= j < |at| ==>
          at[j] < |requests| && requests[at[j]].name in ALLOWLIST && runs[j] == RequestAt(requests, at[j]))
    && (forall i, j :: 0 <= i < j < |at| ==> at[i] < at[j])
    && (forall k: nat :: k < |requests| && requests[k].name in ALLOWLIST ==> k in at)
  }

  lemma {:induction false} AllowedRule(requests: seq<Request>) returns (at: seq<nat>)
    ensures AllowedFrom(requests, at, Allowed(requests))
    decreases |requests|
  {
    hide AllowedFrom;
    at := [];
    if requests == [] {
      NoneAllowed();
    } else {
      var n := |requests| - 1;
      var front := AllowedRule(requests[..n]);
      PassedRule(requests[n].args);
      var runs := Allowed(requests[..n]);
      assert Allowed(requests) == if requests[n].name in ALLOWLIST then runs + [RequestAt(requests, n)] else runs;
      AllowedSnoc(requests, front, Allowed(requests[..n]));
      at := if requests[n].name in ALLOWLIST then front + [n] else front;
    }
  }

  lemma NoneAllowed()
    ensures AllowedFrom([], [], [])
  {
  }

  lemma AllowedSnoc(requests: seq<Request>, front: seq<nat>, runs: seq<Request>)
    requires requests != [] && AllowedFrom(requests[..|requests| - 1], front, runs)
    ensures var n := |requests| - 1;
      if requests[n].name in ALLOWLIST then AllowedFrom(requests, front + [n], runs + [RequestAt(requests, n)])
      else AllowedFrom(requests, front, runs)
  {
    hide Passed, ALLOWLIST;
    var n := |requests| - 1;
    forall k: nat | k < n ensures RequestAt(requests[..n], k) == RequestAt(requests, k) { }
    if requests[n].name in ALLOWLIST {
      var at := front + [n];
      forall k: nat | k < |requests| && requests[k].name in ALLOWLIST ensures k in at {
        if k < n {
          assert requests[..n][k] == requests[k];
          assert k in front;
        } else {
          assert at[|front|] == n;
        }
      }
    }
  }

  // No fact carries an injection.
  ghost predicate CleanFacts(g: Guard, facts: seq<Fact>) {
    forall k :: 0 <= k < |facts| ==> !Injected(g, facts[k].data)
  }

  lemma {:induction false} FactsAreClean(g: Guard, answers: ToolAnswers, x: seq<Request>, requests: seq<Request>)
    requires MarkerSilent(g)
    ensures CleanFacts(g, Rounds(g, answers, Findings([], [], x), requests).facts)
  {
    hide Injected, Cleaned;
    if requests != [] {
      var f := Rounds(g, answers, Findings([], [], x), requests[..|requests| - 1]);
      FactsAreClean(g, answers, x, requests[..|requests| - 1]);
      RoundKeepsClean(g, answers, f, requests[|requests| - 1]);
    }
  }

  lemma RoundKeepsClean(g: Guard, answers: ToolAnswers, f: Findings, request: Request)
    requires MarkerSilent(g) && CleanFacts(g, f.facts)
    ensures CleanFacts(g, Round(g, answers, f, request).facts)
  {
    hide Injected, Cleaned;
    CleanedIsClean(g, FirstRecord(answers, |f.executed|, Request(request.name, OrEmpty(request.args))).result);
  }

  lemma RoundResult(g: Guard, answers: ToolAnswers, f: Findings, request: Request)
    requires MarkerSilent(g)
    ensures var d := Round(g, answers, f, request);
      && |d.calls| == |f.calls| + 1 && d.calls[..|f.calls|] == f.calls
      && (d.calls[|f.calls|].status in {Ok, Sanitized} ==> !Injected(g, d.calls[|f.calls|].result))
  {
    hide Injected, Cleaned, MarkerSilent;
    CleanedIsClean(g, FirstRecord(answers, |f.executed|, Request(request.name, OrEmpty(request.args))).result);
  }

  // A logged result still holds an injection only where no fact was made of it.
  lemma {:induction false} LoggedResultsClean(
    g: Guard, answers: ToolAnswers, x: seq<Request>, requests: seq<Request>, k: nat)
    requires MarkerSilent(g) && k < |requests|
    ensures var f := Rounds(g, answers, Findings([], [], x), requests);
      && |f.calls| == |requests|
      && (f.calls[k].status in {Ok, Sanitized} ==> !Injected(g, f.calls[k].result))
  {
    hide Injected, MarkerSilent, Round;
    var f := Rounds(g, answers, Findings([], [], x), requests[..|requests| - 1]);
    LogFollowsRequests(g, answers, x, requests);
    LogFollowsRequests(g, answers, x, requests[..|requests| - 1]);
    RoundResult(g, answers, f, requests[|requests| - 1]);
    if k < |requests| - 1 { LoggedResultsClean(g, answers, x, requests[..|requests| - 1], k); }
  }
}

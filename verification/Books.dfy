// Conservation between the tables and the counters of the service, over any sequence of
// cases.

module Books {
  import opened Wrappers
  import opened Injection
  import opened Research
  import opened Graph
  import opened Service
  import opened Outcomes
  import Accounting
  import Pii

  /* ---- counting rows ---- */

  function Count<T>(rows: seq<T>, p: T -> bool): (n: nat)
    ensures n <= |rows|
  {
    if rows == [] then 0 else Count(rows[..|rows| - 1], p) + if p(rows[|rows| - 1]) then 1 else 0
  }

  lemma {:induction false} CountAdd<T>(a: seq<T>, b: seq<T>, p: T -> bool)
    ensures Count(a + b, p) == Count(a, p) + Count(b, p)
    decreases |b|
  {
    if b == [] {
      assert a + b == a;
    } else {
      assert (a + b)[..|a + b| - 1] == a + b[..|b| - 1];
      CountAdd(a, b[..|b| - 1], p);
    }
  }

  lemma CountOne<T>(x: T, p: T -> bool)
    ensures Count([x], p) == if p(x) then 1 else 0
  {
    assert [x][..0] == [];
  }

  // Rows selected by a stronger test are no more, and none at all if no row passes.
  lemma {:induction false} CountNone<T>(rows: seq<T>, p: T -> bool)
    ensures Count(rows, p) == 0 <==> forall i :: 0 <= i < |rows| ==> !p(rows[i])
  {
    if rows != [] { CountNone(rows[..|rows| - 1], p); }
  }

  function OfKind(kind: EventKind): EventRow -> bool { (r: EventRow) => r.kind == kind }

  function OfCase(id: string, kind: EventKind): EventRow -> bool {
    (r: EventRow) => r.ticketId == id && r.kind == kind
  }

  function OfStatus(status: Status): ToolRow -> bool { (r: ToolRow) => r.call.status == status }

  function OfTool(tool: string, status: Status): ToolRow -> bool {
    (r: ToolRow) => r.call.tool == tool && r.call.status == status
  }

  function CallOfCase(id: string, status: Status): ToolRow -> bool {
    (r: ToolRow) => r.ticketId == id && r.call.status == status
  }

  ghost function TicketsWith(tickets: map<string, TicketRow>, d: Decision): set<string> {
    set id | id in tickets && tickets[id].decision == d
  }

  // The cost of all tickets.
  ghost function Billed(tickets: map<string, TicketRow>): real {
    if tickets == map[] then 0.0 else
      var id :| id in tickets;
      tickets[id].cost + Billed(tickets - {id})
  }

  /* ---- what a case adds ---- */

  function RowsOf(id: string, calls: seq<CallRecord>): seq<ToolRow> {
    seq(|calls|, i requires 0 <= i < |calls| => ToolRow(id, calls[i]))
  }

  function EventOf(id: string, call: CallRecord): seq<EventRow> {
    match call.status
    case Blocked => [EventRow(id, ToolBlocked, Some("tool=" + call.tool))]
    case Sanitized => [EventRow(id, ToolOutputSanitized, Some("tool=" + call.tool))]
    case _ => []
  }

  function EventsOf(id: string, calls: seq<CallRecord>): seq<EventRow> {
    if calls == [] then [] else
      EventsOf(id, calls[..|calls| - 1]) + EventOf(id, calls[|calls| - 1])
  }

  // The books after some more events and tool rows, with the counters moved along.
  ghost predicate Extends(l: Ledger, m: Ledger, rows: seq<ToolRow>, events: seq<EventRow>) {
    && m.toolCalls == l.toolCalls + rows && m.events == l.events + events
    && (forall kind :: At(m.eventCounts, kind) == At(l.eventCounts, kind) + Count(events, OfKind(kind)))
    && (forall tool, status ::
          At(m.toolCounts, (tool, status)) == At(l.toolCounts, (tool, status)) + Count(rows, OfTool(tool, status)))
  }

  predicate SameRest(l: Ledger, m: Ledger) {
    m == l.(toolCalls := m.toolCalls, events := m.events, eventCounts := m.eventCounts, toolCounts := m.toolCounts)
  }

  lemma ExtendsTrans(
    l: Ledger, m: Ledger, n: Ledger, r: seq<ToolRow>, e: seq<EventRow>, r': seq<ToolRow>, e': seq<EventRow>)
    requires Extends(l, m, r, e) && Extends(m, n, r', e')
    ensures Extends(l, n, r + r', e + e')
  {
    hide Count, At;
    forall kind ensures At(n.eventCounts, kind) == At(l.eventCounts, kind) + Count(e + e', OfKind(kind)) {
      CountAdd(e, e', OfKind(kind));
    }
    forall tool, status
      ensures At(n.toolCounts, (tool, status)) == At(l.toolCounts, (tool, status)) + Count(r + r', OfTool(tool, status))
    {
      CountAdd(r, r', OfTool(tool, status));
    }
    assert l.toolCalls + r + r' == l.toolCalls + (r + r');
    assert l.events + e + e' == l.events + (e + e');
  }

  lemma EventExtends(l: Ledger, row: EventRow)
    ensures Extends(l, LogEvent(l, row), [], [row]) && SameRest(l, LogEvent(l, row))
  {
    forall kind ensures Count([row], OfKind(kind)) == if row.kind == kind then 1 else 0 { CountOne(row, OfKind(kind)); }
  }

  lemma ToolExtends(l: Ledger, id: string, call: CallRecord)
    ensures Extends(l, LogTool(l, id, call), [ToolRow(id, call)], EventOf(id, call))
    ensures SameRest(l, LogTool(l, id, call))
  {
    var row := ToolRow(id, call);
    var m := l.(toolCalls := l.toolCalls + [row], toolCounts := Inc(l.toolCounts, (call.tool, call.status), 1));
    forall tool, status
      ensures Count([row], OfTool(tool, status)) == if call.tool == tool && call.status == status then 1 else 0
    {
      CountOne(row, OfTool(tool, status));
    }
    assert Extends(l, m, [row], []);
    if EventOf(id, call) != [] {
      EventExtends(m, EventOf(id, call)[0]);
      ExtendsTrans(l, m, LogTool(l, id, call), [row], [], [], EventOf(id, call));
      assert [row] + [] == [row] && [] + EventOf(id, call) == EventOf(id, call);
    }
  }

  lemma {:induction false} ToolsExtend(l: Ledger, id: string, calls: seq<CallRecord>)
    ensures Extends(l, LogTools(l, id, calls), RowsOf(id, calls), EventsOf(id, calls))
    ensures SameRest(l, LogTools(l, id, calls))
  {
    hide LogTool, EventOf;
    if calls != [] {
      var init, last := calls[..|calls| - 1], calls[|calls| - 1];
      var m := LogTools(l, id, init);
      ToolsExtend(l, id, init);
      ToolExtends(m, id, last);
      var n, rows, events := LogTools(l, id, calls), RowsOf(id, init), EventsOf(id, init);
      ExtendsTrans(l, m, n, rows, events, [ToolRow(id, last)], EventOf(id, last));
      assert RowsOf(id, calls) == RowsOf(id, init) + [ToolRow(id, last)];
    }
  }

  // The events of a case, in the order in which they are logged.
  ghost function NewEvents(u: Setup, k: Case): seq<EventRow> {
    var refusal := Refusal(u.guard, Inbound(u, k));
    if refusal.Some? then [EventRow(k.id, InjectionRefused, refusal)] else
      var s := Finished(u, k);
      (if Withheld(u, s) then [EventRow(k.id, OutboundLeakBlocked, Leak(u.guard, Outbound(u, s)))] else []) +
        EventsOf(k.id, s.toolCalls)
  }

  // What one case does to the books: its ticket replaces an older one of the same id,
  // the rows of the two logs are only appended, and the counters move with them.
  ghost predicate OneCase(u: Setup, k: Case, l: Ledger, m: Ledger) {
    var r := ResponseFor(u, k);
    && k.id in m.tickets && m.tickets == l.tickets[k.id := m.tickets[k.id]]
    && m.tickets[k.id].decision == r.decision && m.tickets[k.id].cost == r.cost && m.tickets[k.id].reply == r.reply
    && m.tickets[k.id].reason == r.reason
    && Extends(l, m, RowsOf(k.id, r.toolCalls), NewEvents(u, k))
    && m.cases == Inc(l.cases, r.decision, 1)
    && m.cost == l.cost + r.cost
    && Sources(m) == Sources(l) + if r.decision == REFUSE then 0 else 1
  }

  function Sources(l: Ledger): nat { At(l.tokenSources, "provider") + At(l.tokenSources, "estimated") }

  lemma RefusedCase(u: Setup, k: Case, l: Ledger)
    requires Refuses(u, k)
    ensures OneCase(u, k, l, LedgerAfter(u, k, l))
  {
    hide Refusal, RunFrom, SpendFor, Finished, Inc, LogEvent, Count;
    var why := Refusal(u.guard, Inbound(u, k));
    var l1 := l.(tickets := l.tickets[k.id := RowFrom(Refused(u, k, why.value), 0.0)]);
    assert Persisted(l, k.id, Refused(u, k, why.value), 0.0) == l1;
    EventExtends(l1, EventRow(k.id, InjectionRefused, why));
  }

  lemma GateExtends(u: Setup, id: string, s: CaseState, l: Ledger)
    ensures var m, e := GateLog(u, id, s, l), EventRow(id, OutboundLeakBlocked, Leak(u.guard, Outbound(u, s)));
      Extends(l, m, [], if Withheld(u, s) then [e] else []) && SameRest(l, m)
  {
    hide Leak, Withheld, Outbound;
    EventExtends(l, EventRow(id, OutboundLeakBlocked, Leak(u.guard, Outbound(u, s))));
  }

  lemma SourceCounted(l: Ledger, k: Case)
    ensures Sources(l.(tokenSources := Inc(l.tokenSources, Source(k), 1))) == Sources(l) + 1
  {
    hide HasUsage;
  }

  lemma PersistedExtends(l: Ledger, id: string, s: CaseState, cost: real)
    requires s.decision.Some?
    ensures var m := Persisted(l, id, s, cost);
      && Extends(l, m, RowsOf(id, s.toolCalls), EventsOf(id, s.toolCalls))
      && SameRest(l.(tickets := l.tickets[id := RowFrom(s, cost)]), m)
  {
    hide LogTools, Count, RowsOf, EventsOf;
    ToolsExtend(l.(tickets := l.tickets[id := RowFrom(s, cost)]), id, s.toolCalls);
  }

  lemma AnsweredCase(u: Setup, k: Case, l: Ledger)
    requires !Refuses(u, k)
    ensures OneCase(u, k, l, LedgerAfter(u, k, l))
  {
    hide Refusal, RunFrom, SpendFor, Finished, Inc, Extends, GateLog, Count, Persisted, RowsOf, EventsOf, Leak,
      Withheld, Outbound, Sources, Source, At;
    var s0, s := Finished(u, k), Gated(u, Finished(u, k));
    var l0 := GateLog(u, k.id, s0, l);
    var l1 := l0.(tokenSources := Inc(l0.tokenSources, Source(k), 1));
    var m := Persisted(l1, k.id, s, SpendFor(u, k, s.draft).cost);
    GateExtends(u, k.id, s0, l);
    SourceCounted(l0, k);
    PersistedExtends(l1, k.id, s, SpendFor(u, k, s.draft).cost);
    RefusedIffInjection(u, k);
    var e := if Withheld(u, s0) then [EventRow(k.id, OutboundLeakBlocked, Leak(u.guard, Outbound(u, s0)))] else [];
    SameExtends(l, l0, l, l1, [], e);
    ExtendsTrans(l, l1, m, [], e, RowsOf(k.id, s.toolCalls), EventsOf(k.id, s.toolCalls));
    assert [] + RowsOf(k.id, s.toolCalls) == RowsOf(k.id, s.toolCalls);
    SameExtends(l, m, l, LedgerAfter(u, k, l), RowsOf(k.id, s.toolCalls), NewEvents(u, k));
    SameSources(l, l0);
    SameSources(l1, LedgerAfter(u, k, l));
  }

  lemma SameSources(l: Ledger, m: Ledger)
    requires l.tokenSources == m.tokenSources
    ensures Sources(l) == Sources(m)
  {
  }

  // Only the two logs and their counters matter.
  lemma SameExtends(l: Ledger, m: Ledger, l': Ledger, m': Ledger, rows: seq<ToolRow>, events: seq<EventRow>)
    requires Extends(l, m, rows, events) && Logs(l) == Logs(l') && Logs(m) == Logs(m')
    ensures Extends(l', m', rows, events)
  {
  }

  function Logs(l: Ledger): (seq<ToolRow>, seq<EventRow>, map<EventKind, nat>, map<(string, Status), nat>) {
    (l.toolCalls, l.events, l.eventCounts, l.toolCounts)
  }

  lemma EveryCase(u: Setup, k: Case, l: Ledger)
    ensures OneCase(u, k, l, LedgerAfter(u, k, l))
  {
    hide OneCase, LedgerAfter, Refuses;
    if Refuses(u, k) { RefusedCase(u, k, l); } else { AnsweredCase(u, k, l); }
  }

  /* ---- the stored trail ---- */

  function CallsIn(rows: seq<ToolRow>): seq<CallRecord> {
    seq(|rows|, i requires 0 <= i < |rows| => rows[i].call)
  }

  // The rows that a case adds name exactly the tools it ran, unless the graph raised after
  // the model had planned a call to an allowlisted tool.
  lemma StoredTrailIff(u: Setup, k: Case, l: Ledger)
    ensures l.toolCalls <= LedgerAfter(u, k, l).toolCalls
    ensures RanIn(CallsIn(LedgerAfter(u, k, l).toolCalls[|l.toolCalls|..])) == Asked(u, k).1 <==>
      Refuses(u, k) || RunOf(u, k).Going? || PlannedRuns(u, k) == []
  {
    hide LedgerAfter, ResponseFor, Refuses, Asked, RanIn, NewEvents, RunOf, Count, PlannedRuns;
    EveryCase(u, k, l);
    TrailCompleteIff(u, k);
    var calls := ResponseFor(u, k).toolCalls;
    assert LedgerAfter(u, k, l).toolCalls[|l.toolCalls|..] == RowsOf(k.id, calls);
    assert CallsIn(RowsOf(k.id, calls)) == calls;
  }

  /* ---- balanced books ---- */

  // Every counter is the number of rows that it stands for.
  ghost predicate CountersMatch(l: Ledger) {
    && (forall kind :: At(l.eventCounts, kind) == Count(l.events, OfKind(kind)))
    && (forall tool, status :: At(l.toolCounts, (tool, status)) == Count(l.toolCalls, OfTool(tool, status)))
    && (forall d :: At(l.cases, d) == |TicketsWith(l.tickets, d)|)
  }

  predicate Has(tickets: map<string, TicketRow>, id: string, d: Decision) { id in tickets && tickets[id].decision == d }

  // What the security log says of a ticket is what the tool log and the ticket say.
  ghost predicate TrailOf(l: Ledger, id: string) {
    && Count(l.events, OfCase(id, ToolBlocked)) == Count(l.toolCalls, CallOfCase(id, Blocked))
    && Count(l.events, OfCase(id, ToolOutputSanitized)) == Count(l.toolCalls, CallOfCase(id, Sanitized))
    && Count(l.events, OfCase(id, InjectionRefused)) == (if Has(l.tickets, id, REFUSE) then 1 else 0)
    && Count(l.events, OfCase(id, OutboundLeakBlocked)) ==
         (if id in l.tickets && SaysWithheld(l.tickets[id].reason) then 1 else 0)
    && (id in l.tickets && SaysWithheld(l.tickets[id].reason) ==>
         l.tickets[id].decision == ESCALATE && l.tickets[id].reply == None)
  }

  // The same over all tickets, and the tickets against the money and the usage counters.
  ghost predicate Totals(l: Ledger) {
    && Count(l.events, OfKind(ToolBlocked)) == Count(l.toolCalls, OfStatus(Blocked))
    && Count(l.events, OfKind(ToolOutputSanitized)) == Count(l.toolCalls, OfStatus(Sanitized))
    && Count(l.events, OfKind(InjectionRefused)) == |TicketsWith(l.tickets, REFUSE)|
    && Sources(l) + |TicketsWith(l.tickets, REFUSE)| == |l.tickets|
    && l.cost == Billed(l.tickets)
  }

  ghost predicate Balanced(l: Ledger) {
    CountersMatch(l) && (forall id :: TrailOf(l, id)) && Totals(l)
  }

  /* ---- tickets ---- */

  lemma NewTicket(tickets: map<string, TicketRow>, id: string, row: TicketRow, d: Decision)
    requires id !in tickets
    ensures |TicketsWith(tickets[id := row], d)| == |TicketsWith(tickets, d)| + if row.decision == d then 1 else 0
  {
    var was, now := TicketsWith(tickets, d), TicketsWith(tickets[id := row], d);
    if row.decision == d { assert now == was + {id}; } else { assert now == was; }
  }

  lemma {:induction false} BilledWithout(tickets: map<string, TicketRow>, id: string)
    requires id in tickets
    ensures Billed(tickets) == tickets[id].cost + Billed(tickets - {id})
    decreases |tickets|
  {
    var first :| first in tickets && Billed(tickets) == tickets[first].cost + Billed(tickets - {first});
    if first != id {
      BilledWithout(tickets - {first}, id);
      BilledWithout(tickets - {id}, first);
      assert tickets - {first} - {id} == tickets - {id} - {first};
    }
  }

  lemma NewTicketBilled(tickets: map<string, TicketRow>, id: string, row: TicketRow)
    requires id !in tickets
    ensures Billed(tickets[id := row]) == Billed(tickets) + row.cost && |tickets[id := row]| == |tickets| + 1
  {
    BilledWithout(tickets[id := row], id);
    assert tickets[id := row] - {id} == tickets;
  }

  lemma Partition(tickets: map<string, TicketRow>)
    ensures |tickets| ==
      |TicketsWith(tickets, RESOLVED)| + |TicketsWith(tickets, ESCALATE)| + |TicketsWith(tickets, REFUSE)|
  {
    var a, b, c := TicketsWith(tickets, RESOLVED), TicketsWith(tickets, ESCALATE), TicketsWith(tickets, REFUSE);
    assert a + b + c == tickets.Keys;
    assert |tickets.Keys| == |tickets|;
  }

  /* ---- events against calls ---- */

  // Two tests that agree call by call count alike.
  lemma {:induction false} EventsMatchRows(id: string, calls: seq<CallRecord>, p: EventRow -> bool, q: ToolRow -> bool)
    requires forall call :: Count(EventOf(id, call), p) == if q(ToolRow(id, call)) then 1 else 0
    ensures Count(EventsOf(id, calls), p) == Count(RowsOf(id, calls), q)
  {
    hide EventOf;
    if calls != [] {
      var init, last := calls[..|calls| - 1], calls[|calls| - 1];
      EventsMatchRows(id, init, p, q);
      CountAdd(EventsOf(id, init), EventOf(id, last), p);
      assert RowsOf(id, calls)[..|calls| - 1] == RowsOf(id, init);
    }
  }

  lemma EventCount(id: string, call: CallRecord, p: EventRow -> bool)
    ensures Count(EventOf(id, call), p) ==
      if call.status == Blocked && p(EventRow(id, ToolBlocked, Some("tool=" + call.tool))) then 1
      else if call.status == Sanitized && p(EventRow(id, ToolOutputSanitized, Some("tool=" + call.tool))) then 1 else 0
  {
    if EventOf(id, call) != [] { CountOne(EventOf(id, call)[0], p); }
  }

  predicate Reports(status: Status, kind: EventKind) {
    (status == Blocked && kind == ToolBlocked) || (status == Sanitized && kind == ToolOutputSanitized)
  }

  function Never(): ToolRow -> bool { (r: ToolRow) => false }

  lemma CaseEventCounts(id: string, calls: seq<CallRecord>, x: string)
    ensures Count(EventsOf(id, calls), OfCase(x, ToolBlocked)) == Count(RowsOf(id, calls), CallOfCase(x, Blocked))
    ensures Count(EventsOf(id, calls), OfCase(x, ToolOutputSanitized)) ==
      Count(RowsOf(id, calls), CallOfCase(x, Sanitized))
    ensures Count(EventsOf(id, calls), OfCase(x, InjectionRefused)) == 0
    ensures Count(EventsOf(id, calls), OfCase(x, OutboundLeakBlocked)) == 0
  {
    hide Count, EventsOf, RowsOf, EventOf;
    forall call, kind
      ensures Count(EventOf(id, call), OfCase(x, kind)) ==
        if id == x && Reports(call.status, kind) then 1 else 0
    {
      EventCount(id, call, OfCase(x, kind));
    }
    EventsMatchRows(id, calls, OfCase(x, ToolBlocked), CallOfCase(x, Blocked));
    EventsMatchRows(id, calls, OfCase(x, ToolOutputSanitized), CallOfCase(x, Sanitized));
    EventsMatchRows(id, calls, OfCase(x, InjectionRefused), Never());
    EventsMatchRows(id, calls, OfCase(x, OutboundLeakBlocked), Never());
    CountNone(RowsOf(id, calls), Never());
  }

  lemma KindCounts(id: string, calls: seq<CallRecord>)
    ensures Count(EventsOf(id, calls), OfKind(ToolBlocked)) == Count(RowsOf(id, calls), OfStatus(Blocked))
    ensures Count(EventsOf(id, calls), OfKind(ToolOutputSanitized)) == Count(RowsOf(id, calls), OfStatus(Sanitized))
    ensures Count(EventsOf(id, calls), OfKind(InjectionRefused)) == 0
  {
    hide Count, EventsOf, RowsOf, EventOf;
    forall call, kind
      ensures Count(EventOf(id, call), OfKind(kind)) ==
        if Reports(call.status, kind) then 1 else 0
    {
      EventCount(id, call, OfKind(kind));
    }
    EventsMatchRows(id, calls, OfKind(ToolBlocked), OfStatus(Blocked));
    EventsMatchRows(id, calls, OfKind(ToolOutputSanitized), OfStatus(Sanitized));
    EventsMatchRows(id, calls, OfKind(InjectionRefused), Never());
    CountNone(RowsOf(id, calls), Never());
  }

  // The event that a refusal or a withheld reply leads, if there is one.
  ghost function LeadEvent(u: Setup, k: Case): seq<EventRow> {
    var refusal, s := Refusal(u.guard, Inbound(u, k)), Finished(u, k);
    if refusal.Some? then [EventRow(k.id, InjectionRefused, refusal)]
    else if Withheld(u, s) then [EventRow(k.id, OutboundLeakBlocked, Leak(u.guard, Outbound(u, s)))] else []
  }

  lemma NewEventsAre(u: Setup, k: Case)
    ensures NewEvents(u, k) == LeadEvent(u, k) + EventsOf(k.id, ResponseFor(u, k).toolCalls)
    ensures var lead, r := LeadEvent(u, k), ResponseFor(u, k);
      && |lead| <= 1
      && (|lead| == 1 ==> lead[0].ticketId == k.id && lead[0].kind in {InjectionRefused, OutboundLeakBlocked})
      && ((|lead| == 1 && lead[0].kind == InjectionRefused) <==> r.decision == REFUSE)
      && ((|lead| == 1 && lead[0].kind == OutboundLeakBlocked) <==> SaysWithheld(r.reason))
      && (SaysWithheld(r.reason) ==> r.decision == ESCALATE && r.reply == None)
  {
    hide Refusal, RunFrom, SpendFor, Finished, EventsOf, Leak, SaysWithheld;
    RefusedIffInjection(u, k);
    WithheldIff(u, k);
    assert EventsOf(k.id, []) == [] by { NoCallsNoEvents(k.id); }
  }

  lemma NoCallsNoEvents(id: string)
    ensures EventsOf(id, []) == []
  {
  }

  lemma LeadCount(lead: seq<EventRow>, p: EventRow -> bool)
    requires |lead| <= 1
    ensures Count(lead, p) == if |lead| == 1 && p(lead[0]) then 1 else 0
  {
    if |lead| == 1 { CountOne(lead[0], p); assert lead == [lead[0]]; }
  }

  /* ---- every case keeps the books balanced ---- */

  lemma TrailKept(u: Setup, k: Case, l: Ledger, m: Ledger, x: string)
    requires OneCase(u, k, l, m) && k.id !in l.tickets && TrailOf(l, x)
    ensures TrailOf(m, x)
  {
    hide ResponseFor, NewEvents, LeadEvent, Count, EventsOf, RowsOf, Sources, Inc, At, SaysWithheld;
    var r := ResponseFor(u, k);
    var lead, more, rows := LeadEvent(u, k), EventsOf(k.id, r.toolCalls), RowsOf(k.id, r.toolCalls);
    NewEventsAre(u, k);
    CaseEventCounts(k.id, r.toolCalls, x);
    forall kind
      ensures Count(m.events, OfCase(x, kind)) ==
        Count(l.events, OfCase(x, kind)) + Count(more, OfCase(x, kind)) +
          if |lead| == 1 && k.id == x && lead[0].kind == kind then 1 else 0
    {
      CountAdd(l.events, lead + more, OfCase(x, kind));
      CountAdd(lead, more, OfCase(x, kind));
      LeadCount(lead, OfCase(x, kind));
    }
    CountAdd(l.toolCalls, rows, CallOfCase(x, Blocked));
    CountAdd(l.toolCalls, rows, CallOfCase(x, Sanitized));
  }

  lemma CountersKept(u: Setup, k: Case, l: Ledger, m: Ledger)
    requires OneCase(u, k, l, m) && k.id !in l.tickets && CountersMatch(l)
    ensures CountersMatch(m)
  {
    hide ResponseFor, NewEvents, Count, RowsOf, Sources, TicketsWith;
    var rows, events := RowsOf(k.id, ResponseFor(u, k).toolCalls), NewEvents(u, k);
    forall kind ensures At(m.eventCounts, kind) == Count(m.events, OfKind(kind)) {
      CountAdd(l.events, events, OfKind(kind));
    }
    forall tool, status ensures At(m.toolCounts, (tool, status)) == Count(m.toolCalls, OfTool(tool, status)) {
      CountAdd(l.toolCalls, rows, OfTool(tool, status));
    }
    forall d ensures At(m.cases, d) == |TicketsWith(m.tickets, d)| {
      NewTicket(l.tickets, k.id, m.tickets[k.id], d);
    }
  }

  lemma TotalsKept(u: Setup, k: Case, l: Ledger, m: Ledger)
    requires OneCase(u, k, l, m) && k.id !in l.tickets && Totals(l)
    ensures Totals(m)
  {
    hide ResponseFor, NewEvents, LeadEvent, Count, RowsOf, EventsOf, Sources, TicketsWith, Billed, At, Inc;
    var r := ResponseFor(u, k);
    var lead, more, rows := LeadEvent(u, k), EventsOf(k.id, r.toolCalls), RowsOf(k.id, r.toolCalls);
    NewEventsAre(u, k);
    KindCounts(k.id, r.toolCalls);
    forall kind
      ensures Count(m.events, OfKind(kind)) ==
        Count(l.events, OfKind(kind)) + Count(more, OfKind(kind)) + if |lead| == 1 && lead[0].kind == kind then 1 else 0
    {
      CountAdd(l.events, lead + more, OfKind(kind));
      CountAdd(lead, more, OfKind(kind));
      LeadCount(lead, OfKind(kind));
    }
    CountAdd(l.toolCalls, rows, OfStatus(Blocked));
    CountAdd(l.toolCalls, rows, OfStatus(Sanitized));
    NewTicket(l.tickets, k.id, m.tickets[k.id], REFUSE);
    NewTicketBilled(l.tickets, k.id, m.tickets[k.id]);
  }

  lemma TicketSet(u: Setup, k: Case, l: Ledger, m: Ledger)
    requires OneCase(u, k, l, m)
    ensures k.id in m.tickets && m.tickets == l.tickets[k.id := m.tickets[k.id]]
    ensures m.cases == Inc(l.cases, m.tickets[k.id].decision, 1)
  {
  }

  // Balanced books stay balanced exactly if the id of the case is new.
  lemma CaseKeepsBalanceIff(u: Setup, k: Case, l: Ledger)
    requires Balanced(l)
    ensures Balanced(LedgerAfter(u, k, l)) <==> k.id !in l.tickets
  {
    hide OneCase, LedgerAfter, ResponseFor, CountersMatch, Totals, TrailOf, Inc;
    var m := LedgerAfter(u, k, l);
    EveryCase(u, k, l);
    if k.id !in l.tickets {
      CountersKept(u, k, l, m);
      TotalsKept(u, k, l, m);
      forall x ensures TrailOf(m, x) { TrailKept(u, k, l, m, x); }
    } else {
      TicketSet(u, k, l, m);
      UsedIdUnbalances(l, m, k.id, m.tickets[k.id]);
    }
  }

  // One more case is counted, but there is no more ticket.
  lemma UsedIdUnbalances(l: Ledger, m: Ledger, id: string, row: TicketRow)
    requires id in l.tickets && CountersMatch(l)
    requires m.tickets == l.tickets[id := row] && m.cases == Inc(l.cases, row.decision, 1)
    ensures !CountersMatch(m)
  {
    hide Count, TicketsWith;
    Partition(l.tickets);
    Partition(m.tickets);
    assert m.tickets.Keys == l.tickets.Keys;
    assert |m.tickets| == |m.tickets.Keys| == |l.tickets|;
    assert row.decision == RESOLVED || row.decision == ESCALATE || row.decision == REFUSE;
    assert At(m.cases, RESOLVED) + At(m.cases, ESCALATE) + At(m.cases, REFUSE) ==
      At(l.cases, RESOLVED) + At(l.cases, ESCALATE) + At(l.cases, REFUSE) + 1;
  }

  // The books after a sequence of cases.
  ghost function After(u: Setup, ks: seq<Case>, l: Ledger): Ledger {
    if ks == [] then l else LedgerAfter(u, ks[|ks| - 1], After(u, ks[..|ks| - 1], l))
  }

  lemma EmptyBalanced()
    ensures Balanced(EMPTY)
  {
  }

  predicate Distinct(ks: seq<Case>) { forall i, j :: 0 <= i < j < |ks| ==> ks[i].id != ks[j].id }

  // After any sequence of cases with ids of their own the books balance; every ticket is
  // one of the cases, and says what its case was answered.
  lemma {:induction false} AlwaysBalanced(u: Setup, ks: seq<Case>)
    requires Distinct(ks)
    ensures var l := After(u, ks, EMPTY);
      && Balanced(l) && |l.tickets| == |ks|
      && (forall id :: id in l.tickets ==> exists i :: 0 <= i < |ks| && ks[i].id == id)
      && forall i :: 0 <= i < |ks| ==> ks[i].id in l.tickets && Answered(u, ks[i], l.tickets[ks[i].id])
  {
    hide LedgerAfter, Balanced, Answered, EMPTY;
    EmptyBalanced();
    if ks == [] {
      NoTickets();
    } else {
      var init, k := ks[..|ks| - 1], ks[|ks| - 1];
      AlwaysBalanced(u, init);
      var l := After(u, init, EMPTY);
      CaseKeepsBalanceIff(u, k, l);
      AnsweredAfter(u, k, l);
      var m := After(u, ks, EMPTY);
      forall i | 0 <= i < |ks| ensures ks[i].id in m.tickets && Answered(u, ks[i], m.tickets[ks[i].id]) {
        if i < |ks| - 1 { assert init[i] == ks[i]; }
      }
      forall id | id in m.tickets ensures exists i :: 0 <= i < |ks| && ks[i].id == id {
        if id != k.id {
          var i :| 0 <= i < |init| && init[i].id == id;
          assert ks[i].id == id;
        }
      }
    }
  }

  lemma NoTickets()
    ensures EMPTY.tickets == map[]
  {
  }

  // A row agrees with the response of its case.
  ghost predicate Answered(u: Setup, k: Case, row: TicketRow) {
    var r := ResponseFor(u, k);
    row == TicketRow(Inbound(u, k), r.category, r.decision, r.reply, r.reason, r.iterations, r.cost)
  }

  lemma AnsweredAfter(u: Setup, k: Case, l: Ledger)
    ensures exists row :: Answered(u, k, row) && LedgerAfter(u, k, l).tickets == l.tickets[k.id := row]
  {
    hide LedgerAfter, ResponseFor;
    StoredAsAnswered(u, k, l);
    var row := LedgerAfter(u, k, l).tickets[k.id];
    assert Answered(u, k, row);
  }

  /* ---- money against tokens ---- */

  // The cost counter is the price of the two token counters.
  ghost predicate Priced(u: Setup, l: Ledger) {
    l.cost == Accounting.EstimateCost(At(l.tokens, "prompt"), At(l.tokens, "completion"), u.model, u.provider)
  }

  lemma LogsKeepTokens(l: Ledger, id: string, s: CaseState, cost: real)
    requires s.decision.Some?
    ensures Persisted(l, id, s, cost).tokens == l.tokens && Persisted(l, id, s, cost).cost == l.cost
  {
    hide LogTools;
    ToolsExtend(l.(tickets := l.tickets[id := RowFrom(s, cost)]), id, s.toolCalls);
  }

  lemma TokensCounted(tokens: map<string, nat>, p: nat, c: nat)
    ensures var t := IncBy(IncBy(tokens, "prompt", p), "completion", c);
      At(t, "prompt") == At(tokens, "prompt") + p && At(t, "completion") == At(tokens, "completion") + c
  {
  }

  // Prices add up without rounding, so that a case keeps the two in step, also where its
  // id has been used.
  lemma CaseKeepsPrice(u: Setup, k: Case, l: Ledger)
    requires Priced(u, l)
    ensures Priced(u, LedgerAfter(u, k, l))
  {
    hide Refusal, Finished, Gated, Accounting.EstimateCost, HasUsage, Persisted, GateLog, IncBy, Inc, At, CountTokens,
      Source;
    if Refuses(u, k) {
      LogsKeepTokens(l, k.id, Refused(u, k, Refusal(u.guard, Inbound(u, k)).value), 0.0);
    } else {
      var s := Gated(u, Finished(u, k));
      var spend := SpendFor(u, k, s.draft);
      var l0 := GateLog(u, k.id, Finished(u, k), l);
      var l1 := l0.(tokenSources := Inc(l0.tokenSources, Source(k), 1));
      GateExtends(u, k.id, Finished(u, k), l);
      LogsKeepTokens(l1, k.id, s, spend.cost);
      TokensCounted(l.tokens, spend.prompt, spend.completion);
      var p, c := At(l.tokens, "prompt"), At(l.tokens, "completion");
      Accounting.CostAdds(p, c, spend.prompt, spend.completion, u.model, u.provider);
    }
  }

  lemma {:induction false} AlwaysPriced(u: Setup, ks: seq<Case>)
    ensures Priced(u, After(u, ks, EMPTY))
  {
    hide LedgerAfter, Accounting.EstimateCost;
    if ks == [] {
      hide Priced;
      EmptyPriced(u);
    } else {
      AlwaysPriced(u, ks[..|ks| - 1]);
      CaseKeepsPrice(u, ks[|ks| - 1], After(u, ks[..|ks| - 1], EMPTY));
    }
  }

  lemma EmptyPriced(u: Setup)
    ensures Priced(u, EMPTY)
  {
    hide Accounting.EstimateCost;
    var a, b := Accounting.CostIsExact(0, 0, u.model, u.provider);
  }

  /* ---- usage ---- */

  // Something counted case by case.
  function SumOf(ks: seq<Case>, f: Case -> nat): nat {
    if ks == [] then 0 else SumOf(ks[..|ks| - 1], f) + f(ks[|ks| - 1])
  }

  function CallsReported(u: Setup): Case -> nat { (k: Case) => if Refuses(u, k) then 0 else |k.reports| }

  predicate AnyTokens(k: Case) {
    Accounting.TotalPrompt(k.reports) > 0 || Accounting.TotalCompletion(k.reports) > 0
  }

  function ByProvider(u: Setup): Case -> nat { (k: Case) => if !Refuses(u, k) && AnyTokens(k) then 1 else 0 }

  function ByEstimate(u: Setup): Case -> nat { (k: Case) => if !Refuses(u, k) && !AnyTokens(k) then 1 else 0 }

  lemma LogsKeepUsage(l: Ledger, id: string, s: CaseState, cost: real)
    requires s.decision.Some?
    ensures var m := Persisted(l, id, s, cost); m.llmCalls == l.llmCalls && m.tokenSources == l.tokenSources
  {
    hide LogTools;
    ToolsExtend(l.(tickets := l.tickets[id := RowFrom(s, cost)]), id, s.toolCalls);
  }

  lemma SourceRule(sources: map<string, nat>, k: Case)
    ensures var t := Inc(sources, Source(k), 1);
      && At(t, "provider") == At(sources, "provider") + (if AnyTokens(k) then 1 else 0)
      && At(t, "estimated") == At(sources, "estimated") + (if AnyTokens(k) then 0 else 1)
  {
  }

  // One case adds the calls that were reported for it, and one to the source of its tokens.
  lemma CaseUsage(u: Setup, k: Case, l: Ledger)
    ensures var m := LedgerAfter(u, k, l);
      && m.llmCalls == l.llmCalls + CallsReported(u)(k)
      && At(m.tokenSources, "provider") == At(l.tokenSources, "provider") + ByProvider(u)(k)
      && At(m.tokenSources, "estimated") == At(l.tokenSources, "estimated") + ByEstimate(u)(k)
  {
    hide Refusal, Finished, Gated, SpendFor, Persisted, GateLog, IncBy, Inc, At, Source, AnyTokens;
    if Refuses(u, k) {
      LogsKeepUsage(l, k.id, Refused(u, k, Refusal(u.guard, Inbound(u, k)).value), 0.0);
    } else {
      var s := Gated(u, Finished(u, k));
      var l0 := GateLog(u, k.id, Finished(u, k), l);
      var l1 := l0.(tokenSources := Inc(l0.tokenSources, Source(k), 1));
      GateExtends(u, k.id, Finished(u, k), l);
      SourceRule(l.tokenSources, k);
      LogsKeepUsage(l1, k.id, s, SpendFor(u, k, s.draft).cost);
    }
  }

  // After any cases the usage counters are the sums over the cases.
  lemma {:induction false} AlwaysCounted(u: Setup, ks: seq<Case>)
    ensures var l := After(u, ks, EMPTY);
      && l.llmCalls == SumOf(ks, CallsReported(u))
      && At(l.tokenSources, "provider") == SumOf(ks, ByProvider(u))
      && At(l.tokenSources, "estimated") == SumOf(ks, ByEstimate(u))
  {
    hide LedgerAfter, Refuses, AnyTokens;
    if ks != [] {
      AlwaysCounted(u, ks[..|ks| - 1]);
      CaseUsage(u, ks[|ks| - 1], After(u, ks[..|ks| - 1], EMPTY));
    }
  }
}

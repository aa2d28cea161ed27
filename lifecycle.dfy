/** The handler: the method gate, then the Down path (resolve the company,
    file a ticket, remember it in the correlation store, or escalate by email)
    and the Up path (close the remembered tickets and forget them). Every
    answer from outside (the company directory, locations, contracts, the
    monitoring service's details, the ticket system's replies, the clock and
    fresh ids) is a field of an `Environment`. The requests to the ticketing
    system and the escalation email are recorded as `Call`s; the monitoring
    service's answers are inputs, and the correlation store is a class. */
module Lifecycle {
  import opened Optional
  import opened Seqs
  import opened Text
  import opened Downtime
  import opened Diagnostics
  import opened Request
  import opened Resolver
  import opened Enricher
  import opened Tickets
  import opened Correlation

  /** A request sent to the ticketing system or the email service. */
  datatype Call =
    | QueryCompanies(query: CompanyQuery)
    | QueryLocations(companyId: int)
    | QueryContracts(companyId: int)
    | CreateTicket(ticket: NewTicket)
    | SendEmail(subject: string, html: string)
    | QueryTickets(ticketId: int)
    | AddNote(noteTicketId: int, note: Note)
    | UpdateStatus(updateTicketId: int, status: int)

  /** What the outside world answers during one call of the handler.
      `useApi` is the outcome of the ticketing-system credential check;
      `created` is the id the ticket creation returned (`None` when it failed);
      `newId` is the fresh id of a new correlation record; `now` is the clock. */
  datatype Environment = Environment(
    useApi: bool,
    directory: CompanyQuery -> seq<Company>,
    locationsOf: int -> seq<Location>,
    defaultContractsOf: int -> seq<int>,
    uptime: Option<string>,
    alerts: Option<seq<Alert>>,
    renderTime: int -> string,
    now: int,
    created: Option<int>,
    newId: string,
    ticketsOf: int -> seq<Ticket>)

  const DownStatus: string := "Down"
  const UpStatus: string := "Up"

  // ---------------------------------------------------------------------
  // Down

  function CompanyOf(req: Request, env: Environment): Resolution
  {
    ResolveCompany(TagsOf(req.tags), req.name, env.directory, env.useApi)
  }

  /** The location chosen for the company; nothing is looked up without the ticketing system. */
  function LocationFor(env: Environment, companyId: int): Option<Location>
  {
    if env.useApi then SelectLocation(env.locationsOf(companyId)) else None
  }

  function ContractFor(env: Environment, companyId: int): Option<int>
  {
    if env.useApi then ContractId(env.defaultContractsOf(companyId)) else None
  }

  /** The ticket filed for an outage under `company`. The configuration item
      is never set: the device lookup of the handler cannot run. */
  function TicketOf(req: Request, env: Environment, company: Company): NewTicket
  {
    var target := ProbeTarget(req.ip, req.url);
    var notes := DiagnosticNotes(env.uptime, env.alerts, env.now, env.renderTime);
    NewTicket(company.id, LocationId(LocationFor(env, company.id)), NewPriority, NewStatus,
              ContractFor(env, company.id), None, Title(req.name),
              Description(req.name, TargetKind(target), target, req.statusCode, notes))
  }

  function TicketFor(req: Request, env: Environment): NewTicket
  {
    TicketOf(req, env, CompanyOf(req, env).company)
  }

  /** The id of the new ticket, when its creation returned one that is not 0. */
  function CreatedTicketId(env: Environment): Option<int>
  {
    if env.created.Some? && env.created.value != 0 then env.created else None
  }

  function LookupCalls(queries: seq<CompanyQuery>): seq<Call>
  {
    seq(|queries|, i requires 0 <= i < |queries| => QueryCompanies(queries[i]))
  }

  /** The location and contract lookups, made only with a usable ticketing system. */
  function ContextCalls(env: Environment, companyId: int): seq<Call>
  {
    if env.useApi then [QueryLocations(companyId), QueryContracts(companyId)] else []
  }

  /** The email that replaces a ticket that could not be created. */
  function Escalation(ticket: NewTicket): Call
  {
    SendEmail(ticket.title, HtmlLineBreaks(ticket.description))
  }

  /** The requests made once the company lookups are done. */
  function FilingCalls(req: Request, env: Environment, r: Resolution): seq<Call>
  {
    var ticket := TicketOf(req, env, r.company);
    LookupCalls(r.queries) + ContextCalls(env, r.company.id) + [CreateTicket(ticket)]
      + (if CreatedTicketId(env).None? then [Escalation(ticket)] else [])
  }

  /** The requests of the Down path: the company lookups, the location and
      contract lookups, the ticket creation and, when that failed, the email. */
  function DownCalls(req: Request, env: Environment): seq<Call>
  {
    FilingCalls(req, env, CompanyOf(req, env))
  }

  function DownRecord(req: Request, env: Environment, ticketId: int): Record
  {
    Record(env.newId, req.testId, req.name, req.url, req.ip, ticketId, env.now)
  }

  /** The store after the Down path: one record more exactly when a ticket was created. */
  function DownRecords(req: Request, env: Environment, records: seq<Record>): seq<Record>
  {
    match CreatedTicketId(env)
    case None => records
    case Some(id) => records + [DownRecord(req, env, id)]
  }

  /** The location and contract steps for the company found. */
  method LookUpContext(env: Environment, companyId: int)
    returns (location: Option<Location>, contractId: Option<int>, calls: seq<Call>)
    ensures location == LocationFor(env, companyId)
    ensures (if contractId.Some? && contractId.value != 0 then contractId else None) == ContractFor(env, companyId)
    ensures calls == ContextCalls(env, companyId)
  {
    location := None;
    contractId := None;
    calls := [];
    if env.useApi {
      calls := calls + [QueryLocations(companyId)];
      location := PickLocation(env.locationsOf(companyId));
      calls := calls + [QueryContracts(companyId)];
      var contracts := env.defaultContractsOf(companyId);
      if |contracts| > 0 {
        contractId := Some(contracts[0]);
      }
    }
  }

  /** The ticket composed for the company found. */
  method ComposeTicket(req: Request, env: Environment, company: Company) returns (ticket: NewTicket, calls: seq<Call>)
    ensures ticket == TicketOf(req, env, company)
    ensures calls == ContextCalls(env, company.id)
  {
    var location, contractId;
    location, contractId, calls := LookUpContext(env, company.id);
    var notes := BuildNotes(env.uptime, env.alerts, env.now, env.renderTime);
    var title := Title(req.name);
    var target := ProbeTarget(req.ip, req.url);
    var description := Description(req.name, TargetKind(target), target, req.statusCode, notes);
    ticket := NewTicket(company.id, LocationId(location), NewPriority, NewStatus,
                        if contractId.Some? && contractId.value != 0 then contractId else None,
                        None, title, description);
  }

  /** The Down path as the handler performs it. */
  method Down(req: Request, env: Environment, store: CorrelationStore) returns (calls: seq<Call>)
    requires store.Valid() && KeyFree(store.records, env.newId, req.testId)
    modifies store
    ensures store.Valid()
    ensures calls == DownCalls(req, env)
    ensures store.records == DownRecords(req, env, old(store.records))
  {
    var tags := TagsOf(req.tags);
    var company, queries := FindCompany(tags, req.name, env.directory, env.useApi);
    ghost var r := Resolution(company, queries);
    assert r == CompanyOf(req, env);
    calls := LookupCalls(queries);
    var ticket, context := ComposeTicket(req, env, company);
    calls := calls + context + [CreateTicket(ticket)];
    var ticketId := env.created;
    if ticketId.None? || ticketId.value == 0 {
      calls := calls + [SendEmail(ticket.title, HtmlLineBreaks(ticket.description))];
      ticketId := None;
    }
    assert calls == FilingCalls(req, env, r);
    if ticketId.Some? {
      var created := store.Create(Record(env.newId, req.testId, req.name, req.url, req.ip, ticketId.value, env.now));
    }
  }

  // ---------------------------------------------------------------------
  // Up

  /** The note and the status update of one ticket, when it is still open. */
  function TicketCalls(t: Ticket, downtime: string): seq<Call>
  {
    if IsOpen(t) then [AddNote(t.id, ClosingNote(downtime)), UpdateStatus(t.id, ClosingStatus(t))] else []
  }

  function TicketCallsAfter(downtime: string): Ticket -> seq<Call>
  {
    (t: Ticket) => TicketCalls(t, downtime)
  }

  /** The closing requests for the tickets found for one record, in order. */
  function ClosingCalls(tickets: seq<Ticket>, downtime: string): seq<Call>
  {
    ConcatMap(tickets, TicketCallsAfter(downtime))
  }

  /** The downtime reported for a record: the time since it was written. */
  function DowntimeOfRecord(rec: Record, env: Environment): string
  {
    DowntimeText(Abs(env.now - rec.createdAt))
  }

  /** The requests for one record: the query for its ticket, then the closing
      requests for what that query found. */
  function RecordCalls(rec: Record, env: Environment): seq<Call>
  {
    var tickets := env.ticketsOf(rec.ticketId);
    [QueryTickets(rec.ticketId)] + (if tickets == [] then [] else ClosingCalls(tickets, DowntimeOfRecord(rec, env)))
  }

  function RecordCallsIn(env: Environment): Record -> seq<Call>
  {
    (rec: Record) => RecordCalls(rec, env)
  }

  function RecordsCalls(found: seq<Record>, env: Environment): seq<Call>
  {
    ConcatMap(found, RecordCallsIn(env))
  }

  /** The requests of the Up path: none unless the ticketing system is usable and the test has records. */
  function UpCalls(testId: string, env: Environment, records: seq<Record>): seq<Call>
  {
    var found := Matching(records, testId);
    if env.useApi && found != [] then RecordsCalls(found, env) else []
  }

  /** The store after the Up path. */
  function UpRecords(testId: string, env: Environment, records: seq<Record>): seq<Record>
  {
    if env.useApi && Matching(records, testId) != [] then Filter(records, NotTest(testId)) else records
  }

  /** The closing of the tickets found for one record, one ticket after another. */
  method CloseTickets(tickets: seq<Ticket>, downtime: string) returns (calls: seq<Call>)
    ensures calls == ClosingCalls(tickets, downtime)
  {
    calls := [];
    var j := 0;
    while j < |tickets|
      invariant 0 <= j <= |tickets|
      invariant calls == ClosingCalls(tickets[..j], downtime)
    {
      var t := tickets[j];
      if t.status != CompleteStatus {
        calls := calls + [AddNote(t.id, ClosingNote(downtime))];
        calls := calls + [UpdateStatus(t.id, if IsAssigned(t) then AssignedClosingStatus else CompleteStatus)];
      }
      ConcatMapStep(tickets, j, TicketCallsAfter(downtime));
      j := j + 1;
    }
    assert tickets[..j] == tickets;
  }

  /** The ticket query for one record and the closing of what it finds. */
  method CloseRecord(rec: Record, env: Environment) returns (calls: seq<Call>)
    ensures calls == RecordCalls(rec, env)
  {
    calls := [QueryTickets(rec.ticketId)];
    var tickets := env.ticketsOf(rec.ticketId);
    if |tickets| > 0 {
      var downtime := FormatDowntime(env.now, rec.createdAt);
      assert downtime == DowntimeOfRecord(rec, env);
      var closing := CloseTickets(tickets, downtime);
      calls := calls + closing;
    }
  }

  /** A record is still stored after the records in `done` were deleted one by one. */
  function Undeleted(done: seq<Record>, testId: string): Record -> bool
  {
    (r: Record) => !(r.testId == testId && exists k :: 0 <= k < |done| && done[k].id == r.id)
  }

  /** The Up path as the handler performs it: each record of the test is
      handled and then deleted, whether or not its ticket was found or open. */
  method Up(testId: string, env: Environment, store: CorrelationStore) returns (calls: seq<Call>)
    requires store.Valid()
    modifies store
    ensures store.Valid()
    ensures calls == UpCalls(testId, env, old(store.records))
    ensures store.records == UpRecords(testId, env, old(store.records))
  {
    var found := store.FindByTest(testId);
    calls := [];
    if env.useApi && |found| > 0 {
      ghost var before := store.records;
      calls := ForgetRecords(found, testId, env, store);
      DeletedAll(before, testId);
    }
  }

  /** The loop over a test's records: the closing requests of each, then its deletion. */
  method ForgetRecords(found: seq<Record>, testId: string, env: Environment, store: CorrelationStore)
    returns (calls: seq<Call>)
    requires store.Valid()
    requires forall k :: 0 <= k < |found| ==> found[k].testId == testId
    modifies store
    ensures store.Valid()
    ensures calls == RecordsCalls(found, env)
    ensures store.records == Filter(old(store.records), Undeleted(found, testId))
  {
    FilterNothingDone(store.records, testId);
    calls := [];
    var i := 0;
    while i < |found|
      invariant 0 <= i <= |found|
      invariant store.Valid()
      invariant calls == RecordsCalls(found[..i], env)
      invariant store.records == Filter(old(store.records), Undeleted(found[..i], testId))
    {
      var rec := found[i];
      var recordCalls := CloseRecord(rec, env);
      calls := calls + recordCalls;
      var deleted := store.Delete(rec.id, testId);
      DeleteStep(old(store.records), found, i, testId);
      ConcatMapStep(found, i, RecordCallsIn(env));
      i := i + 1;
    }
    assert found[..i] == found;
  }

  /** Before any deletion every record is still there. */
  lemma FilterNothingDone(records: seq<Record>, testId: string)
    ensures Filter(records, Undeleted([], testId)) == records
  {
    FilterAllKept(records, Undeleted([], testId));
  }

  /** Deleting one more record is filtering by one more key. */
  lemma DeleteStep(records: seq<Record>, found: seq<Record>, i: nat, testId: string)
    requires i < |found| && found[i].testId == testId
    ensures Filter(Filter(records, Undeleted(found[..i], testId)), NotKey(found[i].id, testId))
            == Filter(records, Undeleted(found[..i + 1], testId))
  {
    var done, more, rec := found[..i], found[..i + 1], found[i];
    forall x | x in records
      ensures Undeleted(more, testId)(x) == (Undeleted(done, testId)(x) && NotKey(rec.id, testId)(x))
    {
      if exists k :: 0 <= k < |done| && done[k].id == x.id {
        var k :| 0 <= k < |done| && done[k].id == x.id;
        assert more[k] == done[k];
      }
      if exists k :: 0 <= k < |more| && more[k].id == x.id {
        var k :| 0 <= k < |more| && more[k].id == x.id;
        if k < |done| {
          assert done[k] == more[k];
        }
      }
      assert more[|done|] == rec;
    }
    FilterCompose(records, Undeleted(done, testId), NotKey(rec.id, testId), Undeleted(more, testId));
  }

  /** Once every record of the test was deleted, exactly the other tests' records remain. */
  lemma DeletedAll(records: seq<Record>, testId: string)
    ensures Filter(records, Undeleted(Matching(records, testId), testId)) == Filter(records, NotTest(testId))
  {
    var found := Matching(records, testId);
    forall x | x in records
      ensures Undeleted(found, testId)(x) == NotTest(testId)(x)
    {
      if x.testId == testId {
        assert x in found;
        var k :| 0 <= k < |found| && found[k] == x;
      }
    }
    FilterExt(records, Undeleted(found, testId), NotTest(testId));
  }

  // ---------------------------------------------------------------------
  // The handler

  datatype Outcome = Outcome(response: Response, calls: seq<Call>, records: seq<Record>)

  /** The answer, the requests sent out and the new store of one call of the handler. */
  function Handled(req: Request, env: Environment, records: seq<Record>): Outcome
  {
    if !IsWebsite(req) then Outcome(Rejection, [], records)
    else
      var answer := Response(200, ResponseMessage(req));
      if req.status == DownStatus then Outcome(answer, DownCalls(req, env), DownRecords(req, env, records))
      else if req.status == UpStatus then Outcome(answer, UpCalls(req.testId, env, records), UpRecords(req.testId, env, records))
      else Outcome(answer, [], records)
  }

  method Handle(req: Request, env: Environment, store: CorrelationStore) returns (response: Response, calls: seq<Call>)
    requires store.Valid() && KeyFree(store.records, env.newId, req.testId)
    modifies store
    ensures store.Valid()
    ensures var o := Handled(req, env, old(store.records));
            response == o.response && calls == o.calls && store.records == o.records
  {
    if req.testMethod != WebsiteMethod {
      return Rejection, [];
    }
    calls := [];
    if req.status == DownStatus {
      calls := Down(req, env, store);
    } else if req.status == UpStatus {
      calls := Up(req.testId, env, store);
    }
    response := Response(200, ResponseMessage(req));
  }

  // ---------------------------------------------------------------------
  // What one call of the handler does

  /** A call whose method is not a website uptime test is answered with 400
      and the fixed rejection text; nothing is sent out and the store is
      untouched. A website test is answered with the summary, and a status other
      than Down or Up sends nothing out and leaves the store as it was. */
  lemma GateAndAnswer(req: Request, env: Environment, records: seq<Record>)
    ensures !IsWebsite(req) ==>
              Handled(req, env, records) == Outcome(Response(400, RejectionBody), [], records)
    ensures IsWebsite(req) ==> Handled(req, env, records).response == Response(200, ResponseMessage(req))
    ensures IsWebsite(req) && req.status != DownStatus && req.status != UpStatus ==>
              Handled(req, env, records).calls == [] && Handled(req, env, records).records == records
  {
  }

  /** Down: a record with the test's id, name, url and ip and the new ticket's
      id is added at the end of the store exactly when the ticket creation
      returned an id; nothing else in the store changes. */
  lemma DownRecordIffCreated(req: Request, env: Environment, records: seq<Record>)
    requires IsWebsite(req) && req.status == DownStatus
    ensures var after := Handled(req, env, records).records;
            && (|after| == |records| + 1 <==> CreatedTicketId(env).Some?)
            && (CreatedTicketId(env).None? ==> after == records)
            && after[..|records|] == records
            && (CreatedTicketId(env).Some? ==>
                  after[|records|] == Record(env.newId, req.testId, req.name, req.url, req.ip, env.created.value, env.now))
  {
  }

  /** Down: the ticket is always created, and the email is sent exactly when
      no ticket id came back. The email, then the last request, is titled like
      the ticket and carries its description with every line break turned
      into `<br />`, so it has no line feed left. */
  lemma DownEscalationIffNotCreated(req: Request, env: Environment, records: seq<Record>)
    requires IsWebsite(req) && req.status == DownStatus
    ensures var calls := Handled(req, env, records).calls;
            && CreateTicket(TicketFor(req, env)) in calls
            && ((exists k :: 0 <= k < |calls| && calls[k].SendEmail?) <==> CreatedTicketId(env).None?)
            && (CreatedTicketId(env).None? ==>
                  && calls[|calls| - 1] == SendEmail(Title(req.name), HtmlLineBreaks(TicketFor(req, env).description))
                  && '\n' !in calls[|calls| - 1].html)
  {
    FilingCallsShape(req, env, CompanyOf(req, env));
  }

  /** The Down requests for a given resolution: the creation always, the email exactly without a ticket id. */
  lemma FilingCallsShape(req: Request, env: Environment, r: Resolution)
    ensures var calls := FilingCalls(req, env, r);
            var ticket := TicketOf(req, env, r.company);
            && CreateTicket(ticket) in calls
            && ((exists k :: 0 <= k < |calls| && calls[k].SendEmail?) <==> CreatedTicketId(env).None?)
            && (CreatedTicketId(env).None? ==>
                  && calls[|calls| - 1] == SendEmail(ticket.title, HtmlLineBreaks(ticket.description))
                  && '\n' !in calls[|calls| - 1].html)
  {
    var ticket := TicketOf(req, env, r.company);
    var head := LookupCalls(r.queries) + ContextCalls(env, r.company.id) + [CreateTicket(ticket)];
    var calls := FilingCalls(req, env, r);
    assert head[|head| - 1] == CreateTicket(ticket);
    assert forall k :: 0 <= k < |head| ==> !head[k].SendEmail?;
    if CreatedTicketId(env).None? {
      assert calls == head + [Escalation(ticket)];
      assert calls[|calls| - 1].SendEmail?;
    } else {
      assert calls == head;
    }
  }

  /** The new ticket: priority 1, status 1, no configuration item, titled with
      the test's name, and filed under the resolved company at the chosen
      location (10 when none was chosen). Its contract is the
      company's first default contract, unless there is none or its id is 0.
      Its description names the test's ip, or its url when it has no ip, and
      ends with the diagnostic notes. Without a usable ticketing system it goes
      to company 0 at location 10 with no contract. */
  lemma TicketFields(req: Request, env: Environment)
    ensures var t := TicketFor(req, env);
            && t.priority == 1 && t.status == 1 && t.configurationItemId == None
            && t.title == Title(req.name)
            && t.companyId == CompanyOf(req, env).company.id
            && (LocationFor(env, t.companyId) == None ==> t.locationId == FallbackLocationId)
            && (forall l :: LocationFor(env, t.companyId) == Some(l) ==> t.locationId == l.id)
            && (!env.useApi ==> t.companyId == 0 && t.locationId == FallbackLocationId && t.contractId == None)
    ensures var t := TicketFor(req, env);
            var ids := env.defaultContractsOf(t.companyId);
            && (env.useApi ==> (t.contractId == None <==> ids == [] || ids[0] == 0))
            && (t.contractId.Some? ==> env.useApi && t.contractId.value == ids[0])
    ensures var t := TicketFor(req, env);
            var notes := DiagnosticNotes(env.uptime, env.alerts, env.now, env.renderTime);
            && |t.description| >= |notes| && t.description[|t.description| - |notes|..] == notes
            && (req.ip != "" ==>
                  t.description == Description(req.name, TargetKind(req.ip), req.ip, req.statusCode, notes))
            && (req.ip == "" ==>
                  t.description == Description(req.name, TargetKind(req.url), req.url, req.statusCode, notes))
  {
    var target := ProbeTarget(req.ip, req.url);
    var notes := DiagnosticNotes(env.uptime, env.alerts, env.now, env.renderTime);
    TicketTextParts(req.name, TargetKind(target), target, req.statusCode, notes);
  }

  /** Up: with a usable ticketing system every record of the test is deleted
      and only those; without one, none is. Other tests' records never change. */
  lemma UpForgetsTest(testId: string, env: Environment, records: seq<Record>)
    ensures env.useApi ==> UpRecords(testId, env, records) == Filter(records, NotTest(testId))
    ensures env.useApi ==> Matching(UpRecords(testId, env, records), testId) == []
    ensures !env.useApi ==> UpRecords(testId, env, records) == records && UpCalls(testId, env, records) == []
    ensures forall other :: other != testId ==>
              Matching(UpRecords(testId, env, records), other) == Matching(records, other)
  {
    if Matching(records, testId) == [] {
      forall x | x in records
        ensures NotTest(testId)(x)
      {
        assert HasTest(testId)(x) ==> x in Matching(records, testId);
      }
      FilterAllKept(records, NotTest(testId));
    }
    var after := Filter(records, NotTest(testId));
    forall x | x in after
      ensures !HasTest(testId)(x)
    {
    }
    FilterNone(after, HasTest(testId)) by {
      forall i | 0 <= i < |after|
        ensures !HasTest(testId)(after[i])
      {
        assert after[i] in after;
      }
    }
    forall other | other != testId
      ensures Matching(after, other) == Matching(records, other)
    {
      FilterCompose(records, NotTest(testId), HasTest(other), HasTest(other));
    }
  }

  /** Up: every open ticket found for a record of the test gets the closing
      note with the record's downtime and its closing status. */
  lemma UpClosesOpenTickets(testId: string, env: Environment, records: seq<Record>, rec: Record, t: Ticket)
    requires env.useApi && rec in records && rec.testId == testId
    requires t in env.ticketsOf(rec.ticketId) && IsOpen(t)
    ensures AddNote(t.id, ClosingNote(DowntimeOfRecord(rec, env))) in UpCalls(testId, env, records)
    ensures IsAssigned(t) ==> UpdateStatus(t.id, AssignedClosingStatus) in UpCalls(testId, env, records)
    ensures !IsAssigned(t) ==> UpdateStatus(t.id, CompleteStatus) in UpCalls(testId, env, records)
  {
    var found := Matching(records, testId);
    assert rec in found;
    var k :| 0 <= k < |found| && found[k] == rec;
    var tickets := env.ticketsOf(rec.ticketId);
    var j :| 0 <= j < |tickets| && tickets[j] == t;
    var d := DowntimeOfRecord(rec, env);
    ConcatMapHas(tickets, j, TicketCallsAfter(d));
    assert AddNote(t.id, ClosingNote(d)) in TicketCalls(t, d);
    assert UpdateStatus(t.id, ClosingStatus(t)) in TicketCalls(t, d);
    ConcatMapHas(found, k, RecordCallsIn(env));
  }

  /** The request is the closing note or the closing status update of the open ticket `t`. */
  predicate Closes(c: Call, t: Ticket, downtime: string)
  {
    IsOpen(t) &&
    ((c.AddNote? && c.noteTicketId == t.id && c.note == ClosingNote(downtime)) ||
     (c.UpdateStatus? && c.updateTicketId == t.id && c.status == ClosingStatus(t)))
  }

  /** Up: a note or a status update is only ever sent for an open ticket found
      for a record of the test; the note carries that record's downtime and
      the status is the ticket's closing status, 5 or 13. A complete ticket is
      therefore never touched. */
  lemma UpTouchesOnlyOpenTickets(testId: string, env: Environment, records: seq<Record>, c: Call)
    requires c in UpCalls(testId, env, records) && (c.AddNote? || c.UpdateStatus?)
    ensures exists rec, t :: rec in records && rec.testId == testId && t in env.ticketsOf(rec.ticketId)
                             && Closes(c, t, DowntimeOfRecord(rec, env))
    ensures c.UpdateStatus? ==> c.status == CompleteStatus || c.status == AssignedClosingStatus
  {
    var found := Matching(records, testId);
    ConcatMapFrom(found, RecordCallsIn(env), c);
    var k :| 0 <= k < |found| && c in RecordCalls(found[k], env);
    var rec := found[k];
    assert rec in found;
    var tickets := env.ticketsOf(rec.ticketId);
    var d := DowntimeOfRecord(rec, env);
    RecordCallClosing(rec, env, c);
    ClosingCallFrom(tickets, d, c);
    var t :| t in tickets && Closes(c, t, d);
  }

  /** Besides its ticket query, a record's requests are closing requests. */
  lemma RecordCallClosing(rec: Record, env: Environment, c: Call)
    requires c in RecordCalls(rec, env) && !c.QueryTickets?
    ensures c in ClosingCalls(env.ticketsOf(rec.ticketId), DowntimeOfRecord(rec, env))
  {
    var tickets := env.ticketsOf(rec.ticketId);
    var rest := if tickets == [] then [] else ClosingCalls(tickets, DowntimeOfRecord(rec, env));
    assert RecordCalls(rec, env) == [QueryTickets(rec.ticketId)] + rest;
    assert c in rest;
  }

  /** A closing request for a list of tickets belongs to an open ticket of the list. */
  lemma ClosingCallFrom(tickets: seq<Ticket>, downtime: string, c: Call)
    requires c in ClosingCalls(tickets, downtime)
    ensures exists t :: t in tickets && Closes(c, t, downtime)
  {
    ConcatMapFrom(tickets, TicketCallsAfter(downtime), c);
    var j :| 0 <= j < |tickets| && c in TicketCalls(tickets[j], downtime);
    assert tickets[j] in tickets;
  }
}

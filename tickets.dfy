/** What the handler writes to the ticketing system: the new ticket of an
    outage, and the note and status that close an outage's ticket. */
module Tickets {
  import opened Optional
  import opened Text
  import opened Downtime

  /** A ticket to be created. Queue, issue type, sub-issue type and service
      level come from the deployment's configuration and are not modelled. */
  datatype NewTicket = NewTicket(
    companyId: int,
    locationId: int,
    priority: int,
    status: int,
    contractId: Option<int>,
    configurationItemId: Option<int>,
    title: string,
    description: string)

  /** The priority and the status every new outage ticket is created with. */
  const NewPriority: int := 1
  const NewStatus: int := 1

  const TitlePrefix: string := "Your Site: "
  const TitleSuffix: string := " Is Currently Down"

  function Title(name: string): string
  {
    TitlePrefix + name + TitleSuffix
  }

  /** The address the test probes: its ip when it has one, else its url. */
  function ProbeTarget(ip: string, url: string): string
  {
    if ip != "" then ip else url
  }

  /** An address with a letter in it is a url, one without is an ip. */
  function TargetKind(target: string): (kind: string)
    ensures kind == "Url" || kind == "IP"
    ensures kind == "Url" <==> exists i :: 0 <= i < |target| && IsAsciiLetter(target[i])
  {
    if HasAsciiLetter(target) then "Url" else "IP"
  }

  function Description(name: string, kind: string, target: string, statusCode: string, notes: string): string
  {
    "Alert from StatusCake. \n" + name + " Has Gone Down. \n" + kind + " test: " + target +
    " \nStatus Code: " + statusCode + " \n\n\n" + notes
  }

  /** The title names the test, and the description ends with the notes. */
  lemma TicketTextParts(name: string, kind: string, target: string, statusCode: string, notes: string)
    ensures var t := Title(name);
            t[..|TitlePrefix|] == TitlePrefix && t[|TitlePrefix|..|t| - |TitleSuffix|] == name
            && t[|t| - |TitleSuffix|..] == TitleSuffix
    ensures var d := Description(name, kind, target, statusCode, notes);
            |d| >= |notes| && d[|d| - |notes|..] == notes
  {
    var t := Title(name);
    assert t == TitlePrefix + name + TitleSuffix;
    var d := Description(name, kind, target, statusCode, notes);
    var head := "Alert from StatusCake. \n" + name + " Has Gone Down. \n" + kind + " test: " + target +
                " \nStatus Code: " + statusCode + " \n\n\n";
    assert d == head + notes;
  }

  // ---------------------------------------------------------------------
  // Closing an outage's ticket

  /** An existing ticket, as the ticket query returns it. */
  datatype Ticket = Ticket(id: int, status: int, assignedResourceId: Option<int>)

  /** The status of a completed ticket. */
  const CompleteStatus: int := 5
  /** The status a ticket someone is assigned to is moved to instead. */
  const AssignedClosingStatus: int := 13

  /** A ticket that is not complete yet. */
  predicate IsOpen(t: Ticket)
  {
    t.status != CompleteStatus
  }

  /** A resource is assigned: the field is present and not 0. */
  predicate IsAssigned(t: Ticket)
  {
    t.assignedResourceId.Some? && t.assignedResourceId.value != 0
  }

  /** The status a closed ticket gets: 13 when someone is assigned to it, else 5. */
  function ClosingStatus(t: Ticket): int
  {
    if IsAssigned(t) then AssignedClosingStatus else CompleteStatus
  }

  datatype Note = Note(title: string, description: string, noteType: int, publish: int)

  const ClosingTitle: string := "Self-Healing Update"
  const ClosingText: string := "[Self-Healing] The device is now back up. This ticket has been auto-closed. Total downtime: "

  /** The note added to a ticket closed after `downtime`. */
  function ClosingNote(downtime: string): Note
  {
    Note(ClosingTitle, ClosingText + downtime, 1, 1)
  }

  /** The closing note of an outage of `d` seconds reports a downtime that reads back as `d`. */
  lemma ClosingNoteReportsDowntime(d: nat)
    ensures var text := ClosingNote(DowntimeText(d)).description;
            |text| >= |ClosingText| && text[..|ClosingText|] == ClosingText
            && ParseDowntime(text[|ClosingText|..]) == Some(d)
  {
    var text := ClosingNote(DowntimeText(d)).description;
    assert text[|ClosingText|..] == DowntimeText(d);
    DowntimeRoundTrip(d);
  }
}

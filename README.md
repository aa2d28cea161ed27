# StatusCake to Autotask alert handler — a verified model

The handler receives uptime alerts from StatusCake as form posts and turns them
into Autotask tickets:

- A test going **Down** is resolved to an Autotask company. The handler then
  picks the company's location and default contract and composes a ticket,
  whose notes summarise the test's recent alert history.
- The ticket is created. When creation returns no id, an escalation email is
  sent instead.
- When a ticket was created, a correlation record (test, ticket, time) is
  written to the `TicketReference` store.
- A test coming back **Up** has the tickets of its correlation records closed,
  each with a note giving the total downtime. Then those records are deleted.
- Requests for any test method other than `Website` are rejected with status 400.

The model keeps the handler's decisions and passes every outside answer in as
data. Those answers are:
- the company directory, locations, contracts and tickets;
- the monitoring service's uptime and alert history;
- the ticket-creation result;
- the clock and fresh record ids.

The handler's requests to the ticketing system after its credential check, and the escalation email, each become a `Call` value:
- the company, location, contract and ticket queries;
- the ticket creation;
- the closing note and the status update;
- the escalation email.

The other requests are not `Call`s. The two monitoring-service fetches are inputs
(`uptime`, `alerts`). The credential check is the flag `useApi`. The
correlation store's create, query and delete are the methods of a class over a
sequence of records.

Modules, one per file:

- `Optional` (optional.dfy): the option type.
- `Seqs` (seqs.dfy): `Filter` and `ConcatMap` with their algebra.
- `Text` (text.dfy): the JavaScript string operations the handler uses, with their laws:
  - `indexOf`, `includes`, `replace` of the first occurrence, `trim`;
  - `split`/`join`;
  - `padStart`;
  - the `/[a-zA-Z]/` test;
  - the `\r?\n` to `<br />` replacement.
- `Decimal` (decimal.dfy): decimal rendering of naturals and its inverse.
- `Request` (request.dfy): the form fields, the tag list, the method gate and the response text.
- `Resolver` (resolver.dfy): the company resolution cascade.
- `Enricher` (enricher.dfy): location, contract and device selection.
- `Diagnostics` (diagnostics.dfy): the "Additional Details" notes built from the alert history.
- `Downtime` (downtime.dfy): the `[D days, ]HH:MM:SS` downtime text and a parser that inverts it.
- `Tickets` (tickets.dfy): the new ticket, its title and description, the closing note and the closing status.
- `Correlation` (store.dfy): the correlation store.
- `Lifecycle` (lifecycle.dfy):
  - the Down and Up paths and the handler, as methods;
  - the specification functions they are proved against (`DownCalls`, `DownRecords`, `UpCalls`, `UpRecords`, `Handled`);
  - lemmas about those functions.

## Model

| member | source | states |
|---|---|---|
| Request.TagsOf | StatusCake-AutotaskIntegration/index.js:17-21 | An empty or absent `Tags` field gives no tags and any other value gives at least one. Joining the tags with commas gives the field back. No tag contains a comma. |
| Request.ResponseEchoesTags | StatusCake-AutotaskIntegration/index.js:25-29 | The summary answered for a named test shows the `Tags` field exactly as it was received. |
| Lifecycle.GateAndAnswer | StatusCake-AutotaskIntegration/index.js:31-39 | A non-`Website` method gives status 400 with the fixed rejection text, sends no request and leaves the store unchanged. A website test is answered with the summary. A status other than Down or Up sends nothing and changes nothing. |
| Lifecycle.Handle | StatusCake-AutotaskIntegration/index.js:6-540 | The handler's answer, the requests it sends and the new store are exactly those of the specification `Handled`. It keeps the store's keys distinct. |
| Seqs.Filter | StatusCake-AutotaskIntegration/index.js:179-181 | `Array.prototype.filter`: the result is no longer than the input and holds exactly the input elements that pass. |
| Text.JoinSplit | StatusCake-AutotaskIntegration/index.js:17 | Joining the pieces of `split(d)` with `d` gives the string back. |
| Text.SplitJoin | StatusCake-AutotaskIntegration/index.js:17 | Splitting the join of pieces free of `d` gives those pieces back. |
| Text.SplitPiecesFree | StatusCake-AutotaskIntegration/index.js:17 | No piece of `split(d)` contains `d`. |
| Text.FindIsFirst | StatusCake-AutotaskIntegration/index.js:101 | The substring search finds the first occurrence: the pattern occurs at no earlier position. |
| Text.IndexOfAfter | StatusCake-AutotaskIntegration/index.js:123-130 | `indexOf(c)` of `a + c + b` is `|a|` when `a` has no `c`. |
| Text.ReplaceFirstOfPrefix | StatusCake-AutotaskIntegration/index.js:103 | Replacing the first occurrence of a prefix by nothing leaves what follows it. |
| Text.TrimTrimmed | StatusCake-AutotaskIntegration/index.js:133 | Trimming a trimmed string changes nothing. |
| Text.TrimKeepsMiddle | StatusCake-AutotaskIntegration/index.js:133 | The trimmed string occurs in the original right after the leading white space. |
| Text.TrimEmptyIff | StatusCake-AutotaskIntegration/index.js:133 | Trimming gives the empty string exactly when the string is all white space. |
| Text.HtmlLineBreaksNoLineFeed | StatusCake-AutotaskIntegration/index.js:419 | Text without a line feed passes through the `\r?\n` replacement unchanged. |
| Text.HtmlLineBreaksFirstLine | StatusCake-AutotaskIntegration/index.js:419 | A line and a line feed become the line (without a trailing carriage return) and `<br />`, followed by the conversion of the rest. |
| Text.PadStartKeeps | StatusCake-AutotaskIntegration/index.js:496 | `padStart` keeps the string at the end and puts only the fill character in front of it. |
| Decimal.ParseNatToString | StatusCake-AutotaskIntegration/index.js:372 | The decimal rendering of a count reads back as that count. |
| Decimal.NatToStringInjective | StatusCake-AutotaskIntegration/index.js:498 | Different numbers render differently. |
| Resolver.CompanyIdTagDerivation | StatusCake-AutotaskIntegration/index.js:101-103 | The id looked up is the first tag containing `CompanyID:`, with that text removed and trimmed. There is none exactly when no tag contains it. |
| Resolver.IdTagAlone | StatusCake-AutotaskIntegration/index.js:100-135 | A test tagged only `CompanyID:<id>` (for example `CompanyID:42`) whose id lookup finds a company is looked up by that id alone, with no number, abbreviation or name query. |
| Resolver.CompanyProbe | StatusCake-AutotaskIntegration/index.js:118-133 | The company probe is always trimmed. |
| Resolver.ProbeDerivation | StatusCake-AutotaskIntegration/index.js:118-133 | The probe is the first `Company:` tag without that text; else the name before its first `-`; else before its first space; else the whole name; in each case trimmed. |
| Resolver.IdTagShortCircuits | StatusCake-AutotaskIntegration/index.js:100-135 | When the `CompanyID:` lookup finds a company, no name-based lookup follows. |
| Resolver.NameContainmentFallback | StatusCake-AutotaskIntegration/index.js:135-174 | When the id lookup and the number/abbreviation lookup find nothing, the name-containment lookup is made with the probe and its answer is narrowed. |
| Resolver.LookUpCompanies | StatusCake-AutotaskIntegration/index.js:100-174 | The step-by-step lookups issue exactly the queries of `Lookups`, and leave the answer of the last one. |
| Resolver.NarrowKeepsActive | StatusCake-AutotaskIntegration/index.js:176-191 | Narrowing keeps only active candidates, and keeps them all when at most one is active. Several active candidates without exactly one named in the test name leave nothing usable. |
| Resolver.NarrowNamed | StatusCake-AutotaskIntegration/index.js:183-190 | A survivor among several active candidates is named in the test name, ignoring case, and no other active candidate is. |
| Resolver.ResolutionOutcome | StatusCake-AutotaskIntegration/index.js:176-204 | Exactly one company results. It is the placeholder company 0 when zero active candidates remain, or several without exactly one named. One active candidate is chosen. Among several active candidates, the one named in the test name is chosen exactly when it is the only one named. A real company is an active candidate of the last lookup. |
| Resolver.FindCompany | StatusCake-AutotaskIntegration/index.js:98-204 | The handler's reassignment of its company list gives the company and lookups of `ResolveCompany`. |
| Enricher.PickLocation | StatusCake-AutotaskIntegration/index.js:223-234 | The step-by-step choice equals `SelectLocation`. |
| Enricher.LocationChoice | StatusCake-AutotaskIntegration/index.js:223-234 | Only active locations are chosen. The result is none exactly when no location is active, and then the ticket gets location 10. The first active primary location wins; without one, the first active location does. |
| Enricher.DeviceNameDerivation | StatusCake-AutotaskIntegration/index.js:265-266 | The device name is the first tag containing `Device:`, with that text removed and trimmed. There is none exactly when no tag contains it. |
| Enricher.DeviceOutcome | StatusCake-AutotaskIntegration/index.js:262-320 | With a usable ticketing system and a device name, the configuration item is none exactly when the device query returned no active device. Otherwise it is the id of an active device that query returned: the first active device whose address is the test's url or ip when several are active and one matches, else the first active device. |
| Enricher.NoDeviceWithoutName | StatusCake-AutotaskIntegration/index.js:264-266 | Without a usable ticketing system, or without a `Device:` tag, there is no configuration item. |
| Enricher.DevicesKeptActive | StatusCake-AutotaskIntegration/index.js:301-302 | Device narrowing keeps only active devices, and is empty exactly when none is active. |
| Enricher.DevicesMatchingKept | StatusCake-AutotaskIntegration/index.js:304-312 | With several active devices, some matching the url or ip, exactly the matching active devices are kept. |
| Enricher.DevicesNoneMatching | StatusCake-AutotaskIntegration/index.js:304-312 | When no active device matches, all active devices are kept. |
| Enricher.NarrowedFirst | StatusCake-AutotaskIntegration/index.js:301-316 | The device taken after narrowing is an active queried device, present exactly when one is active; it is the first active matching device when several are active and one matches, else the first active device. |
| Enricher.DevicesFirstMatching | StatusCake-AutotaskIntegration/index.js:304-316 | With several active devices, the first active device whose address is the test's url or ip is the one taken. |
| Enricher.DevicesFirstActive | StatusCake-AutotaskIntegration/index.js:301-316 | With at most one active device, or none matching the test, the first active device is the one taken. |
| Enricher.DevicesWithoutAddress | StatusCake-AutotaskIntegration/index.js:304 | When no active device has an external address, no narrowing by address takes place: all active devices are kept. |
| Diagnostics.LastDowntimeIsSecondDownAlert | StatusCake-AutotaskIntegration/index.js:358-368 | The last downtime is the time of the down alert with exactly one down alert before it, and exists exactly when there is such an alert. |
| Diagnostics.RecentCountNonIncreasing | StatusCake-AutotaskIntegration/index.js:355-364 | The two-week down count never grows as `now` advances, and never exceeds the number of down alerts. |
| Diagnostics.RecentCountLineReports | StatusCake-AutotaskIntegration/index.js:371-373 | The count line appears exactly when a down alert fired in the last two weeks, and its number reads back as that count. |
| Diagnostics.NotesEmptyIff | StatusCake-AutotaskIntegration/index.js:347-374 | The notes are empty exactly when there is no uptime, and the history is missing or has at most one down alert and none recent. |
| Diagnostics.BuildNotes | StatusCake-AutotaskIntegration/index.js:347-374 | The `+=` assembly of the notes gives `DiagnosticNotes`. |
| Downtime.FormatDowntime | StatusCake-AutotaskIntegration/index.js:486-499 | Taking off days, hours and minutes one after another gives `DowntimeText` of the absolute difference. |
| Downtime.DayParts | StatusCake-AutotaskIntegration/index.js:488-494 | A number of seconds is its days, hours, minutes and seconds put back together. Hours are below 24 and minutes below 60. |
| Downtime.ClockRoundTrip | StatusCake-AutotaskIntegration/index.js:496 | An in-range `HH:MM:SS` clock is 8 characters and reads back as its seconds. |
| Downtime.DowntimeRoundTrip | StatusCake-AutotaskIntegration/index.js:488-499 | Every downtime text reads back as the number of seconds it was made from. |
| Downtime.DowntimeTextInjective | StatusCake-AutotaskIntegration/index.js:488-499 | Different downtimes never give the same text. |
| Downtime.DowntimeExampleDays | StatusCake-AutotaskIntegration/index.js:496-499 | 90061 seconds give `1 days, 01:01:01`. |
| Downtime.DowntimeExampleClock | StatusCake-AutotaskIntegration/index.js:496-499 | 61 seconds give `00:01:01`, without a day count. |
| Tickets.TargetKind | StatusCake-AutotaskIntegration/index.js:379 | The address is called `Url` exactly when it contains an ASCII letter, else `IP`. |
| Tickets.TicketTextParts | StatusCake-AutotaskIntegration/index.js:377-380 | The title is the fixed prefix, the test name and the fixed suffix. The description ends with the notes. |
| Tickets.ClosingNoteReportsDowntime | StatusCake-AutotaskIntegration/index.js:504-510 | The closing note is the fixed text followed by a downtime that reads back as the outage's seconds. |
| Correlation.CorrelationStore.Create | StatusCake-AutotaskIntegration/index.js:441-451 | A record is appended exactly when its key (id within the test's partition) is free. Otherwise nothing changes. The keys stay distinct. |
| Correlation.CorrelationStore.FindByTest | StatusCake-AutotaskIntegration/index.js:460-465 | The query returns exactly the stored records of the test, in store order. |
| Correlation.CorrelationStore.Delete | StatusCake-AutotaskIntegration/index.js:522 | Exactly the item with the given key is removed, and the result says whether there was one. The keys stay distinct. |
| Correlation.AppendKeepsDistinct | StatusCake-AutotaskIntegration/index.js:442-450 | Adding an item whose key is free keeps the keys distinct. |
| Correlation.FilterKeepsDistinct | StatusCake-AutotaskIntegration/index.js:522 | Removing items keeps the keys distinct. |
| Correlation.DeleteKeepsOtherTests | StatusCake-AutotaskIntegration/index.js:522 | Deleting an item of one test leaves every other test's records as they were. |
| Lifecycle.LookUpContext | StatusCake-AutotaskIntegration/index.js:206-260 | The location and contract steps choose `SelectLocation` and `ContractId` when the ticketing system is usable, nothing otherwise. Exactly the two lookups are sent. |
| Lifecycle.ComposeTicket | StatusCake-AutotaskIntegration/index.js:376-394 | The composed ticket is the specification's ticket for the company. |
| Lifecycle.Down | StatusCake-AutotaskIntegration/index.js:90-451 | The Down path sends exactly `DownCalls` and leaves the store as `DownRecords`. |
| Lifecycle.TicketFields | StatusCake-AutotaskIntegration/index.js:376-394 | The new ticket has priority 1, status 1, no configuration item and the test's title, and is filed under the resolved company. Its contract is the company's first default contract id, and there is none when the list is empty, that id is 0, or the ticketing system is not usable. Its description names the test's ip, or the url when the ip is empty, and ends with the notes. Its location is the chosen location's id, and 10 when none was chosen. Without the ticketing system it goes to company 0, location 10. |
| Lifecycle.FilingCallsShape | StatusCake-AutotaskIntegration/index.js:396-438 | For any resolution the ticket is always created, and the email is sent exactly when no ticket id came back, as the last request. |
| Lifecycle.DownEscalationIffNotCreated | StatusCake-AutotaskIntegration/index.js:396-438 | The ticket is always created. The email is sent exactly when no ticket id came back. It carries the ticket's title and its description with line breaks turned into `<br />`, so it has no line feed. |
| Lifecycle.DownRecordIffCreated | StatusCake-AutotaskIntegration/index.js:441-451 | A record with the test's id, name, url and ip, the ticket id and the current time is appended exactly when ticket creation returned an id. Nothing else in the store changes. |
| Lifecycle.CloseTickets | StatusCake-AutotaskIntegration/index.js:501-519 | The loop over the found tickets sends `ClosingCalls`: a note and a status update for each open ticket, in order. |
| Lifecycle.CloseRecord | StatusCake-AutotaskIntegration/index.js:469-520 | Handling one record queries its ticket, then closes what was found using the record's downtime. |
| Lifecycle.ForgetRecords | StatusCake-AutotaskIntegration/index.js:468-523 | The loop over the records sends each record's requests and deletes each record's key, whether or not its ticket was found. |
| Lifecycle.DeleteStep | StatusCake-AutotaskIntegration/index.js:522 | Deleting one more record's key is filtering by one more key. |
| Lifecycle.DeletedAll | StatusCake-AutotaskIntegration/index.js:467-523 | Once each of a test's records is deleted, exactly the other tests' records remain. |
| Lifecycle.Up | StatusCake-AutotaskIntegration/index.js:453-530 | The Up path sends exactly `UpCalls` and leaves the store as `UpRecords`. |
| Lifecycle.UpForgetsTest | StatusCake-AutotaskIntegration/index.js:467-529 | With the ticketing system usable, every record of the test is deleted and only those. Without it, no record is deleted and nothing is sent. Other tests' records never change. |
| Lifecycle.UpClosesOpenTickets | StatusCake-AutotaskIntegration/index.js:501-518 | Every open ticket found for a record of the test gets the closing note with that record's downtime. It is set to status 13 when a resource is assigned (present and not 0), and to status 5 otherwise. |
| Lifecycle.UpTouchesOnlyOpenTickets | StatusCake-AutotaskIntegration/index.js:501-518 | Every note or status update belongs to an open ticket found for a record of the test, and every status sent is 5 or 13. A complete ticket is never touched. |

## Left out

- Outside services are left out: the Autotask client, the Cosmos DB client, the StatusCake and email HTTP calls, and their failures. Their answers are fields of `Lifecycle.Environment`, and an exception thrown by any of them other than ticket creation is not modelled.
- The credential preflight is reduced to the boolean `useApi`.
- Deployment configuration (`parseInt` of queue, issue type, sub-issue type, service level and email settings), logging, and `context.res`/`context.done` are not part of this model.
- Clock, locale and time zone are left out. Times are whole seconds supplied by the caller:
  - the record's creation time is the `now` of the Down call;
  - one `now` stands for the per-record `new Date()` of the Up loop;
  - the two-week window is `14 * 86400` seconds, ignoring daylight-saving shifts;
  - "Last Downtime" is rendered by a caller-supplied function in place of `toDateString`/`toLocaleTimeString` and the `+00:00` stripping.
- The downtime difference is whole seconds. Since `_ts` is whole seconds, the flooring in the source gives the same fields.
- Record ids come from the environment, not from `uuidv4()`. `Down` and `Handle` require that the id is not already used in the test's partition, which is what a fresh uuid guarantees.
- `Request.Request`: an absent form field reads as the empty string. For `Method` and `Tags` this matches the source. For the other fields the source renders `null` instead, in:
  - the summary;
  - the ticket title (`Your Site: null Is Currently Down`) and the description's `null Has Gone Down`, when `Name` is absent;
  - the description's `Status Code: null`, when `StatusCode` is absent;
  - the description's address, when both `URL` and `IP` are absent. The source labels it `Url`, because the letter test sees the text `null`; the model writes an empty `IP` test there.

  With a usable ticketing system an absent `Name` can also make the source throw:
  - without a `Company:` tag, at `name.indexOf` (line 123);
  - with one, at `name.toLowerCase()` (line 185), whenever more than one active candidate company remains.

  The model does not throw. It reads the name as empty and goes on; with several active candidates it then files the ticket under company 0.
- `Resolver.NamedIn`: the source passes the lower-cased company name to `String.prototype.search`, which treats it as a regular expression. The model treats it as a literal substring, and lower-cases ASCII letters only.
- The device lookup is not part of the handler's path. In the source, `deviceTags` is read at line 264 before the `var` at line 265 assigns it, so the branch never runs and `ConfigurationItemID` stays null; the model's ticket always has no configuration item. The narrowing rule the branch was written for is modelled on its own as `Enricher.ResolveDevice`, with its outcome stated by `Enricher.DeviceOutcome`. The guard at line 304 reads a `device` that is out of scope there; the model reads it as "some device has an external address". Because a device without an address never matches (`Enricher.MatchesTarget`), narrowing when no device has an address keeps all active devices, as not narrowing would (`Enricher.DevicesWithoutAddress`). A device whose address is absent (null) makes the source's filter throw at `.trim()`. The model treats it as not matching.
- The note and status-update calls of the Up path are not awaited in the source. The model records them as sent, in loop order, and does not model their concurrency or failures.
- The result of the email request and of the record write are not inspected by the handler, so they are not modelled beyond the request itself. The write is modelled only by the store's `Create`.
- `Correlation.CorrelationStore.FindByTest`: the store query at lines 460-465 has no `ORDER BY`, so the source promises no order for a test's records. The model returns them in insertion order, and so fixes the order of the Up path's requests (`Lifecycle.UpCalls`). The lemmas `Lifecycle.UpClosesOpenTickets` and `Lifecycle.UpTouchesOnlyOpenTickets` speak only of which requests are sent, not of their order.
- `Correlation.CorrelationStore.Delete`: deleting a missing item makes the store throw in the source. In the model it removes nothing.

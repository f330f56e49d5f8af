# WebLogic log inspector — Dafny model

`logInspect.py` polls a WebLogic Server management REST API. First it lists
the domain's servers. For each server it reads the server's detail: its
state, its health, and the link to its log list. For each running server it
lists the logs and reads each one. It keeps the entries whose severity is
`Error`, counts them on the log and on the server, and writes a statistics
and details report.

This project models that pipeline as pure functions over immutable records:

- `WLSDomain` → `WLSServer` → `WLLog` → `LogEntry` (module `Domain`). The source
  spells the entry class `LogEnty`.
- The network is an oracle `fetch: string -> Result<Response, Fault>`
  (module `Api`). Any `Err` ends the whole run, as `sys.exit(1)` does in the
  source.
- Wall-clock timing is an oracle `elapsed: string -> nat`. It gives the whole
  seconds spent fetching a log URL.
- Discovery of servers, log-list URLs and logs is in module `Discovery`.
- The per-server fold and the run are in module `Search`.
- The duration format `hh:mm:ss` and a parser that reads it back are in
  module `TimeFormat`.
- The HTML report's row classes, detail selection and entry numbering are in
  module `Report`.
- Module `Scenario` works through one concrete run: one running server whose
  single log has two Error items and one Info item, plus one stopped server.

A Python `KeyError` or `UnboundLocalError` that would end the run becomes a
`Fault`:

- `MissingField(url, "item")`: the server detail has no `item`.
- `MissingField(url, "health")`: a running server's detail has no `health`.
- `NoLogsLink(url)`: there is no `rel == "logs"` link.

They are checked in the source's order: `item`, then `health`, then the logs link.

Three behaviours of logInspect.py are easy to misread:

- The log-list URL comes from the LAST link whose rel is `"logs"`. The loop at
  logInspect.py:56-58 overwrites the value on every match.
- A missing `"logs"` link aborts the run even when the server is not running,
  because the lookup at logInspect.py:56-59 happens before the state test at
  logInspect.py:80.
- A log row with no errors gets the class `'success'` (logInspect.py:226-228).

## Model

| member | source | states |
|---|---|---|
| Discovery.ServersFromLinks | logInspect.py:43-45 | the servers appended are exactly the links whose rel is not "parent", in received order, each a fresh server with that link's title and uri |
| Discovery.GetServers | logInspect.py:40-45 | one fetch of `http://<host>/management/wls/latest/servers`; a failed fetch fails the phase with its fault; otherwise the domain gains the servers of the kept links after the ones it had |
| Domain.NewServer | logInspect.py:283-289 | a new server has the given name and URL, no logs, empty state and health, and a zero error count that matches its (empty) logs |
| Domain.NewLog | logInspect.py:303-308 | a new log has the given name and URL, no entries, a zero counter and an empty duration |
| Discovery.LastLogsLink | logInspect.py:56-59 | no result exactly when no link has rel "logs"; otherwise the uri of a "logs" link after which no other "logs" link follows |
| Discovery.GetLogListUrl | logInspect.py:50-59 | succeeds exactly when the detail fetch succeeds, `item` is present, `health` is present if the state is "running", and a "logs" link exists, whatever the state; state is always recorded, health only when running; the returned URL is the last "logs" link's |
| Discovery.LogsFromLinks | logInspect.py:65-69 | the logs appended are exactly the "items.name" links whose title starts with neither "JMSMessageLog" nor "HTTPAccessLog", in order, each a fresh log |
| Discovery.GetServerLogUrl | logInspect.py:63-69 | fails exactly when the log-list fetch fails; otherwise the kept logs are appended after the server's existing logs and nothing else changes |
| Discovery.LogsFromLinksKept | logInspect.py:67-68 | no collected log has a title with an excluded prefix |
| Discovery.AccessLogGuardAlwaysHolds | logInspect.py:88 | the `log.name != "HTTPAccessLog"` test is true for every collected log, because that name has an excluded prefix |
| Domain.AddServer | logInspect.py:278-279 | the domain gains the server after the servers it had, which stay in place |
| Domain.AddLog | logInspect.py:291-292 | the server gains the log after the logs it had and nothing else changes; adding a log that has counted nothing keeps the counts consistent |
| Domain.SetHealth | logInspect.py:294-295 | only the health changes, so the counts stay consistent |
| Domain.SetState | logInspect.py:297-298 | only the state changes, so the counts stay consistent |
| Domain.IncrementError | logInspect.py:299-300 | the error count goes up by one and nothing else changes |
| Domain.AddLogEntry | logInspect.py:310-312 | the entry is appended after the existing ones and the counter goes up by one, so a counter that matched its entries still does; the log's name, URL and duration stay as they were |
| Domain.SetDuration | logInspect.py:314-315 | only the duration changes, so a counter that matched its entries still does |
| Domain.RecordErrorConsistent | logInspect.py:98-99 | appending an entry to one log of a consistent server together with `incrementError` leaves the server consistent |
| Search.ErrorEntriesAreErrors | logInspect.py:96-98 | every entry kept from a log response has severity "Error" |
| Search.RecordItems | logInspect.py:96-99 | the item loop changes only the log's entries and counter and the server's error count, and each appended entry is matched by one counter step and one `incrementError` |
| Search.RecordItemsAppendsErrors | logInspect.py:96-98 | after the item loop the log holds its old entries followed by exactly the response's Error items (severity, timestamp, message copied), in order; other items add nothing |
| Search.ReadLog | logInspect.py:92-101 | reading one log fails exactly when its URL cannot be fetched; otherwise only that log and the server's error count change; the log gains its Error entries and its formatted duration; the error count grows by what the counters grow |
| Search.ReadServerLogs | logInspect.py:86-101 | the log loop keeps every server field except the logs and the error count, keeps the number of logs, and raises the error count by exactly what it adds to the log counters |
| Search.ReadServerLogsFails | logInspect.py:86-95 | the log loop fails exactly when some log it must read (name not "HTTPAccessLog", server running) cannot be fetched |
| Search.ReadServerLogsReads | logInspect.py:86-101 | after the log loop every log it must read has been read once, and every other log is unchanged |
| Search.ProcessServer | logInspect.py:75-84 | one server iteration keeps name and URL, takes state and health from the detail lookup, and for a server that is not running leaves logs and error count unchanged; a server reported not running completes with the detail lookup's result |
| Search.ReadLogConsistent | logInspect.py:95-101 | reading one log keeps a consistent server consistent |
| Search.ReadServerLogsConsistent | logInspect.py:86-101 | the log loop keeps a consistent server consistent |
| Search.FreshLogsKeepConsistent | logInspect.py:65-69 | appending logs that have counted nothing keeps a server consistent |
| Search.ProcessServerConsistent | logInspect.py:98-99 | an iteration keeps "error count = sum of log counters" and "counter = number of entries" true, because each append is paired with `incrementError` |
| Search.ProcessRunningServerSteps | logInspect.py:82-86 | for a running server, the iteration fails with the log-list fault when the log list cannot be fetched; otherwise it is the log loop over the existing logs followed by the ones the log list names |
| Search.ProcessFreshStoppedServer | logInspect.py:77-81 | a freshly discovered server that is not running ends with its reported state, empty health, no logs and no errors |
| Search.ProcessFreshRunningServer | logInspect.py:77-101 | a freshly discovered running server ends with the reported state and health and exactly the logs its log list names, in order, each read once |
| Search.StoppedServerFetchesOnlyItsDetail | logInspect.py:79-81 | for a server reported not running, the outcome depends only on the response for its own URL: no other URL is fetched and no timing is taken |
| Search.ProcessFreshServerWellFormed | logInspect.py:77-101 | a completed iteration of a fresh server leaves it well-formed: counts consistent, no logs and empty health unless running, no excluded log, only Error entries |
| Search.ProcessFreshRunningLogs | logInspect.py:65-98 | every log a fresh running server ends with has a kept title and holds only Error entries |
| Search.FreshLogReadHoldsErrors | logInspect.py:96-98 | reading a log that started empty keeps its name and leaves only Error entries in it |
| Search.SearchServers | logInspect.py:75-77 | the server loop succeeds exactly when every server's iteration does; it then returns each server's iteration result, in order |
| Search.SearchServerLogs | logInspect.py:74-101 | `searchServerLogs` fails if any server fails; otherwise it replaces every server by its processed form, keeping the order |
| Search.Run | logInspect.py:146-149 | a run fails with the server-list fault if that fetch fails; otherwise it completes exactly when every discovered server's iteration completes, and then holds each discovered server's iteration result in discovery order |
| Search.RunWellFormed | logInspect.py:146-149 | a completed run holds one server per kept server link, in link order, named and addressed by that link, and every server is well-formed |
| TimeFormat.Clock | logInspect.py:130-131 | the two `divmod` steps give minutes and seconds below 60 with hours·3600 + minutes·60 + seconds equal to the input |
| TimeFormat.ClockUnique | logInspect.py:130-131 | that decomposition is the only one with minutes and seconds below 60 |
| TimeFormat.Decimal | logInspect.py:132 | an integer renders as at least one decimal digit, with no leading zero unless it is 0 |
| TimeFormat.DecimalRoundTrip | logInspect.py:132 | reading a rendered integer's digits gives the integer back |
| TimeFormat.ZeroPad2 | logInspect.py:132 | the `{:02}` field has at least two digits, exactly two below 100, no leading zero from 10 on, and reads back as the number |
| TimeFormat.FormatTimeOutput | logInspect.py:129-132 | the duration text is at least 8 characters, with colons three and six characters from the end; it is exactly 8 characters iff the input is under 100 hours, and from 10 hours on the hours field has no leading zero |
| TimeFormat.FormatTimeRoundTrip | logInspect.py:129-132 | parsing the duration text as hours:mm:ss gives the number of seconds back |
| TimeFormat.FormatTimeInjective | logInspect.py:129-132 | distinct durations render as distinct texts |
| TimeFormat.FormatTimeExampleHourMinuteSecond | logInspect.py:129-132 | 3661 seconds render as "01:01:01" |
| TimeFormat.FormatTimeExampleZero | logInspect.py:129-132 | 0 seconds render as "00:00:00" |
| TimeFormat.FormatTimeExampleSeconds | logInspect.py:129-132 | 59 seconds render as "00:00:59" |
| TimeFormat.FormatTimeExampleHundredHours | logInspect.py:129-132 | hours are not clamped: 360000 seconds render as "100:00:00" |
| Report.ServerRowClass | logInspect.py:178-190 | a server row is 'warning' iff its error count is positive, otherwise 'success' iff running and 'danger' iff not |
| Report.LogRowClass | logInspect.py:218-228 | a log row is 'warning' iff its counter is positive, otherwise 'success'; never 'danger' |
| Report.ServerRowClassOfWellFormed | logInspect.py:178-190 | in a processed domain a 'warning' server is running and has a log with errors; a 'danger' server has no logs and empty health |
| Report.LogRowClassOfConsistent | logInspect.py:218-226 | for a log whose counter matches its entries, the row is 'warning' iff the log holds entries |
| Report.EntryBlocksFrom | logInspect.py:266-272 | the entry loop emits one block per entry, in order; the k-th is numbered counter+k+1 out of the log's counter and shows the server, the log and "when severity message" |
| Report.LogSections | logInspect.py:265-268 | a server's details list exactly its logs with a positive counter, in order |
| Report.Details | logInspect.py:262-264 | the details section lists exactly the servers with a positive error count, in order |
| Report.EntryNumbering | logInspect.py:266-271 | for a consistent log the blocks are numbered 1..counter, each out of counter |
| Report.ServerSectionNonEmpty | logInspect.py:262-268 | for a consistent server, a details heading appears iff at least one of its logs gets a sub-heading |
| Report.ServerRowHrefAsWritten | logInspect.py:181 | for every server, the flagged server row's link as written is not a fragment link to the server's heading anchor |
| Report.ServerRowHrefAsWrittenMissesAnchor | logInspect.py:181 | for a server named "ms1" that link is not a fragment link to the server's heading |
| Report.ServerRowHref | logInspect.py:181 | corrected: the flagged server row's link is a fragment that targets the server's heading anchor |
| Report.LogRowHref | logInspect.py:222 | a flagged log row's link is a fragment that targets the log's sub-heading anchor |
| Scenario.ScenarioOutcome | logInspect.py:146-151 | one running server with two Error and one Info item and one stopped server: the run completes with error counts 2 and 0 and a details section listing only the running server, its one log and two entry blocks |

## Left out

- `getServerJson` (logInspect.py:18-37): the HTTP request, status check, exception handling, `json.loads` and `sys.exit` are the `fetch` oracle. A missing key is a fault only where the code reads it: `item` and, for a running server, its `health` in a server detail (logInspect.py:52-54). Keys the code does not read at a step (`items` outside a log response, a `title` or `uri` of a link that is skipped, the `timeStamp` and `message` of a non-Error item) are not read by the model either, so the oracle may give them any value. A response without `links` or a log response without `items`, a `title` or `uri` missing from a link the code does read, and a missing `rel` (logInspect.py:44, 57, 66), `state` inside `item` (logInspect.py:52), `severity` of a log item (logInspect.py:97), or `timeStamp`/`message` of an Error item (logInspect.py:98), are not modelled as faults: the oracle's `Response`, `Link`, `ServerItem` and `Item` always carry them. The "exactly when" of `GetLogListUrl`, `GetServerLogUrl` and `ReadServerLogsFails` is therefore stated for responses that carry these keys.
- Credentials and the interactive prompts (logInspect.py:136-144) are terminal I/O. The host string is a parameter of `Run`.
- Timing (logInspect.py:92, 100-101): `time.time()` and `math.floor` on floats become the `elapsed` oracle. It gives a natural number, so the negative differences that a clock step-back could produce, and the `-1:59:59`-style text Python would print for them, are not modelled.
- `FormatTimeOutput` takes a `nat`. Python's `divmod` and `{:02}` on negative integers are outside its domain for the same reason.
- The `print("Reading ...")` progress message (logInspect.py:93) and the console tables (logInspect.py:105-125) are console output that depends on `str.format` padding.
- HTML boilerplate, markup assembly and file writing (logInspect.py:153-272 apart from the row classes, link targets and the details selection; 241-259 entirely) are presentational output and file I/O.
- In-place mutation: Python updates server and log objects shared through the domain's lists. The model returns updated copies and stores them back in position, which is observably the same for a single sequential run.
- The `fetch` oracle is a function of the URL, so a URL fetched twice in one run gets the same answer both times. This happens when two server links share a uri; the live server could change state between the two requests.
- Durations are looked up by log URL. Two logs with the same URL would therefore get the same elapsed time.
- Faults record only which check failed first. The console messages that go with them are not modelled.

## Findings

| source | as written | input that shows it | evidently intended | confidence | as-written member | corrected member |
|---|---|---|---|---|---|---|
| logInspect.py:181 | a flagged server row's link is `href='<server name>'`, a relative URL | any server with errors, e.g. one named `ms1`: the link points at a file `ms1`, not at the `<a name='ms1'>` heading the details section declares (logInspect.py:264) | `href='#<server name>'`, as the log rows write theirs (logInspect.py:221-222) | medium, not executed | Report.ServerRowHrefAsWritten | Report.ServerRowHref |

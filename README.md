# n3fjp2hamclock helpers: command reader and HamClock dispatcher

This project models the two classes of the n3fjp2hamclock helpers library
that do the work, and proves properties about them.

`ApiClient` reads the TCP stream of the N3FJP logging program. Each chunk a
read returns is handled as one message:

- it is trimmed and echoed to the log;
- it is rejected with an error unless it starts with `<CMD>`;
- it is skipped unless it contains `<CALLTABEVENT>`;
- otherwise the `CALL`, `LAT` and `LON` fields are extracted with lazy
  look-around regexes, logged, and the latitude and longitude are handed to
  `HamClockClient.UpdateHamClocks`.

`Disconnect` cancels the read and drops the TCP client. It can be called
again safely.

`HamClockClient` is built from a comma-separated list of HamClock base
addresses. Each address is trimmed and stripped of trailing slashes.
`UpdateHamClocks(lat, lon)` logs the target count and rejects coordinates
that do not parse as numbers. Otherwise it sends one `set_newdx` GET request
per target, in list order, and waits for each before the next. `UpdateDx`
turns every outcome of the HTTP request into log lines; building the
request address happens before its `try` and is not guarded.

The model is organised as follows:

- `Text` (text.dfy): the .NET string operations the code relies on, written
  out. These are `Trim`, `TrimEnd(char)`, ordinal `StartsWith`/`Contains`,
  `Split(',', RemoveEmptyEntries)`, and decimal rendering of integers.
- `TagMatch` (tag_match.dfy): what `Regex.Match(text).Value` returns for the
  patterns `(?<=<T>)(.*?)(?=</T>)`, stated without regexes. It is the leftmost
  start right after an opening tag, then the shortest extent that reaches a
  closing tag without crossing a line feed, or `""` when there is none.
- `Logging` (logging.dfy): the `ILogger` sink as a `Logger` class that records
  `(message, level)` entries in order.
- `Net` (net.dfy): the HTTP side as a `Network` class. The environment chooses
  the outcome of the `k`-th request (a status or an exception). The class
  records the URLs requested. `Effect` pairs the log lines and the URLs of a
  stretch of execution.
- `Mapping` (mapped.dfy): a sequence transformed item by item.
- `HamClock` (hamclock.dfy): target-list parsing, the request address, the
  outcome-to-log mapping, the fan-out over targets, and the `HamClockClient`
  class. The class has the constructor's loop, `UpdateHamClocks`, its
  `foreach`, and `UpdateDx`.
- `Api` (api.dfy): chunk classification and field extraction, the effect of
  one chunk and of a whole session, the disconnect state machine, and the
  `ApiClient` class. The class has `Connect`'s read loop over a sequence of
  chunks, and `Disconnect`.

The methods are proved against pure functions. `UpdateHamClocks` leaves
exactly `UpdateEffect` in the log and the request list, and `Connect` leaves
exactly the `SessionEffect` of its decoded chunks. The properties the source
promises are proved as lemmas about those functions.

What the code does with the stream, as modelled:

- Each read is handled as one message. Nothing is kept between reads and a
  record is never reassembled. A chunk that begins with a call-tab record
  yields that record's fields (`Api.ClassifyRecord`). The event tag is looked
  for anywhere in the chunk and each field is searched for across the whole
  chunk on its own, so a record of another event in front of a call-tab
  record lends the call-tab event its call sign and position
  (`Api.OtherEventFirst`; the chunk of
  src/n3fjp2hamclock/n3fjp2hamclock.tests/ApiMessageTests.cs:192-193, whose
  comment expects the other record to be skipped). A record cut across
  two reads is handled as two messages. The first dispatches whatever
  fields it holds in full, each extracted on its own
  (`Api.CallTabChunk`): for a cut right after the call-sign field that is
  an empty position (`Api.SplitRecord`). The second part, not starting
  with `<CMD>`, is logged as invalid (`Api.TailDecodes`). Only the cut
  right after the call-sign field is proved here. The repository's tests are written against a
  reader that buffers and reassembles: they reach by reflection for a
  `_messageBuffer` field and a `ProcessBufferedCommands` method that
  `ApiClient` does not have
  (src/n3fjp2hamclock/n3fjp2hamclock.tests/ApiClientTests.cs:185-240). The
  model follows `ApiClient`.
- `UpdateHamClocks` is called even when a coordinate is empty, and then
  rejects it, because `""` does not parse as a number.

## Model

| member | source | states |
|---|---|---|
| Text.Trim | src/n3fjp2hamclock/n3fjp2hamclock.helpers/ApiClient.cs:47 | the result is a stretch of the input with only white space before and after it, and it neither starts nor ends with white space (`char.IsWhiteSpace`) |
| Text.TrimmedUnique | src/n3fjp2hamclock/n3fjp2hamclock.helpers/ApiClient.cs:47 | there is only one such stretch, so `Trim` is determined by its contract |
| Text.TrimIgnoresPadding | src/n3fjp2hamclock/n3fjp2hamclock.helpers/ApiClient.cs:47 | white space added around a string does not change its trim |
| Text.TrimPadded | src/n3fjp2hamclock/n3fjp2hamclock.helpers/ApiClient.cs:47 | whatever sits trimmed inside a string is what `Trim` returns once white space is added around it |
| Text.TrimKeeps | src/n3fjp2hamclock/n3fjp2hamclock.helpers/ApiClient.cs:47 | a string that starts and ends with visible characters is its own trim |
| Text.TrimIdempotent | src/n3fjp2hamclock/n3fjp2hamclock.helpers/ApiClient.cs:47 | trimming twice is trimming once |
| Text.TrimEndChar | src/n3fjp2hamclock/n3fjp2hamclock.helpers/HamClockClient.cs:22 | `TrimEnd('/')` keeps a prefix, removes only '/' and leaves no trailing '/' |
| Text.StartsWithAgrees | src/n3fjp2hamclock/n3fjp2hamclock.helpers/ApiClient.cs:51 | the ordinal prefix test: the pattern fits and agrees character by character with the start |
| Text.IntToString | src/n3fjp2hamclock/n3fjp2hamclock.helpers/ApiClient.cs:30 | an integer is rendered with a minus sign exactly when negative, then decimal digits with no leading zero that denote its magnitude |
| Text.IndexOf | src/n3fjp2hamclock/n3fjp2hamclock.helpers/ApiClient.cs:58 | finds the first occurrence at or after the start, or reports that there is none |
| Text.ContainsMeansOccurs | src/n3fjp2hamclock/n3fjp2hamclock.helpers/ApiClient.cs:58 | `Contains` holds exactly when the pattern occurs somewhere |
| Text.SplitOn | src/n3fjp2hamclock/n3fjp2hamclock.helpers/HamClockClient.cs:14 | splitting gives at least one piece and no piece contains the separator |
| Text.JoinSplitOn | src/n3fjp2hamclock/n3fjp2hamclock.helpers/HamClockClient.cs:14 | joining the pieces with the separator gives the string back |
| Text.NonEmpty | src/n3fjp2hamclock/n3fjp2hamclock.helpers/HamClockClient.cs:14 | `RemoveEmptyEntries` keeps no empty piece, and a string is kept exactly when it is a non-empty piece |
| Text.NonEmptyAppend | src/n3fjp2hamclock/n3fjp2hamclock.helpers/HamClockClient.cs:14 | removing empty pieces distributes over concatenation, so the kept pieces stay in their order |
| Text.SplitNonEmpty | src/n3fjp2hamclock/n3fjp2hamclock.helpers/HamClockClient.cs:14 | every piece of `Split(',', RemoveEmptyEntries)` is non-empty and free of commas |
| Text.SplitNonEmptyIsEmptyIff | src/n3fjp2hamclock/n3fjp2hamclock.helpers/HamClockClient.cs:14-18 | no piece remains exactly when the configuration consists of commas only, the empty string included |
| Text.NatToString | src/n3fjp2hamclock/n3fjp2hamclock.helpers/HamClockClient.cs:25 | the rendering of a count is decimal digits without a leading zero |
| Text.NatToStringValue | src/n3fjp2hamclock/n3fjp2hamclock.helpers/HamClockClient.cs:29 | the digits logged denote the count |
| Logging.ErrorCount | src/n3fjp2hamclock/n3fjp2hamclock.helpers/ILogger.cs:8-13 | the number of `Error` entries is zero exactly when no entry has that level |
| Logging.ErrorCountAppend | src/n3fjp2hamclock/n3fjp2hamclock.helpers/ILogger.cs:8-13 | the errors of a concatenation are the errors of its parts |
| Logging.Logger.Log | src/n3fjp2hamclock/n3fjp2hamclock.helpers/ILogger.cs:5 | one call appends exactly one entry with the given message and level |
| Net.Network.Get | src/n3fjp2hamclock/n3fjp2hamclock.helpers/HamClockClient.cs:57-58 | a GET records its URL and returns the environment's answer to the request with that ordinal |
| TagMatch.FindFrom | src/n3fjp2hamclock/n3fjp2hamclock.helpers/ApiClient.cs:112-121 | the search from an offset returns the leftmost match start with its nearest end, or reports that no match starts after the offset |
| TagMatch.FindMatch | src/n3fjp2hamclock/n3fjp2hamclock.helpers/ApiClient.cs:112-121 | the match reported is the one the regex engine selects, or there is no match at all |
| TagMatch.ExtractBetween | src/n3fjp2hamclock/n3fjp2hamclock.helpers/ApiClient.cs:112-121 | `Match(text).Value` is the text of the selected match (leftmost start after the opening tag, shortest extent up to a closing tag, no line feed), or `""` when nothing matches |
| TagMatch.SelectedHasNoClose | src/n3fjp2hamclock/n3fjp2hamclock.helpers/ApiClient.cs:112-121 | no closing tag begins inside a selected match |
| TagMatch.ExtractedIsClean | src/n3fjp2hamclock/n3fjp2hamclock.helpers/ApiClient.cs:112-121 | an extracted value holds no line feed and no closing tag |
| TagMatch.ExtractFromLayout | src/n3fjp2hamclock/n3fjp2hamclock.helpers/ApiClient.cs:112-121 | a field is read back exactly, whatever follows it, when nothing before it can begin its tag and the value cannot begin the closing tag |
| TagMatch.ExtractAbsent | src/n3fjp2hamclock/n3fjp2hamclock.helpers/ApiClient.cs:112-121 | a field whose opening tag never occurs reads as `""` |
| Api.FieldValue | src/n3fjp2hamclock/n3fjp2hamclock.helpers/ApiClient.cs:64-68 | a field as its regex extracts it (`Api.Call`, `Api.Lat`, `Api.Lon` name the three) is on one line and never holds its own closing tag |
| Api.Classify | src/n3fjp2hamclock/n3fjp2hamclock.helpers/ApiClient.cs:51-68 | a message is invalid exactly when it does not start with `<CMD>` (and the error quotes it), ignored exactly when it is a command without `<CALLTABEVENT>`, and otherwise a call-tab event carrying the three extracted fields |
| Api.BlankIsFiller | src/n3fjp2hamclock/n3fjp2hamclock.helpers/ApiClient.cs:64-68 | white space between fields cannot disturb the extraction |
| Api.FillerAppend | src/n3fjp2hamclock/n3fjp2hamclock.helpers/ApiClient.cs:64-68 | several harmless stretches in a row are harmless |
| Api.FieldIsFiller | src/n3fjp2hamclock/n3fjp2hamclock.helpers/ApiClient.cs:64-68 | any other field of a record, such as `<BAND>10</BAND>` or `<COUNTRY>Norway</COUNTRY>`, whose name is not `CALL`, `LAT` or `LON` and whose value is plain, cannot disturb the extraction |
| Api.HeaderIsFiller | src/n3fjp2hamclock/n3fjp2hamclock.helpers/ApiClient.cs:64-68 | the start of a record, `<CMD>` and `<CALLTABEVENT>` with other fields or white space after each, cannot disturb the extraction, although `<CALLTABEVENT>` begins like `<CALL>` |
| Api.CallOfFields | src/n3fjp2hamclock/n3fjp2hamclock.helpers/ApiClient.cs:64 | the call sign is read back exactly from the first call-sign field, whatever follows it, when nothing in front could begin `<CALL>` |
| Api.LatOfFields | src/n3fjp2hamclock/n3fjp2hamclock.helpers/ApiClient.cs:67 | the latitude is read back exactly, whatever other fields or white space precede it |
| Api.LonOfFields | src/n3fjp2hamclock/n3fjp2hamclock.helpers/ApiClient.cs:68 | the longitude is read back exactly, whatever other fields or white space precede it |
| Api.CallTabMessage | src/n3fjp2hamclock/n3fjp2hamclock.helpers/ApiClient.cs:47-58 | a text that starts with `<CMD>`, holds `<CALLTABEVENT>` anywhere and ends in a visible character is its own trimmed message, a command and a call-tab event |
| Api.RecordHeader | src/n3fjp2hamclock/n3fjp2hamclock.helpers/ApiClient.cs:47-58 | a record followed by anything that ends in a visible character passes both tests of the read loop unchanged by trimming |
| Api.ClassifyRecord | src/n3fjp2hamclock/n3fjp2hamclock.helpers/ApiClient.cs:47-68 | a chunk that begins with a call-tab record classifies as a call-tab event with exactly that record's call, latitude and longitude, whatever other fields (band, mode, country, bearing, ...) or white space lie between the tags, `<CMD>` and `<CALLTABEVENT>` included, and whatever follows the record |
| Api.OtherEventMessage | src/n3fjp2hamclock/n3fjp2hamclock.helpers/ApiClient.cs:47-58 | a record of another event followed by a call-tab record passes both tests of the read loop: `<CALLTABEVENT>` counts wherever it occurs |
| Api.OtherEventFields | src/n3fjp2hamclock/n3fjp2hamclock.helpers/ApiClient.cs:64-68 | the call sign, latitude and longitude of such a chunk are those of the other event's record, which comes first |
| Api.OtherEventFirst | src/n3fjp2hamclock/n3fjp2hamclock.helpers/ApiClient.cs:47-68 | so that chunk is a call-tab event carrying the other record's call sign and position, not the call-tab record's |
| Api.DecodedEffect | src/n3fjp2hamclock/n3fjp2hamclock.helpers/ApiClient.cs:48-79 | every pass of the loop echoes the message first, and only a call-tab event sends requests |
| Api.ChunkEffect | src/n3fjp2hamclock/n3fjp2hamclock.helpers/ApiClient.cs:47-79 | the same for a raw chunk: its trimmed message is echoed first, and a chunk that dispatches nothing sends nothing |
| Api.InvalidChunk | src/n3fjp2hamclock/n3fjp2hamclock.helpers/ApiClient.cs:47-55 | a chunk not starting with `<CMD>` logs its echo and exactly one error, `"Invalid message received: " + message`; it sends nothing and dispatches nothing |
| Api.InvalidDecoded | src/n3fjp2hamclock/n3fjp2hamclock.helpers/ApiClient.cs:48-55 | a decoded chunk that classified as invalid logs its echo and exactly one error quoting the message, sends nothing and dispatches nothing |
| Api.IgnoredChunk | src/n3fjp2hamclock/n3fjp2hamclock.helpers/ApiClient.cs:58-61 | a command without `<CALLTABEVENT>` is only echoed, with no error, no request and no dispatch |
| Api.CallTabChunk | src/n3fjp2hamclock/n3fjp2hamclock.helpers/ApiClient.cs:64-79 | a call-tab chunk dispatches its extracted latitude and longitude unchanged, even when empty. It logs the echo and the four field lines, then the target count, and requests exactly what `UpdateHamClocks` requests for those strings |
| Api.CallTabDecoded | src/n3fjp2hamclock/n3fjp2hamclock.helpers/ApiClient.cs:71-79 | the same for an already decoded call-tab event |
| Api.CallTabEffect | src/n3fjp2hamclock/n3fjp2hamclock.helpers/ApiClient.cs:71-79 | a call-tab event logs its echo and fields, then everything `UpdateHamClocks` logs, and requests what it requests |
| Api.ChunkIgnoresPadding | src/n3fjp2hamclock/n3fjp2hamclock.helpers/ApiClient.cs:47 | white space around a chunk changes neither its dispatch nor anything it logs or requests |
| Api.SessionEffect | src/n3fjp2hamclock/n3fjp2hamclock.helpers/ApiClient.cs:45-80 | a session logs at least one line per chunk read |
| Api.InTurnLogs | src/n3fjp2hamclock/n3fjp2hamclock.helpers/ApiClient.cs:45-80 | handling items in turn, each logging a line, logs at least one line per item |
| Api.DecodesAt | src/n3fjp2hamclock/n3fjp2hamclock.helpers/ApiClient.cs:45-47 | the `i`-th chunk of a session is decoded on its own; nothing is dropped, merged or carried over between reads |
| Api.DecodesStep | src/n3fjp2hamclock/n3fjp2hamclock.helpers/ApiClient.cs:45-47 | one more read is one more decoded chunk at the end |
| Api.Dispatches | src/n3fjp2hamclock/n3fjp2hamclock.helpers/ApiClient.cs:45-80 | a session dispatches at most one position per chunk |
| Api.DispatchesAppend | src/n3fjp2hamclock/n3fjp2hamclock.helpers/ApiClient.cs:45-80 | the dispatches of two stretches of a session are those of the first, then those of the second (an in-order filter-map) |
| Api.InTurnSent | src/n3fjp2hamclock/n3fjp2hamclock.helpers/ApiClient.cs:45-80 | when each chunk's requests depend on the chunk alone, handling chunks in turn requests their requests in turn |
| Api.SessionExtend | src/n3fjp2hamclock/n3fjp2hamclock.helpers/ApiClient.cs:45-80 | one more chunk extends the session by that chunk's whole effect, its requests numbered after the earlier ones |
| Api.DecodedSent | src/n3fjp2hamclock/n3fjp2hamclock.helpers/ApiClient.cs:79 | a chunk requests exactly what its dispatch, if any, requests |
| Api.GatheredDispatches | src/n3fjp2hamclock/n3fjp2hamclock.helpers/ApiClient.cs:45-80 | the requests of the chunks, gathered in order, are the requests of the dispatched positions in order |
| Api.SessionRequests | src/n3fjp2hamclock/n3fjp2hamclock.helpers/ApiClient.cs:45-80 | the URLs a session requests are those of its dispatches, in order, whatever the HamClocks answer |
| Api.HeadTail | src/n3fjp2hamclock/n3fjp2hamclock.helpers/ApiClient.cs:45-47 | the two parts of a record cut after its call-sign field make up the record |
| Api.HeadIsCallTab | src/n3fjp2hamclock/n3fjp2hamclock.helpers/ApiClient.cs:47-58 | the first part is a call-tab message as it stands |
| Api.HeadCall | src/n3fjp2hamclock/n3fjp2hamclock.helpers/ApiClient.cs:64 | the first part still yields the call sign: fields are extracted independently |
| Api.HeadNoPosition | src/n3fjp2hamclock/n3fjp2hamclock.helpers/ApiClient.cs:67-68 | the first part yields an empty latitude and longitude |
| Api.TailIsNotCommand | src/n3fjp2hamclock/n3fjp2hamclock.helpers/ApiClient.cs:47-55 | the second part is its own message and does not start with `<CMD>` |
| Api.HeadDecodes | src/n3fjp2hamclock/n3fjp2hamclock.helpers/ApiClient.cs:47-68 | the first part decodes as a call-tab event with the call sign and an empty position |
| Api.TailDecodes | src/n3fjp2hamclock/n3fjp2hamclock.helpers/ApiClient.cs:47-55 | the second part decodes as an invalid message quoting itself |
| Api.EmptyThenInvalid | src/n3fjp2hamclock/n3fjp2hamclock.helpers/ApiClient.cs:45-80 | a call-tab event without a position followed by an invalid message dispatches `("", "")` once and, since `""` is not a number, requests nothing |
| Api.PairDispatches | src/n3fjp2hamclock/n3fjp2hamclock.helpers/ApiClient.cs:45-80 | of such a pair only the call-tab event dispatches, with an empty position |
| Api.NoPositionNoRequests | src/n3fjp2hamclock/n3fjp2hamclock.helpers/ApiClient.cs:79 | an empty position, dispatched once, requests nothing |
| Api.SplitDecodes | src/n3fjp2hamclock/n3fjp2hamclock.helpers/ApiClient.cs:45-68 | the two reads of a cut record decode as a call-tab event without a position, then an invalid message |
| Api.SplitRecord | src/n3fjp2hamclock/n3fjp2hamclock.helpers/ApiClient.cs:45-80 | a record cut in two by the reads dispatches `("", "")` and nothing else, and, since `""` is not a number, no HamClock is contacted |
| Api.DisconnectStep | src/n3fjp2hamclock/n3fjp2hamclock.helpers/ApiClient.cs:96-107 | after `Disconnect` the TCP client is gone and no live cancellation source is left; a source that was not live is kept as it was |
| Api.DisconnectLogs | src/n3fjp2hamclock/n3fjp2hamclock.helpers/ApiClient.cs:98-109 | `Disconnect` logs "Disconnecting from N3FJP API..." and then "Disconnected from N3FJP API." at Info when a client was connected, or "Already disconnected." at Trace otherwise; never an error |
| Api.DisconnectIdempotent | src/n3fjp2hamclock/n3fjp2hamclock.helpers/ApiClient.cs:96-110 | disconnecting twice leaves the same state as once, and the second call logs `"Already disconnected."` |
| Api.DisconnectWhenDisconnected | src/n3fjp2hamclock/n3fjp2hamclock.helpers/ApiClient.cs:99-105 | with no client, `Disconnect` changes nothing |
| Api.DisconnectConsistent | src/n3fjp2hamclock/n3fjp2hamclock.helpers/ApiClient.cs:96-110 | after `Disconnect` no live cancellation source outlives its connection |
| Api.ApiClient.constructor | src/n3fjp2hamclock/n3fjp2hamclock.helpers/ApiClient.cs:17-26 | stores the host, the port and the dispatcher, which shares the logger; no client is connected yet, and no live cancellation source exists without a connection |
| Api.ApiClient.Create | src/n3fjp2hamclock/n3fjp2hamclock.helpers/ApiClient.cs:17-26 | logs `"Initializing API client..."`, then fails exactly when the dispatcher's constructor throws, with its message; otherwise the dispatcher holds the parsed targets |
| Api.ApiClient.Handle | src/n3fjp2hamclock/n3fjp2hamclock.helpers/ApiClient.cs:48-79 | the loop body past decoding leaves exactly the chunk's effect in the log and the request list |
| Api.ApiClient.Advance | src/n3fjp2hamclock/n3fjp2hamclock.helpers/ApiClient.cs:45-80 | handling one chunk extends the log and the requests so far by that chunk's effect |
| Api.ApiClient.Step | src/n3fjp2hamclock/n3fjp2hamclock.helpers/ApiClient.cs:45-80 | after one more pass of the read loop, the log and the requests are those of the session extended by that chunk |
| Api.ApiClient.Connect | src/n3fjp2hamclock/n3fjp2hamclock.helpers/ApiClient.cs:28-94 | a port outside 0..65535 fails after the first line with nothing logged for it, since `new TcpClient` throws `ArgumentOutOfRangeException`, which is not caught. An unreachable host logs one error and fails with nothing else changed. Otherwise it logs the two connection lines, then exactly the session effect of the chunks read, in order, and the URLs requested are exactly the session's. Afterwards the client is connected with a live cancellation source. A closed stream ends in failure exactly when reopening the connection fails; a cancelled read returns quietly. Every read delivers a non-empty chunk (a read of more than 0 bytes), and no live cancellation source outlives the connection |
| Api.ApiClient.Disconnect | src/n3fjp2hamclock/n3fjp2hamclock.helpers/ApiClient.cs:96-110 | the new link and the lines logged are `DisconnectStep` and `DisconnectLogs` of the old link, and no live cancellation source outlives the connection |
| HamClock.NormalizeTarget | src/n3fjp2hamclock/n3fjp2hamclock.helpers/HamClockClient.cs:22 | a stored address neither starts with white space nor ends with '/' |
| HamClock.ParseTargets | src/n3fjp2hamclock/n3fjp2hamclock.helpers/HamClockClient.cs:14-23 | parsing fails exactly when the configuration is commas only, and then with `"No HamClock URIs specified."`; otherwise there is one address per non-empty piece, at least one |
| HamClock.ParseTargetsPieces | src/n3fjp2hamclock/n3fjp2hamclock.helpers/HamClockClient.cs:20-23 | the `k`-th address is the `k`-th non-empty piece, trimmed and stripped of trailing '/', in input order |
| HamClock.ParsedTargetsAreClean | src/n3fjp2hamclock/n3fjp2hamclock.helpers/HamClockClient.cs:22 | no stored address starts with white space or ends with '/' |
| HamClock.BuildUrl | src/n3fjp2hamclock/n3fjp2hamclock.helpers/HamClockClient.cs:46-51 | the request address starts with the base address and ends with the longitude string |
| HamClock.QueryStart | src/n3fjp2hamclock/n3fjp2hamclock.helpers/HamClockClient.cs:48-51 | when the base address has no '?', the first '?' of a request address follows `base + "/set_newdx"` |
| HamClock.LongitudeStart | src/n3fjp2hamclock/n3fjp2hamclock.helpers/HamClockClient.cs:50 | when the latitude has no '&', the first `"&lng="` after `"lat="` in the query ends the latitude |
| HamClock.ParseBuildUrl | src/n3fjp2hamclock/n3fjp2hamclock.helpers/HamClockClient.cs:46-51 | when the base address has no '?' and the latitude no '&', the base address, the latitude and the longitude are recovered verbatim from the request address, so the values are not reformatted |
| HamClock.DxLogsLast | src/n3fjp2hamclock/n3fjp2hamclock.helpers/HamClockClient.cs:52-72 | a request logs two or three lines, and the last is at Trace level exactly when a status came back: it is then the status line, and an exception ends with the error line |
| HamClock.DxLogsErrors | src/n3fjp2hamclock/n3fjp2hamclock.helpers/HamClockClient.cs:52-72 | a request announces its address first. It logs exactly one error, naming the base address and the status or exception message, when it fails (a status other than OK, or an exception), and none when it succeeds |
| HamClock.FanOut | src/n3fjp2hamclock/n3fjp2hamclock.helpers/HamClockClient.cs:38-41 | one request per target |
| HamClock.Urls | src/n3fjp2hamclock/n3fjp2hamclock.helpers/HamClockClient.cs:38-41 | one address per target |
| HamClock.UrlsAt | src/n3fjp2hamclock/n3fjp2hamclock.helpers/HamClockClient.cs:38-41 | the `j`-th address is the `j`-th target's, with the original coordinate strings |
| HamClock.FanOutRequests | src/n3fjp2hamclock/n3fjp2hamclock.helpers/HamClockClient.cs:38-41 | the targets are requested in list order, each once, whatever the responses |
| HamClock.FanOutErrors | src/n3fjp2hamclock/n3fjp2hamclock.helpers/HamClockClient.cs:38-41 | the error lines are exactly one per failed request; a failed request does not stop the later targets |
| HamClock.FanOutStep | src/n3fjp2hamclock/n3fjp2hamclock.helpers/HamClockClient.cs:38-41 | each further target appends its own request and log lines |
| HamClock.UpdateEffect | src/n3fjp2hamclock/n3fjp2hamclock.helpers/HamClockClient.cs:27-42 | one `UpdateHamClocks` call logs the target count first |
| HamClock.UpdateLogsCountFirst | src/n3fjp2hamclock/n3fjp2hamclock.helpers/HamClockClient.cs:29 | `"Updating N HamClock(s)."` is logged first, whether or not the coordinates parse |
| HamClock.UpdateRejectsInvalid | src/n3fjp2hamclock/n3fjp2hamclock.helpers/HamClockClient.cs:32-36 | coordinates that do not parse log exactly one error, `"Invalid lat/lon: " + lat + "/" + lon`, and contact no HamClock |
| HamClock.UpdateRejectsEmpty | src/n3fjp2hamclock/n3fjp2hamclock.helpers/HamClockClient.cs:32-36 | an empty coordinate never reaches a HamClock |
| HamClock.UpdateDispatchesAll | src/n3fjp2hamclock/n3fjp2hamclock.helpers/HamClockClient.cs:38-41 | parsed coordinates give one request per target in list order, with the original strings, and one error per failed request |
| HamClock.Requests | src/n3fjp2hamclock/n3fjp2hamclock.helpers/HamClockClient.cs:32-41 | as many requests as targets when both coordinates parse, none otherwise |
| HamClock.UpdateSent | src/n3fjp2hamclock/n3fjp2hamclock.helpers/HamClockClient.cs:27-42 | what `UpdateHamClocks` requests does not depend on how the HamClocks answer |
| HamClock.HamClockClient.constructor | src/n3fjp2hamclock/n3fjp2hamclock.helpers/HamClockClient.cs:10-26 | for a configuration with at least one piece, the targets are the parsed list and the init line reports their count |
| HamClock.HamClockClient.NormalizeAll | src/n3fjp2hamclock/n3fjp2hamclock.helpers/HamClockClient.cs:20-23 | the constructor's loop yields every piece normalized, in order |
| HamClock.HamClockClient.Create | src/n3fjp2hamclock/n3fjp2hamclock.helpers/HamClockClient.cs:10-26 | construction fails, logging nothing, exactly when parsing fails, with the parse error's message; otherwise it builds the client as the constructor does |
| HamClock.HamClockClient.UpdateDx | src/n3fjp2hamclock/n3fjp2hamclock.helpers/HamClockClient.cs:44-73 | one request to `base + "/set_newdx?lat=" + lat + "&lng=" + lon`, then exactly the log lines `DxLogs` gives for the response |
| HamClock.HamClockClient.UpdateAll | src/n3fjp2hamclock/n3fjp2hamclock.helpers/HamClockClient.cs:38-41 | the `foreach` leaves exactly the fan-out's log lines and requests |
| HamClock.HamClockClient.UpdateHamClocks | src/n3fjp2hamclock/n3fjp2hamclock.helpers/HamClockClient.cs:27-42 | the log and the requests are extended by exactly `UpdateEffect` of the coordinates |

## Left out

- Socket I/O is not modelled: the TCP connection, `ReadAsync`, the 1024-byte
  read buffer and ASCII decoding. A session is the sequence of chunks the
  reads return, already decoded. Whether the host is reachable, and how the
  last read ends, are inputs.
- Cancellation from another thread is not modelled. `Connect` takes as an
  input whether its last read ended by cancellation, so it does not show
  `Disconnect` running during the read loop. After `Connect` returns, the
  link is left connected with a live source.
- Read errors are not modelled. The `catch (SocketException)` at
  ApiClient.cs:87 encloses the whole read loop, but a failing read surfaces as
  an `IOException`, which escapes `Connect` unlogged. Only the failure to open
  the connection is modelled (`reachable`).
- The connection opened again after the stream ends is a boolean input. The
  model does not keep the new socket.
- `HttpClient` and `UriBuilder` are not modelled. The request address is the
  string concatenation the code builds, without URI normalisation or escaping.
- `double.TryParse` is a parameter (`isNumber`), because it is culture-dependent
  floating-point parsing. Only `isNumber("") == false` is assumed, and only
  where a lemma says so.
- `StartsWith("<CMD>")` is culture-sensitive in .NET and the model treats it
  as ordinal. The two differ: a culture-sensitive comparison skips
  zero-weight characters such as U+0000 and U+0001, which an ASCII read can
  deliver, so `"\u0001<CMD>..."` is a command for the code and `Invalid` in
  the model. `Contains` is ordinal in .NET, as modelled.
- Building the request address can throw: `new UriBuilder(base + "/set_newdx")`
  (HamClockClient.cs:48) and `.Uri` (HamClockClient.cs:52) run before the
  `try` of `UpdateDx`. A target of `""` (the configuration `"http://a.com, "`
  yields one) makes it throw `UriFormatException`. The exception stops the
  later targets and escapes `Connect`. That path is not modelled: every
  address is taken to be well formed, and `HamClock.FanOutErrors` and
  `HamClock.HamClockClient.UpdateDx` hold only under that assumption.
- Api.ClassifyRecord: the text between the tags may hold other fields or
  white space, as long as nothing in it could begin `<CALL>`, `<LAT>` or
  `<LON>` (`Api.Filler`). The three values must be free of '<' and line
  feeds: a line feed stops the regex, and a '<' could begin a closing tag
  and cut the value short, so for such values the lemma would be false.
- Api.SplitRecord: the cut is only after the call-sign field, with nothing
  between it and the latitude tag.
- Api.Dispatches: its own contract only bounds the count. The order is stated
  by `Api.DispatchesAppend` and `Api.SessionRequests`.
- Api.Message: it carries no contract of its own; it is `Text.Trim`, whose
  row states what it means.
- HamClock.HamClockClient.constructor: it requires at least one piece; the
  throwing case is `HamClock.HamClockClient.Create`.
- The WPF window, its `Logger` and the tests are outside the model.

# A verified model of the Chrome-agent relay

The relay (`server.py` and friends) is a local process. It reads one JSON
command per stdin line. It forwards the command over a single WebSocket to
a Chrome extension and matches the extension's asynchronous replies back
to their requests by correlation id. It writes one JSON result per command
to stdout. It also echoes `echo '__CMD_…_START'` / `_END` markers to
stderr, so that a persistent terminal can tell when a command has finished.
A companion script, `batch_resolve_urls.py`, reads `名称 | URL` lists and
renders a numbered Markdown table.

The model is written in Dafny in eight modules:

- `Wrappers` (wrappers.dfy): `Option` and `Result`. `Err` carries what a Python call raised.
- `Strings` (strings.dfy): the Python `str` operations the code relies on:
  - `strip` with Python's whitespace set
  - `startswith`/`endswith`, `find`, `split(sep, 1)` and `join`
  - `str(int)`
  - the code-point order `sorted` uses
- `Values` (values.dfy): a decoded JSON value as Python sees it. It covers:
  - truthiness, `dict.get` and `type(v).__name__`
  - `str(v)`/`repr(v)` and iteration with `for`
  - the exceptions the relay raises or passes on, with their `str(e)` text
- `Connection` (connection.dfy): `Context` from context.py. It is a class holding:
  - the attached socket
  - the pending-request table (id to an `Unset`/`Resolved`/`Failed` slot)
  - a log of written frames and closed sockets

  `send_message` is split at its suspension point. `Transmit` registers the
  slot and writes the envelope. `Await` ends the wait, with what a reply
  stored or with the timeout when the slot is still unset: `Await` is the
  timeout step. `AwaitAfter` handles the frames that arrive
  meanwhile. `handle_response` is the pure `Ingest` on the table, and the
  method `HandleResponse` is proved against it.
- `Snapshot` (snapshot.dfy): `capture_aria_snapshot` in utils.py. It sends
  three requests in order, then assembles the page text.
- `Tools` (tools.dfy): every handler of tools.py and the `TOOLS` registry.
  A handler is a function of `params` and of what the peer answers each
  request (`Peer = Request -> Reply`). It yields the requests it sent and
  its result or exception. `Plan` is an independent reference: the full
  request sequence each handler sends, decided from `params` alone.
- `Server` (server.py):
  - `ExecuteCommand`: the `execute_command` ladder.
  - `ClassifyLine` and `OnLine`: the per-line logic of `stdin_reader` and
    its one-variable marker state machine.
  - `Apply` and `Replay`: `handle_extension`'s attach/detach policy, over
    one interleaved stream of stdin lines, connects, frames and disconnects.
  - `Serve`: the imperative loop over a `Context`, proved equal to the pure
    `Replay`.
- `BatchResolve` (batch_resolve_urls.py):
  - `load_from_file` as a loop proved against `ParseLines`
  - the defaults of `load_from_config`
  - `write_markdown` as a loop proved against `Markdown`
  - the `base_domain` rule of `main`, as a loop proved against `Domains`

`json.loads` of a stdin line is a parameter `parse: string -> Option<Value>`.
`None` stands for "not JSON". A frame that is not JSON arrives as `Arrive(sock, None)`.

`handle_response` resolves with `data.get("result", data.get("data"))`
when `payload.result` is `None`. So a top-level `result` that is present
but `null` wins over `data`. The model follows this code.

## Model

| member | source | states |
|---|---|---|
| Values.Field | src/browser-chrome-agent/scripts/context.py:81-82 | `d[key]` is absent exactly when no member has the key; when present it is the value of a member with that key |
| Values.Iterate | src/browser-chrome-agent/scripts/tools.py:168 | `for x in v` fails exactly for None/bool/int; it visits a list's own items, a string's characters as one-character strings, and a dict's keys, in order |
| Values.PyStr | src/browser-chrome-agent/scripts/tools.py:67 | an f-string renders a string as itself, `None`, `True`/`False` and integers as Python literals, lists and dicts bracketed; the text is empty exactly for the empty string |
| Strings.Strip | src/browser-chrome-agent/scripts/batch_resolve_urls.py:96 | `strip()` returns a string with no surrounding whitespace, never longer than its input |
| Strings.StripPadded | src/browser-chrome-agent/scripts/batch_resolve_urls.py:96 | whitespace around a stripped string is exactly what `strip()` removes |
| Strings.StripIdempotent | src/browser-chrome-agent/scripts/batch_resolve_urls.py:105-106 | stripping twice is stripping once |
| Strings.Find | src/browser-chrome-agent/scripts/batch_resolve_urls.py:99 | the first index holding the character, and none exactly when the character is absent |
| Strings.SplitOnce | src/browser-chrome-agent/scripts/batch_resolve_urls.py:100 | `split(c, 1)`: a head free of `c`, and head + c + tail gives back the line |
| Strings.SplitOnceOfConcat | src/browser-chrome-agent/scripts/batch_resolve_urls.py:100 | splitting a separator-free head glued to any tail gives back both parts |
| Strings.JoinEmptyIsEmpty | src/browser-chrome-agent/scripts/tools.py:168 | `sep.join(parts)` is empty exactly when all parts are empty and there is at most one part or no separator |
| Strings.DecimalRoundTrip | src/browser-chrome-agent/scripts/batch_resolve_urls.py:119-120 | reading back the decimal rendering of a row number gives the number |
| Strings.LexLessTransitive | src/browser-chrome-agent/scripts/server.py:116 | the code-point order `sorted` uses is transitive |
| Strings.LexLessTotal | src/browser-chrome-agent/scripts/server.py:116 | any two different strings are ordered one way or the other |
| Strings.LexLessIrreflexive | src/browser-chrome-agent/scripts/server.py:116 | no string precedes itself |
| Strings.StrictlySortedUnique | src/browser-chrome-agent/scripts/server.py:116 | two strictly increasing sequences of the same strings are equal, so `sorted` has one answer |
| Connection.Envelope | src/browser-chrome-agent/scripts/context.py:58-64 | the message carries `id` and `type`, and `payload` exactly when the payload is not None, with the keys in that order |
| Connection.Settle | src/browser-chrome-agent/scripts/context.py:71-74 | a wait returns the slot's value exactly when the slot was resolved; a failed slot raises RuntimeError carrying the peer's error; an unset slot raises the timeout for the message type and timeout |
| Connection.TimeoutText | src/browser-chrome-agent/scripts/context.py:73-74 | the timeout's text is `消息 '{type}' 超时（{ms}ms）` |
| Connection.CorrelationId | src/browser-chrome-agent/scripts/context.py:83 | `payload.get("requestId") or data.get("id")`; stated by `Connection.TargetChoice` |
| Connection.SlotFor | src/browser-chrome-agent/scripts/context.py:86-91 | what a reply stores in the slot; stated by `Connection.SlotForChoice` |
| Connection.Target | src/browser-chrome-agent/scripts/context.py:83-84 | the pending id a frame can settle; used by `Connection.IngestResolves` and `Connection.IngestDropsUnknown`, and stated by `Connection.TargetChoice` |
| Connection.Ingest | src/browser-chrome-agent/scripts/context.py:78-91 | `handle_response` keeps the table's ids and changes a slot only from unset to set |
| Connection.IngestRaises | src/browser-chrome-agent/scripts/context.py:81-83 | it raises exactly for a non-dict frame, a non-dict payload, or a truthy list/dict id |
| Connection.TargetChoice | src/browser-chrome-agent/scripts/context.py:82 | the id is `payload.requestId` when truthy, else the top-level `id` |
| Connection.IngestDropsUnknown | src/browser-chrome-agent/scripts/context.py:83 | a frame with a falsy id or an id not pending leaves the table unchanged |
| Connection.IngestTouchesOnlyTarget | src/browser-chrome-agent/scripts/context.py:83-91 | no slot other than the addressed one changes |
| Connection.IngestFirstWriterWins | src/browser-chrome-agent/scripts/context.py:85 | a resolved or failed slot is never overwritten |
| Connection.IngestResolves | src/browser-chrome-agent/scripts/context.py:83-91 | a frame for a pending unset id sets exactly that slot to what `SlotFor` chooses |
| Connection.SlotForChoice | src/browser-chrome-agent/scripts/context.py:86-91 | the slot fails exactly when `payload.error` or `data.error` is truthy, with the payload's error first and otherwise `data.error`; without an error it holds `payload.result` unless None, else a present `data.result` (even a null one), else `data.data` |
| Connection.ConcurrentRequestsIndependent | src/browser-chrome-agent/scripts/context.py:83-91 | a frame for one request never resolves another one in flight |
| Connection.LateReplyDropped | src/browser-chrome-agent/scripts/context.py:76-83 | a reply arriving after its id left the table changes nothing |
| Connection.IngestAll | src/browser-chrome-agent/scripts/context.py:78-91 | handling frames in order keeps the ids and every slot already set |
| Connection.IngestAllKeepsFirst | src/browser-chrome-agent/scripts/context.py:85-91 | the first frame that resolves a slot decides its final state, whatever follows |
| Connection.Context.constructor | src/browser-chrome-agent/scripts/context.py:32-34 | a new context has no socket and no pending requests |
| Connection.Context.HasWs | src/browser-chrome-agent/scripts/context.py:48-49 | `has_ws()` is true exactly when a socket is attached |
| Connection.Context.GetWs | src/browser-chrome-agent/scripts/context.py:36-42 | reading `ws` returns the socket, or raises ConnectionError exactly when none is attached |
| Connection.Context.SetWs | src/browser-chrome-agent/scripts/context.py:44-46 | the setter attaches the socket |
| Connection.Context.Transmit | src/browser-chrome-agent/scripts/context.py:58-70 | with a socket and a working `send`, it registers an unset slot and writes the envelope on that socket; without a socket (ConnectionError) or on a send fault, the table and the written frames are as before |
| Connection.Context.Await | src/browser-chrome-agent/scripts/context.py:71-76 | the wait ends as `Settle` of the slot, and the id leaves the table |
| Connection.Context.HandleResponse | src/browser-chrome-agent/scripts/context.py:78-91 | the new table is `Ingest` of the old one, or the method reports what `Ingest` raises and the table is unchanged |
| Connection.Context.AwaitAfter | src/browser-chrome-agent/scripts/context.py:71-76 | after the inbound frames are handled in order, the result is `Settle` of the slot in `IngestAll`, and the id is removed |
| Connection.Context.SendMessage | src/browser-chrome-agent/scripts/context.py:51-76 | on every exit the id is gone and the other ids are unchanged; not connected and send faults leave the table and the written frames as before; otherwise the envelope is written on the attached socket and the result is decided by the frames that arrived |
| Connection.Context.Close | src/browser-chrome-agent/scripts/context.py:93-96 | afterwards no socket is attached; the old one, if any, is closed; the table is not touched |
| Snapshot.TextResult | src/browser-chrome-agent/scripts/utils.py:75 | the result is a dict with `type` `"text"` and the text |
| Snapshot.Text | src/browser-chrome-agent/scripts/utils.py:63-73 | the text opens with the status and URL lines, then holds exactly the `- Page Title: {title}` line, and ends with the snapshot in a ```` ```yaml ```` fence |
| Snapshot.TextOpening | src/browser-chrome-agent/scripts/utils.py:63-67 | the text starts with `status + "\n"` exactly when the status is non-empty, and otherwise with `- Page URL: ` |
| Snapshot.CaptureAriaSnapshot | src/browser-chrome-agent/scripts/utils.py:57-75 | it sends a non-empty prefix of `getUrl`, `getTitle`, `browser_snapshot`, and every request before the last one sent returned. It succeeds exactly when all three return, and then sent all three and built the text result. A failure is the error of the last request sent |
| Snapshot.RequestPayloads | src/browser-chrome-agent/scripts/utils.py:59-61 | `getUrl` and `getTitle` go without a payload, `browser_snapshot` with `{}` |
| Tools.NavigateTool | src/browser-chrome-agent/scripts/tools.py:29-36 | `navigate`: refuses a missing or empty `url`, else sends `browser_navigate` then the snapshot; stated by `Tools.HandleFollowsPlan` and `Tools.MissingArgumentsRefused` |
| Tools.GoBackTool | src/browser-chrome-agent/scripts/tools.py:39-43 | `go_back`: `browser_go_back` then the snapshot; stated by `Tools.ActThenSnapshotFollowsPlan` |
| Tools.GoForwardTool | src/browser-chrome-agent/scripts/tools.py:46-50 | `go_forward`: `browser_go_forward` then the snapshot; stated by `Tools.ActThenSnapshotFollowsPlan` |
| Tools.ClickTool | src/browser-chrome-agent/scripts/tools.py:55-68 | `click`: refuses a missing `ref`, swallows a click timeout and then snapshots with the `已点击` status; stated by `Tools.ClickFollowsPlan`, `Tools.ClickTimeoutSwallowed` and `Tools.ClickOtherErrorRaises` |
| Tools.HoverTool | src/browser-chrome-agent/scripts/tools.py:71-78 | `hover`: refuses a missing `ref`, else `browser_hover` then the snapshot; stated by `Tools.HandleFollowsPlan` |
| Tools.TypeTextTool | src/browser-chrome-agent/scripts/tools.py:81-92 | `type_text`: checks `ref` before `text`, sends `submit` defaulting to False, then snapshots; stated by `Tools.ArgumentDefaults` and `Tools.MissingArgumentsRefused` |
| Tools.SelectOptionTool | src/browser-chrome-agent/scripts/tools.py:95-105 | `select_option`: refuses a missing `ref` or falsy `values`, else `browser_select_option` then the snapshot; stated by `Tools.HandleFollowsPlan` |
| Tools.DragTool | src/browser-chrome-agent/scripts/tools.py:108-116 | `drag`: refuses unless both refs are given, else `browser_drag` then the snapshot; stated by `Tools.HandleFollowsPlan` |
| Tools.PressKeyTool | src/browser-chrome-agent/scripts/tools.py:121-127 | `press_key`: refuses a missing `key`, else one `browser_press_key` request; when it returns, the result is the text `已按下 {key}`; stated by `Tools.ActThenTextFollowsPlan` |
| Tools.WaitTool | src/browser-chrome-agent/scripts/tools.py:130-134 | `wait`: sends `time` defaulting to 1 (`Tools.ArgumentDefaults`); when the request returns, the result is the text `已等待 {time} 秒` (`Tools.ActThenTextFollowsPlan`) |
| Tools.ScreenshotTool | src/browser-chrome-agent/scripts/tools.py:139-156 | `screenshot`: sends exactly `browser_screenshot`, and a run that fails stopped at that raising request with its error; stated by `Tools.ScreenshotFollowsPlan` |
| Tools.TakeSnapshotTool | src/browser-chrome-agent/scripts/tools.py:159-162 | `snapshot`: the three snapshot requests; stated by `Tools.SnapshotFollowsPlan` |
| Tools.LogLines | src/browser-chrome-agent/scripts/tools.py:168 | the log lines joined by newlines, empty exactly for falsy logs or one empty item; stated by `Tools.LogLinesEmpty` |
| Tools.GetConsoleLogsTool | src/browser-chrome-agent/scripts/tools.py:165-169 | `get_console_logs`: sends exactly `browser_get_console_logs`, passing on its error if it raises, then the joined logs or the placeholder; stated by `Tools.GetConsoleLogsFollowsPlan` and `Tools.ConsoleLogsPlaceholder` |
| Tools.GetHtmlTool | src/browser-chrome-agent/scripts/tools.py:172-186 | `get_html`: refuses a missing `savePath`, else exactly one `getPageHtml` request, passing on its error if it raises; stated by `Tools.HandleFollowsPlan` and `Tools.MissingArgumentsRefused` |
| Tools.Handle | src/browser-chrome-agent/scripts/tools.py:191-206 | calling the handler an action maps to; every handler follows its plan, as `Tools.HandleFollowsPlan` states |
| Tools.Plan | src/browser-chrome-agent/scripts/tools.py:29-186 | the reference request sequence of each handler, decided from `params` alone; `Tools.HandleFollowsPlan` ties every handler to it |
| Tools.SnapshotFollowsPlan | src/browser-chrome-agent/scripts/tools.py:159-162 | a snapshot after earlier requests sends a prefix of the three requests, all of them when every reply returns, and stops short only at a raising request whose error is the result |
| Tools.ActThenSnapshotFollowsPlan | src/browser-chrome-agent/scripts/tools.py:39-50 | an action followed by a snapshot sends the action then the snapshot requests, all of them when every reply returns, and stops short only at a raising request whose error is the result |
| Tools.ActThenTextFollowsPlan | src/browser-chrome-agent/scripts/tools.py:121-134 | an action answered with a text result sends exactly that one request; when it returns the result is that text, and when it raises the result is its error |
| Tools.ClickFollowsPlan | src/browser-chrome-agent/scripts/tools.py:55-68 | `click` follows its plan even when the click itself times out |
| Tools.ScreenshotFollowsPlan | src/browser-chrome-agent/scripts/tools.py:139-156 | `screenshot` sends exactly `browser_screenshot`; if it raises, the result is its error |
| Tools.GetConsoleLogsFollowsPlan | src/browser-chrome-agent/scripts/tools.py:165-169 | `get_console_logs` sends exactly `browser_get_console_logs`; if it raises, the result is its error |
| Tools.HandleFollowsPlan | src/browser-chrome-agent/scripts/tools.py:29-186 | every handler sends a prefix of its plan, the whole plan when every reply returns, and stops short only at a request that raised; whenever the last request sent raised, its error is the result |
| Tools.MissingArgumentsRefused | src/browser-chrome-agent/scripts/tools.py:31-177 | each missing or falsy required argument gives that handler's error and sends nothing; `type` checks `ref` before `text`, `select_option` checks `ref` before `values` |
| Tools.RefusalIffNothingSent | src/browser-chrome-agent/scripts/tools.py:29-186 | a handler returns a failure dict exactly when it returned without sending anything |
| Tools.ClickTimeoutSwallowed | src/browser-chrome-agent/scripts/tools.py:61-68 | a `browser_click` timeout is swallowed and the snapshot is taken all the same |
| Tools.ClickOtherErrorRaises | src/browser-chrome-agent/scripts/tools.py:61-63 | any other click error propagates, and no snapshot is taken |
| Tools.ArgumentDefaults | src/browser-chrome-agent/scripts/tools.py:85-133 | `type` sends `submit: False` unless given; `wait` sends `time: 1` unless given |
| Tools.LogLinesEmpty | src/browser-chrome-agent/scripts/tools.py:168 | the joined log text is empty exactly when the logs are falsy or iterate to a single empty string |
| Tools.ConsoleLogsPlaceholder | src/browser-chrome-agent/scripts/tools.py:165-169 | the result shows the joined logs, or `（无日志）` exactly when that text is empty |
| Tools.RegistryEntries | src/browser-chrome-agent/scripts/tools.py:191-206 | `status` and `quit` are not keys; `type` maps to `type_text` and `snapshot` to `snapshot` |
| Tools.RegistryNames | src/browser-chrome-agent/scripts/tools.py:191-206 | the registry's keys are exactly the 14 listed names |
| Tools.SortedNamesSorted | src/browser-chrome-agent/scripts/server.py:116 | the listed names are strictly increasing in code-point order |
| Tools.SortedNamesUnique | src/browser-chrome-agent/scripts/server.py:116 | any strictly increasing listing of the registry's keys is that list, so it is `sorted(TOOLS.keys())` |
| Server.ResultDict | src/browser-chrome-agent/scripts/server.py:106-127 | the result dict's `success` tells the outcome, with `data` on success and `error` on failure |
| Server.Lookup | src/browser-chrome-agent/scripts/server.py:114 | `TOOLS.get(action)` raises TypeError exactly for a list or dict action, and finds a handler exactly for a registered name |
| Server.ExecuteCommand | src/browser-chrome-agent/scripts/server.py:102-127 | it raises exactly for an unhashable action, and then sends nothing; it sends only when connected and the action is registered |
| Server.StatusAndQuit | src/browser-chrome-agent/scripts/server.py:105-111 | `status` answers `connected = has_ws()` and `quit` its notice, whatever the registry or the connection, and neither sends anything |
| Server.UnknownBeforeConnection | src/browser-chrome-agent/scripts/server.py:114-121 | an unknown action fails with `未知操作: {action}。可用操作: ` and the sorted names joined by `, `, connected or not |
| Server.NotConnectedSkipsHandler | src/browser-chrome-agent/scripts/server.py:120-121 | without a connection a known action fails with the not-connected message and sends nothing |
| Server.HandlerExceptionsCaught | src/browser-chrome-agent/scripts/server.py:123-127 | with a connection the handler runs; its result is returned as is, and what it raises becomes `{"success": False, "error": str(e)}` |
| Server.CommandFollowsPlan | src/browser-chrome-agent/scripts/server.py:123-125 | a command sends a prefix of its handler's plan, all of it when connected and every reply returns |
| Server.ClassifyLine | src/browser-chrome-agent/scripts/server.py:162-187 | after stripping, a line is blank, a marker (`echo '__CMD_` … `'`, content `line[6:-1]`), not JSON, or a command, and each exactly when its condition holds |
| Server.MarkerContent | src/browser-chrome-agent/scripts/server.py:167-168 | a marker line is `echo '` + content + `'`, with content starting `__CMD_` |
| Server.AfterEcho | src/browser-chrome-agent/scripts/server.py:196-198 | after a command a set marker is cleared |
| Server.Respond | src/browser-chrome-agent/scripts/server.py:189-204 | reading `action` and `params` and executing, or the internal error when something raised; stops only after `quit`, as `Server.RespondStops` states |
| Server.OnCommand | src/browser-chrome-agent/scripts/server.py:192-207 | the result, then the pending marker's `_END` echo, and the marker cleared; stated by `Server.CommandShape` and `Server.EndEchoedOnce` |
| Server.OnMarker | src/browser-chrome-agent/scripts/server.py:167-181 | a `_START` marker records its id and is echoed; anything else changes nothing; stated by `Server.MarkerStart` and `Server.MarkerOtherIgnored` |
| Server.OnLine | src/browser-chrome-agent/scripts/server.py:159-207 | one loop iteration for a line that was read; stated by `Server.OneOutputPerCommand`, `Server.StopsOnlyOnQuit` and `Server.OnLineKeepsMarkerValid` |
| Server.InputStep | src/browser-chrome-agent/scripts/server.py:159-207 | a stdin line runs the loop body with the connection state of the moment; `Server.Serve` is proved against it through `Server.Apply` |
| Server.Apply | src/browser-chrome-agent/scripts/server.py:78-98 | one event: a line, a connection that replaces the previous one, a frame, or a detach; stated by `Server.AttachReplaces`, `Server.StaleDetachIgnored` and `Server.FaultyFrameDetaches` |
| Server.Replay | src/browser-chrome-agent/scripts/server.py:157-207 | the events in order up to the line that stops the loop; stated by `Server.ReplayStopped`, `Server.ReplayExtends` and `Server.ReplayKeepsMarkerValid` |
| Server.OneOutputPerCommand | src/browser-chrome-agent/scripts/server.py:163-193 | blank, marker and non-JSON lines write nothing to stdout; a command line writes exactly one result |
| Server.CommandShape | src/browser-chrome-agent/scripts/server.py:192-207 | a command writes its result first, then at most the marker echo, and exactly one stdout line |
| Server.RespondStops | src/browser-chrome-agent/scripts/server.py:189-201 | a command line stops the loop exactly when it is a dict whose `action` is `quit`, and then the answer is the shutdown notice |
| Server.MarkerStart | src/browser-chrome-agent/scripts/server.py:169-172 | a `_START` marker records the content minus its last 6 characters (non-empty) and echoes the content |
| Server.MarkerOtherIgnored | src/browser-chrome-agent/scripts/server.py:173-181 | an `_END` marker, matching or not, and any other marker change nothing and write nothing |
| Server.EndEchoedOnce | src/browser-chrome-agent/scripts/server.py:195-207 | after a command, the internal-error path included, a pending marker is echoed once as `{id}_END` right after the result, and is cleared |
| Server.StopsOnlyOnQuit | src/browser-chrome-agent/scripts/server.py:200-201 | the loop stops exactly after a `quit` command, whose result is the first thing written |
| Server.OnLineKeepsMarkerValid | src/browser-chrome-agent/scripts/server.py:166-198 | the pending marker is never the empty string, so a set marker is always echoed |
| Server.AttachReplaces | src/browser-chrome-agent/scripts/server.py:80-84 | a new connection closes the previous one, if any, and is then stored |
| Server.StaleDetachIgnored | src/browser-chrome-agent/scripts/server.py:96-98 | when a replaced connection's handler ends, the newer connection stays; the current one's end clears it |
| Server.FaultyFrameDetaches | src/browser-chrome-agent/scripts/server.py:87-98 | a frame that makes `handle_response` raise ends that socket's handler, which detaches it only if it is current |
| Server.ReplayStopped | src/browser-chrome-agent/scripts/server.py:200-201 | after the loop has stopped, no further event has any effect |
| Server.ReplayExtends | src/browser-chrome-agent/scripts/server.py:157-207 | the lines written and the requests sent only grow |
| Server.ReplayKeepsMarkerValid | src/browser-chrome-agent/scripts/server.py:157-207 | the marker stays non-empty through any run |
| Server.OnAttach | src/browser-chrome-agent/scripts/server.py:80-84 | the old socket, if any, is closed; the new one is attached; the table is untouched |
| Server.OnArrive | src/browser-chrome-agent/scripts/server.py:88-93 | a JSON frame updates the table as `Ingest` does; a non-JSON frame changes nothing; a raising frame detaches its socket if current |
| Server.OnDetach | src/browser-chrome-agent/scripts/server.py:96-98 | `_ws` is cleared only if it is still this socket |
| Server.OnEvent | src/browser-chrome-agent/scripts/server.py:157-207 | one event (a stdin line, a connection attaching, a frame arriving, a socket closing) changes the context and the loop state exactly as `Apply` describes; it writes no frame to the socket, because a command's own requests are answered through the event's `Io` |
| Server.ReplayStep | src/browser-chrome-agent/scripts/server.py:200-207 | replaying from event `i` is applying event `i` and replaying the rest, while the loop has not stopped |
| Server.Serve | src/browser-chrome-agent/scripts/server.py:157-207 | the loop over the interleaved events leaves the context, the marker, the lines written, the requests sent and the stop flag exactly as `Replay` describes |
| BatchResolve.ParseLine | src/browser-chrome-agent/scripts/batch_resolve_urls.py:95-107 | a line is skipped exactly when it is blank or a `#` comment after stripping; name and URL come out stripped |
| BatchResolve.ParseLines | src/browser-chrome-agent/scripts/batch_resolve_urls.py:93-108 | at most one link per line |
| BatchResolve.PipeFirst | src/browser-chrome-agent/scripts/batch_resolve_urls.py:99-100 | a line holding a pipe splits at its first pipe, whatever tabs it holds |
| BatchResolve.TabSecond | src/browser-chrome-agent/scripts/batch_resolve_urls.py:101-102 | a line without a pipe splits at its first tab |
| BatchResolve.NoSeparator | src/browser-chrome-agent/scripts/batch_resolve_urls.py:103-106 | a line without a separator gives `(line, line)` |
| BatchResolve.ParseLinesAppend | src/browser-chrome-agent/scripts/batch_resolve_urls.py:93-108 | the links keep the order of the lines |
| BatchResolve.ParseLinesCount | src/browser-chrome-agent/scripts/batch_resolve_urls.py:93-108 | exactly one link per kept line |
| BatchResolve.FormatLineRoundTrip | src/browser-chrome-agent/scripts/batch_resolve_urls.py:95-107 | a link written as name, padded pipe, URL reads back as itself when the name is stripped, non-empty, free of pipes and not a comment |
| BatchResolve.LoadFromFile | src/browser-chrome-agent/scripts/batch_resolve_urls.py:91-108 | the loop collects exactly `ParseLines` of the file's lines |
| BatchResolve.ItemPair | src/browser-chrome-agent/scripts/batch_resolve_urls.py:78 | `(item["name"], item["url"])` succeeds exactly when the item is a dict holding both keys, and then pairs those two values |
| BatchResolve.Items | src/browser-chrome-agent/scripts/batch_resolve_urls.py:78 | each item's pair is its `name` and `url`, in order, one per item |
| BatchResolve.LoadFromConfig | src/browser-chrome-agent/scripts/batch_resolve_urls.py:74-88 | a non-dict configuration or a missing `links` raises |
| BatchResolve.ConfigDefaults | src/browser-chrome-agent/scripts/batch_resolve_urls.py:79-87 | a missing setting takes its default: the default patterns, `output.md`, `链接汇总`, or the empty description; a given one is taken as given |
| BatchResolve.ConfigLinks | src/browser-chrome-agent/scripts/batch_resolve_urls.py:78 | a list of well-formed items loads, as their `(name, url)` pairs in order |
| BatchResolve.MarkdownOpening | src/browser-chrome-agent/scripts/batch_resolve_urls.py:114-118 | the file opens with `# {title}`; a `> {description}` block follows exactly when the description is non-empty, and otherwise the table header |
| BatchResolve.Rows | src/browser-chrome-agent/scripts/batch_resolve_urls.py:119-120 | one numbered row per result, starting at 1; stated by `BatchResolve.RowsNumbered` |
| BatchResolve.Markdown | src/browser-chrome-agent/scripts/batch_resolve_urls.py:111-120 | the whole file text; stated by `BatchResolve.MarkdownOpening` and `BatchResolve.RowsNumbered` |
| BatchResolve.AfterScheme | src/browser-chrome-agent/scripts/batch_resolve_urls.py:156 | the text after the scheme is never longer than the URL; `BatchResolve.AfterSchemeSuffix` states where it starts |
| BatchResolve.AfterSchemeSuffix | src/browser-chrome-agent/scripts/batch_resolve_urls.py:156 | what follows the scheme is a suffix of the URL; when a scheme was cut, it ended at the first `:` |
| BatchResolve.Domains | src/browser-chrome-agent/scripts/batch_resolve_urls.py:154-158 | the set of non-empty netlocs of the links; stated by `BatchResolve.DomainSource` and `BatchResolve.DomainCollected` |
| BatchResolve.RowsAppend | src/browser-chrome-agent/scripts/batch_resolve_urls.py:119-120 | numbering carries on across a split of the results |
| BatchResolve.RowsNumbered | src/browser-chrome-agent/scripts/batch_resolve_urls.py:119-120 | the `k`-th result is row number `k + 1`, between the earlier and the later rows |
| BatchResolve.WriteMarkdown | src/browser-chrome-agent/scripts/batch_resolve_urls.py:111-120 | the loop writes exactly `Markdown(results, title, description)` |
| BatchResolve.NetlocEnd | src/browser-chrome-agent/scripts/batch_resolve_urls.py:156 | the network location ends at the first `/`, `?` or `#` |
| BatchResolve.Netloc | src/browser-chrome-agent/scripts/batch_resolve_urls.py:156-157 | a network location never holds `/`, `?` or `#` |
| BatchResolve.DomainSource | src/browser-chrome-agent/scripts/batch_resolve_urls.py:154-158 | every collected domain is the non-empty netloc of some link |
| BatchResolve.DomainCollected | src/browser-chrome-agent/scripts/batch_resolve_urls.py:154-158 | every link's non-empty netloc is collected |
| BatchResolve.InferBaseDomain | src/browser-chrome-agent/scripts/batch_resolve_urls.py:152-159 | `base_domain` is set exactly when one distinct non-empty netloc occurs, and then it is that netloc |
| BatchResolve.BaseDomainMeaning | src/browser-chrome-agent/scripts/batch_resolve_urls.py:154-159 | when it is set, every link with a domain has the base domain, and some link does |
| BatchResolve.TwoDomainsNoBase | src/browser-chrome-agent/scripts/batch_resolve_urls.py:154-159 | two links on different hosts leave the base domain unset |

## Left out

- asyncio: the event loop, futures, `wait_for` and wall-clock time are left out. The end of a wait is the explicit step `Await`, and a still-unset slot at that point is the timeout.
- `uuid.uuid4` is not generated; a fresh id is the precondition `id !in pending`.
- JSON encoding and decoding are left out. `json.dumps` of the envelope is the `Value` itself. `json.loads` is the `parse` parameter, or `None` on a frame. Duplicate JSON keys are assumed absent (lookup takes the first).
- Numbers are integers only; floats (`delay`, `size_kb`, float `time` values) are not modelled.
- Values.PyStr: `repr` escapes control characters but treats every other character as printable. Python also escapes non-printable non-ASCII characters.
- UTF-8 decoding errors on stdin lines (caught by the loop's `except`) are not modelled; lines arrive as text.
- End of input (`readline()` returning nothing) is the end of the event sequence.
- Logging: `termios` echo toggling, stdout flushing and every stderr log line other than the marker echoes are left out.
- `run_server`, single-command mode and the `websockets.serve` listener are left out.
- `is_port_in_use` and `kill_process_on_port` are left out (sockets and shell subprocesses).
- In `screenshot` and `get_html`, the file writes, `mkdir`, base64 decoding and the file size are left out. The formatted size is an input (`Io.htmlSizeKb`). A failing write is not modelled.
- `asyncio.sleep(1)` after a click timeout is left out; only its effect on the request sequence is kept.
- Server.OnEvent: in the program a command's requests are written to the socket (context.py:68). The model records them in `sent` and takes their replies from the event's `Io`, so `written` stays unchanged here.
- Server.Serve: the requests a handler sends are recorded in `sent` and answered by the event's `Io`. They are not threaded through `Context.SendMessage`, so the model does not tie those replies to the frames arriving on the socket.
- Server.Serve: frames from a socket that was already replaced are still handled, as the code does. The event stream is assumed to be one the scheduler could produce.
- BatchResolve.LoadFromConfig: the `delay` setting is left out (a float). Only the error cases are stated in its contract; `ConfigDefaults` and `ConfigLinks` state the rest.
- BatchResolve.Netloc: a simplified `urlsplit`. It keeps the scheme rule and the `//` authority up to `/`, `?` or `#`. It leaves out control-character stripping, IPv6 bracket validation and the lowercase scheme.
- `resolve_url` (an HTTP request and a regex search) and the CLI precedence between flags and configuration in `main` are left out. For `base_domain` the links are `(string, string)` pairs.
- `load_from_file`'s file reading and line splitting are left out; the method takes the file's lines.
- Tools.RegistryNames: the registry's size (14) appears as the 14 listed names, not as a cardinality.

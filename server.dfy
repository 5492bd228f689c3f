/**
 * The relay's front end (server.py): the `execute_command` decision ladder,
 * the per-line logic of `stdin_reader` with its `echo '__CMD_…'` marker
 * handshake, and `handle_extension`'s connection-replacement policy. The
 * events the relay reacts to (stdin lines, websocket connects, frames and
 * disconnects) arrive as one interleaved sequence; `Serve` processes them
 * on a `Context` and is proved against the pure `Replay`.
 */
module Server {
  import opened Wrappers
  import opened Strings
  import opened Values
  import opened Connection
  import opened Tools

  const QuitNotice := "服务器关闭中..."
  const NotAttached := "未连接到浏览器扩展。请先点击扩展图标并连接。"
  const UnknownAction := "未知操作: "
  const AvailableActions := "。可用操作: "
  const InternalError := "内部错误: "

  /** `", ".join(sorted(TOOLS.keys()))`. */
  function Available(): string {
    Join(", ", SortedNames)
  }

  /** The dict a command's outcome is written out as. */
  function ResultDict(o: Outcome): (v: Value)
    ensures v.Obj? && Field(v.members, "success") == Some(Bool(o.Success?))
    ensures o.Success? ==> Field(v.members, "data") == Some(o.data)
    ensures o.Failure? ==> Field(v.members, "error") == Some(Str(o.error))
  {
    var m := match o
      case Success(data) => [Member("success", Bool(true)), Member("data", data)]
      case Failure(error) => [Member("success", Bool(false)), Member("error", Str(error))];
    assert m[1..][0] == m[1];
    Obj(m)
  }

  /** `TOOLS.get(action)`: a list or dict cannot be looked up at all. */
  function Lookup(action: Value): (r: Result<Option<Tool>, Exception>)
    ensures r.Err? <==> !Hashable(action)
    ensures r.Err? ==> r.error == Unhashable(TypeName(action))
    ensures r.Ok? && r.value.Some? <==> action.Str? && action.s in Registry
    ensures r.Ok? && r.value.Some? ==> r.value.value == Registry[action.s]
  {
    if !Hashable(action) then Err(Unhashable(TypeName(action)))
    else if action.Str? && action.s in Registry then Ok(Some(Registry[action.s]))
    else Ok(None)
  }

  /**
   * `execute_command`: status, then quit, then the registry, then the
   * connection, then the handler with its exceptions turned into failures.
   * The only exception that escapes is the lookup of an unhashable action.
   */
  function ExecuteCommand(connected: bool, action: Value, params: Value, io: Io): (r: Run<Outcome>)
    ensures r.result.Err? <==> !Hashable(action)
    ensures r.result.Err? ==> r.sent == [] && r.result.error == Unhashable(TypeName(action))
    ensures r.sent != [] ==> connected && action.Str? && action.s in Registry
  {
    if action == Str("status") then Run([], Ok(Success(Dict1("connected", Bool(connected)))))
    else if action == Str("quit") then Run([], Ok(Success(Dict1("message", Str(QuitNotice)))))
    else match Lookup(action)
      case Err(e) => Run([], Err(e))
      case Ok(None) => Run([], Ok(Failure(UnknownAction + PyStr(action) + AvailableActions + Available())))
      case Ok(Some(tool)) =>
        if !connected then Run([], Ok(Failure(NotAttached)))
        else
          var run := Handle(tool, params, io);
          Run(run.sent, Ok(match run.result case Ok(o) => o case Err(e) => Failure(ExceptionText(e))))
  }

  /** `status` and `quit` answer at once, whatever the registry and the connection. */
  lemma StatusAndQuit(connected: bool, params: Value, io: Io)
    ensures ExecuteCommand(connected, Str("status"), params, io) == Run([], Ok(Success(Dict1("connected", Bool(connected)))))
    ensures ExecuteCommand(connected, Str("quit"), params, io) == Run([], Ok(Success(Dict1("message", Str(QuitNotice)))))
  {
  }

  /** An unknown action fails with the sorted list of actions, connected or not. */
  lemma UnknownBeforeConnection(connected: bool, action: Value, params: Value, io: Io)
    requires action != Str("status") && action != Str("quit") && Hashable(action)
    requires !(action.Str? && action.s in Registry)
    ensures ExecuteCommand(connected, action, params, io)
            == Run([], Ok(Failure(UnknownAction + PyStr(action) + AvailableActions + Available())))
  {
  }

  /** Without a connection, a known action fails and its handler is not called. */
  lemma NotConnectedSkipsHandler(action: string, params: Value, io: Io)
    requires action in Registry
    ensures ExecuteCommand(false, Str(action), params, io) == Run([], Ok(Failure(NotAttached)))
  {
    RegistryEntries();
    assert Str(action) != Str("status") && Str(action) != Str("quit");
    assert Lookup(Str(action)) == Ok(Some(Registry[action]));
  }

  /** With a connection, a known action runs its handler; what the handler raises becomes a failure. */
  lemma HandlerExceptionsCaught(action: string, params: Value, io: Io)
    requires action in Registry
    ensures var r := ExecuteCommand(true, Str(action), params, io);
            var h := Handle(Registry[action], params, io);
            && r.sent == h.sent
            && (h.result.Ok? ==> r.result == Ok(h.result.value))
            && (h.result.Err? ==> r.result == Ok(Failure(ExceptionText(h.result.error))))
  {
    RegistryEntries();
  }

  /** A command sends a prefix of its handler's plan, and the whole plan whenever every reply returns. */
  lemma {:induction false} CommandFollowsPlan(connected: bool, action: string, params: Value, io: Io)
    requires action in Registry
    ensures var r := ExecuteCommand(connected, Str(action), params, io);
            var plan := Plan(Registry[action], params);
            && r.sent <= plan
            && (connected && AllReturn(io.peer, plan) ==> r.sent == plan)
  {
    if connected {
      HandlerExceptionsCaught(action, params, io);
      HandleFollowsPlan(Registry[action], params, io);
    } else {
      NotConnectedSkipsHandler(action, params, io);
    }
  }

  // ---- stdin lines ----

  const MarkerOpen := "echo '__CMD_"

  /** What a stripped stdin line is. */
  datatype Line = Blank | Marker(content: string) | Unparsable | Command(cmd: Value)

  /**
   * Strip the line; a blank line, a marker line `echo '__CMD_…'` (its
   * content is `line[6:-1]`), a line that is not JSON, or a command. `parse`
   * stands for `json.loads`.
   */
  function ClassifyLine(raw: string, parse: string -> Option<Value>): (l: Line)
    ensures l.Blank? <==> Strip(raw) == ""
    ensures l.Marker? <==> Strip(raw) != "" && StartsWith(Strip(raw), MarkerOpen) && EndsWith(Strip(raw), "'")
    ensures l.Marker? ==> Strip(raw) == "echo '" + l.content + "'" && StartsWith(l.content, "__CMD_")
    ensures l.Unparsable? ==> parse(Strip(raw)).None?
    ensures l.Command? ==> parse(Strip(raw)) == Some(l.cmd)
    ensures parse(Strip(raw)).Some? && !l.Blank? && !l.Marker? ==> l.Command?
  {
    var s := Strip(raw);
    if s == "" then Blank
    else if StartsWith(s, MarkerOpen) && EndsWith(s, "'") then
      MarkerContent(s);
      Marker(s[6..|s| - 1])
    else match parse(s)
      case None => Unparsable
      case Some(v) => Command(v)
  }

  /** A marker line is `echo '` and `'` around its content, which starts with `__CMD_`. */
  lemma MarkerContent(s: string)
    requires StartsWith(s, MarkerOpen) && EndsWith(s, "'")
    ensures |s| >= 13
    ensures s == "echo '" + s[6..|s| - 1] + "'" && StartsWith(s[6..|s| - 1], "__CMD_")
  {
    assert |s| >= 12 && s[..12] == MarkerOpen;
    assert s[11] == '_' && s[|s| - 1] == '\'';
    var content := s[6..|s| - 1];
    assert s[..6] == "echo '" && s[|s| - 1..] == "'";
    assert s == s[..6] + content + s[|s| - 1..];
    assert content[..6] == s[6..12];
  }

  /** What one step writes: a JSON line on stdout, or a marker echo on stderr. */
  datatype Emit = Out(result: Value) | Echo(text: string)

  /** The stdout lines among `emits`. */
  function Outputs(emits: seq<Emit>): (r: seq<Value>)
    ensures |r| <= |emits|
  {
    if emits == [] then []
    else (if emits[0].Out? then [emits[0].result] else []) + Outputs(emits[1..])
  }

  lemma {:induction false} OutputsAppend(a: seq<Emit>, b: seq<Emit>)
    ensures Outputs(a + b) == Outputs(a) + Outputs(b)
  {
    if a != [] {
      assert (a + b)[0] == a[0] && (a + b)[1..] == a[1..] + b;
      OutputsAppend(a[1..], b);
    } else {
      assert a + b == b;
    }
  }

  /** `pending_marker_id` is never the empty string, so a set marker is always echoed. */
  predicate MarkerValid(marker: Option<string>) {
    marker.None? || marker.value != ""
  }

  /** The `{id}_END` echo after a command, when a marker is pending (`if pending_marker_id`). */
  function EndEcho(marker: Option<string>): seq<Emit> {
    if marker.Some? && marker.value != "" then [Echo(marker.value + "_END")] else []
  }

  function AfterEcho(marker: Option<string>): (m: Option<string>)
    ensures MarkerValid(marker) ==> m.None?
  {
    if marker.Some? && marker.value != "" then None else marker
  }

  /** The effect of one stdin line. */
  datatype Step = Step(emits: seq<Emit>, marker: Option<string>, stop: bool, sent: seq<Request>)

  function InternalErrorDict(e: Exception): Value {
    ResultDict(Failure(InternalError + ExceptionText(e)))
  }

  /** What running one command line yields: the dict written, whether to stop, the requests sent. */
  datatype Answer = Answer(result: Value, stop: bool, sent: seq<Request>)

  /**
   * A command line: read `action` and `params` and execute; the result, or
   * the internal error when something raised; stop after `quit`.
   */
  function Respond(cmd: Value, connected: bool, io: Io): Answer {
    if !cmd.Obj? then Answer(InternalErrorDict(NoAttributeGet(TypeName(cmd))), false, [])
    else
      var action := GetOr(cmd.members, "action", Str(""));
      var params := GetOr(cmd.members, "params", Obj([]));
      var run := ExecuteCommand(connected, action, params, io);
      match run.result
      case Err(e) => Answer(InternalErrorDict(e), false, run.sent)
      case Ok(o) => Answer(ResultDict(o), action == Str("quit"), run.sent)
  }

  /** Write the answer, then echo the pending marker. */
  function OnCommand(marker: Option<string>, cmd: Value, connected: bool, io: Io): Step {
    var a := Respond(cmd, connected, io);
    Step([Out(a.result)] + EndEcho(marker), AfterEcho(marker), a.stop, a.sent)
  }

  /** A marker line: `_START` records the id and echoes the content; anything else is ignored. */
  function OnMarker(marker: Option<string>, content: string): Step {
    if EndsWith(content, "_START") then Step([Echo(content)], Some(content[..|content| - 6]), false, [])
    else Step([], marker, false, [])
  }

  /** One iteration of `stdin_reader`'s loop body for a line that was read. */
  function OnLine(marker: Option<string>, line: Line, connected: bool, io: Io): Step {
    match line
    case Blank => Step([], marker, false, [])
    case Unparsable => Step([], marker, false, [])
    case Marker(content) => OnMarker(marker, content)
    case Command(cmd) => OnCommand(marker, cmd, connected, io)
  }

  /** Blank, marker and non-JSON lines write nothing to stdout; a command line writes exactly one result. */
  lemma OneOutputPerCommand(marker: Option<string>, line: Line, connected: bool, io: Io)
    ensures |Outputs(OnLine(marker, line, connected, io).emits)| == if line.Command? then 1 else 0
  {
    if line.Command? {
      CommandShape(marker, line.cmd, connected, io);
    } else if line.Marker? && EndsWith(line.content, "_START") {
      NoOutputs(Echo(line.content));
    }
  }

  lemma NoOutputs(e: Emit)
    requires e.Echo?
    ensures Outputs([e]) == []
  {
    assert [e][1..] == [];
  }

  /** A command writes its one result line first, then at most the marker echo. */
  lemma CommandShape(marker: Option<string>, cmd: Value, connected: bool, io: Io)
    ensures var s := OnCommand(marker, cmd, connected, io);
            && s.emits == [Out(Respond(cmd, connected, io).result)] + EndEcho(marker)
            && Outputs(s.emits) == [Respond(cmd, connected, io).result]
  {
    var s := OnCommand(marker, cmd, connected, io);
    var out := Out(Respond(cmd, connected, io).result);
    assert s.emits == [out] + EndEcho(marker);
    OutputsAppend([out], EndEcho(marker));
    assert [out][1..] == [];
    if EndEcho(marker) != [] {
      NoOutputs(EndEcho(marker)[0]);
    }
  }

  /** A `_START` marker records the content without its suffix and echoes the content. */
  lemma MarkerStart(marker: Option<string>, content: string, connected: bool, io: Io)
    requires StartsWith(content, "__CMD_") && EndsWith(content, "_START")
    ensures var s := OnLine(marker, Marker(content), connected, io);
            && content == s.marker.value + "_START"
            && s.marker.value != ""
            && s.emits == [Echo(content)]
  {
    var id := content[..|content| - 6];
    assert content == id + "_START";
    assert content[..6] == "__CMD_" && content[|content| - 6..] == "_START";
    assert content[1] == '_' && content[|content| - 5] == 'S';
  }

  /** Any other marker line, an `_END` whether it matches or not, changes nothing. */
  lemma MarkerOtherIgnored(marker: Option<string>, content: string, connected: bool, io: Io)
    requires !EndsWith(content, "_START")
    ensures OnLine(marker, Marker(content), connected, io) == Step([], marker, false, [])
  {
  }

  /**
   * After a command, the internal-error path included, a pending marker is
   * echoed once as `{id}_END` right after the result and then cleared.
   */
  lemma EndEchoedOnce(id: string, cmd: Value, connected: bool, io: Io)
    requires id != ""
    ensures var s := OnLine(Some(id), Command(cmd), connected, io);
            && s.emits == [Out(Respond(cmd, connected, io).result), Echo(id + "_END")]
            && s.marker == None
  {
    var s := OnLine(Some(id), Command(cmd), connected, io);
    var out := Out(Respond(cmd, connected, io).result);
    assert s == OnCommand(Some(id), cmd, connected, io);
    assert EndEcho(Some(id)) == [Echo(id + "_END")];
    assert s.emits == [out] + [Echo(id + "_END")];
  }

  /** The loop stops exactly after the result of `quit`. */
  lemma StopsOnlyOnQuit(marker: Option<string>, line: Line, connected: bool, io: Io)
    ensures var s := OnLine(marker, line, connected, io);
            s.stop <==> line.Command? && line.cmd.Obj? && GetOr(line.cmd.members, "action", Str("")) == Str("quit")
    ensures var s := OnLine(marker, line, connected, io);
            s.stop ==> s.emits[0] == Out(ResultDict(Success(Dict1("message", Str(QuitNotice)))))
  {
    if line.Command? {
      RespondStops(line.cmd, connected, io);
      CommandShape(marker, line.cmd, connected, io);
    }
  }

  /** `quit` is answered with the shutdown notice and ends the loop; nothing else does. */
  lemma RespondStops(cmd: Value, connected: bool, io: Io)
    ensures var a := Respond(cmd, connected, io);
            a.stop <==> cmd.Obj? && GetOr(cmd.members, "action", Str("")) == Str("quit")
    ensures var a := Respond(cmd, connected, io);
            a.stop ==> a.result == ResultDict(Success(Dict1("message", Str(QuitNotice))))
  {
    if cmd.Obj? && GetOr(cmd.members, "action", Str("")) == Str("quit") {
      StatusAndQuit(connected, GetOr(cmd.members, "params", Obj([])), io);
    }
  }

  /** Every step keeps the marker non-empty. */
  lemma {:induction false} OnLineKeepsMarkerValid(marker: Option<string>, line: Line, connected: bool, io: Io)
    requires MarkerValid(marker)
    requires line.Marker? ==> StartsWith(line.content, "__CMD_")
    ensures MarkerValid(OnLine(marker, line, connected, io).marker)
  {
    if line.Marker? && EndsWith(line.content, "_START") {
      MarkerStart(marker, line.content, connected, io);
    }
  }

  // ---- the interleaved event stream ----

  /**
   * A stdin line (with what the extension answers to the requests of its
   * command), a websocket attaching, a message arriving on one (`None` when
   * it is not JSON), or a websocket's handler ending.
   */
  datatype Event =
    | Input(raw: string, io: Io)
    | Attach(sock: Socket)
    | Arrive(sock: Socket, frame: Option<Value>)
    | Detach(sock: Socket)

  /** The relay's observable state. */
  datatype World = World(
    ws: Option<Socket>, pending: Table, closed: seq<Socket>,
    marker: Option<string>, emits: seq<Emit>, sent: seq<Request>, stopped: bool)

  /** A stdin line: the loop body runs with the connection state of the moment. */
  function InputStep(w: World, raw: string, io: Io, parse: string -> Option<Value>): World {
    var s := OnLine(w.marker, ClassifyLine(raw, parse), w.ws.Some?, io);
    w.(marker := s.marker, emits := w.emits + s.emits, sent := w.sent + s.sent, stopped := s.stop)
  }

  function Apply(w: World, e: Event, parse: string -> Option<Value>): World {
    match e
    case Input(raw, io) => InputStep(w, raw, io, parse)
    case Attach(sock) =>
      w.(ws := Some(sock), closed := w.closed + (if w.ws.Some? then [w.ws.value] else []))
    case Arrive(sock, frame) =>
      if frame.None? then w
      else (match Ingest(w.pending, frame.value)
        case Ok(t) => w.(pending := t)
        case Err(_) => if w.ws == Some(sock) then w.(ws := None) else w)
    case Detach(sock) =>
      if w.ws == Some(sock) then w.(ws := None) else w
  }

  /** The events in order, up to and including the line that stops the loop. */
  function Replay(w: World, events: seq<Event>, parse: string -> Option<Value>): World
    decreases |events|
  {
    if events == [] || w.stopped then w
    else Replay(Apply(w, events[0], parse), events[1..], parse)
  }

  /** A new connection closes the previous one before it is stored. */
  lemma AttachReplaces(w: World, sock: Socket, parse: string -> Option<Value>)
    ensures Apply(w, Attach(sock), parse).ws == Some(sock)
    ensures w.ws.Some? ==> Apply(w, Attach(sock), parse).closed == w.closed + [w.ws.value]
    ensures w.ws.None? ==> Apply(w, Attach(sock), parse).closed == w.closed
  {
  }

  /** The end of a replaced connection's handler leaves the newer connection attached. */
  lemma StaleDetachIgnored(w: World, old_: Socket, new_: Socket, parse: string -> Option<Value>)
    requires old_ != new_
    ensures var w1 := Apply(Apply(w, Attach(old_), parse), Attach(new_), parse);
            && w1.closed == w.closed + (if w.ws.Some? then [w.ws.value] else []) + [old_]
            && Apply(w1, Detach(old_), parse).ws == Some(new_)
            && Apply(w1, Detach(new_), parse).ws == None
  {
    var w0 := Apply(w, Attach(old_), parse);
    assert w0 == w.(ws := Some(old_), closed := w.closed + (if w.ws.Some? then [w.ws.value] else []));
    var w1 := Apply(w0, Attach(new_), parse);
    assert w1 == w0.(ws := Some(new_), closed := w0.closed + [old_]);
  }

  /** A frame that makes `handle_response` raise ends its socket's handler, detaching it if current. */
  lemma FaultyFrameDetaches(w: World, sock: Socket, frame: Value, parse: string -> Option<Value>)
    requires Ingest(w.pending, frame).Err?
    ensures Apply(w, Arrive(sock, Some(frame)), parse)
            == if w.ws == Some(sock) then w.(ws := None) else w
  {
  }

  /** The first event of a replay that has not stopped. */
  lemma ReplayFirst(w: World, events: seq<Event>, parse: string -> Option<Value>)
    requires events != [] && !w.stopped
    ensures Replay(w, events, parse) == Replay(Apply(w, events[0], parse), events[1..], parse)
  {
  }

  /** Once stopped, no further event has any effect. */
  lemma {:induction false} ReplayStopped(w: World, events: seq<Event>, more: seq<Event>, parse: string -> Option<Value>)
    requires Replay(w, events, parse).stopped
    ensures Replay(w, events + more, parse) == Replay(w, events, parse)
    decreases |events|
  {
    if events == [] {
      assert events + more == more;
    } else if !w.stopped {
      HeadTail(events, more);
      ReplayFirst(w, events + more, parse);
      ReplayFirst(w, events, parse);
      ReplayStopped(Apply(w, events[0], parse), events[1..], more, parse);
    }
  }

  /** What was written stays written: the emitted lines and the requests sent only grow. */
  lemma {:induction false} ReplayExtends(w: World, events: seq<Event>, parse: string -> Option<Value>)
    ensures w.emits <= Replay(w, events, parse).emits
    ensures w.sent <= Replay(w, events, parse).sent
    decreases |events|
  {
    if events != [] && !w.stopped {
      var next := Apply(w, events[0], parse);
      ApplyExtends(w, events[0], parse);
      ReplayExtends(next, events[1..], parse);
    }
  }

  lemma ApplyExtends(w: World, e: Event, parse: string -> Option<Value>)
    ensures w.emits <= Apply(w, e, parse).emits
    ensures w.sent <= Apply(w, e, parse).sent
  {
    match e
    case Input(raw, io) =>
      assert Apply(w, e, parse) == InputStep(w, raw, io, parse);
      InputStepExtends(w, raw, io, parse);
    case Attach(_) =>
    case Arrive(_, _) =>
    case Detach(_) =>
  }

  lemma InputStepExtends(w: World, raw: string, io: Io, parse: string -> Option<Value>)
    ensures w.emits <= InputStep(w, raw, io, parse).emits
    ensures w.sent <= InputStep(w, raw, io, parse).sent
  {
    var s := OnLine(w.marker, ClassifyLine(raw, parse), w.ws.Some?, io);
    PrefixOfAppend(w.emits, s.emits);
    PrefixOfAppend(w.sent, s.sent);
  }

  /** From a valid marker, the marker stays valid through any replay. */
  lemma {:induction false} ReplayKeepsMarkerValid(w: World, events: seq<Event>, parse: string -> Option<Value>)
    requires MarkerValid(w.marker)
    ensures MarkerValid(Replay(w, events, parse).marker)
    decreases |events|
  {
    if events != [] && !w.stopped {
      var next := Apply(w, events[0], parse);
      ApplyKeepsMarkerValid(w, events[0], parse);
      assert Replay(w, events, parse) == Replay(next, events[1..], parse);
      ReplayKeepsMarkerValid(next, events[1..], parse);
    }
  }

  lemma ApplyKeepsMarkerValid(w: World, e: Event, parse: string -> Option<Value>)
    requires MarkerValid(w.marker)
    ensures MarkerValid(Apply(w, e, parse).marker)
  {
    match e
    case Input(raw, io) =>
      assert Apply(w, e, parse) == InputStep(w, raw, io, parse);
      InputStepKeepsMarkerValid(w, raw, io, parse);
    case Attach(_) =>
    case Arrive(_, _) =>
    case Detach(_) =>
  }

  lemma InputStepKeepsMarkerValid(w: World, raw: string, io: Io, parse: string -> Option<Value>)
    requires MarkerValid(w.marker)
    ensures MarkerValid(InputStep(w, raw, io, parse).marker)
  {
    OnLineKeepsMarkerValid(w.marker, ClassifyLine(raw, parse), w.ws.Some?, io);
  }

  /** `handle_extension` for a websocket that attaches. */
  method OnAttach(ctx: Context, sock: Socket)
    modifies ctx
    ensures ctx.ws == Some(sock)
    ensures ctx.closed == old(ctx.closed) + (if old(ctx.ws).Some? then [old(ctx.ws).value] else [])
    ensures ctx.pending == old(ctx.pending) && ctx.written == old(ctx.written)
  {
    if ctx.HasWs() {
      ctx.Close();
    }
    ctx.SetWs(sock);
  }

  /** One message arriving on `sock`; a raising `handle_response` ends the handler. */
  method OnArrive(ctx: Context, sock: Socket, frame: Option<Value>)
    modifies ctx
    ensures ctx.written == old(ctx.written) && ctx.closed == old(ctx.closed)
    ensures frame.None? ==> ctx.pending == old(ctx.pending) && ctx.ws == old(ctx.ws)
    ensures frame.Some? && Ingest(old(ctx.pending), frame.value).Ok? ==>
              ctx.pending == Ingest(old(ctx.pending), frame.value).value && ctx.ws == old(ctx.ws)
    ensures frame.Some? && Ingest(old(ctx.pending), frame.value).Err? ==>
              ctx.pending == old(ctx.pending)
              && ctx.ws == (if old(ctx.ws) == Some(sock) then None else old(ctx.ws))
  {
    if frame.Some? {
      var fault := ctx.HandleResponse(frame.value);
      if fault.Some? {
        OnDetach(ctx, sock);
      }
    }
  }

  /** The `finally` of `handle_extension`: forget the socket only if it is still the current one. */
  method OnDetach(ctx: Context, sock: Socket)
    modifies ctx
    ensures ctx.ws == (if old(ctx.ws) == Some(sock) then None else old(ctx.ws))
    ensures ctx.pending == old(ctx.pending) && ctx.written == old(ctx.written) && ctx.closed == old(ctx.closed)
  {
    if ctx.ws == Some(sock) {
      ctx.ws := None;
    }
  }

  lemma ReplayStep(w: World, events: seq<Event>, i: nat, parse: string -> Option<Value>)
    requires i < |events| && !w.stopped
    ensures Replay(w, events[i..], parse) == Replay(Apply(w, events[i], parse), events[i + 1..], parse)
  {
    assert events[i..][0] == events[i] && events[i..][1..] == events[i + 1..];
  }

  /** One event of the interleaved stream, as `Apply` describes it. */
  method OnEvent(ctx: Context, e: Event, marker: Option<string>, emits: seq<Emit>, sent: seq<Request>,
                 stopped: bool, parse: string -> Option<Value>)
    returns (marker': Option<string>, emits': seq<Emit>, sent': seq<Request>, stopped': bool)
    modifies ctx
    ensures World(ctx.ws, ctx.pending, ctx.closed, marker', emits', sent', stopped')
            == Apply(World(old(ctx.ws), old(ctx.pending), old(ctx.closed), marker, emits, sent, stopped), e, parse)
    ensures ctx.written == old(ctx.written)
  {
    marker', emits', sent', stopped' := marker, emits, sent, stopped;
    match e {
      case Input(raw, io) =>
        var s := OnLine(marker, ClassifyLine(raw, parse), ctx.HasWs(), io);
        marker', emits', sent', stopped' := s.marker, emits + s.emits, sent + s.sent, s.stop;
      case Attach(sock) =>
        OnAttach(ctx, sock);
      case Arrive(sock, frame) =>
        OnArrive(ctx, sock, frame);
      case Detach(sock) =>
        OnDetach(ctx, sock);
    }
  }

  /**
   * The interactive relay: `stdin_reader`'s loop, with the websocket
   * handlers' events interleaved, until the input ends or `quit` has been
   * answered.
   */
  method Serve(ctx: Context, events: seq<Event>, parse: string -> Option<Value>)
    returns (marker: Option<string>, emits: seq<Emit>, sent: seq<Request>, stopped: bool)
    modifies ctx
    ensures World(ctx.ws, ctx.pending, ctx.closed, marker, emits, sent, stopped)
            == Replay(World(old(ctx.ws), old(ctx.pending), old(ctx.closed), None, [], [], false), events, parse)
    ensures ctx.written == old(ctx.written)
  {
    marker, emits, sent, stopped := None, [], [], false;
    ghost var start := World(ctx.ws, ctx.pending, ctx.closed, None, [], [], false);
    var i := 0;
    while i < |events| && !stopped
      invariant 0 <= i <= |events|
      invariant ctx.written == old(ctx.written)
      invariant Replay(World(ctx.ws, ctx.pending, ctx.closed, marker, emits, sent, stopped), events[i..], parse)
                == Replay(start, events, parse)
    {
      ReplayStep(World(ctx.ws, ctx.pending, ctx.closed, marker, emits, sent, stopped), events, i, parse);
      marker, emits, sent, stopped := OnEvent(ctx, events[i], marker, emits, sent, stopped, parse);
      i := i + 1;
    }
  }
}

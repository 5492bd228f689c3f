/**
 * The action handlers and the `TOOLS` registry (tools.py). Each handler is a
 * function of the command's `params` and of what the peer answers: it either
 * returns an error before sending anything, or sends its fixed sequence of
 * requests (stopping early only when a request raises) and builds its result.
 * A handler that raises is a `Run` whose result is `Err`.
 */
module Tools {
  import opened Wrappers
  import opened Strings
  import opened Values
  import opened Connection
  import Snapshot

  datatype Tool =
    | Navigate | GoBack | GoForward | Click | Hover | TypeText | SelectOption | Drag
    | PressKey | Wait | Screenshot | TakeSnapshot | GetConsoleLogs | GetHtml

  /** `TOOLS`: action name to handler. */
  const Registry: map<string, Tool> := map[
    "navigate" := Navigate, "go_back" := GoBack, "go_forward" := GoForward,
    "click" := Click, "hover" := Hover, "type" := TypeText,
    "select_option" := SelectOption, "drag" := Drag, "press_key" := PressKey,
    "wait" := Wait, "screenshot" := Screenshot, "snapshot" := TakeSnapshot,
    "get_console_logs" := GetConsoleLogs, "get_html" := GetHtml]

  /** `sorted(TOOLS.keys())`, as listed in the unknown-action error. */
  const SortedNames: seq<string> := [
    "click", "drag", "get_console_logs", "get_html", "go_back", "go_forward", "hover",
    "navigate", "press_key", "screenshot", "select_option", "snapshot", "type", "wait"]

  /** What one handler call leaves in the command's result dict. */
  datatype Outcome = Success(data: Value) | Failure(error: string)

  /**
   * What a handler sees of the world: the peer's reply to each request, and
   * the size `get_html` reports for the file it wrote, as `f"{size_kb:.1f}"`
   * renders it.
   */
  datatype Io = Io(peer: Peer, htmlSizeKb: string)

  const MissingUrl := "缺少 url 参数"
  const MissingRef := "缺少 ref 参数（使用 snapshot 中的 ref 值）"
  const MissingText := "缺少 text 参数"
  const MissingValues := "缺少 values 参数"
  const MissingDragRefs := "缺少 startRef 或 endRef 参数"
  const MissingKey := "缺少 key 参数"
  const MissingSavePath := "缺少 savePath 参数"
  const NoLogs := "（无日志）"

  function Dict1(k: string, v: Value): Value {
    Obj([Member(k, v)])
  }

  function Dict2(k1: string, v1: Value, k2: string, v2: Value): Value {
    Obj([Member(k1, v1), Member(k2, v2)])
  }

  function Dict3(k1: string, v1: Value, k2: string, v2: Value, k3: string, v3: Value): Value {
    Obj([Member(k1, v1), Member(k2, v2), Member(k3, v3)])
  }

  /** `params.get(key, default)`; `params` is known to be a dict here. */
  function Arg(params: Value, key: string, default: Value): Value
    requires params.Obj?
  {
    GetOr(params.members, key, default)
  }

  // ---- the requests each handler sends ----

  function NavigateRequest(url: Value): Request { Request("browser_navigate", Dict1("url", url), DefaultTimeoutMs) }
  const GoBackRequest := Request("browser_go_back", Obj([]), DefaultTimeoutMs)
  const GoForwardRequest := Request("browser_go_forward", Obj([]), DefaultTimeoutMs)
  const ClickTimeoutMs := 5000
  function ClickRequest(ref: Value): Request { Request("browser_click", Dict1("ref", ref), ClickTimeoutMs) }
  function HoverRequest(ref: Value): Request { Request("browser_hover", Dict1("ref", ref), DefaultTimeoutMs) }
  function TypeRequest(ref: Value, text: Value, submit: Value): Request {
    Request("browser_type", Dict3("ref", ref, "text", text, "submit", submit), DefaultTimeoutMs)
  }
  function SelectRequest(ref: Value, values: Value): Request {
    Request("browser_select_option", Dict2("ref", ref, "values", values), DefaultTimeoutMs)
  }
  function DragRequest(startRef: Value, endRef: Value): Request {
    Request("browser_drag", Dict2("startRef", startRef, "endRef", endRef), DefaultTimeoutMs)
  }
  function PressKeyRequest(key: Value): Request { Request("browser_press_key", Dict1("key", key), DefaultTimeoutMs) }
  function WaitRequest(time: Value): Request { Request("browser_wait", Dict1("time", time), DefaultTimeoutMs) }
  const ScreenshotRequest := Request("browser_screenshot", Obj([]), DefaultTimeoutMs)
  const ConsoleLogsRequest := Request("browser_get_console_logs", Obj([]), DefaultTimeoutMs)
  const PageHtmlRequest := Request("getPageHtml", Obj([]), DefaultTimeoutMs)

  // ---- shared shapes ----

  /** `{"success": True, "data": snapshot}` after the requests already in `sent`. */
  function WithSnapshot(sent: seq<Request>, snap: Run<Value>): Run<Outcome> {
    Run(sent + snap.sent, match snap.result case Ok(v) => Ok(Success(v)) case Err(e) => Err(e))
  }

  /** Send `req`; if it returns, take a snapshot with `status`. */
  function ActThenSnapshot(io: Io, req: Request, status: string): Run<Outcome> {
    match io.peer(req)
    case Err(e) => Run([req], Err(e))
    case Ok(_) => WithSnapshot([req], Snapshot.CaptureAriaSnapshot(io.peer, status))
  }

  /** Send `req`; if it returns, succeed with `data`. */
  function ActThenText(io: Io, req: Request, text: string): Run<Outcome> {
    match io.peer(req)
    case Err(e) => Run([req], Err(e))
    case Ok(_) => Run([req], Ok(Success(Snapshot.TextResult(text))))
  }

  /** Any handler reads `params` with `.get`, which a non-dict does not have. */
  function NoGet(params: Value): Run<Outcome> {
    Run([], Err(NoAttributeGet(TypeName(params))))
  }

  function Refuse(error: string): Run<Outcome> {
    Run([], Ok(Failure(error)))
  }

  // ---- the handlers ----

  function NavigateTool(params: Value, io: Io): Run<Outcome> {
    if !params.Obj? then NoGet(params)
    else
      var url := Arg(params, "url", Str(""));
      if !Truthy(url) then Refuse(MissingUrl)
      else ActThenSnapshot(io, NavigateRequest(url), "")
  }

  function GoBackTool(params: Value, io: Io): Run<Outcome> {
    ActThenSnapshot(io, GoBackRequest, "")
  }

  function GoForwardTool(params: Value, io: Io): Run<Outcome> {
    ActThenSnapshot(io, GoForwardRequest, "")
  }

  /** A click that times out (the page may have navigated away) still takes the snapshot. */
  function ClickTool(params: Value, io: Io): Run<Outcome> {
    if !params.Obj? then NoGet(params)
    else
      var ref := Arg(params, "ref", Str(""));
      if !Truthy(ref) then Refuse(MissingRef)
      else
        var req := ClickRequest(ref);
        var snap := Snapshot.CaptureAriaSnapshot(io.peer, "已点击 ref=" + PyStr(ref));
        match io.peer(req)
        case Err(Timeout(_, _)) => WithSnapshot([req], snap)
        case Err(e) => Run([req], Err(e))
        case Ok(_) => WithSnapshot([req], snap)
  }

  function HoverTool(params: Value, io: Io): Run<Outcome> {
    if !params.Obj? then NoGet(params)
    else
      var ref := Arg(params, "ref", Str(""));
      if !Truthy(ref) then Refuse(MissingRef)
      else ActThenSnapshot(io, HoverRequest(ref), "已悬停 ref=" + PyStr(ref))
  }

  function TypeTextTool(params: Value, io: Io): Run<Outcome> {
    if !params.Obj? then NoGet(params)
    else
      var ref := Arg(params, "ref", Str(""));
      var text := Arg(params, "text", Str(""));
      var submit := Arg(params, "submit", Bool(false));
      if !Truthy(ref) then Refuse(MissingRef)
      else if !Truthy(text) then Refuse(MissingText)
      else ActThenSnapshot(io, TypeRequest(ref, text, submit),
                           "已在 ref=" + PyStr(ref) + " 中输入 \"" + PyStr(text) + "\"")
  }

  function SelectOptionTool(params: Value, io: Io): Run<Outcome> {
    if !params.Obj? then NoGet(params)
    else
      var ref := Arg(params, "ref", Str(""));
      var values := Arg(params, "values", Arr([]));
      if !Truthy(ref) then Refuse(MissingRef)
      else if !Truthy(values) then Refuse(MissingValues)
      else ActThenSnapshot(io, SelectRequest(ref, values), "已在 ref=" + PyStr(ref) + " 中选择选项")
  }

  function DragTool(params: Value, io: Io): Run<Outcome> {
    if !params.Obj? then NoGet(params)
    else
      var startRef := Arg(params, "startRef", Str(""));
      var endRef := Arg(params, "endRef", Str(""));
      if !Truthy(startRef) || !Truthy(endRef) then Refuse(MissingDragRefs)
      else ActThenSnapshot(io, DragRequest(startRef, endRef),
                           "已将 ref=" + PyStr(startRef) + " 拖拽到 ref=" + PyStr(endRef))
  }

  function PressKeyTool(params: Value, io: Io): Run<Outcome> {
    if !params.Obj? then NoGet(params)
    else
      var key := Arg(params, "key", Str(""));
      if !Truthy(key) then Refuse(MissingKey)
      else ActThenText(io, PressKeyRequest(key), "已按下 " + PyStr(key))
  }

  function WaitTool(params: Value, io: Io): Run<Outcome> {
    if !params.Obj? then NoGet(params)
    else
      var time := Arg(params, "time", Num(1));
      ActThenText(io, WaitRequest(time), "已等待 " + PyStr(time) + " 秒")
  }

  /** The image is fetched before `savePath` is read. */
  function ScreenshotTool(params: Value, io: Io): Run<Outcome> {
    match io.peer(ScreenshotRequest)
    case Err(e) => Run([ScreenshotRequest], Err(e))
    case Ok(image) =>
      if !params.Obj? then Run([ScreenshotRequest], Err(NoAttributeGet(TypeName(params))))
      else
        var path := Arg(params, "savePath", Str(""));
        if Truthy(path) then
          Run([ScreenshotRequest], Ok(Success(Snapshot.TextResult("截图已保存到 " + PyStr(path)))))
        else
          Run([ScreenshotRequest], Ok(Success(Dict3("type", Str("image"), "data", image, "mimeType", Str("image/png")))))
  }

  function TakeSnapshotTool(params: Value, io: Io): Run<Outcome> {
    WithSnapshot([], Snapshot.CaptureAriaSnapshot(io.peer, ""))
  }

  /** `"\n".join(str(log) for log in (logs or []))`. */
  function LogLines(logs: Value): Result<string, Exception> {
    if !Truthy(logs) then Ok("")
    else match Iterate(logs)
      case Err(e) => Err(e)
      case Ok(xs) => Ok(Join("\n", seq(|xs|, i requires 0 <= i < |xs| => PyStr(xs[i]))))
  }

  function GetConsoleLogsTool(params: Value, io: Io): Run<Outcome> {
    match io.peer(ConsoleLogsRequest)
    case Err(e) => Run([ConsoleLogsRequest], Err(e))
    case Ok(logs) =>
      match LogLines(logs)
      case Err(e) => Run([ConsoleLogsRequest], Err(e))
      case Ok(text) => Run([ConsoleLogsRequest], Ok(Success(Snapshot.TextResult(if text != "" then text else NoLogs))))
  }

  function GetHtmlTool(params: Value, io: Io): Run<Outcome> {
    if !params.Obj? then NoGet(params)
    else
      var path := Arg(params, "savePath", Str(""));
      if !Truthy(path) then Refuse(MissingSavePath)
      else ActThenText(io, PageHtmlRequest, "HTML 已保存到 " + PyStr(path) + " (" + io.htmlSizeKb + " KB)")
  }

  /** Calling the handler `TOOLS` maps an action to. */
  function Handle(tool: Tool, params: Value, io: Io): Run<Outcome> {
    match tool
    case Navigate => NavigateTool(params, io)
    case GoBack => GoBackTool(params, io)
    case GoForward => GoForwardTool(params, io)
    case Click => ClickTool(params, io)
    case Hover => HoverTool(params, io)
    case TypeText => TypeTextTool(params, io)
    case SelectOption => SelectOptionTool(params, io)
    case Drag => DragTool(params, io)
    case PressKey => PressKeyTool(params, io)
    case Wait => WaitTool(params, io)
    case Screenshot => ScreenshotTool(params, io)
    case TakeSnapshot => TakeSnapshotTool(params, io)
    case GetConsoleLogs => GetConsoleLogsTool(params, io)
    case GetHtml => GetHtmlTool(params, io)
  }

  // ---- reference: the requests a handler sends when every one of them returns ----

  /** `params` is a dict whose `key` is truthy. */
  predicate Given(params: Value, key: string) {
    params.Obj? && Truthy(GetOr(params.members, key, Str("")))
  }

  /** The full request sequence of each handler, decided from `params` alone. */
  function Plan(tool: Tool, params: Value): seq<Request> {
    match tool
    case Navigate =>
      if Given(params, "url") then [NavigateRequest(Arg(params, "url", Str("")))] + Snapshot.Requests else []
    case GoBack => [GoBackRequest] + Snapshot.Requests
    case GoForward => [GoForwardRequest] + Snapshot.Requests
    case Click =>
      if Given(params, "ref") then [ClickRequest(Arg(params, "ref", Str("")))] + Snapshot.Requests else []
    case Hover =>
      if Given(params, "ref") then [HoverRequest(Arg(params, "ref", Str("")))] + Snapshot.Requests else []
    case TypeText =>
      if Given(params, "ref") && Given(params, "text") then
        [TypeRequest(Arg(params, "ref", Str("")), Arg(params, "text", Str("")), Arg(params, "submit", Bool(false)))]
        + Snapshot.Requests
      else []
    case SelectOption =>
      if Given(params, "ref") && Truthy(Arg(params, "values", Arr([]))) then
        [SelectRequest(Arg(params, "ref", Str("")), Arg(params, "values", Arr([])))] + Snapshot.Requests
      else []
    case Drag =>
      if Given(params, "startRef") && Given(params, "endRef") then
        [DragRequest(Arg(params, "startRef", Str("")), Arg(params, "endRef", Str("")))] + Snapshot.Requests
      else []
    case PressKey => if Given(params, "key") then [PressKeyRequest(Arg(params, "key", Str("")))] else []
    case Wait => if params.Obj? then [WaitRequest(Arg(params, "time", Num(1)))] else []
    case Screenshot => [ScreenshotRequest]
    case TakeSnapshot => Snapshot.Requests
    case GetConsoleLogs => [ConsoleLogsRequest]
    case GetHtml => if Given(params, "savePath") then [PageHtmlRequest] else []
  }

  /** Every reply the plan would collect returns. */
  predicate AllReturn(peer: Peer, plan: seq<Request>) {
    forall i :: 0 <= i < |plan| ==> peer(plan[i]).Ok?
  }

  /** The last request `r` sent raised, and `r` raised exactly that error. */
  predicate StoppedByRaise<T>(r: Run<T>, peer: Peer) {
    && r.sent != []
    && peer(r.sent[|r.sent| - 1]).Err?
    && r.result == Err(peer(r.sent[|r.sent| - 1]).error)
  }

  /**
   * `r` sent a prefix of `plan`, all of it when every reply returns, and
   * stopped short only at a request that raised, passing its error on; a
   * last request that raised always ends the run with its error.
   */
  predicate FollowsPlan(r: Run<Outcome>, plan: seq<Request>, peer: Peer) {
    && r.sent <= plan
    && (AllReturn(peer, plan) ==> r.sent == plan)
    && (r.result.Ok? ==> r.sent == plan)
    && (r.sent != plan ==> StoppedByRaise(r, peer))
    && (r.sent != [] && peer(r.sent[|r.sent| - 1]).Err? ==> StoppedByRaise(r, peer))
  }

  lemma SnapshotFollowsPlan(sent: seq<Request>, peer: Peer, status: string)
    ensures var r := WithSnapshot(sent, Snapshot.CaptureAriaSnapshot(peer, status));
            && r.sent <= sent + Snapshot.Requests
            && (AllReturn(peer, sent + Snapshot.Requests) ==> r.sent == sent + Snapshot.Requests && r.result.Ok?)
            && (r.result.Ok? ==> r.sent == sent + Snapshot.Requests)
            && (r.sent != sent + Snapshot.Requests ==> StoppedByRaise(r, peer))
            && (peer(r.sent[|r.sent| - 1]).Err? ==> StoppedByRaise(r, peer))
  {
    var s := Snapshot.CaptureAriaSnapshot(peer, status);
    var r := WithSnapshot(sent, s);
    assert s.sent <= Snapshot.Requests;
    if s.result.Err? {
      assert r.sent[|r.sent| - 1] == s.sent[|s.sent| - 1];
    }
    if AllReturn(peer, sent + Snapshot.Requests) {
      assert (sent + Snapshot.Requests)[|sent|] == Snapshot.GetUrl;
      assert (sent + Snapshot.Requests)[|sent| + 1] == Snapshot.GetTitle;
      assert (sent + Snapshot.Requests)[|sent| + 2] == Snapshot.TakeSnapshot;
    }
  }

  lemma ActThenSnapshotFollowsPlan(io: Io, req: Request, status: string)
    ensures FollowsPlan(ActThenSnapshot(io, req, status), [req] + Snapshot.Requests, io.peer)
  {
    assert ([req] + Snapshot.Requests)[0] == req;
    SnapshotFollowsPlan([req], io.peer, status);
  }

  lemma ActThenTextFollowsPlan(io: Io, req: Request, text: string)
    ensures FollowsPlan(ActThenText(io, req, text), [req], io.peer)
    ensures io.peer(req).Ok? ==> ActThenText(io, req, text).result == Ok(Success(Snapshot.TextResult(text)))
  {
    assert [req][0] == req;
  }

  lemma ClickFollowsPlan(params: Value, io: Io)
    ensures FollowsPlan(ClickTool(params, io), Plan(Click, params), io.peer)
  {
    if Given(params, "ref") {
      var ref := Arg(params, "ref", Str(""));
      var plan := Plan(Click, params);
      assert plan[0] == ClickRequest(ref);
      SnapshotFollowsPlan([plan[0]], io.peer, "已点击 ref=" + PyStr(ref));
    }
  }

  lemma ScreenshotFollowsPlan(params: Value, io: Io)
    ensures FollowsPlan(ScreenshotTool(params, io), Plan(Screenshot, params), io.peer)
  {
    assert [ScreenshotRequest][0] == ScreenshotRequest;
  }

  lemma GetConsoleLogsFollowsPlan(params: Value, io: Io)
    ensures FollowsPlan(GetConsoleLogsTool(params, io), Plan(GetConsoleLogs, params), io.peer)
  {
    assert [ConsoleLogsRequest][0] == ConsoleLogsRequest;
  }

  /**
   * Every handler sends a prefix of its plan; all of it when every request
   * returns; and it stops short only because a request raised, whose error
   * it passes on.
   */
  lemma HandleFollowsPlan(tool: Tool, params: Value, io: Io)
    ensures FollowsPlan(Handle(tool, params, io), Plan(tool, params), io.peer)
  {
    match tool
    case Navigate =>
      if Given(params, "url") { ActThenSnapshotFollowsPlan(io, NavigateRequest(Arg(params, "url", Str(""))), ""); }
    case GoBack => ActThenSnapshotFollowsPlan(io, GoBackRequest, "");
    case GoForward => ActThenSnapshotFollowsPlan(io, GoForwardRequest, "");
    case Click => ClickFollowsPlan(params, io);
    case Hover => ElementActionFollowsPlan(tool, params, io);
    case TypeText => ElementActionFollowsPlan(tool, params, io);
    case SelectOption => ElementActionFollowsPlan(tool, params, io);
    case Drag => ElementActionFollowsPlan(tool, params, io);
    case PressKey => TextActionFollowsPlan(tool, params, io);
    case Wait => TextActionFollowsPlan(tool, params, io);
    case Screenshot => ScreenshotFollowsPlan(params, io);
    case TakeSnapshot => SnapshotFollowsPlan([], io.peer, "");
    case GetConsoleLogs => GetConsoleLogsFollowsPlan(params, io);
    case GetHtml => TextActionFollowsPlan(tool, params, io);
  }

  /** The handlers that answer with a text result instead of a snapshot. */
  lemma TextActionFollowsPlan(tool: Tool, params: Value, io: Io)
    requires tool.PressKey? || tool.Wait? || tool.GetHtml?
    ensures FollowsPlan(Handle(tool, params, io), Plan(tool, params), io.peer)
  {
    match tool
    case PressKey =>
      if Given(params, "key") {
        var key := Arg(params, "key", Str(""));
        ActThenTextFollowsPlan(io, PressKeyRequest(key), "已按下 " + PyStr(key));
      }
    case Wait =>
      if params.Obj? {
        var time := Arg(params, "time", Num(1));
        ActThenTextFollowsPlan(io, WaitRequest(time), "已等待 " + PyStr(time) + " 秒");
      }
    case GetHtml =>
      if Given(params, "savePath") {
        var path := Arg(params, "savePath", Str(""));
        ActThenTextFollowsPlan(io, PageHtmlRequest, "HTML 已保存到 " + PyStr(path) + " (" + io.htmlSizeKb + " KB)");
      }
  }

  /** The handlers that act on an element of the page and then take a snapshot. */
  lemma ElementActionFollowsPlan(tool: Tool, params: Value, io: Io)
    requires tool.Hover? || tool.TypeText? || tool.SelectOption? || tool.Drag?
    ensures FollowsPlan(Handle(tool, params, io), Plan(tool, params), io.peer)
  {
    match tool
    case Hover =>
      if Given(params, "ref") {
        var ref := Arg(params, "ref", Str(""));
        ActThenSnapshotFollowsPlan(io, HoverRequest(ref), "已悬停 ref=" + PyStr(ref));
      }
    case TypeText =>
      if Given(params, "ref") && Given(params, "text") {
        var ref, text := Arg(params, "ref", Str("")), Arg(params, "text", Str(""));
        ActThenSnapshotFollowsPlan(io, TypeRequest(ref, text, Arg(params, "submit", Bool(false))),
                                   "已在 ref=" + PyStr(ref) + " 中输入 \"" + PyStr(text) + "\"");
      }
    case SelectOption =>
      if Given(params, "ref") && Truthy(Arg(params, "values", Arr([]))) {
        var ref := Arg(params, "ref", Str(""));
        ActThenSnapshotFollowsPlan(io, SelectRequest(ref, Arg(params, "values", Arr([]))),
                                   "已在 ref=" + PyStr(ref) + " 中选择选项");
      }
    case Drag =>
      if Given(params, "startRef") && Given(params, "endRef") {
        var s, e := Arg(params, "startRef", Str("")), Arg(params, "endRef", Str(""));
        ActThenSnapshotFollowsPlan(io, DragRequest(s, e), "已将 ref=" + PyStr(s) + " 拖拽到 ref=" + PyStr(e));
      }
  }

  // ---- properties of the handlers ----

  /**
   * The argument checks: a handler whose required argument is missing or
   * falsy answers with its error message and sends nothing; `type` checks
   * `ref` before `text`, `select_option` checks `ref` before `values`.
   */
  lemma MissingArgumentsRefused(params: Value, io: Io)
    requires params.Obj?
    ensures !Given(params, "url") ==> NavigateTool(params, io) == Refuse(MissingUrl)
    ensures !Given(params, "ref") ==>
              && ClickTool(params, io) == Refuse(MissingRef)
              && HoverTool(params, io) == Refuse(MissingRef)
              && TypeTextTool(params, io) == Refuse(MissingRef)
              && SelectOptionTool(params, io) == Refuse(MissingRef)
    ensures Given(params, "ref") && !Given(params, "text") ==> TypeTextTool(params, io) == Refuse(MissingText)
    ensures Given(params, "ref") && !Truthy(Arg(params, "values", Arr([]))) ==>
              SelectOptionTool(params, io) == Refuse(MissingValues)
    ensures !Given(params, "startRef") || !Given(params, "endRef") ==> DragTool(params, io) == Refuse(MissingDragRefs)
    ensures !Given(params, "key") ==> PressKeyTool(params, io) == Refuse(MissingKey)
    ensures !Given(params, "savePath") ==> GetHtmlTool(params, io) == Refuse(MissingSavePath)
  {
  }

  /**
   * A handler answers with an error message exactly when it returned
   * without sending anything: every handler that gets past its argument
   * checks sends at least one request.
   */
  lemma {:induction false} RefusalIffNothingSent(tool: Tool, params: Value, io: Io)
    ensures var r := Handle(tool, params, io);
            r.result.Ok? && r.result.value.Failure? <==> r.result.Ok? && r.sent == []
  {
    HandleFollowsPlan(tool, params, io);
    RefusalSendsNothing(tool, params, io);
    EmptyPlanRefuses(tool, params, io);
  }

  lemma RefusalSendsNothing(tool: Tool, params: Value, io: Io)
    ensures var r := Handle(tool, params, io);
            r.result.Ok? && r.result.value.Failure? ==> r.sent == []
  {
    match tool
    case Navigate =>
    case GoBack =>
    case GoForward =>
    case Click =>
    case Hover =>
    case TypeText =>
    case SelectOption =>
    case Drag =>
    case PressKey =>
    case Wait =>
    case Screenshot =>
    case TakeSnapshot =>
    case GetConsoleLogs =>
    case GetHtml =>
  }

  lemma EmptyPlanRefuses(tool: Tool, params: Value, io: Io)
    ensures var r := Handle(tool, params, io);
            Plan(tool, params) == [] && r.result.Ok? ==> r.result.value.Failure?
  {
    match tool
    case Navigate =>
    case GoBack =>
    case GoForward =>
    case Click =>
    case Hover =>
    case TypeText =>
    case SelectOption =>
    case Drag =>
    case PressKey =>
    case Wait =>
    case Screenshot =>
    case TakeSnapshot =>
    case GetConsoleLogs =>
    case GetHtml =>
  }

  /** A `click` that times out is not an error: the snapshot is taken all the same. */
  lemma ClickTimeoutSwallowed(params: Value, io: Io, msgType: string, timeoutMs: int)
    requires Given(params, "ref")
    requires io.peer(ClickRequest(Arg(params, "ref", Str("")))) == Err(Timeout(msgType, timeoutMs))
    ensures var ref := Arg(params, "ref", Str(""));
            ClickTool(params, io) == WithSnapshot([ClickRequest(ref)], Snapshot.CaptureAriaSnapshot(io.peer, "已点击 ref=" + PyStr(ref)))
  {
  }

  /** Any other error of the click itself propagates, and no snapshot is taken. */
  lemma ClickOtherErrorRaises(params: Value, io: Io)
    requires Given(params, "ref")
    requires io.peer(ClickRequest(Arg(params, "ref", Str("")))).Err?
    requires !io.peer(ClickRequest(Arg(params, "ref", Str("")))).error.Timeout?
    ensures ClickTool(params, io) == Run([ClickRequest(Arg(params, "ref", Str("")))],
                                         Err(io.peer(ClickRequest(Arg(params, "ref", Str("")))).error))
  {
  }

  /** `wait` waits one second unless told otherwise; `type` does not submit unless told to. */
  lemma ArgumentDefaults(params: Value)
    requires params.Obj?
    ensures Field(params.members, "time").None? ==> Plan(Wait, params) == [WaitRequest(Num(1))]
    ensures Given(params, "ref") && Given(params, "text") && Field(params.members, "submit").None? ==>
              Plan(TypeText, params)[0].payload.members[2] == Member("submit", Bool(false))
  {
  }

  /**
   * The console text is empty, and the placeholder shown, exactly when the
   * logs are falsy or iterate to a single empty string.
   */
  lemma {:induction false} LogLinesEmpty(logs: Value)
    ensures LogLines(logs) == Ok("") <==> !Truthy(logs) || Iterate(logs) == Ok([Str("")])
  {
    if Truthy(logs) && Iterate(logs).Ok? {
      var xs := Iterate(logs).value;
      var parts := seq(|xs|, i requires 0 <= i < |xs| => PyStr(xs[i]));
      JoinEmptyIsEmpty("\n", parts);
      assert |xs| >= 1;
      if Join("\n", parts) == "" {
        assert |xs| == 1 && parts[0] == "";
        assert xs == [Str("")];
      }
      if xs == [Str("")] {
        assert parts == [""];
      }
    }
  }

  lemma ConsoleLogsPlaceholder(params: Value, io: Io, logs: Value)
    requires io.peer(ConsoleLogsRequest) == Ok(logs)
    requires LogLines(logs).Ok?
    ensures GetConsoleLogsTool(params, io).result
            == Ok(Success(Snapshot.TextResult(if LogLines(logs).value == "" then NoLogs else LogLines(logs).value)))
    ensures LogLines(logs).value == "" <==> !Truthy(logs) || Iterate(logs) == Ok([Str("")])
  {
    LogLinesEmpty(logs);
  }

  // ---- properties of the registry ----

  /** `status` and `quit` are handled before the registry and are not in it; `type` is `browser_type`. */
  lemma RegistryEntries()
    ensures "status" !in Registry && "quit" !in Registry
    ensures Registry["type"] == TypeText && Registry["snapshot"] == TakeSnapshot
  {
  }

  /** The registry's names are exactly those listed. */
  lemma RegistryNames()
    ensures forall name :: name in Registry <==> name in SortedNames
  {
  }

  /** The list in the unknown-action error is strictly increasing, so it is `sorted(TOOLS.keys())`. */
  lemma SortedNamesSorted()
    ensures StrictlySorted(SortedNames)
  {
    forall i | 0 <= i < |SortedNames| - 1
      ensures LexLess(SortedNames[i], SortedNames[i + 1])
    {
      if i < 7 {
        AdjacentNamesLow(i);
      } else {
        AdjacentNamesHigh(i);
      }
    }
  }

  lemma AdjacentNamesLow(i: nat)
    requires 0 <= i < 7
    ensures LexLess(SortedNames[i], SortedNames[i + 1])
  {
    var names := SortedNames;
    if i == 0 {
      LexLessFirst(names[0], names[1]);
    } else if i == 1 {
      LexLessFirst(names[1], names[2]);
    } else if i == 2 {
      LexLessCommonPrefix("get_", "console_logs", "html");
      assert "get_" + "console_logs" == names[2] && "get_" + "html" == names[3];
    } else if i == 3 {
      LexLessSecond(names[3], names[4]);
    } else if i == 4 {
      LexLessCommonPrefix("go_", "back", "forward");
      assert "go_" + "back" == names[4] && "go_" + "forward" == names[5];
    } else if i == 5 {
      LexLessFirst(names[5], names[6]);
    } else {
      LexLessFirst(names[6], names[7]);
    }
  }

  lemma AdjacentNamesHigh(i: nat)
    requires 7 <= i < 13
    ensures LexLess(SortedNames[i], SortedNames[i + 1])
  {
    var names := SortedNames;
    if i == 7 {
      LexLessFirst(names[7], names[8]);
    } else if i == 8 {
      LexLessFirst(names[8], names[9]);
    } else if i == 9 {
      LexLessSecond(names[9], names[10]);
    } else if i == 10 {
      LexLessSecond(names[10], names[11]);
    } else if i == 11 {
      LexLessFirst(names[11], names[12]);
    } else {
      LexLessFirst(names[12], names[13]);
    }
  }

  /** Any strictly increasing listing of the registry's names is `SortedNames`. */
  lemma SortedNamesUnique(names: seq<string>)
    requires StrictlySorted(names)
    requires forall name :: name in names <==> name in Registry
    ensures names == SortedNames
  {
    RegistryNames();
    SortedNamesSorted();
    StrictlySortedUnique(names, SortedNames);
  }
}

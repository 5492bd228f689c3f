/**
 * The connection context (`Context` in context.py): at most one attached
 * websocket and the table of requests awaiting a reply, keyed by correlation id.
 *
 * The asyncio future behind each pending request is a `Slot` that is unset,
 * resolved with a value or failed with an error. `send_message` is split at its
 * one suspension point: `Transmit` registers the slot and writes the frame,
 * `Await` ends the wait, either with what a reply put into the slot or, if the
 * slot is still unset, with the timeout. Fresh uuid4 ids
 * are a precondition that the id is not in the table yet.
 */
module Connection {
  import opened Wrappers
  import opened Strings
  import opened Values

  /** Identity of one accepted websocket. */
  type Socket = nat

  /** The state of the future a pending request waits on. */
  datatype Slot = Unset | Resolved(result: Value) | Failed(error: Value)

  /** `_pending`: correlation id to slot. */
  type Table = map<string, Slot>

  const DefaultTimeoutMs := 30000

  /** The arguments of one `send_message(msg_type, payload, timeout_ms)` call; `Null` stands for `payload=None`. */
  datatype Request = Request(msgType: string, payload: Value, timeoutMs: int)

  /** What one `send_message` call returns (`Ok`) or raises (`Err`). */
  type Reply = Result<Value, Exception>

  /**
   * What a client of `send_message` sees of the peer: the outcome of each
   * request. No handler sends the same request twice in one invocation, so a
   * function of the request describes every reply schedule.
   */
  type Peer = Request -> Reply

  /** The requests a sequence of `send_message` calls made, and how it ended. */
  datatype Run<+T> = Run(sent: seq<Request>, result: Result<T, Exception>)

  /** The message dict `send_message` writes: `id`, `type`, and `payload` unless the payload is `None`. */
  function Envelope(id: string, req: Request): (m: Value)
    ensures m.Obj?
    ensures Field(m.members, "id") == Some(Str(id))
    ensures Field(m.members, "type") == Some(Str(req.msgType))
    ensures Field(m.members, "payload") == (if req.payload == Null then None else Some(req.payload))
    ensures Keys(m.members) == if req.payload == Null then ["id", "type"] else ["id", "type", "payload"]
  {
    var head := [Member("id", Str(id)), Member("type", Str(req.msgType))];
    var members := if req.payload == Null then head else head + [Member("payload", req.payload)];
    assert members[1..][0].key == "type";
    assert Field(members, "id") == Some(Str(id));
    assert Field(members, "type") == Some(Str(req.msgType));
    assert req.payload == Null ==> members[1..][1..] == [];
    assert req.payload != Null ==> members[1..][1..] == [Member("payload", req.payload)];
    var rest := members[1..][1..];
    assert Field(rest, "payload") == (if req.payload == Null then None else Some(req.payload));
    assert Field(members[1..], "payload") == Field(rest, "payload");
    assert Field(members, "payload") == (if req.payload == Null then None else Some(req.payload));
    assert Keys(members) == if req.payload == Null then ["id", "type"] else ["id", "type", "payload"];
    Obj(members)
  }

  /** How a wait that ends in state `slot` ends (lines 71-74). */
  function Settle(slot: Slot, req: Request): (r: Reply)
    ensures r.Ok? <==> slot.Resolved?
    ensures slot.Unset? ==> r == Err(Timeout(req.msgType, req.timeoutMs))
    ensures slot.Resolved? ==> r == Ok(slot.result)
    ensures slot.Failed? ==> r == Err(Remote(slot.error))
  {
    match slot
    case Unset => Err(Timeout(req.msgType, req.timeoutMs))
    case Resolved(v) => Ok(v)
    case Failed(e) => Err(Remote(e))
  }

  /** A timeout names the message type and the timeout in milliseconds. */
  lemma TimeoutText(req: Request)
    ensures ExceptionText(Settle(Unset, req).error)
            == "消息 '" + req.msgType + "' 超时（" + IntToString(req.timeoutMs) + "ms）"
  {
  }

  // ---- handle_response, as pure functions of the frame ----

  /** `payload.get("requestId") or data.get("id")`. */
  function CorrelationId(data: seq<Member>, payload: seq<Member>): Value {
    var rid := GetOr(payload, "requestId", Null);
    if Truthy(rid) then rid else GetOr(data, "id", Null)
  }

  /**
   * What resolving the slot stores: an error if `payload.error or data.error`
   * is truthy; otherwise `payload.result` unless it is `None`, else
   * `data.get("result", data.get("data"))`.
   */
  function SlotFor(data: seq<Member>, payload: seq<Member>): Slot {
    var perr := GetOr(payload, "error", Null);
    var error := if Truthy(perr) then perr else GetOr(data, "error", Null);
    if Truthy(error) then Failed(error)
    else
      var presult := GetOr(payload, "result", Null);
      if presult != Null then Resolved(presult)
      else Resolved(GetOr(data, "result", GetOr(data, "data", Null)))
  }

  /** The table after `handle_response(frame)`, or the exception it raises. */
  function Ingest(table: Table, frame: Value): (r: Result<Table, Exception>)
    ensures r.Ok? ==> r.value.Keys == table.Keys
    ensures r.Ok? ==> forall k :: k in table ==>
              r.value[k] == table[k] || (table[k] == Unset && r.value[k] != Unset)
  {
    if !frame.Obj? then Err(NoAttributeGet(TypeName(frame)))
    else
      var payload := GetOr(frame.members, "payload", Obj([]));
      if !payload.Obj? then Err(NoAttributeGet(TypeName(payload)))
      else
        var id := CorrelationId(frame.members, payload.members);
        if !Truthy(id) then Ok(table)
        else if !Hashable(id) then Err(Unhashable(TypeName(id)))
        else if !id.Str? || id.s !in table then Ok(table)
        else if table[id.s] != Unset then Ok(table)
        else Ok(table[id.s := SlotFor(frame.members, payload.members)])
  }

  /** The id a well-formed frame addresses: a truthy string correlation id. */
  function Target(frame: Value): Option<string> {
    if !frame.Obj? then None
    else
      var payload := GetOr(frame.members, "payload", Obj([]));
      if !payload.Obj? then None
      else
        var id := CorrelationId(frame.members, payload.members);
        if id.Str? && id.s != "" then Some(id.s) else None
  }

  /** `handle_response` raises exactly for a non-dict frame, a non-dict payload, or a truthy list/dict id. */
  lemma IngestRaises(table: Table, frame: Value)
    ensures Ingest(table, frame).Err? <==>
      || !frame.Obj?
      || !GetOr(frame.members, "payload", Obj([])).Obj?
      || (var id := CorrelationId(frame.members, GetOr(frame.members, "payload", Obj([])).members);
          Truthy(id) && !Hashable(id))
  {
  }

  /** A frame changes no slot but the one it addresses. */
  lemma IngestTouchesOnlyTarget(table: Table, frame: Value, k: string)
    requires Ingest(table, frame).Ok?
    requires k in table && Target(frame) != Some(k)
    ensures Ingest(table, frame).value[k] == table[k]
  {
  }

  /** First writer wins: a resolved or failed slot is never overwritten. */
  lemma IngestFirstWriterWins(table: Table, frame: Value, k: string)
    requires Ingest(table, frame).Ok?
    requires k in table && table[k] != Unset
    ensures Ingest(table, frame).value[k] == table[k]
  {
  }

  /** A frame without a usable id, or for an id not pending, changes nothing. */
  lemma IngestDropsUnknown(table: Table, frame: Value)
    requires Ingest(table, frame).Ok?
    requires Target(frame).None? || Target(frame).value !in table
    ensures Ingest(table, frame) == Ok(table)
  {
  }

  /** A frame for a pending, unset id resolves exactly that slot. */
  lemma IngestResolves(table: Table, frame: Value)
    requires Target(frame).Some? && Target(frame).value in table
    requires table[Target(frame).value] == Unset
    ensures var payload := GetOr(frame.members, "payload", Obj([]));
            Ingest(table, frame) == Ok(table[Target(frame).value := SlotFor(frame.members, payload.members)])
  {
  }

  /** The correlation id comes from `payload.requestId` when truthy, else from the top-level `id`. */
  lemma TargetChoice(frame: Value)
    requires frame.Obj? && GetOr(frame.members, "payload", Obj([])).Obj?
    ensures var payload := GetOr(frame.members, "payload", Obj([])).members;
            var rid := GetOr(payload, "requestId", Null);
            var top := GetOr(frame.members, "id", Null);
            Target(frame) == (if Truthy(rid) then (if rid.Str? then Some(rid.s) else None)
                              else if top.Str? && top.s != "" then Some(top.s) else None)
  {
  }

  /** A truthy error in the payload or at top level fails the slot; otherwise the result fallback chain applies. */
  lemma SlotForChoice(data: seq<Member>, payload: seq<Member>)
    ensures var perr := GetOr(payload, "error", Null);
            var derr := GetOr(data, "error", Null);
            SlotFor(data, payload).Failed? <==> Truthy(perr) || Truthy(derr)
    ensures var perr := GetOr(payload, "error", Null);
            Truthy(perr) ==> SlotFor(data, payload) == Failed(perr)
    ensures var presult := GetOr(payload, "result", Null);
            SlotFor(data, payload).Resolved? && presult != Null ==> SlotFor(data, payload) == Resolved(presult)
    ensures var presult := GetOr(payload, "result", Null);
            SlotFor(data, payload).Resolved? && presult == Null && Field(data, "result").None? ==>
              SlotFor(data, payload) == Resolved(GetOr(data, "data", Null))
    ensures var perr := GetOr(payload, "error", Null);
            var derr := GetOr(data, "error", Null);
            var presult := GetOr(payload, "result", Null);
            !Truthy(perr) && !Truthy(derr) && presult == Null && Field(data, "result").Some? ==>
              SlotFor(data, payload) == Resolved(Field(data, "result").value)
    ensures var perr := GetOr(payload, "error", Null);
            var derr := GetOr(data, "error", Null);
            !Truthy(perr) && Truthy(derr) ==> SlotFor(data, payload) == Failed(derr)
  {
  }

  /**
   * Two requests in flight at once do not disturb each other: a frame for
   * one never resolves the other.
   */
  lemma ConcurrentRequestsIndependent(table: Table, a: string, b: string, frame: Value)
    requires a != b && a in table && b in table && table[b] == Unset
    requires Target(frame) == Some(a)
    requires Ingest(table, frame).Ok?
    ensures Ingest(table, frame).value[b] == Unset
  {
    IngestTouchesOnlyTarget(table, frame, b);
  }

  /** A reply arriving after its request timed out (and left the table) is dropped. */
  lemma LateReplyDropped(table: Table, id: string, frame: Value)
    requires Target(frame) == Some(id)
    requires Ingest(table, frame).Ok?
    ensures Ingest(table - {id}, frame) == Ok(table - {id})
  {
  }

  /** The table after the frames in `frames` are handled in order; frames that raise change nothing. */
  function IngestAll(table: Table, frames: seq<Value>): (r: Table)
    ensures r.Keys == table.Keys
    ensures forall k :: k in table && table[k] != Unset ==> r[k] == table[k]
  {
    if frames == [] then table
    else
      var next := match Ingest(table, frames[0]) case Ok(t) => t case Err(_) => table;
      IngestAll(next, frames[1..])
  }

  /** Once the first frame for `k` has resolved its slot, later frames cannot change it. */
  lemma {:induction false} IngestAllKeepsFirst(table: Table, frames: seq<Value>, k: string, i: nat)
    requires i < |frames| && k in table
    requires IngestAll(table, frames[..i])[k] == Unset
    requires Target(frames[i]) == Some(k)
    requires Ingest(IngestAll(table, frames[..i]), frames[i]).Ok?
    ensures var t := IngestAll(table, frames[..i]);
            var payload := GetOr(frames[i].members, "payload", Obj([]));
            IngestAll(table, frames)[k] == SlotFor(frames[i].members, payload.members)
  {
    var pre, post := frames[..i], frames[i..];
    IngestAllSplit(table, pre, post);
    TakeDrop(frames, i);
    var t := IngestAll(table, pre);
    var payload := GetOr(frames[i].members, "payload", Obj([]));
    var slot := SlotFor(frames[i].members, payload.members);
    IngestResolves(t, frames[i]);
    assert post[0] == frames[i];
    assert IngestAll(t, post) == IngestAll(t[k := slot], post[1..]);
    assert IngestAll(t[k := slot], post[1..])[k] == slot;
  }

  lemma {:induction false} IngestAllSplit(table: Table, xs: seq<Value>, ys: seq<Value>)
    ensures IngestAll(table, xs + ys) == IngestAll(IngestAll(table, xs), ys)
  {
    if xs != [] {
      assert (xs + ys)[0] == xs[0];
      assert (xs + ys)[1..] == xs[1..] + ys;
      var next := match Ingest(table, xs[0]) case Ok(t) => t case Err(_) => table;
      IngestAllSplit(next, xs[1..], ys);
    } else {
      assert xs + ys == ys;
    }
  }

  /** The connection context. */
  class Context {
    /** `_ws`: the attached websocket, if any. */
    var ws: Option<Socket>
    /** `_pending`. */
    var pending: Table
    /** Every frame written, with the socket it went out on. */
    var written: seq<(Socket, Value)>
    /** Every socket `close` has closed, in order. */
    var closed: seq<Socket>

    constructor ()
      ensures ws == None && pending == map[] && written == [] && closed == []
    {
      ws := None;
      pending := map[];
      written := [];
      closed := [];
    }

    /** `has_ws()`. */
    function HasWs(): (b: bool)
      reads this
      ensures b <==> ws.Some?
    {
      ws.Some?
    }

    /** Reading the `ws` property raises ConnectionError while no socket is attached. */
    method GetWs() returns (r: Result<Socket, Exception>)
      ensures ws.Some? <==> r.Ok?
      ensures r.Ok? ==> r.value == ws.value
      ensures r.Err? ==> r.error == NotConnected
    {
      if ws.Some? {
        r := Ok(ws.value);
      } else {
        r := Err(NotConnected);
      }
    }

    /** The `ws` setter. */
    method SetWs(s: Socket)
      modifies this`ws
      ensures ws == Some(s)
    {
      ws := Some(s);
    }

    /**
     * `send_message` up to its wait: register an unset slot for `id`, then
     * write the envelope. `sendFault` is what the websocket's `send` raises,
     * if anything. When nothing can be written the `finally` clause has
     * already removed the slot again.
     */
    method Transmit(id: string, req: Request, sendFault: Option<string>) returns (r: Option<Exception>)
      requires id !in pending
      modifies this`pending, this`written
      ensures ws.None? ==> r == Some(NotConnected)
      ensures ws.Some? && sendFault.Some? ==> r == Some(TransportError(sendFault.value))
      ensures r.None? <==> ws.Some? && sendFault.None?
      ensures r.None? ==> pending == old(pending)[id := Unset]
      ensures r.None? ==> written == old(written) + [(ws.value, Envelope(id, req))]
      ensures r.Some? ==> pending == old(pending) && written == old(written)
    {
      pending := pending[id := Unset];
      var sock := GetWs();
      if sock.Err? {
        pending := pending - {id};
        r := Some(sock.error);
      } else if sendFault.Some? {
        pending := pending - {id};
        r := Some(TransportError(sendFault.value));
      } else {
        written := written + [(sock.value, Envelope(id, req))];
        r := None;
      }
      assert r.Some? ==> pending == old(pending);
    }

    /**
     * The wait of `send_message` ends: with what a reply put into the slot,
     * or, while it is still unset, with the timeout. Either way the
     * `finally` clause removes the slot.
     */
    method Await(id: string, req: Request) returns (r: Reply)
      requires id in pending
      modifies this`pending
      ensures pending == old(pending) - {id}
      ensures r == Settle(old(pending)[id], req)
    {
      r := Settle(pending[id], req);
      pending := pending - {id};
    }

    /** `handle_response(frame)`: returns what it raises, if anything. */
    method HandleResponse(frame: Value) returns (fault: Option<Exception>)
      modifies this`pending
      ensures Ingest(old(pending), frame).Ok? ==> fault.None? && pending == Ingest(old(pending), frame).value
      ensures Ingest(old(pending), frame).Err? ==> fault == Some(Ingest(old(pending), frame).error) && pending == old(pending)
    {
      var payload := if frame.Obj? then GetOr(frame.members, "payload", Obj([])) else Null;
      if !frame.Obj? {
        fault := Some(NoAttributeGet(TypeName(frame)));
      } else if !payload.Obj? {
        fault := Some(NoAttributeGet(TypeName(payload)));
      } else {
        var id := CorrelationId(frame.members, payload.members);
        fault := None;
        if Truthy(id) {
          if !Hashable(id) {
            fault := Some(Unhashable(TypeName(id)));
          } else if id.Str? && id.s in pending && pending[id.s] == Unset {
            pending := pending[id.s := SlotFor(frame.members, payload.members)];
          }
        }
      }
    }

    /**
     * The wait of `send_message`: the frames in `inbound` are handled while
     * the call waits, then the wait ends. Frames that make
     * `handle_response` raise leave the table alone here; what that does to
     * the connection is `Server.OnArrive`'s business.
     */
    method AwaitAfter(id: string, req: Request, inbound: seq<Value>) returns (r: Reply)
      requires id in pending
      modifies this`pending
      ensures r == Settle(IngestAll(old(pending), inbound)[id], req)
      ensures pending == IngestAll(old(pending), inbound) - {id}
    {
      var i := 0;
      while i < |inbound|
        invariant 0 <= i <= |inbound|
        invariant id in pending
        invariant IngestAll(old(pending), inbound) == IngestAll(pending, inbound[i..])
      {
        assert inbound[i..][0] == inbound[i] && inbound[i..][1..] == inbound[i + 1..];
        var _ := HandleResponse(inbound[i]);
        i := i + 1;
      }
      r := Await(id, req);
    }

    /** One whole `send_message` call: transmit, then wait while `inbound` arrives. */
    method SendMessage(id: string, req: Request, sendFault: Option<string>, inbound: seq<Value>) returns (r: Reply)
      requires id !in pending
      modifies this`pending, this`written
      ensures id !in pending && pending.Keys == old(pending).Keys
      ensures old(ws).None? ==> r == Err(NotConnected) && pending == old(pending) && written == old(written)
      ensures old(ws).Some? && sendFault.Some? ==>
                r == Err(TransportError(sendFault.value)) && pending == old(pending) && written == old(written)
      ensures old(ws).Some? && sendFault.None? ==>
                r == Settle(IngestAll(old(pending)[id := Unset], inbound)[id], req)
                && pending == IngestAll(old(pending)[id := Unset], inbound) - {id}
                && written == old(written) + [(old(ws).value, Envelope(id, req))]
    {
      var fault := Transmit(id, req, sendFault);
      if fault.Some? {
        r := Err(fault.value);
        return;
      }
      r := AwaitAfter(id, req, inbound);
    }

    /** `close()`: closes and forgets the attached socket, if any; pending requests are left to time out. */
    method Close()
      modifies this`ws, this`closed
      ensures ws == None
      ensures closed == old(closed) + (if old(ws).Some? then [old(ws).value] else [])
    {
      if ws.Some? {
        closed := closed + [ws.value];
        ws := None;
      }
    }
  }
}

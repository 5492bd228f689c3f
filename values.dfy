/**
 * JSON values as the Python relay sees them after `json.loads`: truthiness,
 * `dict.get`, `type(v).__name__`, `str(v)`/`repr(v)`, iteration with `for`,
 * and the exceptions the relay's code can raise or pass on.
 */
module Values {
  import opened Wrappers
  import opened Strings

  /** A decoded JSON value. Objects keep their keys in insertion order, as Python dicts do. */
  datatype Value =
    | Null
    | Bool(b: bool)
    | Num(n: int)
    | Str(s: string)
    | Arr(items: seq<Value>)
    | Obj(members: seq<Member>)

  datatype Member = Member(key: string, value: Value)

  /** `d[key]` if present: the first member with that key. */
  function Field(members: seq<Member>, key: string): (r: Option<Value>)
    ensures r.None? <==> forall i :: 0 <= i < |members| ==> members[i].key != key
    ensures r.Some? ==> exists i :: 0 <= i < |members| && members[i] == Member(key, r.value)
  {
    if members == [] then None
    else if members[0].key == key then Some(members[0].value)
    else
      var r := Field(members[1..], key);
      assert forall i :: 1 <= i < |members| ==> members[i] == members[1..][i - 1];
      r
  }

  /** `d.get(key, default)`. */
  function GetOr(members: seq<Member>, key: string, default: Value): Value {
    match Field(members, key)
    case Some(v) => v
    case None => default
  }

  function Keys(members: seq<Member>): seq<string> {
    seq(|members|, i requires 0 <= i < |members| => members[i].key)
  }

  /** Python's `bool(v)`. */
  predicate Truthy(v: Value) {
    match v
    case Null => false
    case Bool(b) => b
    case Num(n) => n != 0
    case Str(s) => s != ""
    case Arr(items) => items != []
    case Obj(members) => members != []
  }

  /** `type(v).__name__`. */
  function TypeName(v: Value): string {
    match v
    case Null => "NoneType"
    case Bool(_) => "bool"
    case Num(_) => "int"
    case Str(_) => "str"
    case Arr(_) => "list"
    case Obj(_) => "dict"
  }

  /** Lists and dicts cannot be dictionary keys. */
  predicate Hashable(v: Value) {
    !v.Arr? && !v.Obj?
  }

  function HexDigit(d: nat): char
    requires d < 16
  {
    "0123456789abcdef"[d]
  }

  /** One character inside `repr` of a string quoted with `quote`. */
  function EscapeChar(c: char, quote: char): string {
    if c == quote || c == '\\' then ['\\', c]
    else if c == '\t' then "\\t"
    else if c == '\n' then "\\n"
    else if c == '\r' then "\\r"
    else if c < ' ' || c == '\U{7F}' then ['\\', 'x', HexDigit(c as int / 16), HexDigit(c as int % 16)]
    else [c]
  }

  /** `repr(s)`: single quotes unless the text holds a `'` and no `"`. */
  function StrRepr(s: string): string {
    var quote := if '\'' in s && '"' !in s then '"' else '\'';
    [quote] + Concat(seq(|s|, i requires 0 <= i < |s| => EscapeChar(s[i], quote))) + [quote]
  }

  /** `repr(v)`, as used for the elements of a list or dict. */
  function Repr(v: Value): string {
    match v
    case Null => "None"
    case Bool(b) => if b then "True" else "False"
    case Num(n) => IntToString(n)
    case Str(s) => StrRepr(s)
    case Arr(items) =>
      "[" + Join(", ", seq(|items|, i requires 0 <= i < |items| => Repr(items[i]))) + "]"
    case Obj(members) =>
      "{" + Join(", ", seq(|members|, i requires 0 <= i < |members| =>
                             StrRepr(members[i].key) + ": " + Repr(members[i].value))) + "}"
  }

  /**
   * `str(v)`, as an f-string or `str()` renders it: a string is its own text,
   * scalars print as Python literals, lists and dicts as their bracketed
   * `repr`. Only the empty string renders as the empty text.
   */
  function PyStr(v: Value): (r: string)
    ensures v.Str? ==> r == v.s
    ensures v.Null? ==> r == "None"
    ensures v.Bool? ==> r == if v.b then "True" else "False"
    ensures v.Num? ==> r == IntToString(v.n)
    ensures v.Arr? ==> |r| >= 2 && r[0] == '[' && r[|r| - 1] == ']'
    ensures v.Obj? ==> |r| >= 2 && r[0] == '{' && r[|r| - 1] == '}'
    ensures r == "" <==> v == Str("")
  {
    if v.Str? then v.s
    else
      var r := Repr(v);
      assert v.Arr? ==> r[0] == '[' && r[|r| - 1] == ']';
      assert v.Obj? ==> r[0] == '{' && r[|r| - 1] == '}';
      r
  }

  /** The exceptions the relay raises or passes on, each with the text `str(e)` gives. */
  datatype Exception =
    | NotConnected                         // ConnectionError from the `ws` property
    | TransportError(reason: string)       // the websocket's `send` raised
    | Timeout(msgType: string, timeoutMs: int)   // TimeoutError from `send_message`
    | Remote(error: Value)                 // RuntimeError carrying the peer's error
    | NoAttributeGet(typeName: string)     // AttributeError: `.get` on a non-dict
    | Unhashable(typeName: string)         // TypeError: a list or dict used as a key
    | NotIterable(typeName: string)        // TypeError: `for` over a scalar

  const NotConnectedText := "未连接到浏览器扩展。请先点击 Browser MCP 扩展图标并点击 'Connect' 按钮。"

  /** `str(e)`. */
  function ExceptionText(e: Exception): string {
    match e
    case NotConnected => NotConnectedText
    case TransportError(reason) => reason
    case Timeout(t, ms) => "消息 '" + t + "' 超时（" + IntToString(ms) + "ms）"
    case Remote(error) => PyStr(error)
    case NoAttributeGet(name) => "'" + name + "' object has no attribute 'get'"
    case Unhashable(name) => "unhashable type: '" + name + "'"
    case NotIterable(name) => "'" + name + "' object is not iterable"
  }

  /**
   * The elements `for x in v` visits: a list's items, a string's characters,
   * a dict's keys; other values are not iterable.
   */
  function Iterate(v: Value): (r: Result<seq<Value>, Exception>)
    ensures r.Err? <==> v.Null? || v.Bool? || v.Num?
    ensures r.Ok? ==> |r.value| == match v
                                    case Arr(items) => |items|
                                    case Str(s) => |s|
                                    case Obj(members) => |members|
                                    case _ => 0
    ensures v.Arr? ==> r == Ok(v.items)
    ensures v.Str? ==> forall i :: 0 <= i < |v.s| ==> r.value[i] == Str([v.s[i]])
    ensures v.Obj? ==> forall i :: 0 <= i < |v.members| ==> r.value[i] == Str(v.members[i].key)
  {
    match v
    case Arr(items) => Ok(items)
    case Str(s) => Ok(seq(|s|, i requires 0 <= i < |s| => Str([s[i]])))
    case Obj(members) => Ok(seq(|members|, i requires 0 <= i < |members| => Str(members[i].key)))
    case _ => Err(NotIterable(TypeName(v)))
  }
}

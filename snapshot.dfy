/** `capture_aria_snapshot` (utils.py): three requests, then the page text. */
module Snapshot {
  import opened Wrappers
  import opened Strings
  import opened Values
  import opened Connection

  const GetUrl := Request("getUrl", Null, DefaultTimeoutMs)
  const GetTitle := Request("getTitle", Null, DefaultTimeoutMs)
  const TakeSnapshot := Request("browser_snapshot", Obj([]), DefaultTimeoutMs)

  /** The requests of one snapshot, in the order they are sent. */
  const Requests := [GetUrl, GetTitle, TakeSnapshot]

  /** `{"type": "text", "text": text}`, the result shape every text-returning handler uses. */
  function TextResult(text: string): (v: Value)
    ensures v.Obj? && Field(v.members, "type") == Some(Str("text"))
    ensures Field(v.members, "text") == Some(Str(text))
  {
    var m := [Member("type", Str("text")), Member("text", Str(text))];
    assert m[1..][0] == Member("text", Str(text));
    Obj(m)
  }

  function StatusLine(status: string): string {
    if status != "" then status + "\n" else ""
  }

  function UrlLine(url: Value): string {
    "- Page URL: " + PyStr(url) + "\n"
  }

  function Fenced(snapshot: Value): string {
    "- Page Snapshot\n```yaml\n" + PyStr(snapshot) + "\n```"
  }

  function TitleLine(title: Value): string {
    "- Page Title: " + PyStr(title) + "\n"
  }

  /** The snapshot text: an optional status line, URL, title, and the snapshot in a YAML fence. */
  function Text(status: string, url: Value, title: Value, snapshot: Value): (t: string)
    ensures StartsWith(t, StatusLine(status) + UrlLine(url))
    ensures |StatusLine(status) + UrlLine(url)| + |Fenced(snapshot)| <= |t|
    ensures t[|StatusLine(status) + UrlLine(url)|..|t| - |Fenced(snapshot)|] == TitleLine(title)
    ensures EndsWith(t, Fenced(snapshot))
  {
    var head, mid, tail := StatusLine(status) + UrlLine(url), TitleLine(title), Fenced(snapshot);
    Assoc(head, mid, tail);
    SplitAt(head, mid + tail);
    SplitAt(mid, tail);
    SplitAt(head + mid, tail);
    head + mid + tail
  }

  /** The text opens with `status` and a newline exactly when there is a status; otherwise with the URL line. */
  lemma TextOpening(status: string, url: Value, title: Value, snapshot: Value)
    ensures StartsWith(Text(status, url, title, snapshot), status + "\n") <==> status != ""
    ensures status == "" ==> StartsWith(Text(status, url, title, snapshot), "- Page URL: ")
  {
    var t := Text(status, url, title, snapshot);
    var head := StatusLine(status) + UrlLine(url);
    if status == "" {
      var rest := PyStr(url) + "\n";
      assert head == "- Page URL: " + rest;
      assert head[..12] == "- Page URL: ";
      assert t[0] == head[0] == '-';
    } else {
      assert head == (status + "\n") + UrlLine(url);
      assert head[..|status| + 1] == status + "\n";
    }
  }

  /**
   * `capture_aria_snapshot(context, status)`: the three requests in order,
   * stopping at the first that raises; on success the text result.
   */
  function CaptureAriaSnapshot(peer: Peer, status: string): (r: Run<Value>)
    ensures r.sent <= Requests && r.sent != []
    ensures r.result.Ok? <==> peer(GetUrl).Ok? && peer(GetTitle).Ok? && peer(TakeSnapshot).Ok?
    ensures r.result.Ok? ==> r.sent == Requests
    ensures r.result.Ok? ==>
      r.result.value == TextResult(Text(status, peer(GetUrl).value, peer(GetTitle).value, peer(TakeSnapshot).value))
    ensures r.result.Err? ==> peer(r.sent[|r.sent| - 1]) == Err(r.result.error)
    ensures forall i :: 0 <= i < |r.sent| - 1 ==> peer(r.sent[i]).Ok?
  {
    match peer(GetUrl)
    case Err(e) => Run([GetUrl], Err(e))
    case Ok(url) =>
      match peer(GetTitle)
      case Err(e) => Run([GetUrl, GetTitle], Err(e))
      case Ok(title) =>
        match peer(TakeSnapshot)
        case Err(e) => Run(Requests, Err(e))
        case Ok(snapshot) => Run(Requests, Ok(TextResult(Text(status, url, title, snapshot))))
  }

  /** `getUrl` and `getTitle` go without a payload, `browser_snapshot` with an empty dict. */
  lemma RequestPayloads()
    ensures Envelope("u", GetUrl).members == [Member("id", Str("u")), Member("type", Str("getUrl"))]
    ensures Envelope("t", GetTitle).members == [Member("id", Str("t")), Member("type", Str("getTitle"))]
    ensures Field(Envelope("s", TakeSnapshot).members, "payload") == Some(Obj([]))
  {
  }
}

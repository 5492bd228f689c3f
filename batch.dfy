/**
 * The offline link-list tool (batch_resolve_urls.py): reading `名称 | URL`
 * lines, the defaults of a JSON configuration, the Markdown table of
 * results, and the choice of the jump pages' common domain.
 */
module BatchResolve {
  import opened Wrappers
  import opened Strings
  import opened Values

  type Link = (string, string)

  // ---- load_from_file ----

  /** A kept line as `(name, url)`, or `None` for a blank or `#` comment line. */
  function ParseLine(line: string): (r: Option<Link>)
    ensures r.None? <==> Strip(line) == "" || StartsWith(Strip(line), "#")
    ensures r.Some? ==> IsStripped(r.value.0) && IsStripped(r.value.1)
  {
    var s := Strip(line);
    if s == "" || StartsWith(s, "#") then None
    else
      var parts := if '|' in s then SplitOnce(s, '|') else if '\t' in s then SplitOnce(s, '\t') else (s, s);
      Some((Strip(parts.0), Strip(parts.1)))
  }

  /** The links of a file's lines, in order. */
  function ParseLines(lines: seq<string>): (r: seq<Link>)
    ensures |r| <= |lines|
  {
    if lines == [] then []
    else Piece(lines[0]) + ParseLines(lines[1..])
  }

  /** What one line contributes: its link, or nothing. */
  function Piece(line: string): seq<Link> {
    match ParseLine(line) case Some(l) => [l] case None => []
  }

  /** How many of the lines are kept. */
  function Kept(lines: seq<string>): nat {
    if lines == [] then 0
    else (if ParseLine(lines[0]).Some? then 1 else 0) + Kept(lines[1..])
  }

  /** `|` wins over a tab, and only the first separator splits. */
  lemma PipeFirst(line: string)
    requires Strip(line) != "" && !StartsWith(Strip(line), "#") && '|' in Strip(line)
    ensures var s := Strip(line);
            var (head, tail) := SplitOnce(s, '|');
            && '|' !in head
            && s == head + "|" + tail
            && ParseLine(line) == Some((Strip(head), Strip(tail)))
  {
  }

  /** A tab splits only a line without `|`. */
  lemma TabSecond(line: string)
    requires Strip(line) != "" && !StartsWith(Strip(line), "#") && '|' !in Strip(line) && '\t' in Strip(line)
    ensures var s := Strip(line);
            var (head, tail) := SplitOnce(s, '\t');
            && '\t' !in head
            && s == head + "\t" + tail
            && ParseLine(line) == Some((Strip(head), Strip(tail)))
  {
  }

  /** A line without a separator names itself. */
  lemma NoSeparator(line: string)
    requires Strip(line) != "" && !StartsWith(Strip(line), "#") && '|' !in Strip(line) && '\t' !in Strip(line)
    ensures ParseLine(line) == Some((Strip(line), Strip(line)))
  {
    StripIdempotent(line);
  }

  /** Lines are read in order: the links of two files' worth of lines are the links of each. */
  lemma {:induction false} ParseLinesAppend(a: seq<string>, b: seq<string>)
    ensures ParseLines(a + b) == ParseLines(a) + ParseLines(b)
  {
    if a == [] {
      assert a + b == b;
    } else {
      assert (a + b)[0] == a[0] && (a + b)[1..] == a[1..] + b;
      ParseLinesAppend(a[1..], b);
    }
  }

  /** Exactly one link per kept line. */
  lemma {:induction false} ParseLinesCount(lines: seq<string>)
    ensures |ParseLines(lines)| == Kept(lines)
  {
    if lines != [] {
      ParseLinesCount(lines[1..]);
    }
  }

  /** The `名称 | URL` form of a link. */
  function FormatLine(link: Link): string {
    link.0 + " | " + link.1
  }

  /** The stripped form of a formatted link: a trailing blank after an empty URL goes. */
  lemma StripFormatted(name: string, url: string)
    requires IsStripped(name) && name != "" && IsStripped(url)
    ensures Strip(FormatLine((name, url))) == name + " |" + (if url == "" then "" else " " + url)
  {
    if url == "" {
      StripFormattedNoUrl(name);
    } else {
      StripFormattedUrl(name, url);
    }
  }

  lemma StripFormattedNoUrl(name: string)
    requires IsStripped(name) && name != ""
    ensures Strip(FormatLine((name, ""))) == name + " |"
  {
    var core := name + " |";
    assert FormatLine((name, "")) == "" + core + " ";
    assert core[0] == name[0] && core[|core| - 1] == '|';
    StripPadded("", core, " ");
  }

  lemma StripFormattedUrl(name: string, url: string)
    requires IsStripped(name) && name != "" && IsStripped(url) && url != ""
    ensures Strip(FormatLine((name, url))) == name + " |" + " " + url
  {
    var line := FormatLine((name, url));
    assert line[0] == name[0] && line[|line| - 1] == url[|url| - 1];
    assert IsStripped(line);
    StripOfStripped(line);
  }

  /** Splitting the stripped form at its first `|`. */
  lemma SplitFormatted(name: string, url: string)
    requires '|' !in name
    ensures var s := name + " |" + (if url == "" then "" else " " + url);
            '|' in s && SplitOnce(s, '|') == (name + " ", if url == "" then "" else " " + url)
  {
    var tail := if url == "" then "" else " " + url;
    assert name + " |" + tail == (name + " ") + ['|'] + tail;
    assert '|' !in name + " ";
    SplitOnceOfConcat(name + " ", '|', tail);
  }

  /** The two halves lose their padding. */
  lemma StripParts(name: string, url: string)
    requires IsStripped(name) && IsStripped(url)
    ensures Strip(name + " ") == name
    ensures Strip(if url == "" then "" else " " + url) == url
  {
    var none: string, space: string := [], " ";
    EmptyPrefix(none, name);
    StripPadded(none, name, space);
    if url == "" {
      StripOfStripped(none);
    } else {
      assert space + url + none == space + url;
      StripPadded(space, url, none);
    }
  }

  /**
   * A link written as `名称 | URL` reads back as itself when the name is
   * stripped, non-empty, free of `|` and not a comment; the URL may hold
   * further `|` characters.
   */
  lemma FormatLineRoundTrip(link: Link)
    requires IsStripped(link.0) && link.0 != "" && link.0[0] != '#' && '|' !in link.0
    requires IsStripped(link.1)
    ensures ParseLine(FormatLine(link)) == Some(link)
  {
    var (name, url) := link;
    StripFormatted(name, url);
    SplitFormatted(name, url);
    StripParts(name, url);
    var s := name + " |" + (if url == "" then "" else " " + url);
    assert s[0] == name[0];
    PipeFirst(FormatLine(link));
  }

  lemma {:induction false} ParseLinesSnoc(lines: seq<string>, i: nat)
    requires i < |lines|
    ensures ParseLines(lines[..i + 1]) == ParseLines(lines[..i]) + Piece(lines[i])
  {
    var a, b := lines[..i], [lines[i]];
    assert lines[..i + 1] == a + b;
    ParseLinesAppend(a, b);
    ParseLinesSingle(lines[i]);
  }

  lemma ParseLinesSingle(line: string)
    ensures ParseLines([line]) == Piece(line)
  {
    assert [line][1..] == [];
  }

  /** `load_from_file`, over the file's lines. */
  method LoadFromFile(lines: seq<string>) returns (links: seq<Link>)
    ensures links == ParseLines(lines)
  {
    links := [];
    var i := 0;
    while i < |lines|
      invariant 0 <= i <= |lines|
      invariant links == ParseLines(lines[..i])
    {
      ParseLinesSnoc(lines, i);
      var parsed := ParseLine(lines[i]);
      if parsed.Some? {
        links := links + [parsed.value];
      }
      i := i + 1;
    }
    assert lines[..i] == lines;
  }

  // ---- load_from_config ----

  const DefaultPatterns: seq<string> := [
    "goToLink\\(\\d+,\\s*'(https?://[^']+)'",
    "goToLink\\(\\d+,\\s*\"(https?://[^\"]+)\"",
    "window\\.location(?:\\.href)?\\s*=\\s*[\\\"'](https?://[^\\\"']+)",
    "<meta[^>]*url=(https?://[^\"\\'>\\s]+)",
    "data-url=[\"\\']?(https?://[^\"\\'>\\s]+)"]

  /** `DEFAULT_PATTERNS` as the JSON list a configuration would give. */
  const DefaultPatternList: Value := Arr([Str(DefaultPatterns[0]), Str(DefaultPatterns[1]), Str(DefaultPatterns[2]),
                                         Str(DefaultPatterns[3]), Str(DefaultPatterns[4])])

  const DefaultOutput := "output.md"
  const DefaultTitle := "链接汇总"

  /** The loaded configuration; values are as the JSON gave them. */
  datatype Config = Config(links: seq<(Value, Value)>, patterns: Value, output: Value, title: Value, description: Value)

  /** Why loading a configuration raises. */
  datatype ConfigError =
    | NotSubscriptable(typeName: string)   // `config["links"]` on a non-dict
    | MissingKey(key: string)               // KeyError
    | LinksNotIterable(typeName: string)    // `for item in` a scalar
    | ItemNotSubscriptable(typeName: string) // `item["name"]` on a non-dict

  /** `(item["name"], item["url"])` read from `item`. */
  predicate PairOf(item: Value, pair: (Value, Value)) {
    item.Obj? && Field(item.members, "name") == Some(pair.0) && Field(item.members, "url") == Some(pair.1)
  }

  /** `(item["name"], item["url"])` for one item. */
  function ItemPair(item: Value): (r: Result<(Value, Value), ConfigError>)
    ensures r.Ok? <==> item.Obj? && Field(item.members, "name").Some? && Field(item.members, "url").Some?
    ensures r.Ok? ==> PairOf(item, r.value)
  {
    if !item.Obj? then Err(ItemNotSubscriptable(TypeName(item)))
    else match Field(item.members, "name")
      case None => Err(MissingKey("name"))
      case Some(name) =>
        match Field(item.members, "url")
        case None => Err(MissingKey("url"))
        case Some(url) => Ok((name, url))
  }

  /** The pairs of all items, stopping at the first that raises. */
  function Items(items: seq<Value>): (r: Result<seq<(Value, Value)>, ConfigError>)
    ensures r.Ok? ==> |r.value| == |items|
    ensures r.Ok? ==> forall i :: 0 <= i < |items| ==> PairOf(items[i], r.value[i])
  {
    if items == [] then Ok([])
    else match ItemPair(items[0])
      case Err(e) => Err(e)
      case Ok(pair) =>
        match Items(items[1..])
        case Err(e) => Err(e)
        case Ok(rest) =>
          ConsPairs(items, pair, rest);
          Ok([pair] + rest)
  }

  /** Pairing the head and pairing the tail pairs the whole list. */
  lemma ConsPairs(items: seq<Value>, pair: (Value, Value), rest: seq<(Value, Value)>)
    requires items != [] && |rest| == |items| - 1
    requires PairOf(items[0], pair)
    requires forall i :: 0 <= i < |rest| ==> PairOf(items[1..][i], rest[i])
    ensures forall i :: 0 <= i < |items| ==> PairOf(items[i], ([pair] + rest)[i])
  {
    forall i | 1 <= i < |items|
      ensures PairOf(items[i], ([pair] + rest)[i])
    {
      assert items[1..][i - 1] == items[i];
    }
  }

  /** `load_from_config` on the decoded file; `delay` is left out. */
  function LoadFromConfig(config: Value): (r: Result<Config, ConfigError>)
    ensures !config.Obj? ==> r == Err(NotSubscriptable(TypeName(config)))
    ensures config.Obj? && Field(config.members, "links").None? ==> r == Err(MissingKey("links"))
  {
    if !config.Obj? then Err(NotSubscriptable(TypeName(config)))
    else match Field(config.members, "links")
      case None => Err(MissingKey("links"))
      case Some(links) =>
        match Iterate(links)
        case Err(_) => Err(LinksNotIterable(TypeName(links)))
        case Ok(items) =>
          match Items(items)
          case Err(e) => Err(e)
          case Ok(pairs) =>
            var m := config.members;
            Ok(Config(pairs,
                      GetOr(m, "extract_patterns", DefaultPatternList),
                      GetOr(m, "output", Str(DefaultOutput)),
                      GetOr(m, "title", Str(DefaultTitle)),
                      GetOr(m, "description", Str(""))))
  }

  /** Every setting the file leaves out takes its default; the ones it gives are taken as given. */
  lemma ConfigDefaults(config: Value)
    requires LoadFromConfig(config).Ok?
    ensures var c := LoadFromConfig(config).value;
            var m := config.members;
            && (Field(m, "extract_patterns").None? ==> c.patterns == DefaultPatternList)
            && (Field(m, "extract_patterns").Some? ==> c.patterns == Field(m, "extract_patterns").value)
            && (Field(m, "output").None? ==> c.output == Str("output.md"))
            && (Field(m, "title").None? ==> c.title == Str("链接汇总"))
            && (Field(m, "description").None? ==> c.description == Str(""))
            && (Field(m, "output").Some? ==> c.output == Field(m, "output").value)
            && (Field(m, "title").Some? ==> c.title == Field(m, "title").value)
            && (Field(m, "description").Some? ==> c.description == Field(m, "description").value)
  {
  }

  /** A list of well-formed items loads as their pairs, in order. */
  lemma ConfigLinks(config: Value, items: seq<Value>)
    requires config.Obj? && Field(config.members, "links") == Some(Arr(items))
    requires forall i :: 0 <= i < |items| ==>
               items[i].Obj? && Field(items[i].members, "name").Some? && Field(items[i].members, "url").Some?
    ensures LoadFromConfig(config).Ok?
    ensures forall i :: 0 <= i < |items| ==>
              LoadFromConfig(config).value.links[i]
              == (Field(items[i].members, "name").value, Field(items[i].members, "url").value)
  {
    ItemsAllPresent(items);
  }

  lemma {:induction false} ItemsAllPresent(items: seq<Value>)
    requires forall i :: 0 <= i < |items| ==>
               items[i].Obj? && Field(items[i].members, "name").Some? && Field(items[i].members, "url").Some?
    ensures Items(items).Ok?
  {
    if items != [] {
      assert forall i :: 0 <= i < |items[1..]| ==> items[1..][i] == items[i + 1];
      ItemsAllPresent(items[1..]);
    }
  }

  // ---- write_markdown ----

  const TableHead := "| 序号 | 名称 | 链接 |\n|------|------|------|\n"

  lemma TableHeadOpens()
    ensures |TableHead| > 2 && TableHead[0] == '|' && TableHead[|TableHead| - 1] == '\n'
  {
  }

  function TitleBlock(title: string): string {
    "# " + title + "\n\n"
  }

  function DescriptionBlock(description: string): string {
    if description != "" then "> " + description + "\n\n" else ""
  }

  /** Row `i` of the table. */
  function Row(i: int, link: Link): string {
    "| " + IntToString(i) + " | " + link.0 + " | " + link.1 + " |\n"
  }

  /** The rows of `results`, numbered from `first`. */
  function Rows(results: seq<Link>, first: int): string {
    if results == [] then ""
    else Row(first, results[0]) + Rows(results[1..], first + 1)
  }

  /** The file `write_markdown` writes. */
  function Markdown(results: seq<Link>, title: string, description: string): string {
    TitleBlock(title) + DescriptionBlock(description) + TableHead + Rows(results, 1)
  }

  /** Numbering continues across a split: the rows of `a + b` are those of `a`, then those of `b`. */
  lemma {:induction false} RowsAppend(a: seq<Link>, b: seq<Link>, first: int)
    ensures Rows(a + b, first) == Rows(a, first) + Rows(b, first + |a|)
  {
    if a == [] {
      assert a + b == b;
    } else {
      assert (a + b)[0] == a[0] && (a + b)[1..] == a[1..] + b;
      RowsAppend(a[1..], b, first + 1);
    }
  }

  lemma {:induction false} RowsSnoc(results: seq<Link>, i: nat)
    requires i < |results|
    ensures Rows(results[..i + 1], 1) == Rows(results[..i], 1) + Row(i + 1, results[i])
  {
    var a, b := results[..i], [results[i]];
    assert results[..i + 1] == a + b;
    RowsAppend(a, b, 1);
    assert b[1..] == [];
    assert Rows(b, i + 1) == Row(i + 1, results[i]) + "";
  }

  /** Row `k` (from 0) is the `k`-th result, numbered `k + 1`. */
  lemma {:induction false} RowsNumbered(results: seq<Link>, k: nat)
    requires k < |results|
    ensures Rows(results, 1) == Rows(results[..k], 1) + Row(k + 1, results[k]) + Rows(results[k + 1..], k + 2)
  {
    RowsAppend(results[..k], results[k..], 1);
    assert results[..k] + results[k..] == results;
    assert results[k..][0] == results[k] && results[k..][1..] == results[k + 1..];
  }

  /** The file opens with the title; a `> description` block follows exactly when there is a description. */
  lemma MarkdownOpening(results: seq<Link>, title: string, description: string)
    ensures var text := Markdown(results, title, description);
            var rest := text[|TitleBlock(title)|..];
            && StartsWith(text, "# " + title + "\n\n")
            && (description != "" <==> StartsWith(rest, "> "))
            && (description != "" ==> StartsWith(rest, "> " + description + "\n\n"))
            && (description == "" ==> StartsWith(rest, TableHead))
  {
    var text := Markdown(results, title, description);
    var title_ := TitleBlock(title);
    var desc := DescriptionBlock(description);
    var table := TableHead + Rows(results, 1);
    var rest := desc + table;
    Regroup(title_, desc, TableHead, Rows(results, 1));
    SplitAt(title_, rest);
    if description == "" {
      EmptyPrefix(desc, table);
      SplitAt(TableHead, Rows(results, 1));
      TableHeadOpens();
    } else {
      assert desc == "> " + description + "\n\n";
      SplitAt(desc, table);
      assert desc[..2] == "> ";
    }
  }

  /** `write_markdown`, returning the text it writes. */
  method WriteMarkdown(results: seq<Link>, title: string, description: string) returns (text: string)
    ensures text == Markdown(results, title, description)
  {
    var head := TitleBlock(title) + DescriptionBlock(description) + TableHead;
    text := head;
    var i := 0;
    assert results[..0] == [];
    while i < |results|
      invariant 0 <= i <= |results|
      invariant text == head + Rows(results[..i], 1)
    {
      RowsSnoc(results, i);
      ghost var done := Rows(results[..i], 1);
      var row := Row(i + 1, results[i]);
      Assoc(head, done, row);
      text := text + row;
      i := i + 1;
    }
    assert results[..i] == results;
  }

  // ---- the common domain of the jump pages ----

  predicate SchemeChar(c: char) {
    'a' <= c <= 'z' || 'A' <= c <= 'Z' || '0' <= c <= '9' || c == '+' || c == '-' || c == '.'
  }

  /** What follows the scheme: the text after the first `:` when it is preceded by a scheme. */
  function AfterScheme(url: string): (r: string)
    ensures |r| <= |url|
  {
    match Find(url, ':')
    case Some(i) =>
      if i > 0 && ('a' <= url[0] <= 'z' || 'A' <= url[0] <= 'Z') && forall j :: 0 <= j < i ==> SchemeChar(url[j])
      then url[i + 1..] else url
    case None => url
  }

  /** What follows the scheme is a suffix of the URL; when a scheme was cut, it ended at the first `:`. */
  lemma AfterSchemeSuffix(url: string)
    ensures var r := AfterScheme(url);
            url[|url| - |r|..] == r && (r != url ==> Find(url, ':') == Some(|url| - |r| - 1))
  {
  }

  /** The end of the network location: the first `/`, `?` or `#` from `start`. */
  function NetlocEnd(s: string, start: nat): (r: nat)
    requires start <= |s|
    ensures start <= r <= |s|
    ensures forall j :: start <= j < r ==> s[j] != '/' && s[j] != '?' && s[j] != '#'
    ensures r < |s| ==> s[r] == '/' || s[r] == '?' || s[r] == '#'
    decreases |s| - start
  {
    if start == |s| || s[start] == '/' || s[start] == '?' || s[start] == '#' then start
    else NetlocEnd(s, start + 1)
  }

  /** `urlparse(url).netloc`: what sits between `//` and the path, query or fragment. */
  function Netloc(url: string): (r: string)
    ensures '/' !in r && '?' !in r && '#' !in r
  {
    var rest := AfterScheme(url);
    if StartsWith(rest, "//") then rest[2..NetlocEnd(rest, 2)] else ""
  }

  /** The distinct non-empty network locations of the links. */
  function Domains(links: seq<Link>): set<string> {
    if links == [] then {}
    else
      var netloc := Netloc(links[|links| - 1].1);
      Domains(links[..|links| - 1]) + (if netloc != "" then {netloc} else {})
  }

  /** Every domain collected comes from a link. */
  lemma {:induction false} DomainSource(links: seq<Link>, d: string) returns (i: nat)
    requires d in Domains(links)
    ensures i < |links| && Netloc(links[i].1) == d && d != ""
  {
    var init := links[..|links| - 1];
    var last := Netloc(links[|links| - 1].1);
    if d in Domains(init) {
      i := DomainSource(init, d);
      assert init[i] == links[i];
    } else {
      assert d == last && last != "";
      i := |links| - 1;
    }
  }

  /** Every link's non-empty domain is collected. */
  lemma {:induction false} DomainCollected(links: seq<Link>, i: nat)
    requires i < |links| && Netloc(links[i].1) != ""
    ensures Netloc(links[i].1) in Domains(links)
  {
    var init := links[..|links| - 1];
    if i < |init| {
      assert init[i] == links[i];
      DomainCollected(init, i);
    }
  }

  /** `base_domain`: the one domain when all links with a domain share it, else none. */
  method InferBaseDomain(links: seq<Link>) returns (base: Option<string>)
    ensures base.Some? <==> |Domains(links)| == 1
    ensures base.Some? ==> Domains(links) == {base.value}
  {
    var domains: set<string> := {};
    var i := 0;
    while i < |links|
      invariant 0 <= i <= |links|
      invariant domains == Domains(links[..i])
    {
      var netloc := Netloc(links[i].1);
      assert links[..i + 1][..i] == links[..i];
      assert links[..i + 1][i] == links[i];
      if netloc != "" {
        domains := domains + {netloc};
      }
      i := i + 1;
    }
    assert links[..i] == links;
    if |domains| == 1 {
      var d :| d in domains;
      SingletonSet(domains, d);
      base := Some(d);
    } else {
      base := None;
    }
  }

  lemma SingletonSet(s: set<string>, d: string)
    requires |s| == 1 && d in s
    ensures s == {d}
  {
    var rest := s - {d};
    assert s == rest + {d} && d !in rest;
    assert |rest| == 0;
    assert rest == {};
  }

  /** The base domain is set exactly when one domain occurs, and then every link with a domain has it. */
  lemma BaseDomainMeaning(links: seq<Link>, d: string)
    requires Domains(links) == {d}
    ensures d != ""
    ensures forall i :: 0 <= i < |links| && Netloc(links[i].1) != "" ==> Netloc(links[i].1) == d
    ensures exists i :: 0 <= i < |links| && Netloc(links[i].1) == d
  {
    var k := DomainSource(links, d);
    forall i | 0 <= i < |links| && Netloc(links[i].1) != ""
      ensures Netloc(links[i].1) == d
    {
      DomainCollected(links, i);
    }
  }

  /** Two links on different hosts leave the base domain unset. */
  lemma TwoDomainsNoBase(links: seq<Link>, i: nat, j: nat)
    requires i < |links| && j < |links|
    requires Netloc(links[i].1) != "" && Netloc(links[j].1) != ""
    requires Netloc(links[i].1) != Netloc(links[j].1)
    ensures |Domains(links)| != 1
  {
    var a, b := Netloc(links[i].1), Netloc(links[j].1);
    DomainCollected(links, i);
    DomainCollected(links, j);
    assert {a, b} <= Domains(links);
    var rest := Domains(links) - {a};
    assert b in rest;
    assert Domains(links) == rest + {a} && a !in rest;
  }
}

/**
 What the API shows of a configuration: loops that overwrite the parts of a URL in place,
 fresh copies of the connector blocks, and what the outcome still depends on.
 */
module Redact {
  import opened Wrappers
  import opened Text

  const REDACTED := "[REDACTED]"

  // ---- text

  function Segment(s: string): string {
    if s == "" then s else REDACTED
  }

  function PathOf(path: string): string {
    Join(Map(Segment, Split(path, '/')), '/')
  }

  method RedactPathSegments(path: string) returns (redacted: string)
    ensures redacted == PathOf(path)
  {
    if path == "" || path == "/" {
      JoinSplit(path, '/');
      EmptySegments(path);
      return path;
    }
    var parts := Split(path, '/');
    var segments := new string[|parts|](i requires 0 <= i < |parts| => parts[i]);
    for i := 0 to segments.Length
      invariant forall j :: 0 <= j < i ==> segments[j] == Segment(parts[j])
      invariant forall j :: i <= j < |parts| ==> segments[j] == parts[j]
    {
      if segments[i] != "" {
        segments[i] := REDACTED;
      }
    }
    assert segments[..] == Map(Segment, parts);
    return Join(segments[..], '/');
  }

  /** The two paths that are returned as they are have no segment to withhold. */
  lemma EmptySegments(path: string)
    requires path == "" || path == "/"
    ensures Map(Segment, Split(path, '/')) == Split(path, '/')
  {
    if path == "/" {
      assert Split(path, '/') == [path[..0]] + Split(path[1..], '/');
    }
  }

  /** A query parameter as strings.Cut sees it. */
  datatype Param = Empty | Bare | Keyed(key: string)

  function Cut(p: string): Param {
    var i := IndexOfChar(p, '=');
    if i < |p| then Keyed(p[..i]) else if p == "" then Empty else Bare
  }

  function Shown(p: Param): string {
    match p
    case Empty => ""
    case Bare => REDACTED
    case Keyed(key) => key + "=" + REDACTED
  }

  function Parameter(p: string): string {
    Shown(Cut(p))
  }

  function QueryOf(query: string): string {
    Join(Map(Parameter, Split(query, '&')), '&')
  }

  /** The body of the loop: what stands before the first "=" is kept, and nothing else. */
  method RedactParameter(param: string) returns (redacted: string)
    ensures redacted == Parameter(param)
  {
    var cut := Cut(param);
    if !cut.Keyed? {
      return if param != "" then REDACTED else param;
    }
    return cut.key + "=" + REDACTED;
  }

  method RedactQueryValues(rawQuery: string) returns (redacted: string)
    ensures redacted == QueryOf(rawQuery)
  {
    if rawQuery == "" {
      NothingToShow();
      return "";
    }
    var parts := Split(rawQuery, '&');
    ghost var shown := Map(Parameter, parts);
    var params := new string[|parts|](i requires 0 <= i < |parts| => parts[i]);
    for i := 0 to params.Length
      invariant forall j :: 0 <= j < i ==> params[j] == shown[j]
      invariant forall j :: i <= j < |parts| ==> params[j] == parts[j]
    {
      params[i] := RedactParameter(params[i]);
    }
    assert params[..] == shown;
    return Join(params[..], '&');
  }

  lemma NothingToShow()
    ensures QueryOf("") == ""
  {
    SplitOne("", '&');
    assert Map(Parameter, [""]) == [Parameter("")] == [""];
  }

  /** What rewriting part by part yields has the parts it was made of. */
  lemma PartsOf(f: string -> string, s: string, sep: char)
    requires forall p: string :: sep !in p ==> sep !in f(p)
    ensures Split(Join(Map(f, Split(s, sep)), sep), sep) == Map(f, Split(s, sep))
  {
    SplitWithout(s, sep);
    SplitJoin(Map(f, Split(s, sep)), sep);
  }

  lemma SegmentIsClean()
    ensures forall p: string :: '/' !in p ==> '/' !in Segment(p)
  {
  }

  lemma ParameterIsClean(p: string)
    requires '&' !in p
    ensures '&' !in Parameter(p)
  {
    var i := IndexOfChar(p, '=');
    assert forall c :: c in p[..i] ==> c in p;
  }

  predicate IsEmpty(s: string) {
    s == ""
  }

  /** What a redacted path still tells: how many segments there are, and which are empty. */
  function PathShape(path: string): seq<bool> {
    Map(IsEmpty, Split(path, '/'))
  }

  /** Redacting keeps the shape of a path, and changes nothing the second time. */
  lemma PathKeepsShape(path: string)
    ensures PathShape(PathOf(path)) == PathShape(path)
    ensures PathOf(PathOf(path)) == PathOf(path)
  {
    SegmentIsClean();
    PartsOf(Segment, path, '/');
    SegmentsTwice(Split(path, '/'));
  }

  lemma SegmentsTwice(parts: seq<string>)
    ensures Map(IsEmpty, Map(Segment, parts)) == Map(IsEmpty, parts)
    ensures Map(Segment, Map(Segment, parts)) == Map(Segment, parts)
  {
  }

  /** Two paths look alike after redaction if and only if they have one shape. */
  lemma PathTellsShape(a: string, b: string)
    ensures PathOf(a) == PathOf(b) <==> PathShape(a) == PathShape(b)
  {
    PathKeepsShape(a);
    PathKeepsShape(b);
    var show := (empty: bool) => if empty then "" else REDACTED;
    assert forall path: string :: Map(Segment, Split(path, '/')) == Map(show, PathShape(path));
  }

  /** What a redacted query still tells: each parameter in order, by key, or that it is bare
      or empty. */
  function QueryShape(query: string): seq<Param> {
    Map(Cut, Split(query, '&'))
  }

  lemma CutShown(p: Param)
    requires p.Keyed? ==> '=' !in p.key
    ensures Cut(Shown(p)) == p
  {
    match p
    case Empty =>
    case Bare =>
      CutBare(REDACTED);
    case Keyed(key) =>
      CutKeyed(key, REDACTED);
  }

  lemma CutBare(p: string)
    requires p != "" && '=' !in p
    ensures Cut(p) == Bare
  {
    assert IndexOfChar(p, '=') == |p|;
  }

  lemma CutKeyed(key: string, value: string)
    requires '=' !in key
    ensures Cut(key + "=" + value) == Keyed(key)
  {
    IndexAfterHead(key, '=', value);
    assert key + ['='] + value == key + "=" + value;
    assert (key + "=" + value)[..|key|] == key;
  }

  lemma CutParameter(s: string)
    ensures Cut(Parameter(s)) == Cut(s)
  {
    CutShown(Cut(s));
  }

  /** Two queries look alike after redaction if and only if they have one shape. */
  lemma QueryTellsShape(a: string, b: string)
    ensures QueryOf(a) == QueryOf(b) <==> QueryShape(a) == QueryShape(b)
  {
    QueryKeepsShape(a);
    QueryKeepsShape(b);
    assert forall q: string :: Map(Parameter, Split(q, '&')) == Map(Shown, QueryShape(q));
  }

  /** Redacting keeps the shape of a query, and changes nothing the second time. */
  lemma QueryKeepsShape(query: string)
    ensures QueryShape(QueryOf(query)) == QueryShape(query)
    ensures QueryOf(QueryOf(query)) == QueryOf(query)
  {
    forall p: string | '&' !in p ensures '&' !in Parameter(p) {
      ParameterIsClean(p);
    }
    PartsOf(Parameter, query, '&');
    var parts := Split(query, '&');
    forall i | 0 <= i < |parts| ensures Cut(Parameter(parts[i])) == Cut(parts[i]) {
      CutParameter(parts[i]);
    }
    assert QueryShape(QueryOf(query)) == QueryShape(query);
    assert Map(Parameter, Split(QueryOf(query), '&')) == Map(Parameter, parts);
  }

  /** A parsed URL: what is kept of it as one text, and the parts that are rewritten. */
  datatype Url = Url(endpoint: string, user: string, path: string, rawPath: string, rawQuery: string, fragment: string)

  function Withheld(u: Url): Url {
    u.(user := "", path := PathOf(u.path), rawPath := PathOf(u.path), rawQuery := QueryOf(u.rawQuery), fragment := "")
  }

  function UrlOf(parse: string -> Option<Url>, print_: Url -> string, raw: string): string {
    if raw == "" then raw
    else if parse(raw).None? then REDACTED
    else print_(Withheld(parse(raw).value))
  }

  method RedactURL(parse: string -> Option<Url>, print_: Url -> string, raw: string) returns (redacted: string)
    ensures redacted == UrlOf(parse, print_, raw)
  {
    if raw == "" {
      return raw;
    }
    var parsed := parse(raw);
    if parsed.None? {
      return REDACTED;
    }
    var u := parsed.value.(user := "");
    var redactedPath := RedactPathSegments(u.path);
    u := u.(path := redactedPath, rawPath := redactedPath);
    var redactedQuery := RedactQueryValues(u.rawQuery);
    u := u.(rawQuery := redactedQuery, fragment := "");
    return print_(u);
  }

  /** Of a URL, only the endpoint and the shapes of its path and query are left. */
  lemma UrlTellsShape(a: Url, b: Url)
    ensures Withheld(a) == Withheld(b) <==> SameShown(a, b)
  {
    PathTellsShape(a.path, b.path);
    QueryTellsShape(a.rawQuery, b.rawQuery);
  }

  /** Whether two texts that are URLs have the same endpoint and shapes. */
  predicate SameShown(a: Url, b: Url) {
    && a.endpoint == b.endpoint
    && PathShape(a.path) == PathShape(b.path) && QueryShape(a.rawQuery) == QueryShape(b.rawQuery)
  }

  /** Nothing else of a URL is shown: a text that cannot be taken apart shows only that it is
      there, and two that can are shown alike exactly if they have one endpoint and one shape,
      given that different URLs are printed differently. */
  lemma ShownUrlTellsShape(parse: string -> Option<Url>, print_: Url -> string, a: string, b: string)
    requires forall u, v :: print_(u) == print_(v) ==> u == v
    requires a != "" && b != ""
    ensures UrlOf(parse, print_, "") == ""
    ensures parse(a).None? ==> UrlOf(parse, print_, a) == "[REDACTED]"
    ensures parse(a).Some? && parse(b).Some? ==>
      (UrlOf(parse, print_, a) == UrlOf(parse, print_, b) <==> SameShown(parse(a).value, parse(b).value))
  {
    if parse(a).Some? && parse(b).Some? {
      UrlTellsShape(parse(a).value, parse(b).value);
    }
  }

  /** What is shown of a URL is a URL of that endpoint and those shapes again, with nobody's
      name in it; and showing that is showing the first. */
  lemma ShownUrl(parse: string -> Option<Url>, print_: Url -> string, raw: string) returns (shown: Url)
    requires raw != "" && parse(raw).Some?
    ensures UrlOf(parse, print_, raw) == print_(shown) && SameShown(shown, parse(raw).value)
    ensures shown.user == "" && shown.fragment == "" && shown.rawPath == shown.path && Withheld(shown) == shown
  {
    var u := parse(raw).value;
    PathKeepsShape(u.path);
    QueryKeepsShape(u.rawQuery);
    shown := Withheld(u);
  }

  /** Where a path has a segment, the marker stands, and where it has none, nothing. */
  lemma PathShows(path: string, i: nat)
    requires i < |Split(path, '/')|
    ensures |Split(PathOf(path), '/')| == |Split(path, '/')|
    ensures Split(PathOf(path), '/')[i] == if Split(path, '/')[i] == "" then "" else "[REDACTED]"
  {
    SegmentIsClean();
    PartsOf(Segment, path, '/');
  }

  /** Of a query parameter the key stays, and the marker stands for the value; a bare one is
      the marker. */
  lemma QueryShows(query: string, i: nat)
    requires i < |Split(query, '&')|
    ensures |Split(QueryOf(query), '&')| == |Split(query, '&')|
    ensures var param, shown := Split(query, '&')[i], Split(QueryOf(query), '&')[i];
      && (param == "" ==> shown == "")
      && (param != "" && '=' !in param ==> shown == "[REDACTED]")
      && (forall key, value :: param == key + "=" + value && '=' !in key ==> shown == key + "=" + "[REDACTED]")
  {
    forall p: string | '&' !in p ensures '&' !in Parameter(p) {
      ParameterIsClean(p);
    }
    PartsOf(Parameter, query, '&');
    var param := Split(query, '&')[i];
    if param != "" && '=' !in param {
      CutBare(param);
    }
    forall key, value | param == key + "=" + value && '=' !in key
      ensures Parameter(param) == key + "=" + REDACTED
    {
      CutKeyed(key, value);
    }
  }
}

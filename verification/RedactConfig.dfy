/**
 The configuration the API hands back: the manager's own blocks are left as they are, and
 every block that could hold a credential is a fresh copy.
 */
module RedactConfig {
  import opened Wrappers
  import opened Redact

  /** A map held by reference. */
  class HeaderMap {
    var entries: map<string, string>

    constructor ()
      ensures entries == map[]
    {
      entries := map[];
    }
  }

  class WebhookBlock {
    var port: string
    var path: string
    var authToken: string

    constructor (port: string, path: string, authToken: string)
      ensures this.port == port && this.path == path && this.authToken == authToken
    {
      this.port, this.path, this.authToken := port, path, authToken;
    }
  }

  class SseBlock {
    var headers: HeaderMap?

    constructor (headers: HeaderMap?)
      ensures this.headers == headers
    {
      this.headers := headers;
    }
  }

  class PollerBlock {
    var interval: string
    var verb: string
    var headers: HeaderMap?

    constructor (interval: string, verb: string, headers: HeaderMap?)
      ensures this.interval == interval && this.verb == verb && this.headers == headers
    {
      this.interval, this.verb, this.headers := interval, verb, headers;
    }
  }

  class WebsocketBlock {
    var onConnectSend: array?<string>

    constructor (onConnectSend: array?<string>)
      ensures this.onConnectSend == onConnectSend
    {
      this.onConnectSend := onConnectSend;
    }
  }

  /** A configuration by value, its blocks by reference. */
  datatype ServedConfig = ServedConfig(
    id: string,
    kind: string,
    url: string,
    topic: string,
    restPoller: PollerBlock?,
    webhook: WebhookBlock?,
    sse: SseBlock?,
    websocket: WebsocketBlock?,
    others: seq<object?>)  // the blocks that are handed out as they are

  // ---- what a configuration says, as a value

  datatype Webhook = Webhook(port: string, path: string, authToken: string)

  datatype RestPoller = RestPoller(interval: string, verb: string, headers: Option<map<string, string>>)

  datatype Description = Description(
    restPoller: Option<RestPoller>,
    webhook: Option<Webhook>,
    sse: Option<Option<map<string, string>>>,
    websocket: Option<Option<seq<string>>>)

  ghost function HeadersOf(h: HeaderMap?): Option<map<string, string>>
    reads h
  {
    if h == null then None else Some(h.entries)
  }

  ghost function WebhookOf(w: WebhookBlock?): Option<Webhook>
    reads w
  {
    if w == null then None else Some(Webhook(w.port, w.path, w.authToken))
  }

  ghost function SseOf(s: SseBlock?): Option<Option<map<string, string>>>
    reads s, if s == null then {} else {s.headers}
  {
    if s == null then None else Some(HeadersOf(s.headers))
  }

  ghost function PollerOf(p: PollerBlock?): Option<RestPoller>
    reads p, if p == null then {} else {p.headers}
  {
    if p == null then None else Some(RestPoller(p.interval, p.verb, HeadersOf(p.headers)))
  }

  ghost function FramesOf(a: array?<string>): Option<seq<string>>
    reads a
  {
    if a == null then None else Some(a[..])
  }

  ghost function WebsocketOf(w: WebsocketBlock?): Option<Option<seq<string>>>
    reads w, if w == null then {} else {w.onConnectSend}
  {
    if w == null then None else Some(FramesOf(w.onConnectSend))
  }

  ghost function Describe(cfg: ServedConfig): Description
    reads cfg.webhook
    reads cfg.sse, if cfg.sse == null then {} else {cfg.sse.headers}
    reads cfg.restPoller, if cfg.restPoller == null then {} else {cfg.restPoller.headers}
    reads cfg.websocket, if cfg.websocket == null then {} else {cfg.websocket.onConnectSend}
  {
    Description(PollerOf(cfg.restPoller), WebhookOf(cfg.webhook), SseOf(cfg.sse), WebsocketOf(cfg.websocket))
  }

  // ---- the same with the values withheld

  function NamesOnly(headers: Option<map<string, string>>): Option<map<string, string>> {
    if headers.None? then None else Some(NoValues(headers.value))
  }

  function NoValues(m: map<string, string>): (r: map<string, string>)
    ensures r.Keys == m.Keys
  {
    map name | name in m :: REDACTED
  }

  function CountOnly(frames: Option<seq<string>>): Option<seq<string>> {
    if frames.None? then None else Some(seq(|frames.value|, i => REDACTED))
  }

  function Withhold(d: Description): Description {
    Description(
      if d.restPoller.None? then None
      else Some(d.restPoller.value.(headers := NamesOnly(d.restPoller.value.headers))),
      if d.webhook.None? then None
      else Some(d.webhook.value.(authToken := Segment(d.webhook.value.authToken))),
      if d.sse.None? then None else Some(NamesOnly(d.sse.value)),
      if d.websocket.None? then None else Some(CountOnly(d.websocket.value)))
  }

  /** Withholding twice is withholding once. */
  lemma WithholdTwice(d: Description)
    ensures Withhold(Withhold(d)) == Withhold(d)
  {
    assert forall m :: NoValues(NoValues(m)) == NoValues(m);
    if d.restPoller.Some? {
      assert NamesOnly(NamesOnly(d.restPoller.value.headers)) == NamesOnly(d.restPoller.value.headers);
    }
    if d.sse.Some? {
      assert NamesOnly(NamesOnly(d.sse.value)) == NamesOnly(d.sse.value);
    }
    if d.websocket.Some? {
      assert CountOnly(CountOnly(d.websocket.value)) == CountOnly(d.websocket.value);
    }
  }

  predicate SameNames(a: Option<map<string, string>>, b: Option<map<string, string>>) {
    a.Some? == b.Some? && (a.Some? && b.Some? ==> a.value.Keys == b.value.Keys)
  }

  predicate SameCount(a: Option<seq<string>>, b: Option<seq<string>>) {
    a.Some? == b.Some? && (a.Some? && b.Some? ==> |a.value| == |b.value|)
  }

  /** What two configurations share when nothing tells them apart but withheld values. */
  predicate SameStructure(a: Description, b: Description) {
    && a.restPoller.Some? == b.restPoller.Some?
    && (a.restPoller.Some? && b.restPoller.Some? ==>
          var p, q := a.restPoller.value, b.restPoller.value;
          p.interval == q.interval && p.verb == q.verb && SameNames(p.headers, q.headers))
    && a.webhook.Some? == b.webhook.Some?
    && (a.webhook.Some? && b.webhook.Some? ==>
          var v, w := a.webhook.value, b.webhook.value;
          v.port == w.port && v.path == w.path && (v.authToken == "" <==> w.authToken == ""))
    && a.sse.Some? == b.sse.Some? && (a.sse.Some? && b.sse.Some? ==> SameNames(a.sse.value, b.sse.value))
    && a.websocket.Some? == b.websocket.Some?
    && (a.websocket.Some? && b.websocket.Some? ==> SameCount(a.websocket.value, b.websocket.value))
  }

  lemma NamesOnlyTells(a: Option<map<string, string>>, b: Option<map<string, string>>)
    ensures NamesOnly(a) == NamesOnly(b) <==> SameNames(a, b)
  {
    if a.Some? && b.Some? {
      assert NamesOnly(a).value.Keys == a.value.Keys && NamesOnly(b).value.Keys == b.value.Keys;
    }
  }

  lemma CountOnlyTells(a: Option<seq<string>>, b: Option<seq<string>>)
    ensures CountOnly(a) == CountOnly(b) <==> SameCount(a, b)
  {
    if a.Some? && b.Some? {
      assert |CountOnly(a).value| == |a.value| && |CountOnly(b).value| == |b.value|;
    }
  }

  /** What is shown of two configurations is the same if and only if they have one
      structure: no withheld value shows. */
  lemma ShownTellsStructure(a: Description, b: Description)
    ensures Withhold(a) == Withhold(b) <==> SameStructure(a, b)
  {
    if a.restPoller.Some? && b.restPoller.Some? {
      NamesOnlyTells(a.restPoller.value.headers, b.restPoller.value.headers);
    }
    if a.sse.Some? && b.sse.Some? {
      NamesOnlyTells(a.sse.value, b.sse.value);
    }
    if a.websocket.Some? && b.websocket.Some? {
      CountOnlyTells(a.websocket.value, b.websocket.value);
    }
  }

  // ---- the methods

  predicate EmptyHeaders(headers: HeaderMap?)
    reads headers
  {
    headers == null || headers.entries == map[]
  }

  predicate EmptyFrames(frames: array?<string>) {
    frames == null || frames.Length == 0
  }

  /** An empty map is handed back as it is, any other as a fresh one. */
  method RedactHeaders(headers: HeaderMap?) returns (redacted: HeaderMap?)
    ensures HeadersOf(redacted) == NamesOnly(HeadersOf(headers))
    ensures if EmptyHeaders(headers) then redacted == headers else fresh(redacted)
  {
    if headers == null || |headers.entries| == 0 {
      assert NoValues(map[]) == map[];
      return headers;
    }
    redacted := new HeaderMap();
    var todo := headers.entries.Keys;
    while todo != {}
      invariant fresh(redacted) && todo <= headers.entries.Keys
      invariant redacted.entries == map name | name in headers.entries && name !in todo :: REDACTED
      decreases todo
    {
      var name :| name in todo;
      redacted.entries := redacted.entries[name := REDACTED];
      todo := todo - {name};
    }
    assert redacted.entries == NoValues(headers.entries);
  }

  method RedactFrames(frames: array?<string>) returns (redacted: array?<string>)
    ensures FramesOf(redacted) == CountOnly(FramesOf(frames))
    ensures if EmptyFrames(frames) then redacted == frames else fresh(redacted)
  {
    if frames == null || frames.Length == 0 {
      assert frames != null ==> FramesOf(frames).value == CountOnly(FramesOf(frames)).value;
      return frames;
    }
    var copy := new string[frames.Length](_ => "");
    for i := 0 to copy.Length
      invariant forall j :: 0 <= j < i ==> copy[j] == REDACTED
    {
      copy[i] := REDACTED;
    }
    redacted := copy;
    assert copy[..] == CountOnly(FramesOf(frames)).value;
  }

  method RedactWebhook(block: WebhookBlock?) returns (redacted: WebhookBlock?)
    ensures WebhookOf(redacted) == if block == null then None else
      Some(WebhookOf(block).value.(authToken := Segment(block.authToken)))
    ensures redacted != null ==> fresh(redacted)
  {
    if block == null {
      return null;
    }
    redacted := new WebhookBlock(block.port, block.path, block.authToken);
    if redacted.authToken != "" {
      redacted.authToken := REDACTED;
    }
  }

  method RedactSse(block: SseBlock?) returns (redacted: SseBlock?)
    ensures SseOf(redacted) == if block == null then None else Some(NamesOnly(HeadersOf(block.headers)))
    ensures redacted == null <==> block == null
    ensures block != null ==> fresh(redacted)
    ensures block != null && EmptyHeaders(block.headers) ==> redacted.headers == block.headers
    ensures block != null && !EmptyHeaders(block.headers) ==> fresh(redacted.headers)
  {
    if block == null {
      return null;
    }
    var headers := RedactHeaders(block.headers);
    redacted := new SseBlock(headers);
  }

  method RedactPoller(block: PollerBlock?) returns (redacted: PollerBlock?)
    ensures PollerOf(redacted) == if block == null then None else
      Some(RestPoller(block.interval, block.verb, NamesOnly(HeadersOf(block.headers))))
    ensures redacted == null <==> block == null
    ensures block != null ==> fresh(redacted)
    ensures block != null && EmptyHeaders(block.headers) ==> redacted.headers == block.headers
    ensures block != null && !EmptyHeaders(block.headers) ==> fresh(redacted.headers)
  {
    if block == null {
      return null;
    }
    var headers := RedactHeaders(block.headers);
    redacted := new PollerBlock(block.interval, block.verb, headers);
  }

  method RedactWebsocket(block: WebsocketBlock?) returns (redacted: WebsocketBlock?)
    ensures WebsocketOf(redacted) == if block == null then None else Some(CountOnly(FramesOf(block.onConnectSend)))
    ensures redacted == null <==> block == null
    ensures block != null ==> fresh(redacted)
    ensures block != null && EmptyFrames(block.onConnectSend) ==> redacted.onConnectSend == block.onConnectSend
    ensures block != null && !EmptyFrames(block.onConnectSend) ==> fresh(redacted.onConnectSend)
  {
    if block == null {
      return null;
    }
    var frames := RedactFrames(block.onConnectSend);
    redacted := new WebsocketBlock(frames);
  }

  /** The configuration to hand out. Nothing that existed before is written: what is shown
      is the input with its values withheld, in fresh blocks, whose header maps and frame
      arrays are fresh too unless there is nothing in them to withhold. */
  method RedactConfig(parse: string -> Option<Url>, print_: Url -> string, cfg: ServedConfig)
    returns (shown: ServedConfig)
    ensures Describe(shown) == Withhold(Describe(cfg)) && Describe(cfg) == old(Describe(cfg))
    ensures shown == cfg.(url := UrlOf(parse, print_, cfg.url), webhook := shown.webhook, sse := shown.sse,
                          restPoller := shown.restPoller, websocket := shown.websocket)
    ensures cfg.webhook != null ==> shown.webhook != null && fresh(shown.webhook)
    ensures cfg.sse != null ==> shown.sse != null && fresh(shown.sse)
    ensures cfg.sse != null && !EmptyHeaders(cfg.sse.headers) ==> fresh(shown.sse.headers)
    ensures cfg.restPoller != null ==> shown.restPoller != null && fresh(shown.restPoller)
    ensures cfg.restPoller != null && !EmptyHeaders(cfg.restPoller.headers) ==> fresh(shown.restPoller.headers)
    ensures cfg.websocket != null ==> shown.websocket != null && fresh(shown.websocket)
    ensures cfg.websocket != null && !EmptyFrames(cfg.websocket.onConnectSend) ==> fresh(shown.websocket.onConnectSend)
  {
    var url := RedactURL(parse, print_, cfg.url);
    var webhook := RedactWebhook(cfg.webhook);
    var sse := RedactSse(cfg.sse);
    var poller := RedactPoller(cfg.restPoller);
    var websocket := RedactWebsocket(cfg.websocket);
    shown := cfg.(url := url, webhook := webhook, sse := sse, restPoller := poller, websocket := websocket);
  }
}

/** Requests as the proxy holds them: printing one to a stream, and rebuilding one from the parser's callbacks. */
module HttpRequests {
  import opened Options
  import opened HttpTypes
  import opened HttpDispatch
  import opened HttpTrace
  import opened HttpText
  import opened HttpUrl
  import opened HttpLines
  import opened HttpHeaders

  datatype Header = Header(name: seq<Byte>, value: seq<Byte>)

  /** request_t. */
  datatype Message = Message(
    major: nat, minor: nat, verb: Method, host: seq<Byte>, port: nat, path: seq<Byte>, query: seq<Byte>,
    headers: seq<Header>, keepAlive: bool, body: seq<Byte>)

  const CLEARED := Message(0, 0, GET, [], 0, [], [], [], false, [])

  // ---------- printing ----------

  /** "Content-Length", "Connection" and "Keep-Alive" as they are printed. */
  const CONTENT_LENGTH: seq<Byte> := [67, 111, 110, 116, 101, 110, 116, 45, 76, 101, 110, 103, 116, 104]
  const CONNECTION: seq<Byte> := [67, 111, 110, 110, 101, 99, 116, 105, 111, 110]
  const KEEP_ALIVE: seq<Byte> := [75, 101, 101, 112, 45, 65, 108, 105, 118, 101]

  function ConnectionValue(keepAlive: bool): seq<Byte> { if keepAlive then KEEP_ALIVE else W_CLOSE }

  /** The two headers that the printer adds. */
  function Added(m: Message): seq<Header> {
    [Header(CONTENT_LENGTH, DecDigits(|m.body|)), Header(CONNECTION, ConnectionValue(m.keepAlive))]
  }

  function HeaderLines(hs: seq<Header>): seq<Byte> {
    if |hs| == 0 then [] else HeaderLines(hs[..|hs| - 1]) + HeaderText(hs[|hs| - 1].name, hs[|hs| - 1].value)
  }

  function RequestLine(m: Message): seq<Byte> {
    MethodString(m.verb) + [SP] + (UrlText(m.path, m.query) + [SP]) + VersionText(m.major, m.minor)
  }

  function Head(m: Message): seq<Byte> { RequestLine(m) + HeaderLines(m.headers + Added(m)) + ([CR] + [LF]) }

  function Printed(m: Message): seq<Byte> { Head(m) + m.body }

  /** The methods that the printer has a name for. */
  predicate HasName(m: Method) { m.DELETE? || m.GET? || m.HEAD? || m.POST? || m.PUT? }

  lemma LinesSnoc(hs: seq<Header>, h: Header)
    ensures HeaderLines(hs + [h]) == HeaderLines(hs) + HeaderText(h.name, h.value)
  {
    assert (hs + [h])[..|hs + [h]| - 1] == hs;
  }

  lemma Regroup(a: seq<Byte>, path: seq<Byte>, query: seq<Byte>, v: seq<Byte>)
    ensures (if query == [] then a + path else a + path + [63] + query) + [SP] + v == a + (UrlText(path, query) + [SP]) + v
  {
    if query == [] {
      assert UrlText(path, query) == path;
    } else {
      assert a + path + [63] + query == a + (path + ([63] + query));
    }
  }

  lemma AddedLines(m: Message, s: seq<Byte>)
    ensures s + HeaderLines(m.headers) + HeaderText(CONTENT_LENGTH, DecDigits(|m.body|))
            + HeaderText(CONNECTION, ConnectionValue(m.keepAlive))
         == s + HeaderLines(m.headers + Added(m))
  {
    hide HeaderLines, HeaderText, DecDigits, CONTENT_LENGTH, CONNECTION, ConnectionValue;
    var hs, a, b := m.headers, Added(m)[0], Added(m)[1];
    LinesSnoc(hs, a);
    LinesSnoc(hs + [a], b);
    assert hs + [a] + [b] == hs + Added(m);
    assert s + HeaderLines(hs) + HeaderText(a.name, a.value) + HeaderText(b.name, b.value)
        == s + (HeaderLines(hs) + HeaderText(a.name, a.value) + HeaderText(b.name, b.value));
  }

  /** operator<< on a request. */
  method Print(m: Message) returns (s: seq<Byte>)
    requires HasName(m.verb)
    ensures s == Printed(m)
  {
    hide DecDigits, HeaderText, VersionText, MethodString, HeaderLines, UrlText, CONTENT_LENGTH, CONNECTION,
        ConnectionValue;
    s := MethodString(m.verb) + [SP] + m.path;
    if m.query != [] {
      s := s + [63] + m.query;
    }
    s := s + [SP] + VersionText(m.major, m.minor);
    ghost var line := s;
    Regroup(MethodString(m.verb) + [SP], m.path, m.query, VersionText(m.major, m.minor));
    NoLines();
    for i := 0 to |m.headers|
      invariant s == line + HeaderLines(m.headers[..i])
    {
      LinesSnoc(m.headers[..i], m.headers[i]);
      assert m.headers[..i + 1] == m.headers[..i] + [m.headers[i]];
      s := s + HeaderText(m.headers[i].name, m.headers[i].value);
    }
    assert m.headers[..|m.headers|] == m.headers;
    s := s + HeaderText(CONTENT_LENGTH, DecDigits(|m.body|));
    if m.keepAlive {
      s := s + HeaderText(CONNECTION, ConnectionValue(true));
    } else {
      s := s + HeaderText(CONNECTION, ConnectionValue(false));
    }
    AddedLines(m, line);
    s := s + ([CR] + [LF]);
    if m.body != [] {
      s := s + m.body;
    } else {
      assert s + m.body == s;
    }
  }

  lemma NoLines()
    ensures HeaderLines([]) == []
  {}

  // ---------- rebuilding ----------

  datatype Phase = Idle | Began | InUrl | InField | InValue | InBody | Ended

  datatype Reader = Reader(phase: Phase, url: seq<Byte>, req: Message)

  const NEW_READER := Reader(Idle, [], CLEARED)

  function Cut(url: seq<Byte>, x: Span): seq<Byte>
    requires x.End() <= |url|
  {
    url[x.off..x.End()]
  }

  /** The parts of the URL that the reader keeps: whatever was recorded, even if the URL turned out wrong. */
  function WithUrl(m: Message, url: seq<Byte>): Message {
    RecordedInBounds(url, false);
    var u := Recorded(url, false);
    m.(host := if Host in u.fields then Cut(url, u.spans.host) else m.host,
    port := if Port in u.fields then u.port else 0,
    path := if Path in u.fields then Cut(url, u.spans.path) else m.path,
    query := if Query in u.fields then Cut(url, u.spans.query) else m.query)
  }

  function LastHeader(hs: seq<Header>, h: Header): seq<Header>
    requires |hs| > 0
  {
    hs[..|hs| - 1] + [h]
  }

  function HandleData(r: Reader, k: Kind, b: seq<Byte>): Reader {
    match k
    case UrlData => r.(phase := InUrl, url := if r.phase == InUrl then r.url + b else b)
    case StatusData => r
    case FieldData =>
      var hs := r.req.headers;
      if r.phase == InField && |hs| > 0 then
        var h := hs[|hs| - 1];
        r.(req := r.req.(headers := LastHeader(hs, h.(name := h.name + b))))
      else r.(phase := InField, req := r.req.(headers := hs + [Header(b, [])]))
    case ValueData =>
      var hs := r.req.headers;
      if |hs| == 0 then r.(phase := InValue)
      else
        var h := hs[|hs| - 1];
        r.(phase := InValue, req := r.req.(headers :=
          LastHeader(hs, h.(value := if r.phase == InValue then h.value + b else b))))
    case BodyData => r.(phase := InBody, req := r.req.(body := r.req.body + b))
  }

  function Complete(r: Reader, p: Parser): Reader {
    var m := r.req.(verb := p.verb, major := p.httpMajor, minor := p.httpMinor, keepAlive := ShouldKeepAlive(p));
    r.(phase := Ended, req := WithUrl(m, r.url))
  }

  /** What the callbacks do to the request being read. */
  function Handle(r: Reader, e: Event): Reader {
    match e
    case MessageBegin => Reader(Began, [], CLEARED)
    case HeadersComplete(p) => r
    case MessageComplete(p) => Complete(r, p)
    case Data(k, b) => HandleData(r, k, b)
  }

  function HandleAll(r: Reader, t: seq<Event>): Reader {
    if |t| == 0 then r else Handle(HandleAll(r, t[..|t| - 1]), t[|t| - 1])
  }

  lemma HandleSnoc(r: Reader, t: seq<Event>, e: Event)
    ensures HandleAll(r, t + [e]) == Handle(HandleAll(r, t), e)
  {
    assert (t + [e])[..|t + [e]| - 1] == t;
  }

  lemma {:induction false} HandleConcat(r: Reader, a: seq<Event>, b: seq<Event>)
    ensures HandleAll(r, a + b) == HandleAll(HandleAll(r, a), b)
  {
    hide Handle;
    if |b| == 0 {
      assert a + b == a;
    } else {
      var c := b[..|b| - 1];
      assert (a + b)[..|a + b| - 1] == a + c;
      HandleConcat(r, a, c);
    }
  }

  /** Two pieces of a name or a value are as good as one. */
  lemma HeaderTwice(r: Reader, k: Kind, x: seq<Byte>, y: seq<Byte>)
    requires k == FieldData || k == ValueData
    ensures HandleData(HandleData(r, k, x), k, y) == HandleData(r, k, x + y)
  {
    var hs := r.req.headers;
    if |hs| > 0 {
      var h := hs[|hs| - 1];
      assert h.name + x + y == h.name + (x + y) && h.value + x + y == h.value + (x + y);
    }
  }

  /** Two pieces of the same text are as good as one. */
  lemma HandleTwice(r: Reader, k: Kind, x: seq<Byte>, y: seq<Byte>)
    ensures Handle(Handle(r, Data(k, x)), Data(k, y)) == Handle(r, Data(k, x + y))
  {
    hide Complete;
    match k {
      case UrlData =>
        assert r.url + x + y == r.url + (x + y);
      case BodyData =>
        assert r.req.body + x + y == r.req.body + (x + y);
      case StatusData =>
      case _ => HeaderTwice(r, k, x, y);
    }
  }

  lemma HandleAppend(r: Reader, t: seq<Event>, e: Event)
    ensures HandleAll(r, Append(t, e)) == Handle(HandleAll(r, t), e)
  {
    hide Handle;
    if |t| > 0 && Extends(t[|t| - 1], e) {
      var u, l := t[..|t| - 1], t[|t| - 1];
      HandleTwice(HandleAll(r, u), e.kind, l.bytes, e.bytes);
      HandleSnoc(r, u, Data(e.kind, l.bytes + e.bytes));
    } else {
      HandleSnoc(r, t, e);
    }
  }

  /** The request does not depend on how its texts were cut into callbacks. */
  lemma {:induction false} HandleJoined(r: Reader, t: seq<Event>)
    ensures HandleAll(r, Join(t)) == HandleAll(r, t)
  {
    hide Handle, Append;
    if |t| > 0 {
      HandleJoined(r, t[..|t| - 1]);
      HandleAppend(r, Join(t[..|t| - 1]), t[|t| - 1]);
    }
  }

  lemma {:induction false} HandleSingles(r: Reader, k: Kind, d: seq<Byte>)
    requires d != []
    ensures HandleAll(r, Singles(k, d)) == Handle(r, Data(k, d))
  {
    hide Handle, Join;
    JoinSingles([], k, d);
    assert [] + Singles(k, d) == Singles(k, d) && [] + [Data(k, d)] == [Data(k, d)];
    HandleJoined(r, Singles(k, d));
    HandleJoined(r, [Data(k, d)]);
    assert [Data(k, d)][..0] == [];
  }

  /** The parser's callback object on the server side. */
  class RequestReader {
    var phase: Phase
    var url: seq<Byte>
    var req: Message

    function State(): Reader
      reads this
    {
      Reader(phase, url, req)
    }

    constructor ()
      ensures State() == NEW_READER
    {
      phase, url, req := Idle, [], CLEARED;
    }

    method OnMessageBegin()
      modifies this
      ensures State() == Handle(old(State()), MessageBegin)
    {
      req := CLEARED;
      url := [];
      phase := Began;
    }

    method OnUrl(b: seq<Byte>)
      modifies this
      ensures State() == Handle(old(State()), Data(UrlData, b))
    {
      if phase == InUrl {
        url := url + b;
      } else {
        url := b;
      }
      phase := InUrl;
    }

    method OnHeaderField(b: seq<Byte>)
      modifies this
      ensures State() == Handle(old(State()), Data(FieldData, b))
    {
      var hs := req.headers;
      if phase == InField && |hs| > 0 {
        var h := hs[|hs| - 1];
        req := req.(headers := LastHeader(hs, h.(name := h.name + b)));
      } else {
        req := req.(headers := hs + [Header(b, [])]);
      }
      phase := InField;
    }

    method OnHeaderValue(b: seq<Byte>)
      modifies this
      ensures State() == Handle(old(State()), Data(ValueData, b))
    {
      var hs := req.headers;
      if |hs| > 0 {
        var h := hs[|hs| - 1];
        if phase == InValue {
          req := req.(headers := LastHeader(hs, h.(value := h.value + b)));
        } else {
          req := req.(headers := LastHeader(hs, h.(value := b)));
        }
      }
      phase := InValue;
    }

    method OnBody(b: seq<Byte>)
      modifies this
      ensures State() == Handle(old(State()), Data(BodyData, b))
    {
      req := req.(body := req.body + b);
      phase := InBody;
    }

    method OnMessageComplete(p: Parser)
      modifies this
      ensures State() == Handle(old(State()), MessageComplete(p))
    {
      hide UrlOf, Recorded, NeedsEof;
      phase := Ended;
      req := req.(verb := p.verb, major := p.httpMajor, minor := p.httpMinor, keepAlive := ShouldKeepAlive(p));
      var u := new UrlRecord();
      var _ := u.Parse(url, false);
      RecordedInBounds(url, false);
      if Host in u.fields {
        req := req.(host := Cut(url, u.data.host));
      }
      if Port in u.fields {
        req := req.(port := u.port);
      } else {
        req := req.(port := 0);
      }
      if Path in u.fields {
        req := req.(path := Cut(url, u.data.path));
      }
      if Query in u.fields {
        req := req.(query := Cut(url, u.data.query));
      }
    }

    /** Makes the callbacks of a trace, in order. */
    method Deliver(calls: seq<Event>)
      modifies this
      ensures State() == HandleAll(old(State()), calls)
    {
      hide Handle;
      ghost var r := State();
      for i := 0 to |calls|
        invariant State() == HandleAll(r, calls[..i])
      {
        HandleSnoc(r, calls[..i], calls[i]);
        assert calls[..i + 1] == calls[..i] + [calls[i]];
        match calls[i] {
          case MessageBegin => OnMessageBegin();
          case HeadersComplete(p) => HandleQuiet(State(), calls[i]);
          case MessageComplete(p) => OnMessageComplete(p);
          case Data(UrlData, b) => OnUrl(b);
          case Data(FieldData, b) => OnHeaderField(b);
          case Data(ValueData, b) => OnHeaderValue(b);
          case Data(BodyData, b) => OnBody(b);
          case Data(StatusData, b) => HandleQuiet(State(), calls[i]);
        }
      }
      assert calls[..|calls|] == calls;
    }
  }

  /** Callbacks that leave the request alone. */
  lemma HandleQuiet(r: Reader, e: Event)
    requires e.HeadersComplete? || (e.Data? && e.kind == StatusData)
    ensures Handle(r, e) == r
  {}
}

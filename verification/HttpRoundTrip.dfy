/** A request that is printed and parsed again comes back as it was. */
module HttpRoundTrip {
  import opened Options
  import opened HttpTypes
  import opened HttpDispatch
  import opened HttpMachine
  import opened HttpInvariant
  import opened HttpRuns
  import opened HttpTrace
  import opened HttpText
  import opened HttpSteps
  import opened HttpMethods
  import opened HttpRecognise
  import opened HttpUrl
  import opened HttpLines
  import opened HttpHeaders
  import opened HttpExecute
  import opened HttpUpgrade
  import R = HttpRequests

  // ---------- which requests ----------

  /** A header name that means nothing to the parser. */
  predicate Ordinary(name: seq<Byte>) {
    && !IsConnectionName(name) && !IsName(name, W_CONTENT_LENGTH)
    && !IsName(name, W_TRANSFER_ENCODING) && !IsName(name, W_UPGRADE)
  }

  predicate LegalHeader(h: R.Header) { IsToken(h.name) && IsValue(h.name, h.value) }

  predicate WellFormed(m: R.Message) {
    && R.HasName(m.verb) && 1 <= m.major <= 999 && m.minor <= 999
    && IsPath(m.path) && IsQuery(m.query) && |UrlText(m.path, m.query)| < TWO_16
    && (forall h :: h in m.headers ==> LegalHeader(h) && Ordinary(h.name))
    && |R.Head(m)| <= MAX_HEADER_SIZE && |m.body| <= MAX_LENGTH
  }

  /** The request that comes back: no host, and the two headers the printer adds. */
  function Expected(m: R.Message): R.Message { m.(host := [], port := 0, headers := m.headers + R.Added(m)) }

  // ---------- all header lines ----------

  function Effects(p: Parser, hs: seq<R.Header>): Parser {
    if |hs| == 0 then p else Effect(Effects(p, hs[..|hs| - 1]), hs[|hs| - 1].name, hs[|hs| - 1].value)
  }

  function AllEvents(hs: seq<R.Header>): seq<Event> {
    if |hs| == 0 then [] else AllEvents(hs[..|hs| - 1]) + HeaderEvents(hs[|hs| - 1].name, hs[|hs| - 1].value)
  }

  predicate AllLegal(hs: seq<R.Header>) { forall h :: h in hs ==> LegalHeader(h) }

  /** The parser stands after the header lines `hs`, which began at `e`. */
  predicate AfterHeaders(r: Snapshot, e: Snapshot, hs: seq<R.Header>) {
    && AtLine(r.p.state) && r.p.errno == Ok && r.p.nread == e.p.nread + |R.HeaderLines(hs)|
    && Ended(r).out == e.out + AllEvents(hs) && Norm(Ended(r).p) == Effects(Norm(e.p), hs)
  }

  lemma {:induction false} HeadersRun(s: Snapshot, hs: seq<R.Header>)
    requires AtLine(s.p.state) && Resting(s.p) && AllLegal(hs) && Room(s.p, |R.HeaderLines(hs)|)
    ensures AfterHeaders(Run(s, R.HeaderLines(hs)), Ended(s), hs)
  {
    hide Run, Resting, LegalHeader, HeaderText, HeaderEvents, Effect, Ended;
    EndedKeeps(s);
    if |hs| == 0 {
      RunNothing(s);
      assert Ended(s).out + [] == Ended(s).out;
    } else {
      var c, h := hs[..|hs| - 1], hs[|hs| - 1];
      assert h in hs && AllLegal(c);
      HeadersRun(s, c);
      RunKeeps(s, R.HeaderLines(c));
      HeaderLegal(h);
      HeaderRun(Run(s, R.HeaderLines(c)), h.name, h.value);
      RunThen(s, R.HeaderLines(c), HeaderText(h.name, h.value), Run(s, R.HeaderLines(c)));
      assert Ended(s).out + AllEvents(hs) == Ended(s).out + AllEvents(c) + HeaderEvents(h.name, h.value);
    }
  }

  lemma HeaderLegal(h: R.Header)
    requires LegalHeader(h)
    ensures IsToken(h.name) && IsValue(h.name, h.value)
  {}

  // ---------- the end of the head ----------

  /** Framed by Content-Length, not upgraded. */
  predicate Framed(p: Parser) {
    && !p.flags.trailing && !p.flags.upgrade && !p.flags.chunked && !p.flags.skipBody && p.verb != CONNECT
    && p.contentLength < ULLONG_MAX && p.kind == Request
  }

  function AtHeadersDone(p: Parser): Parser { p.(state := HeadersDone, upgrade := false) }

  /** What the parser has done once the head is over and before the body. */
  function HeadDone(s: Snapshot): Snapshot {
    var h := AtHeadersDone(s.p);
    var out := s.out + [HeadersComplete(h)];
    if s.p.contentLength == 0 then
      var q := h.(nread := 0, state := NewMessage(h));
      Snapshot(q, out + [MessageComplete(q)])
    else Snapshot(h.(nread := 0, state := BodyIdentity), out)
  }

  lemma HeadReturned(p: Parser)
    requires p.state.HeaderFieldStart?
    ensures Settle(p, CR) == Snapshot(p.(state := HeadersAlmostDone), [])
  {
    hide Dispatch, Settle;
    DispatchOfFieldStart(p, CR);
    SettleStep(p, CR, Dispatch(p, CR, 1));
  }

  lemma HeadReturns(s: Snapshot)
    requires AtLine(s.p.state) && Room(s.p, 1)
    ensures Run(s, [CR]) == Snapshot(Counted(Ended(s).p).(state := HeadersAlmostDone), Ended(s).out)
  {
    hide Dispatch, Settle, ByteStep, Ended, Run, OpenKind;
    EndedCounted(s);
    LineBegins(s.p, CR);
    RunOne(s, CR);
    var e := Ended(Snapshot(Counted(s.p), []));
    HeadReturned(e.p);
    assert e.out + [] == e.out;
  }

  lemma NewMessageOf(p: Parser)
    ensures NewMessage(p.(nread := 0)) == NewMessage(p) && OpenKind(NewMessage(p)).None?
  {}

  /** The second look at the last byte of the head. */
  lemma HeadSettles(h: Parser)
    requires h.state.HeadersDone? && !h.upgrade && Framed(h)
    ensures var done := h.(nread := 0, state := NewMessage(h));
            Settle(h, LF) == if h.contentLength == 0 then Snapshot(done, [MessageComplete(done)])
                             else Snapshot(h.(nread := 0, state := BodyIdentity), [])
  {
    hide Dispatch, Settle, NewMessage, OpenKind, NeedsEof;
    NewMessageOf(h);
    BodyIsClosed();
    DispatchOfHeadEnd(h, LF);
    SettleStep(h, LF, Dispatch(h, LF, 1));
  }

  lemma BodyIsClosed()
    ensures OpenKind(BodyIdentity).None? && OpenKind(HeadersDone).None?
  {}

  lemma HeadFeeds(p: Parser)
    requires Ready(p) && p.state.HeadersAlmostDone? && Framed(p)
    ensures ByteStep(p, LF) == HeadDone(Snapshot(Counted(p), []))
  {
    hide Dispatch, Settle, NewMessage, OpenKind, NeedsEof;
    var q := Counted(p);
    BodyIsClosed();
    DispatchOfHeadEnd(q, LF);
    SettleStep(q, LF, Dispatch(q, LF, 1));
    HeadSettles(AtHeadersDone(q));
  }

  lemma HeadEnds(s: Snapshot)
    requires AtLine(s.p.state) && Room(s.p, 2) && Framed(Ended(s).p)
    ensures Run(s, [CR] + [LF]) == HeadDone(Snapshot(Later(Ended(s).p, 2), Ended(s).out))
  {
    hide ByteStep, Run, NewMessage, Ended, HeadDone;
    EndedKeeps(s);
    HeadReturns(s);
    RunSnoc(s, [CR], LF);
    var q := Run(s, [CR]).p;
    HeadFeeds(q);
    HeadDoneFrame(Counted(q), Ended(s).out);
  }

  lemma HeadDoneFrame(p: Parser, out: seq<Event>)
    ensures HeadDone(Snapshot(p, [])).p == HeadDone(Snapshot(p, out)).p
    ensures out + HeadDone(Snapshot(p, [])).out == HeadDone(Snapshot(p, out)).out
    ensures HeadDone(Snapshot(p.(state := HeaderFieldStart), out)) == HeadDone(Snapshot(p, out))
  {
    hide NewMessage;
    NewMessageAny(p);
  }

  lemma NewMessageAny(p: Parser)
    ensures forall q: Parser :: q == AtHeadersDone(p) ==> NewMessage(q) == NewMessage(p.(upgrade := false))
  {}

  // ---------- the request line ----------

  function AfterRequestLine(m: R.Message): Parser {
    Fresh(Init(Request)).(state := HeaderFieldStart, verb := m.verb, index := |MethodString(m.verb)| + 1,
      nread := |R.RequestLine(m)|, httpMajor := m.major, httpMinor := m.minor)
  }

  lemma MethodRun(verb: Method)
    ensures Run(Start(Request), MethodString(verb) + [SP])
         == Snapshot(AfterLetters(Init(Request), verb, MethodString(verb) + [SP]).(state := ReqSpacesBeforeUrl),
             [MessageBegin])
  {
    hide Run, ByteStep, MethodString, Held, SwitchMethod, DispatchMethod;
    var s := MethodString(verb);
    ListedMethodRead(Init(Request), verb, |s|);
    assert s[..|s|] == s;
    HeldAll(verb);
    var q := AfterLetters(Init(Request), verb, s);
    RunSnoc(Start(Request), s, SP);
    MethodByte(q, SP);
    PrefixOfItself(verb);
    WholeMethod(Counted(q), s);
    assert [MessageBegin] + [] == [MessageBegin];
  }

  lemma PrefixOfItself(verb: Method)
    ensures HasPrefix(verb, MethodString(verb))
  {
    hide MethodString;
  }

  lemma RequestLineRun(m: R.Message)
    requires WellFormed(m)
    ensures Run(Start(Request), R.RequestLine(m))
         == Snapshot(AfterRequestLine(m), [MessageBegin] + Singles(UrlData, UrlText(m.path, m.query)))
  {
    hide Run, MethodString, UrlText, VersionText, Singles, LegalHeader, IsPath, IsQuery, R.HeaderLines, R.Added, Ordinary;
    var s, d, u := Start(Request), MethodString(m.verb) + [SP], UrlText(m.path, m.query) + [SP];
    var v := VersionText(m.major, m.minor);
    assert |d| + |u| + |v| == |R.RequestLine(m)| <= |R.Head(m)|;
    MethodRun(m.verb);
    var t := Run(s, d);
    UrlRun(t, m.path, m.query);
    RunThen(s, d, u, t);
    t := Run(s, d + u);
    VersionRun(t, m.major, m.minor);
    RunThen(s, d + u, v, t);
  }

  // ---------- what the headers of a printed request mean ----------

  lemma OrdinaryEffect(p: Parser, name: seq<Byte>, v: seq<Byte>)
    requires Ordinary(name)
    ensures Effect(p, name, v) == p
  {
    hide IsName, IsConnectionName, IsWordAndSpaces, DecValue;
  }

  lemma {:induction false} OrdinaryEffects(p: Parser, hs: seq<R.Header>)
    requires forall h :: h in hs ==> Ordinary(h.name)
    ensures Effects(p, hs) == p
  {
    hide Effect, Ordinary;
    if |hs| > 0 {
      assert hs[|hs| - 1] in hs;
      OrdinaryEffects(p, hs[..|hs| - 1]);
      OrdinaryEffect(p, hs[|hs| - 1].name, hs[|hs| - 1].value);
    }
  }

  /** The names and values the printer adds, in lower case. */
  lemma AddedWords()
    ensures IsName(R.CONTENT_LENGTH, W_CONTENT_LENGTH) && IsName(R.CONNECTION, W_CONNECTION)
    ensures LowerAll(R.KEEP_ALIVE) == W_KEEP_ALIVE && LowerAll(W_CLOSE) == W_CLOSE
    ensures IsToken(R.CONTENT_LENGTH) && IsToken(R.CONNECTION)
  {}

  lemma LengthHeader(p: Parser, n: nat)
    requires n <= MAX_LENGTH
    ensures IsToken(R.CONTENT_LENGTH) && IsValue(R.CONTENT_LENGTH, DecDigits(n))
    ensures Effect(p, R.CONTENT_LENGTH, DecDigits(n)) == p.(contentLength := n)
  {
    hide DecValue, DecDigits, IsToken, LowerAll, R.CONTENT_LENGTH, R.CONNECTION, IsWordAndSpaces;
    AddedWords();
    NamesApart(R.CONTENT_LENGTH);
    LengthIsNotUpgrade(R.CONTENT_LENGTH);
    DigitsRead(n);
    assert DecDigits(n)[0] in DecDigits(n);
  }

  lemma LengthIsNotUpgrade(name: seq<Byte>)
    ensures IsName(name, W_CONTENT_LENGTH) || IsName(name, W_CONNECTION) ==> !IsName(name, W_UPGRADE)
  {
    hide LowerAll;
    assert |W_CONTENT_LENGTH| == 14 && |W_CONNECTION| == 10 && |W_UPGRADE| == 7;
  }

  lemma WholeWord(v: seq<Byte>, word: seq<Byte>)
    requires LowerAll(v) == word
    ensures IsWordAndSpaces(v, word)
  {
    assert LowerAll(v)[..|word|] == word;
  }

  lemma ConnectionHeader(p: Parser, keepAlive: bool)
    ensures IsToken(R.CONNECTION) && IsValue(R.CONNECTION, R.ConnectionValue(keepAlive))
    ensures Effect(p, R.CONNECTION, R.ConnectionValue(keepAlive))
         == p.(flags := p.flags.(keepAlive := p.flags.keepAlive || keepAlive, close := p.flags.close || !keepAlive))
  {
    ConnectionBytes(keepAlive);
    AddedWords();
    var v := R.ConnectionValue(keepAlive);
    WholeWord(v, if keepAlive then W_KEEP_ALIVE else W_CLOSE);
    NotTheOther(v, keepAlive);
    NamesApart(R.CONNECTION);
    LengthIsNotUpgrade(R.CONNECTION);
    hide DecValue, IsToken, LowerAll, R.CONNECTION, R.CONTENT_LENGTH, IsWordAndSpaces, IsName, R.ConnectionValue;
  }

  lemma ConnectionBytes(keepAlive: bool)
    ensures var v := R.ConnectionValue(keepAlive);
            && v != [] && v[0] != SP && v[0] != HT && CR !in v && LF !in v
            && LowerAll(v) == if keepAlive then W_KEEP_ALIVE else W_CLOSE
  {}

  lemma NotTheOther(v: seq<Byte>, keepAlive: bool)
    requires LowerAll(v) == if keepAlive then W_KEEP_ALIVE else W_CLOSE
    ensures !IsWordAndSpaces(v, if keepAlive then W_CLOSE else W_KEEP_ALIVE)
  {
    assert LowerAll(v)[0] == LowerCase(v[0]);
    if IsWordAndSpaces(v, if keepAlive then W_CLOSE else W_KEEP_ALIVE) {
      FirstLetterOfWord(v, if keepAlive then W_CLOSE else W_KEEP_ALIVE);
    }
  }

  /** The fields the parser has when the headers of a printed request are over. */
  function AfterHead(m: R.Message): Parser {
    var p := AfterRequestLine(m);
    p.(contentLength := |m.body|, flags := p.flags.(keepAlive := m.keepAlive, close := !m.keepAlive))
  }

  lemma AddedEffects(p: Parser, m: R.Message)
    requires WellFormed(m) && p.flags == NO_FLAGS
    ensures AllLegal(m.headers + R.Added(m))
    ensures Effects(p, m.headers + R.Added(m))
         == p.(contentLength := |m.body|, flags := p.flags.(keepAlive := m.keepAlive, close := !m.keepAlive))
  {
    hide Effect, Ordinary, DecDigits, IsPath, IsQuery, IsToken, IsValue, R.Head, R.CONTENT_LENGTH, R.CONNECTION,
        R.ConnectionValue;
    var hs, a, b := m.headers, R.Added(m)[0], R.Added(m)[1];
    OrdinaryEffects(p, hs);
    LengthHeader(p, |m.body|);
    var q := p.(contentLength := |m.body|);
    ConnectionHeader(q, m.keepAlive);
    assert hs + R.Added(m) == hs + [a] + [b];
    EffectsSnoc(p, hs, a);
    EffectsSnoc(p, hs + [a], b);
  }

  lemma EffectsSnoc(p: Parser, hs: seq<R.Header>, h: R.Header)
    ensures Effects(p, hs + [h]) == Effect(Effects(p, hs), h.name, h.value)
  {
    hide Effect;
    assert (hs + [h])[..|hs + [h]| - 1] == hs;
  }

  // ---------- the whole message ----------

  /** The callbacks for a printed request, `h` and `q` being the fields at the end of its head and of the message. */
  function Told(m: R.Message, h: Parser, q: Parser): seq<Event> {
    [MessageBegin] + Singles(UrlData, UrlText(m.path, m.query)) + AllEvents(m.headers + R.Added(m))
    + [HeadersComplete(h)] + Singles(BodyData, m.body) + [MessageComplete(q)]
  }

  predicate SaysAsPrinted(q: Parser, m: R.Message) {
    && q.errno == Ok && !q.upgrade && q.kind == Request && q.verb == m.verb
    && q.httpMajor == m.major && q.httpMinor == m.minor && ShouldKeepAlive(q) == m.keepAlive
    && q.state == if m.keepAlive then StartReq else Dead
  }

  lemma HeadRun(m: R.Message) returns (e: Snapshot)
    requires WellFormed(m)
    ensures Run(Start(Request), R.Head(m)) == HeadDone(e)
    ensures Norm(e.p) == Norm(AfterHead(m)) && !e.p.upgrade
    ensures e.out == [MessageBegin] + Singles(UrlData, UrlText(m.path, m.query)) + AllEvents(m.headers + R.Added(m))
  {
    hide Run, Singles, LegalHeader, IsPath, IsQuery, Ordinary, R.HeaderLines, R.Added, Effects, HeadDone, MethodString,
      AllEvents, R.RequestLine, UrlText, AllLegal, Ended, Resting;
    var s, d, hs := Start(Request), R.RequestLine(m), m.headers + R.Added(m);
    RequestLineRun(m);
    var t := Run(s, d);
    InitRests(Request);
    RunKeeps(s, d);
    EndedHere(t);
    AddedEffects(Norm(t.p), m);
    HeadersRun(t, hs);
    RunThen(s, d, R.HeaderLines(hs), t);
    var r := Run(t, R.HeaderLines(hs));
    EndedKeeps(r);
    assert Norm(Ended(r).p) == Norm(AfterHead(m));
    NormFields(Ended(r).p, AfterHead(m));
    HeadEnds(r);
    RunThen(s, d + R.HeaderLines(hs), [CR] + [LF], r);
    e := Snapshot(Later(Ended(r).p, 2), Ended(r).out);
  }

  lemma EndedHere(s: Snapshot)
    requires s.p.state.HeaderFieldStart?
    ensures Ended(s) == s && AtLine(s.p.state)
  {}

  lemma NormFields(p: Parser, q: Parser)
    requires Norm(p) == Norm(q)
    ensures p.flags == q.flags && p.contentLength == q.contentLength && p.verb == q.verb && p.kind == q.kind
    ensures p.upgrade == q.upgrade && p.errno == q.errno && p.httpMajor == q.httpMajor && p.httpMinor == q.httpMinor
  {
    assert Norm(p).flags == p.flags && Norm(q).flags == q.flags;
  }

  lemma MessageRun(m: R.Message) returns (h: Parser, q: Parser)
    requires WellFormed(m)
    ensures Run(Start(Request), R.Printed(m)) == Snapshot(q, Told(m, h, q))
    ensures SaysAsPrinted(q, m) && !h.upgrade
  {
    hide Run, Singles, WellFormed, AllEvents, R.Head, R.Added, UrlText, Resting, ShouldKeepAlive, NewMessage;
    var e := HeadRun(m);
    NormFields(e.p, AfterHead(m));
    var s, r := Start(Request), HeadDone(e);
    h := AtHeadersDone(e.p);
    if |m.body| == 0 {
      assert R.Printed(m) == R.Head(m);
      q := r.p;
      NoSingles();
      assert e.out + [HeadersComplete(h)] + [MessageComplete(q)] == Told(m, h, q);
    } else {
      InitRests(Request);
      RunKeeps(s, R.Head(m));
      BodyRun(r.p, m.body, r.out);
      RunThen(s, R.Head(m), m.body, r);
      q := Run(s, R.Printed(m)).p;
      assert e.out + [HeadersComplete(h)] + Singles(BodyData, m.body) + [MessageComplete(q)] == Told(m, h, q);
    }
    KeepAliveAsPrinted(e.p, m, q);
  }

  lemma NoSingles()
    ensures Singles(BodyData, []) == []
  {}

  lemma KeepAliveAsPrinted(p: Parser, m: R.Message, q: Parser)
    requires p.flags == NO_FLAGS.(keepAlive := m.keepAlive, close := !m.keepAlive)
    requires p.kind == Request && p.errno == Ok && p.verb == m.verb && p.httpMajor == m.major && p.httpMinor == m.minor
    requires var h := AtHeadersDone(p);
             || q == h.(nread := 0, state := NewMessage(h))
             || q == Finish(h.(nread := 0, contentLength := 0, state := MessageDone)).p
    ensures SaysAsPrinted(q, m)
  {}

  // ---------- the URL of a printed request ----------

  /** The scan stands in the path. */
  predicate InPath(c: Scan, n: nat) {
    c.s == ReqPath && c.last == Some(Path) && c.fields == {Path} && c.spans.path == Span(0, n)
  }

  lemma PathByte(c: Scan, ch: Byte, i: nat)
    requires i < TWO_16
    requires || (c.s == ReqSpacesBeforeUrl && c.last == None && c.fields == {} && (ch == 47 || ch == 42) && i == 0)
             || (InPath(c, i) && IsUrlChar(ch))
    ensures InPath(ScanByte(c, ch, i), i + 1) || i + 1 == TWO_16
  {
    hide U16;
    assert ParseUrlChar(c.s, ch) == ReqPath;
    hide ParseUrlChar;
    NoWrap(i);
    if i + 1 < TWO_16 {
      NoWrap(i + 1);
    }
    assert {Path} + {Path} == {Path};
  }

  lemma {:induction false} PathScan(url: seq<Byte>, path: seq<Byte>, n: nat)
    requires IsPath(path) && path <= url && 0 < n <= |path| && |url| < TWO_16
    ensures InPath(ScanUrl(url, n, false), n)
  {
    hide ScanByte, IsUrlChar, ScanUrl, ScanStart, InPath, NO_SPANS;
    ScanNone(url, false);
    StartFacts(false, ScanStart(false));
    if n > 1 {
      PathScan(url, path, n - 1);
    }
    var c := ScanUrl(url, n - 1, false);
    assert url[n - 1] == path[n - 1] && path[n - 1] in path;
    PathByte(c, url[n - 1], n - 1);
    InPathLives(c, n - 1);
    ScanMore(url, n - 1, false);
  }

  lemma InPathLives(c: Scan, n: nat)
    ensures InPath(c, n) ==> c.s != Dead
  {}

  /** The scan stands in the query, after `k` of its bytes, or on the question mark before it. */
  predicate InQuery(c: Scan, n: nat, k: nat) {
    && c.spans.path == Span(0, n)
    && if k == 0 then c.s == ReqQueryStringStart && c.last == Some(Path) && c.fields == {Path}
       else c.s == ReqQueryString && c.last == Some(Query) && c.fields == {Path, Query} && c.spans.query == Span(n + 1, k)
  }

  lemma QuestionMark(c: Scan, n: nat)
    requires InPath(c, n)
    ensures InQuery(ScanByte(c, 63, n), n, 0)
  {}

  lemma QueryByte(c: Scan, ch: Byte, n: nat, k: nat)
    requires InQuery(c, n, k) && (IsUrlChar(ch) || ch == 63) && n + 1 + k < TWO_16
    ensures InQuery(ScanByte(c, ch, n + 1 + k), n, k + 1)
  {
    hide U16;
    assert ParseUrlChar(c.s, ch) == ReqQueryString;
    hide ParseUrlChar;
    NoWrap(n + 1 + k);
    NoWrap(k + 1);
    assert {Path} + {Query} == {Path, Query} && {Path, Query} + {Query} == {Path, Query};
  }

  lemma {:induction false} QueryScan(path: seq<Byte>, query: seq<Byte>, k: nat)
    requires IsPath(path) && IsQuery(query) && query != [] && k <= |query| && |UrlText(path, query)| < TWO_16
    ensures InQuery(ScanUrl(UrlText(path, query), |path| + 1 + k, false), |path|, k)
  {
    hide ScanByte, IsUrlChar, ScanUrl, InPath, InQuery;
    var url, n := UrlText(path, query), |path|;
    if k == 0 {
      assert path <= url && url[n] == 63;
      PathScan(url, path, n);
      var c := ScanUrl(url, n, false);
      InPathLives(c, n);
      QuestionMark(c, n);
      ScanMore(url, n, false);
    } else {
      QueryScan(path, query, k - 1);
      var c := ScanUrl(url, n + k, false);
      assert url[n + k] == query[k - 1] && query[k - 1] in query;
      QueryByte(c, url[n + k], n, k - 1);
      InQueryLives(c, n, k - 1);
      ScanMore(url, n + k, false);
    }
  }

  lemma InQueryLives(c: Scan, n: nat, k: nat)
    ensures InQuery(c, n, k) ==> c.s != Dead
  {}

  /** The two parts come out of the printed URL again. */
  lemma PrintedUrl(m: R.Message, path: seq<Byte>, query: seq<Byte>)
    requires IsPath(path) && IsQuery(query) && |UrlText(path, query)| < TWO_16
    requires m.host == [] && m.port == 0 && m.query == []
    ensures R.WithUrl(m, UrlText(path, query)) == m.(path := path, query := query)
  {
    hide ScanUrl, IsUrlChar, UrlOf, Recorded, DecValue, DigitsFrom;
    var url := UrlText(path, query);
    UrlOfCases(url, false);
    var c := ScanUrl(url, |url|, false);
    if query == [] {
      assert url == path;
      PathScan(url, path, |url|);
      assert url[0..|path|] == path;
    } else {
      assert |url| == |path| + 1 + |query|;
      QueryScan(path, query, |query|);
      assert url[0..|path|] == path && url[|path| + 1..|path| + 1 + |query|] == query;
    }
    assert Schema !in c.fields && Host !in c.fields && Port !in c.fields;
    RecordedIsResult(url, false);
  }

  // ---------- the rebuilt request ----------

  lemma HeaderRead(r: R.Reader, name: seq<Byte>, v: seq<Byte>)
    requires r.phase != R.InField && name != []
    ensures R.HandleAll(r, HeaderEvents(name, v))
              == r.(phase := R.InValue, req := r.req.(headers := r.req.headers + [R.Header(name, v)]))
  {
    hide R.HandleAll, Singles;
    var a := Singles(FieldData, name);
    R.HandleSingles(r, FieldData, name);
    var t := R.Handle(r, Data(FieldData, name));
    assert t == r.(phase := R.InField, req := r.req.(headers := r.req.headers + [R.Header(name, [])]));
    if v == [] {
      R.HandleSnoc(r, a, Data(ValueData, []));
    } else {
      R.HandleConcat(r, a, Singles(ValueData, v));
      R.HandleSingles(t, ValueData, v);
    }
    assert R.LastHeader(t.req.headers, R.Header(name, v)) == r.req.headers + [R.Header(name, v)];
  }

  lemma {:induction false} HeadersRead(r: R.Reader, hs: seq<R.Header>)
    requires r.phase == R.InUrl && AllLegal(hs) && r.req.headers == []
    ensures R.HandleAll(r, AllEvents(hs))
         == r.(phase := if hs == [] then R.InUrl else R.InValue, req := r.req.(headers := hs))
  {
    hide R.HandleAll, HeaderEvents, IsValue;
    if |hs| == 0 {
      NothingHandled(r);
    } else {
      var c, h := hs[..|hs| - 1], hs[|hs| - 1];
      assert h in hs && LegalHeader(h);
      HeadersRead(r, c);
      var t := R.HandleAll(r, AllEvents(c));
      HeaderRead(t, h.name, h.value);
      R.HandleConcat(r, AllEvents(c), HeaderEvents(h.name, h.value));
      assert c + [R.Header(h.name, h.value)] == hs;
    }
  }

  lemma NothingHandled(r: R.Reader)
    ensures R.HandleAll(r, []) == r
  {}

  /** The reader that hears these callbacks holds the request that was printed. */
  lemma Rebuilt(m: R.Message, h: Parser, q: Parser)
    requires WellFormed(m) && SaysAsPrinted(q, m)
    ensures R.HandleAll(R.NEW_READER, Told(m, h, q)) == R.Reader(R.Ended, UrlText(m.path, m.query), Expected(m))
  {
    hide R.HandleAll, Singles, AllEvents, R.Added, UrlText, R.Head, R.WithUrl, ShouldKeepAlive, Effects, AllLegal,
        LegalHeader, Ordinary,
      IsUrlChar;
    var url, hs := UrlText(m.path, m.query), m.headers + R.Added(m);
    var r0 := R.Reader(R.Began, [], R.CLEARED);
    NothingHandled(R.NEW_READER);
    R.HandleSnoc(R.NEW_READER, [], MessageBegin);
    assert [] + [MessageBegin] == [MessageBegin];
    UrlNotEmpty(m.path, m.query);
    R.HandleSingles(r0, UrlData, url);
    var t := [MessageBegin];
    R.HandleConcat(R.NEW_READER, t, Singles(UrlData, url));
    t := t + Singles(UrlData, url);
    var r1 := R.Reader(R.InUrl, url, R.CLEARED);
    assert R.HandleAll(R.NEW_READER, t) == r1;
    AddedEffects(Init(Request), m);
    HeadersRead(r1, hs);
    R.HandleConcat(R.NEW_READER, t, AllEvents(hs));
    t := t + AllEvents(hs);
    var r2 := R.Reader(R.InValue, url, R.CLEARED.(headers := hs));
    AddedNotEmpty(m);
    assert R.HandleAll(R.NEW_READER, t) == r2;
    R.HandleSnoc(R.NEW_READER, t, HeadersComplete(h));
    t := t + [HeadersComplete(h)];
    R.HandleConcat(R.NEW_READER, t, Singles(BodyData, m.body));
    BodyRead(r2, m.body);
    t := t + Singles(BodyData, m.body);
    R.HandleSnoc(R.NEW_READER, t, MessageComplete(q));
    var done := R.CLEARED.(headers := hs, body := m.body, verb := m.verb, major := m.major, minor := m.minor,
        keepAlive := m.keepAlive);
    PrintedUrl(done, m.path, m.query);
  }

  lemma UrlNotEmpty(path: seq<Byte>, query: seq<Byte>)
    requires IsPath(path)
    ensures UrlText(path, query) != []
  {}

  lemma AddedNotEmpty(m: R.Message)
    ensures m.headers + R.Added(m) != []
  {}

  lemma BodyRead(r: R.Reader, body: seq<Byte>)
    requires r.req.body == []
    ensures var t := R.HandleAll(r, Singles(BodyData, body)); t.url == r.url && t.req == r.req.(body := body)
  {
    hide R.HandleAll, Singles;
    if body == [] {
      NoSingles();
      NothingHandled(r);
    } else {
      R.HandleSingles(r, BodyData, body);
      assert [] + body == body;
    }
  }

  /** The round trip: what was printed is parsed without error, and the callbacks rebuild it. */
  lemma RoundTrip(m: R.Message)
    requires WellFormed(m)
    ensures var s := Run(Start(Request), R.Printed(m));
            SaysAsPrinted(s.p, m) && R.HandleAll(R.NEW_READER, s.out).req == Expected(m)
  {
    hide Run, WellFormed, SaysAsPrinted, Told, R.HandleAll;
    var h, q := MessageRun(m);
    Rebuilt(m, h, q);
  }

  /** Nothing stops the parser inside a printed request. */
  lemma NothingStops(m: R.Message, d: seq<Byte>)
    requires WellFormed(m) && d <= R.Printed(m)
    ensures var p := Run(Start(Request), d).p; p.errno == Ok && !p.upgrade
  {
    hide Run, WellFormed, Singles, AllEvents, R.Printed, SaysAsPrinted, TellsUpgrade;
    var s, rest := Start(Request), R.Printed(m)[|d|..];
    var h, q := MessageRun(m);
    assert d + rest == R.Printed(m);
    RunConcat(s, d, rest);
    OkAsPrinted(q, m);
    if Run(s, d).p.errno != Ok {
      RunStuck(Run(s, d), rest);
    }
    RunFrame(Run(s, d), rest);
    TellsNoUpgrade(m, h, q);
    assert forall e :: e in Run(s, d).out ==> e in Told(m, h, q);
    RunTold(s, d);
  }

  lemma OkAsPrinted(q: Parser, m: R.Message)
    requires SaysAsPrinted(q, m)
    ensures q.errno == Ok
  {}

  lemma {:induction false} SinglesAreData(k: Kind, d: seq<Byte>)
    ensures forall e :: e in Singles(k, d) ==> e.Data?
  {
    if |d| > 0 {
      SinglesAreData(k, d[..|d| - 1]);
    }
  }

  lemma {:induction false} HeadersAreData(hs: seq<R.Header>)
    ensures forall e :: e in AllEvents(hs) ==> e.Data?
  {
    hide Singles;
    if |hs| > 0 {
      HeadersAreData(hs[..|hs| - 1]);
      SinglesAreData(FieldData, hs[|hs| - 1].name);
      SinglesAreData(ValueData, hs[|hs| - 1].value);
    }
  }

  lemma TellsNoUpgrade(m: R.Message, h: Parser, q: Parser)
    requires !h.upgrade
    ensures NoUpgrade(Told(m, h, q))
  {
    hide Singles, AllEvents, UrlText, R.Added;
    SinglesAreData(UrlData, UrlText(m.path, m.query));
    SinglesAreData(BodyData, m.body);
    HeadersAreData(m.headers + R.Added(m));
  }

  /**
   Over the wire: a request is printed by one proxy, arrives at another in buffers of any
   sizes, and is rebuilt there from the callbacks of the parser.
   */
  method Exchange(m: R.Message, buffers: seq<seq<Byte>>) returns (received: R.Message)
    requires WellFormed(m)
    requires Flatten(buffers) == R.Printed(m) && forall b :: b in buffers ==> b != []
    ensures received == Expected(m)
  {
    hide Run, WellFormed, SaysAsPrinted, R.Printed, R.HandleAll, Join, Flatten, Resting;
    var parser := new HttpParser(Request);
    StartsOk();
    var ok, fed := parser.Feed(buffers);
    NothingStops(m, fed);
    RoundTrip(m);
    var reader := new R.RequestReader();
    reader.Deliver(parser.calls);
    R.HandleJoined(R.NEW_READER, parser.calls);
    R.HandleJoined(R.NEW_READER, parser.model.out);
    received := reader.req;
  }

  lemma StartsOk()
    ensures Init(Request).errno == Ok
  {}
}

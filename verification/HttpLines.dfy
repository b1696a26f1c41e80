/** Runs of the byte machine over the lines of a message head: request line, header lines, blank line. */
module HttpLines {
  import opened Options
  import opened HttpTypes
  import opened HttpDispatch
  import opened HttpMachine
  import opened HttpInvariant
  import opened HttpRuns
  import opened HttpTrace
  import opened HttpText
  import opened HttpSteps
  import opened HttpMethods
  import opened HttpRecognise

  // ---------- single bytes ----------

  /** A dispatch that moves on to the next byte and makes no callback of its own. */
  predicate Plain(a: Act) { a.next == Break && a.note.None? && !(a.mark.Some? && a.flush == a.mark) }

  function Heard(s: State, ch: Byte): seq<Event> {
    if OpenKind(s).Some? then [Data(OpenKind(s).value, [ch])] else []
  }

  lemma PlainByte(p: Parser, ch: Byte)
    requires Ready(p) && Plain(Dispatch(Counted(p), ch, 1))
    ensures ByteStep(p, ch) == Snapshot(Dispatch(Counted(p), ch, 1).p, Heard(Dispatch(Counted(p), ch, 1).p.state, ch))
  {
    ByteOnce(p, ch);
    hide Dispatch, ByteStep, OpenKind;
  }

  /** A parser with room for `n` more bytes of the head. */
  predicate Room(p: Parser, n: nat) { p.errno == Ok && p.nread + n <= MAX_HEADER_SIZE }

  function Later(p: Parser, n: nat): Parser { p.(nread := p.nread + n) }

  lemma RunSnoc(s: Snapshot, d: seq<Byte>, ch: Byte)
    ensures Run(s, d + [ch]) == Snapshot(ByteStep(Run(s, d).p, ch).p, Run(s, d).out + ByteStep(Run(s, d).p, ch).out)
  {
    hide ByteStep;
    assert (d + [ch])[..|d + [ch]| - 1] == d;
  }

  lemma RunThen(s: Snapshot, d: seq<Byte>, e: seq<Byte>, t: Snapshot)
    requires Run(s, d) == t
    ensures Run(s, d + e) == Run(t, e)
  {
    hide Run;
    RunConcat(s, d, e);
  }

  // ---------- the URL ----------

  lemma UrlBegins(p: Parser, ch: Byte)
    requires Ready(p) && p.state.ReqSpacesBeforeUrl? && p.verb != CONNECT && (ch == 47 || ch == 42)
    ensures ByteStep(p, ch) == Snapshot(Counted(p).(state := ReqPath), [Data(UrlData, [ch])])
  {
    DispatchOfSpaces(Counted(p), ch);
    assert ParseUrlChar(ReqSpacesBeforeUrl, ch) == ReqPath;
    hide Dispatch, ByteStep, ParseUrlChar;
    PlainByte(p, ch);
  }

  predicate PathOrQuery(s: State) { s.ReqPath? || s.ReqQueryStringStart? || s.ReqQueryString? }

  lemma UrlGoesOn(p: Parser, ch: Byte, t: State)
    requires Ready(p) && PathOrQuery(p.state) && t == ParseUrlChar(p.state, ch) && PathOrQuery(t)
    ensures ByteStep(p, ch) == Snapshot(Counted(p).(state := t), [Data(UrlData, [ch])])
  {
    DispatchOfUrl(Counted(p), ch);
    assert ch != SP && ch != CR && ch != LF;
    hide Dispatch, ByteStep, ParseUrlChar;
    PlainByte(p, ch);
  }

  lemma UrlEnds(p: Parser)
    requires Ready(p) && PathOrQuery(p.state)
    ensures ByteStep(p, SP) == Snapshot(Counted(p).(state := ReqHttpStart), [])
  {
    hide Dispatch, ByteStep, ParseUrlChar;
    DispatchOfUrl(Counted(p), SP);
    PlainByte(p, SP);
  }

  /** Bytes that keep the scan in the path, or in the query. */
  predicate StaysIn(t: State, d: seq<Byte>) { forall c :: c in d ==> ParseUrlChar(t, c) == t }

  lemma {:induction false} UrlStretch(s: Snapshot, d: seq<Byte>)
    requires s.p.state.ReqPath? || s.p.state.ReqQueryString?
    requires StaysIn(s.p.state, d) && Room(s.p, |d|)
    ensures Run(s, d) == Snapshot(Later(s.p, |d|), s.out + Singles(UrlData, d))
  {
    hide ByteStep, ParseUrlChar;
    if |d| == 0 {
      assert s.out + [] == s.out;
    } else {
      var c, ch := d[..|d| - 1], d[|d| - 1];
      assert StaysIn(s.p.state, c) && ch in d;
      UrlStretch(s, c);
      UrlGoesOn(Later(s.p, |c|), ch, s.p.state);
      assert s.out + Singles(UrlData, d) == s.out + Singles(UrlData, c) + [Data(UrlData, [ch])];
    }
  }

  /** A path, then a query when there is one. */
  function UrlText(path: seq<Byte>, query: seq<Byte>): seq<Byte> {
    path + if query == [] then [] else [63] + query
  }

  predicate IsPath(path: seq<Byte>) {
    |path| > 0 && (path[0] == 47 || path[0] == 42) && forall c :: c in path ==> IsUrlChar(c)
  }

  predicate IsQuery(query: seq<Byte>) { forall c :: c in query ==> IsUrlChar(c) || c == 63 }

  lemma PathChars(path: seq<Byte>, query: seq<Byte>)
    requires IsPath(path) && IsQuery(query)
    ensures StaysIn(ReqPath, path[1..]) && StaysIn(ReqQueryString, query)
    ensures ParseUrlChar(ReqPath, 63) == ReqQueryStringStart
    ensures query != [] ==> ParseUrlChar(ReqQueryStringStart, query[0]) == ReqQueryString
  {
    forall c | c in path[1..] ensures ParseUrlChar(ReqPath, c) == ReqPath { assert c in path; }
    if query != [] {
      assert query[0] in query;
    }
  }

  lemma {:induction false} SinglesConcat(k: Kind, a: seq<Byte>, b: seq<Byte>)
    ensures Singles(k, a + b) == Singles(k, a) + Singles(k, b)
  {
    if |b| == 0 {
      assert a + b == a;
    } else {
      var c := b[..|b| - 1];
      assert (a + b)[..|a + b| - 1] == a + c;
      SinglesConcat(k, a, c);
    }
  }

  lemma SinglesOne(k: Kind, ch: Byte)
    ensures Singles(k, [ch]) == [Data(k, [ch])]
  {
    assert [ch][..0] == [];
  }

  lemma PathRun(s: Snapshot, path: seq<Byte>)
    requires s.p.state.ReqSpacesBeforeUrl? && s.p.verb != CONNECT
    requires IsPath(path) && StaysIn(ReqPath, path[1..]) && Room(s.p, |path|)
    ensures Run(s, path) == Snapshot(Later(s.p, |path|).(state := ReqPath), s.out + Singles(UrlData, path))
  {
    hide Run, ByteStep, StaysIn, IsUrlChar, Singles;
    var t := Snapshot(Counted(s.p).(state := ReqPath), s.out + [Data(UrlData, [path[0]])]);
    UrlBegins(s.p, path[0]);
    RunOne(s, path[0]);
    UrlStretch(t, path[1..]);
    RunThen(s, [path[0]], path[1..], t);
    assert [path[0]] + path[1..] == path;
    SinglesConcat(UrlData, [path[0]], path[1..]);
    SinglesOne(UrlData, path[0]);
    assert s.out + [Data(UrlData, [path[0]])] + Singles(UrlData, path[1..]) == s.out + Singles(UrlData, path);
  }

  lemma StaysInRest(t: State, d: seq<Byte>)
    requires StaysIn(t, d) && d != []
    ensures StaysIn(t, d[1..])
  {
    hide ParseUrlChar;
  }

  /** The query, after its question mark. */
  lemma QueryRest(t: Snapshot, query: seq<Byte>)
    requires t.p.state.ReqQueryStringStart? && query != [] && StaysIn(ReqQueryString, query)
    requires ParseUrlChar(ReqQueryStringStart, query[0]) == ReqQueryString && Room(t.p, |query|)
    ensures Run(t, query) == Snapshot(Later(t.p, |query|).(state := ReqQueryString), t.out + Singles(UrlData, query))
  {
    hide Run, ByteStep, ParseUrlChar, Singles, StaysIn;
    var u := Snapshot(Counted(t.p).(state := ReqQueryString), t.out + [Data(UrlData, [query[0]])]);
    UrlGoesOn(t.p, query[0], ReqQueryString);
    RunOne(t, query[0]);
    StaysInRest(ReqQueryString, query);
    UrlStretch(u, query[1..]);
    RunThen(t, [query[0]], query[1..], u);
    assert [query[0]] + query[1..] == query;
    SinglesConcat(UrlData, [query[0]], query[1..]);
    SinglesOne(UrlData, query[0]);
    assert u.out + Singles(UrlData, query[1..]) == t.out + Singles(UrlData, query);
  }

  lemma QueryRun(s: Snapshot, query: seq<Byte>)
    requires s.p.state.ReqPath? && query != [] && StaysIn(ReqQueryString, query)
    requires ParseUrlChar(ReqPath, 63) == ReqQueryStringStart
              && ParseUrlChar(ReqQueryStringStart, query[0]) == ReqQueryString
    requires Room(s.p, |query| + 1)
    ensures Run(s, [63] + query)
              == Snapshot(Later(s.p, |query| + 1).(state := ReqQueryString), s.out + Singles(UrlData, [63] + query))
  {
    hide Run, ByteStep, ParseUrlChar, Singles, StaysIn;
    var t := Snapshot(Counted(s.p).(state := ReqQueryStringStart), s.out + [Data(UrlData, [63])]);
    UrlGoesOn(s.p, 63, ReqQueryStringStart);
    RunOne(s, 63);
    QueryRest(t, query);
    RunThen(s, [63], query, t);
    SinglesConcat(UrlData, [63], query);
    SinglesOne(UrlData, 63);
    assert t.out + Singles(UrlData, query) == s.out + Singles(UrlData, [63] + query);
  }

  /** The URL and the blank after it. */
  lemma UrlRun(s: Snapshot, path: seq<Byte>, query: seq<Byte>)
    requires s.p.state.ReqSpacesBeforeUrl? && s.p.verb != CONNECT
    requires IsPath(path) && IsQuery(query) && Room(s.p, |UrlText(path, query)| + 1)
    ensures var url := UrlText(path, query);
            Run(s, url + [SP]) == Snapshot(Later(s.p, |url| + 1).(state := ReqHttpStart), s.out + Singles(UrlData, url))
  {
    hide Run, ByteStep, StaysIn, ParseUrlChar, IsPath, IsQuery, Singles;
    var url := UrlText(path, query);
    PathChars(path, query);
    PathRun(s, path);
    var t := Run(s, path);
    var u := Run(s, url);
    if query == [] {
      assert url == path;
    } else {
      QueryRun(t, query);
      RunThen(s, path, [63] + query, t);
      SinglesConcat(UrlData, path, [63] + query);
      assert s.out + Singles(UrlData, path) + Singles(UrlData, [63] + query) == s.out + Singles(UrlData, url);
    }
    UrlEnds(u.p);
    RunSnoc(s, url, SP);
    assert u.out + [] == u.out;
  }

  // ---------- the version ----------

  /** The decimal digits of a number, as a stream prints them. */
  function DecDigits(n: nat): (d: seq<Byte>)
    ensures |d| > 0 && forall c :: c in d ==> IsNum(c)
    ensures n > 0 ==> d[0] != 48
  {
    (if n < 10 then [] else DecDigits(n / 10)) + [48 + n % 10]
  }

  /** Reading the printed digits back. */
  lemma {:induction false} DigitsRead(n: nat)
    ensures DecValue(DecDigits(n)) == n
  {
    if n >= 10 {
      DigitsRead(n / 10);
    }
    DecSnoc(if n < 10 then [] else DecDigits(n / 10), 48 + n % 10);
  }

  lemma LineByte(p: Parser, ch: Byte)
    requires Ready(p) && GroupOf(p.state) == GReqLine && DispatchReqLine(Counted(p), ch).next == Break
    ensures ByteStep(p, ch) == Snapshot(DispatchReqLine(Counted(p), ch).p, [])
  {
    DispatchOfReqLine(Counted(p), ch);
    LineDispatch(Counted(p), ch);
    hide Dispatch, ByteStep, DispatchReqLine;
    PlainByte(p, ch);
  }

  lemma LineDispatch(p: Parser, ch: Byte)
    ensures var a := DispatchReqLine(p, ch); a.note.None? && a.mark.None?
    ensures var a := DispatchReqLine(p, ch); GroupOf(p.state) == GReqLine && a.next == Break ==> OpenKind(a.p.state).None?
  {}

  lemma VersionStates()
    ensures GroupOf(ReqFirstHttpMajor) == GReqLine && GroupOf(ReqHttpMajor) == GReqLine
    ensures GroupOf(ReqFirstHttpMinor) == GReqLine && GroupOf(ReqHttpMinor) == GReqLine
  {}

  lemma {:induction false} MajorRun(s: Snapshot, n: nat)
    requires s.p.state.ReqFirstHttpMajor? && 1 <= n <= 999 && Room(s.p, |DecDigits(n)|)
    ensures Run(s, DecDigits(n)) == Snapshot(Later(s.p, |DecDigits(n)|).(state := ReqHttpMajor, httpMajor := n), s.out)
  {
    hide Run, ByteStep, GroupOf;
    var ch := 48 + n % 10;
    var d := if n < 10 then [] else DecDigits(n / 10);
    if n < 10 {
      RunNothing(s);
    } else {
      MajorRun(s, n / 10);
    }
    VersionStates();
    LineByte(Run(s, d).p, ch);
    RunSnoc(s, d, ch);
    assert s.out + [] == s.out;
  }

  lemma {:induction false} MinorRun(s: Snapshot, n: nat)
    requires s.p.state.ReqFirstHttpMinor? && n <= 999 && Room(s.p, |DecDigits(n)|)
    ensures Run(s, DecDigits(n)) == Snapshot(Later(s.p, |DecDigits(n)|).(state := ReqHttpMinor, httpMinor := n), s.out)
  {
    hide Run, ByteStep, GroupOf;
    var ch := 48 + n % 10;
    var d := if n < 10 then [] else DecDigits(n / 10);
    if n < 10 {
      RunNothing(s);
    } else {
      MinorRun(s, n / 10);
    }
    VersionStates();
    LineByte(Run(s, d).p, ch);
    RunSnoc(s, d, ch);
    assert s.out + [] == s.out;
  }

  const HTTP_SLASH: seq<Byte> := [72] + [84] + [84] + [80] + [47]

  /** The states of a request-line tail that wait for one byte: `ch`, which leads to `t`. */
  predicate Awaits(s: State, ch: Byte, t: State) {
    || (s.ReqHttpStart? && ch == 72 && t == ReqHttpH)
    || (s.ReqHttpH? && ch == 84 && t == ReqHttpHT)
    || (s.ReqHttpHT? && ch == 84 && t == ReqHttpHTT)
    || (s.ReqHttpHTT? && ch == 80 && t == ReqHttpHTTP)
    || (s.ReqHttpHTTP? && ch == 47 && t == ReqFirstHttpMajor)
    || (s.ReqHttpMajor? && ch == 46 && t == ReqFirstHttpMinor)
    || (s.ReqHttpMinor? && ch == CR && t == ReqLineAlmostDone)
    || (s.ReqLineAlmostDone? && ch == LF && t == HeaderFieldStart)
  }

  lemma AwaitedByte(p: Parser, ch: Byte, t: State)
    requires Awaits(p.state, ch, t)
    ensures GroupOf(p.state) == GReqLine && DispatchReqLine(p, ch) == Go(p.(state := t))
  {}

  lemma AwaitedStep(p: Parser, ch: Byte, t: State)
    requires Ready(p) && Awaits(p.state, ch, t)
    ensures ByteStep(p, ch) == Snapshot(Counted(p).(state := t), [])
  {
    hide ByteStep, DispatchReqLine, GroupOf, Awaits, Ready;
    AwaitedByte(Counted(p), ch, t);
    LineByte(p, ch);
  }

  /** One more byte of a request-line tail. */
  lemma LineGoesOn(s: Snapshot, d: seq<Byte>, p: Parser, ch: Byte, t: State)
    requires Run(s, d) == Snapshot(p, s.out) && Ready(p) && Awaits(p.state, ch, t)
    ensures Run(s, d + [ch]) == Snapshot(Counted(p).(state := t), s.out)
  {
    hide Run, ByteStep, Awaits, Ready;
    AwaitedStep(p, ch, t);
    RunSnoc(s, d, ch);
    assert s.out + [] == s.out;
  }

  lemma HttpWord(s: Snapshot)
    requires s.p.state.ReqHttpStart? && Room(s.p, 5)
    ensures Run(s, HTTP_SLASH) == Snapshot(Later(s.p, 5).(state := ReqFirstHttpMajor), s.out)
  {
    hide Run, Awaits;
    var p := s.p;
    RunNothing(s);
    HttpWordAwaits();
    LineGoesOn(s, [], p, 72, ReqHttpH);
    assert [] + [72] == [72];
    LineGoesOn(s, [72], Later(p, 1).(state := ReqHttpH), 84, ReqHttpHT);
    LineGoesOn(s, [72] + [84], Later(p, 2).(state := ReqHttpHT), 84, ReqHttpHTT);
    LineGoesOn(s, [72] + [84] + [84], Later(p, 3).(state := ReqHttpHTT), 80, ReqHttpHTTP);
    LineGoesOn(s, [72] + [84] + [84] + [80], Later(p, 4).(state := ReqHttpHTTP), 47, ReqFirstHttpMajor);
  }

  lemma HttpWordAwaits()
    ensures Awaits(ReqHttpStart, 72, ReqHttpH) && Awaits(ReqHttpH, 84, ReqHttpHT) && Awaits(ReqHttpHT, 84, ReqHttpHTT)
    ensures Awaits(ReqHttpHTT, 80, ReqHttpHTTP) && Awaits(ReqHttpHTTP, 47, ReqFirstHttpMajor)
  {}

  /** The version and the end of the request line. */
  function VersionText(major: nat, minor: nat): seq<Byte> {
    HTTP_SLASH + DecDigits(major) + [46] + DecDigits(minor) + [CR] + [LF]
  }

  lemma VersionRun(s: Snapshot, major: nat, minor: nat)
    requires s.p.state.ReqHttpStart? && 1 <= major <= 999 && minor <= 999 && Room(s.p, |VersionText(major, minor)|)
    ensures Run(s, VersionText(major, minor))
         == Snapshot(Later(s.p, |VersionText(major, minor)|).(
              state := HeaderFieldStart, httpMajor := major, httpMinor := minor), s.out)
  {
    hide Run, DecDigits;
    HttpWord(s);
    var d := HTTP_SLASH;
    MajorRun(Run(s, d), major);
    RunThen(s, d, DecDigits(major), Run(s, d));
    d := d + DecDigits(major);
    LineGoesOn(s, d, Run(s, d).p, 46, ReqFirstHttpMinor);
    d := d + [46];
    MinorRun(Run(s, d), minor);
    RunThen(s, d, DecDigits(minor), Run(s, d));
    d := d + DecDigits(minor);
    LineGoesOn(s, d, Run(s, d).p, CR, ReqLineAlmostDone);
    d := d + [CR];
    LineGoesOn(s, d, Run(s, d).p, LF, HeaderFieldStart);
  }
}

/** http_parser_parse_url: cutting a URL into its parts (RFC 3986 section 3). */
module HttpUrl {
  import opened Options
  import opened HttpTypes
  import opened HttpDispatch
  import opened HttpText

  datatype Field = Schema | Userinfo | Host | Port | Path | Query | Fragment

  /** A run of bytes in the buffer, kept by the source in two 16-bit fields. */
  datatype Span = Span(off: nat, len: nat) {
    function End(): nat { off + len }
  }

  const TWO_16: nat := 65536

  function U16(n: nat): nat { n % TWO_16 }

  /** field_data, one span per field. */
  datatype Spans = Spans(schema: Span, host: Span, port: Span, path: Span, query: Span, fragment: Span, userinfo: Span) {
    function At(f: Field): Span {
      match f
      case Schema => schema case Host => host case Port => port case Path => path case Query => query
      case Fragment => fragment case Userinfo => userinfo
    }

    function Put(f: Field, x: Span): Spans {
      match f
      case Schema => this.(schema := x) case Host => this.(host := x) case Port => this.(port := x)
      case Path => this.(path := x) case Query => this.(query := x) case Fragment => this.(fragment := x)
      case Userinfo => this.(userinfo := x)
    }
  }

  /** A zero-initialised field_data. */
  const NO_SPANS := Spans(Span(0, 0), Span(0, 0), Span(0, 0), Span(0, 0), Span(0, 0), Span(0, 0), Span(0, 0))

  // ---------- first pass: schema, server, path, query, fragment ----------

  /** The field a URL state belongs to; the delimiter states belong to none. */
  function FieldOf(s: State): Option<Field> {
    match s
    case ReqSchema => Some(Schema)
    case ReqServer => Some(Host)
    case ReqServerWithAt => Some(Host)
    case ReqPath => Some(Path)
    case ReqQueryString => Some(Query)
    case ReqFragment => Some(Fragment)
    case _ => None
  }

  datatype Scan = Scan(s: State, last: Option<Field>, foundAt: bool, fields: set<Field>, spans: Spans)

  function ScanStart(isConnect: bool): Scan {
    Scan(if isConnect then ReqServerStart else ReqSpacesBeforeUrl, None, false, {}, NO_SPANS)
  }

  /** Counts one more byte at position `i` towards field `f`. */
  function Extend(spans: Spans, f: Field, i: nat, same: bool): Spans
  {
    spans.Put(f, if same then Span(spans.At(f).off, U16(spans.At(f).len + 1)) else Span(U16(i), 1))
  }

  function ScanByte(c: Scan, ch: Byte, i: nat): (d: Scan)
    ensures c.spans.host.End() <= i ==> d.spans.host.End() <= i + 1
  {
    var t := ParseUrlChar(c.s, ch);
    match FieldOf(t)
    case None => c.(s := t)
    case Some(f) =>
      Scan(t, Some(f), c.foundAt || t == ReqServerWithAt, c.fields + {f}, Extend(c.spans, f, i, c.last == Some(f)))
  }

  /** The scan of the first `n` bytes; a dead scan stays dead. */
  function ScanUrl(buf: seq<Byte>, n: nat, isConnect: bool): (c: Scan)
    requires n <= |buf|
    ensures c.spans.host.End() <= n
  {
    if n == 0 then ScanStart(isConnect)
    else
      var c := ScanUrl(buf, n - 1, isConnect);
      if c.s == Dead then c else ScanByte(c, buf[n - 1], n - 1)
  }

  // ---------- second pass: the server part ----------

  datatype HostState = HostDead | UserinfoStart | InUserinfo | HostStart | V6Start | InHost | InV6 | V6End | PortStart | InPort

  /** http_parse_host_char. */
  function ParseHostChar(s: HostState, ch: Byte): HostState {
    match s
    case UserinfoStart => if ch == 64 then HostStart else if IsUserinfoChar(ch) then InUserinfo else HostDead
    case InUserinfo => if ch == 64 then HostStart else if IsUserinfoChar(ch) then InUserinfo else HostDead
    case HostStart => if ch == 91 then V6Start else if IsHostChar(ch) then InHost else HostDead
    case InHost => if IsHostChar(ch) then InHost else if ch == 58 then PortStart else HostDead
    case V6End => if ch == 58 then PortStart else HostDead
    case InV6 => if ch == 93 then V6End else if IsHex(ch) || ch == 58 || ch == 46 then InV6 else HostDead
    case V6Start => if IsHex(ch) || ch == 58 || ch == 46 then InV6 else HostDead
    case InPort => if IsNum(ch) then InPort else HostDead
    case PortStart => if IsNum(ch) then InPort else HostDead
    case HostDead => HostDead
  }

  datatype HostScan = HostScan(s: HostState, fields: set<Field>, spans: Spans)

  function HostByte(c: HostScan, ch: Byte, i: nat): HostScan
  {
    var t := ParseHostChar(c.s, ch);
    match t
    case InHost => HostScan(t, c.fields, GrowHost(c.spans, i, c.s == t))
    case InV6 => HostScan(t, c.fields, GrowHost(c.spans, i, c.s == t))
    case InPort => HostScan(t, c.fields + {Port}, Extend(c.spans, Port, i, c.s == t))
    case InUserinfo => HostScan(t, c.fields + {Userinfo}, Extend(c.spans, Userinfo, i, c.s == t))
    case _ => c.(s := t)
  }

  /** The host span moves to its first byte and is counted on from the length it had. */
  function GrowHost(spans: Spans, i: nat, same: bool): Spans
  {
    spans.(host := Span(if same then spans.host.off else U16(i), U16(spans.host.len + 1)))
  }

  /** The scan of the server bytes from `from` up to `end`. */
  function ScanHost(buf: seq<Byte>, from: nat, end: nat, c: HostScan): HostScan
    requires from <= end <= |buf|
    decreases end
  {
    if end == from then c
    else
      var d := ScanHost(buf, from, end - 1, c);
      if d.s == HostDead then d else HostByte(d, buf[end - 1], end - 1)
  }

  predicate HostEndOk(s: HostState) { s.InHost? || s.V6End? || s.InPort? }

  function HostStartState(foundAt: bool): HostState { if foundAt then UserinfoStart else HostStart }

  // ---------- the result ----------

  datatype Url = Url(fields: set<Field>, spans: Spans, port: nat)

  /** strtoul: the number spelled by the digits from position `i` on. */
  function DigitsFrom(buf: seq<Byte>, i: nat): seq<Byte>
    decreases |buf| - i
  {
    if i < |buf| && IsNum(buf[i]) then [buf[i]] + DigitsFrom(buf, i + 1) else []
  }

  /** What http_parser_parse_url computes from a zero-initialised result; None when it returns 1. */
  function UrlOf(buf: seq<Byte>, isConnect: bool): Option<Url> {
    var c := ScanUrl(buf, |buf|, isConnect);
    if c.s == Dead then None
    else if Schema in c.fields || Host in c.fields then
      var h := c.spans.host;
      var d := ScanHost(buf, h.off, h.End(), HostOf(c));
      if !HostEndOk(d.s) then None else WithPort(buf, isConnect, d.fields, d.spans)
    else WithPort(buf, isConnect, c.fields, c.spans)
  }

  /** Where the second pass starts: the length of the host is cleared. */
  function HostOf(c: Scan): HostScan {
    HostScan(HostStartState(c.foundAt), c.fields, c.spans.(host := Span(c.spans.host.off, 0)))
  }

  function WithPort(buf: seq<Byte>, isConnect: bool, fields: set<Field>, spans: Spans): Option<Url>
  {
    if isConnect && fields != {Host, Port} then None
    else if Port in fields then
      var v := DecValue(DigitsFrom(buf, spans.port.off));
      if v > 0xffff then None else Some(Url(fields, spans, v))
    else Some(Url(fields, spans, 0))
  }

  /** What http_parser_parse_url leaves in a zero-initialised record, whether it returns 0 or 1. */
  function Recorded(buf: seq<Byte>, isConnect: bool): Url {
    var c := ScanUrl(buf, |buf|, isConnect);
    if c.s != Dead && (Schema in c.fields || Host in c.fields) then
      var h := c.spans.host;
      var d := ScanHost(buf, h.off, h.End(), HostOf(c));
      if HostEndOk(d.s) then RecordedPort(buf, isConnect, d.fields, d.spans) else Url(d.fields, d.spans, 0)
    else if c.s != Dead then RecordedPort(buf, isConnect, c.fields, c.spans)
    else Url(c.fields, c.spans, 0)
  }

  function RecordedPort(buf: seq<Byte>, isConnect: bool, fields: set<Field>, spans: Spans): Url {
    match WithPort(buf, isConnect, fields, spans)
    case Some(u) => u
    case None => Url(fields, spans, 0)
  }

  /** On success the record is the result. */
  lemma RecordedIsResult(buf: seq<Byte>, isConnect: bool)
    requires UrlOf(buf, isConnect).Some?
    ensures Recorded(buf, isConnect) == UrlOf(buf, isConnect).value
  {
    hide ScanUrl, ScanHost, WithPort, HostOf;
  }

  predicate InBounds(spans: Spans, n: nat) { forall f: Field :: spans.At(f).End() <= n }

  lemma PutInBounds(spans: Spans, f: Field, x: Span, n: nat)
    requires InBounds(spans, n) && x.End() <= n + 1
    ensures InBounds(spans.Put(f, x), n + 1)
  {
    hide Spans.At, Spans.Put;
    PutAt(spans, f, x);
    forall g: Field ensures spans.Put(f, x).At(g).End() <= n + 1 {
      assert spans.At(g).End() <= n;
    }
  }

  lemma ByteInBounds(c: Scan, ch: Byte, i: nat)
    requires InBounds(c.spans, i)
    ensures InBounds(ScanByte(c, ch, i).spans, i + 1)
  {
    hide ParseUrlChar, FieldOf, Spans.At, Spans.Put;
    var t := ParseUrlChar(c.s, ch);
    if FieldOf(t).Some? {
      var f := FieldOf(t).value;
      var y := c.spans.At(f);
      assert y.End() <= i;
      PutInBounds(c.spans, f, if c.last == Some(f) then Span(y.off, U16(y.len + 1)) else Span(U16(i), 1), i);
    } else {
      forall g: Field ensures c.spans.At(g).End() <= i + 1 {
        assert c.spans.At(g).End() <= i;
      }
    }
  }

  lemma {:induction false} ScanInBounds(buf: seq<Byte>, n: nat, isConnect: bool)
    requires n <= |buf|
    ensures InBounds(ScanUrl(buf, n, isConnect).spans, n)
  {
    hide ScanByte, InBounds;
    if n == 0 {
      NoneInBounds();
    } else {
      ScanInBounds(buf, n - 1, isConnect);
      var c := ScanUrl(buf, n - 1, isConnect);
      ByteInBounds(c, buf[n - 1], n - 1);
      MoreBounds(c.spans, n - 1, n);
    }
  }

  lemma NoneInBounds()
    ensures InBounds(NO_SPANS, 0)
  {}

  lemma MoreBounds(spans: Spans, m: nat, n: nat)
    requires InBounds(spans, m) && m <= n
    ensures InBounds(spans, n)
  {
    hide Spans.At;
    forall f: Field ensures spans.At(f).End() <= n {
      assert spans.At(f).End() <= m;
    }
  }

  /** The parts that the second pass writes end where it has got to. */
  predicate ServerInBounds(c: HostScan, n: nat) {
    && c.spans.host.End() <= n
    && (c.s.InPort? ==> c.spans.port.End() <= n)
    && (c.s.InUserinfo? ==> c.spans.userinfo.End() <= n)
    && (c.s.UserinfoStart? || c.s.InUserinfo? || c.s.HostStart? || c.s.V6Start? ==> c.spans.host.len == 0)
  }

  lemma {:induction false} ServerScanInBounds(buf: seq<Byte>, from: nat, end: nat, c: HostScan)
    requires from <= end <= |buf| && InBounds(c.spans, |buf|)
    requires c.spans.host == Span(from, 0) && !c.s.InPort? && !c.s.InUserinfo?
    ensures InBounds(ScanHost(buf, from, end, c).spans, |buf|) && ServerInBounds(ScanHost(buf, from, end, c), end)
    decreases end
  {
    hide InBounds, HostByte, ServerInBounds;
    if end > from {
      ServerScanInBounds(buf, from, end - 1, c);
      var d := ScanHost(buf, from, end - 1, c);
      if d.s != HostDead {
        HostByteInBounds(d, buf[end - 1], end - 1, |buf|);
      } else {
        StillInBounds(d, end - 1);
      }
    } else {
      assert ServerInBounds(c, from) by { StartInBounds(c, from); }
    }
  }

  lemma StartInBounds(c: HostScan, n: nat)
    requires c.spans.host == Span(n, 0) && !c.s.InPort? && !c.s.InUserinfo?
    ensures ServerInBounds(c, n)
  {}

  lemma StillInBounds(c: HostScan, n: nat)
    requires ServerInBounds(c, n)
    ensures ServerInBounds(c, n + 1)
  {}

  lemma ServerByteInBounds(c: HostScan, ch: Byte, i: nat)
    requires ServerInBounds(c, i)
    ensures ServerInBounds(HostByte(c, ch, i), i + 1)
  {
    hide IsUserinfoChar, IsHostChar, IsHex;
  }

  /** Only the parts of the server change, and those that do end at the byte just read. */
  lemma HostByteWrites(c: HostScan, ch: Byte, i: nat)
    ensures var d := HostByte(c, ch, i);
            && SameOthers(c.spans, d.spans)
            && (d.s.InPort? || d.spans.port == c.spans.port) && (d.s.InUserinfo? || d.spans.userinfo == c.spans.userinfo)
  {
    hide ParseHostChar, U16;
  }

  lemma HostByteInBounds(c: HostScan, ch: Byte, i: nat, n: nat)
    requires i < n && InBounds(c.spans, n) && ServerInBounds(c, i)
    ensures InBounds(HostByte(c, ch, i).spans, n) && ServerInBounds(HostByte(c, ch, i), i + 1)
  {
    hide HostByte;
    ServerByteInBounds(c, ch, i);
    HostByteWrites(c, ch, i);
    var d := HostByte(c, ch, i);
    forall f: Field ensures d.spans.At(f).End() <= n {
      assert c.spans.At(f).End() <= n;
    }
  }

  /** Every part in the record lies in the buffer, whatever the outcome. */
  lemma RecordedInBounds(buf: seq<Byte>, isConnect: bool)
    ensures InBounds(Recorded(buf, isConnect).spans, |buf|)
    ensures var t := Recorded(buf, isConnect).spans;
            t.host.End() <= |buf| && t.path.End() <= |buf| && t.query.End() <= |buf|
  {
    hide ScanUrl, ScanHost, InBounds, DecValue, DigitsFrom;
    var c := ScanUrl(buf, |buf|, isConnect);
    ScanInBounds(buf, |buf|, isConnect);
    if Schema in c.fields || Host in c.fields {
      HostInBounds(c.spans, |buf|);
      ServerScanInBounds(buf, c.spans.host.off, c.spans.host.End(), HostOf(c));
    }
    SomeInBounds(Recorded(buf, isConnect).spans, |buf|);
  }

  lemma SomeInBounds(spans: Spans, n: nat)
    requires InBounds(spans, n)
    ensures spans.host.End() <= n && spans.path.End() <= n && spans.query.End() <= n
  {
    assert spans.At(Host).End() <= n && spans.At(Path).End() <= n && spans.At(Query).End() <= n;
  }

  lemma HostInBounds(spans: Spans, n: nat)
    requires InBounds(spans, n)
    ensures spans.host.End() <= n && InBounds(spans.(host := Span(spans.host.off, 0)), n)
  {
    assert spans.At(Host).End() <= n;
    forall f: Field ensures spans.(host := Span(spans.host.off, 0)).At(f).End() <= n {
      assert spans.At(f).End() <= n;
    }
  }

  // ---------- the first pass lays the fields out in order ----------

  /** The order of the parts in a URL. */
  function Rank(f: Field): nat {
    match f
    case Schema => 0 case Userinfo => 1 case Host => 2 case Port => 3 case Path => 4 case Query => 5 case Fragment => 6
  }

  function StateRank(s: State): nat {
    match s
    case ReqSchemaSlash => 1 case ReqSchemaSlashSlash => 1
    case ReqServerStart => 2 case ReqServer => 2 case ReqServerWithAt => 2
    case ReqPath => 4
    case ReqQueryStringStart => 5 case ReqQueryString => 5
    case ReqFragmentStart => 6 case ReqFragment => 6
    case _ => 0
  }

  lemma UrlMovesOn(s: State, ch: Byte)
    ensures var t := ParseUrlChar(s, ch);
            t == Dead ||
            (&& StateRank(s) <= StateRank(t)
             && FieldOf(t) != Some(Port) && FieldOf(t) != Some(Userinfo)
             && (FieldOf(t).Some? ==> Rank(FieldOf(t).value) == StateRank(t))
             && (FieldOf(t).None? && FieldOf(s).Some? ==> StateRank(s) < StateRank(t))
             && (FieldOf(s) == Some(Host) && FieldOf(t) != Some(Host) ==> !IsNum(ch)))
  {}

  /** The fields are non-empty, lie before `n` and follow each other in the order of a URL. */
  predicate Laid(fields: set<Field>, spans: Spans, n: nat) {
    && (forall f | f in fields :: spans.At(f).len > 0 && spans.At(f).End() <= n)
    && (forall f, g | f in fields && g in fields && Rank(f) < Rank(g) :: spans.At(f).End() <= spans.At(g).off)
  }

  predicate AllUpTo(fields: set<Field>, r: nat) { forall g | g in fields :: Rank(g) <= r }

  predicate AllBelow(fields: set<Field>, r: nat) { forall g | g in fields :: Rank(g) < r }

  lemma PutAt(spans: Spans, f: Field, x: Span)
    ensures spans.Put(f, x).At(f) == x
    ensures forall g | g != f :: spans.Put(f, x).At(g) == spans.At(g)
    ensures f != Host ==> spans.Put(f, x).host == spans.host
  {}

  lemma HostAt(spans: Spans)
    ensures spans.At(Host) == spans.host
  {}

  lemma NoWrap(n: nat)
    requires n < TWO_16
    ensures U16(n) == n
  {}

  lemma LaidGrows(fields: set<Field>, spans: Spans, f: Field, n: nat)
    requires Laid(fields, spans, n) && f in fields && spans.At(f).End() == n && AllUpTo(fields, Rank(f))
    ensures Laid(fields, spans.Put(f, Span(spans.At(f).off, spans.At(f).len + 1)), n + 1)
  {
    PutAt(spans, f, Span(spans.At(f).off, spans.At(f).len + 1));
    hide Spans.At, Spans.Put, Rank;
  }

  lemma LaidNew(fields: set<Field>, spans: Spans, f: Field, n: nat)
    requires Laid(fields, spans, n) && AllBelow(fields, Rank(f))
    ensures Laid(fields + {f}, spans.Put(f, Span(n, 1)), n + 1)
    ensures AllUpTo(fields + {f}, Rank(f))
  {
    PutAt(spans, f, Span(n, 1));
    hide Spans.At, Spans.Put, Rank;
  }

  /** Where the bytes of the server part end, when the scan is past them. */
  predicate ServerOver(c: Scan, buf: seq<Byte>, i: nat)
    requires i <= |buf|
  {
    Host in c.fields && FieldOf(c.s) != Some(Host) ==> c.spans.host.End() < i && !IsNum(buf[c.spans.host.End()])
  }

  predicate FirstPassOk(c: Scan, buf: seq<Byte>, i: nat)
    requires i <= |buf|
  {
    && Port !in c.fields && Userinfo !in c.fields
    && (Host !in c.fields ==> c.spans.host == Span(0, 0))
    && Laid(c.fields, c.spans, i)
    && (c.last.Some? ==> c.last.value in c.fields)
    && (match FieldOf(c.s)
        case Some(f) =>
          && c.last == Some(f) && c.spans.At(f).End() == i
          && Rank(f) == StateRank(c.s) && AllUpTo(c.fields, Rank(f))
        case None => AllBelow(c.fields, StateRank(c.s)))
    && ServerOver(c, buf, i)
  }

  /** The next byte is a delimiter. */
  lemma StepDelimiter(c: Scan, buf: seq<Byte>, i: nat)
    requires i < |buf| && FirstPassOk(c, buf, i)
    requires ParseUrlChar(c.s, buf[i]) != Dead && FieldOf(ParseUrlChar(c.s, buf[i])).None?
    ensures FirstPassOk(ScanByte(c, buf[i], i), buf, i + 1)
  {
    UrlMovesOn(c.s, buf[i]);
    HostAt(c.spans);
    hide ParseUrlChar, Rank, StateRank, FieldOf, Spans.At, Spans.Put;
  }

  /** The next byte belongs to the field of the byte before. */
  lemma StepSame(c: Scan, buf: seq<Byte>, i: nat, f: Field)
    requires i < |buf| < TWO_16 && FirstPassOk(c, buf, i)
    requires ParseUrlChar(c.s, buf[i]) != Dead && FieldOf(ParseUrlChar(c.s, buf[i])) == Some(f) && FieldOf(c.s) == Some(f)
    ensures FirstPassOk(ScanByte(c, buf[i], i), buf, i + 1)
  {
    hide ParseUrlChar, Rank, StateRank, FieldOf, Spans.At, Spans.Put, Laid, U16;
    var x := c.spans.At(f);
    UrlMovesOn(c.s, buf[i]);
    LaidGrows(c.fields, c.spans, f, i);
    NoWrap(x.len + 1);
    PutAt(c.spans, f, Span(x.off, x.len + 1));
    HostAt(c.spans);
    assert c.fields + {f} == c.fields;
  }

  /** The next byte begins a field. */
  lemma StepNew(c: Scan, buf: seq<Byte>, i: nat, f: Field)
    requires i < |buf| < TWO_16 && FirstPassOk(c, buf, i)
    requires ParseUrlChar(c.s, buf[i]) != Dead && FieldOf(ParseUrlChar(c.s, buf[i])) == Some(f) && FieldOf(c.s) != Some(f)
    ensures FirstPassOk(ScanByte(c, buf[i], i), buf, i + 1)
  {
    hide ParseUrlChar, Rank, StateRank, FieldOf, Spans.At, Spans.Put, Laid, U16, ScanByte, AllBelow;
    UrlMovesOn(c.s, buf[i]);
    BelowNext(c, f);
    LaidNew(c.fields, c.spans, f, i);
    HostAt(c.spans);
    PutAt(c.spans, f, Span(i, 1));
    ByteNew(c, buf[i], i, f);
    var d := ScanByte(c, buf[i], i);
    assert FieldOf(d.s) == Some(f) && d.spans.At(f).End() == i + 1;
    assert ServerOver(d, buf, i + 1);
  }

  lemma ByteNew(c: Scan, ch: Byte, i: nat, f: Field)
    requires FieldOf(ParseUrlChar(c.s, ch)) == Some(f) && c.last != Some(f) && i < TWO_16
    ensures var d := ScanByte(c, ch, i);
            && d.s == ParseUrlChar(c.s, ch) && d.last == Some(f)
            && d.fields == c.fields + {f} && d.spans == c.spans.Put(f, Span(i, 1))
  {
    hide ParseUrlChar, FieldOf, Spans.At, Spans.Put, U16;
    NoWrap(i);
  }

  lemma BelowNext(c: Scan, f: Field)
    requires match FieldOf(c.s)
             case Some(g) => AllUpTo(c.fields, Rank(g)) && Rank(g) == StateRank(c.s) && g != f
             case None => AllBelow(c.fields, StateRank(c.s))
    requires StateRank(c.s) <= Rank(f)
    ensures AllBelow(c.fields, Rank(f)) && f !in c.fields
  {
    if FieldOf(c.s).Some? {
      RankApart(FieldOf(c.s).value, f);
    }
    hide Rank, StateRank, FieldOf;
  }

  lemma RankApart(f: Field, g: Field)
    ensures Rank(f) == Rank(g) ==> f == g
  {}

  lemma {:induction false} FirstPass(buf: seq<Byte>, n: nat, isConnect: bool)
    requires n <= |buf| < TWO_16
    ensures var c := ScanUrl(buf, n, isConnect); c.s == Dead || FirstPassOk(c, buf, n)
  {
    hide FirstPassOk, ParseUrlChar, FieldOf, NO_SPANS, ScanStart;
    if n == 0 {
      StartOk(buf, isConnect, ScanStart(isConnect));
    } else {
      FirstPass(buf, n - 1, isConnect);
      var c := ScanUrl(buf, n - 1, isConnect);
      if c.s != Dead {
        var t := ParseUrlChar(c.s, buf[n - 1]);
        if t == Dead {
          DeadIsNoField();
        } else if FieldOf(t).None? {
          StepDelimiter(c, buf, n - 1);
        } else if FieldOf(t) == FieldOf(c.s) {
          StepSame(c, buf, n - 1, FieldOf(t).value);
        } else {
          StepNew(c, buf, n - 1, FieldOf(t).value);
        }
      }
    }
  }

  lemma StartOk(buf: seq<Byte>, isConnect: bool, c: Scan)
    requires c == ScanStart(isConnect)
    ensures FirstPassOk(c, buf, 0)
  {}

  lemma DeadIsNoField()
    ensures FieldOf(Dead).None?
  {}

  // ---------- the second pass stays inside the server part ----------

  predicate AllDigits(buf: seq<Byte>, x: Span) {
    x.End() <= |buf| && forall k :: x.off <= k < x.End() ==> IsNum(buf[k])
  }

  /** The spans the second pass does not touch. */
  predicate SameOthers(a: Spans, b: Spans) {
    a.schema == b.schema && a.path == b.path && a.query == b.query && a.fragment == b.fragment
  }

  /** User information, when found, lies in the server part and before `n`. */
  predicate UserBefore(c: HostScan, from: nat, n: nat) {
    Userinfo in c.fields ==> from <= c.spans.userinfo.off && c.spans.userinfo.len > 0 && c.spans.userinfo.End() <= n
  }

  /** The host has been found, between the user information and `n`. */
  predicate HostFound(c: HostScan, from: nat, n: nat) {
    && c.spans.host.len > 0 && from <= c.spans.host.off && c.spans.host.End() <= n
    && UserBefore(c, from, c.spans.host.off)
  }

  /** What is known after the server bytes from `from` up to `i`, having started from `c0`. */
  predicate SecondPassOk(c0: HostScan, c: HostScan, buf: seq<Byte>, from: nat, i: nat) {
    && SameOthers(c.spans, c0.spans)
    && c0.fields <= c.fields <= c0.fields + {Userinfo, Port}
    && (!c.s.InPort? ==> Port !in c.fields)
    && match c.s
       case UserinfoStart => i == from && c.spans.host.len == 0 && Userinfo !in c.fields
       case InUserinfo =>
         && c.spans.host.len == 0 && Userinfo in c.fields
         && UserBefore(c, from, i) && c.spans.userinfo.End() == i
       case HostStart => c.spans.host.len == 0 && UserBefore(c, from, i)
       case V6Start => c.spans.host.len == 0 && UserBefore(c, from, i)
       case InHost => HostFound(c, from, i) && c.spans.host.End() == i
       case InV6 => HostFound(c, from, i) && c.spans.host.End() == i
       case V6End => HostFound(c, from, i)
       case PortStart => HostFound(c, from, i)
       case InPort =>
         && Port in c.fields && c.spans.port.len > 0 && c.spans.port.End() == i && AllDigits(buf, c.spans.port)
         && HostFound(c, from, c.spans.port.off)
       case HostDead => true
  }

  lemma SecondPassStep(c0: HostScan, c: HostScan, buf: seq<Byte>, from: nat, i: nat)
    requires from <= i < |buf| < TWO_16 && SecondPassOk(c0, c, buf, from, i)
    requires ParseHostChar(c.s, buf[i]) != HostDead
    ensures SecondPassOk(c0, HostByte(c, buf[i], i), buf, from, i + 1)
  {
    NoWrap(i);
    NoWrap(1);
    match c.s {
      case InHost => NoWrap(c.spans.host.len + 1);
      case InV6 => NoWrap(c.spans.host.len + 1);
      case InPort => NoWrap(c.spans.port.len + 1);
      case InUserinfo => NoWrap(c.spans.userinfo.len + 1);
      case _ =>
    }
    hide U16, IsUserinfoChar, IsHostChar, IsHex;
  }

  lemma {:induction false} SecondPass(c0: HostScan, buf: seq<Byte>, from: nat, end: nat)
    requires from <= end <= |buf| < TWO_16 && SecondPassOk(c0, c0, buf, from, from)
    ensures var c := ScanHost(buf, from, end, c0); c.s == HostDead || SecondPassOk(c0, c, buf, from, end)
    decreases end
  {
    if end > from {
      SecondPass(c0, buf, from, end - 1);
      var c := ScanHost(buf, from, end - 1, c0);
      hide SecondPassOk, ParseHostChar;
      if c.s != HostDead && ParseHostChar(c.s, buf[end - 1]) != HostDead {
        SecondPassStep(c0, c, buf, from, end - 1);
      }
    }
  }

  // ---------- the decomposition ----------

  lemma {:induction false} DigitsRun(buf: seq<Byte>, i: nat, j: nat)
    requires i <= j <= |buf| && (forall k :: i <= k < j ==> IsNum(buf[k])) && (j == |buf| || !IsNum(buf[j]))
    ensures DigitsFrom(buf, i) == buf[i..j]
    decreases j - i
  {
    if i < j {
      DigitsRun(buf, i + 1, j);
      assert buf[i..j] == [buf[i]] + buf[i + 1..j];
    }
  }

  lemma SecondPassBegins(c: Scan, buf: seq<Byte>)
    requires Port !in c.fields && Userinfo !in c.fields
    ensures SecondPassOk(HostOf(c), HostOf(c), buf, c.spans.host.off, c.spans.host.off)
  {}

  lemma NoHostFails(c: Scan, buf: seq<Byte>)
    requires c.spans.host == Span(0, 0)
    ensures !HostEndOk(ScanHost(buf, 0, 0, HostOf(c)).s)
  {}

  /** The two passes together, when the URL has a server part. */
  lemma ServerParts(c: Scan, buf: seq<Byte>)
    requires |buf| < TWO_16 && FirstPassOk(c, buf, |buf|) && c.spans.host.End() <= |buf|
    requires HostEndOk(ScanHost(buf, c.spans.host.off, c.spans.host.End(), HostOf(c)).s)
    ensures Host in c.fields
    ensures SecondPassOk(HostOf(c), ScanHost(buf, c.spans.host.off, c.spans.host.End(), HostOf(c)), buf,
                         c.spans.host.off, c.spans.host.End())
  {
    hide SecondPassOk, ScanHost, HostOf, Laid;
    SecondPassBegins(c, buf);
    SecondPass(HostOf(c), buf, c.spans.host.off, c.spans.host.End());
    if c.spans.host == Span(0, 0) {
      NoHostFails(c, buf);
    }
  }

  // ---------- nothing but delimiters is left out ----------

  /** The bytes that separate the parts of a URL: ":/?#@[]". */
  predicate IsDelimiter(ch: Byte) {
    ch == 58 || ch == 47 || ch == 63 || ch == 35 || ch == 64 || ch == 91 || ch == 93
  }

  predicate Holds(x: Span, k: nat) { x.off <= k < x.End() }

  predicate InField(fields: set<Field>, spans: Spans, k: nat) {
    exists f | f in fields :: Holds(spans.At(f), k)
  }

  /** Every byte before `n` belongs to a part or is a delimiter. */
  predicate Covered(fields: set<Field>, spans: Spans, buf: seq<Byte>, n: nat)
    requires n <= |buf|
  {
    forall k | 0 <= k < n :: IsDelimiter(buf[k]) || InField(fields, spans, k)
  }

  lemma NoFieldIsDelimiter(s: State, ch: Byte)
    requires ParseUrlChar(s, ch) != Dead && FieldOf(ParseUrlChar(s, ch)).None?
    ensures IsDelimiter(ch)
  {}

  lemma StaysCovered(fields: set<Field>, spans: Spans, buf: seq<Byte>, n: nat, f: Field, x: Span)
    requires n < |buf| && Covered(fields, spans, buf, n) && Holds(x, n)
    requires f in fields ==> x.off == spans.At(f).off && spans.At(f).len <= x.len
    ensures Covered(fields + {f}, spans.Put(f, x), buf, n + 1)
  {
    hide Spans.At, Spans.Put, IsDelimiter;
    PutAt(spans, f, x);
    var t := spans.Put(f, x);
    forall k | 0 <= k < n + 1 ensures IsDelimiter(buf[k]) || InField(fields + {f}, t, k) {
      if k == n {
        assert Holds(t.At(f), k);
      } else if InField(fields, spans, k) {
        var g :| g in fields && Holds(spans.At(g), k);
        assert Holds(t.At(g), k);
      }
    }
  }

  lemma CoverByte(c: Scan, buf: seq<Byte>, i: nat)
    requires i < |buf| < TWO_16 && FirstPassOk(c, buf, i) && Covered(c.fields, c.spans, buf, i)
    requires ParseUrlChar(c.s, buf[i]) != Dead
    ensures Covered(ScanByte(c, buf[i], i).fields, ScanByte(c, buf[i], i).spans, buf, i + 1)
  {
    hide ParseUrlChar, Rank, StateRank, FieldOf, Spans.At, Spans.Put, Laid, U16, IsDelimiter, InField;
    var t := ParseUrlChar(c.s, buf[i]);
    if FieldOf(t).None? {
      NoFieldIsDelimiter(c.s, buf[i]);
    } else {
      var f := FieldOf(t).value;
      if FieldOf(c.s) == Some(f) {
        var x := c.spans.At(f);
        NoWrap(x.len + 1);
        StaysCovered(c.fields, c.spans, buf, i, f, Span(x.off, x.len + 1));
      } else {
        UrlMovesOn(c.s, buf[i]);
        BelowNext(c, f);
        ByteNew(c, buf[i], i, f);
        StaysCovered(c.fields, c.spans, buf, i, f, Span(i, 1));
      }
    }
  }

  lemma {:induction false} FirstCovers(buf: seq<Byte>, n: nat, isConnect: bool)
    requires n <= |buf| < TWO_16
    ensures var c := ScanUrl(buf, n, isConnect); c.s == Dead || Covered(c.fields, c.spans, buf, n)
  {
    hide FirstPassOk, ParseUrlChar, NO_SPANS, ScanStart, Covered, ScanByte;
    if n == 0 {
      NothingCovered(ScanUrl(buf, 0, isConnect), buf);
    } else {
      FirstCovers(buf, n - 1, isConnect);
      FirstPass(buf, n - 1, isConnect);
      var c := ScanUrl(buf, n - 1, isConnect);
      if c.s != Dead && ParseUrlChar(c.s, buf[n - 1]) != Dead {
        CoverByte(c, buf, n - 1);
      } else if c.s != Dead {
        DeadByte(c, buf[n - 1], n - 1);
      }
    }
  }

  lemma NothingCovered(c: Scan, buf: seq<Byte>)
    ensures Covered(c.fields, c.spans, buf, 0)
  {}

  lemma DeadByte(c: Scan, ch: Byte, i: nat)
    requires ParseUrlChar(c.s, ch) == Dead
    ensures ScanByte(c, ch, i).s == Dead
  {
    hide ParseUrlChar, Spans.Put, Spans.At;
    DeadIsNoField();
  }

  /** The parts of the server found by the second pass. */
  predicate InServer(c: HostScan, k: nat) {
    || (Userinfo in c.fields && Holds(c.spans.userinfo, k))
    || Holds(c.spans.host, k)
    || (Port in c.fields && Holds(c.spans.port, k))
  }

  predicate ServerCovered(c: HostScan, buf: seq<Byte>, from: nat, n: nat)
    requires n <= |buf|
  {
    forall k | from <= k < n :: IsDelimiter(buf[k]) || InServer(c, k)
  }

  lemma HostDelimiters(s: HostState, ch: Byte)
    ensures var t := ParseHostChar(s, ch);
            t.HostDead? || t.InHost? || t.InV6? || t.InPort? || t.InUserinfo? || IsDelimiter(ch)
  {}

  /** Where the part comes from that the next byte belongs to. */
  lemma HostMoves(s: HostState, ch: Byte)
    ensures var t := ParseHostChar(s, ch);
            && (t.InHost? ==> s.InHost? || s.HostStart?)
            && (t.InV6? ==> s.InV6? || s.V6Start?)
            && (t.InPort? ==> s.InPort? || s.PortStart?)
            && (t.InUserinfo? ==> s.InUserinfo? || s.UserinfoStart?)
  {}

  /** What was covered stays so, and the byte at `i` is a delimiter or belongs to a part. */
  predicate Grows(c: HostScan, d: HostScan, ch: Byte, from: nat, i: nat) {
    && (forall k: nat | from <= k < i && InServer(c, k) :: InServer(d, k))
    && (IsDelimiter(ch) || InServer(d, i))
  }

  lemma GrowsHost(c: HostScan, ch: Byte, from: nat, i: nat)
    requires i + 1 < TWO_16 && ServerInBounds(c, i)
    requires ParseHostChar(c.s, ch).InHost? || ParseHostChar(c.s, ch).InV6?
    requires c.s == ParseHostChar(c.s, ch) ==> c.spans.host.End() == i
    ensures Grows(c, HostByte(c, ch, i), ch, from, i)
  {
    HostMoves(c.s, ch);
    hide ParseHostChar, U16, IsDelimiter;
    NoWrap(i);
    NoWrap(c.spans.host.len + 1);
  }

  lemma GrowsPort(c: HostScan, ch: Byte, from: nat, i: nat)
    requires i + 1 < TWO_16 && ParseHostChar(c.s, ch).InPort?
    requires if c.s.InPort? then c.spans.port.End() == i else Port !in c.fields
    ensures Grows(c, HostByte(c, ch, i), ch, from, i)
  {
    hide ParseHostChar, U16, IsDelimiter;
    NoWrap(i);
    if c.s.InPort? {
      NoWrap(c.spans.port.len + 1);
    }
  }

  lemma GrowsUserinfo(c: HostScan, ch: Byte, from: nat, i: nat)
    requires i + 1 < TWO_16 && ParseHostChar(c.s, ch).InUserinfo?
    requires if c.s.InUserinfo? then c.spans.userinfo.End() == i else Userinfo !in c.fields
    ensures Grows(c, HostByte(c, ch, i), ch, from, i)
  {
    hide ParseHostChar, U16, IsDelimiter;
    NoWrap(i);
    if c.s.InUserinfo? {
      NoWrap(c.spans.userinfo.len + 1);
    }
  }

  lemma GrowsPast(c: HostScan, ch: Byte, from: nat, i: nat)
    requires var t := ParseHostChar(c.s, ch); !(t.HostDead? || t.InHost? || t.InV6? || t.InPort? || t.InUserinfo?)
    ensures Grows(c, HostByte(c, ch, i), ch, from, i)
  {
    HostDelimiters(c.s, ch);
    hide ParseHostChar, IsDelimiter;
  }

  lemma CoverHostByte(c0: HostScan, c: HostScan, buf: seq<Byte>, from: nat, i: nat)
    requires from <= i < |buf| < TWO_16 && SecondPassOk(c0, c, buf, from, i) && ServerCovered(c, buf, from, i)
    requires Port !in c0.fields && Userinfo !in c0.fields && ServerInBounds(c, i)
    requires ParseHostChar(c.s, buf[i]) != HostDead
    ensures ServerCovered(HostByte(c, buf[i], i), buf, from, i + 1)
  {
    hide ParseHostChar, HostByte, IsDelimiter, AllDigits, SameOthers, InServer, Grows;
    HostMoves(c.s, buf[i]);
    var t := ParseHostChar(c.s, buf[i]);
    if t.InHost? || t.InV6? {
      GrowsHost(c, buf[i], from, i);
    } else if t.InPort? {
      GrowsPort(c, buf[i], from, i);
    } else if t.InUserinfo? {
      GrowsUserinfo(c, buf[i], from, i);
    } else {
      GrowsPast(c, buf[i], from, i);
    }
    StaysServed(c, HostByte(c, buf[i], i), buf, from, i);
  }

  lemma StaysServed(c: HostScan, d: HostScan, buf: seq<Byte>, from: nat, i: nat)
    requires i < |buf| && ServerCovered(c, buf, from, i) && Grows(c, d, buf[i], from, i)
    ensures ServerCovered(d, buf, from, i + 1)
  {
    hide IsDelimiter, InServer;
    forall k | from <= k < i + 1 ensures IsDelimiter(buf[k]) || InServer(d, k) {
      if k < i {
        assert IsDelimiter(buf[k]) || InServer(c, k);
      }
    }
  }

  lemma {:induction false} SecondCovers(c0: HostScan, buf: seq<Byte>, from: nat, end: nat)
    requires from <= end <= |buf| < TWO_16 && SecondPassOk(c0, c0, buf, from, from)
    requires Port !in c0.fields && Userinfo !in c0.fields && InBounds(c0.spans, |buf|)
    requires c0.spans.host == Span(from, 0) && !c0.s.InPort? && !c0.s.InUserinfo?
    ensures var c := ScanHost(buf, from, end, c0); c.s == HostDead || ServerCovered(c, buf, from, end)
    decreases end
  {
    hide SecondPassOk, ParseHostChar, ServerCovered, InBounds, ServerInBounds;
    if end > from {
      SecondCovers(c0, buf, from, end - 1);
      SecondPass(c0, buf, from, end - 1);
      ServerScanInBounds(buf, from, end - 1, c0);
      var c := ScanHost(buf, from, end - 1, c0);
      if c.s != HostDead && ParseHostChar(c.s, buf[end - 1]) != HostDead {
        CoverHostByte(c0, c, buf, from, end - 1);
      }
    } else {
      NoServerBytes(c0, buf, from);
    }
  }

  lemma NoServerBytes(c: HostScan, buf: seq<Byte>, from: nat)
    requires from <= |buf|
    ensures ServerCovered(c, buf, from, from)
  {}

  /** The two passes together leave nothing out. */
  lemma AllCovered(c: Scan, d: HostScan, buf: seq<Byte>)
    requires FirstPassOk(c, buf, |buf|) && Host in c.fields && Covered(c.fields, c.spans, buf, |buf|)
    requires SecondPassOk(HostOf(c), d, buf, c.spans.host.off, c.spans.host.End()) && c.spans.host.End() <= |buf|
    requires ServerCovered(d, buf, c.spans.host.off, c.spans.host.End())
    ensures Covered(d.fields, d.spans, buf, |buf|)
  {
    hide IsDelimiter, Rank, StateRank, FieldOf, Laid, AllDigits;
    HostAt(c.spans);
    forall k | 0 <= k < |buf| && !IsDelimiter(buf[k]) ensures InField(d.fields, d.spans, k) {
      var f :| f in c.fields && Holds(c.spans.At(f), k);
      if f == Host {
        assert InServer(d, k);
        ServerIsField(d, k);
      } else {
        assert d.spans.At(f) == c.spans.At(f);
      }
    }
  }

  lemma ServerIsField(d: HostScan, k: nat)
    requires Host in d.fields && InServer(d, k)
    ensures InField(d.fields, d.spans, k)
  {
    if Userinfo in d.fields && Holds(d.spans.userinfo, k) {
      assert Holds(d.spans.At(Userinfo), k);
    } else if Holds(d.spans.host, k) {
      assert Holds(d.spans.At(Host), k);
    } else {
      assert Holds(d.spans.At(Port), k);
    }
  }

  // ---------- what a caller gets ----------

  /** What a caller may rely on in a decomposed URL. */
  predicate Decomposed(u: Url, buf: seq<Byte>) {
    && Laid(u.fields, u.spans, |buf|)
    && Covered(u.fields, u.spans, buf, |buf|)
    && (Schema in u.fields ==> Host in u.fields)
    && u.port <= 0xffff
    && (if Port in u.fields then
          AllDigits(buf, u.spans.port) && u.port == DecValue(buf[u.spans.port.off..u.spans.port.End()])
        else u.port == 0)
  }

  lemma LaidServer(c: Scan, d: HostScan, buf: seq<Byte>)
    requires FirstPassOk(c, buf, |buf|) && Host in c.fields && HostEndOk(d.s)
    requires SecondPassOk(HostOf(c), d, buf, c.spans.host.off, c.spans.host.End())
    ensures Laid(d.fields, d.spans, |buf|)
  {
    var h, s, t := c.spans.host, c.spans, d.spans;
    HostAt(s);
    assert c.spans.At(Host).len > 0;
    forall f | f in d.fields ensures t.At(f).len > 0 && t.At(f).End() <= |buf| {
      if f in c.fields && f != Host {
        assert s.At(f) == t.At(f);
      }
    }
    forall f, g | f in d.fields && g in d.fields && Rank(f) < Rank(g) ensures t.At(f).End() <= t.At(g).off {
      if f in c.fields && f != Host {
        assert s.At(f) == t.At(f);
        if g !in c.fields || g == Host {
          assert Rank(f) < Rank(Host);
          assert s.At(f).End() <= s.At(Host).off;
        }
      }
      if g in c.fields && g != Host {
        assert s.At(g) == t.At(g);
        if f !in c.fields || f == Host {
          assert Rank(Host) < Rank(g);
          assert s.At(Host).End() <= s.At(g).off;
        }
      }
    }
  }

  /** The port is the number spelled by its span: the digits end where the server part ends. */
  lemma PortDigits(c: Scan, d: HostScan, buf: seq<Byte>)
    requires FirstPassOk(c, buf, |buf|) && Host in c.fields && Port in d.fields
    requires SecondPassOk(HostOf(c), d, buf, c.spans.host.off, c.spans.host.End())
    ensures AllDigits(buf, d.spans.port)
    ensures DigitsFrom(buf, d.spans.port.off) == buf[d.spans.port.off..d.spans.port.End()]
  {
    HostAt(c.spans);
    DigitsRun(buf, d.spans.port.off, d.spans.port.End());
    hide Laid, DigitsFrom;
  }

  lemma PlainParts(c: Scan, buf: seq<Byte>, isConnect: bool)
    requires FirstPassOk(c, buf, |buf|) && Schema !in c.fields && WithPort(buf, isConnect, c.fields, c.spans).Some?
    requires Covered(c.fields, c.spans, buf, |buf|)
    ensures Decomposed(WithPort(buf, isConnect, c.fields, c.spans).value, buf)
  {
    hide Laid, Covered;
  }

  lemma ServerDecomposed(c: Scan, d: HostScan, buf: seq<Byte>, isConnect: bool)
    requires FirstPassOk(c, buf, |buf|) && Host in c.fields && HostEndOk(d.s)
    requires SecondPassOk(HostOf(c), d, buf, c.spans.host.off, c.spans.host.End())
    requires WithPort(buf, isConnect, d.fields, d.spans).Some? && Covered(d.fields, d.spans, buf, |buf|)
    ensures Decomposed(WithPort(buf, isConnect, d.fields, d.spans).value, buf)
  {
    hide Laid, Covered, DecValue, DigitsFrom, AllDigits, FirstPassOk;
    LaidServer(c, d, buf);
    if Port in d.fields {
      PortDigits(c, d, buf);
    }
  }

  /**
   On success, in a buffer of fewer than 65536 bytes, the fields found are non-empty, in
   bounds, disjoint and in the order of a URL, and every byte outside them is a delimiter;
   a schema comes with a host; and the port is the decimal value of its digits, at most 65535.
   */
  lemma UrlDecomposed(buf: seq<Byte>, isConnect: bool)
    requires |buf| < TWO_16
    ensures UrlOf(buf, isConnect).Some? ==> Decomposed(UrlOf(buf, isConnect).value, buf)
    ensures UrlOf(buf, isConnect).Some? && isConnect ==> UrlOf(buf, isConnect).value.fields == {Host, Port}
  {
    hide ScanUrl, ScanHost, Decomposed, FirstPassOk, SecondPassOk, HostOf, WithPort, Covered, InBounds;
    var c := ScanUrl(buf, |buf|, isConnect);
    if UrlOf(buf, isConnect).Some? {
      FirstPass(buf, |buf|, isConnect);
      FirstCovers(buf, |buf|, isConnect);
      ScanInBounds(buf, |buf|, isConnect);
      if Schema in c.fields || Host in c.fields {
        ServerParts(c, buf);
        var d := ScanHost(buf, c.spans.host.off, c.spans.host.End(), HostOf(c));
        ServerPartsCovered(c, buf);
        ServerDecomposed(c, d, buf, isConnect);
        ConnectFields(buf, isConnect, d.fields, d.spans);
      } else {
        PlainParts(c, buf, isConnect);
        ConnectFields(buf, isConnect, c.fields, c.spans);
      }
    }
  }

  lemma ServerPartsCovered(c: Scan, buf: seq<Byte>)
    requires |buf| < TWO_16 && FirstPassOk(c, buf, |buf|) && c.spans.host.End() <= |buf| && Host in c.fields
    requires HostEndOk(ScanHost(buf, c.spans.host.off, c.spans.host.End(), HostOf(c)).s)
    requires Covered(c.fields, c.spans, buf, |buf|) && InBounds(c.spans, |buf|)
    ensures var d := ScanHost(buf, c.spans.host.off, c.spans.host.End(), HostOf(c));
            Covered(d.fields, d.spans, buf, |buf|)
  {
    hide SecondPassOk, ScanHost, Laid, Covered, ServerCovered, ServerOver, InBounds;
    SecondPassBegins(c, buf);
    HostInBounds(c.spans, |buf|);
    ServerParts(c, buf);
    SecondCovers(HostOf(c), buf, c.spans.host.off, c.spans.host.End());
    AllCovered(c, ScanHost(buf, c.spans.host.off, c.spans.host.End(), HostOf(c)), buf);
  }

  lemma ConnectFields(buf: seq<Byte>, isConnect: bool, fields: set<Field>, spans: Spans)
    ensures WithPort(buf, isConnect, fields, spans).Some? ==>
              var u := WithPort(buf, isConnect, fields, spans).value;
              u.fields == fields && u.spans == spans && (isConnect ==> fields == {Host, Port})
  {}

  // ---------- the bound is needed ----------

  /** A path and nothing else: '/' or '*', then ordinary URL bytes. */
  predicate IsPlainPath(buf: seq<Byte>) {
    && |buf| > 0 && (buf[0] == 47 || buf[0] == 42)
    && forall i :: 1 <= i < |buf| ==> IsUrlChar(buf[i])
  }

  /** What `n` bytes of a plain path leave behind. */
  predicate PathSeen(c: Scan, n: nat) {
    c.s == ReqPath && c.last == Some(Path) && c.fields == {Path} && c.spans.path == Span(0, U16(n))
  }

  lemma {:induction false} PlainPathScan(buf: seq<Byte>, n: nat)
    requires IsPlainPath(buf) && 0 < n <= |buf|
    ensures PathSeen(ScanUrl(buf, n, false), n)
  {
    hide U16, ScanByte, ScanStart, NO_SPANS, IsUrlChar;
    U16Succ(n - 1);
    ScanNone(buf, false);
    StartFacts(false, ScanStart(false));
    var c := ScanUrl(buf, n - 1, false);
    if n > 1 {
      PlainPathScan(buf, n - 1);
    }
    PlainPathByte(c, buf[n - 1], n - 1);
    assert c.fields + {Path} == {Path};
  }

  lemma PlainPathByte(c: Scan, ch: Byte, i: nat)
    requires (c.s == ReqSpacesBeforeUrl && c.last == None && (ch == 47 || ch == 42))
          || (c.s == ReqPath && c.last == Some(Path) && IsUrlChar(ch))
    ensures var d := ScanByte(c, ch, i);
            && d.s == ReqPath && d.last == Some(Path) && d.fields == c.fields + {Path}
            && d.spans.path == if c.last == None then Span(U16(i), 1) else Span(c.spans.path.off, U16(c.spans.path.len + 1))
  {
    hide U16;
    assert ParseUrlChar(c.s, ch) == ReqPath;
    hide ParseUrlChar, IsUrlChar;
  }

  /** The scan of no bytes. */
  lemma ScanNone(buf: seq<Byte>, isConnect: bool)
    ensures ScanUrl(buf, 0, isConnect) == ScanStart(isConnect)
  {}

  lemma StartFacts(isConnect: bool, c: Scan)
    requires c == ScanStart(isConnect)
    ensures c.s == if isConnect then ReqServerStart else ReqSpacesBeforeUrl
    ensures c.last == None
    ensures c.fields == {}
    ensures c.spans == NO_SPANS
  {
    hide NO_SPANS;
  }

  lemma ScanMore(buf: seq<Byte>, n: nat, isConnect: bool)
    requires n < |buf| && ScanUrl(buf, n, isConnect).s != Dead
    ensures ScanUrl(buf, n + 1, isConnect) == ScanByte(ScanUrl(buf, n, isConnect), buf[n], n)
  {
    hide ScanByte;
  }

  lemma U16Succ(n: nat)
    ensures U16(U16(n) + 1) == U16(n + 1) && U16(0) == 0 && U16(1) == 1
  {}

  /** A plain path is reported with its length modulo 65536, however long it is. */
  lemma LengthWraps(buf: seq<Byte>)
    requires IsPlainPath(buf)
    ensures UrlOf(buf, false).Some? && UrlOf(buf, false).value.fields == {Path}
    ensures UrlOf(buf, false).value.spans.path == Span(0, |buf| % TWO_16)
  {
    hide ScanUrl, UrlOf;
    PlainPathScan(buf, |buf|);
    UrlOfCases(buf, false);
  }

  /** A path of `n` bytes, all letters but the first. */
  function LongPath(n: nat): seq<Byte> { seq(n, i => if i == 0 then 47 else 97) }

  lemma LongPathLost(n: nat)
    requires n >= TWO_16
    ensures |LongPath(n)| == n && UrlOf(LongPath(n), false).Some?
              && !Decomposed(UrlOf(LongPath(n), false).value, LongPath(n))
  {
    hide UrlOf;
    var buf := LongPath(n);
    LengthWraps(buf);
    var u := UrlOf(buf, false).value;
    var k := if n % TWO_16 == 0 then 1 else n % TWO_16;
    assert !IsDelimiter(buf[k]);
    assert u.spans.At(Path) == u.spans.path && !Holds(u.spans.At(Path), k);
  }

  /** URLs of length `n` are decomposed as promised, all of them, exactly when `n` is below 65536. */
  lemma BoundIsExact(n: nat)
    ensures n < TWO_16 <==>
            forall buf: seq<Byte>, isConnect: bool ::
              |buf| == n && UrlOf(buf, isConnect).Some? ==> Decomposed(UrlOf(buf, isConnect).value, buf)
  {
    hide UrlOf, Decomposed, LongPath;
    if n < TWO_16 {
      forall buf: seq<Byte>, isConnect: bool | |buf| == n && UrlOf(buf, isConnect).Some?
        ensures Decomposed(UrlOf(buf, isConnect).value, buf)
      {
        UrlDecomposed(buf, isConnect);
      }
    } else {
      LongPathLost(n);
    }
  }

  /** The outcome of the two passes, case by case. */
  lemma UrlOfCases(buf: seq<Byte>, isConnect: bool)
    ensures var c := ScanUrl(buf, |buf|, isConnect);
            UrlOf(buf, isConnect) ==
            if c.s == Dead then None
            else if Schema !in c.fields && Host !in c.fields then WithPort(buf, isConnect, c.fields, c.spans)
            else
              var d := ScanHost(buf, c.spans.host.off, c.spans.host.End(), HostOf(c));
              if HostEndOk(d.s) then WithPort(buf, isConnect, d.fields, d.spans) else None
  {
    hide ScanUrl, ScanHost, WithPort, HostOf;
  }

  // ---------- the source's loops ----------

  /** struct http_parser_url. */
  class UrlRecord {
    var fields: set<Field>
    var port: nat
    var data: Spans

    constructor ()
      ensures fields == {} && port == 0 && data == NO_SPANS
    {
      fields, port, data := {}, 0, NO_SPANS;
    }

    /** http_parse_host: the second pass, over the server part found by the first. */
    method ParseHost(buf: seq<Byte>, foundAt: bool) returns (failed: bool)
      requires data.host.End() <= |buf|
      modifies this`fields, this`data
      ensures var h := old(data).host;
              var d := ScanHost(buf, h.off, h.End(),
                  HostScan(HostStartState(foundAt), old(fields), old(data).(host := Span(h.off, 0))));
              failed == !HostEndOk(d.s) && fields == d.fields && data == d.spans
    {
      hide ParseHostChar, HostByte;
      var from, end := data.host.off, data.host.End();
      data := data.(host := Span(from, 0));
      ghost var c0 := HostScan(HostStartState(foundAt), fields, data);
      var s := HostStartState(foundAt);
      var p := from;
      while p < end
        invariant from <= p <= end
        invariant HostScan(s, fields, data) == ScanHost(buf, from, p, c0) && s != HostDead
      {
        var t := HostByte(HostScan(s, fields, data), buf[p], p);
        if t.s == HostDead {
          HostDeadWritesNothing(HostScan(s, fields, data), buf[p], p);
          HostStaysDead(buf, from, p + 1, end, c0);
          return true;
        }
        s, fields, data := t.s, t.fields, t.spans;
        p := p + 1;
      }
      failed := s.HostStart? || s.V6Start? || s.InV6? || s.PortStart? || s.InUserinfo? || s.UserinfoStart?;
    }

    /** The first pass. */
    method ScanAll(buf: seq<Byte>, isConnect: bool) returns (c: Scan)
      requires data == NO_SPANS
      modifies this
      ensures c == ScanUrl(buf, |buf|, isConnect) && fields == c.fields && data == c.spans && port == 0
    {
      hide ScanByte, ScanUrl, ScanStart, NO_SPANS;
      port, fields := 0, {};
      ScanNone(buf, isConnect);
      StartFacts(isConnect, ScanStart(isConnect));
      c := ScanStart(isConnect);
      var p := 0;
      while p < |buf|
        invariant p <= |buf|
        invariant c == ScanUrl(buf, p, isConnect) && c.s != Dead && fields == c.fields && data == c.spans && port == 0
      {
        ScanMore(buf, p, isConnect);
        ghost var was := c;
        c := ScanByte(c, buf[p], p);
        if c.s == Dead {
          DeadWritesNothing(was, buf[p], p);
          StaysDead(buf, p + 1, |buf|, isConnect);
          return;
        }
        fields, data := c.fields, c.spans;
        p := p + 1;
      }
    }

    /** http_parser_parse_url on a zero-initialised record. */
    method Parse(buf: seq<Byte>, isConnect: bool) returns (failed: bool)
      requires data == NO_SPANS
      modifies this
      ensures failed == UrlOf(buf, isConnect).None?
      ensures !failed ==> Url(fields, data, port) == UrlOf(buf, isConnect).value
      ensures Url(fields, data, port) == Recorded(buf, isConnect)
    {
      hide UrlOf, ScanUrl, ScanHost, HostEndOk, DecValue, DigitsFrom;
      UrlOfCases(buf, isConnect);
      var c := ScanAll(buf, isConnect);
      if c.s == Dead {
        return true;
      }
      if Schema in fields || Host in fields {
        var bad := ParseHost(buf, c.foundAt);
        if bad {
          return true;
        }
      }
      if isConnect && fields != {Host, Port} {
        return true;
      }
      if Port in fields {
        var v := DecValue(DigitsFrom(buf, data.port.off));
        if v > 0xffff {
          return true;
        }
        port := v;
      }
      failed := false;
    }
  }

  lemma DeadWritesNothing(c: Scan, ch: Byte, i: nat)
    requires ScanByte(c, ch, i).s == Dead
    ensures ScanByte(c, ch, i) == c.(s := Dead)
  {
    hide ParseUrlChar, Spans.At, Spans.Put;
  }

  lemma HostDeadWritesNothing(c: HostScan, ch: Byte, i: nat)
    requires HostByte(c, ch, i).s == HostDead
    ensures HostByte(c, ch, i) == c.(s := HostDead)
  {
    hide ParseHostChar;
  }

  lemma {:induction false} StaysDead(buf: seq<Byte>, m: nat, n: nat, isConnect: bool)
    requires m <= n <= |buf| && ScanUrl(buf, m, isConnect).s == Dead
    ensures ScanUrl(buf, n, isConnect) == ScanUrl(buf, m, isConnect)
    decreases n
  {
    hide ScanByte;
    if m < n {
      StaysDead(buf, m, n - 1, isConnect);
    }
  }

  lemma {:induction false} HostStaysDead(buf: seq<Byte>, from: nat, m: nat, n: nat, c: HostScan)
    requires from <= m <= n <= |buf| && ScanHost(buf, from, m, c).s == HostDead
    ensures ScanHost(buf, from, n, c) == ScanHost(buf, from, m, c)
    decreases n
  {
    if m < n {
      HostStaysDead(buf, from, m, n - 1, c);
      hide HostByte;
    }
  }
}

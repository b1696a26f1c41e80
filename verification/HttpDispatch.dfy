/**
 One pass through the parser's switch: what a single dispatch of the current byte does to
 the parser's fields, its marks, its callbacks and its control flow.

 Each group of states has its own function. The buffer is not visible here: `mark` asks for
 a data mark at the current byte, `flush` for the data callback of a mark, and `skip` is how
 many further bytes the body states swallow at once.
 */
module HttpDispatch {
  import opened Options
  import opened HttpTypes

  /** What follows the switch: `break`, `goto reexecute_byte`, `goto error`, or the early return after an upgrade. */
  datatype Next = Break | Again | Fail | Stop

  datatype Act = Act(p: Parser, mark: Option<Kind>, flush: Option<Kind>, note: Option<Event>, skip: nat, next: Next)

  function Go(p: Parser): Act { Act(p, None, None, None, 0, Break) }
  function Redo(p: Parser): Act { Act(p, None, None, None, 0, Again) }
  function Err(p: Parser, e: Errno): Act { Act(p.(errno := e), None, None, None, 0, Fail) }
  function Tell(p: Parser, e: Event): Act { Act(p, None, None, Some(e), 0, Break) }
  function Open(p: Parser, k: Kind): Act { Act(p, Some(k), None, None, 0, Break) }
  function Close(p: Parser, k: Kind): Act { Act(p, None, Some(k), None, 0, Break) }

  function Expect(p: Parser, ok: bool, s: State): Act {
    if ok then Go(p.(state := s)) else Err(p, Strict)
  }

  // ---------- end-of-message rules ----------

  /** http_message_needs_eof (RFC 2616 section 4.4). */
  predicate NeedsEof(p: Parser) {
    && p.kind != Request
    && !(100 <= p.statusCode <= 199 || p.statusCode == 204 || p.statusCode == 304 || p.flags.skipBody)
    && !(p.flags.chunked || p.contentLength != ULLONG_MAX)
  }

  /** http_should_keep_alive (RFC 2616 section 8.1). */
  predicate ShouldKeepAlive(p: Parser) {
    && (if p.httpMajor > 0 && p.httpMinor > 0 then !p.flags.close else p.flags.keepAlive)
    && !NeedsEof(p)
  }

  function NewMessage(p: Parser): State {
    if !ShouldKeepAlive(p) then Dead else if p.kind == Request then StartReq else StartRes
  }

  /** Moves on to the next message and reports the end of this one. */
  function Finish(p: Parser): Act {
    var q := p.(state := NewMessage(p));
    Tell(q, MessageComplete(q))
  }

  // ---------- URL characters ----------

  /** parse_url_char: the state after one more URL byte, Dead when the byte is not allowed there. */
  function ParseUrlChar(s: State, ch: Byte): State {
    if ch == SP || ch == CR || ch == LF || ch == HT || ch == FF then Dead
    else match s
      case ReqSpacesBeforeUrl =>
        if ch == 47 || ch == 42 then ReqPath else if IsAlpha(ch) then ReqSchema else Dead
      case ReqSchema =>
        if IsAlpha(ch) then ReqSchema else if ch == 58 then ReqSchemaSlash else Dead
      case ReqSchemaSlash => if ch == 47 then ReqSchemaSlashSlash else Dead
      case ReqSchemaSlashSlash => if ch == 47 then ReqServerStart else Dead
      case ReqServerWithAt => if ch == 64 then Dead else ServerChar(ch)
      case ReqServerStart => ServerChar(ch)
      case ReqServer => ServerChar(ch)
      case ReqPath =>
        if IsUrlChar(ch) then ReqPath else if ch == 63 then ReqQueryStringStart
        else if ch == 35 then ReqFragmentStart else Dead
      case ReqQueryStringStart => QueryChar(ch)
      case ReqQueryString => QueryChar(ch)
      case ReqFragmentStart =>
        if IsUrlChar(ch) || ch == 63 then ReqFragment else if ch == 35 then ReqFragmentStart else Dead
      case ReqFragment => if IsUrlChar(ch) || ch == 63 || ch == 35 then ReqFragment else Dead
      case _ => Dead
  }

  function ServerChar(ch: Byte): State {
    if ch == 47 then ReqPath
    else if ch == 63 then ReqQueryStringStart
    else if ch == 64 then ReqServerWithAt
    else if IsUserinfoChar(ch) || ch == 91 || ch == 93 then ReqServer
    else Dead
  }

  function QueryChar(ch: Byte): State {
    if IsUrlChar(ch) || ch == 63 then ReqQueryString
    else if ch == 35 then ReqFragmentStart
    else Dead
  }

  predicate IsUrlState(s: State) {
    || s.ReqSchema? || s.ReqSchemaSlash? || s.ReqSchemaSlashSlash? || s.ReqServerStart? || s.ReqServer?
    || s.ReqServerWithAt? || s.ReqPath? || s.ReqQueryStringStart? || s.ReqQueryString?
    || s.ReqFragmentStart? || s.ReqFragment?
  }

  /** The URL states in which a blank or a line end may not follow. */
  predicate IsUrlPrefixState(s: State) {
    s.ReqSchema? || s.ReqSchemaSlash? || s.ReqSchemaSlashSlash? || s.ReqServerStart?
  }

  function UrlByte(p: Parser, ch: Byte): Act {
    var s := ParseUrlChar(p.state, ch);
    if s == Dead then Err(p.(state := Dead), InvalidUrl) else Go(p.(state := s))
  }

  function DispatchUrl(p: Parser, ch: Byte): Act {
    if IsUrlPrefixState(p.state) then
      if ch == SP || ch == CR || ch == LF then Err(p, InvalidUrl) else UrlByte(p, ch)
    else if ch == SP then Close(p.(state := ReqHttpStart), UrlData)
    else if ch == CR || ch == LF then
      Close(p.(httpMajor := 0, httpMinor := 9,
            state := if ch == CR then ReqLineAlmostDone else HeaderFieldStart), UrlData)
    else UrlByte(p, ch)
  }

  function DispatchSpacesBeforeUrl(p: Parser, ch: Byte): Act {
    if ch == SP then Go(p)
    else
      var from := if p.verb == CONNECT then ReqServerStart else p.state;
      var s := ParseUrlChar(from, ch);
      if s == Dead then Err(p.(state := Dead), InvalidUrl).(mark := Some(UrlData))
      else Open(p.(state := s), UrlData)
  }

  // ---------- message starts ----------

  function Fresh(p: Parser): Parser { p.(flags := NO_FLAGS, contentLength := ULLONG_MAX) }

  function DispatchStart(p: Parser, ch: Byte): Act {
    match p.state
    case StartReqOrRes =>
      if ch == CR || ch == LF then Go(p)
      else if ch == 72 then Tell(Fresh(p).(state := ResOrRespH), MessageBegin)
      else Redo(Fresh(p).(kind := Request, state := StartReq))
    case ResOrRespH =>
      if ch == 84 then Go(p.(kind := Response, state := ResHT))
      else if ch == 69 then Go(p.(kind := Request, verb := HEAD, index := 2, state := ReqMethod))
      else Err(p, InvalidConstant)
    case StartRes =>
      var q := Fresh(p);
      if ch == 72 then Tell(q.(state := ResH), MessageBegin)
      else if ch == CR || ch == LF then Tell(q, MessageBegin)
      else Err(q, InvalidConstant)
    case _ => // Dead
      if ch == CR || ch == LF then Go(p) else Err(p, ClosedConnection)
  }

  function FirstLetter(ch: Byte): Option<Method> {
    if ch == 67 then Some(CONNECT) else if ch == 68 then Some(DELETE) else if ch == 71 then Some(GET)
    else if ch == 72 then Some(HEAD) else if ch == 76 then Some(LOCK) else if ch == 77 then Some(MKCOL)
    else if ch == 78 then Some(NOTIFY) else if ch == 79 then Some(OPTIONS) else if ch == 80 then Some(POST)
    else if ch == 82 then Some(REPORT) else if ch == 83 then Some(SUBSCRIBE) else if ch == 84 then Some(TRACE)
    else if ch == 85 then Some(UNLOCK) else None
  }

  function DispatchStartReq(p: Parser, ch: Byte): Act {
    if ch == CR || ch == LF then Go(p)
    else
      var q := Fresh(p);
      if !IsAlpha(ch) then Err(q, InvalidMethod)
      else match FirstLetter(ch)
        case None => Err(q.(verb := DELETE, index := 1), InvalidMethod)
        case Some(m) => Tell(q.(verb := m, index := 1, state := ReqMethod), MessageBegin)
  }

  /** The candidate the recogniser switches to when `ch` is not the current candidate's next letter. */
  function SwitchMethod(m: Method, index: nat, ch: Byte): Option<Method> {
    if m == CONNECT then
      if index == 1 && ch == 72 then Some(CHECKOUT) else if index == 2 && ch == 80 then Some(COPY) else None
    else if m == MKCOL then
      if index == 1 && ch == 79 then Some(MOVE)
      else if index == 1 && ch == 69 then Some(MERGE)
      else if index == 1 && ch == 45 then Some(MSEARCH)
      else if index == 2 && ch == 65 then Some(MKACTIVITY)
      else if index == 3 && ch == 65 then Some(MKCALENDAR)
      else None
    else if m == SUBSCRIBE then
      if index == 1 && ch == 69 then Some(SEARCH) else None
    else if index == 1 && m == POST then
      if ch == 82 then Some(PROPFIND) else if ch == 85 then Some(PUT) else if ch == 65 then Some(PATCH) else None
    else if index == 2 then
      if m == PUT && ch == 82 then Some(PURGE) else if m == UNLOCK && ch == 83 then Some(UNSUBSCRIBE) else None
    else if index == 4 && m == PROPFIND && ch == 80 then Some(PROPPATCH)
    else None
  }

  function DispatchMethod(p: Parser, ch: Byte): Act {
    if ch == 0 then Err(p, InvalidMethod)
    else
      var next := At(MethodString(p.verb), p.index);
      if ch == SP && next == 0 then Go(p.(state := ReqSpacesBeforeUrl, index := p.index + 1))
      else if ch == next then Go(p.(index := p.index + 1))
      else match SwitchMethod(p.verb, p.index, ch)
        case None => Err(p, InvalidMethod)
        case Some(m) => Go(p.(verb := m, index := p.index + 1))
  }

  // ---------- status line and request-line tail ----------

  /** One more digit of a version or status number, which may not pass 999. */
  function Digit(n: nat, ch: Byte): nat requires IsNum(ch) { n * 10 + (ch - 48) }

  function DispatchResLine(p: Parser, ch: Byte): Act {
    match p.state
    case ResH => Expect(p, ch == 84, ResHT)
    case ResHT => Expect(p, ch == 84, ResHTT)
    case ResHTT => Expect(p, ch == 80, ResHTTP)
    case ResHTTP => Expect(p, ch == 47, ResFirstHttpMajor)
    case ResFirstHttpMajor =>
      if IsNum(ch) then Go(p.(httpMajor := ch - 48, state := ResHttpMajor)) else Err(p, InvalidVersion)
    case ResHttpMajor =>
      if ch == 46 then Go(p.(state := ResFirstHttpMinor))
      else if !IsNum(ch) then Err(p, InvalidVersion)
      else
        var q := p.(httpMajor := Digit(p.httpMajor, ch));
        if q.httpMajor > 999 then Err(q, InvalidVersion) else Go(q)
    case ResFirstHttpMinor =>
      if IsNum(ch) then Go(p.(httpMinor := ch - 48, state := ResHttpMinor)) else Err(p, InvalidVersion)
    case ResHttpMinor =>
      if ch == SP then Go(p.(state := ResFirstStatusCode))
      else if !IsNum(ch) then Err(p, InvalidVersion)
      else
        var q := p.(httpMinor := Digit(p.httpMinor, ch));
        if q.httpMinor > 999 then Err(q, InvalidVersion) else Go(q)
    case ResFirstStatusCode =>
      if IsNum(ch) then Go(p.(statusCode := ch - 48, state := ResStatusCode))
      else if ch == SP then Go(p)
      else Err(p, InvalidStatus)
    case _ => DispatchResStatus(p, ch)
  }

  function DispatchResStatus(p: Parser, ch: Byte): Act {
    match p.state
    case ResStatusCode =>
      if IsNum(ch) then
        var q := p.(statusCode := Digit(p.statusCode, ch));
        if q.statusCode > 999 then Err(q, InvalidStatus) else Go(q)
      else if ch == SP then Go(p.(state := ResStatusStart))
      else if ch == CR then Go(p.(state := ResLineAlmostDone))
      else if ch == LF then Go(p.(state := HeaderFieldStart))
      else Err(p, InvalidStatus)
    case ResStatusStart =>
      if ch == CR then Go(p.(state := ResLineAlmostDone))
      else if ch == LF then Go(p.(state := HeaderFieldStart))
      else Open(p.(state := ResStatus, index := 0), StatusData)
    case ResStatus =>
      if ch == CR then Close(p.(state := ResLineAlmostDone), StatusData)
      else if ch == LF then Close(p.(state := HeaderFieldStart), StatusData)
      else Go(p)
    case _ => Expect(p, ch == LF, HeaderFieldStart) // ResLineAlmostDone
  }

  function DispatchReqLine(p: Parser, ch: Byte): Act {
    match p.state
    case ReqHttpStart =>
      if ch == 72 then Go(p.(state := ReqHttpH)) else if ch == SP then Go(p) else Err(p, InvalidConstant)
    case ReqHttpH => Expect(p, ch == 84, ReqHttpHT)
    case ReqHttpHT => Expect(p, ch == 84, ReqHttpHTT)
    case ReqHttpHTT => Expect(p, ch == 80, ReqHttpHTTP)
    case ReqHttpHTTP => Expect(p, ch == 47, ReqFirstHttpMajor)
    case ReqFirstHttpMajor =>
      if 49 <= ch <= 57 then Go(p.(httpMajor := ch - 48, state := ReqHttpMajor)) else Err(p, InvalidVersion)
    case ReqHttpMajor =>
      if ch == 46 then Go(p.(state := ReqFirstHttpMinor))
      else if !IsNum(ch) then Err(p, InvalidVersion)
      else
        var q := p.(httpMajor := Digit(p.httpMajor, ch));
        if q.httpMajor > 999 then Err(q, InvalidVersion) else Go(q)
    case ReqFirstHttpMinor =>
      if IsNum(ch) then Go(p.(httpMinor := ch - 48, state := ReqHttpMinor)) else Err(p, InvalidVersion)
    case ReqHttpMinor =>
      if ch == CR then Go(p.(state := ReqLineAlmostDone))
      else if ch == LF then Go(p.(state := HeaderFieldStart))
      else if !IsNum(ch) then Err(p, InvalidVersion)
      else
        var q := p.(httpMinor := Digit(p.httpMinor, ch));
        if q.httpMinor > 999 then Err(q, InvalidVersion) else Go(q)
    case _ => // ReqLineAlmostDone
      if ch == LF then Go(p.(state := HeaderFieldStart)) else Err(p, LfExpected)
  }

  // ---------- header names ----------

  function NameStart(c: Byte): HeaderState {
    if c == 99 then HC
    else if c == 112 then HMatchingProxyConnection
    else if c == 116 then HMatchingTransferEncoding
    else if c == 117 then HMatchingUpgrade
    else HGeneral
  }

  /** One more letter of a word being matched; `index` is the position of the previous letter. */
  function MatchWord(p: Parser, c: Byte, word: seq<Byte>, found: HeaderState): Parser {
    var i := p.index + 1;
    if i > |word| || c != At(word, i) then p.(index := i, headerState := HGeneral)
    else if i == |word| - 1 then p.(index := i, headerState := found)
    else p.(index := i)
  }

  function NameByte(p: Parser, c: Byte, ch: Byte): Parser {
    match p.headerState
    case HC => p.(index := p.index + 1, headerState := if c == 111 then HCO else HGeneral)
    case HCO => p.(index := p.index + 1, headerState := if c == 110 then HCON else HGeneral)
    case HCON =>
      p.(index := p.index + 1,
      headerState := if c == 110 then HMatchingConnection else if c == 116 then HMatchingContentLength else HGeneral)
    case HMatchingConnection => MatchWord(p, c, W_CONNECTION, HConnection)
    case HMatchingProxyConnection => MatchWord(p, c, W_PROXY_CONNECTION, HConnection)
    case HMatchingContentLength => MatchWord(p, c, W_CONTENT_LENGTH, HContentLength)
    case HMatchingTransferEncoding => MatchWord(p, c, W_TRANSFER_ENCODING, HTransferEncoding)
    case HMatchingUpgrade => MatchWord(p, c, W_UPGRADE, HUpgrade)
    case HGeneral => p
    case _ => if ch != SP then p.(headerState := HGeneral) else p
  }

  function DispatchFieldStart(p: Parser, ch: Byte): Act {
    if ch == CR then Go(p.(state := HeadersAlmostDone))
    else if ch == LF then Redo(p.(state := HeadersAlmostDone))
    else
      var c := Token(ch);
      if c == 0 then Err(p, InvalidHeaderToken)
      else Open(p.(index := 0, state := HeaderField, headerState := NameStart(c)), FieldData)
  }

  function DispatchField(p: Parser, ch: Byte): Act {
    var c := Token(ch);
    if c != 0 then Go(NameByte(p, c, ch))
    else if ch == 58 then Close(p.(state := HeaderValueDiscardWs), FieldData)
    else if ch == CR then Close(p.(state := HeaderAlmostDone), FieldData)
    else if ch == LF then Close(p.(state := HeaderFieldStart), FieldData)
    else Err(p, InvalidHeaderToken)
  }

  // ---------- header values ----------

  function ValueStart(p: Parser, ch: Byte): Act {
    var q := p.(state := HeaderValue, index := 0);
    var c := Lower(ch);
    match p.headerState
    case HUpgrade => Open(q.(flags := q.flags.(upgrade := true), headerState := HGeneral), ValueData)
    case HTransferEncoding => Open(q.(headerState := if c == 99 then HMatchingChunked else HGeneral), ValueData)
    case HContentLength =>
      if IsNum(ch) then Open(q.(contentLength := ch - 48), ValueData)
      else Err(q, InvalidContentLength).(mark := Some(ValueData))
    case HConnection =>
      var h := if c == 107 then HMatchingKeepAlive else if c == 99 then HMatchingClose else HGeneral;
      Open(q.(headerState := h), ValueData)
    case _ => Open(q.(headerState := HGeneral), ValueData)
  }

  /** One more digit of Content-Length, in 64-bit arithmetic with the conservative overflow test. */
  function LengthDigit(p: Parser, ch: Byte): Act {
    if ch == SP then Go(p)
    else if !IsNum(ch) then Err(p, InvalidContentLength)
    else
      var t := (p.contentLength * 10 + (ch - 48)) % TWO_64;
      if (ULLONG_MAX - 10) / 10 < p.contentLength then Err(p, InvalidContentLength)
      else Go(p.(contentLength := t))
  }

  function ValueByte(p: Parser, ch: Byte): Act {
    var c := Lower(ch);
    match p.headerState
    case HContentLength => LengthDigit(p, ch)
    case HMatchingChunked => Go(MatchWord(p, c, W_CHUNKED, HChunked))
    case HMatchingKeepAlive => Go(MatchWord(p, c, W_KEEP_ALIVE, HKeepAlive))
    case HMatchingClose => Go(MatchWord(p, c, W_CLOSE, HClose))
    case HChunked => Go(if ch != SP then p.(headerState := HGeneral) else p)
    case HKeepAlive => Go(if ch != SP then p.(headerState := HGeneral) else p)
    case HClose => Go(if ch != SP then p.(headerState := HGeneral) else p)
    case HConnection => Go(p) // asserted impossible
    case HTransferEncoding => Go(p) // asserted impossible
    case _ => Go(p.(headerState := HGeneral))
  }

  /** A header line is over: record what its value meant. */
  function HeaderFinished(p: Parser): Parser {
    var q := p.(state := HeaderFieldStart);
    match p.headerState
    case HKeepAlive => q.(flags := q.flags.(keepAlive := true))
    case HClose => q.(flags := q.flags.(close := true))
    case HChunked => q.(flags := q.flags.(chunked := true))
    case _ => q
  }

  function DispatchValue(p: Parser, ch: Byte): Act {
    match p.state
    case HeaderValueDiscardWs =>
      if ch == SP || ch == HT then Go(p)
      else if ch == CR then Go(p.(state := HeaderValueDiscardWsAlmostDone))
      else if ch == LF then Go(p.(state := HeaderValueDiscardLws))
      else ValueStart(p, ch)
    case HeaderValueStart => ValueStart(p, ch)
    case HeaderValue =>
      if ch == CR then Close(p.(state := HeaderAlmostDone), ValueData)
      else if ch == LF then Close(p.(state := HeaderAlmostDone), ValueData).(next := Again)
      else ValueByte(p, ch)
    case HeaderAlmostDone => Expect(p, ch == LF, HeaderValueLws)
    case HeaderValueLws =>
      if ch == SP || ch == HT then Redo(p.(state := HeaderValueStart)) else Redo(HeaderFinished(p))
    case HeaderValueDiscardWsAlmostDone => Expect(p, ch == LF, HeaderValueDiscardLws)
    case _ => // HeaderValueDiscardLws
      if ch == SP || ch == HT then Go(p.(state := HeaderValueDiscardWs))
      else Act(p.(state := HeaderFieldStart), Some(ValueData), Some(ValueData), None, 0, Again)
  }

  // ---------- end of head, bodies ----------

  function DispatchHeadEnd(p: Parser, ch: Byte): Act {
    if ch != LF then Err(p, Strict)
    else if p.state == HeadersAlmostDone then
      if p.flags.trailing then Finish(p)
      else
        var q := p.(state := HeadersDone, upgrade := p.flags.upgrade || p.verb == CONNECT);
        Act(q, None, None, Some(HeadersComplete(q)), 0, Again)
    else
      var q := p.(nread := 0);
      if q.upgrade then Finish(q).(next := Stop)
      else if q.flags.skipBody then Finish(q)
      else if q.flags.chunked then Go(q.(state := ChunkSizeStart))
      else if q.contentLength == 0 then Finish(q)
      else if q.contentLength != ULLONG_MAX then Go(q.(state := BodyIdentity))
      else if q.kind == Request || !NeedsEof(q) then Finish(q)
      else Go(q.(state := BodyIdentityEof))
  }

  function Min(a: nat, b: nat): nat { if a < b then a else b }

  function DispatchBody(p: Parser, avail: nat): Act
    requires avail >= 1
  {
    var toRead := Min(p.contentLength, avail);
    var skip := if toRead == 0 then 0 else toRead - 1;
    var left := p.contentLength - toRead;
    match p.state
    case BodyIdentity =>
      if left == 0 then Act(p.(contentLength := 0, state := MessageDone), Some(BodyData), Some(BodyData), None, skip, Again)
      else Act(p.(contentLength := left), Some(BodyData), None, None, skip, Break)
    case ChunkData =>
      Act(p.(contentLength := left, state := if left == 0 then ChunkDataAlmostDone else ChunkData),
          Some(BodyData), None, None, skip, Break)
    case _ => Act(p, Some(BodyData), None, None, avail - 1, Break) // BodyIdentityEof
  }

  /** One more hexadecimal digit of a chunk size, in 64-bit arithmetic with the conservative overflow test. */
  function ChunkDigit(p: Parser, ch: Byte): Act {
    if Unhex(ch) == -1 then
      if ch == 59 || ch == SP then Go(p.(state := ChunkParameters)) else Err(p, InvalidChunkSize)
    else
      var t := (p.contentLength * 16 + Unhex(ch)) % TWO_64;
      if (ULLONG_MAX - 16) / 16 < p.contentLength then Err(p, InvalidContentLength)
      else Go(p.(contentLength := t))
  }

  function DispatchChunk(p: Parser, ch: Byte): Act {
    match p.state
    case ChunkSizeStart =>
      if Unhex(ch) == -1 then Err(p, InvalidChunkSize)
      else Go(p.(contentLength := Unhex(ch), state := ChunkSize))
    case ChunkSize => if ch == CR then Go(p.(state := ChunkSizeAlmostDone)) else ChunkDigit(p, ch)
    case ChunkParameters => if ch == CR then Go(p.(state := ChunkSizeAlmostDone)) else Go(p)
    case ChunkSizeAlmostDone =>
      if ch != LF then Err(p, Strict)
      else if p.contentLength == 0 then
        Go(p.(nread := 0, flags := p.flags.(trailing := true), state := HeaderFieldStart))
      else Go(p.(nread := 0, state := ChunkData))
    case ChunkDataAlmostDone =>
      if ch != CR then Err(p, Strict) else Close(p.(state := ChunkDataDone), BodyData)
    case _ => // ChunkDataDone
      if ch != LF then Err(p, Strict) else Go(p.(nread := 0, state := ChunkSizeStart))
  }

  // ---------- the switch ----------

  datatype Group = GStart | GStartReq | GMethod | GSpaces | GUrl | GResLine | GReqLine
                 | GFieldStart | GField | GValue | GHeadEnd | GBody | GChunk | GDone

  function GroupOf(s: State): Group {
    match s
    case Dead => GStart case StartReqOrRes => GStart case ResOrRespH => GStart case StartRes => GStart
    case StartReq => GStartReq
    case ReqMethod => GMethod
    case ReqSpacesBeforeUrl => GSpaces
    case ReqSchema => GUrl case ReqSchemaSlash => GUrl case ReqSchemaSlashSlash => GUrl
    case ReqServerStart => GUrl case ReqServer => GUrl case ReqServerWithAt => GUrl case ReqPath => GUrl
    case ReqQueryStringStart => GUrl case ReqQueryString => GUrl
    case ReqFragmentStart => GUrl case ReqFragment => GUrl
    case ResH => GResLine case ResHT => GResLine case ResHTT => GResLine case ResHTTP => GResLine
    case ResFirstHttpMajor => GResLine case ResHttpMajor => GResLine
    case ResFirstHttpMinor => GResLine case ResHttpMinor => GResLine
    case ResFirstStatusCode => GResLine case ResStatusCode => GResLine
    case ResStatusStart => GResLine case ResStatus => GResLine case ResLineAlmostDone => GResLine
    case ReqHttpStart => GReqLine case ReqHttpH => GReqLine case ReqHttpHT => GReqLine
    case ReqHttpHTT => GReqLine case ReqHttpHTTP => GReqLine
    case ReqFirstHttpMajor => GReqLine case ReqHttpMajor => GReqLine
    case ReqFirstHttpMinor => GReqLine case ReqHttpMinor => GReqLine case ReqLineAlmostDone => GReqLine
    case HeaderFieldStart => GFieldStart
    case HeaderField => GField
    case HeaderValueDiscardWs => GValue case HeaderValueDiscardWsAlmostDone => GValue
    case HeaderValueDiscardLws => GValue case HeaderValueStart => GValue case HeaderValue => GValue
    case HeaderValueLws => GValue case HeaderAlmostDone => GValue
    case HeadersAlmostDone => GHeadEnd case HeadersDone => GHeadEnd
    case BodyIdentity => GBody case BodyIdentityEof => GBody case ChunkData => GBody
    case ChunkSizeStart => GChunk case ChunkSize => GChunk case ChunkParameters => GChunk
    case ChunkSizeAlmostDone => GChunk case ChunkDataAlmostDone => GChunk case ChunkDataDone => GChunk
    case MessageDone => GDone
  }

  /** The switch of http_parser_execute; `avail` counts the bytes left in the buffer, this one included. */
  function Dispatch(p: Parser, ch: Byte, avail: nat): Act
    requires avail >= 1
  {
    match GroupOf(p.state)
    case GStart => DispatchStart(p, ch)
    case GStartReq => DispatchStartReq(p, ch)
    case GMethod => DispatchMethod(p, ch)
    case GSpaces => DispatchSpacesBeforeUrl(p, ch)
    case GUrl => DispatchUrl(p, ch)
    case GResLine => DispatchResLine(p, ch)
    case GReqLine => DispatchReqLine(p, ch)
    case GFieldStart => DispatchFieldStart(p, ch)
    case GField => DispatchField(p, ch)
    case GValue => DispatchValue(p, ch)
    case GHeadEnd => DispatchHeadEnd(p, ch)
    case GBody => DispatchBody(p, avail)
    case GChunk => DispatchChunk(p, ch)
    case GDone => Finish(p)
  }
}

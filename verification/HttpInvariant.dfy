/**
 What every dispatch keeps: bounds on the parser's fields, the asserts in the source, and
 which states own which data mark.
 */
module HttpInvariant {
  import opened Options
  import opened HttpTypes
  import opened HttpDispatch
  import opened HttpMachine

  // ---------- the invariant ----------

  /** Header-name recogniser states, with the letters each has already matched. */
  predicate NameOk(h: HeaderState, index: nat) {
    match h
    case HGeneral => index <= 16
    case HC => index == 0
    case HCO => index == 1
    case HCON => index == 2
    case HMatchingConnection => 3 <= index < 9
    case HMatchingProxyConnection => index < 15
    case HMatchingContentLength => 3 <= index < 13
    case HMatchingTransferEncoding => index < 16
    case HMatchingUpgrade => index < 6
    case HConnection => index <= 15
    case HContentLength => index <= 13
    case HTransferEncoding => index <= 16
    case HUpgrade => index <= 6
    case _ => false
  }

  predicate ValueOk(h: HeaderState, index: nat) {
    match h
    case HGeneral => index <= 10
    case HContentLength => index == 0
    case HMatchingChunked => index < 6
    case HMatchingKeepAlive => index < 9
    case HMatchingClose => index < 4
    case HChunked => index <= 6
    case HKeepAlive => index <= 9
    case HClose => index <= 4
    case _ => false
  }

  predicate IsChunkState(s: State) {
    || s.ChunkSizeStart? || s.ChunkSize? || s.ChunkParameters? || s.ChunkSizeAlmostDone?
    || s.ChunkData? || s.ChunkDataAlmostDone? || s.ChunkDataDone?
  }

  /** Field bounds: every field fits its C type. */
  predicate Bounded(p: Parser) {
    && p.errno == Ok
    && p.contentLength <= ULLONG_MAX
    && p.nread <= MAX_HEADER_SIZE
    && p.index <= 17
    && p.httpMajor <= 999 && p.httpMinor <= 999 && p.statusCode <= 999
    && (p.flags.trailing ==> p.flags.chunked)
    && !p.flags.skipBody
  }

  predicate InChunks(p: Parser) { p.flags.chunked && !p.flags.trailing }

  /** What a state implies; a length is the sentinel only where none was read. */
  predicate StateOk(p: Parser) {
    match p.state
    case ReqMethod => 1 <= p.index <= 11
    case HeaderField => NameOk(p.headerState, p.index)
    case HeaderValue => ValueOk(p.headerState, p.index) && (p.headerState.HContentLength? ==> p.contentLength < ULLONG_MAX)
    case HeadersDone => !p.flags.trailing
    case ChunkSizeStart => InChunks(p)
    case ChunkSize => InChunks(p) && p.contentLength < ULLONG_MAX
    case ChunkParameters => InChunks(p) && p.contentLength < ULLONG_MAX
    case ChunkSizeAlmostDone => InChunks(p) && p.contentLength < ULLONG_MAX
    case ChunkData => InChunks(p) && 0 < p.contentLength < ULLONG_MAX
    case ChunkDataAlmostDone => InChunks(p) && p.contentLength == 0
    case ChunkDataDone => InChunks(p) && p.contentLength == 0
    case BodyIdentity => !p.flags.chunked && 0 < p.contentLength < ULLONG_MAX
    case BodyIdentityEof => !p.flags.chunked && p.contentLength == ULLONG_MAX && p.kind != Request
    case MessageDone => !p.flags.chunked && p.contentLength == 0
    case _ => true
  }

  predicate Wf(p: Parser) { Bounded(p) && StateOk(p) }

  /** Where a parser can rest between two bytes. */
  predicate Resting(p: Parser) {
    && Wf(p)
    && !p.state.HeaderValueStart? && !p.state.HeadersDone? && !p.state.MessageDone?
    && (p.state.ChunkSizeStart? ==> p.nread == 0)
  }

  /** What holds when a byte is dispatched. */
  predicate Dispatching(p: Parser) {
    Wf(p) && (p.state.ChunkSizeStart? ==> p.nread == 1)
  }

  /** The asserts the source makes at the head of each case, and that no case is missing. */
  predicate SourceAsserts(p: Parser) {
    && (p.state.HeaderField? ==> // assert(0 && "Unknown header_state")
        !(p.headerState.HMatchingChunked? || p.headerState.HMatchingKeepAlive? || p.headerState.HMatchingClose?
          || p.headerState.HChunked? || p.headerState.HKeepAlive? || p.headerState.HClose?))
    && (p.state.HeaderValue? ==> !p.headerState.HConnection? && !p.headerState.HTransferEncoding?)
    && (p.state.BodyIdentity? || p.state.ChunkData? ==> p.contentLength != 0 && p.contentLength != ULLONG_MAX)
    && (p.state.ChunkSizeStart? ==> p.nread == 1)
    && (p.state.ChunkDataAlmostDone? ==> p.contentLength == 0)
    && (IsChunkState(p.state) ==> p.flags.chunked)
    && p.errno == Ok
  }

  // ---------- what one dispatch keeps ----------

  predicate Keeps(a: Act) {
    if a.next == Fail then a.p.errno != Ok
    else
      && Wf(a.p)
      && (a.next == Again ==> !a.p.state.ChunkSizeStart? && !IsBodyState(a.p.state))
      && (a.next != Again ==>
            && !a.p.state.HeaderValueStart? && !a.p.state.HeadersDone? && !a.p.state.MessageDone?
            && (a.p.state.ChunkSizeStart? ==> a.p.nread == 0))
  }

  lemma RestingOk(p: Parser)
    requires Resting(p)
    ensures p.errno == Ok
  {}

  lemma KeepsMeans(a: Act)
    requires Keeps(a)
    ensures a.next == Fail ==> a.p.errno != Ok
    ensures a.next == Again ==> Dispatching(a.p) && !IsBodyState(a.p.state)
    ensures a.next == Break || a.next == Stop ==> Resting(a.p)
  {
    hide Wf;
  }

  /** The small groups, spelled out. */
  lemma GroupStates(s: State)
    ensures GroupOf(s) == GStart <==> s.Dead? || s.StartReqOrRes? || s.ResOrRespH? || s.StartRes?
    ensures GroupOf(s) == GStartReq <==> s.StartReq?
    ensures GroupOf(s) == GMethod <==> s.ReqMethod?
    ensures GroupOf(s) == GSpaces <==> s.ReqSpacesBeforeUrl?
    ensures GroupOf(s) == GFieldStart <==> s.HeaderFieldStart?
    ensures GroupOf(s) == GField <==> s.HeaderField?
    ensures GroupOf(s) == GHeadEnd <==> s.HeadersAlmostDone? || s.HeadersDone?
    ensures GroupOf(s) == GBody <==> IsBodyState(s)
    ensures GroupOf(s) == GDone <==> s.MessageDone?
  {}

  lemma UrlLineStates(s: State)
    ensures GroupOf(s) == GUrl <==> IsUrlState(s)
  {}

  lemma ResLineStates(s: State)
    ensures GroupOf(s) == GResLine <==>
            || s.ResH? || s.ResHT? || s.ResHTT? || s.ResHTTP? || s.ResFirstHttpMajor? || s.ResHttpMajor?
            || s.ResFirstHttpMinor? || s.ResHttpMinor? || s.ResFirstStatusCode? || s.ResStatusCode?
            || s.ResStatusStart? || s.ResStatus? || s.ResLineAlmostDone?
  {}

  lemma ReqLineStates(s: State)
    ensures GroupOf(s) == GReqLine <==>
            || s.ReqHttpStart? || s.ReqHttpH? || s.ReqHttpHT? || s.ReqHttpHTT? || s.ReqHttpHTTP?
            || s.ReqFirstHttpMajor? || s.ReqHttpMajor? || s.ReqFirstHttpMinor? || s.ReqHttpMinor? || s.ReqLineAlmostDone?
  {}

  lemma ValueLineStates(s: State)
    ensures GroupOf(s) == GValue <==>
            || s.HeaderValueDiscardWs? || s.HeaderValueDiscardWsAlmostDone? || s.HeaderValueDiscardLws?
            || s.HeaderValueStart? || s.HeaderValue? || s.HeaderValueLws? || s.HeaderAlmostDone?
  {}

  lemma ChunkLineStates(s: State)
    ensures GroupOf(s) == GChunk <==>
            || s.ChunkSizeStart? || s.ChunkSize? || s.ChunkParameters? || s.ChunkSizeAlmostDone?
            || s.ChunkDataAlmostDone? || s.ChunkDataDone?
  {}

  lemma LineStates(s: State)
    ensures GroupOf(s) == GUrl <==> IsUrlState(s)
    ensures GroupOf(s) == GResLine <==>
            || s.ResH? || s.ResHT? || s.ResHTT? || s.ResHTTP? || s.ResFirstHttpMajor? || s.ResHttpMajor?
            || s.ResFirstHttpMinor? || s.ResHttpMinor? || s.ResFirstStatusCode? || s.ResStatusCode?
            || s.ResStatusStart? || s.ResStatus? || s.ResLineAlmostDone?
    ensures GroupOf(s) == GReqLine <==>
            || s.ReqHttpStart? || s.ReqHttpH? || s.ReqHttpHT? || s.ReqHttpHTT? || s.ReqHttpHTTP?
            || s.ReqFirstHttpMajor? || s.ReqHttpMajor? || s.ReqFirstHttpMinor? || s.ReqHttpMinor? || s.ReqLineAlmostDone?
    ensures GroupOf(s) == GValue <==>
            || s.HeaderValueDiscardWs? || s.HeaderValueDiscardWsAlmostDone? || s.HeaderValueDiscardLws?
            || s.HeaderValueStart? || s.HeaderValue? || s.HeaderValueLws? || s.HeaderAlmostDone?
    ensures GroupOf(s) == GChunk <==>
            || s.ChunkSizeStart? || s.ChunkSize? || s.ChunkParameters? || s.ChunkSizeAlmostDone?
            || s.ChunkDataAlmostDone? || s.ChunkDataDone?
  {
    hide GroupOf, IsUrlState;
    UrlLineStates(s);
    ResLineStates(s);
    ReqLineStates(s);
    ValueLineStates(s);
    ChunkLineStates(s);
  }

  lemma KeepsStart(p: Parser, ch: Byte)
    requires Dispatching(p)
    ensures GroupOf(p.state) == GStart ==> Keeps(DispatchStart(p, ch))
    ensures GroupOf(p.state) == GStartReq ==> Keeps(DispatchStartReq(p, ch))
  {
    GroupStates(p.state);
    hide GroupOf;
  }

  lemma SwitchOnlyInside(m: Method, index: nat, ch: Byte)
    ensures SwitchMethod(m, index, ch).Some? ==> 1 <= index <= 4
  {}

  lemma KeepsMethod(p: Parser, ch: Byte)
    requires Dispatching(p) && GroupOf(p.state) == GMethod
    ensures Keeps(DispatchMethod(p, ch))
  {
    GroupStates(p.state);
    hide GroupOf;
    SwitchOnlyInside(p.verb, p.index, ch);
    hide SwitchMethod;
  }

  lemma UrlStates(s: State, ch: Byte)
    ensures var t := ParseUrlChar(s, ch); t == Dead || IsUrlState(t)
    ensures s.ReqSpacesBeforeUrl? || IsUrlState(s) || ParseUrlChar(s, ch) == Dead
  {}

  /** The states after a URL byte ask nothing of the other fields. */
  lemma UrlStatesAreFree(a: Act)
    requires Bounded(a.p) && a.next == Break
    requires IsUrlState(a.p.state) || a.p.state.ReqHttpStart? || a.p.state.ReqLineAlmostDone? || a.p.state.HeaderFieldStart?
             || a.p.state.ReqSpacesBeforeUrl?
    ensures Keeps(a)
  {}

  lemma KeepsUrl(p: Parser, ch: Byte)
    requires Dispatching(p) && GroupOf(p.state) == GUrl
    ensures Keeps(DispatchUrl(p, ch))
  {
    hide ParseUrlChar, GroupOf, StateOk, IsUrlState, IsUrlPrefixState, Keeps, UrlByte;
    var a := DispatchUrl(p, ch);
    KeepsUrlByte(p, ch);
    if a.next == Fail {
      FailKeeps(a);
    } else if a != UrlByte(p, ch) {
      UrlStatesAreFree(a);
    }
  }

  lemma FailKeeps(a: Act)
    requires a.next == Fail && a.p.errno != Ok
    ensures Keeps(a)
  {}

  lemma KeepsUrlByte(p: Parser, ch: Byte)
    requires Bounded(p)
    ensures Keeps(UrlByte(p, ch)) && (UrlByte(p, ch).next == Fail ==> UrlByte(p, ch).p.errno != Ok)
  {
    hide ParseUrlChar, StateOk, IsUrlState;
    UrlStates(p.state, ch);
    if UrlByte(p, ch).next != Fail {
      UrlStatesAreFree(UrlByte(p, ch));
    }
  }

  lemma KeepsSpaces(p: Parser, ch: Byte)
    requires Dispatching(p) && GroupOf(p.state) == GSpaces
    ensures Keeps(DispatchSpacesBeforeUrl(p, ch))
  {
    hide ParseUrlChar, GroupOf, StateOk, IsUrlState;
    GroupStates(p.state);
    UrlStates(p.state, ch);
    UrlStates(ReqServerStart, ch);
    var a := DispatchSpacesBeforeUrl(p, ch);
    if a.next != Fail {
      UrlStatesAreFree(a);
    }
  }

  lemma KeepsResStatus(p: Parser, ch: Byte)
    requires Dispatching(p)
    requires p.state.ResStatusCode? || p.state.ResStatusStart? || p.state.ResStatus? || p.state.ResLineAlmostDone?
    ensures Keeps(DispatchResStatus(p, ch))
  {}

  lemma KeepsResLine(p: Parser, ch: Byte)
    requires Dispatching(p) && GroupOf(p.state) == GResLine
    ensures Keeps(DispatchResLine(p, ch))
  {
    LineStates(p.state);
    hide GroupOf;
    if p.state.ResStatusCode? || p.state.ResStatusStart? || p.state.ResStatus? || p.state.ResLineAlmostDone? {
      KeepsResStatus(p, ch);
    }
    hide DispatchResStatus;
  }

  lemma KeepsReqLine(p: Parser, ch: Byte)
    requires Dispatching(p) && GroupOf(p.state) == GReqLine
    ensures Keeps(DispatchReqLine(p, ch))
  {
    LineStates(p.state);
    hide GroupOf;
  }

  lemma KeepsName(p: Parser, c: Byte, ch: Byte)
    requires NameOk(p.headerState, p.index) && ch != SP
    ensures var q := NameByte(p, c, ch);
            q == p.(headerState := q.headerState, index := q.index) && NameOk(q.headerState, q.index)
  {}

  lemma KeepsField(p: Parser, ch: Byte)
    requires Dispatching(p)
    ensures GroupOf(p.state) == GFieldStart ==> Keeps(DispatchFieldStart(p, ch))
    ensures GroupOf(p.state) == GField ==> Keeps(DispatchField(p, ch))
  {
    GroupStates(p.state);
    hide GroupOf;
    hide NameByte;
    if p.state.HeaderField? && Token(ch) != 0 {
      KeepsName(p, Token(ch), ch);
    }
  }

  /** The conservative overflow test is enough: an accepted digit never wraps and never yields the sentinel. */
  lemma LengthNeverWraps(p: Parser, ch: Byte)
    requires p.contentLength < ULLONG_MAX && IsNum(ch)
    ensures var a := LengthDigit(p, ch);
            if a.next == Fail then a == Err(p, InvalidContentLength)
            else a == Go(p.(contentLength := p.contentLength * 10 + (ch - 48))) && a.p.contentLength < ULLONG_MAX
  {}

  lemma ChunkSizeNeverWraps(p: Parser, ch: Byte)
    requires p.contentLength < ULLONG_MAX && Unhex(ch) != -1
    ensures var a := ChunkDigit(p, ch);
            if a.next == Fail then a == Err(p, InvalidContentLength)
            else a == Go(p.(contentLength := p.contentLength * 16 + Unhex(ch))) && a.p.contentLength < ULLONG_MAX
  {}

  lemma KeepsMatch(p: Parser, c: Byte, word: seq<Byte>, found: HeaderState)
    ensures var q := MatchWord(p, c, word, found);
            && q == p.(index := p.index + 1, headerState := q.headerState)
            && (q.headerState == HGeneral || (q.headerState == found && q.index == |word| - 1)
                || (q.headerState == p.headerState && q.index <= |word| && c == At(word, q.index) && q.index != |word| - 1))
  {}

  lemma KeepsLength(p: Parser, ch: Byte)
    requires Dispatching(p) && p.state.HeaderValue? && p.headerState.HContentLength?
    ensures Keeps(LengthDigit(p, ch))
  {
    if IsNum(ch) {
      LengthNeverWraps(p, ch);
      hide LengthDigit;
    }
  }

  lemma KeepsWord(p: Parser, c: Byte, word: seq<Byte>, found: HeaderState)
    requires Dispatching(p) && p.state.HeaderValue?
    requires || (p.headerState.HMatchingChunked? && word == W_CHUNKED && found.HChunked?)
             || (p.headerState.HMatchingKeepAlive? && word == W_KEEP_ALIVE && found.HKeepAlive?)
             || (p.headerState.HMatchingClose? && word == W_CLOSE && found.HClose?)
    ensures Keeps(Go(MatchWord(p, c, word, found)))
  {
    assert |W_CHUNKED| == 7 && |W_KEEP_ALIVE| == 10 && |W_CLOSE| == 5;
    KeepsMatch(p, c, word, found);
    hide MatchWord, At;
  }

  lemma KeepsValueByte(p: Parser, ch: Byte)
    requires Dispatching(p) && p.state.HeaderValue? && ch != CR
    ensures Keeps(ValueByte(p, ch))
  {
    hide MatchWord, LengthDigit, Lower;
    match p.headerState {
      case HContentLength => KeepsLength(p, ch);
      case HMatchingChunked => KeepsWord(p, Lower(ch), W_CHUNKED, HChunked);
      case HMatchingKeepAlive => KeepsWord(p, Lower(ch), W_KEEP_ALIVE, HKeepAlive);
      case HMatchingClose => KeepsWord(p, Lower(ch), W_CLOSE, HClose);
      case _ =>
    }
  }

  lemma KeepsValueStart(p: Parser, ch: Byte)
    requires Dispatching(p)
    ensures Keeps(ValueStart(p, ch))
  {
    match p.headerState {
      case HUpgrade => case HTransferEncoding => case HContentLength => case HConnection => case _ =>
    }
  }

  lemma KeepsHeaderFinished(p: Parser)
    requires Dispatching(p)
    ensures Wf(HeaderFinished(p)) && HeaderFinished(p).state.HeaderFieldStart?
  {}

  lemma KeepsValue(p: Parser, ch: Byte)
    requires Dispatching(p) && GroupOf(p.state) == GValue
    ensures Keeps(DispatchValue(p, ch))
  {
    LineStates(p.state);
    hide GroupOf, ValueByte, ValueStart, HeaderFinished;
    if p.state.HeaderValueStart? || p.state.HeaderValueDiscardWs? {
      KeepsValueStart(p, ch);
    } else if p.state.HeaderValue? {
      if ch != CR && ch != LF {
        KeepsValueByte(p, ch);
      }
    } else {
      KeepsHeaderFinished(p);
    }
  }

  lemma KeepsFinish(p: Parser)
    requires Bounded(p)
    ensures Keeps(Finish(p))
  {}

  lemma KeepsDone(p: Parser)
    requires Dispatching(p)
    ensures Keeps(Finish(p))
  {
    KeepsFinish(p);
  }

  lemma KeepsHeadEnd(p: Parser, ch: Byte)
    requires Dispatching(p) && GroupOf(p.state) == GHeadEnd
    ensures Keeps(DispatchHeadEnd(p, ch))
  {
    GroupStates(p.state);
    hide GroupOf;
    KeepsFinish(p);
    KeepsFinish(p.(nread := 0));
    hide Finish;
  }

  lemma KeepsBody(p: Parser, avail: nat)
    requires Dispatching(p) && avail >= 1 && GroupOf(p.state) == GBody
    ensures Keeps(DispatchBody(p, avail))
  {
    GroupStates(p.state);
    hide GroupOf;
  }

  lemma KeepsChunk(p: Parser, ch: Byte)
    requires Dispatching(p) && GroupOf(p.state) == GChunk
    ensures Keeps(DispatchChunk(p, ch))
  {
    LineStates(p.state);
    hide GroupOf;
    if p.state.ChunkSize? && Unhex(ch) != -1 {
      ChunkSizeNeverWraps(p, ch);
      hide ChunkDigit;
    }
  }

  lemma DispatchKeeps(p: Parser, ch: Byte, avail: nat)
    requires Dispatching(p) && avail >= 1
    ensures Keeps(Dispatch(p, ch, avail))
  {
    hide Keeps, Dispatching, DispatchStart, DispatchStartReq, DispatchMethod, DispatchSpacesBeforeUrl, DispatchUrl,
      DispatchResLine, DispatchReqLine, DispatchFieldStart, DispatchField, DispatchValue, DispatchHeadEnd,
      DispatchBody, DispatchChunk, Finish;
    match GroupOf(p.state) {
      case GStart => KeepsStart(p, ch);
      case GStartReq => KeepsStart(p, ch);
      case GMethod => KeepsMethod(p, ch);
      case GSpaces => KeepsSpaces(p, ch);
      case GUrl => KeepsUrl(p, ch);
      case GResLine => KeepsResLine(p, ch);
      case GReqLine => KeepsReqLine(p, ch);
      case GFieldStart => KeepsField(p, ch);
      case GField => KeepsField(p, ch);
      case GValue => KeepsValue(p, ch);
      case GHeadEnd => KeepsHeadEnd(p, ch);
      case GBody => KeepsBody(p, avail);
      case GChunk => KeepsChunk(p, ch);
      case GDone => KeepsDone(p);
    }
  }

  /** No assert of the source can fire. */
  lemma AssertsHold(p: Parser)
    requires Dispatching(p)
    ensures SourceAsserts(p)
  {}
}

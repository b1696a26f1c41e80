/** Single steps of the byte machine, for composing runs. */
module HttpSteps {
  import opened HttpTypes
  import opened HttpDispatch
  import opened HttpMachine

  /** A parser in a message head that may read one more byte. */
  predicate Ready(p: Parser) { p.errno == Ok && ParsingHeader(p.state) && p.nread < MAX_HEADER_SIZE }

  function Counted(p: Parser): Parser { p.(nread := p.nread + 1) }

  lemma DispatchByGroup(p: Parser, ch: Byte)
    ensures var a := Dispatch(p, ch, 1);
            match GroupOf(p.state)
            case GStart => a == DispatchStart(p, ch)
            case GStartReq => a == DispatchStartReq(p, ch)
            case GMethod => a == DispatchMethod(p, ch)
            case GSpaces => a == DispatchSpacesBeforeUrl(p, ch)
            case GUrl => a == DispatchUrl(p, ch)
            case GResLine => a == DispatchResLine(p, ch)
            case GReqLine => a == DispatchReqLine(p, ch)
            case GFieldStart => a == DispatchFieldStart(p, ch)
            case GField => a == DispatchField(p, ch)
            case GValue => a == DispatchValue(p, ch)
            case GHeadEnd => a == DispatchHeadEnd(p, ch)
            case GBody => a == DispatchBody(p, 1)
            case GChunk => a == DispatchChunk(p, ch)
            case GDone => a == Finish(p)
  {
    hide DispatchStart, DispatchStartReq, DispatchMethod, DispatchSpacesBeforeUrl, DispatchUrl, DispatchResLine,
      DispatchReqLine, DispatchFieldStart, DispatchField, DispatchValue, DispatchHeadEnd, DispatchBody, DispatchChunk,
      Finish;
  }

  lemma DispatchOfStart(p: Parser, ch: Byte)
    requires GroupOf(p.state) == GStart || GroupOf(p.state) == GStartReq
    ensures Dispatch(p, ch, 1) == if GroupOf(p.state) == GStart then DispatchStart(p, ch) else DispatchStartReq(p, ch)
  {
    hide GroupOf, Dispatch;
    DispatchByGroup(p, ch);
  }

  lemma DispatchOfSpaces(p: Parser, ch: Byte)
    requires GroupOf(p.state) == GSpaces
    ensures Dispatch(p, ch, 1) == DispatchSpacesBeforeUrl(p, ch)
  {
    hide GroupOf, Dispatch;
    DispatchByGroup(p, ch);
  }

  lemma DispatchOfUrl(p: Parser, ch: Byte)
    requires GroupOf(p.state) == GUrl
    ensures Dispatch(p, ch, 1) == DispatchUrl(p, ch)
  {
    hide GroupOf, Dispatch;
    DispatchByGroup(p, ch);
  }

  lemma DispatchOfReqLine(p: Parser, ch: Byte)
    requires GroupOf(p.state) == GReqLine
    ensures Dispatch(p, ch, 1) == DispatchReqLine(p, ch)
  {
    hide GroupOf, Dispatch;
    DispatchByGroup(p, ch);
  }

  lemma DispatchOfFieldStart(p: Parser, ch: Byte)
    requires GroupOf(p.state) == GFieldStart
    ensures Dispatch(p, ch, 1) == DispatchFieldStart(p, ch)
  {
    hide GroupOf, Dispatch;
    DispatchByGroup(p, ch);
  }

  lemma DispatchOfField(p: Parser, ch: Byte)
    requires GroupOf(p.state) == GField
    ensures Dispatch(p, ch, 1) == DispatchField(p, ch)
  {
    hide GroupOf, Dispatch;
    DispatchByGroup(p, ch);
  }

  lemma DispatchOfValue(p: Parser, ch: Byte)
    requires GroupOf(p.state) == GValue
    ensures Dispatch(p, ch, 1) == DispatchValue(p, ch)
  {
    hide GroupOf, Dispatch;
    DispatchByGroup(p, ch);
  }

  lemma DispatchOfHeadEnd(p: Parser, ch: Byte)
    requires GroupOf(p.state) == GHeadEnd
    ensures Dispatch(p, ch, 1) == DispatchHeadEnd(p, ch)
  {
    hide GroupOf, Dispatch;
    DispatchByGroup(p, ch);
  }

  /** A byte that is dispatched once. */
  lemma ByteOnce(p: Parser, ch: Byte)
    requires Ready(p)
    ensures var a := Dispatch(Counted(p), ch, 1);
            && (a.next != Again ==> ByteStep(p, ch) == Snapshot(a.p, Emit(Counted(p), a, ch)))
            && (a.next == Again ==>
                  ByteStep(p, ch) == Snapshot(Settle(a.p, ch).p, Emit(Counted(p), a, ch) + Settle(a.p, ch).out))
            && (p.state.ReqMethod? ==> a == DispatchMethod(Counted(p), ch))
            && (p.state.StartReq? ==> a == DispatchStartReq(Counted(p), ch))
  {
    DispatchByGroup(Counted(p), ch);
    hide Dispatch, Emit, DispatchMethod, DispatchStartReq;
  }

  lemma Overflows(p: Parser, ch: Byte)
    requires p.errno == Ok && ParsingHeader(p.state) && p.nread >= MAX_HEADER_SIZE
    ensures ByteStep(p, ch).p.errno != Ok
  {
    hide Settle;
  }

  lemma ErrorSticks(p: Parser, ch: Byte)
    requires p.errno != Ok
    ensures ByteStep(p, ch) == Snapshot(p, [])
  {
    hide Settle;
  }
}

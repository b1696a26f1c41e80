/**
 Which states own which data mark: a mark is opened on entering its states, stays open while
 the parser is in them and is flushed on leaving, so that at most one mark is ever open.
 */
module HttpMarks {
  import opened Options
  import opened HttpTypes
  import opened HttpDispatch
  import opened HttpMachine
  import opened HttpInvariant

  /** A dispatch that finds mark `k` open: it keeps it open, flushes it, or fails. */
  predicate FromOpen(k: Kind, a: Act) {
    && a.mark.None? && a.note.None? && a.skip == 0
    && if a.flush.Some? then a.flush.value == k && (a.next == Break || a.next == Again) && OpenKind(a.p.state).None?
       else a.next == Fail || (a.next == Break && OpenKind(a.p.state) == Some(k))
  }

  /** A dispatch outside the body states that finds no text mark open. */
  predicate FromClosed(s: State, a: Act) {
    && a.skip == 0
    && (s.ChunkDataAlmostDone? ==> a.mark.None?)
    && (a.next == Fail ==> a.flush.None? && a.note.None?)
    && (a.next != Fail ==>
          if a.mark.Some? then
            && a.mark.value != BodyData && a.note.None?
            && (if a.flush.None? then a.next == Break && OpenKind(a.p.state) == a.mark
                else a.flush == a.mark && a.next == Again && OpenKind(a.p.state).None?)
          else
            && OpenKind(a.p.state).None?
            && (if s.ChunkDataAlmostDone? then a.flush == Some(BodyData) && a.note.None? && a.next == Break
                else a.flush.None?))
  }

  predicate MarksOk(p: Parser, a: Act) {
    match OpenKind(p.state)
    case Some(k) => FromOpen(k, a)
    case None => FromClosed(p.state, a)
  }

  lemma MarksStart(p: Parser, ch: Byte)
    ensures GroupOf(p.state) == GStart ==> MarksOk(p, DispatchStart(p, ch))
    ensures GroupOf(p.state) == GStartReq ==> MarksOk(p, DispatchStartReq(p, ch))
  {
    GroupStates(p.state);
    hide GroupOf;
  }

  lemma MarksMethod(p: Parser, ch: Byte)
    requires GroupOf(p.state) == GMethod
    ensures MarksOk(p, DispatchMethod(p, ch))
  {
    GroupStates(p.state);
    hide GroupOf, SwitchMethod, MethodString;
  }

  lemma MarksUrl(p: Parser, ch: Byte)
    requires GroupOf(p.state) == GUrl
    ensures MarksOk(p, DispatchUrl(p, ch))
  {
    LineStates(p.state);
    UrlStates(p.state, ch);
    hide ParseUrlChar, GroupOf;
  }

  lemma MarksSpaces(p: Parser, ch: Byte)
    requires GroupOf(p.state) == GSpaces
    ensures MarksOk(p, DispatchSpacesBeforeUrl(p, ch))
  {
    GroupStates(p.state);
    UrlStates(p.state, ch);
    UrlStates(ReqServerStart, ch);
    hide ParseUrlChar, GroupOf;
  }

  lemma MarksResLine(p: Parser, ch: Byte)
    requires GroupOf(p.state) == GResLine
    ensures MarksOk(p, DispatchResLine(p, ch))
  {
    LineStates(p.state);
    hide GroupOf;
  }

  lemma MarksReqLine(p: Parser, ch: Byte)
    requires GroupOf(p.state) == GReqLine
    ensures MarksOk(p, DispatchReqLine(p, ch))
  {
    LineStates(p.state);
    hide GroupOf;
  }

  lemma NameByteState(p: Parser, c: Byte, ch: Byte)
    ensures NameByte(p, c, ch).state == p.state
  {}

  lemma MarksField(p: Parser, ch: Byte)
    ensures GroupOf(p.state) == GFieldStart ==> MarksOk(p, DispatchFieldStart(p, ch))
    ensures GroupOf(p.state) == GField ==> MarksOk(p, DispatchField(p, ch))
  {
    GroupStates(p.state);
    NameByteState(p, Token(ch), ch);
    hide GroupOf, NameByte;
  }

  lemma MarksValueStart(p: Parser, ch: Byte)
    ensures var a := ValueStart(p, ch);
            && a.mark == Some(ValueData) && a.flush.None? && a.note.None? && a.skip == 0
            && (a.next == Fail || (a.next == Break && a.p.state == HeaderValue))
  {}

  lemma MarksValueByte(p: Parser, ch: Byte)
    ensures var a := ValueByte(p, ch);
            && a.mark.None? && a.flush.None? && a.note.None? && a.skip == 0
            && (a.next == Fail || (a.next == Break && a.p.state == p.state))
  {}

  lemma MarksValue(p: Parser, ch: Byte)
    requires GroupOf(p.state) == GValue
    ensures MarksOk(p, DispatchValue(p, ch))
  {
    LineStates(p.state);
    MarksValueStart(p, ch);
    MarksValueByte(p, ch);
    hide GroupOf, ValueByte, ValueStart;
  }

  lemma MarksHeadEnd(p: Parser, ch: Byte)
    ensures GroupOf(p.state) == GHeadEnd ==> MarksOk(p, DispatchHeadEnd(p, ch))
    ensures GroupOf(p.state) == GDone ==> MarksOk(p, Finish(p))
  {
    GroupStates(p.state);
    hide GroupOf, NeedsEof;
  }

  lemma MarksChunk(p: Parser, ch: Byte)
    requires GroupOf(p.state) == GChunk
    ensures MarksOk(p, DispatchChunk(p, ch))
  {
    LineStates(p.state);
    hide GroupOf;
  }

  /** The mark discipline of the whole switch, outside the states that swallow body bytes. */
  lemma DispatchMarks(p: Parser, ch: Byte, avail: nat)
    requires avail >= 1 && !IsBodyState(p.state)
    ensures MarksOk(p, Dispatch(p, ch, avail))
    ensures Dispatch(p, ch, avail) == Dispatch(p, ch, 1)
  {
    GroupStates(p.state);
    hide MarksOk, DispatchStart, DispatchStartReq, DispatchMethod, DispatchSpacesBeforeUrl, DispatchUrl,
      DispatchResLine, DispatchReqLine, DispatchFieldStart, DispatchField, DispatchValue, DispatchHeadEnd,
      DispatchBody, DispatchChunk, Finish;
    match GroupOf(p.state) {
      case GStart => MarksStart(p, ch);
      case GStartReq => MarksStart(p, ch);
      case GMethod => MarksMethod(p, ch);
      case GSpaces => MarksSpaces(p, ch);
      case GUrl => MarksUrl(p, ch);
      case GResLine => MarksResLine(p, ch);
      case GReqLine => MarksReqLine(p, ch);
      case GFieldStart => MarksField(p, ch);
      case GField => MarksField(p, ch);
      case GValue => MarksValue(p, ch);
      case GHeadEnd => MarksHeadEnd(p, ch);
      case GBody =>
      case GChunk => MarksChunk(p, ch);
      case GDone => MarksHeadEnd(p, ch);
    }
  }
}

/**
 The parser as a byte machine: the reference meaning of a stream of bytes, one byte at a
 time, with no buffers and no marks. A data byte is reported the moment it is read.
 */
module HttpMachine {
  import opened Options
  import opened HttpTypes
  import opened HttpDispatch

  predicate ParsingHeader(s: State) {
    !(s.ChunkData? || s.ChunkDataAlmostDone? || s.ChunkDataDone? || s.BodyIdentity? || s.BodyIdentityEof? || s.MessageDone?)
  }

  predicate IsBodyState(s: State) { s.BodyIdentity? || s.BodyIdentityEof? || s.ChunkData? }

  /** The data run a parser resting in this state is in the middle of. */
  function OpenKind(s: State): Option<Kind> {
    if IsUrlState(s) then Some(UrlData)
    else if s.ResStatus? then Some(StatusData)
    else if s.HeaderField? then Some(FieldData)
    else if s.HeaderValue? then Some(ValueData)
    else None
  }

  // ---------- re-dispatch ----------

  /** How many more times the same byte may still be dispatched from a state. */
  function Rank(s: State): nat {
    match s
    case HeaderValueLws => 3
    case HeaderValueDiscardLws => 3
    case HeaderFieldStart => 2
    case HeadersAlmostDone => 1
    case StartReqOrRes => 1
    case BodyIdentity => 1
    case HeaderValue => 1
    case _ => 0
  }

  /** A re-dispatch goes to a state of lower rank, and to a continuation line only on a blank. */
  predicate RankDrops(p: Parser, a: Act, ch: Byte) {
    a.next == Again ==>
      && Rank(a.p.state) < Rank(p.state)
      && (a.p.state.HeaderValueStart? ==> ch == SP || ch == HT)
  }

  lemma RankStart(p: Parser, ch: Byte)
    requires GroupOf(p.state) == GStart
    ensures RankDrops(p, DispatchStart(p, ch), ch)
  {}

  lemma RankLines(p: Parser, ch: Byte)
    ensures GroupOf(p.state) == GResLine ==> RankDrops(p, DispatchResLine(p, ch), ch)
    ensures GroupOf(p.state) == GUrl ==> RankDrops(p, DispatchUrl(p, ch), ch)
    ensures GroupOf(p.state) == GMethod ==> RankDrops(p, DispatchMethod(p, ch), ch)
  {}

  lemma RankFields(p: Parser, ch: Byte)
    ensures GroupOf(p.state) == GField ==> RankDrops(p, DispatchField(p, ch), ch)
    ensures GroupOf(p.state) == GChunk ==> RankDrops(p, DispatchChunk(p, ch), ch)
    ensures GroupOf(p.state) == GHeadEnd ==> RankDrops(p, DispatchHeadEnd(p, ch), ch)
  {}

  lemma RankValue(p: Parser, ch: Byte)
    requires GroupOf(p.state) == GValue
    ensures RankDrops(p, DispatchValue(p, ch), ch)
  {}

  /** Every `goto reexecute_byte` goes to a state of lower rank, so a byte is re-dispatched at most three times. */
  lemma AgainLowersRank(p: Parser, ch: Byte, avail: nat)
    requires avail >= 1
    ensures RankDrops(p, Dispatch(p, ch, avail), ch)
    ensures Rank(p.state) <= 3
  {
    match GroupOf(p.state) {
      case GStart => RankStart(p, ch);
      case GResLine => RankLines(p, ch);
      case GUrl => RankLines(p, ch);
      case GMethod => RankLines(p, ch);
      case GField => RankFields(p, ch);
      case GChunk => RankFields(p, ch);
      case GHeadEnd => RankFields(p, ch);
      case GValue => RankValue(p, ch);
      case _ =>
    }
  }

  predicate IsStartState(s: State) { s.Dead? || s.StartReq? || s.StartRes? }

  /** An early return comes only after an upgrade and between two messages; the end of a message is the last thing told. */
  predicate Tidy(a: Act) {
    && (a.next == Stop ==> IsStartState(a.p.state) && a.p.upgrade)
    && (a.note.Some? ==> !a.note.value.Data?)
    && (a.note.Some? && a.note.value.MessageComplete? ==> a.note.value.parser == a.p && a.next != Again && a.next != Fail)
  }

  lemma TidyLines(p: Parser, ch: Byte)
    ensures Tidy(DispatchResLine(p, ch)) && Tidy(DispatchReqLine(p, ch))
  {}

  lemma TidyRequest(p: Parser, ch: Byte)
    ensures Tidy(DispatchUrl(p, ch)) && Tidy(DispatchMethod(p, ch)) && Tidy(DispatchSpacesBeforeUrl(p, ch))
  {
    hide ParseUrlChar, SwitchMethod, MethodString;
  }

  lemma TidyFields(p: Parser, ch: Byte)
    ensures Tidy(DispatchFieldStart(p, ch)) && Tidy(DispatchField(p, ch)) && Tidy(DispatchChunk(p, ch))
  {
    hide NameByte;
  }

  lemma TidyValue(p: Parser, ch: Byte)
    ensures Tidy(DispatchValue(p, ch))
  {}

  lemma TidyHeadEnd(p: Parser, ch: Byte)
    ensures Tidy(DispatchHeadEnd(p, ch)) && Tidy(Finish(p))
    ensures Tidy(DispatchStart(p, ch)) && Tidy(DispatchStartReq(p, ch))
  {}

  lemma TidyBody(p: Parser, avail: nat)
    requires avail >= 1
    ensures Tidy(DispatchBody(p, avail))
  {}

  lemma DispatchTidy(p: Parser, ch: Byte, avail: nat)
    requires avail >= 1
    ensures Tidy(Dispatch(p, ch, avail))
  {
    hide Tidy, DispatchStart, DispatchStartReq, DispatchMethod, DispatchSpacesBeforeUrl, DispatchUrl,
      DispatchResLine, DispatchReqLine, DispatchFieldStart, DispatchField, DispatchValue, DispatchHeadEnd,
      DispatchChunk, DispatchBody, Finish;
    TidyLines(p, ch);
    TidyRequest(p, ch);
    TidyFields(p, ch);
    TidyValue(p, ch);
    TidyHeadEnd(p, ch);
    TidyBody(p, avail);
  }

  // ---------- the machine ----------

  datatype Snapshot = Snapshot(p: Parser, out: seq<Event>)

  /** What one dispatch of `ch` reports, data bytes one at a time. */
  function Emit(p: Parser, a: Act, ch: Byte): seq<Event> {
    (if IsBodyState(p.state) then [Data(BodyData, [ch])]
     else if a.mark.Some? && a.flush == a.mark then [Data(a.mark.value, [])]
     else [])
    + (if a.note.Some? then [a.note.value] else [])
    + (if a.next == Break && OpenKind(a.p.state).Some? then [Data(OpenKind(a.p.state).value, [ch])] else [])
  }

  /** Dispatches one byte until the parser moves past it. */
  function Settle(p: Parser, ch: Byte): Snapshot
    decreases Rank(p.state)
  {
    var a := Dispatch(p, ch, 1);
    if a.next == Again then
      AgainLowersRank(p, ch, 1);
      var r := Settle(a.p, ch);
      Snapshot(r.p, Emit(p, a, ch) + r.out)
    else Snapshot(a.p, Emit(p, a, ch))
  }

  lemma SettleStep(p: Parser, ch: Byte, a: Act)
    requires a == Dispatch(p, ch, 1)
    ensures if a.next == Again then Settle(p, ch) == Snapshot(Settle(a.p, ch).p, Emit(p, a, ch) + Settle(a.p, ch).out)
            else Settle(p, ch) == Snapshot(a.p, Emit(p, a, ch))
  {
    hide Dispatch, Emit;
  }

  /** The byte counter of the head, bumped before the byte is looked at. */
  function Count(p: Parser): Parser {
    if !ParsingHeader(p.state) then p
    else
      var q := p.(nread := p.nread + 1);
      if q.nread > MAX_HEADER_SIZE then q.(errno := HeaderOverflow) else q
  }

  /** One byte; a parser in error ignores it. */
  function ByteStep(p: Parser, ch: Byte): Snapshot {
    if p.errno != Ok || Count(p).errno != Ok then Snapshot(if p.errno != Ok then p else Count(p), [])
    else Settle(Count(p), ch)
  }

  function Run(s: Snapshot, data: seq<Byte>): Snapshot {
    if |data| == 0 then s
    else
      var r := Run(s, data[..|data| - 1]);
      var b := ByteStep(r.p, data[|data| - 1]);
      Snapshot(b.p, r.out + b.out)
  }

  /** End of input. */
  function EofStep(s: Snapshot): Snapshot {
    if s.p.errno != Ok then s
    else match s.p.state
      case BodyIdentityEof => Snapshot(s.p, s.out + [MessageComplete(s.p)])
      case Dead => s
      case StartReqOrRes => s
      case StartRes => s
      case StartReq => s
      case _ => Snapshot(s.p.(errno := InvalidEofState), s.out)
  }

  function Start(kind: ParserType): Snapshot { Snapshot(Init(kind), []) }

  lemma {:induction false} RunConcat(s: Snapshot, a: seq<Byte>, b: seq<Byte>)
    ensures Run(s, a + b) == Run(Run(s, a), b)
  {
    hide ByteStep;
    if |b| == 0 {
      assert a + b == a;
    } else {
      var c := b[..|b| - 1];
      assert (a + b)[..|a + b| - 1] == a + c;
      RunConcat(s, a, c);
    }
  }

  lemma RunNothing(s: Snapshot)
    ensures Run(s, []) == s
  {}

  lemma RunOne(s: Snapshot, ch: Byte)
    ensures Run(s, [ch]) == Snapshot(ByteStep(s.p, ch).p, s.out + ByteStep(s.p, ch).out)
  {
    hide ByteStep;
    assert [ch][..0] == [];
  }

  /** The trace only grows, and what it grows by does not depend on what was there. */
  lemma {:induction false} RunFrame(s: Snapshot, data: seq<Byte>)
    ensures Run(s, data).p == Run(Snapshot(s.p, []), data).p
    ensures Run(s, data).out == s.out + Run(Snapshot(s.p, []), data).out
  {
    hide ByteStep;
    if |data| > 0 {
      RunFrame(s, data[..|data| - 1]);
    }
  }

  lemma {:induction false} RunStuck(s: Snapshot, data: seq<Byte>)
    requires s.p.errno != Ok
    ensures Run(s, data) == s
  {
    if |data| > 0 {
      RunStuck(s, data[..|data| - 1]);
    }
  }
}

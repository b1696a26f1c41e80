/**
 Conservation of body bytes (RFC 2616 sections 4.4 and 3.6.1): a message that is reported
 complete has had exactly the announced number of bytes delivered to the body callback.
 */
module HttpLedger {
  import opened Options
  import opened HttpTypes
  import opened HttpDispatch
  import opened HttpMachine
  import opened HttpInvariant
  import opened HttpRuns
  import opened HttpText
  import opened HttpRecognise
  import opened HttpMarks

  /** The body bytes reported since the last message began. */
  function Delivered(t: seq<Event>): nat {
    if |t| == 0 then 0
    else
      match t[|t| - 1]
      case MessageBegin => 0
      case Data(k, b) => Delivered(t[..|t| - 1]) + (if k == BodyData then |b| else 0)
      case _ => Delivered(t[..|t| - 1])
  }

  /** What the message announced: the chunk sizes when chunked, else the last Content-Length, else nothing. */
  function Announced(o: Seen): nat {
    if o.chunked then o.chunkTotal else if o.length.Some? then o.length.value else 0
  }

  lemma DeliveredSnoc(t: seq<Event>, e: Event)
    ensures Delivered(t + [e]) ==
            match e
            case MessageBegin => 0
            case Data(k, b) => Delivered(t) + (if k == BodyData then |b| else 0)
            case _ => Delivered(t)
  {
    assert (t + [e])[..|t + [e]| - 1] == t;
  }

  /** What one dispatch adds to the account. */
  function Tally(p: Parser, a: Act, d: nat): nat {
    if a.note == Some(MessageBegin) then 0 else if IsBodyState(p.state) then d + 1 else d
  }

  lemma OpenIsText(s: State)
    ensures OpenKind(s) != Some(BodyData)
  {}

  lemma TallyEmit(t: seq<Event>, p: Parser, a: Act, ch: Byte)
    requires a.note.Some? ==> !a.note.value.Data?
    requires a.mark.Some? && a.flush == a.mark && !IsBodyState(p.state) ==> a.mark.value != BodyData
    ensures Delivered(t + Emit(p, a, ch)) == Tally(p, a, Delivered(t))
  {
    hide Delivered, OpenKind;
    OpenIsText(a.p.state);
    var x := if IsBodyState(p.state) then [Data(BodyData, [ch])]
    else if a.mark.Some? && a.flush == a.mark then [Data(a.mark.value, [])]
    else [];
    var y := if a.note.Some? then [a.note.value] else [];
    var z := if a.next == Break && OpenKind(a.p.state).Some? then [Data(OpenKind(a.p.state).value, [ch])] else [];
    assert Emit(p, a, ch) == x + y + z;
    assert t + Emit(p, a, ch) == t + x + y + z;
    if x != [] { DeliveredSnoc(t, x[0]); } else { assert t + x == t; }
    if y != [] { DeliveredSnoc(t + x, y[0]); } else { assert t + x + y == t + x; }
    if z != [] { DeliveredSnoc(t + x + y, z[0]); } else { assert t + x + y + z == t + x + y; }
  }

  // ---------- the account in each state ----------

  /** What has been announced so far and not delivered is what the parser still expects. */
  predicate Balanced(p: Parser, o: Seen, d: nat) {
    && (o.length.Some? ==> o.length.value < ULLONG_MAX)
    && if BetweenMessages(p.state) then true
       else if InHead(p.state) then d == o.chunkTotal && (!p.flags.trailing ==> o.chunkTotal == 0)
       else match p.state
         case BodyIdentity => o.length.Some? && d + p.contentLength == o.length.value
         case MessageDone => o.length.Some? && d == o.length.value
         case BodyIdentityEof => true
         case ChunkData => d + p.contentLength == o.chunkTotal
         case _ => d == o.chunkTotal
  }

  /** When the dispatch reports the end of a message, the account is settled, unless the connection was upgraded. */
  predicate Settles(p: Parser, a: Act, ch: Byte, o: Seen, d: nat) {
    a.next != Fail ==>
      && Balanced(a.p, See(o, p, a, ch), Tally(p, a, d))
      && (a.note.Some? && a.note.value.MessageComplete? && !a.p.upgrade ==> Tally(p, a, d) == Announced(See(o, p, a, ch)))
  }

  lemma SettlesQuiet(p: Parser, a: Act, ch: Byte, o: Seen, d: nat)
    requires Balanced(p, o, d) && StartLine(p.state) && Quiet(p, a)
    ensures Settles(p, a, ch, o, d)
  {
    StartLineStates(p.state);
    StartLineStates(a.p.state);
    hide StartLine;
  }

  lemma SettlesStart(p: Parser, ch: Byte, o: Seen, d: nat)
    requires Balanced(p, o, d)
    ensures GroupOf(p.state) == GStart ==> Settles(p, DispatchStart(p, ch), ch, o, d)
    ensures GroupOf(p.state) == GStartReq ==> Settles(p, DispatchStartReq(p, ch), ch, o, d)
  {
    GroupStates(p.state);
    hide GroupOf, SeeValue, SeeHeader;
  }

  /** The states of header lines. */
  predicate HeaderLine(s: State) {
    || s.HeaderFieldStart? || s.HeaderField? || s.HeaderValueDiscardWs? || s.HeaderValueDiscardWsAlmostDone?
    || s.HeaderValueDiscardLws? || s.HeaderValueStart? || s.HeaderValue? || s.HeaderValueLws? || s.HeaderAlmostDone?
    || s.HeadersAlmostDone?
  }

  /** A dispatch that stays among the header lines. */
  predicate InHeaders(p: Parser, a: Act) {
    a.next == Fail || (HeaderLine(a.p.state) && a.p.flags.trailing == p.flags.trailing && a.note.None?)
  }

  lemma HeaderLineStates(s: State)
    ensures HeaderLine(s) ==> InHead(s) && !BetweenMessages(s) && !IsBodyState(s)
    ensures GroupOf(s) == GFieldStart || GroupOf(s) == GField || GroupOf(s) == GValue ==> HeaderLine(s)
  {
    LineStates(s);
    GroupStates(s);
    hide GroupOf;
  }

  lemma InHeadersField(p: Parser, ch: Byte)
    ensures GroupOf(p.state) == GFieldStart ==> InHeaders(p, DispatchFieldStart(p, ch))
    ensures GroupOf(p.state) == GField ==> InHeaders(p, DispatchField(p, ch))
  {
    GroupStates(p.state);
    NameKeeps(p, Token(ch), ch);
    hide GroupOf, NameByte;
  }

  lemma InHeadersValueStart(p: Parser, ch: Byte)
    ensures InHeaders(p, ValueStart(p, ch))
  {}

  lemma InHeadersValueByte(p: Parser, ch: Byte)
    requires p.state.HeaderValue?
    ensures InHeaders(p, ValueByte(p, ch))
  {}

  lemma InHeadersValue(p: Parser, ch: Byte)
    requires GroupOf(p.state) == GValue
    ensures InHeaders(p, DispatchValue(p, ch))
  {
    hide GroupOf, ValueStart, ValueByte;
    LineStates(p.state);
    InHeadersValueStart(p, ch);
    if p.state.HeaderValue? {
      InHeadersValueByte(p, ch);
    }
  }

  /** A length read from a header is never the sentinel. */
  lemma LengthSane(p: Parser, a: Act, ch: Byte, o: Seen)
    requires o.length.Some? ==> o.length.value < ULLONG_MAX
    requires GroupOf(p.state) == GFieldStart || GroupOf(p.state) == GField || GroupOf(p.state) == GValue
    requires a.next != Fail && a.note.None? && Wf(a.p) && Agrees(a.p, See(o, p, a, ch))
    requires p.state.HeaderValueStart? ==> a.p.state.HeaderValue?
    ensures var o' := See(o, p, a, ch); o'.chunkTotal == o.chunkTotal && (o'.length.Some? ==> o'.length.value < ULLONG_MAX)
  {
    LineStates(p.state);
    GroupStates(p.state);
    hide GroupOf, IsName, DecValue, WordState, NameState, IsWordAndSpaces, LowerAll;
  }

  lemma SettlesHeader(p: Parser, a: Act, ch: Byte, o: Seen, d: nat)
    requires Balanced(p, o, d) && InHeaders(p, a) && Keeps(a) && StaysInAgreement(p, a, ch, o)
    requires GroupOf(p.state) == GFieldStart || GroupOf(p.state) == GField || GroupOf(p.state) == GValue
    requires a.next != Fail && p.state.HeaderValueStart? ==> a.p.state.HeaderValue?
    ensures Settles(p, a, ch, o, d)
  {
    if a.next != Fail {
      LengthSane(p, a, ch, o);
      HeaderLineStates(p.state);
      HeaderLineStates(a.p.state);
      hide See, GroupOf, Agrees, Wf;
    }
  }

  lemma SettlesHeadEnd(p: Parser, ch: Byte, o: Seen, d: nat)
    requires Dispatching(p) && Agrees(p, o) && Balanced(p, o, d) && GroupOf(p.state) == GHeadEnd
    ensures Settles(p, DispatchHeadEnd(p, ch), ch, o, d)
  {
    GroupStates(p.state);
    FinishBetween(p);
    FinishBetween(p.(nread := 0));
    FinishSame(p);
    FinishSame(p.(nread := 0));
    hide GroupOf, Finish, NeedsEof, SeeValue, SeeHeader;
  }

  lemma FinishSame(p: Parser)
    ensures var f := Finish(p); f.p == p.(state := f.p.state) && f.note == Some(MessageComplete(f.p)) && f.next == Break
  {
    hide NewMessage;
  }

  lemma SettlesDone(p: Parser, ch: Byte, o: Seen, d: nat)
    requires Dispatching(p) && Agrees(p, o) && Balanced(p, o, d) && GroupOf(p.state) == GDone
    ensures Settles(p, Finish(p), ch, o, d)
  {
    GroupStates(p.state);
    FinishBetween(p);
    FinishSame(p);
    hide GroupOf, Finish, SeeValue, SeeHeader;
  }

  lemma SettlesBody(p: Parser, ch: Byte, o: Seen, d: nat)
    requires Dispatching(p) && Balanced(p, o, d) && GroupOf(p.state) == GBody
    ensures Settles(p, DispatchBody(p, 1), ch, o, d)
  {
    GroupStates(p.state);
    hide GroupOf, SeeValue, SeeHeader;
  }

  lemma ChunkDigitStates(p: Parser, ch: Byte)
    requires p.state.ChunkSize?
    ensures var a := ChunkDigit(p, ch);
            a.next == Fail ||
            (a.note.None? && a.p == p.(state := a.p.state, contentLength := a.p.contentLength)
             && (a.p.state.ChunkSize? || a.p.state.ChunkParameters?))
  {}

  lemma SettlesChunkSize(p: Parser, ch: Byte, o: Seen, d: nat)
    requires Dispatching(p) && Agrees(p, o) && Balanced(p, o, d)
    requires p.state.ChunkSizeStart? || p.state.ChunkSize? || p.state.ChunkParameters?
    ensures Settles(p, DispatchChunk(p, ch), ch, o, d)
  {
    hide SeeValue, SeeHeader, HexValue, NameAgrees, NameIs, LineAgrees, ValueAgrees, ChunkDigit, Unhex;
    if p.state.ChunkSize? {
      ChunkDigitStates(p, ch);
    }
  }

  lemma SettlesChunkEdge(p: Parser, ch: Byte, o: Seen, d: nat)
    requires Dispatching(p) && Agrees(p, o) && Balanced(p, o, d)
    requires p.state.ChunkSizeAlmostDone? || p.state.ChunkDataAlmostDone? || p.state.ChunkDataDone?
    ensures Settles(p, DispatchChunk(p, ch), ch, o, d)
  {
    hide SeeValue, SeeHeader, HexValue, NameAgrees, NameIs, LineAgrees, ValueAgrees, ChunkDigit, Unhex;
  }

  lemma SettlesChunk(p: Parser, ch: Byte, o: Seen, d: nat)
    requires Dispatching(p) && Agrees(p, o) && Balanced(p, o, d) && GroupOf(p.state) == GChunk
    ensures Settles(p, DispatchChunk(p, ch), ch, o, d)
  {
    hide GroupOf, Settles, Agrees, Balanced, Dispatching, DispatchChunk;
    LineStates(p.state);
    if p.state.ChunkSizeStart? || p.state.ChunkSize? || p.state.ChunkParameters? {
      SettlesChunkSize(p, ch, o, d);
    } else {
      SettlesChunkEdge(p, ch, o, d);
    }
  }

  // ---------- whole runs ----------

  lemma DispatchSettles(p: Parser, ch: Byte, o: Seen, d: nat)
    requires Dispatching(p) && Agrees(p, o) && BlankIfFold(p, ch) && Balanced(p, o, d)
    ensures Settles(p, Dispatch(p, ch, 1), ch, o, d)
  {
    hide Settles, StaysInAgreement, Agrees, Balanced, Dispatching, Quiet, Keeps, InHeaders, DispatchStart, DispatchStartReq,
      DispatchMethod, DispatchSpacesBeforeUrl, DispatchUrl, DispatchResLine, DispatchReqLine, DispatchFieldStart,
      DispatchField, DispatchValue, DispatchHeadEnd, DispatchBody, DispatchChunk, Finish;
    DispatchAgrees(p, ch, o);
    DispatchKeeps(p, ch, 1);
    if p.state.HeaderValueStart? {
      FoldsToValue(p, ch);
    }
    match GroupOf(p.state) {
      case GStart => SettlesStart(p, ch, o, d);
      case GStartReq => SettlesStart(p, ch, o, d);
      case GMethod => QuietMethod(p, ch); SettlesQuiet(p, DispatchMethod(p, ch), ch, o, d);
      case GSpaces => QuietSpaces(p, ch); SettlesQuiet(p, DispatchSpacesBeforeUrl(p, ch), ch, o, d);
      case GUrl => QuietUrl(p, ch); SettlesQuiet(p, DispatchUrl(p, ch), ch, o, d);
      case GResLine => QuietResLine(p, ch); SettlesQuiet(p, DispatchResLine(p, ch), ch, o, d);
      case GReqLine => QuietReqLine(p, ch); SettlesQuiet(p, DispatchReqLine(p, ch), ch, o, d);
      case GFieldStart => InHeadersField(p, ch); SettlesHeader(p, DispatchFieldStart(p, ch), ch, o, d);
      case GField => InHeadersField(p, ch); SettlesHeader(p, DispatchField(p, ch), ch, o, d);
      case GValue => InHeadersValue(p, ch); SettlesHeader(p, DispatchValue(p, ch), ch, o, d);
      case GHeadEnd => SettlesHeadEnd(p, ch, o, d);
      case GBody => SettlesBody(p, ch, o, d);
      case GChunk => SettlesChunk(p, ch, o, d);
      case GDone => SettlesDone(p, ch, o, d);
    }
  }

  lemma FoldsToValue(p: Parser, ch: Byte)
    requires p.state.HeaderValueStart?
    ensures DispatchValue(p, ch).next == Fail || DispatchValue(p, ch).p.state.HeaderValue?
  {
    ValueStartEnds(p, ch);
    hide ValueStart;
  }

  /** Every end of message told in `out` finds the account settled, unless the connection was upgraded. */
  predicate SettledWhenComplete(out: seq<Event>, delivered: nat, announced: nat) {
    forall i :: 0 <= i < |out| && out[i].MessageComplete? && !out[i].parser.upgrade ==> delivered == announced
  }

  predicate NoneComplete(out: seq<Event>) { forall i :: 0 <= i < |out| ==> !out[i].MessageComplete? }

  lemma SettledAfter(e: seq<Event>, out: seq<Event>, delivered: nat, announced: nat)
    requires NoneComplete(e) && SettledWhenComplete(out, delivered, announced)
    ensures SettledWhenComplete(e + out, delivered, announced)
  {}

  /** The same for the callbacks of one dispatch. */
  lemma EmitSettled(p: Parser, a: Act, ch: Byte, o: Seen, d: nat)
    requires Settles(p, a, ch, o, d) && Tidy(a)
    ensures a.next != Again ==> SettledWhenComplete(Emit(p, a, ch), Tally(p, a, d), Announced(See(o, p, a, ch)))
    ensures a.next == Again ==> NoneComplete(Emit(p, a, ch))
  {
    hide See, Balanced, Announced, OpenKind, Tally;
  }

  lemma TallyDispatch(t: seq<Event>, p: Parser, ch: Byte)
    ensures Delivered(t + Emit(p, Dispatch(p, ch, 1), ch)) == Tally(p, Dispatch(p, ch, 1), Delivered(t))
  {
    DispatchTidy(p, ch, 1);
    if !IsBodyState(p.state) {
      DispatchMarks(p, ch, 1);
      OpenIsText(p.state);
    }
    hide Dispatch, Emit, Tally, OpenKind, IsBodyState;
    TallyEmit(t, p, Dispatch(p, ch, 1), ch);
  }

  lemma OneDispatch(t: seq<Event>, o: Seen, p: Parser, ch: Byte)
    requires Dispatching(p) && Agrees(p, o) && BlankIfFold(p, ch) && Balanced(p, o, Delivered(t))
    ensures var a, o' := Dispatch(p, ch, 1), See(o, p, Dispatch(p, ch, 1), ch);
            var u := t + Emit(p, a, ch);
            && (a.next == Fail ==> a.p.errno != Ok)
            && (a.next == Again ==>
                  && Rank(a.p.state) < Rank(p.state) && Dispatching(a.p) && Agrees(a.p, o')
                  && BlankIfFold(a.p, ch) && NoneComplete(Emit(p, a, ch)))
            && (a.next != Fail ==> Balanced(a.p, o', Delivered(u)))
            && (a.next == Break || a.next == Stop ==> SettledWhenComplete(Emit(p, a, ch), Delivered(u), Announced(o')))
  {
    hide Dispatch, Agrees, Dispatching, Resting, Keeps, See, Emit, Tally, Announced, Balanced, Delivered, Tidy,
      SettledWhenComplete, NoneComplete, Rank;
    var a := Dispatch(p, ch, 1);
    AgainLowersRank(p, ch, 1);
    DispatchKeeps(p, ch, 1);
    KeepsMeans(a);
    DispatchAgrees(p, ch, o);
    DispatchSettles(p, ch, o, Delivered(t));
    DispatchTidy(p, ch, 1);
    EmitSettled(p, a, ch, o, Delivered(t));
    TallyDispatch(t, p, ch);
  }

  lemma {:induction false} SettleBalances(t: seq<Event>, o: Seen, p: Parser, ch: Byte)
    requires Dispatching(p) && Agrees(p, o) && BlankIfFold(p, ch) && Balanced(p, o, Delivered(t))
    ensures var r, o' := Settle(p, ch), SeeByte(o, p, ch);
            r.p.errno == Ok ==>
              && Balanced(r.p, o', Delivered(t + r.out))
              && SettledWhenComplete(r.out, Delivered(t + r.out), Announced(o'))
    decreases Rank(p.state)
  {
    hide Dispatch, Agrees, Dispatching, See, Emit, Announced, Balanced, Delivered, SettledWhenComplete, NoneComplete,
      BlankIfFold, Rank;
    OneDispatch(t, o, p, ch);
    var a := Dispatch(p, ch, 1);
    var e := Emit(p, a, ch);
    if a.next == Again {
      var r, o' := Settle(a.p, ch), See(o, p, a, ch);
      SettleBalances(t + e, o', a.p, ch);
      assert t + (e + r.out) == t + e + r.out;
      if r.p.errno == Ok {
        SettledAfter(e, r.out, Delivered(t + e + r.out), Announced(SeeByte(o', a.p, ch)));
      }
    }
  }

  lemma CountBalanced(p: Parser, o: Seen, d: nat)
    requires Balanced(p, o, d)
    ensures Balanced(Count(p), o, d)
  {}

  /**
   On every run from a fresh parser, what was announced and not yet delivered is what the
   parser still expects, and the byte that completes a message finds all of it delivered.
   */
  lemma {:induction false} BodyConserved(kind: ParserType, data: seq<Byte>)
    ensures var r, o := Run(Start(kind), data), Watch(kind, data);
            r.p.errno == Ok ==> Balanced(r.p, o, Delivered(r.out))
    ensures |data| > 0 ==>
              var last := ByteStep(Run(Start(kind), data[..|data| - 1]).p, data[|data| - 1]);
              last.p.errno == Ok ==>
                SettledWhenComplete(last.out, Delivered(Run(Start(kind), data).out), Announced(Watch(kind, data)))
  {
    var p := Run(Start(kind), data).p;
    if |data| > 0 && p.errno == Ok {
      var d, ch := data[..|data| - 1], data[|data| - 1];
      var q := Run(Start(kind), d);
      hide Agrees, ByteStep, Resting, Dispatching, Balanced, SettledWhenComplete, Announced, Delivered;
      ErrorsStay(q.p, ch);
      BodyConserved(kind, d);
      RecognisersAgree(kind, d);
      InitRests(kind);
      RunKeeps(Start(kind), d);
      CountKeeps(q.p);
      CountAgrees(q.p, Watch(kind, d));
      CountBalanced(q.p, Watch(kind, d), Delivered(q.out));
      CountState(q.p);
      RestingNoFold(q.p);
      SettleBalances(q.out, Watch(kind, d), Count(q.p), ch);
      ByteIsSettle(q.p, ch);
    }
  }
}

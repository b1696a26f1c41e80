/** What a header line does to the parser, told by string comparison on its name and value. */
module HttpHeaders {
  import opened Options
  import opened HttpTypes
  import opened HttpDispatch
  import opened HttpMachine
  import opened HttpInvariant
  import opened HttpRuns
  import opened HttpTrace
  import opened HttpText
  import opened HttpSteps
  import opened HttpRecognise
  import opened HttpLines

  // ---------- between lines ----------

  /** The states between two header lines. */
  predicate AtLine(s: State) { s.HeaderFieldStart? || s.HeaderValueLws? || s.HeaderValueDiscardLws? }

  /** The line before is closed by the first byte after it, when that byte is not a blank. */
  function Ended(s: Snapshot): Snapshot {
    if s.p.state.HeaderValueLws? then Snapshot(HeaderFinished(s.p), s.out)
    else if s.p.state.HeaderValueDiscardLws? then Snapshot(s.p.(state := HeaderFieldStart), s.out + [Data(ValueData, [])])
    else s
  }

  /** The fields that outlive a header line. */
  function Norm(p: Parser): Parser { p.(index := 0, headerState := HGeneral, nread := 0, state := Dead) }

  lemma EndedCounted(s: Snapshot)
    requires AtLine(s.p.state)
    ensures var e := Ended(Snapshot(Counted(s.p), []));
            && e.p == Counted(Ended(s).p) && s.out + e.out == Ended(s).out
            && e.p.state.HeaderFieldStart?
  {}

  /** The first byte of a line, when it is not a blank. */
  lemma LineBegins(p: Parser, ch: Byte)
    requires Ready(p) && AtLine(p.state) && ch != SP && ch != HT
    ensures var e := Ended(Snapshot(Counted(p), []));
            ByteStep(p, ch) == Snapshot(Settle(e.p, ch).p, e.out + Settle(e.p, ch).out)
  {
    hide Dispatch, HeaderFinished, Settle, ValueStart, ValueByte;
    var q := Counted(p);
    if !p.state.HeaderFieldStart? {
      DispatchOfValue(q, ch);
      SettleStep(q, ch, Dispatch(q, ch, 1));
    }
  }

  lemma NameFirst(p: Parser, ch: Byte)
    requires Ready(p) && AtLine(p.state) && Token(ch) != 0
    ensures var e := Ended(Snapshot(Counted(p), []));
            ByteStep(p, ch) == Snapshot(e.p.(index := 0, state := HeaderField, headerState := NameStart(Token(ch))),
                                        e.out + [Data(FieldData, [ch])])
  {
    hide Dispatch, Settle, ByteStep, NameStart, Ended, Token;
    EndedCounted(Snapshot(p, []));
    TokenFacts(ch);
    LineBegins(p, ch);
    var q := Ended(Snapshot(Counted(p), [])).p;
    DispatchOfFieldStart(q, ch);
    SettleStep(q, ch, Dispatch(q, ch, 1));
  }

  lemma TokenFacts(ch: Byte)
    requires Token(ch) != 0
    ensures ch != SP && ch != HT && ch != CR && ch != LF && ch != 58
  {}

  // ---------- the name ----------

  lemma NameNext(p: Parser, ch: Byte)
    requires Ready(p) && p.state.HeaderField? && Token(ch) != 0
    ensures ByteStep(p, ch) == Snapshot(NameByte(Counted(p), Token(ch), ch), [Data(FieldData, [ch])])
  {
    hide Dispatch, ByteStep, NameByte, Token;
    DispatchOfField(Counted(p), ch);
    NameKeeps(Counted(p), Token(ch), ch);
    PlainByte(p, ch);
  }

  lemma NameEnds(p: Parser)
    requires Ready(p) && p.state.HeaderField?
    ensures ByteStep(p, 58) == Snapshot(Counted(p).(state := HeaderValueDiscardWs), [])
  {
    hide Dispatch, ByteStep, NameByte, Token;
    DispatchOfField(Counted(p), 58);
    ColonIsNoToken();
    PlainByte(p, 58);
  }

  lemma ColonIsNoToken()
    ensures Token(58) == 0
  {}

  predicate IsToken(name: seq<Byte>) { |name| > 0 && forall c :: c in name ==> Token(c) != 0 }

  /** The parser has read `name`, the name of a header whose line began at `e`. */
  predicate InName(r: Snapshot, e: Snapshot, name: seq<Byte>) {
    && r.p.state.HeaderField? && NameAgrees(r.p, name) && r.p.nread == e.p.nread + |name|
    && Norm(r.p) == Norm(e.p) && r.out == e.out + Singles(FieldData, name)
  }

  lemma NameBegun(s: Snapshot, ch: Byte)
    requires AtLine(s.p.state) && Token(ch) != 0 && Room(s.p, 1)
    ensures InName(Run(s, [ch]), Ended(s), [ch])
  {
    hide ByteStep, Token, NameStart, NameByte, NameAgrees, Run, Ended;
    RunOne(s, ch);
    NameFirst(s.p, ch);
    EndedCounted(s);
    NameBegins(Counted(Ended(s).p).(state := HeaderField), ch);
    SinglesOne(FieldData, ch);
  }

  lemma NameGone(s: Snapshot, e: Snapshot, d: seq<Byte>, name: seq<Byte>, ch: Byte)
    requires InName(Run(s, d), e, name) && Token(ch) != 0 && Room(e.p, |name| + 1)
    ensures InName(Run(s, d + [ch]), e, name + [ch])
  {
    hide ByteStep, Token, NameStart, NameByte, NameAgrees, Run;
    var q := Run(s, d).p;
    assert q.errno == Norm(q).errno == Norm(e.p).errno;
    RunSnoc(s, d, ch);
    NameNext(q, ch);
    NameCounted(q, name);
    NameGrows(Counted(q), name, ch);
    NameKeeps(Counted(q), Token(ch), ch);
    SinglesConcat(FieldData, name, [ch]);
    SinglesOne(FieldData, ch);
    assert e.out + Singles(FieldData, name + [ch]) == e.out + Singles(FieldData, name) + [Data(FieldData, [ch])];
  }

  lemma {:induction false} NameRun(s: Snapshot, name: seq<Byte>)
    requires AtLine(s.p.state) && IsToken(name) && Room(s.p, |name|)
    ensures InName(Run(s, name), Ended(s), name)
  {
    hide Token, Run, Ended, InName;
    var c, ch := name[..|name| - 1], name[|name| - 1];
    assert ch in name && name == c + [ch];
    if |c| == 0 {
      assert name == [ch];
      NameBegun(s, ch);
    } else {
      assert IsToken(c);
      NameRun(s, c);
      EndedKeeps(s);
      NameGone(s, Ended(s), c, c, ch);
    }
  }

  lemma NameCounted(p: Parser, name: seq<Byte>)
    ensures NameAgrees(Counted(p), name) == NameAgrees(p, name)
  {
    hide NameState, LowerAll;
  }

  lemma EndedKeeps(s: Snapshot)
    requires AtLine(s.p.state)
    ensures Ended(s).p.errno == s.p.errno && Ended(s).p.nread == s.p.nread && Ended(s).p.state.HeaderFieldStart?
  {}

  // ---------- the value ----------

  /** What a parser takes from a value as it reads it. */
  function Said(p: Parser, name: seq<Byte>, v: seq<Byte>): Parser {
    p.(contentLength := if IsName(name, W_CONTENT_LENGTH) then DecValue(v) else p.contentLength,
    flags := p.flags.(upgrade := p.flags.upgrade || IsName(name, W_UPGRADE)))
  }

  predicate InValue(r: Snapshot, e: Snapshot, name: seq<Byte>, v: seq<Byte>) {
    && r.p.state.HeaderValue? && ValueAgrees(r.p, name, v, false) && r.p.nread == e.p.nread + |v|
    && Norm(r.p) == Said(Norm(e.p), name, v) && r.out == e.out + Singles(ValueData, v)
  }

  /** A value byte the parser takes: no line end, and a digit in Content-Length. */
  predicate ByteFits(name: seq<Byte>, ch: Byte) {
    ch != CR && ch != LF && (IsName(name, W_CONTENT_LENGTH) ==> IsNum(ch))
  }

  lemma ValueStartKeeps(p: Parser, ch: Byte)
    ensures var a := ValueStart(p, ch);
            && a.p == p.(state := HeaderValue, index := 0, headerState := a.p.headerState,
                      contentLength := a.p.contentLength, flags := a.p.flags, errno := a.p.errno)
            && (p.headerState.HContentLength? ==> IsNum(ch)) == Plain(a)
            && (Plain(a) ==> a.p.errno == p.errno)
  {}

  lemma ValueFirst(p: Parser, name: seq<Byte>, ch: Byte)
    requires Ready(p) && p.state.HeaderValueDiscardWs? && p.headerState == NameState(LowerAll(name))
    requires ByteFits(name, ch) && ch != SP && ch != HT
    ensures var q := ValueStart(Counted(p), ch).p;
            && ByteStep(p, ch) == Snapshot(q, [Data(ValueData, [ch])])
            && ValueAgrees(q, name, [ch], false) && Begun(Counted(p), q, name, [ch]) && q.errno == Ok
  {
    hide Dispatch, ByteStep, ValueStart, NameState, LowerAll, ValueAgrees, Begun, IsName;
    DispatchOfValue(Counted(p), ch);
    ValueStartKeeps(Counted(p), ch);
    ValueBegins(Counted(p), name, ch);
    NameMeaning(name);
    PlainByte(p, ch);
  }

  lemma ValueBegun(s: Snapshot, name: seq<Byte>, ch: Byte)
    requires s.p.state.HeaderValueDiscardWs? && s.p.headerState == NameState(LowerAll(name)) && Room(s.p, 1)
    requires ByteFits(name, ch) && ch != SP && ch != HT
    ensures InValue(Run(s, [ch]), s, name, [ch])
  {
    hide ByteStep, Run, NameState, LowerAll, ValueAgrees, IsName, DecValue, ValueStart, ByteFits;
    RunOne(s, ch);
    ValueFirst(s.p, name, ch);
    ValueStartKeeps(Counted(s.p), ch);
    SinglesOne(ValueData, ch);
  }

  /** The overflow test of Content-Length lets every number through up to here. */
  const MAX_LENGTH: nat := ULLONG_MAX - 10

  lemma LengthDigitFits(p: Parser, ch: Byte)
    requires IsNum(ch) && p.contentLength * 10 + (ch - 48) <= MAX_LENGTH
    ensures LengthDigit(p, ch).next == Break
  {}

  lemma ValueByteMovesOn(p: Parser, ch: Byte)
    ensures var a := ValueByte(p, ch);
            && a.note.None? && a.mark.None? && a.p.state == p.state
            && (!p.headerState.HContentLength? ==> a.next == Break)
            && (p.headerState.HContentLength? ==> a == LengthDigit(p, ch))
  {
    hide Lower;
  }

  lemma ValueNext(p: Parser, name: seq<Byte>, v: seq<Byte>, ch: Byte)
    requires Resting(p) && Ready(p) && p.state.HeaderValue? && ValueAgrees(p, name, v, false)
    requires ByteFits(name, ch) && (IsName(name, W_CONTENT_LENGTH) ==> DecValue(v + [ch]) <= MAX_LENGTH)
    ensures var q := ValueByte(Counted(p), ch).p;
            && ByteStep(p, ch) == Snapshot(q, [Data(ValueData, [ch])])
            && ValueAgrees(q, name, v + [ch], false)
            && q == Counted(p).(index := q.index, headerState := q.headerState, contentLength := q.contentLength)
            && q.contentLength == if IsName(name, W_CONTENT_LENGTH) then DecValue(v + [ch]) else p.contentLength
  {
    hide Dispatch, ByteStep, ValueByte, ValueAgrees, DecValue, Resting, Dispatching, IsName, LengthDigit;
    var q := Counted(p);
    DispatchOfValue(q, ch);
    CountKeeps(p);
    ValueCounted(p, name, v);
    ValueGrows(q, name, v, false, ch);
    ValueByteMovesOn(q, ch);
    DecSnoc(v, ch);
    LengthState(p, name, v);
    if IsName(name, W_CONTENT_LENGTH) {
      LengthDigitFits(q, ch);
    }
    PlainByte(p, ch);
  }

  lemma LengthState(p: Parser, name: seq<Byte>, v: seq<Byte>)
    requires ValueAgrees(p, name, v, false)
    ensures p.headerState.HContentLength? <==> IsName(name, W_CONTENT_LENGTH)
    ensures p.headerState.HContentLength? ==> p.contentLength == DecValue(v)
  {
    hide WordState, IsName, DecValue, LowerCase, IsConnectionName;
  }

  lemma ValueCounted(p: Parser, name: seq<Byte>, v: seq<Byte>)
    ensures ValueAgrees(Counted(p), name, v, false) == ValueAgrees(p, name, v, false)
  {
    hide WordState, IsName, DecValue, LowerCase, IsConnectionName;
  }

  /** A value the parser takes whole. */
  predicate IsValue(name: seq<Byte>, v: seq<Byte>) {
    && (forall c :: c in v ==> ByteFits(name, c))
    && (v != [] ==> v[0] != SP && v[0] != HT)
    && (IsName(name, W_CONTENT_LENGTH) ==> DecValue(v) <= MAX_LENGTH)
  }

  lemma ValueFront(name: seq<Byte>, v: seq<Byte>)
    requires IsValue(name, v) && |v| > 1
    ensures IsValue(name, v[..|v| - 1])
  {
    hide ByteFits;
  }

  lemma ValueGone(s: Snapshot, e: Snapshot, d: seq<Byte>, name: seq<Byte>, v: seq<Byte>, ch: Byte)
    requires InValue(Run(s, d), e, name, v) && Resting(Run(s, d).p) && Room(e.p, |v| + 1)
    requires ByteFits(name, ch) && (IsName(name, W_CONTENT_LENGTH) ==> DecValue(v + [ch]) <= MAX_LENGTH)
    ensures InValue(Run(s, d + [ch]), e, name, v + [ch])
  {
    hide ByteStep, Run, ValueAgrees, IsName, DecValue, ValueByte, ByteFits, Resting;
    var q := Run(s, d).p;
    assert q.errno == Norm(q).errno == Norm(e.p).errno;
    RunSnoc(s, d, ch);
    ValueNext(q, name, v, ch);
    SinglesConcat(ValueData, v, [ch]);
    SinglesOne(ValueData, ch);
    assert e.out + Singles(ValueData, v + [ch]) == e.out + Singles(ValueData, v) + [Data(ValueData, [ch])];
  }

  lemma {:induction false} ValueRun(s: Snapshot, name: seq<Byte>, v: seq<Byte>)
    requires s.p.state.HeaderValueDiscardWs? && s.p.headerState == NameState(LowerAll(name)) && Room(s.p, |v|)
    requires Resting(s.p) && v != [] && IsValue(name, v)
    ensures InValue(Run(s, v), s, name, v)
  {
    hide Run, InValue, NameState, LowerAll, Resting, IsName, DecValue, ByteFits;
    var c, ch := v[..|v| - 1], v[|v| - 1];
    assert ch in v && v == c + [ch];
    if |c| == 0 {
      assert v == [ch];
      ValueBegun(s, name, ch);
    } else {
      ValueFront(name, v);
      ValueRun(s, name, c);
      InValueOk(Run(s, c), s, name, c);
      RunKeeps(s, c);
      ValueGone(s, s, c, name, c, ch);
    }
  }

  lemma InValueOk(r: Snapshot, e: Snapshot, name: seq<Byte>, v: seq<Byte>)
    requires InValue(r, e, name, v)
    ensures r.p.errno == e.p.errno
  {
    assert r.p.errno == Norm(r.p).errno == Norm(e.p).errno;
  }

  // ---------- the line ----------

  lemma BlankSkipped(p: Parser)
    requires Ready(p) && p.state.HeaderValueDiscardWs?
    ensures ByteStep(p, SP) == Snapshot(Counted(p), [])
  {
    hide Dispatch, ByteStep, ValueStart;
    DispatchOfValue(Counted(p), SP);
    PlainByte(p, SP);
  }

  lemma LineReturns(p: Parser)
    requires Ready(p) && (p.state.HeaderValueDiscardWs? || p.state.HeaderValue?)
    ensures ByteStep(p, CR)
         == Snapshot(Counted(p).(
              state := if p.state.HeaderValue? then HeaderAlmostDone else HeaderValueDiscardWsAlmostDone), [])
  {
    hide Dispatch, ByteStep, ValueStart, ValueByte;
    DispatchOfValue(Counted(p), CR);
    PlainByte(p, CR);
  }

  lemma LineFeeds(p: Parser)
    requires Ready(p) && (p.state.HeaderAlmostDone? || p.state.HeaderValueDiscardWsAlmostDone?)
    ensures ByteStep(p, LF)
         == Snapshot(Counted(p).(state := if p.state.HeaderAlmostDone? then HeaderValueLws else HeaderValueDiscardLws), [])
  {
    hide Dispatch, ByteStep, ValueStart, ValueByte;
    DispatchOfValue(Counted(p), LF);
    PlainByte(p, LF);
  }

  lemma LineEnds(s: Snapshot)
    requires (s.p.state.HeaderValueDiscardWs? || s.p.state.HeaderValue?) && Room(s.p, 2)
    ensures Run(s, [CR] + [LF])
         == Snapshot(Later(s.p, 2).(
              state := if s.p.state.HeaderValue? then HeaderValueLws else HeaderValueDiscardLws), s.out)
  {
    hide Run, ByteStep;
    RunOne(s, CR);
    LineReturns(s.p);
    RunSnoc(s, [CR], LF);
    LineFeeds(Run(s, [CR]).p);
    assert s.out + [] == s.out;
  }

  function HeaderText(name: seq<Byte>, v: seq<Byte>): seq<Byte> { name + [58] + [SP] + v + ([CR] + [LF]) }

  function HeaderEvents(name: seq<Byte>, v: seq<Byte>): seq<Event> {
    Singles(FieldData, name) + if v == [] then [Data(ValueData, [])] else Singles(ValueData, v)
  }

  /** What a whole header line means to the parser, by comparing strings. */
  function Effect(p: Parser, name: seq<Byte>, v: seq<Byte>): Parser {
    if v == [] then p
    else
      var q := Said(p, name, v);
      q.(flags := q.flags.(
        chunked := q.flags.chunked || (IsName(name, W_TRANSFER_ENCODING) && IsWordAndSpaces(v, W_CHUNKED)),
        keepAlive := q.flags.keepAlive || (IsConnectionName(name) && IsWordAndSpaces(v, W_KEEP_ALIVE)),
        close := q.flags.close || (IsConnectionName(name) && IsWordAndSpaces(v, W_CLOSE))))
  }

  lemma LineMeans(p: Parser, name: seq<Byte>, v: seq<Byte>, q: Parser)
    requires ValueAgrees(p, name, v, false) && Norm(p) == Said(q, name, v)
    ensures Norm(HeaderFinished(p)) == Effect(q, name, v)
  {
    hide IsName, IsConnectionName, IsWordAndSpaces, DecValue, ValueAgrees;
    WordMeaning(p, BLANK.(name := name, value := Some(v)));
    ValueNotEmpty(p, name, v);
  }

  lemma ValueNotEmpty(p: Parser, name: seq<Byte>, v: seq<Byte>)
    requires ValueAgrees(p, name, v, false)
    ensures v != []
  {
    hide IsName, WordAgrees, DecValue;
  }

  /** The name, the colon and the blank. */
  lemma PromptRun(s: Snapshot, name: seq<Byte>)
    requires AtLine(s.p.state) && IsToken(name) && Room(s.p, |name| + 2)
    ensures var r := Run(s, name + [58] + [SP]);
            && r.p.state.HeaderValueDiscardWs? && r.p.headerState == NameState(LowerAll(name))
            && r.p.nread == s.p.nread + |name| + 2
            && Norm(r.p) == Norm(Ended(s).p) && r.out == Ended(s).out + Singles(FieldData, name)
  {
    hide Run, ByteStep, NameState, LowerAll, IsToken, Ended, Singles;
    NameRun(s, name);
    EndedKeeps(s);
    var q := Run(s, name).p;
    assert q.errno == Norm(q).errno == Norm(Ended(s).p).errno;
    NameEnds(q);
    RunSnoc(s, name, 58);
    BlankSkipped(Run(s, name + [58]).p);
    RunSnoc(s, name + [58], SP);
    assert Run(s, name).out + [] == Run(s, name).out;
  }

  /** A header line: its name and value are reported byte by byte, and its effect is that of the strings. */
  lemma HeaderRun(s: Snapshot, name: seq<Byte>, v: seq<Byte>)
    requires AtLine(s.p.state) && Resting(s.p) && IsToken(name) && IsValue(name, v)
    requires Room(s.p, |HeaderText(name, v)|)
    ensures var r := Run(s, HeaderText(name, v));
            && AtLine(r.p.state) && r.p.errno == Ok && r.p.nread == s.p.nread + |HeaderText(name, v)|
            && Ended(r).out == Ended(s).out + HeaderEvents(name, v)
            && Norm(Ended(r).p) == Effect(Norm(Ended(s).p), name, v)
  {
    hide Run, NameState, LowerAll, IsToken, IsValue, Singles, Resting, ValueAgrees, HeaderFinished, IsName, Effect;
    var d := name + [58] + [SP];
    PromptRun(s, name);
    var t := Run(s, d);
    EndedKeeps(s);
    assert t.p.errno == Norm(t.p).errno == Norm(Ended(s).p).errno;
    RunKeeps(s, d);
    if v == [] {
      assert d + v == d;
      LineEnds(t);
      RunThen(s, d, [CR] + [LF], t);
      EffectOfNothing(Norm(t.p), name);
      assert Ended(s).out + HeaderEvents(name, v) == t.out + [Data(ValueData, [])];
    } else {
      ValueRun(t, name, v);
      var u := Run(t, v);
      InValueOk(u, t, name, v);
      RunThen(s, d, v, t);
      LineEnds(u);
      RunThen(s, d + v, [CR] + [LF], u);
      FinishedLater(u.p);
      LineMeans(u.p, name, v, Norm(Ended(s).p));
      assert Ended(s).out + HeaderEvents(name, v) == t.out + Singles(ValueData, v);
    }
  }

  lemma EffectOfNothing(p: Parser, name: seq<Byte>)
    ensures Effect(p, name, []) == p
  {}

  lemma FinishedLater(p: Parser)
    ensures var q := HeaderFinished(Later(p, 2).(state := HeaderValueLws));
            && Norm(q) == Norm(HeaderFinished(p)) && q.errno == p.errno
  {}
}

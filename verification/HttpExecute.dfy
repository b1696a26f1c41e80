/**
 http_parser_execute as the source runs it: a loop over a caller's buffer that keeps marks
 into that buffer, hands out slices of it in data callbacks, and swallows body bytes in bulk.
 It is proved to compute what the byte machine computes, whatever the buffers are.
 */
module HttpExecute {
  import opened Options
  import opened HttpTypes
  import opened HttpDispatch
  import opened HttpMachine
  import opened HttpTrace
  import opened HttpInvariant
  import opened HttpMarks
  import opened HttpRuns

  type Marks = map<Kind, nat>

  // ---------- marks and the callbacks made from them ----------

  function SetMark(marks: Marks, mark: Option<Kind>, i: nat): Marks {
    if mark.Some? && mark.value !in marks then marks[mark.value := i] else marks
  }

  function ClearMark(marks: Marks, flush: Option<Kind>): Marks {
    if flush.Some? then marks - {flush.value} else marks
  }

  /** The data callback for mark `k` on data[mark..end], if the mark is set. */
  function Slice(data: seq<Byte>, marks: Marks, k: Kind, end: nat): seq<Event>
    requires end <= |data| && (k in marks ==> marks[k] <= end)
  {
    if k in marks then [Data(k, data[marks[k]..end])] else []
  }

  predicate InBuffer(marks: Marks, end: nat) { forall k :: k in marks ==> marks[k] <= end }

  /** The callbacks after the loop, in the order the source makes them. */
  function Leftover(data: seq<Byte>, marks: Marks, end: nat): seq<Event>
    requires end <= |data| && InBuffer(marks, end)
  {
    Slice(data, marks, FieldData, end) + Slice(data, marks, ValueData, end) + Slice(data, marks, UrlData, end)
    + Slice(data, marks, BodyData, end) + Slice(data, marks, StatusData, end)
  }

  lemma LeftoverOne(data: seq<Byte>, marks: Marks, end: nat, k: Kind)
    requires end <= |data| && InBuffer(marks, end)
    requires marks.Keys <= {k}
    ensures Leftover(data, marks, end) == Slice(data, marks, k, end)
  {}

  lemma LeftoverNone(data: seq<Byte>, marks: Marks, end: nat)
    requires end <= |data| && marks == map[]
    ensures Leftover(data, marks, end) == []
  {}

  // ---------- one dispatch, outside the body ----------

  /** The marks that can be open when a dispatch outside the body starts. */
  predicate MarksFit(s: State, marks: Marks) {
    match OpenKind(s)
    case Some(k) => marks.Keys == {k}
    case None => if s.ChunkDataAlmostDone? then marks.Keys <= {BodyData} else marks == map[]
  }

  function CallsOf(data: seq<Byte>, marks: Marks, a: Act, i: nat): seq<Event>
    requires i <= |data| && InBuffer(marks, i)
  {
    (if a.flush.Some? then Slice(data, SetMark(marks, a.mark, i), a.flush.value, i) else [])
    + (if a.note.Some? then [a.note.value] else [])
  }

  function MarksOf(marks: Marks, a: Act, i: nat): Marks { ClearMark(SetMark(marks, a.mark, i), a.flush) }

  /** The position that the open data reaches after this dispatch. */
  function Reach(a: Act, i: nat): nat { if a.next == Again then i else i + 1 }

  /** A dispatch that finds mark `k` open reports the same text as the byte machine. */
  lemma LinkOpen(p: Parser, a: Act, k: Kind, calls: seq<Event>, out: seq<Event>, data: seq<Byte>, marks: Marks, i: nat)
    requires i < |data| && InBuffer(marks, i) && !IsBodyState(p.state)
    requires OpenKind(p.state) == Some(k) && FromOpen(k, a) && marks.Keys == {k} && a.next != Fail
    requires Join(calls + Leftover(data, marks, i)) == Join(out)
    ensures MarksFit(a.p.state, MarksOf(marks, a, i))
    ensures InBuffer(MarksOf(marks, a, i), i)
    ensures Join(calls + CallsOf(data, marks, a, i) + Leftover(data, MarksOf(marks, a, i), Reach(a, i)))
         == Join(out + Emit(p, a, data[i]))
  {
    hide Join, OpenKind, Leftover;
    var m := marks[k];
    LeftoverOne(data, marks, i, k);
    if a.flush.Some? {
      assert MarksOf(marks, a, i) == map[];
      LeftoverNone(data, map[], Reach(a, i));
      assert calls + CallsOf(data, marks, a, i) + [] == calls + Leftover(data, marks, i);
      assert out + Emit(p, a, data[i]) == out;
    } else {
      assert MarksOf(marks, a, i) == marks;
      LeftoverOne(data, marks, i + 1, k);
      assert data[m..i + 1] == data[m..i] + [data[i]];
      assert CallsOf(data, marks, a, i) == [];
      assert calls + [] + [Data(k, data[m..i + 1])] == calls + [Data(k, data[m..i] + [data[i]])];
      JoinCut(calls, k, data[m..i], [data[i]]);
      JoinSame(calls + [Data(k, data[m..i])], out, [Data(k, [data[i]])]);
      assert calls + [Data(k, data[m..i])] + [Data(k, [data[i]])] == calls + [Data(k, data[m..i]), Data(k, [data[i]])];
      assert Emit(p, a, data[i]) == [Data(k, [data[i]])];
    }
  }

  /** So does one that finds no text mark open. */
  lemma LinkClosed(p: Parser, a: Act, calls: seq<Event>, out: seq<Event>, data: seq<Byte>, marks: Marks, i: nat)
    requires i < |data| && InBuffer(marks, i) && !IsBodyState(p.state)
    requires OpenKind(p.state).None? && FromClosed(p.state, a) && MarksFit(p.state, marks) && a.next != Fail
    requires Join(calls + Leftover(data, marks, i)) == Join(out)
    ensures MarksFit(a.p.state, MarksOf(marks, a, i))
    ensures InBuffer(MarksOf(marks, a, i), i)
    ensures Join(calls + CallsOf(data, marks, a, i) + Leftover(data, MarksOf(marks, a, i), Reach(a, i)))
         == Join(out + Emit(p, a, data[i]))
  {
    hide Join, OpenKind, Leftover;
    if p.state.ChunkDataAlmostDone? {
      LeftoverOne(data, marks, i, BodyData);
      assert MarksOf(marks, a, i) == map[];
      LeftoverNone(data, map[], Reach(a, i));
      assert calls + CallsOf(data, marks, a, i) + [] == calls + Leftover(data, marks, i);
      assert out + Emit(p, a, data[i]) == out;
    } else {
      LeftoverNone(data, marks, i);
      assert calls + [] == calls;
      if a.mark.Some? && a.flush.None? {
        var k := a.mark.value;
        assert MarksOf(marks, a, i) == map[k := i];
        LeftoverOne(data, map[k := i], i + 1, k);
        assert data[i..i + 1] == [data[i]];
        assert CallsOf(data, marks, a, i) == [];
      } else {
        assert MarksOf(marks, a, i) == map[];
        LeftoverNone(data, map[], Reach(a, i));
        assert data[i..i] == [];
        assert CallsOf(data, marks, a, i) == Emit(p, a, data[i]);
      }
      JoinSame(calls, out, Emit(p, a, data[i]));
      assert calls + CallsOf(data, marks, a, i) + Leftover(data, MarksOf(marks, a, i), Reach(a, i))
          == calls + Emit(p, a, data[i]);
    }
  }

  /** A dispatch outside the body keeps the object in step with the byte machine. */
  lemma Link(p: Parser, a: Act, calls: seq<Event>, out: seq<Event>, data: seq<Byte>, marks: Marks, i: nat)
    requires i < |data| && InBuffer(marks, i) && !IsBodyState(p.state)
    requires MarksOk(p, a) && MarksFit(p.state, marks)
    requires Join(calls + Leftover(data, marks, i)) == Join(out)
    ensures a.skip == 0
    ensures a.next == Fail ==> Emit(p, a, data[i]) == []
    ensures a.next != Fail ==>
              && MarksFit(a.p.state, MarksOf(marks, a, i)) && InBuffer(MarksOf(marks, a, i), i)
              && Join(calls + CallsOf(data, marks, a, i) + Leftover(data, MarksOf(marks, a, i), Reach(a, i)))
                 == Join(out + Emit(p, a, data[i]))
  {
    hide Join, OpenKind, Leftover;
    if a.next != Fail {
      match OpenKind(p.state) {
        case Some(k) => LinkOpen(p, a, k, calls, out, data, marks, i);
        case None => LinkClosed(p, a, calls, out, data, marks, i);
      }
    }
  }

  // ---------- body bytes in bulk ----------

  /** A parser in a body state that reads `d`, no longer than what is left of the body. */
  function AfterBody(p: Parser, d: seq<Byte>, out: seq<Event>): Snapshot {
    var t := out + Singles(BodyData, d);
    if p.state.BodyIdentityEof? then Snapshot(p, t)
    else if |d| < p.contentLength then Snapshot(p.(contentLength := p.contentLength - |d|), t)
    else if p.state.ChunkData? then Snapshot(p.(contentLength := 0, state := ChunkDataAlmostDone), t)
    else
      var q := Finish(p.(contentLength := 0, state := MessageDone)).p;
      Snapshot(q, t + [MessageComplete(q)])
  }

  lemma SingleOne(ch: Byte)
    ensures Singles(BodyData, [ch]) == [Data(BodyData, [ch])]
  {
    assert [ch][..0] == [];
  }

  lemma DispatchInBody(p: Parser, ch: Byte, avail: nat)
    requires avail >= 1
    ensures IsBodyState(p.state) ==> Dispatch(p, ch, avail) == DispatchBody(p, avail)
    ensures p.state.MessageDone? ==> Dispatch(p, ch, avail) == Finish(p)
  {
    hide DispatchBody, Finish;
  }

  lemma BodyByte(p: Parser, ch: Byte)
    requires Resting(p) && IsBodyState(p.state)
    ensures ByteStep(p, ch) == AfterBody(p, [ch], [])
  {
    SingleOne(ch);
    hide Singles, Dispatch;
    DispatchInBody(p, ch, 1);
    var q := p.(contentLength := 0, state := MessageDone);
    DispatchInBody(q, ch, 1);
    if p.state.BodyIdentity? && p.contentLength == 1 {
      assert Settle(q, ch) == Snapshot(Finish(q).p, [MessageComplete(Finish(q).p)]);
    }
  }

  lemma BodyLeft(p: Parser, n: nat)
    requires Resting(p) && IsBodyState(p.state)
    requires !p.state.BodyIdentityEof? && n < p.contentLength
    ensures Resting(p.(contentLength := p.contentLength - n))
  {}

  /** Swallowing body bytes in bulk is reading them one at a time. */
  lemma {:induction false} BodyRun(p: Parser, d: seq<Byte>, out: seq<Event>)
    requires Resting(p) && IsBodyState(p.state) && |d| > 0
    requires !p.state.BodyIdentityEof? ==> |d| <= p.contentLength
    ensures Run(Snapshot(p, out), d) == AfterBody(p, d, out)
  {
    hide ByteStep, Finish, Resting;
    var c, b := d[..|d| - 1], d[|d| - 1];
    if |c| == 0 {
      BodyByte(p, b);
      assert d == [b];
      assert Run(Snapshot(p, out), c) == Snapshot(p, out);
      assert out + Singles(BodyData, [b]) == out + ([] + Singles(BodyData, [b]));
    } else {
      BodyRun(p, c, out);
      var q := AfterBody(p, c, out).p;
      if !p.state.BodyIdentityEof? {
        BodyLeft(p, |c|);
      }
      BodyByte(q, b);
      assert out + Singles(BodyData, d) == out + Singles(BodyData, c) + Singles(BodyData, [b]) by {
        SingleOne(b);
      }
    }
  }

  /** What the bulk cases do, in terms of the bytes they swallow. */
  lemma BodyFacts(p: Parser, avail: nat, d: seq<Byte>, out: seq<Event>)
    requires Resting(p) && IsBodyState(p.state) && avail >= 1
    ensures var a := DispatchBody(p, avail);
            && a.skip < avail && a.mark == Some(BodyData) && a.note.None?
            && (!p.state.BodyIdentityEof? ==> a.skip + 1 <= p.contentLength)
            && (a.next == Again ==> p.state.BodyIdentity? && a.skip + 1 == p.contentLength && a.flush == Some(BodyData)
                                    && a.p == p.(contentLength := 0, state := MessageDone))
            && (a.next != Again ==> a.next == Break && a.flush.None?
                                    && (a.p.state.ChunkDataAlmostDone? || (a.skip + 1 == avail && IsBodyState(a.p.state)))
                                    && (|d| == a.skip + 1 ==>
                                          AfterBody(p, d, out) == Snapshot(a.p, out + Singles(BodyData, d))))
  {
    hide Singles, Finish;
  }

  /** The marks that can be open at a byte boundary: a body mark stays set only to the end of the buffer. */
  predicate MarksAt(s: State, marks: Marks, atEnd: bool) {
    MarksFit(s, marks) || (atEnd && IsBodyState(s) && marks.Keys == {BodyData})
  }

  lemma FinishFacts(p: Parser)
    ensures var f := Finish(p);
            && f.note == Some(MessageComplete(f.p)) && f.next == Break
            && OpenKind(f.p.state).None? && !f.p.state.ChunkDataAlmostDone? && !IsBodyState(f.p.state)
  {
    hide ShouldKeepAlive;
  }

  /** The bulk cases leave the object where the byte machine is. */
  lemma BodyLinked(p: Parser, calls: seq<Event>, out: seq<Event>, data: seq<Byte>, i: nat)
    requires i < |data| && Resting(p) && IsBodyState(p.state) && Join(calls) == Join(out)
    ensures var a := DispatchBody(p, |data| - i);
            && i + a.skip + 1 <= |data|
            && var d := data[i..i + a.skip + 1];
            var r := Run(Snapshot(p, out), d);
            && Resting(r.p)
            && if a.next == Again then
                 && a.p.state.MessageDone? && r.p == Finish(a.p).p && Finish(a.p).note.Some? && MarksFit(r.p.state, map[])
                 && Join(calls + [Data(BodyData, d)] + [Finish(a.p).note.value]) == Join(r.out)
               else
                 && r.p == a.p && MarksAt(r.p.state, map[BodyData := i], i + a.skip + 1 == |data|)
                 && Join(calls + [Data(BodyData, d)]) == Join(r.out)
  {
    hide Resting, Join, Run, DispatchBody, Finish;
    var a := DispatchBody(p, |data| - i);
    BodyFacts(p, |data| - i, [], []);
    var d := data[i..i + a.skip + 1];
    BodyFacts(p, |data| - i, d, out);
    BodyRun(p, d, out);
    RunKeeps(Snapshot(p, out), d);
    KeepsRunOk(p, d, out);
    JoinSingles(out, BodyData, d);
    JoinSame(calls, out, [Data(BodyData, d)]);
    FinishFacts(a.p);
    if a.next == Again {
      var m := MessageComplete(Finish(a.p).p);
      JoinSame(calls + [Data(BodyData, d)], out + Singles(BodyData, d), [m]);
    }
  }

  lemma KeepsRunOk(p: Parser, d: seq<Byte>, out: seq<Event>)
    requires Resting(p)
    ensures AfterBody(p, d, out).p.errno == Ok
  {
    hide NewMessage;
  }

  // ---------- the parser object ----------

  lemma AtMostOneMark(data: seq<Byte>, s: State, marks: Marks, end: nat, atEnd: bool)
    requires MarksAt(s, marks, atEnd) && end <= |data| && InBuffer(marks, end)
    ensures |marks| <= 1 && |Leftover(data, marks, end)| <= 1
    ensures OpenKind(s).Some? ==> EndsWith(Leftover(data, marks, end), OpenKind(s).value)
  {
    if marks != map[] {
      var k :| k in marks.Keys;
      assert marks.Keys == {k};
      assert |marks| == |marks.Keys|;
      LeftoverOne(data, marks, end, k);
    } else {
      LeftoverNone(data, marks, end);
    }
  }

  lemma NoMarkInBody(s: State, marks: Marks)
    requires IsBodyState(s) && MarksFit(s, marks)
    ensures marks == map[]
  {}

  /** The callbacks tell all of `out` but for one data callback that was never made. */
  ghost predicate LacksAtMostOneMark(calls: seq<Event>, out: seq<Event>) {
    exists tail: seq<Event> :: |tail| <= 1 && Join(calls + tail) == Join(out)
  }

  lemma LacksTail(calls: seq<Event>, tail: seq<Event>, out: seq<Event>)
    requires |tail| <= 1 && Join(calls + tail) == Join(out)
    ensures LacksAtMostOneMark(calls, out)
  {}

  lemma StartMarks(data: seq<Byte>, s: State, marks: Marks, calls: seq<Event>)
    requires marks == if OpenKind(s).Some? then map[OpenKind(s).value := 0] else map[]
    requires OpenKind(s).Some? ==> EndsWith(calls, OpenKind(s).value)
    ensures InBuffer(marks, 0) && MarksFit(s, marks)
    ensures Join(calls + Leftover(data, marks, 0)) == Join(calls)
  {
    hide Join, OpenKind;
    if OpenKind(s).Some? {
      var k := OpenKind(s).value;
      LeftoverOne(data, marks, 0, k);
      assert data[0..0] == [];
      JoinEmpty(calls, k);
    } else {
      LeftoverNone(data, marks, 0);
      assert calls + [] == calls;
    }
  }

  /** After an upgrade no mark is open, so nothing is left to report. */
  lemma StopsClean(data: seq<Byte>, s: State, marks: Marks, calls: seq<Event>, out: seq<Event>, i: nat)
    requires i <= |data| && InBuffer(marks, i) && MarksFit(s, marks) && IsStartState(s)
    requires Join(calls + Leftover(data, marks, i)) == Join(out)
    ensures Join(calls) == Join(out) && OpenKind(s).None?
  {
    LeftoverNone(data, marks, i);
    assert calls + [] == calls;
  }

  function Flatten(buffers: seq<seq<Byte>>): seq<Byte> {
    if |buffers| == 0 then [] else Flatten(buffers[..|buffers| - 1]) + buffers[|buffers| - 1]
  }

  lemma FlattenSnoc(buffers: seq<seq<Byte>>, k: nat)
    requires k < |buffers|
    ensures Flatten(buffers[..k + 1]) == Flatten(buffers[..k]) + buffers[k]
  {
    assert buffers[..k + 1][..k] == buffers[..k];
  }

  lemma {:induction false} FlattenPrefix(buffers: seq<seq<Byte>>, k: nat)
    requires k <= |buffers|
    ensures Flatten(buffers[..k]) <= Flatten(buffers)
    decreases |buffers|
  {
    if k == |buffers| {
      assert buffers[..k] == buffers;
    } else {
      var c := buffers[..|buffers| - 1];
      assert c[..k] == buffers[..k];
      FlattenPrefix(c, k);
    }
  }

  class HttpParser {
    var parser: Parser
    var calls: seq<Event>
    /** Where the byte machine is on the bytes read so far. */
    ghost var model: Snapshot

    /** The object agrees with the byte machine; after an error the one mark that was open has not been reported. */
    ghost predicate Valid()
      reads this
    {
      && model.p == parser
      && if parser.errno == Ok then
           && Resting(parser)
           && Join(calls) == Join(model.out)
           && (OpenKind(parser.state).Some? ==> EndsWith(calls, OpenKind(parser.state).value))
         else LacksAtMostOneMark(calls, model.out)
    }

    ghost predicate Synced(data: seq<Byte>, i: nat, marks: Marks)
      reads this
    {
      && i <= |data| && InBuffer(marks, i)
      && model.p == parser && Resting(parser)
      && MarksAt(parser.state, marks, i == |data|)
      && Join(calls + Leftover(data, marks, i)) == Join(model.out)
    }

    constructor (kind: ParserType)
      ensures Valid() && model == Start(kind) && calls == []
    {
      parser := Init(kind);
      calls := [];
      model := Start(kind);
      new;
      InitRests(kind);
    }

    /** The cases of the switch that swallow a stretch of the body. */
    method ReadBody(data: seq<Byte>, i: nat) returns (j: nat, rest: Marks)
      requires i < |data| && Synced(data, i, map[]) && IsBodyState(parser.state)
      modifies this
      ensures i < j <= |data| && Synced(data, j, rest)
      ensures model == Run(old(model), data[i..j])
    {
      hide Dispatch, DispatchBody, Resting, Join, Run, Leftover, Finish, MarksFit, IsBodyState;
      DispatchInBody(parser, data[i], |data| - i);
      var act := Dispatch(parser, data[i], |data| - i);
      LeftoverNone(data, map[], i);
      assert calls + [] == calls;
      BodyLinked(parser, calls, model.out, data, i);
      j := i + act.skip + 1;
      model := Run(model, data[i..j]);
      parser := act.p;
      rest := map[BodyData := i];
      assert InBuffer(rest, j);
      LeftoverOne(data, rest, j, BodyData);
      if act.next == Again {
        calls := calls + [Data(BodyData, data[rest[BodyData]..j])];
        rest := map[];
        LeftoverNone(data, rest, j);
        DispatchInBody(parser, data[i], |data| - i);
        var done := Dispatch(parser, data[i], |data| - i);
        calls := calls + [done.note.value];
        parser := done.p;
        assert calls + [] == calls;
      }
    }

    /** The label reexecute_byte: dispatches the byte at `i` until the parser moves past it. */
    method DispatchByte(data: seq<Byte>, i: nat, marks: Marks, ghost out: seq<Event>) returns (rest: Marks, next: Next)
      requires i < |data| && InBuffer(marks, i)
      requires Dispatching(parser) && !IsBodyState(parser.state) && MarksFit(parser.state, marks)
      requires Join(calls + Leftover(data, marks, i)) == Join(out)
      modifies this`parser, this`calls
      ensures next != Again
      ensures parser == Settle(old(parser), data[i]).p
      ensures next != Fail ==>
                && Resting(parser) && MarksFit(parser.state, rest) && InBuffer(rest, i)
                && Join(calls + Leftover(data, rest, i + 1)) == Join(out + Settle(old(parser), data[i]).out)
      ensures next == Stop ==> IsStartState(parser.state) && parser.upgrade
      ensures next == Fail ==> parser.errno != Ok && LacksAtMostOneMark(calls, out + Settle(old(parser), data[i]).out)
    {
      hide Dispatch, Settle, Join, Leftover, Resting, Dispatching, MarksFit, MarksOk, Emit, Keeps, SourceAsserts,
        Rank, LacksAtMostOneMark, CallsOf, MarksOf;
      var ch := data[i];
      ghost var p0 := parser;
      ghost var done: seq<Event> := [];
      rest, next := marks, Again;
      assert out + [] == out;
      assert [] + Settle(p0, ch).out == Settle(p0, ch).out;
      while next == Again
        invariant next != Fail ==> MarksFit(parser.state, rest) && InBuffer(rest, i)
        invariant next == Again ==>
                    && Dispatching(parser) && !IsBodyState(parser.state)
                    && Settle(p0, ch) == Snapshot(Settle(parser, ch).p, done + Settle(parser, ch).out)
                    && Join(calls + Leftover(data, rest, i)) == Join(out + done)
        invariant next != Again ==> Settle(p0, ch) == Snapshot(parser, done)
        invariant next == Break || next == Stop ==>
                    Resting(parser) && Join(calls + Leftover(data, rest, i + 1)) == Join(out + done)
        invariant next == Stop ==> IsStartState(parser.state) && parser.upgrade
        invariant next == Fail ==> parser.errno != Ok && LacksAtMostOneMark(calls, out + done)
        decreases if next == Again then 1 + Rank(parser.state) else 0
      {
        AssertsHold(parser);
        assert SourceAsserts(parser);
        var act := Dispatch(parser, ch, |data| - i);
        DispatchMarks(parser, ch, |data| - i);
        DispatchKeeps(parser, ch, 1);
        KeepsMeans(act);
        AgainLowersRank(parser, ch, 1);
        DispatchTidy(parser, ch, 1);
        SettleStep(parser, ch, act);
        Link(parser, act, calls, out + done, data, rest, i);
        AtMostOneMark(data, parser.state, rest, i, false);
        LacksTail(calls, Leftover(data, rest, i), out + done);
        ghost var e := Emit(parser, act, ch);
        assert done + [] == done;
        assert out + (done + e) == out + done + e;
        done := done + e;
        parser, next := act.p, act.next;
        if next != Fail {
          calls := calls + CallsOf(data, rest, act, i);
          rest := MarksOf(rest, act, i);
        }
      }
    }

    /** The body of the loop over the buffer: one byte, or a stretch of the body. */
    method ReadByte(data: seq<Byte>, i: nat, marks: Marks) returns (j: nat, rest: Marks, next: Next)
      requires i < |data| && Synced(data, i, marks)
      modifies this
      ensures next != Again
      ensures next != Fail ==> i < j <= |data| && Synced(data, j, rest) && model == Run(old(model), data[i..j])
      ensures next == Stop ==> MarksFit(parser.state, rest) && IsStartState(parser.state) && parser.upgrade
      ensures next == Fail ==>
                && j == i && parser.errno != Ok && model.p == parser && model == Run(old(model), data[i..i + 1])
                && LacksAtMostOneMark(calls, model.out)
    {
      hide Settle, Join, Leftover, Resting, Dispatching, MarksFit, LacksAtMostOneMark, Run;
      if IsBodyState(parser.state) {
        NoMarkInBody(parser.state, marks);
        j, rest := ReadBody(data, i);
        return j, rest, Break;
      }
      ghost var m0 := model;
      assert data[i..i + 1] == [data[i]];
      RunOne(m0, data[i]);
      RestingOk(parser);
      CountKeeps(parser);
      CountState(parser);
      AtMostOneMark(data, parser.state, marks, i, false);
      if ParsingHeader(parser.state) {
        parser := parser.(nread := parser.nread + 1);
        if parser.nread > MAX_HEADER_SIZE {
          parser := parser.(errno := HeaderOverflow);
          assert m0.out + [] == m0.out;
          LacksTail(calls, Leftover(data, marks, i), m0.out);
          model := Run(m0, [data[i]]);
          return i, marks, Fail;
        }
      }
      assert parser == Count(m0.p);
      rest, next := DispatchByte(data, i, marks, m0.out);
      j := if next == Fail then i else i + 1;
      model := Run(m0, [data[i]]);
    }

    /**
     http_parser_execute. The callbacks made and the fields left behind are those of the byte
     machine on the bytes consumed; on an error every byte before the offending one was consumed.
     */
    method Execute(data: seq<Byte>) returns (consumed: nat)
      requires Valid()
      modifies this
      ensures Valid()
      ensures old(parser.errno) != Ok ==> consumed == 0 && model == old(model) && calls == old(calls)
      ensures old(parser.errno) == Ok && data == [] ==> model == EofStep(old(model))
      ensures old(parser.errno) == Ok && data != [] && parser.errno == Ok ==>
                && 0 < consumed <= |data| && model == Run(old(model), data[..consumed])
                && (consumed < |data| ==> parser.upgrade)
      ensures old(parser.errno) == Ok && data != [] && parser.errno != Ok ==>
                && consumed < |data| && model == Run(old(model), data)
                && Run(old(model), data[..consumed]).p.errno == Ok
    {
      hide Join, Leftover, Resting, Run, MarksFit, LacksAtMostOneMark;
      if parser.errno != Ok {
        return 0;
      }
      if data == [] {
        consumed := ExecuteEof();
        return;
      }
      ghost var m0 := model;
      var i, marks: Marks := 0, map[];
      if OpenKind(parser.state).Some? {
        marks := map[OpenKind(parser.state).value := 0];
      }
      StartMarks(data, parser.state, marks, calls);
      assert data[..0] == [];
      RunNothing(m0);
      while i < |data|
        invariant Synced(data, i, marks) && model == Run(m0, data[..i])
        invariant i == 0 ==> parser == m0.p
      {
        ghost var before := model;
        ghost var k := i;
        var next;
        i, marks, next := ReadByte(data, i, marks);
        if next == Fail {
          RestingOk(before.p);
          RunConcat(m0, data[..k], data[k..k + 1]);
          assert data[..k] + data[k..k + 1] == data[..k + 1];
          RunConcat(m0, data[..k + 1], data[k + 1..]);
          RunStuck(model, data[k + 1..]);
          assert data[..k + 1] + data[k + 1..] == data;
          return i;
        }
        RunConcat(m0, data[..k], data[k..i]);
        assert data[..k] + data[k..i] == data[..i];
        if next == Stop {
          StopsClean(data, parser.state, marks, calls, model.out, i);
          RestingOk(parser);
          return i;
        }
      }
      AtMostOneMark(data, parser.state, marks, |data|, true);
      assert |marks| <= 1;
      calls := calls + Leftover(data, marks, |data|);
      assert data[..|data|] == data;
      RestingOk(parser);
      consumed := |data|;
    }

    /** The end of the input, told by an empty buffer. */
    method ExecuteEof() returns (consumed: nat)
      requires Valid() && parser.errno == Ok
      modifies this
      ensures Valid() && model == EofStep(old(model))
    {
      hide Join, Resting, LacksAtMostOneMark;
      var s := parser.state;
      if s.BodyIdentityEof? {
        var e := MessageComplete(parser);
        JoinSame(calls, model.out, [e]);
        calls := calls + [e];
        consumed := 0;
      } else if s.Dead? || s.StartReqOrRes? || s.StartRes? || s.StartReq? {
        consumed := 0;
      } else {
        parser := parser.(errno := InvalidEofState);
        assert calls + [] == calls;
        LacksTail(calls, [], model.out);
        consumed := 1;
      }
      model := EofStep(model);
    }

    /**
     Feeds a stream in buffers of any sizes, as the reading loops of the proxy do: they stop at
     the first buffer that is not consumed whole. When none stops them, what the parser and its
     callbacks have seen depends on the bytes alone and not on where the buffers were cut.
     */
    method Feed(buffers: seq<seq<Byte>>) returns (ok: bool, ghost fed: seq<Byte>)
      requires Valid() && parser.errno == Ok
      requires forall b :: b in buffers ==> b != []
      modifies this
      ensures Valid()
      ensures fed <= Flatten(buffers) && model == Run(old(model), fed)
      ensures ok ==> fed == Flatten(buffers) && Join(calls) == Join(Run(old(model), Flatten(buffers)).out)
      ensures !ok ==> parser.errno != Ok || parser.upgrade
    {
      hide Join, Resting, Run, LacksAtMostOneMark, OpenKind;
      ghost var m0 := model;
      RunNothing(m0);
      assert buffers[..0] == [];
      for k := 0 to |buffers|
        invariant Valid() && parser.errno == Ok
        invariant model == Run(m0, Flatten(buffers[..k]))
      {
        assert buffers[k] in buffers;
        var n := Execute(buffers[k]);
        ghost var read := if parser.errno == Ok then buffers[k][..n] else buffers[k];
        RunConcat(m0, Flatten(buffers[..k]), read);
        FlattenSnoc(buffers, k);
        if n != |buffers[k]| {
          FlattenPrefix(buffers, k + 1);
          assert Flatten(buffers[..k]) + read <= Flatten(buffers[..k + 1]);
          return false, Flatten(buffers[..k]) + read;
        }
        assert buffers[k][..n] == buffers[k];
      }
      assert buffers[..|buffers|] == buffers;
      ok, fed := true, Flatten(buffers);
    }
  }
}

/** The parser announces an upgrade before it acts on it. */
module HttpUpgrade {
  import opened Options
  import opened HttpTypes
  import opened HttpDispatch
  import opened HttpMachine

  /** The upgrade mark changes only when the end of a head is told, and the callback sees the new value. */
  predicate UpgradeTold(p: Parser, a: Act) {
    a.p.upgrade == p.upgrade || a.note == Some(HeadersComplete(a.p))
  }

  lemma ToldLines(p: Parser, ch: Byte)
    ensures UpgradeTold(p, DispatchResLine(p, ch)) && UpgradeTold(p, DispatchReqLine(p, ch))
  {}

  lemma ToldRequest(p: Parser, ch: Byte)
    ensures UpgradeTold(p, DispatchUrl(p, ch)) && UpgradeTold(p, DispatchMethod(p, ch))
    ensures UpgradeTold(p, DispatchSpacesBeforeUrl(p, ch))
  {
    hide ParseUrlChar, SwitchMethod, MethodString;
  }

  lemma ToldFields(p: Parser, ch: Byte)
    ensures UpgradeTold(p, DispatchFieldStart(p, ch)) && UpgradeTold(p, DispatchField(p, ch))
    ensures UpgradeTold(p, DispatchChunk(p, ch))
  {}

  lemma ToldValue(p: Parser, ch: Byte)
    ensures UpgradeTold(p, DispatchValue(p, ch))
  {}

  lemma ToldHeadEnd(p: Parser, ch: Byte)
    ensures UpgradeTold(p, DispatchHeadEnd(p, ch)) && UpgradeTold(p, Finish(p))
    ensures UpgradeTold(p, DispatchStart(p, ch)) && UpgradeTold(p, DispatchStartReq(p, ch))
  {}

  lemma ToldBody(p: Parser)
    ensures UpgradeTold(p, DispatchBody(p, 1))
  {}

  lemma DispatchTold(p: Parser, ch: Byte)
    ensures UpgradeTold(p, Dispatch(p, ch, 1))
  {
    hide UpgradeTold, DispatchStart, DispatchStartReq, DispatchMethod, DispatchSpacesBeforeUrl, DispatchUrl,
      DispatchResLine, DispatchReqLine, DispatchFieldStart, DispatchField, DispatchValue, DispatchHeadEnd,
      DispatchChunk, DispatchBody, Finish;
    ToldLines(p, ch);
    ToldRequest(p, ch);
    ToldFields(p, ch);
    ToldValue(p, ch);
    ToldHeadEnd(p, ch);
    ToldBody(p);
  }

  predicate TellsUpgrade(e: Event) { e.HeadersComplete? && e.parser.upgrade }

  predicate NoUpgrade(out: seq<Event>) { forall e :: e in out ==> !TellsUpgrade(e) }

  lemma {:induction false} SettleTold(p: Parser, ch: Byte)
    requires !p.upgrade && NoUpgrade(Settle(p, ch).out)
    ensures !Settle(p, ch).p.upgrade
    decreases Rank(p.state)
  {
    hide Dispatch;
    var a := Dispatch(p, ch, 1);
    DispatchTold(p, ch);
    AgainLowersRank(p, ch, 1);
    SettleStep(p, ch, a);
    assert a.note.Some? ==> a.note.value in Settle(p, ch).out;
    if a.next == Again {
      assert forall e :: e in Settle(a.p, ch).out ==> e in Settle(p, ch).out;
      SettleTold(a.p, ch);
    }
  }

  /** A parser that has told of no upgrade has not been upgraded. */
  lemma {:induction false} RunTold(s: Snapshot, data: seq<Byte>)
    requires !s.p.upgrade && NoUpgrade(Run(s, data).out)
    ensures !Run(s, data).p.upgrade
  {
    hide Settle, TellsUpgrade;
    if |data| > 0 {
      var c := data[..|data| - 1];
      var r := Run(s, c);
      assert forall e :: e in r.out ==> e in Run(s, data).out;
      RunTold(s, c);
      ByteTold(r.p, data[|data| - 1]);
    }
  }

  lemma ByteTold(p: Parser, ch: Byte)
    requires !p.upgrade
    ensures NoUpgrade(ByteStep(p, ch).out) ==> !ByteStep(p, ch).p.upgrade
  {
    hide Settle, NoUpgrade;
    if p.errno == Ok && Count(p).errno == Ok && NoUpgrade(Settle(Count(p), ch).out) {
      SettleTold(Count(p), ch);
    }
  }
}

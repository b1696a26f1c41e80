/** Internal consistency of the parser over every input. */
module HttpRuns {
  import opened HttpTypes
  import opened HttpDispatch
  import opened HttpMachine
  import opened HttpInvariant

  /** The asserts hold at every dispatch of this byte. */
  predicate AssertsAlong(p: Parser, ch: Byte)
    decreases Rank(p.state)
  {
    AgainLowersRank(p, ch, 1);
    SourceAsserts(p) && (Dispatch(p, ch, 1).next == Again ==> AssertsAlong(Dispatch(p, ch, 1).p, ch))
  }

  /** How often the byte is dispatched again. */
  function Redispatches(p: Parser, ch: Byte): nat
    decreases Rank(p.state)
  {
    AgainLowersRank(p, ch, 1);
    if Dispatch(p, ch, 1).next == Again then 1 + Redispatches(Dispatch(p, ch, 1).p, ch) else 0
  }

  lemma {:induction false} RedispatchesAtMostRank(p: Parser, ch: Byte)
    ensures Redispatches(p, ch) <= Rank(p.state) <= 3
    decreases Rank(p.state)
  {
    AgainLowersRank(p, ch, 1);
    hide Dispatch;
    if Dispatch(p, ch, 1).next == Again {
      RedispatchesAtMostRank(Dispatch(p, ch, 1).p, ch);
    }
  }

  lemma {:induction false} SettleKeeps(p: Parser, ch: Byte)
    requires Dispatching(p)
    ensures Settle(p, ch).p.errno == Ok ==> Resting(Settle(p, ch).p)
    ensures AssertsAlong(p, ch)
    decreases Rank(p.state)
  {
    hide Dispatch, SourceAsserts, Wf, Emit;
    AgainLowersRank(p, ch, 1);
    DispatchKeeps(p, ch, 1);
    AssertsHold(p);
    var a := Dispatch(p, ch, 1);
    if a.next == Again {
      SettleKeeps(a.p, ch);
    }
  }

  lemma CountKeeps(p: Parser)
    requires Resting(p)
    ensures Count(p).errno == Ok ==> Dispatching(Count(p))
  {}

  lemma CountState(p: Parser)
    ensures Count(p).state == p.state
  {}

  lemma ByteKeeps(p: Parser, ch: Byte)
    requires Resting(p)
    ensures ByteStep(p, ch).p.errno == Ok ==> Resting(ByteStep(p, ch).p)
  {
    CountKeeps(p);
    if Count(p).errno == Ok {
      SettleKeeps(Count(p), ch);
    }
    hide Settle, Resting, Dispatching, Count;
  }

  lemma InitRests(kind: ParserType)
    ensures Resting(Init(kind))
  {}

  lemma {:induction false} RunKeeps(s: Snapshot, data: seq<Byte>)
    requires s.p.errno == Ok ==> Resting(s.p)
    ensures Run(s, data).p.errno == Ok ==> Resting(Run(s, data).p)
  {
    if |data| > 0 {
      RunKeeps(s, data[..|data| - 1]);
      var p := Run(s, data[..|data| - 1]).p;
      if p.errno == Ok {
        ByteKeeps(p, data[|data| - 1]);
        hide ByteStep, Resting;
      }
    }
  }

  /**
   From a fresh parser, whatever the bytes: every field stays in its C type, no length is
   mistaken for the sentinel, no assert fires while the next byte is handled, and that byte
   is dispatched again at most three times.
   */
  lemma ParserIsConsistent(kind: ParserType, data: seq<Byte>, next: Byte)
    ensures var p := Run(Start(kind), data).p;
            p.errno == Ok ==>
              && Resting(p)
              && (Count(p).errno == Ok ==> AssertsAlong(Count(p), next) && Redispatches(Count(p), next) <= 3)
  {
    var p := Run(Start(kind), data).p;
    InitRests(kind);
    RunKeeps(Start(kind), data);
    hide Run, Resting, Dispatching, Count, AssertsAlong, Redispatches;
    if p.errno == Ok {
      CountKeeps(p);
      if Count(p).errno == Ok {
        SettleKeeps(Count(p), next);
        RedispatchesAtMostRank(Count(p), next);
      }
    }
  }
}

/** A fiber that is ready is resumed after a bounded number of turns, whatever else happens. */
module FiberFairness {
  import opened Options
  import opened FiberOrder
  import opened FiberSched
  import opened FiberSafety
  import opened FiberRuns

  predicate IsReady<F(==)>(s: Sched<F>, f: F) { f in s.info && s.info[f].status == Ready }

  /** How many turns a ready fiber needs at most, when there are no more than `n` fibers. */
  ghost function TurnsLeft<F>(s: Sched<F>, f: F, n: nat): nat {
    if f in s.run then Position(s.run, f) + 1 else n + 1
  }

  lemma ReadyPlace<F>(s: Sched<F>, f: F)
    requires Inv(s) && IsReady(s, f)
    ensures s.active != Some(f) && (f in s.wait || f in s.run)
  {
    hide NoDup, InOrder, Joined;
  }

  lemma RunFits<F>(s: Sched<F>)
    requires Inv(s)
    ensures |s.run| <= |s.info|
  {
    hide InOrder, Joined;
    SetOfNoDup(s.run);
    var fs := set f | f in s.run;
    assert fs <= s.info.Keys;
    SubsetSize(fs, s.info.Keys);
  }

  lemma TurnsBounded<F>(s: Sched<F>, f: F, n: nat)
    requires Inv(s) && |s.info| <= n
    ensures 1 <= TurnsLeft(s, f, n) <= n + 1 && (f in s.run ==> TurnsLeft(s, f, n) <= n)
  {
    hide Inv;
    RunFits(s);
  }

  lemma {:induction false} PositionPrefix<F>(q: seq<F>, r: seq<F>, f: F)
    requires f in q && q <= r
    ensures f in r && Position(r, f) == Position(q, f)
  {
    assert r[0] == q[0];
    if q[0] != f {
      assert f in q[1..];
      PositionPrefix(q[1..], r[1..], f);
    }
  }

  // ---------- steps other than turns ----------

  lemma {:induction false} ReleaseReadies<F>(s: Sched<F>, fs: seq<F>, f: F)
    requires Known(s) && (forall g :: g in fs ==> g in s.info) && IsReady(s, f)
    ensures IsReady(Release(s, fs), f)
  {
    hide ToFront;
    if fs != [] {
      ReleaseReadies(s, fs[..|fs| - 1], f);
    }
  }

  lemma StillReady<F>(s: Sched<F>, a: Action<F>, f: F)
    requires Inv(s) && Enabled(s, a) && !a.Turn? && IsReady(s, f)
    ensures IsReady(Next(s, a), f)
  {
    ReadyPlace(s, f);
    hide NoDup, EntriesOf, PushPos, Insert, ToFront, InOrder, Release;
    match a {
      case Terminate =>
        JoinersSpawnedToo(s, s.active.value);
        ReleaseReadies(Ended(s), s.info[s.active.value].joiners, f);
      case _ =>
    }
  }

  lemma JoinersSpawnedToo<F>(s: Sched<F>, f: F)
    requires Inv(s) && f in s.info
    ensures forall p :: p in s.info[f].joiners ==> p in s.info
  {
    hide NoDup, InOrder, Placed;
  }

  // ---------- turns ----------

  /** A ready fiber of the waiting queue is among those a turn moves. */
  lemma ReadyIsMoved<F>(s: Sched<F>, now: Time, f: F)
    requires Inv(s) && f in s.wait && IsReady(s, f)
    ensures f in s.wait[..DueCount(EntriesOf(s.wait, s.info), now)]
  {
    hide NoDup, Joined;
    var q := EntriesOf(s.wait, s.info);
    EarlyExitIsFullScan(q, now);
    var i :| 0 <= i < |s.wait| && s.wait[i] == f;
    assert IsDue(q[i], now);
    assert s.wait[..DueCount(q, now)][i] == f;
  }

  lemma TurnFromWait<F>(s: Sched<F>, now: Time, f: F)
    requires Inv(s) && s.active.None? && now < FOREVER && f in s.wait && IsReady(s, f)
    ensures Known(Moved(s, now))
    ensures Resume(Moved(s, now)).active == Some(f) || f in Resume(Moved(s, now)).run
  {
    hide DueCount, EntriesOf, Update, InOrder, Joined;
    ReadyIsMoved(s, now, f);
    MovedKnown(s, now);
    var n := DueCount(EntriesOf(s.wait, s.info), now);
    var t := Moved(s, now);
    assert f in t.run;
    var i :| 0 <= i < |t.run| && t.run[i] == f;
    if i > 0 {
      assert t.run[1..][i - 1] == f;
    }
  }

  lemma MovedKnown<F>(s: Sched<F>, now: Time)
    requires Inv(s)
    ensures Known(Moved(s, now))
  {
    hide Inv;
    InvIsPlaced(s);
    MovedEntries(s, now);
  }

  lemma InvIsKnown<F>(s: Sched<F>)
    requires Inv(s)
    ensures Known(s) && JoinersKnown(s)
  {
    hide NoDup, InOrder;
  }

  lemma InvIsPlaced<F>(s: Sched<F>)
    requires Inv(s)
    ensures Placed(s)
  {}

  lemma TurnFromRun<F>(s: Sched<F>, now: Time, f: F)
    requires Inv(s) && s.active.None? && now < FOREVER && f in s.run
    ensures Known(Moved(s, now))
    ensures var t := Resume(Moved(s, now));
            t.active == Some(f) || (f in t.run && Position(t.run, f) + 1 == Position(s.run, f))
  {
    hide DueCount, EntriesOf, Update, Inv;
    MovedKnown(s, now);
    InvIsPlaced(s);
    TurnTakesFirst(s, now);
    if s.run[0] != f {
      assert f in s.run[1..];
      PositionPrefix(s.run[1..], Resume(Moved(s, now)).run, f);
    }
  }

  lemma TurnKeepsInfo<F>(s: Sched<F>, now: Time, f: F)
    requires Inv(s) && s.active.None? && now < FOREVER && IsReady(s, f)
    ensures Known(Moved(s, now))
    ensures var t := Resume(Moved(s, now)); t.info.Keys == s.info.Keys && (t.active != Some(f) ==> IsReady(t, f))
  {
    hide DueCount, EntriesOf, Inv;
    MovedKnown(s, now);
  }

  /** What a step does for a ready fiber: it is resumed, or it is still ready and, after a turn, closer to it. */
  lemma ReadyStep<F>(s: Sched<F>, a: Action<F>, f: F, n: nat)
    requires Inv(s) && Enabled(s, a) && IsReady(s, f) && |Next(s, a).info| <= n
    ensures var t := Next(s, a);
            t.active == Some(f) ||
            (IsReady(t, f) && TurnsLeft(t, f, n) + (if a.Turn? then 1 else 0) <= TurnsLeft(s, f, n))
  {
    hide Inv, Next, Enabled, Position;
    InvIsKnown(s);
    var t := Next(s, a);
    StepKeeps(s, a);
    ReadyPlace(s, f);
    TurnsBounded(t, f, n);
    if a.Turn? {
      TurnStep(s, a.now, f);
    } else {
      StillReady(s, a, f);
      if f in s.run {
        InvIsPlaced(s);
        RunQueueStep(s, a);
        PositionPrefix(s.run, t.run, f);
      }
    }
  }

  lemma TurnStep<F>(s: Sched<F>, now: Time, f: F)
    requires Inv(s) && Enabled(s, Turn(now)) && IsReady(s, f)
    ensures var t := Next(s, Turn(now));
            t.active == Some(f) ||
            (IsReady(t, f) && f in t.run && (f in s.run ==> Position(t.run, f) + 1 == Position(s.run, f)))
  {
    hide Inv, Moved, Resume, Position;
    ReadyPlace(s, f);
    TurnKeepsInfo(s, now, f);
    if f in s.run {
      TurnFromRun(s, now, f);
    } else {
      TurnFromWait(s, now, f);
    }
  }

  lemma InfoGrows<F>(s: Sched<F>, a: Action<F>)
    requires Inv(s) && Enabled(s, a)
    ensures s.info.Keys <= Next(s, a).info.Keys && |s.info| <= |Next(s, a).info|
  {
    hide Inv, EntriesOf, DueCount, PushPos, Insert, ToFront, Release;
    InvIsKnown(s);
    match a {
      case Terminate => JoinersSpawnedToo(s, s.active.value);
      case Turn(now) => MovedKnown(s, now);
      case _ =>
    }
    SubsetSize(s.info.Keys, Next(s, a).info.Keys);
  }

  /** Along every run, a ready fiber is resumed before there have been more turns than fibers. */
  lemma {:induction false} ReadyIsResumed<F>(states: seq<Sched<F>>, acts: seq<Action<F>>, i: nat, m: nat, f: F, n: nat)
    requires IsRun(states, acts) && i <= m <= |acts| && IsReady(states[i], f) && |states[m].info| <= n
    ensures || (exists t :: i < t <= m && states[t].active == Some(f))
            || (IsReady(states[m], f) && TurnsLeft(states[m], f, n) + Turns(acts[i..m]) <= n + 1 && Turns(acts[i..m]) <= n)
    decreases m
  {
    hide Inv, Next, Enabled, Known, JoinersKnown, TurnsLeft;
    AlwaysInv(states, acts, m);
    TurnsBounded(states[m], f, n);
    if i < m {
      var s, a := states[m - 1], acts[m - 1];
      assert Steps(s, a, states[m - 1 + 1]);
      AlwaysInv(states, acts, m - 1);
      InfoGrows(s, a);
      ReadyIsResumed(states, acts, i, m - 1, f, n);
      assert acts[i..m][..m - 1 - i] == acts[i..m - 1];
      if t :| i < t <= m - 1 && states[t].active == Some(f) {
        assert states[t].active == Some(f);
      } else {
        ReadyStep(s, a, f, n);
        if states[m].active == Some(f) {
          assert i < m <= m && states[m].active == Some(f);
        }
      }
    } else {
      assert acts[i..m] == [];
    }
  }
}

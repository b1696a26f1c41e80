/** What holds along every run of the scheduler. */
module FiberRuns {
  import opened Options
  import opened FiberOrder
  import opened FiberSched
  import opened FiberSafety

  /** A run from an empty scheduler: `acts[i]` leads from `states[i]` to `states[i + 1]`. */
  ghost predicate IsRun<F>(states: seq<Sched<F>>, acts: seq<Action<F>>) {
    && |states| == |acts| + 1
    && states[0] == Sched(None, [], [], map[])
    && forall i :: 0 <= i < |acts| ==> Steps(states[i], acts[i], states[i + 1])
  }

  ghost predicate Steps<F>(s: Sched<F>, a: Action<F>, t: Sched<F>) {
    Known(s) && JoinersKnown(s) && Enabled(s, a) && t == Next(s, a)
  }

  lemma {:induction false} AlwaysInv<F>(states: seq<Sched<F>>, acts: seq<Action<F>>, i: nat)
    requires IsRun(states, acts) && i <= |acts|
    ensures Inv(states[i])
  {
    hide Inv, Next;
    if i == 0 {
      EmptyIsInv<F>();
    } else {
      AlwaysInv(states, acts, i - 1);
      assert Steps(states[i - 1], acts[i - 1], states[i - 1 + 1]);
      StepKeeps(states[i - 1], acts[i - 1]);
    }
  }

  lemma EmptyIsInv<F>()
    ensures Inv<F>(Sched(None, [], [], map[]))
  {}

  // ---------- one place each ----------

  /** How many places a fiber is in. */
  ghost function Places<F>(s: Sched<F>, f: F): nat {
    (if s.active == Some(f) then 1 else 0) + multiset(s.run)[f] + multiset(s.wait)[f]
  }

  lemma {:induction false} OnceOrNever<F>(q: seq<F>, f: F)
    requires NoDup(q)
    ensures multiset(q)[f] == if f in q then 1 else 0
  {
    if q != [] {
      var c := q[..|q| - 1];
      assert q == c + [q[|q| - 1]];
      OnceOrNever(c, f);
    }
  }

  /**
   In every reachable state a live fiber is in exactly one place, the one its status names; a terminated
   one is in none.
   */
  lemma OnePlace<F>(states: seq<Sched<F>>, acts: seq<Action<F>>, i: nat, f: F)
    requires IsRun(states, acts) && i <= |acts| && f in states[i].info
    ensures var s := states[i];
            match s.info[f].status
            case Terminated => Places(s, f) == 0
            case Running => Places(s, f) == 1 && s.active == Some(f)
            case Waiting => Places(s, f) == 1 && f in s.wait
            case Ready => Places(s, f) == 1 && s.active != Some(f)
  {
    AlwaysInv(states, acts, i);
    var s := states[i];
    OnceOrNever(s.run, f);
    OnceOrNever(s.wait, f);
    hide IsRun, NoDup, InOrder, Joined;
  }

  // ---------- bounded waiting ----------

  function Turns<F>(acts: seq<Action<F>>): (n: nat)
    ensures n <= |acts|
  {
    if acts == [] then 0 else Turns(acts[..|acts| - 1]) + if acts[|acts| - 1].Turn? then 1 else 0
  }

  /** Only turns take from the run queue, and they take its first fiber. */
  lemma RunQueueStep<F>(s: Sched<F>, a: Action<F>)
    requires Known(s) && JoinersKnown(s) && Enabled(s, a) && s.run != []
    ensures if a.Turn? then s.run[1..] <= Next(s, a).run && Next(s, a).active == Some(s.run[0]) else s.run <= Next(s, a).run
  {
    hide SetReady, EntriesOf, DueCount, Update, PushPos, Insert, EntryOf;
    match a {
      case Turn(now) => TurnTakesFirst(s, now);
      case Join(f) => JoinKeepsRun(s, f);
      case Wake(f) => SetReadyKeepsRun(s, f);
      case _ =>
    }
  }

  lemma SetReadyKeepsRun<F>(s: Sched<F>, f: F)
    requires f in s.info
    ensures SetReady(s, f).run == s.run
  {}

  lemma JoinKeepsRun<F>(s: Sched<F>, f: F)
    requires Known(s) && s.active.Some? && f in s.info
    ensures JoinLate(s).run == s.run && JoinLive(s, f).run == s.run
  {
    hide EntriesOf, PushPos, Insert, EntryOf;
  }

  lemma TurnTakesFirst<F>(s: Sched<F>, now: Time)
    requires Known(s) && s.run != []
    ensures var n := DueCount(EntriesOf(s.wait, s.info), now);
            && n <= |s.wait| && Known(Moved(s, now))
            && Resume(Moved(s, now)).run == s.run[1..] + s.wait[..n] && Resume(Moved(s, now)).active == Some(s.run[0])
  {
    var n := DueCount(EntriesOf(s.wait, s.info), now);
    var t := Moved(s, now);
    assert forall f :: f in s.wait[n..] ==> f in s.wait;
    assert forall f :: f in s.wait[..n] ==> f in s.wait;
    assert t.run[1..] == s.run[1..] + s.wait[..n];
  }

  /** The fiber at position `k` of the run queue moves up by one with every turn. */
  lemma {:induction false} MovesUp<F>(states: seq<Sched<F>>, acts: seq<Action<F>>, i: nat, j: nat, k: nat)
    requires IsRun(states, acts) && i <= j <= |acts| && k < |states[i].run| && Turns(acts[i..j]) <= k
    ensures k - Turns(acts[i..j]) < |states[j].run| && states[j].run[k - Turns(acts[i..j])] == states[i].run[k]
    decreases j
  {
    hide Next, Known, JoinersKnown;
    if i < j {
      assert acts[i..j][..j - 1 - i] == acts[i..j - 1];
      MovesUp(states, acts, i, j - 1, k);
      assert Steps(states[j - 1], acts[j - 1], states[j - 1 + 1]);
      RunQueueStep(states[j - 1], acts[j - 1]);
    }
  }

  /** A fiber at position `k` of the run queue is resumed by the turn that comes after `k` others. */
  lemma ResumedInTime<F>(states: seq<Sched<F>>, acts: seq<Action<F>>, i: nat, j: nat, k: nat)
    requires IsRun(states, acts) && i <= j < |acts| && k < |states[i].run|
    requires Turns(acts[i..j]) == k && acts[j].Turn?
    ensures states[j + 1].active == Some(states[i].run[k])
  {
    hide Next, Known, JoinersKnown, Turns;
    MovesUp(states, acts, i, j, k);
    assert Steps(states[j], acts[j], states[j + 1]);
    RunQueueStep(states[j], acts[j]);
  }

  // ---------- sleeping ----------

  /** fm_next_wakeup, when the clock shows `clock`. */
  function NextWakeup<F(==)>(s: Sched<F>, clock: int, interval: int): int
    requires Known(s)
  {
    if s.wait == [] || s.info[s.wait[0]].due == FOREVER then clock + interval else s.info[s.wait[0]].due
  }

  /**
   When a turn finds nothing to run, nothing is runnable, nobody in the waiting queue is ready or
   due, and the thread sleeps no longer than to the earliest deadline.
   */
  lemma SleepsInTime<F>(s: Sched<F>, now: Time, clock: int, interval: int)
    requires Inv(s) && s.active.None? && now < FOREVER && Next(s, Turn(now)).active.None?
    ensures var t := Next(s, Turn(now));
            && Known(t) && t.run == []
            && forall f :: f in t.wait ==>
                 && t.info[f].status == Waiting && now < t.info[f].due
                 && (t.info[f].due == FOREVER || NextWakeup(t, clock, interval) <= t.info[f].due)
  {
    var t := Moved(s, now);
    var q := EntriesOf(s.wait, s.info);
    var n := DueCount(q, now);
    MovedKeeps(s, now);
    MovedEntries(s, now);
    EarlyExitIsFullScan(q, now);
    NothingDue(q, n, now, EntriesOf(t.wait, t.info));
    hide Moved, DueCount, InOrder, Joined, NoDup, Ordered, EntriesOf;
    forall f | f in t.wait ensures t.info[f].status == Waiting && now < t.info[f].due
                                   && (t.info[f].due == FOREVER || NextWakeup(t, clock, interval) <= t.info[f].due) {
      WaiterIsEntry(t, f, now, EntriesOf(t.wait, t.info));
    }
  }

  lemma NothingDue(q: seq<Entry>, n: nat, now: Time, rest: seq<Entry>)
    requires Ordered(q) && n <= |q| && rest == q[n..] && forall i :: 0 <= i < |q| ==> (IsDue(q[i], now) <==> i < n)
    ensures forall i :: 0 <= i < |rest| ==> !IsDue(rest[i], now) && rest[0].due <= rest[i].due
  {
    forall i | 0 <= i < |rest| ensures !IsDue(rest[i], now) && rest[0].due <= rest[i].due {
      assert rest[i] == q[n + i] && rest[0] == q[n];
    }
  }

  lemma WaiterIsEntry<F>(t: Sched<F>, f: F, now: Time, q: seq<Entry>)
    requires Placed(t) && f in t.wait && q == EntriesOf(t.wait, t.info)
    requires forall i :: 0 <= i < |q| ==> !IsDue(q[i], now) && q[0].due <= q[i].due
    ensures t.info[f].status == Waiting && now < t.info[f].due && t.info[t.wait[0]].due <= t.info[f].due
  {
    hide NoDup;
    var i :| 0 <= i < |t.wait| && t.wait[i] == f;
    assert q[i] == EntryOf(t.info[f]) && q[0] == EntryOf(t.info[t.wait[0]]);
  }

  // ---------- joining ----------

  /** Fibers that are not released keep what the scheduler knows of them. */
  lemma {:induction false} ReleaseLeaves<F>(s: Sched<F>, fs: seq<F>, g: F)
    requires Known(s) && (forall f :: f in fs ==> f in s.info) && g in s.info && g !in fs
    ensures Release(s, fs).info[g] == s.info[g]
  {
    hide ToFront;
    if fs != [] {
      assert fs[|fs| - 1] in fs;
      ReleaseLeaves(s, fs[..|fs| - 1], g);
    }
  }

  /** Of two runnable-or-waiting fibers only the one acted on changes; a turn changes no fiber that is joining. */
  lemma TurnLeavesJoiners<F>(s: Sched<F>, now: Time, p: F)
    requires Inv(s) && s.active.None? && now < FOREVER && p in s.info && s.info[p].target.Some?
    ensures p in Next(s, Turn(now)).info && Next(s, Turn(now)).info[p] == s.info[p]
  {
    var n := DueCount(EntriesOf(s.wait, s.info), now);
    if p in s.wait[..n] {
      MovedHaveNoTarget(s, now, p);
    }
    assert p !in s.run;
    hide NoDup, DueCount, EntriesOf, Ordered;
  }

  /**
   A fiber that joins another waits until that one terminates, and is ready when it has: no
   other step ends the wait, and the termination always does.
   */
  lemma JoinEnds<F>(s: Sched<F>, a: Action<F>, p: F)
    requires Inv(s) && Enabled(s, a) && p in s.info && s.info[p].target.Some?
    ensures var f := s.info[p].target.value;
            var t := Next(s, a);
            && p in t.info && f in t.info
            && if a.Terminate? && s.active == Some(f) then t.info[p].status == Ready && t.info[f].status == Terminated
               else t.info[p].target == Some(f) && t.info[p].status == Waiting && t.info[f].status != Terminated
  {
    hide NoDup, EntriesOf, DueCount, PushPos, Insert, ToFront, Ordered, Update, Release, InOrder;
    StepKeeps(s, a);
    match a {
      case Turn(now) => TurnLeavesJoiners(s, now, p);
      case Terminate =>
        var d := s.active.value;
        TerminateKeeps(s);
        ReleaseLeaves(Ended(s), s.info[d].joiners, d);
        if p !in s.info[d].joiners {
          ReleaseLeaves(Ended(s), s.info[d].joiners, p);
        }
      case _ =>
    }
  }
}

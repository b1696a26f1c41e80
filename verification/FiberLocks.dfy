/**
 A mutex together with the scheduler: lock() that fails parks the active fiber, unlock() readies
 the first fiber of the queue, and try_lock() that fails yields. A fiber that unlock() has taken
 off the queue attempts again after a bounded number of turns.
 */
module FiberLocks {
  import opened Options
  import opened FiberOrder
  import S = FiberSched
  import M = FiberMutex
  import opened FiberSafety
  import opened FiberRuns
  import opened FiberFairness

  datatype System<F> = System(lock: M.Lock<F>, sched: S.Sched<F>)

  datatype Action<F> =
    | Lock                    // one turn of the loop in lock(), by the active fiber
    | TryLock                 // try_lock()
    | Unlock                  // unlock()
    | Other(a: S.Action<F>)   // anything else the scheduler does

  /** A fiber inside lock() does nothing but attempt again; and nobody but unlock() wakes a fiber of the mutex's queue. */
  predicate Allowed<F(==)>(s: System<F>, a: S.Action<F>) {
    match a
    case Spawn(_) => true
    case Turn(_) => true
    case Wake(f) => f !in s.lock.waiting
    case _ => s.sched.active.Some? ==> s.sched.active.value !in s.lock.retrying
  }

  /** What unlock() by the owner does to the scheduler: it wakes the first waiter if this is the last unlock. */
  function WokenBy<F>(l: M.Lock<F>): Option<F> { if l.count > 1 || l.waiting == [] then None else Some(l.waiting[0]) }

  ghost predicate Moves<F>(s: System<F>, a: Action<F>, t: System<F>, recursive: bool) {
    match a
    case Other(b) => Allowed(s, b) && t.lock == s.lock && Steps(s.sched, b, t.sched)
    case Lock =>
      && s.sched.active.Some?
      && var f := s.sched.active.value;
      && M.Enabled(s.lock, M.Attempt(f)) && t.lock == M.Next(s.lock, M.Attempt(f), recursive)
      && if M.Gets(s.lock, f, recursive) then t.sched == s.sched else Steps(s.sched, S.WaitUntil(FOREVER), t.sched)
    case TryLock =>
      && s.sched.active.Some?
      && var f := s.sched.active.value;
      && M.Enabled(s.lock, M.TryLock(f)) && t.lock == M.Next(s.lock, M.TryLock(f), recursive)
      && if M.Gets(s.lock, f, recursive) then t.sched == s.sched else Steps(s.sched, S.Yield, t.sched)
    case Unlock =>
      && s.sched.active.Some?
      && var f := s.sched.active.value;
      && M.Enabled(s.lock, M.Unlock(f)) && t.lock == M.Next(s.lock, M.Unlock(f), recursive)
      && match WokenBy(s.lock)
         case None => t.sched == s.sched
         case Some(w) => Steps(s.sched, S.Wake(w), t.sched)
  }

  // ---------- the invariant ----------

  /** A fiber that waits for a wakeup and for nothing else. */
  ghost predicate Sleeps<F>(s: S.Sched<F>, f: F) {
    f in s.info && s.info[f].status == Waiting && s.info[f].due == FOREVER && s.info[f].target.None?
  }

  /** The queue of the mutex sleeps, and the fibers taken off it are ready or running. */
  ghost predicate Tied<F>(s: System<F>) {
    && (forall f :: f in s.lock.waiting ==> Sleeps(s.sched, f))
    && (forall f :: f in s.lock.retrying ==> IsReady(s.sched, f) || s.sched.active == Some(f))
  }

  ghost predicate Inv<F>(s: System<F>, recursive: bool) { M.Inv(s.lock, recursive) && S.Inv(s.sched) && Tied(s) }

  // ---------- what the scheduler does to other fibers ----------

  lemma TurnLeavesSleepers<F>(s: S.Sched<F>, now: Time, f: F)
    requires S.Inv(s) && s.active.None? && now < FOREVER && Sleeps(s, f)
    ensures S.Known(S.Moved(s, now)) && Sleeps(S.Resume(S.Moved(s, now)), f)
  {
    hide NoDup, S.Joined, DueCount;
    MovedKnown(s, now);
    var q := S.EntriesOf(s.wait, s.info);
    var n := DueCount(q, now);
    forall i | 0 <= i < n ensures s.wait[i] != f {
      assert IsDue(q[i], now);
    }
    assert f !in s.wait[..n];
  }

  /** A sleeping fiber sleeps on until it is woken. */
  lemma SleepsOn<F>(s: S.Sched<F>, a: S.Action<F>, f: F)
    requires S.Inv(s) && S.Enabled(s, a) && Sleeps(s, f) && a != S.Wake(f)
    ensures Sleeps(S.Next(s, a), f)
  {
    hide NoDup, S.EntriesOf, DueCount, PushPos, Insert, ToFront, Ordered, S.Update, S.Release, S.InOrder;
    match a {
      case Turn(now) => TurnLeavesSleepers(s, now, f);
      case Terminate =>
        JoinersSpawnedToo(s, s.active.value);
        ReleaseLeaves(S.Ended(s), s.info[s.active.value].joiners, f);
      case _ =>
    }
  }

  /** Spawning and waking leave the active fiber alone. */
  lemma RunsOn<F>(s: S.Sched<F>, a: S.Action<F>)
    requires S.Inv(s) && S.Enabled(s, a) && s.active.Some? && (a.Spawn? || a.Wake?)
    ensures S.Next(s, a).active == s.active
  {
    hide NoDup, ToFront, S.InOrder;
  }

  lemma ReadyOn<F>(s: S.Sched<F>, a: S.Action<F>, f: F)
    requires S.Inv(s) && S.Enabled(s, a) && IsReady(s, f)
    ensures IsReady(S.Next(s, a), f) || S.Next(s, a).active == Some(f)
  {
    hide S.Inv, S.Next, S.Enabled;
    InvIsKnown(s);
    ReadyStep(s, a, f, |S.Next(s, a).info|);
  }

  lemma AwakeOn<F>(s: System<F>, b: S.Action<F>, f: F)
    requires S.Inv(s.sched) && S.Enabled(s.sched, b) && f in s.lock.retrying && Allowed(s, b)
    requires IsReady(s.sched, f) || s.sched.active == Some(f)
    ensures IsReady(S.Next(s.sched, b), f) || S.Next(s.sched, b).active == Some(f)
  {
    hide S.Inv, S.Next;
    InvIsKnown(s.sched);
    if IsReady(s.sched, f) {
      ReadyOn(s.sched, b, f);
    } else {
      RunsOn(s.sched, b);
    }
  }

  // ---------- every step keeps it ----------

  lemma OtherKeeps<F>(s: System<F>, b: S.Action<F>, t: System<F>)
    requires S.Inv(s.sched) && Tied(s) && Allowed(s, b) && t.lock == s.lock && Steps(s.sched, b, t.sched)
    ensures Tied(t)
  {
    hide S.Inv, S.Next, S.Enabled, IsReady, Sleeps;
    forall f | f in t.lock.waiting ensures Sleeps(t.sched, f) {
      SleepsOn(s.sched, b, f);
    }
    forall f | f in t.lock.retrying ensures IsReady(t.sched, f) || t.sched.active == Some(f) {
      AwakeOn(s, b, f);
    }
  }

  /** The active fiber goes to sleep on the mutex. */
  lemma ParkSleeps<F>(s: S.Sched<F>)
    requires S.Inv(s) && s.active.Some?
    ensures S.Known(s) && S.JoinersKnown(s) && Sleeps(S.Next(s, S.WaitUntil(FOREVER)), s.active.value)
  {
    hide S.Inv, S.EntriesOf, PushPos, Insert;
    InvIsKnown(s);
    ActiveJoinsNobody(s);
  }

  lemma ActiveJoinsNobody<F>(s: S.Sched<F>)
    requires S.Inv(s) && s.active.Some?
    ensures S.Known(s) && s.info[s.active.value].target.None? && s.info[s.active.value].status == Running
  {
    hide NoDup, S.InOrder;
  }

  lemma QueuedKeeps<F>(s: System<F>, t: System<F>, recursive: bool)
    requires Inv(s, recursive) && Moves(s, Lock, t, recursive) && !M.Gets(s.lock, s.sched.active.value, recursive)
    ensures Tied(t)
  {
    hide S.Inv, S.Next, S.Enabled, IsReady, Sleeps, M.Inv;
    var f, b := s.sched.active.value, S.WaitUntil(FOREVER);
    ActiveJoinsNobody(s.sched);
    assert S.Enabled(s.sched, b);
    forall g | g in t.lock.waiting ensures Sleeps(t.sched, g) {
      if g == f {
        ParkSleeps(s.sched);
      } else {
        assert g in s.lock.waiting;
        SleepsOn(s.sched, b, g);
      }
    }
    forall g | g in t.lock.retrying ensures IsReady(t.sched, g) || t.sched.active == Some(g) {
      ReadyOn(s.sched, b, g);
    }
  }

  /** A wakeup by unlock() finds its fiber asleep in the waiting queue, so it can always be made. */
  lemma WakeupArrives<F>(s: System<F>, recursive: bool)
    requires Inv(s, recursive) && WokenBy(s.lock).Some?
    ensures S.Known(s.sched) && S.Enabled(s.sched, S.Wake(WokenBy(s.lock).value))
  {
    hide NoDup, S.InOrder, S.Joined, M.Inv;
    var w := s.lock.waiting[0];
    assert w in s.lock.waiting && Sleeps(s.sched, w);
  }

  lemma WokenIsReady<F>(s: S.Sched<F>, w: F)
    requires S.Inv(s) && S.Enabled(s, S.Wake(w))
    ensures IsReady(S.Next(s, S.Wake(w)), w)
  {
    hide NoDup, ToFront, S.InOrder;
  }

  lemma WakingKeeps<F>(s: System<F>, t: System<F>, recursive: bool)
    requires Inv(s, recursive) && Moves(s, Unlock, t, recursive) && WokenBy(s.lock).Some?
    ensures Tied(t)
  {
    hide S.Inv, S.Next, S.Enabled, IsReady, Sleeps, NoDup;
    var w := s.lock.waiting[0];
    var b := S.Wake(w);
    OnlyOnce(s.lock.waiting);
    forall g | g in t.lock.waiting ensures Sleeps(t.sched, g) {
      SleepsOn(s.sched, b, g);
    }
    forall g | g in t.lock.retrying ensures IsReady(t.sched, g) || t.sched.active == Some(g) {
      if g == w {
        WokenIsReady(s.sched, w);
      } else if s.sched.active == Some(g) {
        RunsOn(s.sched, b);
      } else {
        ReadyOn(s.sched, b, g);
      }
    }
  }

  lemma OnlyOnce<T>(q: seq<T>)
    requires NoDup(q) && q != []
    ensures q[0] !in q[1..] && forall x :: x in q[1..] ==> x in q
  {}

  lemma TriedKeeps<F>(s: System<F>, t: System<F>, recursive: bool)
    requires Inv(s, recursive) && Moves(s, TryLock, t, recursive)
    ensures Tied(t)
  {
    hide S.Inv, S.Next, S.Enabled, IsReady, Sleeps, M.Inv;
    var f := s.sched.active.value;
    if !M.Gets(s.lock, f, recursive) {
      OtherKeeps(s, S.Yield, t);
    }
  }

  lemma SchedKeeps<F>(s: System<F>, a: Action<F>, t: System<F>, recursive: bool)
    requires S.Inv(s.sched) && Moves(s, a, t, recursive)
    ensures S.Inv(t.sched)
  {
    hide S.Inv, S.Next, S.Enabled, M.Next, M.Enabled, M.Gets;
    var b := MoveOf(s, a, recursive);
    if b.Some? {
      assert Steps(s.sched, b.value, t.sched);
      StepKeeps(s.sched, b.value);
    }
  }

  lemma LockKeeps<F>(s: System<F>, a: Action<F>, t: System<F>, recursive: bool)
    requires M.Inv(s.lock, recursive) && Moves(s, a, t, recursive)
    ensures M.Inv(t.lock, recursive)
  {
    hide M.Inv, M.Next, M.Enabled, S.Next, S.Enabled;
    match a {
      case Lock => M.StepKeeps(s.lock, M.Attempt(s.sched.active.value), recursive);
      case TryLock => M.StepKeeps(s.lock, M.TryLock(s.sched.active.value), recursive);
      case Unlock => M.StepKeeps(s.lock, M.Unlock(s.sched.active.value), recursive);
      case Other(_) =>
    }
  }

  /** The step of the scheduler that a step of the system includes. */
  ghost function MoveOf<F>(s: System<F>, a: Action<F>, recursive: bool): Option<S.Action<F>> {
    match a
    case Other(b) => Some(b)
    case Lock =>
      if s.sched.active.None? || M.Gets(s.lock, s.sched.active.value, recursive) then None else Some(S.WaitUntil(FOREVER))
    case TryLock => if s.sched.active.None? || M.Gets(s.lock, s.sched.active.value, recursive) then None else Some(S.Yield)
    case Unlock => match WokenBy(s.lock) case None => None case Some(w) => Some(S.Wake(w))
  }

  lemma TiedKeeps<F>(s: System<F>, a: Action<F>, t: System<F>, recursive: bool)
    requires Inv(s, recursive) && Moves(s, a, t, recursive)
    ensures Tied(t)
  {
    hide S.Inv, S.Next, S.Enabled, IsReady, Sleeps;
    match a {
      case Other(b) => OtherKeeps(s, b, t);
      case Lock =>
        if !M.Gets(s.lock, s.sched.active.value, recursive) {
          QueuedKeeps(s, t, recursive);
        }
      case TryLock => TriedKeeps(s, t, recursive);
      case Unlock =>
        if WokenBy(s.lock).Some? {
          WakingKeeps(s, t, recursive);
        }
    }
  }

  lemma MoveKeeps<F>(s: System<F>, a: Action<F>, t: System<F>, recursive: bool)
    requires Inv(s, recursive) && Moves(s, a, t, recursive)
    ensures Inv(t, recursive)
  {
    hide Moves, Tied, M.Inv, S.Inv;
    LockKeeps(s, a, t, recursive);
    SchedKeeps(s, a, t, recursive);
    TiedKeeps(s, a, t, recursive);
  }

  ghost predicate IsSystemRun<F>(states: seq<System<F>>, acts: seq<Action<F>>, recursive: bool) {
    && |states| == |acts| + 1
    && states[0] == System(M.Unlocked(), S.Sched(None, [], [], map[]))
    && forall i :: 0 <= i < |acts| ==> Moves(states[i], acts[i], states[i + 1], recursive)
  }

  lemma {:induction false} SystemSafe<F>(states: seq<System<F>>, acts: seq<Action<F>>, recursive: bool, i: nat)
    requires IsSystemRun(states, acts, recursive) && i <= |acts|
    ensures Inv(states[i], recursive)
  {
    hide Moves, Tied, M.Inv, S.Inv;
    if i == 0 {
      EmptyIsInv<F>();
      assert Inv(states[0], recursive) by { StartIsInv(states[0], recursive); }
    } else {
      SystemSafe(states, acts, recursive, i - 1);
      assert Moves(states[i - 1], acts[i - 1], states[i - 1 + 1], recursive);
      MoveKeeps(states[i - 1], acts[i - 1], states[i], recursive);
    }
  }

  lemma StartIsInv<F>(s: System<F>, recursive: bool)
    requires s == System(M.Unlocked(), S.Sched(None, [], [], map[]))
    ensures Inv(s, recursive)
  {}

  // ---------- bounded retry ----------

  ghost function TurnsIn<F>(acts: seq<Action<F>>): (n: nat)
  {
    if acts == [] then 0
    else
      var a := acts[|acts| - 1];
      TurnsIn(acts[..|acts| - 1]) + if a.Other? && a.a.Turn? then 1 else 0
  }

  /** The fiber has not attempted yet: it is ready with few turns to go, or runs, after `k` turns. */
  ghost predicate Coming<F>(s: System<F>, f: F, n: nat, k: nat) {
    && f in s.lock.retrying
    && if s.sched.active == Some(f) then k <= n + 1
       else IsReady(s.sched, f) && TurnsLeft(s.sched, f, n) + k <= n + 1
  }

  ghost predicate Attempts<F>(s: System<F>, a: Action<F>, f: F) { a.Lock? && s.sched.active == Some(f) }

  /** Only an attempt takes a fiber off the set of those that will attempt. */
  lemma RetryingStays<F>(s: System<F>, a: Action<F>, t: System<F>, f: F, recursive: bool)
    requires Moves(s, a, t, recursive) && f in s.lock.retrying && !Attempts(s, a, f)
    ensures f in t.lock.retrying
    ensures s.sched.active == Some(f) ==> a.Other? && (a.a.Spawn? || a.a.Wake? || a.a.Turn?)
  {
    hide S.Next, S.Enabled, Steps;
  }

  lemma ComesCloser<F>(s: System<F>, a: Action<F>, t: System<F>, f: F, n: nat, k: nat, recursive: bool)
    requires Inv(s, recursive) && Moves(s, a, t, recursive) && !Attempts(s, a, f)
    requires Coming(s, f, n, k) && |t.sched.info| <= n
    ensures Coming(t, f, n, k + if a.Other? && a.a.Turn? then 1 else 0)
  {
    hide S.Inv, S.Next, M.Inv, M.Next, M.Enabled, Tied, IsReady, TurnsLeft;
    RetryingStays(s, a, t, f, recursive);
    var b := MoveOf(s, a, recursive);
    if b.None? {
      return;
    }
    assert Steps(s.sched, b.value, t.sched);
    if s.sched.active == Some(f) {
      RunsOn(s.sched, b.value);
    } else {
      TurnsBounded(s.sched, f, n) by { InfoGrows(s.sched, b.value); }
      ReadyStep(s.sched, b.value, f, n);
      SchedKeeps(s, a, t, recursive);
      if IsReady(t.sched, f) && t.sched.active == Some(f) {
        ReadyPlace(t.sched, f);
      }
    }
  }

  lemma {:induction false} ComesThrough<F>(states: seq<System<F>>, acts: seq<Action<F>>, recursive: bool,
                                           i: nat, m: nat, f: F, n: nat)
    requires IsSystemRun(states, acts, recursive) && i <= m <= |acts|
    requires f in states[i].lock.retrying && |states[m].sched.info| <= n
    ensures || (exists t :: i <= t < m && Attempts(states[t], acts[t], f))
            || Coming(states[m], f, n, TurnsIn(acts[i..m]))
    decreases m
  {
    hide Inv, Moves, Coming, Attempts;
    if i == m {
      assert acts[i..m] == [];
      SystemSafe(states, acts, recursive, i);
      StartsComing(states[i], f, n, recursive);
    } else {
      var s, a, t := states[m - 1], acts[m - 1], states[m];
      assert Moves(s, a, states[m - 1 + 1], recursive);
      SystemSafe(states, acts, recursive, m - 1);
      FibersGrow(s, a, t, recursive);
      ComesThrough(states, acts, recursive, i, m - 1, f, n);
      assert acts[i..m][..m - 1 - i] == acts[i..m - 1];
      if u :| i <= u < m - 1 && Attempts(states[u], acts[u], f) {
        assert Attempts(states[u], acts[u], f);
      } else if Attempts(s, a, f) {
        assert Attempts(states[m - 1], acts[m - 1], f);
      } else {
        ComesCloser(s, a, t, f, n, TurnsIn(acts[i..m - 1]), recursive);
      }
    }
  }

  lemma StartsComing<F>(s: System<F>, f: F, n: nat, recursive: bool)
    requires Inv(s, recursive) && f in s.lock.retrying && |s.sched.info| <= n
    ensures Coming(s, f, n, 0)
  {
    hide S.Inv, M.Inv, IsReady, TurnsLeft;
    TurnsBounded(s.sched, f, n);
  }

  lemma FibersGrow<F>(s: System<F>, a: Action<F>, t: System<F>, recursive: bool)
    requires Inv(s, recursive) && Moves(s, a, t, recursive)
    ensures |s.sched.info| <= |t.sched.info|
  {
    hide S.Inv, S.Next, S.Enabled, M.Inv, M.Next, M.Enabled, Tied;
    var b := MoveOf(s, a, recursive);
    if b.Some? {
      assert Steps(s.sched, b.value, t.sched);
      InfoGrows(s.sched, b.value);
    }
  }

  /** A fiber that was taken off the queue has attempted again before there were two turns more than there are fibers. */
  lemma RetriesSoon<F>(states: seq<System<F>>, acts: seq<Action<F>>, recursive: bool, i: nat, m: nat, f: F)
    requires IsSystemRun(states, acts, recursive) && i <= m <= |acts| && f in states[i].lock.retrying
    requires TurnsIn(acts[i..m]) > |states[m].sched.info| + 1
    ensures exists t :: i <= t < m && Attempts(states[t], acts[t], f)
  {
    hide Moves, Attempts;
    ComesThrough(states, acts, recursive, i, m, f, |states[m].sched.info|);
  }

  /** Whenever the mutex is free and fibers queue for it, one of those taken off the queue attempts in time. */
  lemma FreeMutexIsTried<F>(states: seq<System<F>>, acts: seq<Action<F>>, recursive: bool, i: nat, m: nat)
    requires IsSystemRun(states, acts, recursive) && i <= m <= |acts|
    requires !states[i].lock.locked && states[i].lock.waiting != []
    requires TurnsIn(acts[i..m]) > |states[m].sched.info| + 1
    ensures exists t, f :: i <= t < m && f in states[i].lock.retrying && Attempts(states[t], acts[t], f)
  {
    hide Moves, Attempts, S.Inv, Tied;
    SystemSafe(states, acts, recursive, i);
    var f :| f in states[i].lock.retrying;
    RetriesSoon(states, acts, recursive, i, m, f);
  }
}

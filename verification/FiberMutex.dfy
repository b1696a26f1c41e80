/**
 mutex and recursive_mutex, as steps of an unbounded number of fibers. A fiber in `lock` makes
 an attempt, queues up when it fails, and attempts again after it has been taken off the queue;
 a fiber in `try_lock` may slip in between.
 */
module FiberMutex {
  import opened Options
  import opened FiberOrder

  /** `retrying` are the fibers taken off the queue that have not attempted again; `held` is what each fiber has locked. */
  datatype Lock<F> = Lock(locked: bool, owner: Option<F>, count: nat, waiting: seq<F>, retrying: set<F>, held: map<F, nat>)

  function Unlocked<F>(): Lock<F> { Lock(false, None, 0, [], {}, map[]) }

  function Held<F(==)>(l: Lock<F>, f: F): nat { if f in l.held then l.held[f] else 0 }

  datatype Action<F> =
    | Attempt(f: F)   // one turn of the loop in lock()
    | TryLock(f: F)
    | Unlock(f: F)

  /** A queued fiber is suspended; one that was taken off the queue is still inside lock(). */
  predicate Enabled<F(==)>(l: Lock<F>, a: Action<F>) {
    match a
    case Attempt(f) => f !in l.waiting
    case TryLock(f) => f !in l.waiting && f !in l.retrying
    case Unlock(f) => l.locked && l.owner == Some(f) && f !in l.waiting && f !in l.retrying
  }

  /** lock_if_unlocked_: whether the fiber gets the lock. */
  predicate Gets<F(==)>(l: Lock<F>, f: F, recursive: bool) { !l.locked || (recursive && l.owner == Some(f)) }

  function Take<F(==)>(l: Lock<F>, f: F): Lock<F> {
    l.(locked := true, owner := Some(f), count := l.count + 1, held := l.held[f := Held(l, f) + 1])
  }

  function Next<F(==)>(l: Lock<F>, a: Action<F>, recursive: bool): Lock<F>
    requires Enabled(l, a)
  {
    match a
    case Attempt(f) =>
      var m := l.(retrying := l.retrying - {f});
      if Gets(l, f, recursive) then Take(m, f) else m.(waiting := m.waiting + [f])
    case TryLock(f) => if Gets(l, f, recursive) then Take(l, f) else l
    case Unlock(f) =>
      var m := l.(count := if l.count == 0 then 0 else l.count - 1,
                  held := l.held[f := if Held(l, f) == 0 then 0 else Held(l, f) - 1]);
      if m.count > 0 then m
      else if m.waiting == [] then m.(locked := false, owner := None)
      else m.(locked := false, owner := None, waiting := m.waiting[1..], retrying := m.retrying + {m.waiting[0]})
  }

  // ---------- the invariant ----------

  /** Only the owner holds anything, exactly as often as the counter says. */
  ghost predicate Exclusive<F>(l: Lock<F>) {
    && (l.locked <==> l.owner.Some?) && (l.locked <==> l.count > 0)
    && (forall f :: f in l.held && l.held[f] > 0 ==> l.owner == Some(f))
    && (l.owner.Some? ==> Held(l, l.owner.value) == l.count)
  }

  ghost predicate QueueOk<F>(l: Lock<F>) { NoDup(l.waiting) && forall f :: f in l.waiting ==> f !in l.retrying }

  /** An unlocked mutex with fibers in its queue has one on its way to attempt again. */
  ghost predicate NoLostWakeup<F>(l: Lock<F>) { !l.locked && l.waiting != [] ==> l.retrying != {} }

  ghost predicate Inv<F>(l: Lock<F>, recursive: bool) {
    Exclusive(l) && QueueOk(l) && NoLostWakeup(l) && (recursive || l.count <= 1)
  }

  lemma AttemptKeeps<F>(l: Lock<F>, f: F, recursive: bool)
    requires Inv(l, recursive) && f !in l.waiting
    ensures Inv(Next(l, Attempt(f), recursive), recursive)
  {
    NoDupInsert(l.waiting, |l.waiting|, f);
    assert Insert(l.waiting, |l.waiting|, f) == l.waiting + [f];
    hide NoDup;
  }

  lemma UnlockKeeps<F>(l: Lock<F>, f: F, recursive: bool)
    requires Inv(l, recursive) && Enabled(l, Unlock(f))
    ensures Inv(Next(l, Unlock(f), recursive), recursive)
  {
    if l.waiting != [] {
      NoDupRemove(l.waiting, 0);
      assert l.waiting[..0] + l.waiting[1..] == l.waiting[1..];
      assert l.waiting[0] in l.waiting;
    }
    hide NoDup;
  }

  lemma StepKeeps<F>(l: Lock<F>, a: Action<F>, recursive: bool)
    requires Inv(l, recursive) && Enabled(l, a)
    ensures Inv(Next(l, a, recursive), recursive)
  {
    hide NoDup;
    match a {
      case Attempt(f) => AttemptKeeps(l, f, recursive);
      case TryLock(f) =>
      case Unlock(f) => UnlockKeeps(l, f, recursive);
    }
  }

  ghost predicate IsRun<F>(states: seq<Lock<F>>, acts: seq<Action<F>>, recursive: bool) {
    && |states| == |acts| + 1 && states[0] == Unlocked()
    && forall i :: 0 <= i < |acts| ==> Enabled(states[i], acts[i]) && states[i + 1] == Next(states[i], acts[i], recursive)
  }

  /**
   In every run of any fibers, whatever try_lock does in between: at most one fiber holds the
   mutex, as deep as the counter says, and no wakeup is lost.
   */
  lemma {:induction false} MutexSafe<F>(states: seq<Lock<F>>, acts: seq<Action<F>>, recursive: bool, i: nat)
    requires IsRun(states, acts, recursive) && i <= |acts|
    ensures Inv(states[i], recursive)
    ensures forall f, g :: Held(states[i], f) > 0 && Held(states[i], g) > 0 ==> f == g
  {
    hide Next;
    if i > 0 {
      MutexSafe(states, acts, recursive, i - 1);
      StepKeeps(states[i - 1], acts[i - 1], recursive);
      assert states[i - 1 + 1] == states[i];
    }
  }

  // ---------- the source's objects ----------

  class Mutex<F(==)> {
    var locked: bool
    var owner: Option<F>
    var waiting: seq<F>
    ghost var count: nat
    ghost var retrying: set<F>
    ghost var held: map<F, nat>

    ghost function View(): Lock<F>
      reads this
    {
      Lock(locked, owner, count, waiting, retrying, held)
    }

    constructor ()
      ensures View() == Unlocked() && Inv(View(), false)
    {
      locked, owner, waiting, count, retrying, held := false, None, [], 0, {}, map[];
    }

    method LockIfUnlocked(f: F) returns (got: bool)
      requires Exclusive(View())
      modifies this`locked, this`owner, this`count, this`held
      ensures got == Gets(old(View()), f, false)
      ensures View() == if got then Take(old(View()), f) else old(View())
    {
      if locked {
        return false;
      }
      assert owner == None;
      locked := true;
      owner := Some(f);
      count, held := count + 1, held[f := Held(View(), f) + 1];
      return true;
    }

    /** One turn of the loop in lock(); when it fails the fiber suspends itself. */
    method Attempt(f: F) returns (got: bool)
      requires Inv(View(), false) && Enabled(View(), Action.Attempt(f))
      modifies this
      ensures Inv(View(), false) && View() == Next(old(View()), Action.Attempt(f), false)
      ensures got ==> owner == Some(f)
      ensures !got ==> f in waiting
    {
      hide NoDup;
      AttemptKeeps(View(), f, false);
      retrying := retrying - {f};
      got := LockIfUnlocked(f);
      if !got {
        waiting := waiting + [f];
      }
    }

    method TryLock(f: F) returns (got: bool)
      requires Inv(View(), false) && Enabled(View(), Action.TryLock(f))
      modifies this
      ensures Inv(View(), false) && View() == Next(old(View()), Action.TryLock(f), false)
      ensures got == !old(locked)
    {
      hide NoDup;
      StepKeeps(View(), Action.TryLock(f), false);
      got := LockIfUnlocked(f);
    }

    /** Unlocks and takes the first fiber off the queue, to be made ready. */
    method Unlock(f: F) returns (woken: Option<F>)
      requires Inv(View(), false) && Enabled(View(), Action.Unlock(f))
      modifies this
      ensures Inv(View(), false) && View() == Next(old(View()), Action.Unlock(f), false)
      ensures woken == if old(waiting) == [] then None else Some(old(waiting)[0])
    {
      hide NoDup;
      UnlockKeeps(View(), f, false);
      woken := None;
      if waiting != [] {
        woken := Some(waiting[0]);
        retrying := retrying + {waiting[0]};
        waiting := waiting[1..];
      }
      held := held[f := Held(View(), f) - 1];
      count := 0;
      owner := None;
      locked := false;
    }
  }

  class RecursiveMutex<F(==)> {
    var locked: bool
    var owner: Option<F>
    var count: nat
    var waiting: seq<F>
    ghost var retrying: set<F>
    ghost var held: map<F, nat>

    ghost function View(): Lock<F>
      reads this
    {
      Lock(locked, owner, count, waiting, retrying, held)
    }

    constructor ()
      ensures View() == Unlocked() && Inv(View(), true)
    {
      locked, owner, waiting, count, retrying, held := false, None, [], 0, {}, map[];
    }

    method LockIfUnlocked(f: F) returns (got: bool)
      requires Exclusive(View())
      modifies this`locked, this`owner, this`count, this`held
      ensures got == Gets(old(View()), f, true)
      ensures View() == if got then Take(old(View()), f) else old(View())
    {
      if !locked {
        locked := true;
        assert owner == None;
        owner := Some(f);
        count, held := count + 1, held[f := Held(View(), f) + 1];
        return true;
      } else if owner == Some(f) {
        count, held := count + 1, held[f := Held(View(), f) + 1];
        return true;
      }
      return false;
    }

    method Attempt(f: F) returns (got: bool)
      requires Inv(View(), true) && Enabled(View(), Action.Attempt(f))
      modifies this
      ensures Inv(View(), true) && View() == Next(old(View()), Action.Attempt(f), true)
      ensures got ==> owner == Some(f)
      ensures !got ==> f in waiting
    {
      hide NoDup;
      AttemptKeeps(View(), f, true);
      retrying := retrying - {f};
      got := LockIfUnlocked(f);
      if !got {
        waiting := waiting + [f];
      }
    }

    method TryLock(f: F) returns (got: bool)
      requires Inv(View(), true) && Enabled(View(), Action.TryLock(f))
      modifies this
      ensures Inv(View(), true) && View() == Next(old(View()), Action.TryLock(f), true)
      ensures got == (!old(locked) || old(owner) == Some(f))
    {
      hide NoDup;
      StepKeeps(View(), Action.TryLock(f), true);
      got := LockIfUnlocked(f);
    }

    /** The last unlock of the owner frees the mutex and takes the first fiber off the queue. */
    method Unlock(f: F) returns (woken: Option<F>)
      requires Inv(View(), true) && Enabled(View(), Action.Unlock(f))
      modifies this
      ensures Inv(View(), true) && View() == Next(old(View()), Action.Unlock(f), true)
      ensures woken == if old(count) > 1 || old(waiting) == [] then None else Some(old(waiting)[0])
    {
      hide NoDup;
      UnlockKeeps(View(), f, true);
      woken := None;
      held := held[f := Held(View(), f) - 1];
      count := count - 1;
      if count == 0 {
        if waiting != [] {
          woken := Some(waiting[0]);
          retrying := retrying + {waiting[0]};
          waiting := waiting[1..];
        }
        owner := None;
        locked := false;
      }
    }
  }
}

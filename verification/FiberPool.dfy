/**
 FiberPool: tasks handed from fiber to fiber, workers that take them, and a pool that is created
 at the first task and doubles when all its workers but one are busy.
 */
module FiberPool {
  import opened Options
  import opened FiberOrder
  import opened FiberCondition

  /** A boost::function, which may be empty. */
  datatype Task<T> = Empty | Job(job: T)

  /**
   Workers are numbered. `checking` are those about to look for a task, whether just started, just
   done or just notified; `parked` is the list of the condition. `submitted` and `taken` are the
   tasks ever scheduled and ever taken, in order.
   */
  datatype Pool<T> = Pool(
    size: nat, running: nat, tasks: seq<Task<T>>, parked: seq<nat>, checking: set<nat>, busy: map<nat, T>,
    submitted: seq<Task<T>>, taken: seq<Task<T>>)

  const GROW_SIZE: nat := 10
  const MAX_GROW_SIZE: nat := 15000

  function EmptyPool<T>(): Pool<T> { Pool(0, 0, [], [], {}, map[], [], []) }

  /** How many workers schedule_task_from_fiber adds. */
  function Growth(size: nat, running: nat): nat {
    if size == 0 then GROW_SIZE
    else if running >= size - 1 then if size > MAX_GROW_SIZE then 0 else size
    else 0
  }

  datatype Action<T> =
    | Schedule(task: Task<T>)
    | Check(w: nat)          // one look at the task list, under the lock
    | Finish(w: nat)         // the task returned

  predicate Enabled<T>(p: Pool<T>, a: Action<T>) {
    match a
    case Schedule(_) => true
    case Check(w) => w in p.checking
    case Finish(w) => w in p.busy && p.running > 0
  }

  function Numbers(from: nat, end: nat): (r: set<nat>)
    ensures forall i: nat :: i in r <==> from <= i < end
    ensures from <= end ==> |r| == end - from
    decreases end
  {
    if from < end then Numbers(from, end - 1) + {end - 1} else {}
  }

  function NotifyOne<T>(p: Pool<T>): Pool<T> {
    if p.parked == [] then p else p.(parked := p.parked[1..], checking := p.checking + {p.parked[0]})
  }

  function Grow<T>(p: Pool<T>): Pool<T> {
    var n := p.size + Growth(p.size, p.running);
    p.(size := n, checking := p.checking + Numbers(p.size, n))
  }

  function Next<T>(p: Pool<T>, a: Action<T>): Pool<T>
    requires Enabled(p, a)
  {
    match a
    case Schedule(t) => NotifyOne(Grow(p.(tasks := p.tasks + [t], submitted := p.submitted + [t])))
    case Check(w) =>
      if p.tasks == [] then p.(parked := p.parked + [w], checking := p.checking - {w})
      else
        var q := p.(tasks := p.tasks[1..], taken := p.taken + [p.tasks[0]]);
        if p.tasks[0].Empty? then q
        else q.(running := q.running + 1, busy := q.busy[w := p.tasks[0].job], checking := q.checking - {w})
    case Finish(w) => p.(running := p.running - 1, busy := p.busy - {w}, checking := p.checking + {w})
  }

  // ---------- the invariant ----------

  function Pow2(k: nat): nat { if k == 0 then 1 else 2 * Pow2(k - 1) }

  /** The sizes a lazily grown pool can have. */
  ghost predicate PoolSize(n: nat) { n == 0 || exists k: nat :: k <= 11 && n == GROW_SIZE * Pow2(k) }

  /** Every worker is in one of three places. */
  ghost predicate Workers<T>(p: Pool<T>) {
    && NoDup(p.parked)
    && (forall w :: w in p.parked ==> w < p.size && w !in p.checking && w !in p.busy)
    && (forall w :: w in p.checking ==> w < p.size && w !in p.busy)
    && (forall w :: w in p.busy ==> w < p.size)
    && (forall w: nat :: w < p.size ==> w in p.parked || w in p.checking || w in p.busy)
  }

  /** While a worker is parked, there are no more tasks than workers about to look for one. */
  ghost predicate Conserving<T>(p: Pool<T>) { p.parked == [] || |p.tasks| <= |p.checking| }

  ghost predicate Inv<T>(p: Pool<T>) {
    && p.submitted == p.taken + p.tasks
    && Workers(p) && Conserving(p)
    && p.running == |p.busy| && PoolSize(p.size)
  }

  /** Doubling stops after eleven times: 20480 is above the limit. */
  lemma GrowthKeepsSize(size: nat, running: nat)
    requires PoolSize(size)
    ensures PoolSize(size + Growth(size, running))
  {
    if size == 0 {
      assert GROW_SIZE == GROW_SIZE * Pow2(0);
    } else {
      var k: nat :| k <= 11 && size == GROW_SIZE * Pow2(k);
      if Growth(size, running) == size {
        Pow2Eleven(k);
        assert size + size == GROW_SIZE * Pow2(k + 1);
      }
    }
  }

  lemma Pow2Eleven(k: nat)
    requires k <= 11
    ensures k == 11 ==> GROW_SIZE * Pow2(k) > MAX_GROW_SIZE
  {
    assert Pow2(3) == 8;
    assert Pow2(6) == 64;
    assert Pow2(9) == 512;
    assert Pow2(11) == 2048;
  }

  lemma GrowKeeps<T>(p: Pool<T>)
    requires Workers(p) && PoolSize(p.size)
    ensures Workers(Grow(p)) && PoolSize(Grow(p).size) && |p.checking| <= |Grow(p).checking|
  {
    hide Growth, PoolSize, NoDup, Numbers;
    GrowthKeepsSize(p.size, p.running);
    SubsetSize(p.checking, Grow(p).checking);
  }

  /** The first of the parked workers is notified. */
  lemma UnparkKeeps<T>(p: Pool<T>, first: nat, rest: seq<nat>)
    requires Workers(p) && p.parked == [first] + rest
    ensures Workers(p.(parked := rest, checking := p.checking + {first})) && first !in p.checking
  {
    var q := p.(parked := rest, checking := p.checking + {first});
    NoDupRemove(p.parked, 0);
    assert p.parked[..0] + p.parked[1..] == rest;
    hide NoDup;
    assert p.parked[0] == first && first in p.parked;
    forall w | w in rest ensures w in p.parked && w != first {
      assert w in p.parked[..0] + p.parked[1..];
    }
    forall w: nat | w < p.size ensures w in q.parked || w in q.checking || w in q.busy {
      if w in p.parked && w != first {
        assert w in rest;
      }
    }
  }

  lemma NotifyKeeps<T>(p: Pool<T>)
    requires Workers(p) && (p.parked == [] || |p.tasks| <= |p.checking| + 1)
    ensures Workers(NotifyOne(p)) && Conserving(NotifyOne(p))
  {
    hide Workers;
    if p.parked != [] {
      UnparkKeeps(p, p.parked[0], p.parked[1..]);
      assert |p.checking + {p.parked[0]}| == |p.checking| + 1;
    }
  }

  lemma ScheduleKeeps<T>(p: Pool<T>, t: Task<T>)
    requires Inv(p)
    ensures Inv(Next(p, Schedule(t)))
  {
    hide Growth, PoolSize, NoDup, Numbers;
    var q := p.(tasks := p.tasks + [t], submitted := p.submitted + [t]);
    GrowKeeps(q);
    NotifyKeeps(Grow(q));
    hide Workers;
  }

  lemma CheckKeeps<T>(p: Pool<T>, w: nat)
    requires Inv(p) && w in p.checking
    ensures Inv(Next(p, Check(w)))
  {
    hide PoolSize, NoDup;
    NoDupInsert(p.parked, |p.parked|, w);
    assert Insert(p.parked, |p.parked|, w) == p.parked + [w];
  }

  lemma FinishKeeps<T>(p: Pool<T>, w: nat)
    requires Inv(p) && w in p.busy
    ensures Inv(Next(p, Finish(w)))
  {
    hide PoolSize, NoDup;
    assert (p.busy - {w}).Keys == p.busy.Keys - {w};
    assert |p.busy| == |p.busy.Keys| && |p.busy - {w}| == |(p.busy - {w}).Keys|;
  }

  lemma StepKeeps<T>(p: Pool<T>, a: Action<T>)
    requires Inv(p) && Enabled(p, a)
    ensures Inv(Next(p, a))
  {
    hide Inv, Next;
    match a {
      case Schedule(t) => ScheduleKeeps(p, t);
      case Check(w) => CheckKeeps(p, w);
      case Finish(w) => FinishKeeps(p, w);
    }
  }

  ghost predicate IsRun<T>(states: seq<Pool<T>>, acts: seq<Action<T>>) {
    && |states| == |acts| + 1 && states[0] == EmptyPool()
    && forall i :: 0 <= i < |acts| ==> Enabled(states[i], acts[i]) && states[i + 1] == Next(states[i], acts[i])
  }

  /**
   In every run: the tasks taken and the tasks waiting are together the tasks submitted, in
   order, so none is lost, run twice or overtaken; a parked worker never leaves more tasks than
   workers about to look; and the pool has 0 or 10 * 2^k workers, k at most 11.
   */
  lemma {:induction false} PoolSafe<T>(states: seq<Pool<T>>, acts: seq<Action<T>>, i: nat)
    requires IsRun(states, acts) && i <= |acts|
    ensures Inv(states[i])
  {
    hide Next;
    if i > 0 {
      PoolSafe(states, acts, i - 1);
      assert Enabled(states[i - 1], acts[i - 1]) && states[i - 1 + 1] == Next(states[i - 1], acts[i - 1]);
      StepKeeps(states[i - 1], acts[i - 1]);
    }
  }

  // ---------- the source's object ----------

  class TaskPool<T> {
    /** fiber_pool_: the workers, by number. */
    var workers: seq<nat>
    var tasks: seq<Task<T>>
    var running: nat
    const cond: Condition<nat>
    ghost var checking: set<nat>
    ghost var busy: map<nat, T>
    ghost var submitted: seq<Task<T>>
    ghost var taken: seq<Task<T>>

    ghost function View(): Pool<T>
      reads this, cond
    {
      Pool(|workers|, running, tasks, cond.waiting, checking, busy, submitted, taken)
    }

    constructor ()
      ensures View() == EmptyPool() && Inv(View()) && fresh(cond)
    {
      workers, tasks, running, checking, busy, submitted, taken := [], [], 0, {}, map[], [], [];
      cond := new Condition<nat>();
    }

    /** Starts `n` workers, which will look for a task when they first run. */
    method Start(n: nat)
      modifies this`workers, this`checking
      ensures |workers| == old(|workers|) + n && checking == old(checking) + Numbers(old(|workers|), |workers|)
    {
      checking := checking + Numbers(|workers|, |workers| + n);
      for i := 0 to n
        invariant |workers| == old(|workers|) + i
        invariant checking == old(checking) + Numbers(old(|workers|), old(|workers|) + n)
      {
        workers := workers + [|workers|];
      }
    }

    /** schedule_task_from_fiber, up to the yield at its end. */
    method Schedule(task: Task<T>)
      requires Inv(View())
      modifies this, cond
      ensures Inv(View()) && View() == Next(old(View()), Action.Schedule(task))
    {
      hide Inv, Numbers;
      ghost var p := View();
      ScheduleKeeps(p, task);
      tasks := tasks + [task];
      submitted := submitted + [task];
      NoNumbers(|workers|);
      if |workers| == 0 {
        Start(GROW_SIZE);
      } else if running >= |workers| - 1 {
        var growSize := |workers|;
        if growSize > MAX_GROW_SIZE {
          growSize := 0;
        }
        Start(growSize);
      }
      var woken := cond.NotifyOne();
      if woken.Some? {
        checking := checking + {woken.value};
      }
    }

    /** One look of worker `w` at the task list, with the lock held: it takes the first task or parks. */
    method Check(w: nat) returns (task: Option<Task<T>>)
      requires Inv(View()) && w in checking
      modifies this, cond
      ensures Inv(View()) && View() == Next(old(View()), Action.Check(w))
      ensures task == if old(tasks) == [] then None else Some(old(tasks)[0])
    {
      hide Inv;
      ghost var p := View();
      CheckKeeps(p, w);
      LookersAreNotParked(p, w);
      task := None;
      if tasks == [] {
        checking := checking - {w};
        cond.Enlist(w);
      } else {
        task := Some(tasks[0]);
        taken := taken + [tasks[0]];
        tasks := tasks[1..];
        if task.value.Job? {
          checking := checking - {w};
          busy := busy[w := task.value.job];
          running := running + 1;
        }
      }
    }

    /** The task of worker `w` has returned. */
    method Finish(w: nat)
      requires Inv(View()) && w in busy
      modifies this
      ensures Inv(View()) && Enabled(old(View()), Action.Finish(w)) && View() == Next(old(View()), Action.Finish(w))
    {
      hide Inv;
      ghost var p := View();
      BusyAreCounted(p, w);
      FinishKeeps(p, w);
      busy := busy - {w};
      checking := checking + {w};
      running := running - 1;
    }
  }

  lemma NoNumbers(n: nat)
    ensures Numbers(n, n) == {}
  {}

  lemma LookersAreNotParked<T>(p: Pool<T>, w: nat)
    requires Inv(p) && w in p.checking
    ensures w !in p.parked
  {
    hide NoDup, PoolSize;
  }

  lemma BusyAreCounted<T>(p: Pool<T>, w: nat)
    requires Inv(p) && w in p.busy
    ensures p.running > 0
  {
    hide NoDup, PoolSize, Workers;
    assert |p.busy| == |p.busy.Keys| && w in p.busy.Keys;
  }
}

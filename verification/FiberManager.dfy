/** fiber_manager: the scheduler on its linked queues, refining the state machine on values. */
module FiberManager {
  import opened Options
  import opened FiberOrder
  import opened FiberSched
  import opened FiberSafety
  import opened FiberRuns
  import opened FiberQueues

  ghost function Maybe(f: Fiber?): Option<Fiber> { if f == null then None else Some(f) }

  ghost function InfoOf(f: Fiber): Info<Fiber>
    reads f`status, f`due, f`joiners, f`target
  {
    Info(f.status, f.due, f.joiners, Maybe(f.target))
  }

  ghost function Infos(fibers: set<Fiber>): (m: map<Fiber, Info<Fiber>>)
    reads fibers`status, fibers`due, fibers`joiners, fibers`target
    ensures m.Keys == fibers && forall f :: f in fibers ==> m[f] == InfoOf(f)
  {
    map f | f in fibers :: InfoOf(f)
  }

  /** The entries that the queue sees are those of the machine on values. */
  lemma SameEntries(items: seq<Fiber>, fibers: set<Fiber>)
    requires forall f :: f in items ==> f in fibers
    ensures Entries(items) == EntriesOf(items, Infos(fibers))
  {
    hide Entries;
  }

  class Manager {
    const waiting: WaitingQueue
    const runnable: Fifo
    var active: Fiber?
    /** Every fiber that was ever spawned. */
    ghost var fibers: set<Fiber>

    ghost function View(): Sched<Fiber>
      reads this, waiting, runnable, fibers`status, fibers`due, fibers`joiners, fibers`target
    {
      Sched(Maybe(active), runnable.items, waiting.items, Infos(fibers))
    }

    /** Links and queue marks are set only while in a queue. */
    ghost predicate Unlinked(f: Fiber)
      reads waiting`items, runnable`items, f`home, f`prev, f`next
    {
      && (f !in waiting.items ==> f.home == null)
      && (f !in waiting.items && f !in runnable.items ==> f.prev == null && f.next == null)
    }

    /** The queues are well-formed lists. */
    ghost predicate Sound()
      reads this`fibers, waiting, runnable, fibers`home, fibers`prev, fibers`next
      reads waiting.items`prev, waiting.items`next, waiting.items`home, runnable.items`prev, runnable.items`next
    {
      && waiting.Valid() && runnable.Valid()
      && forall f :: f in fibers ==> Unlinked(f)
    }

    ghost predicate Valid()
      reads this, waiting, runnable, fibers, waiting.items, runnable.items
    {
      Sound() && Inv(View())
    }

    constructor ()
      ensures Valid() && View() == Sched(None, [], [], map[])
      ensures fresh(waiting) && fresh(runnable)
    {
      waiting := new WaitingQueue();
      runnable := new Fifo();
      active := null;
      fibers := {};
      new;
      EmptyIsInv<Fiber>();
      assert Infos(fibers) == map[];
    }

    /** fm_spawn. */
    method Spawn(f: Fiber)
      requires Valid() && f !in fibers && f.status == Ready && f.due == FOREVER && f.joiners == [] && f.target == null
      requires f.prev == null && f.next == null && f.home == null
      modifies this`fibers, runnable, runnable.items`prev, runnable.items`next, f`prev
      ensures Valid() && Steps(old(View()), FiberSched.Spawn(f), View())
    {
      hide Inv, Next, JoinersKnown, Infos, Linked;
      ghost var s, before := View(), fibers;
      InvKnows(s);
      fibers := fibers + {f};
      InfosMore(before, f, s.info);
      Awaken(f);
      SpawnIs(s, f);
      StepKeeps(s, FiberSched.Spawn(f));
    }

    /** awakened: puts a fiber that is in no queue at the end of the run queue. */
    method Awaken(f: Fiber)
      requires Sound() && f in fibers && f !in waiting.items && f !in runnable.items && f.status == Ready
      requires forall g :: g in runnable.items ==> g !in waiting.items
      modifies runnable, f`prev, runnable.items`prev, runnable.items`next
      ensures Sound() && runnable.items == old(runnable.items) + [f]
    {
      hide NoDup, Linked, WellLinked, Links;
      ghost var links := Links(waiting.items);
      ByLinks(waiting.items, waiting.head, waiting.tail);
      assert Unlinked(f);
      runnable.Push(f);
      forall i | 0 <= i < |waiting.items| ensures Links(waiting.items)[i] == links[i] {
        assert waiting.items[i] in waiting.items;
      }
      assert Links(waiting.items) == links;
      ByLinks(waiting.items, waiting.head, waiting.tail);
    }

    /** The active fiber goes to the waiting queue and gives up the thread. */
    method Park(status: Status, due: Time, ghost target: Fiber?)
      requires Valid() && active != null && (status == Ready || status == Waiting)
      modifies this`active, waiting, active`status, active`due, active`target, active`home, active`prev, active`next
      modifies waiting.items`prev, waiting.items`next
      ensures Sound() && fibers == old(fibers)
      ensures Known(old(View()))
      ensures var i := old(InfoOf(active)).(status := status, due := due, target := Maybe(target));
              View() == FiberSched.Park(old(View()), i)
    {
      hide Sound, Inv, Insert, PushPos, Entries, EntriesOf, FiberSched.Park, Infos;
      var a: Fiber := active;
      ghost var s := View();
      ghost var i := InfoOf(a).(status := status, due := due, target := Maybe(target));
      InvKnows(s);
      SameEntries(waiting.items, fibers);
      ghost var q := Entries(waiting.items);
      a.status := status;
      a.due := due;
      a.target := target;
      EntriesAre(waiting.items, q);
      Enqueue(a, q);
      InfosUpdate(fibers, a, s.info, i);
      ParkIs(s, i, q);
      active := null;
    }

    /** Puts a fiber that is in no queue in the waiting queue. */
    method Enqueue(f: Fiber, ghost q: seq<Entry>)
      requires Sound() && f in fibers && f !in waiting.items && f !in runnable.items
      requires (forall g :: g in runnable.items ==> g !in waiting.items) && Entries(waiting.items) == q
      modifies waiting, f`home, f`prev, f`next, waiting.items`prev, waiting.items`next
      ensures Sound() && waiting.items == Insert(old(waiting.items), PushPos(q, f.Seen()), f)
    {
      hide NoDup, Linked, WellLinked, Insert, PushPos, Entries, Links;
      ghost var links := Links(runnable.items);
      ByLinks(runnable.items, runnable.head, runnable.tail);
      assert Unlinked(f);
      InsertMembers(waiting.items, PushPos(q, f.Seen()), f);
      waiting.Push(f);
      forall k | 0 <= k < |runnable.items| ensures Links(runnable.items)[k] == links[k] {
        assert runnable.items[k] in runnable.items;
      }
      assert Links(runnable.items) == links;
      ByLinks(runnable.items, runnable.head, runnable.tail);
    }

    /** fm_wait_until, up to the suspension. */
    method WaitUntil(due: Time)
      requires Valid() && active != null
      modifies this`active, waiting, active`status, active`due, active`target, active`home, active`prev, active`next
      modifies waiting.items`prev, waiting.items`next
      ensures Valid() && Steps(old(View()), FiberSched.WaitUntil(due), View())
    {
      hide Sound, Inv, FiberSched.Park, Next, JoinersKnown, Infos;
      ghost var s := View();
      InvKnows(s);
      ParkSteps(s, due);
      Park(Waiting, due, null);
      StepKeeps(s, FiberSched.WaitUntil(due));
    }

    /** fm_yield, up to the suspension. */
    method Yield()
      requires Valid() && active != null
      modifies this`active, waiting, active`status, active`due, active`target, active`home, active`prev, active`next
      modifies waiting.items`prev, waiting.items`next
      ensures Valid() && Steps(old(View()), FiberSched.Yield, View())
    {
      hide Sound, Inv, FiberSched.Park, Next, JoinersKnown, Infos;
      ghost var s := View();
      InvKnows(s);
      ParkSteps(s, active.due);
      Park(Ready, active.due, null);
      StepKeeps(s, FiberSched.Yield);
    }

    /** set_ready: a fiber in the waiting queue also moves to its head. */
    method SetReady(f: Fiber)
      requires Sound() && f in fibers && f.status != Running && NoDup(waiting.items)
      requires forall g :: g in runnable.items ==> g !in waiting.items
      modifies f`status, f`target, waiting, waiting.items`prev, waiting.items`next
      ensures Sound() && View() == FiberSched.SetReady(old(View()), f)
    {
      hide NoDup, Linked, WellLinked, Links, Infos, ToFront, Position;
      ghost var s, links := View(), Links(runnable.items);
      ByLinks(runnable.items, runnable.head, runnable.tail);
      f.status := Ready;
      f.target := null;
      assert Unlinked(f);
      waiting.MoveToRun(f);
      if f in s.wait {
        OneIndex(s.wait, f);
        FrontMembers(s.wait, Position(s.wait, f));
      }
      InfosUpdate(fibers, f, s.info, InfoOf(f));
      forall k | 0 <= k < |runnable.items| ensures Links(runnable.items)[k] == links[k] {
        assert runnable.items[k] in runnable.items;
      }
      assert Links(runnable.items) == links;
      ByLinks(runnable.items, runnable.head, runnable.tail);
    }

    /** set_ready on a waiting fiber, as mutexes and conditions call it. */
    method Wake(f: Fiber)
      requires Valid() && f in waiting.items && f.target == null
      modifies f`status, f`target, waiting, waiting.items`prev, waiting.items`next
      ensures Valid() && Steps(old(View()), FiberSched.Wake(f), View())
    {
      hide Sound, Inv, FiberSched.SetReady, Next, JoinersKnown, Infos;
      ghost var s := View();
      InvKnows(s);
      WaitersDoNotRun(s, f);
      WakeIs(s, f);
      SetReady(f);
      StepKeeps(s, FiberSched.Wake(f));
    }

    /** Joining a fiber that has already terminated. */
    method JoinEnded()
      requires Valid() && active != null
      modifies this`active, waiting, active`status, active`due, active`target, active`home, fibers`prev, fibers`next
      ensures Sound() && Known(old(View())) && View() == JoinLate(old(View()))
    {
      hide Sound, Inv, FiberSched.Park, FiberSched.SetReady, Infos;
      var a: Fiber := active;
      ghost var s := View();
      InvKnows(s);
      JoinLateParks(s, a);
      Park(Waiting, a.due, null);
      InvKnows(View());
      WaitersDoNotRun(View(), a);
      SetReady(a);
    }

    /** Joining a fiber that has not terminated: the joiner is put on its list. */
    method JoinRunning(f: Fiber)
      requires Valid() && active != null && f in fibers && f != active
      modifies this`active, waiting, active`status, active`due, active`target, active`home, active`prev, active`next
      modifies f`joiners, waiting.items`prev, waiting.items`next
      ensures Sound() && Known(old(View())) && View() == JoinLive(old(View()), f)
    {
      hide Sound, Inv, FiberSched.Park, Infos;
      var a: Fiber := active;
      Park(Waiting, a.due, f);
      ghost var t := View();
      f.joiners := f.joiners + [a];
      InfosUpdate(fibers, f, t.info, InfoOf(f));
    }

    /** fm_join by the active fiber, up to the suspension. */
    method Join(f: Fiber)
      requires Valid() && active != null && f in fibers && f != active
      modifies this`active, waiting, active`status, active`due, active`target, active`home, active`prev, active`next
      modifies f`joiners, fibers`prev, fibers`next
      ensures Valid() && Steps(old(View()), FiberSched.Join(f), View())
    {
      hide Sound, Inv, JoinLate, JoinLive, Next, JoinersKnown, Infos;
      ghost var s := View();
      InvKnows(s);
      JoinIs(s, f);
      StepKeeps(s, FiberSched.Join(f));
      if f.status == Terminated {
        JoinEnded();
      } else {
        JoinRunning(f);
      }
    }

    /** set_terminated, and taking over the list of joiners. */
    method End() returns (told: seq<Fiber>)
      requires Valid() && active != null
      modifies this`active, active`joiners, active`status
      ensures Sound() && fibers == old(fibers) && Known(old(View())) && View() == Ended(old(View()))
      ensures told == old(active.joiners)
    {
      hide Sound, Inv, Infos;
      var a: Fiber := active;
      ghost var s := View();
      InvKnows(s);
      told := a.joiners;
      a.status := Terminated;
      a.joiners := [];
      active := null;
      InfosUpdate(fibers, a, s.info, InfoOf(a));
    }

    /** release: readies the fibers that joined `dead`, one after the other. */
    method Tell(told: seq<Fiber>, ghost dead: Fiber)
      requires Sound() && Telling(View(), dead, told) && NoDup(told)
      requires forall f :: f in told ==> f in fibers
      modifies fibers`status, fibers`target, waiting, fibers`prev, fibers`next
      ensures Sound() && Known(old(View())) && View() == Release(old(View()), told)
    {
      hide Sound, FiberSched.SetReady, Infos, Release, Telling;
      ghost var e := View();
      TellingKnows(e, dead, told);
      ReleaseNone(e);
      assert told[..0] == [];
      for k := 0 to |told|
        invariant Sound() && fibers == old(fibers) && View() == Release(e, told[..k])
      {
        ReleaseTells(e, dead, told, k);
        ReleaseMore(e, dead, told, k);
        SetReady(told[k]);
      }
      assert told[..|told|] == told;
    }

    /** The active fiber ends: set_terminated, then release. */
    method Terminate()
      requires Valid() && active != null
      modifies this`active, active`joiners, fibers`status, fibers`target, waiting, fibers`prev, fibers`next
      ensures Valid() && Steps(old(View()), FiberSched.Terminate, View())
    {
      hide Sound, Inv, Next, JoinersKnown, Infos, Release, Telling;
      ghost var s, a := View(), active;
      InvKnows(s);
      EndedTells(s);
      JoinersOnce(s, a);
      TerminateIs(s);
      StepKeeps(s, FiberSched.Terminate);
      JoinersSpawned(s, a);
      var told := End();
      Tell(told, a);
    }

    /** move_to on the two queues. */
    method Drain(now: Time, ghost q: seq<Entry>)
      requires Sound() && Queued(waiting.items) && q == Entries(waiting.items)
      requires forall f :: f in waiting.items ==> f !in runnable.items && f in fibers
      requires forall f :: f in runnable.items ==> f in fibers
      modifies waiting, runnable, fibers`prev, fibers`next, waiting.items`home, waiting.items`due, waiting.items`status
      ensures Sound()
      ensures var n := DueCount(q, now);
              && waiting.items == old(waiting.items)[n..] && runnable.items == old(runnable.items) + old(waiting.items)[..n]
              && (forall f :: f in old(waiting.items)[..n] ==> Idle(f))
              && Entries(waiting.items) == q[n..] && Queued(waiting.items)
    {
      hide NoDup, Linked, DueCount, Entries;
      ghost var n, was := DueCount(q, now), waiting.items;
      waiting.MoveTo(runnable, now);
      assert was == was[..n] + was[n..];
    }

    /** The first half of fm_run: ready and due fibers move to the run queue. */
    method MoveReady(now: Time)
      requires Valid() && now < FOREVER
      modifies waiting, runnable, fibers`prev, fibers`next, fibers`home, fibers`due, fibers`status
      ensures Valid() && Known(old(View())) && View() == Moved(old(View()), now)
    {
      hide Sound, Inv, NoDup, Infos, EntriesOf, DueCount, Update, Entries;
      ghost var s, q := View(), Entries(waiting.items);
      InvKnows(s);
      WaitersQueued(s, waiting.items, fibers);
      SameEntries(waiting.items, fibers);
      Drain(now, q);
      ghost var n := DueCount(q, now);
      StillQueued(s.wait, q, n);
      InfosMoved(fibers, s.info, s.wait[..n]);
      MovedKeeps(s, now);
    }

    lemma Heads()
      requires Sound()
      ensures runnable.head == At(runnable.items, 0) && waiting.head == At(waiting.items, 0)
    {
      hide Linked;
      runnable.HeadIs();
      waiting.HeadIs();
    }

    /**
     fm_run, up to the switch into the fiber it picked; when there is none, the time until which
     the thread sleeps.
     */
    method Turn(now: Time, clock: int, interval: int) returns (wake: Option<int>)
      requires Valid() && active == null && now < FOREVER
      modifies this`active, waiting, runnable, fibers`prev, fibers`next, fibers`home, fibers`due, fibers`status
      ensures Valid() && Steps(old(View()), FiberSched.Turn(now), View())
      ensures wake.Some? <==> active == null
      ensures wake.Some? ==> runnable.items == [] && forall f :: f in waiting.items ==>
                && f.status == Waiting && now < f.due
                && (f.due == FOREVER || wake.value <= f.due)
    {
      hide Sound, Inv, Next, Moved, Infos, JoinersKnown;
      ghost var s := View();
      InvKnows(s);
      TurnIs(s, now);
      StepKeeps(s, FiberSched.Turn(now));
      MoveReady(now);
      Heads();
      InvKnows(View());
      if runnable.head == null {
        SleepsInTime(s, now, clock, interval);
        wake := Some(NextWakeup(clock, interval));
      } else {
        wake := None;
        Switch();
      }
    }

    /** fm_next_wakeup. */
    function NextWakeup(clock: int, interval: int): int
      reads waiting, waiting.head
    {
      if waiting.head == null then clock + interval
      else if waiting.head.due == FOREVER then clock + interval
      else waiting.head.due
    }

    /** pick_next: takes the first fiber of the run queue. */
    method Pick() returns (f: Fiber)
      requires Sound() && runnable.items != [] && (forall g :: g in runnable.items ==> g !in waiting.items)
      modifies runnable, runnable.items`prev, runnable.items`next
      ensures Sound() && old(runnable.items) == [f] + runnable.items
    {
      hide NoDup, Linked, WellLinked, Links;
      ghost var links := Links(waiting.items);
      ByLinks(waiting.items, waiting.head, waiting.tail);
      f := runnable.Pop();
      forall i | 0 <= i < |waiting.items| ensures Links(waiting.items)[i] == links[i] {
        assert waiting.items[i] in waiting.items;
      }
      assert Links(waiting.items) == links;
      ByLinks(waiting.items, waiting.head, waiting.tail);
    }

    /** pick_next and the start of fm_resume_. */
    method Switch()
      requires Sound() && active == null && runnable.items != [] && Known(View())
      requires forall g :: g in runnable.items ==> g !in waiting.items
      modifies this`active, runnable, runnable.items`prev, runnable.items`next, fibers`status
      ensures Sound() && View() == Resume(old(View())) && active != null
    {
      hide Sound, Infos;
      ghost var s := View();
      var f := Pick();
      assert f == s.run[0] && f in s.run && runnable.items == s.run[1..];
      f.status := Running;
      active := f;
      InfosUpdate(fibers, f, s.info, InfoOf(f));
    }
  }

  /** Fibers that stay in the waiting queue stay as they were. */
  lemma StillQueued(was: seq<Fiber>, q: seq<Entry>, n: nat)
    requires n <= |was| == |q| && Entries(was[n..]) == q[n..]
    ensures forall i :: n <= i < |was| ==> was[i].Seen() == q[i]
  {
    hide Entries;
    forall i | n <= i < |was| ensures was[i].Seen() == q[i] {
      assert Entries(was[n..])[i - n] == was[n..][i - n].Seen();
    }
  }

  lemma WaitersQueued(s: Sched<Fiber>, items: seq<Fiber>, fibers: set<Fiber>)
    requires Inv(s) && s.wait == items && s.info == Infos(fibers)
    ensures Queued(items)
  {
    hide NoDup, InOrder, Joined, Infos;
  }

  lemma InfosMoved(fibers: set<Fiber>, before: map<Fiber, Info<Fiber>>, moved: seq<Fiber>)
    requires before.Keys == fibers
    requires forall f :: f in fibers && f in moved ==> InfoOf(f) == Woken(before[f])
    requires forall f :: f in fibers && f !in moved ==> InfoOf(f) == before[f]
    ensures Infos(fibers) == Update(before, moved)
  {}

  lemma TurnIs<F>(s: Sched<F>, now: Time)
    requires Inv(s) && s.active.None? && now < FOREVER
    ensures Known(s) && JoinersKnown(s) && Known(Moved(s, now)) && Next(s, Action.Turn(now)) == Resume(Moved(s, now))
    ensures Moved(s, now).active.None?
  {
    hide NoDup, InOrder, Joined, EntriesOf, DueCount;
    InvKnows(s);
    MovedEntries(s, now);
  }

  lemma TellingKnows<F>(s: Sched<F>, dead: F, left: seq<F>)
    requires Telling(s, dead, left)
    ensures Known(s)
  {
    hide NoDup, InOrder;
  }

  lemma JoinersSpawned<F>(s: Sched<F>, f: F)
    requires JoinersKnown(s) && f in s.info
    ensures forall p :: p in s.info[f].joiners ==> p in s.info
  {}

  lemma JoinIs<F>(s: Sched<F>, f: F)
    requires Inv(s) && s.active.Some? && f in s.info && f != s.active.value
    ensures Known(s) && JoinersKnown(s) && s.info[s.active.value].target.None?
    ensures Next(s, Action.Join(f)) == if s.info[f].status == Terminated then JoinLate(s) else JoinLive(s, f)
  {
    hide NoDup, InOrder, FiberSched.Park, FiberSched.SetReady;
    InvKnows(s);
    ActiveHasNoTarget(s);
  }

  lemma JoinLateParks<F>(s: Sched<F>, a: F)
    requires Inv(s) && s.active == Some(a)
    ensures s.info[a].target.None?
    ensures var t := FiberSched.Park(s, s.info[a].(status := Waiting)); Inv(t) && a in t.wait
  {
    hide NoDup, InOrder, Joined, Insert, PushPos;
    ActiveHasNoTarget(s);
    var i := s.info[a].(status := Waiting);
    ParkKeeps(s, i);
    InsertMembers(s.wait, PushPos(EntriesOf(s.wait, s.info), EntryOf(i)), a);
  }

  lemma JoinersOnce<F>(s: Sched<F>, f: F)
    requires Inv(s) && f in s.info
    ensures NoDup(s.info[f].joiners)
  {
    hide NoDup, InOrder;
  }

  lemma ReleaseNone<F>(s: Sched<F>)
    requires Known(s)
    ensures Release(s, []) == s
  {}

  /** The next joiner to be told is waiting. */
  lemma ReleaseMore<F>(s: Sched<F>, dead: F, fs: seq<F>, k: nat)
    requires Telling(s, dead, fs) && NoDup(fs) && k < |fs| && (forall f :: f in fs[..k] ==> f in s.info)
    requires Telling(Release(s, fs[..k]), dead, fs[k..])
    ensures var t := Release(s, fs[..k]);
            && fs[k] in t.info && t.info[fs[k]].status != Running && NoDup(t.wait)
            && (forall f :: f in t.run ==> f !in t.wait)
            && (forall f :: f in fs[..k + 1] ==> f in s.info)
            && Release(s, fs[..k + 1]) == FiberSched.SetReady(t, fs[k])
  {
    hide NoDup, InOrder, FiberSched.SetReady;
    assert fs[k..][0] == fs[k] && fs[k] in fs[k..];
    assert fs[..k + 1][..k] == fs[..k];
    assert fs[k] in fs;
  }

  lemma TerminateIs<F>(s: Sched<F>)
    requires Known(s) && JoinersKnown(s) && s.active.Some?
    ensures Next(s, Action.Terminate) == Release(Ended(s), s.info[s.active.value].joiners)
  {}

  lemma WaitersDoNotRun<F>(s: Sched<F>, f: F)
    requires Inv(s) && f in s.wait
    ensures f in s.info && s.info[f].status != Running && NoDup(s.wait)
  {
    hide NoDup, InOrder, Joined;
  }

  lemma WakeIs<F>(s: Sched<F>, f: F)
    requires Known(s) && JoinersKnown(s) && f in s.wait && s.info[f].target.None?
    ensures Next(s, Action.Wake(f)) == FiberSched.SetReady(s, f)
  {}

  lemma OneIndex<F>(q: seq<F>, x: F)
    requires NoDup(q) && x in q
    ensures IndexOf(q, x) == Position(q, x)
  {
    hide Position;
    Apart(q, Position(q, x));
  }

  /** Waiting and yielding are parking. */
  lemma ParkSteps<F>(s: Sched<F>, due: Time)
    requires Inv(s) && s.active.Some?
    ensures Known(s) && JoinersKnown(s) && s.info[s.active.value].target.None?
    ensures Next(s, Action.WaitUntil(due)) == FiberSched.Park(s, s.info[s.active.value].(status := Waiting, due := due))
    ensures Next(s, Action.Yield) == FiberSched.Park(s, s.info[s.active.value].(status := Ready))
  {
    hide FiberSched.Park, NoDup, InOrder;
    InvKnows(s);
    ActiveHasNoTarget(s);
  }

  lemma InfosMore(fibers: set<Fiber>, f: Fiber, before: map<Fiber, Info<Fiber>>)
    requires f !in fibers && before == Infos(fibers)
    ensures Infos(fibers + {f}) == before[f := InfoOf(f)]
  {}

  lemma InfosUpdate(fibers: set<Fiber>, f: Fiber, before: map<Fiber, Info<Fiber>>, i: Info<Fiber>)
    requires f in fibers && before.Keys == fibers && InfoOf(f) == i
    requires forall g :: g in fibers && g != f ==> InfoOf(g) == before[g]
    ensures Infos(fibers) == before[f := i]
  {}

  lemma ParkIs<F>(s: Sched<F>, i: Info<F>, q: seq<Entry>)
    requires Known(s) && s.active.Some? && q == EntriesOf(s.wait, s.info)
    ensures FiberSched.Park(s, i)
         == Sched(None, s.run, Insert(s.wait, PushPos(q, EntryOf(i)), s.active.value), s.info[s.active.value := i])
  {
    hide Insert, PushPos;
  }

  lemma EntriesAre(items: seq<Fiber>, q: seq<Entry>)
    requires |q| == |items| && forall i :: 0 <= i < |items| ==> items[i].Seen() == q[i]
    ensures Entries(items) == q
  {
    hide Entries;
  }

  lemma SpawnIs<F>(s: Sched<F>, f: F)
    requires Known(s) && JoinersKnown(s) && f !in s.info
    ensures Next(s, Action.Spawn(f)) == s.(run := s.run + [f], info := s.info[f := Info(Ready, FOREVER, [], None)])
  {}

  lemma InvKnows<F>(s: Sched<F>)
    requires Inv(s)
    ensures Known(s) && JoinersKnown(s)
    ensures forall f :: f in s.run ==> f !in s.wait
    ensures s.active.Some? ==> s.active.value !in s.run && s.active.value !in s.wait
  {
    hide NoDup, InOrder;
  }
}

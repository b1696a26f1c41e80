/**
 The scheduler as a state machine on values, one atomic step between two suspension points:
 who runs, who is runnable, who waits, and who waits for whom.
 */
module FiberSched {
  import opened Options
  import opened FiberOrder

  /** What the scheduler knows of a fiber; `target` is the fiber it is joining. */
  datatype Info<F> = Info(status: Status, due: Time, joiners: seq<F>, target: Option<F>)

  datatype Sched<F> = Sched(active: Option<F>, run: seq<F>, wait: seq<F>, info: map<F, Info<F>>)

  predicate Known<F(==)>(s: Sched<F>) {
    && (forall f :: f in s.run ==> f in s.info)
    && (forall f :: f in s.wait ==> f in s.info)
    && (s.active.Some? ==> s.active.value in s.info)
  }

  predicate JoinersKnown<F(==)>(s: Sched<F>) { forall f, p :: f in s.info && p in s.info[f].joiners ==> p in s.info }

  function EntryOf<F>(i: Info<F>): Entry { Entry(i.status == Ready, i.due) }

  function EntriesOf<F(==)>(wait: seq<F>, info: map<F, Info<F>>): seq<Entry>
    requires forall f :: f in wait ==> f in info
  {
    seq(|wait|, i requires 0 <= i < |wait| => EntryOf(info[wait[i]]))
  }

  // ---------- the steps ----------

  datatype Action<F> =
    | Spawn(f: F)            // fm_spawn
    | Turn(now: Time)        // fm_run, up to the switch into the fiber it picked
    | WaitUntil(due: Time)   // fm_wait_until, by the active fiber
    | Yield                  // fm_yield
    | Join(f: F)             // fm_join
    | Wake(f: F)             // set_ready, by whoever notifies a waiting fiber
    | Terminate              // set_terminated and release, at the end of the active fiber

  predicate Enabled<F(==)>(s: Sched<F>, a: Action<F>)
    requires Known(s)
  {
    match a
    case Spawn(f) => f !in s.info
    case Turn(now) => s.active.None? && now < FOREVER
    case WaitUntil(due) => s.active.Some?
    case Yield => s.active.Some?
    case Join(f) => s.active.Some? && f in s.info && f != s.active.value
    case Wake(f) => f in s.wait && s.info[f].target.None?
    case Terminate => s.active.Some?
  }

  /** A fiber that is taken out of the waiting queue forgets its deadline. */
  function Woken<F>(i: Info<F>): Info<F> { i.(status := Ready, due := FOREVER) }

  function Update<F(==)>(info: map<F, Info<F>>, fs: seq<F>): map<F, Info<F>> {
    map f | f in info :: if f in fs then Woken(info[f]) else info[f]
  }

  /** The run queue and the waiting queue after the ready and due fibers have moved. */
  function Moved<F(==)>(s: Sched<F>, now: Time): Sched<F>
    requires Known(s)
  {
    var n := DueCount(EntriesOf(s.wait, s.info), now);
    Sched(s.active, s.run + s.wait[..n], s.wait[n..], Update(s.info, s.wait[..n]))
  }

  function Resume<F(==)>(s: Sched<F>): Sched<F>
    requires Known(s)
  {
    if s.run == [] then s
    else
      var f := s.run[0];
      Sched(Some(f), s.run[1..], s.wait, s.info[f := s.info[f].(status := Running)])
  }

  /** set_ready: a fiber of the waiting queue also moves to its head. */
  function SetReady<F(==)>(s: Sched<F>, f: F): Sched<F>
    requires f in s.info
  {
    s.(wait := if f in s.wait then ToFront(s.wait, Position(s.wait, f), f) else s.wait,
    info := s.info[f := s.info[f].(status := Ready, target := None)])
  }

  /** Readies the joiners of a terminated fiber, in the order they came. */
  function Release<F(==)>(s: Sched<F>, fs: seq<F>): (r: Sched<F>)
    requires Known(s) && forall f :: f in fs ==> f in s.info
    ensures Known(r) && r.info.Keys == s.info.Keys && r.active == s.active && r.run == s.run
    ensures (forall f :: f in r.wait ==> f in s.wait) && (forall f :: f in s.wait ==> f in r.wait)
    decreases |fs|
  {
    if fs == [] then s
    else
      var t := Release(s, fs[..|fs| - 1]);
      SetReady(t, fs[|fs| - 1])
  }

  function Position<F(==)>(q: seq<F>, x: F): (k: nat)
    requires x in q
    ensures k < |q| && q[k] == x
  {
    if q[0] == x then 0 else 1 + Position(q[1..], x)
  }

  function Park<F(==)>(s: Sched<F>, i: Info<F>): Sched<F>
    requires Known(s) && s.active.Some?
  {
    var a := s.active.value;
    var k := PushPos(EntriesOf(s.wait, s.info), EntryOf(i));
    Sched(None, s.run, Insert(s.wait, k, a), s.info[a := i])
  }

  // ---------- the invariant ----------

  /** Each fiber is in the one place that its status says. */
  ghost predicate Placed<F>(s: Sched<F>) {
    && Known(s) && NoDup(s.run) && NoDup(s.wait)
    && (forall f :: f in s.run ==> f !in s.wait && s.info[f].status == Ready && s.info[f].due == FOREVER)
    && (forall f :: f in s.wait ==> s.info[f].status == Ready || s.info[f].status == Waiting)
    && (s.active.Some? ==> s.info[s.active.value].status == Running && s.info[s.active.value].due == FOREVER)
    && (forall f :: f in s.info ==>
          && (s.info[f].status == Running ==> s.active == Some(f))
          && (s.info[f].status == Waiting ==> f in s.wait)
          && (s.info[f].status == Ready ==> f in s.wait || f in s.run))
  }

  ghost predicate InOrder<F>(s: Sched<F>) { Known(s) && Ordered(EntriesOf(s.wait, s.info)) }

  /** The lists of joiners say exactly who waits for whom, and nobody waits for a terminated fiber. */
  ghost predicate Joined<F>(s: Sched<F>) {
    && (forall f :: f in s.info ==> NoDup(s.info[f].joiners))
    && (forall f, p :: f in s.info && p in s.info[f].joiners ==> p in s.info && s.info[p].target == Some(f))
    && (forall p :: p in s.info && s.info[p].target.Some? ==>
          var f := s.info[p].target.value;
          && s.info[p].status == Waiting && s.info[p].due == FOREVER
          && f in s.info && s.info[f].status != Terminated && p in s.info[f].joiners)
  }

  ghost predicate Inv<F>(s: Sched<F>) { Placed(s) && InOrder(s) && Joined(s) }

  lemma JoinersWait<F>(s: Sched<F>, f: F)
    requires Placed(s) && Joined(s) && f in s.info
    ensures forall p :: p in s.info[f].joiners ==> p in s.wait
  {}

  function Next<F(==)>(s: Sched<F>, a: Action<F>): Sched<F>
    requires Known(s) && JoinersKnown(s) && Enabled(s, a)
  {
    match a
    case Spawn(f) => s.(run := s.run + [f], info := s.info[f := Info(Ready, FOREVER, [], None)])
    case Turn(now) => Resume(Moved(s, now))
    case WaitUntil(due) => Park(s, s.info[s.active.value].(status := Waiting, due := due))
    case Yield => Park(s, s.info[s.active.value].(status := Ready))
    case Join(f) => if s.info[f].status == Terminated then JoinLate(s) else JoinLive(s, f)
    case Wake(f) => SetReady(s, f)
    case Terminate => Release(Ended(s), s.info[s.active.value].joiners)
  }

  /** Joining a fiber that has terminated: parked and readied at once. */
  function JoinLate<F(==)>(s: Sched<F>): Sched<F>
    requires Known(s) && s.active.Some?
  {
    SetReady(Park(s, s.info[s.active.value].(status := Waiting)), s.active.value)
  }

  function JoinLive<F(==)>(s: Sched<F>, f: F): Sched<F>
    requires Known(s) && s.active.Some? && f in s.info
  {
    var a := s.active.value;
    var t := Park(s, s.info[a].(status := Waiting, target := Some(f)));
    t.(info := t.info[f := t.info[f].(joiners := t.info[f].joiners + [a])])
  }

  /** The active fiber has terminated and its joiners are not yet told. */
  function Ended<F(==)>(s: Sched<F>): Sched<F>
    requires Known(s) && s.active.Some?
  {
    var a := s.active.value;
    s.(active := None, info := s.info[a := s.info[a].(status := Terminated, joiners := [])])
  }
}

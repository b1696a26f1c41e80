/** Every step of the scheduler keeps the invariant; what holds in every reachable state. */
module FiberSafety {
  import opened Options
  import opened FiberOrder
  import opened FiberSched

  // ---------- entries of the waiting queue ----------

  lemma EntriesPark<F>(wait: seq<F>, info: map<F, Info<F>>, k: nat, a: F, i: Info<F>)
    requires (forall f :: f in wait ==> f in info) && a !in wait && k <= |wait|
    ensures forall f :: f in Insert(wait, k, a) ==> f in info[a := i]
    ensures EntriesOf(Insert(wait, k, a), info[a := i]) == Insert(EntriesOf(wait, info), k, EntryOf(i))
  {}

  lemma EntriesFront<F>(wait: seq<F>, info: map<F, Info<F>>, k: nat, j: Info<F>)
    requires (forall f :: f in wait ==> f in info) && NoDup(wait) && k < |wait|
    ensures forall f :: f in ToFront(wait, k, wait[k]) ==> f in info[wait[k] := j]
    ensures EntriesOf(ToFront(wait, k, wait[k]), info[wait[k] := j]) == ToFront(EntriesOf(wait, info), k, EntryOf(j))
  {
    Apart(wait, k);
  }

  /** Only the entries of the queue matter. */
  lemma EntriesSame<F>(wait: seq<F>, info: map<F, Info<F>>, other: map<F, Info<F>>)
    requires forall f :: f in wait ==> f in info && f in other && EntryOf(info[f]) == EntryOf(other[f])
    ensures EntriesOf(wait, info) == EntriesOf(wait, other)
  {}

  // ---------- spawning ----------

  lemma SpawnKeeps<F>(s: Sched<F>, f: F)
    requires Inv(s) && f !in s.info
    ensures Inv(Next(s, Spawn(f)))
  {
    var t := Next(s, Spawn(f));
    EntriesSame(s.wait, s.info, t.info);
    assert t.run == Insert(s.run, |s.run|, f);
    NoDupInsert(s.run, |s.run|, f);
  }

  // ---------- turns ----------

  lemma MovedEntries<F>(s: Sched<F>, now: Time)
    requires Placed(s)
    ensures var n := DueCount(EntriesOf(s.wait, s.info), now);
            && n <= |s.wait| && Known(Moved(s, now))
            && EntriesOf(Moved(s, now).wait, Moved(s, now).info) == EntriesOf(s.wait, s.info)[n..]
            && forall f :: f in s.wait[n..] ==> f !in s.wait[..n]
  {
    var q := EntriesOf(s.wait, s.info);
    var n := DueCount(q, now);
    var t := Moved(s, now);
    hide DueCount;
    forall i | n <= i < |s.wait| ensures s.wait[i] !in s.wait[..n] {}
    forall i | 0 <= i < |t.wait| ensures EntriesOf(t.wait, t.info)[i] == q[n..][i] {
      assert t.wait[i] == s.wait[n + i] && s.wait[n + i] in s.wait;
    }
  }

  lemma MovedPlaced<F>(s: Sched<F>, now: Time)
    requires Placed(s)
    ensures Placed(Moved(s, now))
  {
    hide DueCount, EntriesOf, NoDup;
    MovedEntries(s, now);
    var n := DueCount(EntriesOf(s.wait, s.info), now);
    RunAndPrefix(s.run, s.wait, n);
    SplitPlaced(s, s.wait[..n], s.wait[n..]);
  }

  lemma SplitPlaced<F>(s: Sched<F>, moved: seq<F>, rest: seq<F>)
    requires Placed(s) && s.wait == moved + rest && NoDup(s.run + moved) && NoDup(rest)
    requires forall f :: f in rest ==> f !in moved
    ensures Placed(Sched(s.active, s.run + moved, rest, Update(s.info, moved)))
  {
    hide NoDup;
    assert forall f :: f in s.wait <==> f in moved || f in rest;
  }

  lemma RunAndPrefix<T>(run: seq<T>, wait: seq<T>, n: nat)
    requires NoDup(run) && NoDup(wait) && n <= |wait| && forall f :: f in run ==> f !in wait
    ensures NoDup(run + wait[..n]) && NoDup(wait[n..])
  {
    var r := run + wait[..n];
    forall i, j | 0 <= i < j < |r| ensures r[i] != r[j] {
      if i < |run| <= j {
        assert r[j] == wait[j - |run|] && r[j] in wait;
        assert run[i] in run;
      }
    }
  }

  /** A fiber that joins another is neither ready nor due. */
  lemma MovedHaveNoTarget<F>(s: Sched<F>, now: Time, f: F)
    requires Placed(s) && Joined(s) && now < FOREVER && f in s.wait[..DueCount(EntriesOf(s.wait, s.info), now)]
    ensures s.info[f].target.None?
  {
    var q := EntriesOf(s.wait, s.info);
    var n := DueCount(q, now);
    var i :| 0 <= i < n && s.wait[i] == f;
    assert IsDue(q[i], now);
  }

  lemma MovedJoined<F>(s: Sched<F>, now: Time)
    requires Placed(s) && Joined(s) && now < FOREVER
    ensures Joined(Moved(s, now))
  {
    MovedEntries(s, now);
    var n := DueCount(EntriesOf(s.wait, s.info), now);
    var t := Moved(s, now);
    forall f | f in s.info && s.info[f].target.Some? ensures t.info[f] == s.info[f] {
      if f in s.wait[..n] {
        MovedHaveNoTarget(s, now, f);
      }
    }
    JoinedSame(s, t);
  }

  /** The lists of joiners stay right when only fibers that join nobody change, and none of them terminates. */
  lemma JoinedSame<F>(s: Sched<F>, t: Sched<F>)
    requires Joined(s) && t.info.Keys == s.info.Keys
    requires forall f :: f in s.info ==> t.info[f].target == s.info[f].target && t.info[f].joiners == s.info[f].joiners
    requires forall f :: f in s.info && s.info[f].target.Some? ==> t.info[f] == s.info[f]
    requires forall f :: f in s.info && t.info[f].status == Terminated ==> s.info[f].status == Terminated
    ensures Joined(t)
  {
    hide NoDup;
  }

  lemma MovedKeeps<F>(s: Sched<F>, now: Time)
    requires Inv(s) && now < FOREVER
    ensures Inv(Moved(s, now))
  {
    hide Placed, Joined, Moved, EntriesOf, DueCount, Ordered;
    MovedPlaced(s, now);
    MovedJoined(s, now);
    MovedInOrder(s, now);
  }

  lemma MovedInOrder<F>(s: Sched<F>, now: Time)
    requires Placed(s) && InOrder(s)
    ensures InOrder(Moved(s, now))
  {
    hide Moved, EntriesOf, DueCount, Ordered;
    MovedEntries(s, now);
    EarlyExitIsFullScan(EntriesOf(s.wait, s.info), now);
  }

  lemma ResumePlaced<F>(s: Sched<F>)
    requires Placed(s) && s.active.None? && s.run != []
    ensures Placed(Resume(s))
  {
    assert s.run[0] in s.run;
    Apart(s.run, 0);
    NoDupRemove(s.run, 0);
    assert s.run[1..] == s.run[..0] + s.run[1..];
    assert forall f :: f in s.run ==> f == s.run[0] || f in s.run[1..];
    hide NoDup;
  }

  lemma ResumeKeeps<F>(s: Sched<F>)
    requires Inv(s) && s.active.None?
    ensures Inv(Resume(s))
  {
    if s.run != [] {
      var t := Resume(s);
      assert s.run[0] in s.run;
      ResumePlaced(s);
      EntriesSame(s.wait, s.info, t.info);
      JoinedSame(s, t);
      hide Ordered, EntriesOf, Joined, Placed;
    }
  }

  // ---------- parking ----------

  lemma ParkPlaced<F>(s: Sched<F>, i: Info<F>)
    requires Placed(s) && s.active.Some? && (i.status == Ready || i.status == Waiting)
    ensures Placed(Park(s, i))
  {
    var a := s.active.value;
    var k := PushPos(EntriesOf(s.wait, s.info), EntryOf(i));
    hide PushPos, EntriesOf, EntryOf;
    NoDupInsert(s.wait, k, a);
    InsertMembers(s.wait, k, a);
    hide NoDup, Insert;
  }

  lemma ParkInOrder<F>(s: Sched<F>, i: Info<F>)
    requires Placed(s) && InOrder(s) && s.active.Some?
    ensures InOrder(Park(s, i))
  {
    var a := s.active.value;
    var q := EntriesOf(s.wait, s.info);
    var k := PushPos(q, EntryOf(i));
    assert a !in s.wait;
    EntriesPark(s.wait, s.info, k, a, i);
    PushKeepsOrder(q, EntryOf(i));
    hide PushPos, EntriesOf, EntryOf, Ordered, Insert;
  }

  /** The active fiber joins nobody. */
  lemma ActiveHasNoTarget<F>(s: Sched<F>)
    requires Placed(s) && Joined(s) && s.active.Some?
    ensures s.info[s.active.value].target.None?
  {}

  lemma ParkJoined<F>(s: Sched<F>, i: Info<F>)
    requires Placed(s) && Joined(s) && s.active.Some? && i.status != Terminated
    requires i.joiners == s.info[s.active.value].joiners && i.target.None?
    ensures Joined(Park(s, i))
  {
    hide PushPos, EntriesOf, EntryOf, Insert, NoDup;
    ActiveHasNoTarget(s);
    JoinedSame(s, Park(s, i));
  }

  lemma ParkKeeps<F>(s: Sched<F>, i: Info<F>)
    requires Inv(s) && s.active.Some? && (i.status == Ready || i.status == Waiting)
    requires i.joiners == s.info[s.active.value].joiners && i.target.None?
    ensures Inv(Park(s, i))
  {
    hide Park, InOrder, Joined;
    ParkPlaced(s, i);
    ParkInOrder(s, i);
    ParkJoined(s, i);
  }

  lemma JoinLiveKeeps<F>(s: Sched<F>, f: F)
    requires Inv(s) && s.active.Some? && f in s.info && f != s.active.value && s.info[f].status != Terminated
    ensures Inv(JoinLive(s, f))
  {
    hide Park, Joined, Ordered, EntriesOf;
    var a := s.active.value;
    var i := s.info[a].(status := Waiting, target := Some(f));
    ParkPlaced(s, i);
    ParkInOrder(s, i);
    ParkKnows(s, i);
    MoreJoiners(Park(s, i), f, a);
    JoinLiveJoined(s, f);
  }

  lemma ParkKnows<F>(s: Sched<F>, i: Info<F>)
    requires Known(s) && s.active.Some?
    ensures Park(s, i).info.Keys == s.info.Keys
  {
    hide PushPos, EntriesOf, EntryOf, Insert;
  }

  /** Where fibers are does not depend on the lists of joiners. */
  lemma MoreJoiners<F>(s: Sched<F>, f: F, a: F)
    requires Placed(s) && InOrder(s) && f in s.info
    ensures var t := s.(info := s.info[f := s.info[f].(joiners := s.info[f].joiners + [a])]); Placed(t) && InOrder(t)
  {
    var t := s.(info := s.info[f := s.info[f].(joiners := s.info[f].joiners + [a])]);
    EntriesSame(s.wait, s.info, t.info);
    hide NoDup, Ordered, EntriesOf, EntryOf;
  }

  /** One more on a list of joiners. */
  lemma OneMoreJoiner<F>(q: seq<F>, a: F)
    requires NoDup(q) && a !in q
    ensures NoDup(q + [a])
  {
    NoDupInsert(q, |q|, a);
    assert Insert(q, |q|, a) == q + [a];
  }

  /** Fiber `a` begins to wait for `f`. */
  function WithJoiner<F(==)>(info: map<F, Info<F>>, f: F, a: F): map<F, Info<F>>
    requires a in info && f in info
  {
    info[a := info[a].(status := Waiting, target := Some(f))][f := info[f].(joiners := info[f].joiners + [a])]
  }

  lemma WithJoinerJoined<F>(s: Sched<F>, f: F, a: F, t: Sched<F>)
    requires Joined(s) && a in s.info && f in s.info && f != a && s.info[f].status != Terminated
    requires s.info[a].target.None? && s.info[a].due == FOREVER && s.info[a].status != Terminated
    requires t.info == WithJoiner(s.info, f, a)
    ensures Joined(t)
  {
    hide NoDup;
    assert a !in s.info[f].joiners;
    OneMoreJoiner(s.info[f].joiners, a);
    forall g, p | g in t.info && p in t.info[g].joiners ensures p in t.info && t.info[p].target == Some(g) {
      if !(g == f && p == a) {
        assert p in s.info[g].joiners;
      }
    }
    forall p | p in t.info && t.info[p].target.Some? ensures
        var g := t.info[p].target.value;
        && t.info[p].status == Waiting && t.info[p].due == FOREVER
        && g in t.info && t.info[g].status != Terminated && p in t.info[g].joiners
    {
      if p != a {
        assert p in s.info && s.info[p].target == t.info[p].target;
        assert p in s.info[t.info[p].target.value].joiners;
      }
    }
  }

  lemma JoinLiveJoined<F>(s: Sched<F>, f: F)
    requires Placed(s) && Joined(s) && s.active.Some? && f in s.info && f != s.active.value
              && s.info[f].status != Terminated
    ensures Joined(JoinLive(s, f))
  {
    hide PushPos, EntriesOf, Insert, NoDup, Joined;
    ActiveHasNoTarget(s);
    WithJoinerJoined(s, f, s.active.value, JoinLive(s, f));
  }

  lemma NoDupFront<T>(q: seq<T>, k: nat)
    requires NoDup(q) && k < |q|
    ensures NoDup(ToFront(q, k, q[k]))
  {
    NoDupRemove(q, k);
    FrontIsInsert(q, k, q[k]);
    NoDupInsert(q[..k] + q[k + 1..], 0, q[k]);
    hide NoDup;
  }

  lemma SetReadyPlaced<F>(s: Sched<F>, f: F)
    requires Placed(s) && f in s.wait
    ensures Placed(SetReady(s, f))
  {
    hide NoDup, ToFront, Position;
    var k := Position(s.wait, f);
    FrontMembers(s.wait, k);
    NoDupFront(s.wait, k);
  }

  lemma SetReadyInOrder<F>(s: Sched<F>, f: F)
    requires Placed(s) && InOrder(s) && f in s.wait
    ensures InOrder(SetReady(s, f))
  {
    hide NoDup, ToFront, Ordered, Position;
    var k := Position(s.wait, f);
    var j := s.info[f].(status := Ready, target := None);
    EntriesFront(s.wait, s.info, k, j);
    WakeKeepsOrder(EntriesOf(s.wait, s.info), k, EntryOf(j));
  }

  lemma WakeKeeps<F>(s: Sched<F>, f: F)
    requires Inv(s) && f in s.wait && s.info[f].target.None?
    ensures Inv(SetReady(s, f))
  {
    hide NoDup, ToFront, Ordered, EntriesOf, Position, Joined, Placed;
    SetReadyPlaced(s, f);
    SetReadyInOrder(s, f);
    JoinedSame(s, SetReady(s, f));
  }

  // ---------- termination ----------

  /** The joiners not yet told that `dead` has terminated are `left`; the rest is in order. */
  ghost predicate Telling<F>(s: Sched<F>, dead: F, left: seq<F>) {
    && Placed(s) && InOrder(s)
    && dead in s.info && s.info[dead].status == Terminated && s.info[dead].joiners == []
    && (forall p :: p in left ==> p in s.wait && s.info[p].target == Some(dead))
    && (forall f :: f in s.info ==> NoDup(s.info[f].joiners))
    && (forall f, p :: f in s.info && p in s.info[f].joiners ==> p in s.info && s.info[p].target == Some(f))
    && (forall p :: p in s.info && s.info[p].target.Some? ==>
          var f := s.info[p].target.value;
          && s.info[p].status == Waiting && s.info[p].due == FOREVER && f in s.info
          && if f == dead then p in left else s.info[f].status != Terminated && p in s.info[f].joiners)
  }

  lemma EndedTells<F>(s: Sched<F>)
    requires Inv(s) && s.active.Some?
    ensures Telling(Ended(s), s.active.value, s.info[s.active.value].joiners)
  {
    JoinersWait(s, s.active.value);
    ActiveHasNoTarget(s);
    var t := Ended(s);
    EntriesSame(s.wait, s.info, t.info);
    hide NoDup, Ordered, EntriesOf;
  }

  lemma TellOne<F>(s: Sched<F>, dead: F, left: seq<F>)
    requires Telling(s, dead, left) && left != [] && NoDup(left)
    ensures Telling(SetReady(s, left[0]), dead, left[1..])
    ensures SetReady(s, left[0]).info.Keys == s.info.Keys
  {
    hide NoDup, ToFront, Ordered, EntriesOf, Position, InOrder;
    var p := left[0];
    assert p in left;
    Apart(left, 0);
    assert forall q :: q in left ==> q == p || q in left[1..];
    assert p !in left[1..];
    SetReadyPlaced(s, p);
    SetReadyInOrder(s, p);
    FrontMembers(s.wait, Position(s.wait, p));
    hide Placed;
  }

  lemma {:induction false} ReleaseTells<F>(s: Sched<F>, dead: F, fs: seq<F>, k: nat)
    requires Telling(s, dead, fs) && NoDup(fs) && k <= |fs|
    ensures forall f :: f in fs[..k] ==> f in s.wait
    ensures Telling(Release(s, fs[..k]), dead, fs[k..])
    ensures forall f :: f in fs[..k] ==> Release(s, fs[..k]).info[f].status == Ready
    ensures Release(s, fs[..k]).info.Keys == s.info.Keys
  {
    hide NoDup, SetReady, Placed, InOrder;
    if k == 0 {
      assert fs[0..] == fs;
    } else {
      ReleaseTells(s, dead, fs, k - 1);
      assert fs[..k][..k - 1] == fs[..k - 1];
      var t := Release(s, fs[..k - 1]);
      NoDupSuffix(fs, k - 1);
      TellOne(t, dead, fs[k - 1..]);
      assert fs[k - 1..][1..] == fs[k..];
      ReadyStays(t, fs[k - 1]);
    }
  }

  lemma ReadyStays<F>(s: Sched<F>, f: F)
    requires Known(s) && f in s.wait
    ensures SetReady(s, f).info[f].status == Ready
    ensures forall g :: g in s.info && s.info[g].status == Ready ==> SetReady(s, f).info[g].status == Ready
  {
    hide ToFront;
  }

  lemma NoDupSuffix<T>(q: seq<T>, k: nat)
    requires NoDup(q) && k <= |q|
    ensures NoDup(q[k..])
  {}

  lemma ToldAll<F>(s: Sched<F>, dead: F)
    requires Telling(s, dead, [])
    ensures Inv(s)
  {
    hide NoDup;
  }

  /** A terminating fiber leaves nobody behind: every fiber that was joining it is ready. */
  lemma TerminateKeeps<F>(s: Sched<F>)
    requires Inv(s) && s.active.Some?
    ensures Inv(Next(s, Terminate))
    ensures forall p :: p in s.info[s.active.value].joiners ==>
              p in Next(s, Terminate).info && Next(s, Terminate).info[p].status == Ready
  {
    hide Telling, SetReady, Release;
    var a := s.active.value;
    var fs := s.info[a].joiners;
    EndedTells(s);
    JoinersWait(s, a);
    ReleaseTells(Ended(s), a, fs, |fs|);
    assert fs[..|fs|] == fs && fs[|fs|..] == [];
    ToldAll(Release(Ended(s), fs), a);
  }

  // ---------- every step, every run ----------

  lemma StepKeeps<F>(s: Sched<F>, a: Action<F>)
    requires Inv(s) && Enabled(s, a)
    ensures Inv(Next(s, a))
  {
    hide InOrder, Joined, NoDup, Park, SetReady, Moved, Resume, Release, JoinLive;
    match a {
      case Spawn(f) => SpawnKeeps(s, f);
      case Turn(now) => TurnKeeps(s, now);
      case WaitUntil(due) =>
        ActiveHasNoTarget(s);
        ParkKeeps(s, s.info[s.active.value].(status := Waiting, due := due));
      case Yield =>
        ActiveHasNoTarget(s);
        ParkKeeps(s, s.info[s.active.value].(status := Ready));
      case Join(f) =>
        if s.info[f].status == Terminated {
          JoinLateKeeps(s);
        } else {
          JoinLiveKeeps(s, f);
        }
      case Wake(f) => WakeKeeps(s, f);
      case Terminate => TerminateKeeps(s);
    }
  }

  lemma TurnKeeps<F>(s: Sched<F>, now: Time)
    requires Inv(s) && s.active.None? && now < FOREVER
    ensures Known(Moved(s, now)) && Inv(Resume(Moved(s, now)))
  {
    hide InOrder, Joined, NoDup, Resume, EntriesOf, DueCount;
    MovedKeeps(s, now);
    MovedEntries(s, now);
    ResumeKeeps(Moved(s, now));
  }

  lemma JoinLateKeeps<F>(s: Sched<F>)
    requires Inv(s) && s.active.Some?
    ensures Inv(JoinLate(s))
  {
    hide InOrder, Joined, NoDup, SetReady, Insert, PushPos;
    var a := s.active.value;
    var i := s.info[a].(status := Waiting);
    ActiveHasNoTarget(s);
    ParkKeeps(s, i);
    InsertMembers(s.wait, PushPos(EntriesOf(s.wait, s.info), EntryOf(i)), a);
    WakeKeeps(Park(s, i), a);
  }
}

/**
 barrier. The critical sections of barrier::wait run under its mutex and are the
 steps here: arriving, and looking again after a notification.
 */
module FiberBarrier {
  import opened FiberOrder
  import opened FiberCondition

  // ---------- the barrier on values ----------

  /** Outside wait(), suspended in it, or notified and about to look again; with the caller's copy of the cycle bit. */
  datatype Place = Outside | Asleep(cycle: bool) | Notified(cycle: bool)

  /** A participant: where it is, how often it has called wait(), and what the calls that returned gave it. */
  datatype Member = Member(place: Place, arrived: nat, results: seq<bool>)

  /** `asleep` is the list of the condition, `leaders[g]` the fiber that completed generation `g`. */
  datatype Barrier<F> = Barrier(
    initial: nat, current: nat, cycle: bool, asleep: seq<F>, members: map<F, Member>, leaders: seq<F>)

  datatype Action<F> = Arrive(f: F) | Look(f: F)

  predicate Enabled<F(==)>(b: Barrier<F>, a: Action<F>) {
    match a
    case Arrive(f) => f in b.members && b.members[f].place.Outside? && b.current > 0
    case Look(f) => f in b.members && b.members[f].place.Notified?
  }

  function Woken(m: Member): Member { if m.place.Asleep? then m.(place := Notified(m.place.cycle)) else m }

  /** notify_all. */
  function WakeAll<F(==)>(members: map<F, Member>, fs: seq<F>): map<F, Member> {
    map f | f in members :: if f in fs then Woken(members[f]) else members[f]
  }

  function Returned(m: Member, r: bool): Member { m.(place := Outside, results := m.results + [r]) }

  function Next<F(==)>(b: Barrier<F>, a: Action<F>): Barrier<F>
    requires Enabled(b, a)
  {
    match a
    case Arrive(f) =>
      var m := b.members[f].(arrived := b.members[f].arrived + 1);
      if b.current == 1 then
        Barrier(b.initial, b.initial, !b.cycle, [], WakeAll(b.members, b.asleep)[f := Returned(m, true)], b.leaders + [f])
      else
        b.(current := b.current - 1, asleep := b.asleep + [f], members := b.members[f := m.(place := Asleep(b.cycle))])
    case Look(f) =>
      var m := b.members[f];
      if m.place.cycle == b.cycle then
        b.(asleep := b.asleep + [f], members := b.members[f := m.(place := Asleep(m.place.cycle))])
      else b.(members := b.members[f := Returned(m, false)])
  }

  function Fresh<F>(participants: set<F>): Barrier<F> {
    Barrier(|participants|, |participants|, true, [], map f | f in participants :: Member(Outside, 0, []), [])
  }

  // ---------- the invariant ----------

  predicate IsEven(n: nat) { n % 2 == 0 }

  /** Where a participant can be when `g` generations are over and the bit is `cycle`. */
  ghost predicate PlaceOk(m: Member, g: nat, cycle: bool) {
    match m.place
    case Outside => m.arrived == g && |m.results| == g
    case Asleep(c) => m.arrived == g + 1 && |m.results| == g && c == cycle
    case Notified(c) => g > 0 && m.arrived == g && |m.results| == g - 1 && c != cycle
  }

  /** A call returned true exactly to the fiber that completed its generation. */
  ghost predicate ResultsOk<F>(m: Member, f: F, leaders: seq<F>) {
    && |m.results| <= |leaders|
    && (forall k :: 0 <= k < |m.results| ==> (m.results[k] <==> leaders[k] == f))
    && (m.place.Notified? && |m.results| < |leaders| ==> leaders[|m.results|] != f)
  }

  ghost predicate MemberOk<F>(m: Member, f: F, b: Barrier<F>) {
    PlaceOk(m, |b.leaders|, b.cycle) && ResultsOk(m, f, b.leaders) && (m.place.Asleep? <==> f in b.asleep)
  }

  ghost predicate Inv<F>(b: Barrier<F>) {
    && b.initial == |b.members.Keys| && 0 < b.current <= b.initial
    && b.cycle == IsEven(|b.leaders|)
    && NoDup(b.asleep) && b.current == b.initial - |b.asleep|
    && (forall f :: f in b.asleep ==> f in b.members)
    && (forall k :: 0 <= k < |b.leaders| ==> b.leaders[k] in b.members)
    && (forall f :: f in b.members ==> MemberOk(b.members[f], f, b))
  }

  lemma EachIsOk<F>(b: Barrier<F>, f: F)
    requires Inv(b) && f in b.members
    ensures MemberOk(b.members[f], f, b) && b.cycle == IsEven(|b.leaders|)
  {
    hide MemberOk, NoDup, IsEven;
  }

  /** The last arrival finds every other participant asleep. */
  lemma LastFindsAllAsleep<F>(b: Barrier<F>, f: F)
    requires Inv(b) && f in b.members && b.members[f].place.Outside? && b.current == 1
    ensures forall g :: g in b.members && g != f ==> g in b.asleep
  {
    var sleepers := set g | g in b.asleep;
    SetOfNoDup(b.asleep);
    assert MemberOk(b.members[f], f, b);
    assert sleepers <= b.members.Keys - {f};
    SameSize(sleepers, b.members.Keys - {f});
    forall g | g in b.members && g != f ensures g in b.asleep {
      assert g in b.members.Keys - {f};
    }
  }

  lemma EvenFlips(n: nat)
    ensures IsEven(n + 1) == !IsEven(n)
  {}

  lemma NoneTwice<T>()
    ensures NoDup<T>([])
  {}

  lemma LastArrivalMember<F>(b: Barrier<F>, f: F, p: F)
    requires f in b.members && b.members[f].place.Outside? && b.current == 1
    requires p in b.members && MemberOk(b.members[p], p, b) && (p != f ==> p in b.asleep)
    ensures var t := Next(b, Arrive(f)); p in t.members && MemberOk(t.members[p], p, t)
  {
    hide IsEven;
  }

  lemma LastArrivalKeeps<F>(b: Barrier<F>, f: F)
    requires Inv(b) && f in b.members && b.members[f].place.Outside? && b.current == 1
    ensures Inv(Next(b, Arrive(f)))
  {
    hide IsEven, NoDup, MemberOk;
    LastFindsAllAsleep(b, f);
    EvenFlips(|b.leaders|);
    NoneTwice<F>();
    var t := Next(b, Arrive(f));
    assert t.members.Keys == b.members.Keys;
    forall p | p in t.members ensures MemberOk(t.members[p], p, t) {
      LastArrivalMember(b, f, p);
    }
  }

  lemma ArrivalKeeps<F>(b: Barrier<F>, f: F)
    requires Inv(b) && f in b.members && b.members[f].place.Outside? && b.current > 1
    ensures Inv(Next(b, Arrive(f)))
  {
    hide IsEven, NoDup;
    var t := Next(b, Arrive(f));
    assert MemberOk(b.members[f], f, b);
    NoDupInsert(b.asleep, |b.asleep|, f);
    assert t.asleep == Insert(b.asleep, |b.asleep|, f);
    assert t.members.Keys == b.members.Keys;
    forall p | p in t.members ensures MemberOk(t.members[p], p, t) {
      assert MemberOk(b.members[p], p, b);
    }
    hide MemberOk;
  }

  /** A notified caller always finds the bit changed: nobody sleeps through a generation. */
  lemma LookKeeps<F>(b: Barrier<F>, f: F)
    requires Inv(b) && f in b.members && b.members[f].place.Notified?
    ensures Inv(Next(b, Look(f))) && Next(b, Look(f)).members[f].place.Outside?
  {
    hide IsEven, NoDup;
    var t := Next(b, Look(f));
    assert MemberOk(b.members[f], f, b);
    assert t.members.Keys == b.members.Keys;
    forall p | p in t.members ensures MemberOk(t.members[p], p, t) {
      assert MemberOk(b.members[p], p, b);
    }
    hide MemberOk;
  }

  lemma StepKeeps<F>(b: Barrier<F>, a: Action<F>)
    requires Inv(b) && Enabled(b, a)
    ensures Inv(Next(b, a))
  {
    hide Inv, Next;
    match a {
      case Arrive(f) =>
        if b.current == 1 {
          LastArrivalKeeps(b, f);
        } else {
          ArrivalKeeps(b, f);
        }
      case Look(f) => LookKeeps(b, f);
    }
  }

  ghost predicate IsRun<F>(participants: set<F>, states: seq<Barrier<F>>, acts: seq<Action<F>>) {
    && |states| == |acts| + 1 && states[0] == Fresh(participants)
    && forall i :: 0 <= i < |acts| ==> Enabled(states[i], acts[i]) && states[i + 1] == Next(states[i], acts[i])
  }

  lemma FreshKeeps<F>(participants: set<F>)
    requires participants != {}
    ensures Inv(Fresh(participants))
  {
    assert Fresh(participants).members.Keys == participants;
  }

  lemma {:induction false} AlwaysInv<F>(participants: set<F>, states: seq<Barrier<F>>, acts: seq<Action<F>>, i: nat)
    requires IsRun(participants, states, acts) && participants != {} && i <= |acts|
    ensures Inv(states[i])
  {
    hide Inv, Next;
    if i == 0 {
      FreshKeeps(participants);
    } else {
      AlwaysInv(participants, states, acts, i - 1);
      assert Enabled(states[i - 1], acts[i - 1]) && states[i - 1 + 1] == Next(states[i - 1], acts[i - 1]);
      StepKeeps(states[i - 1], acts[i - 1]);
    }
  }

  /**
   The one bit of the barrier stands for an unbounded count of generations: a caller's copy equals
   it exactly when the generation the caller arrived in is the current one.
   */
  lemma BitIsGeneration<F>(b: Barrier<F>, f: F)
    requires Inv(b) && f in b.members && !b.members[f].place.Outside?
    ensures b.members[f].place.cycle == b.cycle <==> b.members[f].arrived == |b.leaders| + 1
    ensures b.members[f].place.cycle == IsEven(b.members[f].arrived - 1)
  {
    hide Inv, IsEven;
    EachIsOk(b, f);
    EvenFlips(|b.leaders|);
    if |b.leaders| > 0 {
      EvenFlips(|b.leaders| - 1);
    }
  }

  /**
   Along every run with exactly the given participants: no call of generation k returns before
   every participant has made its call of generation k, participants are never more than one
   generation apart, and of the calls of one completed generation exactly one returns true: that of
   its leader, which has returned, and no other.
   */
  lemma BarrierSafe<F>(participants: set<F>, states: seq<Barrier<F>>, acts: seq<Action<F>>, i: nat, p: F, q: F)
    requires IsRun(participants, states, acts) && participants != {} && i <= |acts|
    requires p in states[i].members && q in states[i].members
    ensures var b := states[i];
            var m, n := b.members[p], b.members[q];
            && |m.results| <= n.arrived && m.arrived <= n.arrived + 1 && |m.results| <= |b.leaders|
            && (forall k :: 0 <= k < |m.results| ==> (m.results[k] <==> b.leaders[k] == p))
            && (forall k :: 0 <= k < |b.leaders| ==> LeaderGotTrue(b, k))
  {
    hide Inv, MemberOk, LeaderGotTrue;
    AlwaysInv(participants, states, acts, i);
    var b := states[i];
    GenerationsApart(b, p, q);
    forall k | 0 <= k < |b.leaders| ensures LeaderGotTrue(b, k) {
      LeaderIsTold(b, k);
    }
  }

  lemma GenerationsApart<F>(b: Barrier<F>, p: F, q: F)
    requires Inv(b) && p in b.members && q in b.members
    ensures var m, n := b.members[p], b.members[q];
            && |m.results| <= n.arrived && m.arrived <= n.arrived + 1 && |m.results| <= |b.leaders|
            && forall k :: 0 <= k < |m.results| ==> (m.results[k] <==> b.leaders[k] == p)
  {
    hide Inv, IsEven;
    EachIsOk(b, p);
    EachIsOk(b, q);
  }

  /** The participant that completed generation `k` is back from its call, with true. */
  ghost predicate LeaderGotTrue<F>(b: Barrier<F>, k: nat)
    requires k < |b.leaders|
  {
    var f := b.leaders[k];
    f in b.members && k < |b.members[f].results| && b.members[f].results[k]
  }

  lemma LeaderIsTold<F>(b: Barrier<F>, k: nat)
    requires Inv(b) && k < |b.leaders|
    ensures LeaderGotTrue(b, k)
  {
    hide Inv, IsEven;
    LeadersTakePart(b, k);
    var f := b.leaders[k];
    EachIsOk(b, f);
    var m := b.members[f];
    assert PlaceOk(m, |b.leaders|, b.cycle) && ResultsOk(m, f, b.leaders);
    assert k != |m.results|;
    assert m.results[k];
  }

  lemma LeadersTakePart<F>(b: Barrier<F>, k: nat)
    requires Inv(b) && k < |b.leaders|
    ensures b.leaders[k] in b.members
  {
    hide MemberOk, NoDup, IsEven;
  }

  // ---------- the source's object ----------

  class SharedBarrier<F(==)> {
    const initial: nat
    var current: nat
    var cycle: bool
    const cond: Condition<F>
    ghost var members: map<F, Member>
    ghost var leaders: seq<F>

    ghost function View(): Barrier<F>
      reads this, cond
    {
      Barrier(initial, current, cycle, cond.waiting, members, leaders)
    }

    /** The source throws for a count of zero. */
    constructor (ghost participants: set<F>, count: nat)
      requires count > 0 && count == |participants|
      ensures View() == Fresh(participants) && Inv(View()) && fresh(cond)
    {
      initial, current, cycle := count, count, true;
      cond := new Condition<F>();
      members := map f | f in participants :: Member(Outside, 0, []);
      leaders := [];
      new;
      FreshKeeps(participants);
    }

    /** wait(), up to its return or its suspension; `done` tells whether it returned, which it does with true. */
    method Arrive(f: F) returns (done: bool)
      requires Inv(View()) && Enabled(View(), Action.Arrive(f))
      modifies this, cond
      ensures Inv(View()) && View() == Next(old(View()), Action.Arrive(f))
      ensures done <==> members[f].place.Outside?
    {
      hide Inv;
      ghost var b, m := View(), members[f].(arrived := members[f].arrived + 1);
      StepKeeps(b, Action.Arrive(f));
      NotListed(b, f);
      var mine := cycle;
      current := current - 1;
      if current == 0 {
        cycle := !cycle;
        current := initial;
        var woken := cond.NotifyAll();
        members := WakeAll(members, woken)[f := Returned(m, true)];
        leaders := leaders + [f];
        done := true;
      } else {
        cond.Enlist(f);
        members := members[f := m.(place := Asleep(mine))];
        done := false;
      }
    }

    /**
     The loop of wait() after a notification, `mine` being the caller's copy of the bit: `done` tells
     whether wait() returned, which it does with false. It always has after a notification.
     */
    method Look(f: F, mine: bool) returns (done: bool)
      requires f in members && members[f].place == Notified(mine) && f !in cond.waiting
      modifies this, cond
      ensures View() == Next(old(View()), Action.Look(f))
      ensures old(Inv(View())) ==> Inv(View()) && done
    {
      hide Inv;
      ghost var b := View();
      if mine == cycle {
        cond.Enlist(f);
        members := members[f := members[f].(place := Asleep(mine))];
        done := false;
      } else {
        members := members[f := Returned(members[f], false)];
        done := true;
      }
      if Inv(b) {
        LookKeeps(b, f);
      }
    }
  }

  lemma NotListed<F>(b: Barrier<F>, f: F)
    requires Inv(b) && f in b.members && !b.members[f].place.Asleep?
    ensures f !in b.asleep
  {
    assert MemberOk(b.members[f], f, b);
    hide NoDup, IsEven;
  }
}

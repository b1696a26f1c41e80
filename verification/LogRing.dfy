/**
 The ring of log records: callers start and end records under ever growing ids, and a sender
 chases them around the ring, giving up records when it has fallen behind by half of it.
 */
module LogRing {

  const MAX_LOG_NUM: nat := 1000000

  /** LogData: id 0 marks a free slot. */
  datatype Slot = Slot(id: nat, waitSend: bool)

  const FREE := Slot(0, false)

  /**
   `handed` are the ids ever handed out and `open` those of them not yet ended; `sent` and
   `dropped` are the ids of the records sent and of the ended records given up, in order.
   */
  datatype Ring = Ring(
    slots: seq<Slot>, last: nat, nextSend: nat, handed: set<nat>, open: set<nat>, sent: seq<nat>, dropped: seq<nat>)

  function Empty(): Ring { Ring(seq(MAX_LOG_NUM, i => FREE), 0, 1, {}, {}, [], []) }

  function At(id: nat): (k: nat)
    ensures k < MAX_LOG_NUM
  {
    id % MAX_LOG_NUM
  }

  datatype Action = Start | End(id: nat) | Send

  predicate Sized(r: Ring) { |r.slots| == MAX_LOG_NUM }

  predicate Enabled(r: Ring, a: Action)
    requires Sized(r)
  {
    match a
    case Start => true
    case End(id) => id in r.open
    case Send => r.slots[At(r.nextSend)].waitSend
  }

  /** The lag the sender computes in 64-bit arithmetic. */
  function Lag(r: Ring): int { r.last - r.nextSend }

  function Next(r: Ring, a: Action): (t: Ring)
    requires Sized(r) && Enabled(r, a)
    ensures Sized(t)
  {
    match a
    case Start =>
      var id := r.last + 1;
      var s := r.slots[At(id)];
      if s.waitSend || s.id != 0 then r.(last := id)
      else r.(last := id, slots := r.slots[At(id) := s.(id := id)], handed := r.handed + {id}, open := r.open + {id})
    case End(id) => r.(slots := r.slots[At(id) := r.slots[At(id)].(waitSend := true)], open := r.open - {id})
    case Send =>
      var k := At(r.nextSend);
      var t := r.(slots := r.slots[k := FREE], nextSend := r.nextSend + 1);
      if Lag(r) < MAX_LOG_NUM / 2 then t.(sent := t.sent + [r.slots[k].id])
      else t.(dropped := t.dropped + [r.slots[k].id])
  }

  // ---------- the invariant ----------

  /** An occupied slot holds an id of its own residue that the sender has not passed. */
  ghost predicate SlotOk(s: Slot, k: nat, nextSend: nat, last: nat) {
    if s.id == 0 then !s.waitSend else At(s.id) == k && nextSend <= s.id <= last
  }

  ghost predicate Increasing(q: seq<nat>) { forall i, j :: 0 <= i < j < |q| ==> q[i] < q[j] }

  ghost predicate Inv(r: Ring) {
    && Sized(r) && 0 < r.nextSend <= r.last + 1
    && (forall k {:trigger r.slots[k]} :: 0 <= k < MAX_LOG_NUM ==> SlotOk(r.slots[k], k, r.nextSend, r.last))
    && (forall id :: id in r.open ==> id > 0 && r.slots[At(id)] == Slot(id, false))
    && Increasing(r.sent) && (forall i :: 0 <= i < |r.sent| ==> r.sent[i] < r.nextSend)
    && (forall id :: id in r.handed ==> id <= r.last && Accounted(r, id))
    && (forall k {:trigger r.slots[k]} :: 0 <= k < MAX_LOG_NUM ==> IsCurrent(r, r.slots[k]))
    && (forall i :: 0 <= i < |r.dropped| ==> r.dropped[i] in r.handed)
  }

  /** A slot in use holds a record that was handed out and has not been given up. */
  ghost predicate IsCurrent(r: Ring, s: Slot) { s.id != 0 ==> s.id in r.handed && s.id !in r.dropped }

  /** A record that was started is open, waits in its slot, was sent or was given up. */
  ghost predicate Accounted(r: Ring, id: nat)
    requires Sized(r)
  {
    id in r.open || r.slots[At(id)] == Slot(id, true) || id in r.sent || id in r.dropped
  }

  lemma StartKeeps(r: Ring)
    requires Inv(r)
    ensures Inv(Next(r, Start))
  {
    var id, t := r.last + 1, Next(r, Start);
    assert SlotOk(r.slots[At(id)], At(id), r.nextSend, r.last);
    hide At;
    forall x | x in t.handed ensures Accounted(t, x) {
      assert x in r.handed ==> Accounted(r, x);
    }
  }

  lemma EndKeeps(r: Ring, id: nat)
    requires Inv(r) && id in r.open
    ensures Inv(Next(r, End(id)))
  {
    hide At;
    var t := Next(r, End(id));
    forall x | x in r.open && x != id ensures At(x) != At(id) {
      assert r.slots[At(x)].id == x && r.slots[At(id)].id == id;
    }
    forall x | x in t.handed ensures Accounted(t, x) {
      assert Accounted(r, x);
    }
  }

  /** What the sender finds in a slot that waits: a record not older than the one it is at, so the lag is never negative. */
  lemma WaitingSlot(r: Ring)
    requires Inv(r) && r.slots[At(r.nextSend)].waitSend
    ensures var s := r.slots[At(r.nextSend)];
            && r.nextSend <= s.id <= r.last && At(s.id) == At(r.nextSend) && Lag(r) >= 0
            && (Lag(r) < MAX_LOG_NUM ==> s.id == r.nextSend)
  {
    var s := r.slots[At(r.nextSend)];
    assert SlotOk(s, At(r.nextSend), r.nextSend, r.last);
    hide At;
    if Lag(r) < MAX_LOG_NUM {
      SameResidue(r.nextSend, s.id);
    }
  }

  lemma SameResidue(a: nat, b: nat)
    requires a <= b < a + MAX_LOG_NUM && At(a) == At(b)
    ensures a == b
  {}

  lemma LastIn(q: seq<nat>, x: nat)
    ensures x in q + [x] && forall y :: y in q ==> y in q + [x]
  {
    assert (q + [x])[|q|] == x;
  }

  lemma SendKeeps(r: Ring)
    requires Inv(r) && r.slots[At(r.nextSend)].waitSend
    ensures Inv(Next(r, Send))
  {
    WaitingSlot(r);
    var k, t := At(r.nextSend), Next(r, Send);
    hide At;
    LastIn(r.sent, r.slots[k].id);
    LastIn(r.dropped, r.slots[k].id);
    forall x | x in t.handed ensures Accounted(t, x) {
      assert Accounted(r, x);
    }
  }

  lemma StepKeeps(r: Ring, a: Action)
    requires Inv(r) && Enabled(r, a)
    ensures Inv(Next(r, a))
  {
    hide Inv, Next, At;
    match a {
      case Start => StartKeeps(r);
      case End(id) => EndKeeps(r, id);
      case Send => SendKeeps(r);
    }
  }

  ghost predicate IsRun(states: seq<Ring>, acts: seq<Action>) {
    && |states| == |acts| + 1 && states[0] == Empty()
    && forall i :: 0 <= i < |acts| ==>
          Sized(states[i]) && Enabled(states[i], acts[i]) && states[i + 1] == Next(states[i], acts[i])
  }

  lemma EmptyKeeps()
    ensures Inv(Empty())
  {
    hide At;
  }

  lemma {:induction false} AlwaysInv(states: seq<Ring>, acts: seq<Action>, i: nat)
    requires IsRun(states, acts) && i <= |acts|
    ensures Inv(states[i])
  {
    hide Inv, Next, At, Empty;
    if i == 0 {
      EmptyKeeps();
    } else {
      AlwaysInv(states, acts, i - 1);
      assert Enabled(states[i - 1], acts[i - 1]) && states[i - 1 + 1] == Next(states[i - 1], acts[i - 1]);
      StepKeeps(states[i - 1], acts[i - 1]);
    }
  }

  /**
   In every run: the sender's lag never goes below zero; a record is sent only when its id is the
   one the sender is at, so ids are sent in increasing order; and a slot in use, open or waiting,
   changes its record only when the sender takes it.
   */
  lemma RingSafe(states: seq<Ring>, acts: seq<Action>, i: nat, k: nat)
    requires IsRun(states, acts) && i < |acts| && k < MAX_LOG_NUM
    ensures Inv(states[i]) && Sized(states[i + 1])
    ensures acts[i].Send? ==> Lag(states[i]) >= 0
    ensures acts[i].Send? && states[i + 1].sent != states[i].sent ==>
              states[i + 1].sent == states[i].sent + [states[i].nextSend]
    ensures states[i].slots[k].id != 0 && !(acts[i].Send? && k == At(states[i].nextSend)) ==>
              states[i + 1].slots[k].id == states[i].slots[k].id
  {
    hide At, Empty;
    AlwaysInv(states, acts, i);
    var r := states[i];
    if acts[i].Send? {
      WaitingSlot(r);
    }
  }

  // ---------- when the sender stands ----------

  /**
   Where the sender is in every reachable state. It has passed every id, or it is at one whose
   record is open, or waits to be taken, or it is at an id without a record: one that was refused
   because its slot was in use, or one whose record was given up a lap earlier. There it stands
   until a record of a later lap has been ended in the same slot; that one is then given up.
   */
  lemma SenderStands(states: seq<Ring>, acts: seq<Action>, i: nat)
    requires IsRun(states, acts) && i <= |acts|
    ensures var r := states[i];
            && Sized(r)
            && var m, s := r.nextSend, r.slots[At(r.nextSend)];
            && m <= r.last + 1 && (m > r.last ==> s == FREE)
            && (m in r.open ==> s == Slot(m, false))
            && (m in r.handed && m !in r.open && m !in r.dropped ==> s == Slot(m, true))
            && (m <= r.last && (m !in r.handed || m in r.dropped) ==> s == FREE || s.id >= m + MAX_LOG_NUM)
    ensures var r := states[i];
            && Sized(r)
            && (Enabled(r, Send) && (r.nextSend !in r.handed || r.nextSend in r.dropped) ==>
                  Next(r, Send).dropped == r.dropped + [r.slots[At(r.nextSend)].id] && Next(r, Send).sent == r.sent)
  {
    hide Empty, Inv, At;
    AlwaysInv(states, acts, i);
    Standing(states[i]);
  }

  lemma Standing(r: Ring)
    requires Inv(r)
    ensures Sized(r)
    ensures var m, s := r.nextSend, r.slots[At(r.nextSend)];
            && m <= r.last + 1 && (m > r.last ==> s == FREE)
            && (m in r.open ==> s == Slot(m, false))
            && (m in r.handed && m !in r.open && m !in r.dropped ==> s == Slot(m, true))
            && (m !in r.handed || m in r.dropped ==> s == FREE || (s.id >= m + MAX_LOG_NUM && Lag(r) >= MAX_LOG_NUM))
  {
    var m, k := r.nextSend, At(r.nextSend);
    hide At;
    var s := r.slots[k];
    assert SlotOk(s, k, m, r.last) && IsCurrent(r, s);
    assert m in r.handed ==> Accounted(r, m);
    assert m !in r.sent;
    if s.id != 0 && s.id < m + MAX_LOG_NUM {
      SameResidue(m, s.id);
    }
  }

  // ---------- the source's object ----------

  const MAX_LOG_SEND_NUM: nat := 1000

  /** The ring after `n` records have been taken by the sender. */
  ghost predicate Takes(r: Ring, n: nat, t: Ring)
    requires Sized(r)
    decreases n
  {
    if n == 0 then t == r else Enabled(r, Send) && Takes(Next(r, Send), n - 1, t)
  }

  lemma {:induction false} TakesMore(r: Ring, n: nat, t: Ring)
    requires Sized(r) && Sized(t) && Takes(r, n, t) && Enabled(t, Send)
    ensures Takes(r, n + 1, Next(t, Send))
    decreases n
  {
    hide At, Next;
    if n > 0 {
      TakesMore(Next(r, Send), n - 1, t);
    }
  }

  lemma SendIs(r: Ring)
    requires Sized(r) && Enabled(r, Send)
    ensures var k := At(r.nextSend);
            var t := r.(slots := r.slots[k := FREE], nextSend := r.nextSend + 1);
            Next(r, Send) == if Lag(r) < MAX_LOG_NUM / 2 then t.(sent := t.sent + [r.slots[k].id])
                             else t.(dropped := t.dropped + [r.slots[k].id])
  {
    hide At;
  }

  class LogBuffer {
    const slots: array<Slot>
    var last: nat
    var nextSend: nat
    ghost var handed: set<nat>
    ghost var open: set<nat>
    ghost var sent: seq<nat>
    ghost var dropped: seq<nat>

    ghost function View(): Ring
      reads this, slots
    {
      Ring(slots[..], last, nextSend, handed, open, sent, dropped)
    }

    ghost predicate Valid()
      reads this, slots
    {
      slots.Length == MAX_LOG_NUM && Inv(View())
    }

    constructor ()
      ensures Valid() && View() == Empty() && fresh(slots)
    {
      slots := new Slot[MAX_LOG_NUM](_ => FREE);
      last, nextSend, handed, open, sent, dropped := 0, 1, {}, {}, [], [];
      new;
      EmptyKeeps();
      assert slots[..] == Empty().slots;
    }

    /** startServiceCall: 0 when the slot is still in use. */
    method StartCall() returns (id: nat)
      requires Valid()
      modifies this, slots
      ensures Valid() && View() == Next(old(View()), Start)
      ensures id != 0 ==> id == last && id in open
    {
      hide Inv, At;
      StartKeeps(View());
      last := last + 1;
      var k := At(last);
      var s := slots[k];
      if s.waitSend || s.id != 0 {
        return 0;
      }
      slots[k] := s.(id := last);
      handed := handed + {last};
      open := open + {last};
      id := last;
    }

    /** endServiceCall. */
    method EndCall(id: nat)
      requires Valid() && (id == 0 || id in open)
      modifies this, slots
      ensures Valid()
      ensures id == 0 ==> View() == old(View())
      ensures id != 0 ==> View() == Next(old(View()), End(id))
    {
      hide Inv, At;
      if id == 0 {
        return;
      }
      EndKeeps(View(), id);
      slots[At(id)] := slots[At(id)].(waitSend := true);
      open := open - {id};
    }

    /** The slot-consuming loop of sendLogToDB: takes waiting records and sends the ids of the batch, at most a thousand. */
    method SendBatch() returns (batch: seq<nat>, ghost n: nat)
      requires Valid()
      modifies this, slots
      ensures Valid() && Takes(old(View()), n, View())
      ensures sent == old(sent) + batch && |batch| <= MAX_LOG_SEND_NUM
      ensures |batch| == MAX_LOG_SEND_NUM || !slots[At(nextSend)].waitSend
    {
      hide Inv, At, Next;
      ghost var r := View();
      batch, n := [], 0;
      while slots[At(nextSend)].waitSend && |batch| < MAX_LOG_SEND_NUM
        invariant Valid() && Takes(r, n, View())
        invariant sent == r.sent + batch && |batch| <= MAX_LOG_SEND_NUM
        decreases last + 1 - nextSend
      {
        ghost var t := View();
        WaitingSlot(t);
        SendKeeps(t);
        TakesMore(r, n, t);
        SendIs(t);
        var k := At(nextSend);
        var id := slots[k].id;
        if last - nextSend < MAX_LOG_NUM / 2 {
          batch := batch + [id];
          sent := sent + [id];
        } else {
          dropped := dropped + [id];
        }
        slots[k] := FREE;
        nextSend := nextSend + 1;
        n := n + 1;
      }
    }
  }
}

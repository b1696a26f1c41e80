/** The order of the waiting queue, on values: ready entries first, then the others by deadline. */
module FiberOrder {

  datatype Status = Ready | Running | Waiting | Terminated

  const FOREVER: int := 0x7FFF_FFFF_FFFF_FFFF

  type Time = t: int | t <= FOREVER

  /** What the queue looks at in a fiber. */
  datatype Entry = Entry(ready: bool, due: Time)

  predicate Ordered(q: seq<Entry>) {
    forall i, j :: 0 <= i < j < |q| ==> (q[j].ready ==> q[i].ready) && (!q[i].ready ==> q[i].due <= q[j].due)
  }

  /** The first position from `k` on that holds an unready entry due no earlier than `due`. */
  function FirstLater(q: seq<Entry>, due: Time, k: nat): (r: nat)
    requires k <= |q|
    ensures k <= r <= |q|
    decreases |q| - k
  {
    if k < |q| && (q[k].ready || q[k].due < due) then FirstLater(q, due, k + 1) else k
  }

  /** Where `push` puts an entry. */
  function PushPos(q: seq<Entry>, x: Entry): (r: nat)
    ensures r <= |q|
  {
    if x.ready then 0 else if x.due == FOREVER then |q| else FirstLater(q, x.due, 0)
  }

  function Insert<T>(q: seq<T>, k: nat, x: T): seq<T>
    requires k <= |q|
  {
    q[..k] + [x] + q[k..]
  }

  /** `set_ready` on the entry at `k`: it becomes ready and moves to the front. */
  function ToFront<T>(q: seq<T>, k: nat, x: T): seq<T>
    requires k < |q|
  {
    [x] + (q[..k] + q[k + 1..])
  }

  predicate IsDue(x: Entry, now: Time) { x.ready || x.due <= now }

  /** How many entries the scan of `move_to` takes before it stops. */
  function DueCount(q: seq<Entry>, now: Time): (n: nat)
    ensures n <= |q|
    ensures forall i :: 0 <= i < n ==> IsDue(q[i], now)
    ensures n < |q| ==> !IsDue(q[n], now)
  {
    if q == [] || !IsDue(q[0], now) then 0 else 1 + DueCount(q[1..], now)
  }

  // ---------- the order is kept ----------

  lemma {:induction false} FirstLaterSplits(q: seq<Entry>, due: Time, k: nat)
    requires Ordered(q) && k <= |q|
    requires forall i :: 0 <= i < k ==> q[i].ready || q[i].due <= due
    ensures forall i :: 0 <= i < FirstLater(q, due, k) ==> q[i].ready || q[i].due <= due
    ensures forall i :: FirstLater(q, due, k) <= i < |q| ==> !q[i].ready && due <= q[i].due
    decreases |q| - k
  {
    if k < |q| && (q[k].ready || q[k].due < due) {
      FirstLaterSplits(q, due, k + 1);
    }
  }

  /** `push` keeps the order. */
  lemma PushKeepsOrder(q: seq<Entry>, x: Entry)
    requires Ordered(q)
    ensures Ordered(Insert(q, PushPos(q, x), x))
  {
    if !x.ready && x.due != FOREVER {
      FirstLaterSplits(q, x.due, 0);
    }
  }

  /** `set_ready` on any fiber of the queue keeps the order. */
  lemma WakeKeepsOrder(q: seq<Entry>, k: nat, x: Entry)
    requires Ordered(q) && k < |q| && x.ready
    ensures Ordered(ToFront(q, k, x))
  {}

  /**
   Stopping at the first entry that is neither ready nor due loses nothing: in an ordered queue
   the scan takes exactly the entries that a scan of the whole queue would take.
   */
  lemma EarlyExitIsFullScan(q: seq<Entry>, now: Time)
    requires Ordered(q)
    ensures forall i :: 0 <= i < |q| ==> (IsDue(q[i], now) <==> i < DueCount(q, now))
    ensures Ordered(q[DueCount(q, now)..])
  {
    var n := DueCount(q, now);
    forall i | n < i < |q| ensures !IsDue(q[i], now) {
      assert !q[n].ready && q[n].due <= q[i].due;
    }
  }

  /** In an ordered queue with nothing ready, the first entry has the earliest deadline. */
  lemma TopIsEarliest(q: seq<Entry>)
    requires Ordered(q) && q != [] && !q[0].ready
    ensures forall i :: 0 <= i < |q| ==> !q[i].ready && q[0].due <= q[i].due
  {}

  /** Without the order the early exit is wrong: a fiber whose deadline has passed is left behind. */
  lemma OrderIsNeeded()
    ensures var q := [Entry(false, 9), Entry(false, 1)]; DueCount(q, 5) == 0 && IsDue(q[1], 5)
  {}

  // ---------- sequences without repetition ----------

  ghost predicate NoDup<T>(items: seq<T>) { forall i, j :: 0 <= i < j < |items| ==> items[i] != items[j] }

  /** No other position holds what position `k` holds. */
  lemma Apart<T>(items: seq<T>, k: nat)
    requires NoDup(items) && k < |items|
    ensures forall i :: 0 <= i < |items| && i != k ==> items[i] != items[k]
  {}

  lemma OneIsNoDup<T>(x: T)
    ensures NoDup([x])
  {}

  lemma NoDupInsert<T>(items: seq<T>, k: nat, x: T)
    requires NoDup(items) && k <= |items| && x !in items
    ensures NoDup(Insert(items, k, x))
  {}

  lemma NoDupRemove<T>(items: seq<T>, k: nat)
    requires NoDup(items) && k < |items|
    ensures NoDup(items[..k] + items[k + 1..]) && items[k] !in items[..k] + items[k + 1..]
  {}

  lemma InsertMembers<T>(q: seq<T>, k: nat, x: T)
    requires k <= |q|
    ensures forall y :: y in q ==> y in Insert(q, k, x)
    ensures forall y :: y in Insert(q, k, x) ==> y in q || y == x
    ensures x in Insert(q, k, x)
  {
    assert Insert(q, k, x)[k] == x;
    assert q == q[..k] + q[k..];
  }

  lemma FrontMembers<T>(q: seq<T>, k: nat)
    requires k < |q|
    ensures forall y :: y in q ==> y in ToFront(q, k, q[k])
    ensures forall y :: y in ToFront(q, k, q[k]) ==> y in q
  {
    assert ToFront(q, k, q[k])[0] == q[k];
    assert q == q[..k] + [q[k]] + q[k + 1..];
  }

  lemma FrontIsInsert<T>(items: seq<T>, k: nat, x: T)
    requires k < |items|
    ensures ToFront(items, k, x) == Insert(items[..k] + items[k + 1..], 0, x)
  {}

  lemma FrontOfItself<T>(items: seq<T>)
    requires items != []
    ensures ToFront(items, 0, items[0]) == items
  {}

  lemma InsertFirst<T>(x: T)
    ensures Insert([], 0, x) == [x]
  {}

  ghost function IndexOf<T>(items: seq<T>, x: T): (k: nat)
    requires x in items
    ensures k < |items| && items[k] == x
  {
    var k: nat :| k < |items| && items[k] == x; k
  }

  lemma {:induction false} SetOfNoDup<T>(q: seq<T>)
    requires NoDup(q)
    ensures |set x | x in q| == |q|
  {
    if q != [] {
      var c, x := q[..|q| - 1], q[|q| - 1];
      SetOfNoDup(c);
      assert (set y | y in q) == (set y | y in c) + {x};
    }
  }

  lemma SameSize<T>(a: set<T>, b: set<T>)
    requires a <= b && |a| == |b|
    ensures a == b
  {
    if x :| x in b && x !in a {
      assert a <= b - {x};
      SubsetSize(a, b - {x});
    }
  }

  lemma {:induction false} SubsetSize<T>(a: set<T>, b: set<T>)
    requires a <= b
    ensures |a| <= |b|
  {
    if a != {} {
      var x :| x in a;
      SubsetSize(a - {x}, b - {x});
    }
  }
}

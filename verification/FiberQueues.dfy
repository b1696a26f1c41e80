/**
 The two intrusive lists of the fiber scheduler. A fiber carries the links of the one list it
 is in; the waiting queue keeps the ready fibers in front and the others by deadline.
 */
module FiberQueues {
  import opened FiberOrder

  class Fiber {
    var prev: Fiber?
    var next: Fiber?
    var due: Time
    var status: Status
    /** The waiting queue whose ends the fiber may update. */
    var home: WaitingQueue?
    /** The fibers that wait for this one to terminate. */
    var joiners: seq<Fiber>
    /** The fiber that this one waits for. */
    ghost var target: Fiber?

    constructor ()
      ensures prev == null && next == null && due == FOREVER && status == Ready && home == null && joiners == []
                && target == null
    {
      prev, next, due, status, home, joiners, target := null, null, FOREVER, Ready, null, [], null;
    }

    function Seen(): Entry
      reads this`status, this`due
    {
      Entry(status == Ready, due)
    }
  }

  ghost function At(items: seq<Fiber>, i: int): Fiber? { if 0 <= i < |items| then items[i] else null }

  /** A doubly linked list from `head` to `tail` through exactly these fibers. */
  ghost predicate Linked(items: seq<Fiber>, head: Fiber?, tail: Fiber?)
    reads items`prev, items`next
  {
    && head == At(items, 0) && tail == At(items, |items| - 1)
    && (forall i {:trigger items[i].prev} {:trigger items[i].next} :: 0 <= i < |items| ==>
          items[i].prev == At(items, i - 1) && items[i].next == At(items, i + 1))
    && NoDup(items)
  }

  /** The links of these fibers, as values. */
  ghost function Links(items: seq<Fiber>): (r: seq<(Fiber?, Fiber?)>)
    reads items`prev, items`next
    ensures |r| == |items| && forall i :: 0 <= i < |items| ==> r[i] == (items[i].prev, items[i].next)
  {
    CollectLinks(items)
  }

  ghost function CollectLinks(items: seq<Fiber>): (r: seq<(Fiber?, Fiber?)>)
    reads items`prev, items`next
    ensures |r| == |items| && forall i :: 0 <= i < |items| ==> r[i] == (items[i].prev, items[i].next)
  {
    if items == [] then []
    else
      var f := items[|items| - 1];
      CollectLinks(items[..|items| - 1]) + [(f.prev, f.next)]
  }

  ghost predicate WellLinked(items: seq<Fiber>, links: seq<(Fiber?, Fiber?)>, head: Fiber?, tail: Fiber?) {
    && head == At(items, 0) && tail == At(items, |items| - 1)
    && |links| == |items| && (forall i :: 0 <= i < |items| ==> links[i] == (At(items, i - 1), At(items, i + 1)))
    && NoDup(items)
  }

  /** A list depends on its links alone. */
  lemma ByLinks(items: seq<Fiber>, head: Fiber?, tail: Fiber?)
    ensures Linked(items, head, tail) <==> WellLinked(items, Links(items), head, tail)
  {
    hide NoDup, At, Links;
    if WellLinked(items, Links(items), head, tail) {
      forall i | 0 <= i < |items| ensures items[i].prev == At(items, i - 1) && items[i].next == At(items, i + 1) {
        assert Links(items)[i] == (items[i].prev, items[i].next);
      }
    }
  }

  function Entries(items: seq<Fiber>): (r: seq<Entry>)
    reads items`status, items`due
    ensures |r| == |items| && forall i :: 0 <= i < |items| ==> r[i] == items[i].Seen()
  {
    CollectEntries(items)
  }

  function CollectEntries(items: seq<Fiber>): (r: seq<Entry>)
    reads items`status, items`due
    ensures |r| == |items| && forall i :: 0 <= i < |items| ==> r[i] == items[i].Seen()
  {
    if items == [] then [] else CollectEntries(items[..|items| - 1]) + [items[|items| - 1].Seen()]
  }

  /** The links of a list in which `item` has been spliced in front of position `k`. */
  lemma Spliced(items: seq<Fiber>, k: nat, item: Fiber)
    requires k < |items|
    requires forall i {:trigger items[i].prev} {:trigger items[i].next} :: 0 <= i < |items| ==>
               && items[i].prev == (if i == k then item else At(items, i - 1))
               && items[i].next == (if i == k - 1 then item else At(items, i + 1))
    requires item.prev == At(items, k - 1) && item.next == items[k]
    ensures var r := Insert(items, k, item);
            forall i {:trigger r[i].prev} {:trigger r[i].next} :: 0 <= i < |r| ==>
                r[i].prev == At(r, i - 1) && r[i].next == At(r, i + 1)
  {
    var r := Insert(items, k, item);
    forall i | 0 <= i < |r| ensures r[i].prev == At(r, i - 1) && r[i].next == At(r, i + 1) {
      if i < k {
        assert r[i] == items[i];
      } else if i > k {
        assert r[i] == items[i - 1];
      }
    }
  }

  /** The links of a list in which position `k` has been bypassed. */
  lemma Bypassed(items: seq<Fiber>, k: nat)
    requires k < |items|
    requires forall i {:trigger items[i].prev} {:trigger items[i].next} :: 0 <= i < |items| && i != k ==>
               && items[i].prev == (if i == k + 1 then At(items, k - 1) else At(items, i - 1))
               && items[i].next == (if i == k - 1 then At(items, k + 1) else At(items, i + 1))
    ensures var r := items[..k] + items[k + 1..];
            forall i {:trigger r[i].prev} {:trigger r[i].next} :: 0 <= i < |r| ==>
                r[i].prev == At(r, i - 1) && r[i].next == At(r, i + 1)
  {
    var r := items[..k] + items[k + 1..];
    forall i | 0 <= i < |r| ensures r[i].prev == At(r, i - 1) && r[i].next == At(r, i + 1) {
      if i < k {
        assert r[i] == items[i];
      } else {
        assert r[i] == items[i + 1];
      }
    }
  }

  // ---------- the run queue ----------

  class Fifo {
    var head: Fiber?
    var tail: Fiber?
    ghost var items: seq<Fiber>

    ghost predicate Valid()
      reads this, items`prev, items`next
    {
      Linked(items, head, tail)
    }

    constructor ()
      ensures Valid() && items == []
    {
      head, tail, items := null, null, [];
    }

    method Push(item: Fiber)
      requires Valid() && item.prev == null && item.next == null && (item.status == Ready || item.status == Running)
      modifies this, items`prev, items`next, item`prev
      ensures Valid()
      ensures items == if item in old(items) then old(items) else old(items) + [item]
    {
      hide NoDup;
      if head == null {
        head, tail := item, item;
        items := [item];
        OneIsNoDup(item);
      } else if head == item {
        return;
      } else {
        ghost var last := |items| - 1;
        assert item !in items;
        Apart(items, last);
        NoDupInsert(items, |items|, item);
        tail.next := item;
        item.prev := tail;
        tail := item;
        items := Insert(items, |items|, item);
      }
    }

    lemma HeadIs()
      requires Valid()
      ensures head == At(items, 0) && (items == [] <==> head == null)
    {
      hide NoDup;
    }

    method Pop() returns (item: Fiber)
      requires Valid() && items != []
      modifies this, items`prev, items`next
      ensures Valid()
      ensures old(items) == [item] + items && item !in items
      ensures item.prev == null && item.next == null
    {
      hide NoDup;
      NoDupRemove(items, 0);
      Apart(items, 0);
      if |items| > 1 {
        Apart(items, 1);
      }
      item := head;
      head := head.next;
      if head == null {
        tail := null;
      } else {
        head.prev := null;
      }
      item.next := null;
      item.prev := null;
      Bypassed(items, 0);
      items := items[..0] + items[1..];
    }
  }

  // ---------- the waiting queue ----------

  class WaitingQueue {
    var head: Fiber?
    var tail: Fiber?
    ghost var items: seq<Fiber>

    ghost predicate Valid()
      reads this, items`prev, items`next, items`home
    {
      Linked(items, head, tail) && forall f :: f in items ==> f.home == this
    }

    constructor ()
      ensures Valid() && items == []
    {
      head, tail, items := null, null, [];
    }

    /** Links `item` in front of position `k`, at the head when `k` is 0. */
    method LinkBefore(item: Fiber, f: Fiber, before: Fiber?, ghost k: nat)
      requires Valid() && item !in items && item.prev == null && item.home == this
      requires k < |items| && f == items[k] && before == At(items, k - 1)
      modifies this, items`prev, items`next, item`prev, item`next
      ensures Valid() && items == Insert(old(items), k, item)
    {
      hide NoDup;
      Apart(items, k);
      if k > 0 {
        Apart(items, k - 1);
      }
      NoDupInsert(items, k, item);
      item.next := f;
      f.prev := item;
      if before == null {
        head := item;
      } else {
        before.next := item;
        item.prev := before;
      }
      Spliced(items, k, item);
      items := Insert(items, k, item);
    }

    method LinkLast(item: Fiber)
      requires Valid() && item !in items && item.prev == null && item.next == null && item.home == this && items != []
      modifies this, items`next, item`prev
      ensures Valid() && items == Insert(old(items), |old(items)|, item)
    {
      hide NoDup;
      Apart(items, |items| - 1);
      NoDupInsert(items, |items|, item);
      tail.next := item;
      item.prev := tail;
      tail := item;
      items := Insert(items, |items|, item);
    }

    /** A fiber that is already in a waiting queue stays where it is. */
    method Push(item: Fiber)
      requires Valid() && item.prev == null && item.next == null
      modifies this, items`prev, items`next, item`prev, item`next, item`home
      ensures Valid()
      ensures old(item.home) != null ==> items == old(items) && item.home == old(item.home)
      ensures old(item.home) == null ==>
                && item.home == this
                && items == Insert(old(items), PushPos(old(Entries(items)), old(item.Seen())), item)
    {
      hide NoDup, Insert, Entries;
      if item.home != null {
        return;
      }
      ghost var q, x := Entries(items), item.Seen();
      item.home := this;
      if head == null {
        head, tail := item, item;
        items := [item];
        OneIsNoDup(item);
        InsertFirst(item);
      } else if item.status == Ready {
        LinkBefore(item, head, null, 0);
      } else if item.due == FOREVER {
        LinkLast(item);
      } else {
        var f, before: Fiber? := head, null;
        ghost var k := 0;
        while f.status == Ready || item.due > f.due
          invariant k < |items| && f == items[k] && before == At(items, k - 1)
          invariant FirstLater(q, x.due, 0) == FirstLater(q, x.due, k)
          invariant Valid() && items == old(items) && item.prev == null && item.next == null && head != null
          decreases |items| - k
        {
          if f == tail {
            Apart(items, |items| - 1);
            LinkLast(item);
            return;
          }
          before := f;
          f := f.next;
          k := k + 1;
        }
        LinkBefore(item, f, before, k);
      }
    }

    method Unlink(f: Fiber, ghost k: nat)
      requires Valid() && 0 < k < |items| && f == items[k]
      modifies this, items`prev, items`next
      ensures Valid() && items == old(items)[..k] + old(items)[k + 1..] && f.home == this
    {
      hide NoDup;
      Apart(items, k);
      Apart(items, k - 1);
      if k + 1 < |items| {
        Apart(items, k + 1);
      }
      NoDupRemove(items, k);
      if f.next == null {
        tail := f.prev;
      } else {
        f.next.prev := f.prev;
      }
      f.prev.next := f.next;
      Bypassed(items, k);
      items := items[..k] + items[k + 1..];
    }

    /** move_to_run: a fiber of this queue moves to its head; one that is elsewhere stays. */
    method MoveToRun(f: Fiber)
      requires Valid() && f.status != Running && (f.home == null || (f.home == this && f in items))
      modifies this, items`prev, items`next
      ensures Valid()
      ensures items == if f in old(items) then ToFront(old(items), IndexOf(old(items), f), f) else old(items)
    {
      hide NoDup, ToFront, Insert;
      if f.prev == null {
        if f in items {
          Apart(items, IndexOf(items, f));
          FrontOfItself(items);
        }
      } else if f.home != null {
        ghost var was, k := items, IndexOf(items, f);
        NoDupRemove(items, k);
        Unlink(f, k);
        f.prev := null;
        FrontIsInsert(was, k, f);
        LinkBefore(f, head, null, 0);
      }
    }

    /** Takes the fiber at the head out of the queue. */
    method TakeHead() returns (f: Fiber)
      requires Valid() && items != []
      modifies this, items`prev, items`next, head`home, head`due
      ensures Valid() && old(items) == [f] + items && f !in items && f == old(head)
      ensures f.prev == null && f.next == null && f.home == null && f.due == FOREVER
    {
      hide NoDup;
      NoDupRemove(items, 0);
      Apart(items, 0);
      if |items| > 1 {
        Apart(items, 1);
      }
      f := head;
      head := f.next;
      if head == null {
        tail := null;
      } else {
        head.prev := null;
      }
      f.next := null;
      f.prev := null;
      f.home := null;
      f.due := FOREVER;
      Bypassed(items, 0);
      items := items[..0] + items[1..];
    }

    /** fetch_ready, without interruption. */
    method FetchReady(f: Fiber, now: Time) returns (ready: bool)
      requires Valid() && items != [] && f == items[0] && f.status != Running && f.status != Terminated
      modifies this, items`prev, items`next, f`status
      ensures Valid() && items == old(items)
      ensures ready == IsDue(old(f.Seen()), now)
      ensures f.status == if ready then Ready else old(f.status)
    {
      hide NoDup, ToFront;
      Apart(items, 0);
      if f.due <= now {
        f.status := Ready;
        MoveToRun(f);
        assert items == old(items) by { FrontOfItself(old(items)); }
      }
      ready := f.status == Ready;
    }

    /** Hands the fiber at the head over to the run queue. */
    method HandOver(sink: Fifo)
      requires Valid() && sink.Valid() && items != [] && head.status == Ready && Queued(items)
      requires forall f :: f in items ==> f !in sink.items
      modifies this, sink, items`prev, items`next, head`home, head`due, sink.items`prev, sink.items`next
      ensures Valid() && sink.Valid() && Queued(items)
      ensures items == old(items)[1..] && sink.items == old(sink.items) + [old(items)[0]]
      ensures forall f :: f in items ==> f !in sink.items
      ensures Entries(items) == old(Entries(items))[1..]
      ensures Idle(old(items)[0])
    {
      hide NoDup, Linked, WellLinked, Entries, Links;
      HeadIs();
      ghost var there := Links(sink.items);
      ByLinks(sink.items, sink.head, sink.tail);
      var f := TakeHead();
      forall i | 0 <= i < |sink.items| ensures Links(sink.items)[i] == there[i] {
        assert sink.items[i] in sink.items && sink.items[i] !in old(items);
      }
      assert Links(sink.items) == there;
      ByLinks(sink.items, sink.head, sink.tail);
      ghost var here := Links(items);
      ByLinks(items, head, tail);
      sink.Push(f);
      forall i | 0 <= i < |items| ensures Links(items)[i] == here[i] {
        assert items[i] in items && items[i] !in old(sink.items);
      }
      assert Links(items) == here;
      ByLinks(items, head, tail);
      forall g | g in items ensures g.status == Ready || g.status == Waiting {
        assert g in old(items);
      }
    }

    /** One turn of the loop in move_to: the fiber at the head, if it is ready or due, goes to the run queue. */
    method TryHead(sink: Fifo, now: Time) returns (ready: bool)
      requires Valid() && sink.Valid() && items != [] && Queued(items)
      requires forall f :: f in items ==> f !in sink.items
      modifies this, sink, items`prev, items`next, items`status, head`home, head`due, sink.items`prev, sink.items`next
      ensures Valid() && sink.Valid() && Queued(items)
      ensures forall f :: f in items ==> f !in sink.items
      ensures ready == IsDue(old(Entries(items))[0], now)
      ensures var n := if ready then 1 else 0;
              && items == old(items)[n..] && sink.items == old(sink.items) + old(items)[..n]
              && Entries(items) == old(Entries(items))[n..]
      ensures ready ==> Idle(old(items)[0])
      ensures forall f :: f in old(sink.items) && old(Idle(f)) ==> Idle(f)
    {
      hide NoDup, Linked, WellLinked, Entries, Links;
      HeadIs();
      Apart(items, 0);
      ghost var there, q := Links(sink.items), Entries(items);
      ByLinks(sink.items, sink.head, sink.tail);
      ready := FetchReady(head, now);
      forall i | 0 <= i < |sink.items| ensures Links(sink.items)[i] == there[i] {
        assert sink.items[i] in sink.items && sink.items[i] !in old(items);
      }
      assert Links(sink.items) == there;
      ByLinks(sink.items, sink.head, sink.tail);
      HeadIs();
      RestOfEntries(items, q);
      if ready {
        HandOver(sink);
      } else {
        assert Entries(items) == q;
      }
    }

    /** move_to with fetch_ready: hands over the fibers at the head that are ready or due, up to the first that is not. */
    method MoveTo(sink: Fifo, now: Time)
      requires Valid() && sink.Valid() && Queued(items)
      requires forall f :: f in items ==> f !in sink.items
      modifies this, sink, items`prev, items`next, items`home, items`due, items`status, sink.items`prev, sink.items`next
      ensures Valid() && sink.Valid() && Queued(items)
      ensures forall f :: f in items ==> f !in sink.items
      ensures var n := DueCount(old(Entries(items)), now);
              && items == old(items)[n..] && sink.items == old(sink.items) + old(items)[..n]
              && Entries(items) == old(Entries(items))[n..]
              && (forall f :: f in old(items)[..n] ==> Idle(f))
    {
      hide NoDup, Linked, DueCount, Entries, Idle, Queued;
      ghost var was, q, n, dest := items, Entries(items), 0, sink.items;
      HeadIs();
      var f := head;
      while f != null
        invariant Valid() && sink.Valid() && Queued(items)
        invariant f == head && n <= |was| && items == was[n..] && sink.items == dest + was[..n]
        invariant Entries(items) == q[n..]
        invariant forall g :: g in was[..n] ==> g in sink.items && Idle(g)
        invariant forall g :: g in items ==> g !in sink.items
        invariant DueCount(q, now) == n + DueCount(q[n..], now)
        decreases |was| - n
      {
        HeadIs();
        DueStep(q, n, now);
        OneFurther(dest, was, n);
        OneFurther([], q, n);
        var ready := TryHead(sink, now);
        if !ready {
          break;
        }
        HeadIs();
        f := head;
        n := n + 1;
      }
      HeadIs();
      NoneDue(now);
    }

    lemma HeadIs()
      requires Valid()
      ensures head == At(items, 0) && (items == [] <==> head == null) && NoDup(items)
    {
      hide NoDup;
    }
  }

  /** The states of a fiber in the waiting queue. */
  ghost predicate Queued(items: seq<Fiber>)
    reads items`status
  {
    forall f :: f in items ==> f.status == Ready || f.status == Waiting
  }

  /** A fiber that waits for nothing and is in no waiting queue, ready to be run. */
  ghost predicate Idle(f: Fiber)
    reads f`status, f`due, f`home
  {
    f.status == Ready && f.due == FOREVER && f.home == null
  }

  /** The entries after the first, when only the status of the first has changed. */
  lemma RestOfEntries(items: seq<Fiber>, q: seq<Entry>)
    requires |q| == |items| > 0 && forall i :: 1 <= i < |items| ==> items[i].Seen() == q[i]
    ensures Entries(items)[1..] == q[1..]
  {
    hide Entries;
  }

  lemma DueStep(q: seq<Entry>, n: nat, now: Time)
    requires n < |q|
    ensures DueCount(q[n..], now) == if IsDue(q[n], now) then 1 + DueCount(q[n + 1..], now) else 0
  {
    assert q[n..][1..] == q[n + 1..];
  }

  lemma OneFurther<T>(dest: seq<T>, was: seq<T>, n: nat)
    requires n < |was|
    ensures was[n..][0] == was[n] && was[n..][1..] == was[n + 1..] && was[n..][0..] == was[n..]
    ensures dest + was[..n] + was[n..][..1] == dest + was[..n + 1] && dest + was[..n] + was[n..][..0] == dest + was[..n]
    ensures forall x :: x in was[..n + 1] ==> x in was[..n] || x == was[n]
  {}

  lemma NoneDue(now: Time)
    ensures DueCount([], now) == 0
  {}
}

/** condition: the list of fibers to notify. */
module FiberCondition {
  import opened Options

  /** The list of a condition; the notified fibers are returned in the order they are made ready. */
  class Condition<F(==)> {
    var waiting: seq<F>

    constructor ()
      ensures waiting == []
    {
      waiting := [];
    }

    method Enlist(f: F)
      requires f !in waiting
      modifies this
      ensures waiting == old(waiting) + [f]
    {
      waiting := waiting + [f];
    }

    method NotifyOne() returns (woken: Option<F>)
      modifies this
      ensures old(waiting) == (if woken.Some? then [woken.value] else []) + waiting
      ensures woken.None? ==> waiting == []
    {
      woken := None;
      if waiting != [] {
        woken := Some(waiting[0]);
        waiting := waiting[1..];
      }
    }

    method NotifyAll() returns (woken: seq<F>)
      modifies this
      ensures woken == old(waiting) && waiting == []
    {
      var list := waiting;
      waiting := [];
      woken := [];
      while list != []
        invariant woken + list == old(waiting) && waiting == []
        decreases |list|
      {
        woken := woken + [list[0]];
        list := list[1..];
      }
    }
  }
}

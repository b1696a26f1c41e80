/** Callback traces, compared after joining adjacent data callbacks of the same kind. */
module HttpTrace {
  import opened HttpTypes

  predicate Extends(last: Event, e: Event) { last.Data? && e.Data? && last.kind == e.kind }

  function Append(t: seq<Event>, e: Event): seq<Event> {
    if |t| > 0 && Extends(t[|t| - 1], e) then t[..|t| - 1] + [Data(e.kind, t[|t| - 1].bytes + e.bytes)]
    else t + [e]
  }

  /** The trace with every run of same-kind data callbacks joined into one. */
  function Join(t: seq<Event>): seq<Event> {
    if |t| == 0 then [] else Append(Join(t[..|t| - 1]), t[|t| - 1])
  }

  lemma JoinSnoc(t: seq<Event>, e: Event)
    ensures Join(t + [e]) == Append(Join(t), e)
  {
    assert (t + [e])[..|t + [e]| - 1] == t;
  }

  lemma {:induction false} JoinSame(a: seq<Event>, b: seq<Event>, c: seq<Event>)
    requires Join(a) == Join(b)
    ensures Join(a + c) == Join(b + c)
  {
    if |c| == 0 {
      assert a + c == a && b + c == b;
    } else {
      var d := c[..|c| - 1];
      JoinSame(a, b, d);
      assert a + c == (a + d) + [c[|c| - 1]];
      assert b + c == (b + d) + [c[|c| - 1]];
      JoinSnoc(a + d, c[|c| - 1]);
      JoinSnoc(b + d, c[|c| - 1]);
    }
  }

  lemma AppendTwice(j: seq<Event>, k: Kind, x: seq<Byte>, y: seq<Byte>)
    ensures Append(Append(j, Data(k, x)), Data(k, y)) == Append(j, Data(k, x + y))
  {
    var t := Append(j, Data(k, x));
    if |j| > 0 && Extends(j[|j| - 1], Data(k, x)) {
      var u, z := j[..|j| - 1], j[|j| - 1].bytes;
      assert t[..|t| - 1] == u;
      assert (z + x) + y == z + (x + y);
    } else {
      assert t[..|t| - 1] == j;
    }
  }

  /** Cutting a data callback in two does not show after joining. */
  lemma JoinCut(t: seq<Event>, k: Kind, x: seq<Byte>, y: seq<Byte>)
    ensures Join(t + [Data(k, x), Data(k, y)]) == Join(t + [Data(k, x + y)])
  {
    hide Append;
    assert t + [Data(k, x), Data(k, y)] == (t + [Data(k, x)]) + [Data(k, y)];
    JoinSnoc(t, Data(k, x));
    JoinSnoc(t + [Data(k, x)], Data(k, y));
    JoinSnoc(t, Data(k, x + y));
    AppendTwice(Join(t), k, x, y);
  }

  predicate EndsWith(t: seq<Event>, k: Kind) {
    |t| > 0 && t[|t| - 1].Data? && t[|t| - 1].kind == k
  }

  /** An empty piece right after data of its own kind does not show after joining. */
  lemma JoinEmpty(t: seq<Event>, k: Kind)
    requires EndsWith(t, k)
    ensures Join(t + [Data(k, [])]) == Join(t)
  {
    var u, x := t[..|t| - 1], t[|t| - 1].bytes;
    assert t == u + [Data(k, x)];
    assert t + [Data(k, [])] == u + [Data(k, x), Data(k, [])];
    JoinCut(u, k, x, []);
    assert x + [] == x;
  }

  /** The bytes of `d`, each in a callback of its own. */
  function Singles(k: Kind, d: seq<Byte>): (t: seq<Event>)
    ensures |t| == |d|
  {
    if |d| == 0 then [] else Singles(k, d[..|d| - 1]) + [Data(k, [d[|d| - 1]])]
  }

  lemma {:induction false} JoinSingles(t: seq<Event>, k: Kind, d: seq<Byte>)
    requires |d| > 0
    ensures Join(t + Singles(k, d)) == Join(t + [Data(k, d)])
  {
    hide Join;
    var c, b := d[..|d| - 1], d[|d| - 1];
    assert d == c + [b];
    if |c| == 0 {
      assert t + Singles(k, d) == t + [Data(k, d)];
    } else {
      JoinSingles(t, k, c);
      JoinSame(t + Singles(k, c), t + [Data(k, c)], [Data(k, [b])]);
      assert t + Singles(k, d) == (t + Singles(k, c)) + [Data(k, [b])];
      assert (t + [Data(k, c)]) + [Data(k, [b])] == t + [Data(k, c), Data(k, [b])];
      JoinCut(t, k, c, [b]);
    }
  }
}

/**
 The RPC and Raw clients: many requests share one connection, a table maps message ids to the
 futures that wait for them, and one reader fiber hands out the responses. The steps are what
 happens between two suspension points; a send suspends between its begin and its end.
 */
module RpcClient {

  /** What a future can be given: a response, or the error of the connection. */
  datatype Outcome<P> = Answered(msgid: nat, body: P, ok: bool) | Broken(error: P)

  const TWO_32: nat := 0x1_0000_0000

  /** The 32-bit id of the n-th request. */
  function Id(n: nat): nat { n % TWO_32 }

  /**
   Futures are numbered in the order of their requests. `sending` are the requests whose send has
   not returned, `sent` those whose send succeeded, and `results` everything a future was given.
   */
  datatype Client<P> = Client(
    made: nat, pending: map<nat, nat>, reader: bool, sending: set<nat>, sent: set<nat>, results: map<nat, seq<Outcome<P>>>)

  function NewClient<P>(): Client<P> { Client(0, map[], false, {}, {}, map[]) }

  datatype Action<P> =
    | BeginSend                                     // send_request, up to the write
    | EndSend(n: nat, ok: bool)                     // the rest of send_request
    | Receive(msgid: nat, body: P, ok: bool)        // set_response
    | Fail(error: P)                                // the end of handle_read

  predicate Enabled<P>(c: Client<P>, a: Action<P>) {
    match a
    case BeginSend => true
    case EndSend(n, _) => n in c.sending
    case Receive(_, _, _) => c.reader
    case Fail(_) => c.reader
  }

  function Give<P>(results: map<nat, seq<Outcome<P>>>, n: nat, o: Outcome<P>): map<nat, seq<Outcome<P>>> {
    results[n := (if n in results then results[n] else []) + [o]]
  }

  /** Every future in the table is given the error. */
  function GiveAll<P>(c: Client<P>, error: P): map<nat, seq<Outcome<P>>> {
    map n | n in c.results :: if n in c.pending.Values then c.results[n] + [Broken(error)] else c.results[n]
  }

  function Next<P>(c: Client<P>, a: Action<P>): Client<P>
    requires Enabled(c, a)
  {
    match a
    case BeginSend =>
      var n := c.made + 1;
      c.(made := n, pending := c.pending[Id(n) := n], sending := c.sending + {n}, results := c.results[n := []])
    case EndSend(n, ok) =>
      var d := c.(sending := c.sending - {n});
      if ok then d.(sent := d.sent + {n}, reader := true) else d.(pending := d.pending - {Id(n)})
    case Receive(msgid, body, ok) =>
      if msgid in c.pending then
        c.(pending := c.pending - {msgid}, results := Give(c.results, c.pending[msgid], Answered(msgid, body, ok)))
      else c
    case Fail(error) => c.(pending := map[], reader := false, results := GiveAll(c, error))
  }

  // ---------- what holds on every run, however long ----------

  /** Request `n` is in the table, under its own id. */
  predicate Served<P>(c: Client<P>, n: nat) { Id(n) in c.pending && c.pending[Id(n)] == n }

  /** The table holds requests under their own ids, and only ones whose send has not failed. */
  ghost predicate Filed<P>(c: Client<P>) {
    && (forall id :: id in c.pending ==> Id(c.pending[id]) == id && (c.pending[id] in c.sending || c.pending[id] in c.sent))
    && (forall n :: n in c.sending || n in c.sent ==> n in c.results)
    && (forall n :: n in c.results ==> 0 < n <= c.made)
    && (forall n :: n in c.sending ==> n !in c.sent)
  }

  lemma FiledStays<P>(c: Client<P>, a: Action<P>)
    requires Filed(c) && Enabled(c, a)
    ensures Filed(Next(c, a))
  {
    hide Id;
  }

  lemma ServedIsListed<P>(c: Client<P>, n: nat)
    requires Filed(c)
    ensures Served(c, n) <==> n in c.pending.Values
  {
    hide Id;
  }

  // ---------- the condition ----------

  /** The id that the next request will get is still in use, in the table or by a send that has not returned. */
  predicate Clash<P>(c: Client<P>) {
    Id(c.made + 1) in c.pending || exists m | m in c.sending :: Id(m) == Id(c.made + 1)
  }

  // ---------- the invariant ----------

  ghost predicate FutureOk<P>(c: Client<P>, n: nat)
    requires n in c.results
  {
    && |c.results[n]| <= 1
    && (|c.results[n]| == 1 && c.results[n][0].Answered? ==> c.results[n][0].msgid == Id(n))
    && (Served(c, n) ==> c.results[n] == [])
  }

  /** A request whose send succeeded, or has not returned, is in the table or has been given its one result. */
  ghost predicate Accounted<P>(c: Client<P>, n: nat)
    requires n in c.results
  {
    (Served(c, n) || |c.results[n]| == 1) && (n in c.sent && Served(c, n) ==> c.reader)
  }

  /** No other request uses the id of one whose send has not returned. */
  ghost predicate Alone<P>(c: Client<P>, n: nat) {
    && (Id(n) in c.pending ==> c.pending[Id(n)] == n)
    && (forall m :: m in c.sending && Id(m) == Id(n) ==> m == n)
  }

  ghost predicate Inv<P>(c: Client<P>) {
    && Filed(c)
    && (forall n :: n in c.results ==> FutureOk(c, n))
    && (forall n :: n in c.sending || n in c.sent ==> Accounted(c, n))
    && (forall n :: n in c.sending ==> Alone(c, n))
  }

  lemma BeginKeeps<P>(c: Client<P>)
    requires Inv(c) && !Clash(c)
    ensures Inv(Next(c, BeginSend))
  {
    hide Id;
    FiledStays(c, BeginSend);
    var d := Next(c, BeginSend);
    forall n | n in d.results ensures FutureOk(d, n) {
      assert n in c.results ==> FutureOk(c, n);
    }
    forall n | n in d.sending || n in d.sent ensures Accounted(d, n) {
      assert n in c.results && (n in c.sending || n in c.sent) ==> Accounted(c, n);
    }
    forall n | n in d.sending ensures Alone(d, n) {
      assert n in c.sending ==> Alone(c, n);
    }
  }

  lemma EndKeeps<P>(c: Client<P>, n: nat, ok: bool)
    requires Inv(c) && n in c.sending
    ensures Inv(Next(c, EndSend(n, ok)))
  {
    hide Id;
    FiledStays(c, EndSend(n, ok));
    var d := Next(c, EndSend(n, ok));
    assert Alone(c, n);
    forall m | m in d.results ensures FutureOk(d, m) {
      assert FutureOk(c, m);
    }
    forall m | m in d.sending || m in d.sent ensures Accounted(d, m) {
      assert Accounted(c, m);
    }
    forall m | m in d.sending ensures Alone(d, m) {
      assert Alone(c, m);
    }
  }

  lemma ReceiveKeeps<P>(c: Client<P>, msgid: nat, body: P, ok: bool)
    requires Inv(c) && c.reader
    ensures Inv(Next(c, Receive(msgid, body, ok)))
  {
    hide Id;
    FiledStays(c, Receive(msgid, body, ok));
    var d := Next(c, Receive(msgid, body, ok));
    forall m | m in d.results ensures FutureOk(d, m) {
      assert FutureOk(c, m);
    }
    forall m | m in d.sending || m in d.sent ensures Accounted(d, m) {
      assert Accounted(c, m);
    }
    forall m | m in d.sending ensures Alone(d, m) {
      assert Alone(c, m);
    }
  }

  lemma FailKeeps<P>(c: Client<P>, error: P)
    requires Inv(c) && c.reader
    ensures Inv(Next(c, Fail(error)))
  {
    hide Id;
    FiledStays(c, Fail(error));
    var d := Next(c, Fail(error));
    forall m | m in d.results ensures FutureOk(d, m) {
      assert FutureOk(c, m);
      ServedIsListed(c, m);
    }
    forall m | m in d.sending || m in d.sent ensures Accounted(d, m) {
      assert Accounted(c, m);
      ServedIsListed(c, m);
    }
    forall m | m in d.sending ensures Alone(d, m) {
      assert Alone(c, m);
    }
  }

  lemma StepKeeps<P>(c: Client<P>, a: Action<P>)
    requires Inv(c) && Enabled(c, a) && (a.BeginSend? ==> !Clash(c))
    ensures Inv(Next(c, a))
  {
    hide Inv, Id, Give, GiveAll, Clash;
    match a {
      case BeginSend => BeginKeeps(c);
      case EndSend(n, ok) => EndKeeps(c, n, ok);
      case Receive(msgid, body, ok) => ReceiveKeeps(c, msgid, body, ok);
      case Fail(error) => FailKeeps(c, error);
    }
  }

  // ---------- runs ----------

  ghost predicate IsRun<P>(states: seq<Client<P>>, acts: seq<Action<P>>) {
    && |states| == |acts| + 1 && states[0] == NewClient()
    && forall i :: 0 <= i < |acts| ==> Enabled(states[i], acts[i]) && states[i + 1] == Next(states[i], acts[i])
  }

  /** No request of the first `i` steps is begun with an id that is still in use. */
  ghost predicate Careful<P>(states: seq<Client<P>>, acts: seq<Action<P>>, i: nat)
    requires i <= |acts| < |states|
  {
    forall k :: 0 <= k < i && acts[k].BeginSend? ==> !Clash(states[k])
  }

  lemma {:induction false} AlwaysFiled<P>(states: seq<Client<P>>, acts: seq<Action<P>>, i: nat)
    requires IsRun(states, acts) && i <= |acts|
    ensures Filed(states[i])
  {
    hide Next, Id;
    if i > 0 {
      assert Enabled(states[i - 1], acts[i - 1]) && states[i - 1 + 1] == Next(states[i - 1], acts[i - 1]);
      AlwaysFiled(states, acts, i - 1);
      FiledStays(states[i - 1], acts[i - 1]);
    }
  }

  lemma {:induction false} AlwaysInv<P>(states: seq<Client<P>>, acts: seq<Action<P>>, i: nat)
    requires IsRun(states, acts) && i <= |acts| && Careful(states, acts, i)
    ensures Inv(states[i])
  {
    hide Next, Id, Clash;
    if i > 0 {
      assert Enabled(states[i - 1], acts[i - 1]) && states[i - 1 + 1] == Next(states[i - 1], acts[i - 1]);
      AlwaysInv(states, acts, i - 1);
      StepKeeps(states[i - 1], acts[i - 1]);
    }
  }

  /**
   Over all interleavings, for as long as no request is begun with an id that is still in use: a
   future is given at most one result, and a response only if it carries the future's own id; a
   request that was sent and has no result is in the table with a reader alive to serve it; and
   when the reader ends, the table is empty and everything that was in it has failed.
   */
  lemma MultiplexingSafe<P>(states: seq<Client<P>>, acts: seq<Action<P>>, i: nat, n: nat)
    requires IsRun(states, acts) && i <= |acts| && Careful(states, acts, i) && n in states[i].results
    ensures var c := states[i];
            && |c.results[n]| <= 1
            && (|c.results[n]| == 1 && c.results[n][0].Answered? ==> c.results[n][0].msgid == Id(n))
            && (n in c.sent && c.results[n] == [] ==> Served(c, n) && c.reader)
    ensures i < |acts| && acts[i].Fail? ==>
              && states[i + 1].pending == map[] && !states[i + 1].reader
              && (Served(states[i], n) ==>
                    n in states[i + 1].results && states[i + 1].results[n] == [Broken(acts[i].error)])
  {
    hide Id, Clash, Filed, Careful;
    AlwaysInv(states, acts, i);
    var c := states[i];
    assert FutureOk(c, n);
    assert n in c.sent ==> Accounted(c, n);
    ServedIsListed(c, n);
  }

  /** The ids of the first 2^32 requests are all different, so a run that long is careful. */
  lemma {:induction false} BeforeTheWrap<P>(states: seq<Client<P>>, acts: seq<Action<P>>, i: nat)
    requires IsRun(states, acts) && i <= |acts| && states[i].made <= TWO_32
    ensures Careful(states, acts, i)
  {
    hide Next;
    if i > 0 {
      var c, a := states[i - 1], acts[i - 1];
      assert Enabled(c, a) && states[i - 1 + 1] == Next(c, a);
      MadeGrows(c, a);
      BeforeTheWrap(states, acts, i - 1);
      AlwaysFiled(states, acts, i - 1);
      if a.BeginSend? {
        NoClashYet(c);
      }
    }
  }

  lemma MadeGrows<P>(c: Client<P>, a: Action<P>)
    requires Enabled(c, a)
    ensures Next(c, a).made == if a.BeginSend? then c.made + 1 else c.made
  {
    hide Id, Give, GiveAll;
  }

  lemma NoClashYet<P>(c: Client<P>)
    requires Filed(c) && c.made < TWO_32
    ensures !Clash(c)
  {
    var n := c.made + 1;
    forall m | m in c.results ensures Id(m) != Id(n) {}
    forall id | id in c.pending ensures id != Id(n) {
      assert Id(c.pending[id]) == id && c.pending[id] in c.results;
    }
  }

  // ---------- the condition is exact ----------

  /** A request that was sent, has been given nothing and is in no table. */
  ghost predicate IsLost<P>(c: Client<P>, n: nat) {
    n in c.sent && n in c.results && c.results[n] == [] && n !in c.pending.Values
  }

  /** It stays so for ever: nobody will answer it or fail it. */
  lemma LostForEver<P>(c: Client<P>, a: Action<P>, n: nat)
    requires Filed(c) && Enabled(c, a) && IsLost(c, n)
    ensures IsLost(Next(c, a), n)
  {
    hide Id;
    var d := Next(c, a);
    forall id | id in d.pending ensures d.pending[id] != n {
      assert id in c.pending ==> c.pending[id] in c.pending.Values;
    }
  }

  /** The steps `acts`, none of which begins a request, lead from `c` to `d`. */
  ghost predicate Leads<P>(c: Client<P>, acts: seq<Action<P>>, d: Client<P>)
    decreases |acts|
  {
    if acts == [] then d == c
    else !acts[0].BeginSend? && Enabled(c, acts[0]) && Leads(Next(c, acts[0]), acts[1..], d)
  }

  /** Without beginning another request, one of those begun so far can be lost. */
  ghost predicate CanLose<P(!new)>(c: Client<P>) {
    exists acts, d, n :: Leads(c, acts, d) && IsLost(d, n)
  }

  lemma {:induction false} LeadsKeeps<P>(c: Client<P>, acts: seq<Action<P>>, d: Client<P>)
    requires Inv(c) && Leads(c, acts, d)
    ensures Inv(d)
    decreases |acts|
  {
    hide Inv, Next;
    if acts != [] {
      StepKeeps(c, acts[0]);
      LeadsKeeps(Next(c, acts[0]), acts[1..], d);
    }
  }

  lemma NoneLost<P>(c: Client<P>, n: nat)
    requires Inv(c)
    ensures !IsLost(c, n)
  {
    hide Id;
    ServedIsListed(c, n);
    assert n in c.sent ==> Accounted(c, n);
  }

  /** The id is in the table: its owner is overwritten. */
  lemma OverwriteLoses<P>(c: Client<P>) returns (acts: seq<Action<P>>, d: Client<P>, n: nat)
    requires Inv(c) && Id(c.made + 1) in c.pending
    ensures Leads(Next(c, BeginSend), acts, d) && IsLost(d, n)
  {
    hide Id;
    var t := Next(c, BeginSend);
    n := c.pending[Id(c.made + 1)];
    FiledStays(c, BeginSend);
    ServedIsListed(t, n);
    assert Served(c, n) && FutureOk(c, n);
    if n in c.sent {
      acts, d := [], t;
    } else {
      acts, d := [EndSend(n, true)], Next(t, EndSend(n, true));
      LeadsOne(t, EndSend(n, true));
    }
  }

  /** The id belongs to a send that has not returned: when it fails, it takes the new entry out. */
  lemma StaleSendLoses<P>(c: Client<P>, m: nat) returns (acts: seq<Action<P>>, d: Client<P>, n: nat)
    requires Inv(c) && m in c.sending && Id(m) == Id(c.made + 1)
    ensures Leads(Next(c, BeginSend), acts, d) && IsLost(d, n)
  {
    hide Id;
    n := c.made + 1;
    var t := Next(c, BeginSend);
    var u := Next(t, EndSend(n, true));
    d := Next(u, EndSend(m, false));
    FiledStays(c, BeginSend);
    FiledStays(t, EndSend(n, true));
    FiledStays(u, EndSend(m, false));
    ServedIsListed(d, n);
    acts := [EndSend(n, true), EndSend(m, false)];
    LeadsOne(u, EndSend(m, false));
    assert acts[1..] == [EndSend(m, false)];
  }

  lemma LeadsOne<P>(c: Client<P>, a: Action<P>)
    requires Enabled(c, a) && !a.BeginSend?
    ensures Leads(c, [a], Next(c, a))
  {
    hide Next;
    assert [a][1..] == [];
  }

  /** Beginning a request is safe exactly when its id is not in use: otherwise some request can be lost for ever. */
  lemma ClashIsExact<P(!new)>(c: Client<P>)
    requires Inv(c)
    ensures Clash(c) <==> CanLose(Next(c, BeginSend))
  {
    hide Inv, Next, Id;
    if Id(c.made + 1) in c.pending {
      var acts, d, n := OverwriteLoses(c);
    } else if Clash(c) {
      var m :| m in c.sending && Id(m) == Id(c.made + 1);
      var acts, d, n := StaleSendLoses(c, m);
    } else {
      BeginKeeps(c);
      forall acts, d, n | Leads(Next(c, BeginSend), acts, d) ensures !IsLost(d, n) {
        LeadsKeeps(Next(c, BeginSend), acts, d);
        NoneLost(d, n);
      }
    }
  }

  // ---------- the condition can fail: two runs past the wrap ----------

  ghost predicate Reachable<P(!new)>(c: Client<P>) {
    exists states, acts :: IsRun(states, acts) && states[|acts|] == c
  }

  lemma ReachNew<P(!new)>()
    ensures Reachable(NewClient<P>())
  {
    assert IsRun([NewClient<P>()], []);
  }

  lemma ReachStep<P(!new)>(c: Client<P>, a: Action<P>)
    requires Reachable(c) && Enabled(c, a)
    ensures Reachable(Next(c, a))
  {
    hide Next;
    var states, acts :| IsRun(states, acts) && states[|acts|] == c;
    var more, longer := states + [Next(c, a)], acts + [a];
    forall i | 0 <= i < |longer| ensures Enabled(more[i], longer[i]) && more[i + 1] == Next(more[i], longer[i]) {
      if i < |acts| {
        assert more[i] == states[i] && more[i + 1] == states[i + 1] && longer[i] == acts[i];
      }
    }
    assert IsRun(more, longer) && more[|longer|] == Next(c, a);
  }

  /** `k` requests whose sends fail at once. */
  ghost function Fruitless<P>(c: Client<P>, k: nat): Client<P> {
    if k == 0 then c
    else
      var d := Fruitless(c, k - 1);
      Next(Next(d, BeginSend), EndSend(d.made + 1, false))
  }

  /** Such requests change nothing but the count, as long as their ids are not in the table. */
  lemma {:induction false} FruitlessReached<P(!new)>(c: Client<P>, k: nat)
    requires Reachable(c) && Filed(c)
    requires forall j :: c.made < j <= c.made + k ==> Id(j) !in c.pending
    ensures var d := Fruitless(c, k);
            && Reachable(d) && Filed(d) && d.made == c.made + k
            && d.pending == c.pending && d.reader == c.reader && d.sending == c.sending && d.sent == c.sent
            && forall n :: n in c.results ==> n in d.results && d.results[n] == c.results[n]
  {
    hide Id, Next, Filed;
    if k > 0 {
      FruitlessReached(c, k - 1);
      var d := Fruitless(c, k - 1);
      assert d.made + 1 == c.made + k && Id(c.made + k) !in d.pending;
      OneFruitless(d);
      ReachStep(d, BeginSend);
      ReachStep(Next(d, BeginSend), EndSend(d.made + 1, false));
    }
  }

  lemma OneFruitless<P>(d: Client<P>)
    requires Filed(d) && Id(d.made + 1) !in d.pending
    ensures var e := Next(d, BeginSend);
            && Enabled(e, EndSend(d.made + 1, false))
            && var t := Next(e, EndSend(d.made + 1, false));
            && Filed(t) && t.made == d.made + 1
            && t.pending == d.pending && t.reader == d.reader && t.sending == d.sending && t.sent == d.sent
            && forall n :: n in d.results ==> n in t.results && t.results[n] == d.results[n]
  {
    hide Id;
    FiledStays(d, BeginSend);
    FiledStays(Next(d, BeginSend), EndSend(d.made + 1, false));
  }

  /** The first request is still unanswered when the ids come round: request 2^32 + 1 takes over its entry. */
  lemma WrapTakesOver<P(!new)>() returns (c: Client<P>, d: Client<P>)
    ensures Reachable(c) && c.made == TWO_32 && Id(c.made + 1) in c.pending
    ensures d == Next(c, BeginSend) && Reachable(d) && IsLost(d, 1)
  {
    hide Next, Fruitless, IsRun;
    var c0 := NewClient<P>();
    ReachNew<P>();
    ReachStep(c0, BeginSend);
    var c1 := Next(c0, BeginSend);
    assert c1 == Client(1, map[1 := 1], false, {1}, {}, map[1 := []]) by { FirstBegin<P>(); }
    ReachStep(c1, EndSend(1, true));
    var c2 := Next(c1, EndSend(1, true));
    assert c2 == Client(1, map[1 := 1], true, {}, {1}, map[1 := []]) by { FirstSent<P>(c1); }
    FruitlessReached(c2, TWO_32 - 1);
    c := Fruitless(c2, TWO_32 - 1);
    ReachStep(c, BeginSend);
    d := Next(c, BeginSend);
    TakenOver(c);
  }

  lemma FirstBegin<P>()
    ensures Next(NewClient<P>(), BeginSend) == Client(1, map[1 := 1], false, {1}, {}, map[1 := []])
  {}

  lemma FirstSent<P>(c: Client<P>)
    requires c == Client(1, map[1 := 1], false, {1}, {}, map[1 := []])
    ensures Next(c, EndSend(1, true)) == Client(1, map[1 := 1], true, {}, {1}, map[1 := []])
  {}

  lemma TakenOver<P>(c: Client<P>)
    requires c.made == TWO_32 && c.pending == map[1 := 1] && 1 in c.sent && 1 in c.results && c.results[1] == []
    ensures IsLost(Next(c, BeginSend), 1)
  {
    var d := Next(c, BeginSend);
    assert d.pending == map[1 := TWO_32 + 1];
  }

  /**
   The first request has failed with the connection while its send had not returned. The ids come
   round, request 2^32 + 1 is entered in an empty table and sent; then the send of the first one
   fails and takes the entry of the new one out.
   */
  lemma StaleSendTakesOut<P(!new)>(e: P) returns (c: Client<P>, d: Client<P>)
    ensures Reachable(c) && c.made == TWO_32 && c.pending == map[] && 1 in c.sending
    ensures Reachable(d) && d.made == TWO_32 + 1 && IsLost(d, TWO_32 + 1)
  {
    hide Next, Fruitless, IsRun;
    var c0 := NewClient<P>();
    ReachNew<P>();
    ReachStep(c0, BeginSend);
    var c1 := Next(c0, BeginSend);
    assert c1 == Client(1, map[1 := 1], false, {1}, {}, map[1 := []]) by { FirstBegin<P>(); }
    ReachStep(c1, BeginSend);
    var c2 := Next(c1, BeginSend);
    assert c2 == Client(2, map[1 := 1, 2 := 2], false, {1, 2}, {}, map[1 := [], 2 := []]) by { SecondBegin<P>(c1); }
    ReachStep(c2, EndSend(2, true));
    var c3 := Next(c2, EndSend(2, true));
    SecondSent(c2);
    ReachStep(c3, Fail(e));
    var c4 := Next(c3, Fail(e));
    BothFail(c3, e);
    FruitlessReached(c4, TWO_32 - 2);
    c := Fruitless(c4, TWO_32 - 2);
    ReachStep(c, BeginSend);
    var t := Next(c, BeginSend);
    assert TWO_32 + 1 in t.sending && 1 in t.sending && t.made == TWO_32 + 1 by { NextBegins(c); }
    ReachStep(t, EndSend(TWO_32 + 1, true));
    var u := Next(t, EndSend(TWO_32 + 1, true));
    assert 1 in u.sending && u.made == TWO_32 + 1 by { OneSent(t); }
    ReachStep(u, EndSend(1, false));
    d := Next(u, EndSend(1, false));
    TakenOut(c);
  }

  lemma SecondBegin<P>(c: Client<P>)
    requires c == Client(1, map[1 := 1], false, {1}, {}, map[1 := []])
    ensures Next(c, BeginSend) == Client(2, map[1 := 1, 2 := 2], false, {1, 2}, {}, map[1 := [], 2 := []])
  {}

  lemma SecondSent<P>(c: Client<P>)
    requires c == Client(2, map[1 := 1, 2 := 2], false, {1, 2}, {}, map[1 := [], 2 := []])
    ensures Next(c, EndSend(2, true)) == Client(2, map[1 := 1, 2 := 2], true, {1}, {2}, map[1 := [], 2 := []])
  {}

  lemma BothFail<P>(c: Client<P>, e: P)
    requires c == Client(2, map[1 := 1, 2 := 2], true, {1}, {2}, map[1 := [], 2 := []])
    ensures var d := Next(c, Fail(e)); Filed(d) && d.made == 2 && d.pending == map[] && d.sending == {1}
  {}

  lemma NextBegins<P>(c: Client<P>)
    requires c.made == TWO_32 && 1 in c.sending
    ensures var t := Next(c, BeginSend); TWO_32 + 1 in t.sending && 1 in t.sending && t.made == TWO_32 + 1
  {}

  lemma OneSent<P>(t: Client<P>)
    requires TWO_32 + 1 in t.sending && 1 in t.sending
    ensures var u := Next(t, EndSend(TWO_32 + 1, true)); 1 in u.sending && u.made == t.made
  {}

  lemma TakenOut<P>(c: Client<P>)
    requires c.made == TWO_32 && c.pending == map[] && 1 in c.sending
    ensures var n := TWO_32 + 1;
            var t := Next(c, BeginSend);
            && n in t.sending && 1 in Next(t, EndSend(n, true)).sending
            && IsLost(Next(Next(t, EndSend(n, true)), EndSend(1, false)), n)
            && Next(Next(t, EndSend(n, true)), EndSend(1, false)).made == n
  {
    var n := TWO_32 + 1;
    var t := Next(c, BeginSend);
    assert t.pending == map[1 := n];
  }

  // ---------- the source's object ----------

  /** FibpRpcClient and FibpRawClient; futures are known by their numbers, and `results` is what they were given. */
  class Connection<P> {
    var fid: nat
    var futures: map<nat, nat>
    var reading: bool
    var results: map<nat, seq<Outcome<P>>>
    /** How many futures were created; the next one gets the next number. */
    var made: nat
    ghost var sending: set<nat>
    ghost var sent: set<nat>

    ghost function View(): Client<P>
      reads this
    {
      Client(made, futures, reading, sending, sent, results)
    }

    ghost predicate Valid()
      reads this
    {
      Filed(View()) && fid == Id(made)
    }

    constructor ()
      ensures Valid() && View() == NewClient() && Inv(View())
    {
      fid, futures, reading, results, made, sending, sent := 0, map[], false, map[], 0, {}, {};
    }

    /** The first half of send_request: a new id, a new future, and its entry in the table. */
    method BeginSend() returns (id: nat)
      requires Valid()
      modifies this
      ensures Valid() && View() == Next(old(View()), Action.BeginSend) && id == Id(made)
      ensures old(Inv(View()) && !Clash(View())) ==> Inv(View())
    {
      hide Inv, Filed, Clash;
      ghost var c := View();
      FiledStays(c, Action.BeginSend);
      if Inv(c) && !Clash(c) {
        BeginKeeps(c);
      }
      fid := (fid + 1) % TWO_32;
      id := fid;
      made := made + 1;
      futures := futures[id := made];
      results := results[made := []];
      sending := sending + {made};
    }

    /** The second half: a failed send takes the entry back, a successful one makes sure there is a reader. */
    method EndSend(n: nat, id: nat, ok: bool)
      requires Valid() && n in sending && id == Id(n)
      modifies this
      ensures Valid() && View() == Next(old(View()), Action.EndSend(n, ok))
      ensures old(Inv(View())) ==> Inv(View())
    {
      hide Inv, Filed, Id;
      ghost var c := View();
      FiledStays(c, Action.EndSend(n, ok));
      if Inv(c) {
        EndKeeps(c, n, ok);
      }
      sending := sending - {n};
      if !ok {
        futures := futures - {id};
      } else {
        sent := sent + {n};
        if !reading {
          reading := true;
        }
      }
    }

    method SetResponse(msgid: nat, body: P, ok: bool)
      requires Valid() && reading
      modifies this
      ensures Valid() && View() == Next(old(View()), Action.Receive(msgid, body, ok))
      ensures old(Inv(View())) ==> Inv(View())
    {
      hide Inv, Filed, Id;
      ghost var c := View();
      FiledStays(c, Action.Receive(msgid, body, ok));
      if Inv(c) {
        ReceiveKeeps(c, msgid, body, ok);
      }
      if msgid in futures {
        results := Give(results, futures[msgid], Answered(msgid, body, ok));
      } else {
        assert futures - {msgid} == futures;
      }
      futures := futures - {msgid};
    }

    /** Gives the error to every future in the table, then clears it. */
    method SetAllError(error: P)
      requires Valid()
      modifies this`futures, this`results
      ensures futures == map[] && results == GiveAll(old(View()), error)
    {
      hide Id;
      ghost var c := View();
      forall n ensures Served(c, n) <==> n in c.pending.Values {
        ServedIsListed(c, n);
      }
      var todo := futures.Keys;
      while todo != {}
        invariant todo <= futures.Keys && futures == c.pending && results.Keys == c.results.Keys
        invariant forall n :: n in results ==>
                    results[n] == if Served(c, n) && Id(n) !in todo then c.results[n] + [Broken(error)] else c.results[n]
        decreases |todo|
      {
        var id :| id in todo;
        assert Id(futures[id]) == id && futures[id] in results && Served(c, futures[id]);
        results := Give(results, futures[id], Broken(error));
        todo := todo - {id};
      }
      assert results == GiveAll(c, error);
      futures := map[];
    }

    /** The end of handle_read. */
    method EndReading(error: P)
      requires Valid() && reading
      modifies this
      ensures Valid() && View() == Next(old(View()), Action.Fail(error))
      ensures old(Inv(View())) ==> Inv(View())
    {
      hide Inv, Filed;
      ghost var c := View();
      FiledStays(c, Action.Fail(error));
      if Inv(c) {
        FailKeeps(c, error);
      }
      SetAllError(error);
      reading := false;
    }
  }
}

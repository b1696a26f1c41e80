/**
 FibpClientMgr: per host and port a queue of idle HTTP clients, one shared client each for RPC
 and Raw, and a counter of all of them. A call that sends or waits for a response has its HTTP
 client checked out; the steps are what happens between two suspension points.
 */
module ClientPool {
  import opened Options
  import opened FiberOrder

  const MAX_CLIENT_NUM: nat := 100

  /** What is known of one host:port. Clients are numbered; `out` are the checked-out ones. */
  datatype Host = Host(idle: seq<nat>, out: set<nat>, rpc: bool, raw: bool, num: nat)

  const NO_HOST := Host([], {}, false, false, 0)

  /** `made` clients were ever created. */
  datatype Pools<K> = Pools(hosts: map<K, Host>, made: nat)

  function HostOf<K(==)>(p: Pools<K>, k: K): Host { if k in p.hosts then p.hosts[k] else NO_HOST }

  datatype Action<K> =
    | CheckOut(key: K)               // send_request for HTTP, up to the send
    | PutBack(key: K, client: nat)   // a failed send, or the end of get_response
    | UseRpc(key: K)                 // send_request for RPC, up to the send
    | UseRaw(key: K)

  predicate Enabled<K(==)>(p: Pools<K>, a: Action<K>) {
    match a
    case CheckOut(_) => true
    case PutBack(k, c) => c in HostOf(p, k).out
    case UseRpc(_) => true
    case UseRaw(_) => true
  }

  /** The client a call gets; None when there are too many. */
  function Gets<K(==)>(p: Pools<K>, k: K): Option<nat> {
    var h := HostOf(p, k);
    if h.idle != [] then Some(h.idle[0]) else if h.num > MAX_CLIENT_NUM then None else Some(p.made)
  }

  function Next<K(==)>(p: Pools<K>, a: Action<K>): Pools<K>
    requires Enabled(p, a)
  {
    var h := HostOf(p, a.key);
    match a
    case CheckOut(k) =>
      if h.idle != [] then p.(hosts := p.hosts[k := h.(idle := h.idle[1..], out := h.out + {h.idle[0]})])
      else if h.num > MAX_CLIENT_NUM then p
      else Pools(p.hosts[k := h.(out := h.out + {p.made}, num := h.num + 1)], p.made + 1)
    case PutBack(k, c) => p.(hosts := p.hosts[k := h.(idle := h.idle + [c], out := h.out - {c})])
    case UseRpc(k) => if h.rpc then p else Pools(p.hosts[k := h.(rpc := true, num := h.num + 1)], p.made + 1)
    case UseRaw(k) => if h.raw then p else Pools(p.hosts[k := h.(raw := true, num := h.num + 1)], p.made + 1)
  }

  // ---------- the invariant ----------

  function Shared(h: Host): nat { (if h.rpc then 1 else 0) + if h.raw then 1 else 0 }

  /** The counter counts every client once, and the limits hold. */
  ghost predicate HostOk(h: Host, made: nat) {
    && h.num == |h.idle| + |h.out| + Shared(h)
    && |h.idle| + |h.out| <= MAX_CLIENT_NUM + 1
    && NoDup(h.idle)
    && (forall c :: c in h.idle ==> c < made && c !in h.out)
    && (forall c :: c in h.out ==> c < made)
  }

  /** No client belongs to two hosts. */
  ghost predicate Separate<K>(p: Pools<K>) {
    forall j, k :: j in p.hosts && k in p.hosts && j != k ==> Clients(p.hosts[j]) !! Clients(p.hosts[k])
  }

  ghost function Clients(h: Host): set<nat> { h.out + set c | c in h.idle }

  ghost predicate Inv<K>(p: Pools<K>) {
    (forall k :: k in p.hosts ==> HostOk(p.hosts[k], p.made)) && Separate(p)
  }

  lemma NoHostOk(made: nat)
    ensures HostOk(NO_HOST, made) && Clients(NO_HOST) == {}
  {}

  /** One host changes, and gets no client but possibly the next new one. */
  lemma OneHost<K>(p: Pools<K>, k: K, h: Host, made: nat)
    requires Inv(p) && p.made <= made && HostOk(h, made)
    requires forall c :: c in Clients(h) ==> c in Clients(HostOf(p, k)) || c >= p.made
    ensures Inv(Pools(p.hosts[k := h], made))
  {
    hide NoDup;
    var q := Pools(p.hosts[k := h], made);
    forall j | j in q.hosts ensures HostOk(q.hosts[j], made) {
      assert j != k ==> HostOk(p.hosts[j], p.made);
    }
    forall j | j in p.hosts && j != k ensures Clients(p.hosts[j]) !! Clients(h) {
      assert HostOk(p.hosts[j], p.made);
      if k in p.hosts {
        assert Clients(p.hosts[j]) !! Clients(p.hosts[k]);
      }
    }
  }

  lemma HostIsOk<K>(p: Pools<K>, k: K)
    requires Inv(p)
    ensures HostOk(HostOf(p, k), p.made)
  {
    NoHostOk(p.made);
  }

  /** An idle client is checked out. */
  lemma TakeKeeps(h: Host, made: nat)
    requires HostOk(h, made) && h.idle != []
    ensures var t := h.(idle := h.idle[1..], out := h.out + {h.idle[0]});
            HostOk(t, made) && Clients(t) <= Clients(h)
  {
    var first, rest := h.idle[0], h.idle[1..];
    NoDupRemove(h.idle, 0);
    assert h.idle[..0] + h.idle[1..] == rest;
    hide NoDup;
    assert first in h.idle && first !in h.out;
    assert |h.out + {first}| == |h.out| + 1;
    var t := h.(idle := rest, out := h.out + {first});
    forall c | c in t.idle ensures c < made && c !in t.out {
      assert c in h.idle;
    }
    assert t.num == |t.idle| + |t.out| + Shared(t);
    assert HostOk(t, made);
    forall c | c in Clients(t) ensures c in Clients(h) {
      assert c in h.out || c in h.idle;
    }
  }

  /** A new client is checked out. */
  lemma CreateKeeps(h: Host, made: nat)
    requires HostOk(h, made) && h.idle == [] && h.num <= MAX_CLIENT_NUM
    ensures var t := h.(out := h.out + {made}, num := h.num + 1);
            HostOk(t, made + 1) && Clients(t) <= Clients(h) + {made}
  {}

  lemma CheckOutKeeps<K>(p: Pools<K>, k: K)
    requires Inv(p)
    ensures Inv(Next(p, CheckOut(k)))
  {
    hide HostOk, Clients, Separate;
    HostIsOk(p, k);
    var h := HostOf(p, k);
    if h.idle != [] {
      TakeKeeps(h, p.made);
      OneHost(p, k, h.(idle := h.idle[1..], out := h.out + {h.idle[0]}), p.made);
    } else if h.num <= MAX_CLIENT_NUM {
      CreateKeeps(h, p.made);
      OneHost(p, k, h.(out := h.out + {p.made}, num := h.num + 1), p.made + 1);
    }
  }

  lemma PutBackKeeps<K>(p: Pools<K>, k: K, c: nat)
    requires Inv(p) && c in HostOf(p, k).out
    ensures Inv(Next(p, PutBack(k, c)))
  {
    hide NoDup;
    HostIsOk(p, k);
    var h := HostOf(p, k);
    NoDupInsert(h.idle, |h.idle|, c);
    assert Insert(h.idle, |h.idle|, c) == h.idle + [c];
    OneHost(p, k, h.(idle := h.idle + [c], out := h.out - {c}), p.made);
  }

  /** A shared client is created. */
  lemma ShareKeeps(h: Host, t: Host, made: nat)
    requires HostOk(h, made) && t.idle == h.idle && t.out == h.out && t.num == h.num + 1 && Shared(t) == Shared(h) + 1
    ensures HostOk(t, made + 1) && Clients(t) == Clients(h)
  {
    hide NoDup;
  }

  lemma StepKeeps<K>(p: Pools<K>, a: Action<K>)
    requires Inv(p) && Enabled(p, a)
    ensures Inv(Next(p, a))
  {
    hide Inv, HostOk, Clients;
    var h := HostOf(p, a.key);
    HostIsOk(p, a.key);
    match a {
      case CheckOut(k) => CheckOutKeeps(p, k);
      case PutBack(k, c) => PutBackKeeps(p, k, c);
      case UseRpc(k) =>
        if !h.rpc {
          var t := h.(rpc := true, num := h.num + 1);
          ShareKeeps(h, t, p.made);
          OneHost(p, k, t, p.made + 1);
        }
      case UseRaw(k) =>
        if !h.raw {
          var t := h.(raw := true, num := h.num + 1);
          ShareKeeps(h, t, p.made);
          OneHost(p, k, t, p.made + 1);
        }
    }
  }

  ghost predicate IsRun<K>(states: seq<Pools<K>>, acts: seq<Action<K>>) {
    && |states| == |acts| + 1 && states[0] == Pools(map[], 0)
    && forall i :: 0 <= i < |acts| ==> Enabled(states[i], acts[i]) && states[i + 1] == Next(states[i], acts[i])
  }

  /**
   In every run and for every host:port: the counter equals the idle and checked-out HTTP clients
   plus the shared ones, no client is idle twice or idle while checked out, there are at most 101
   HTTP clients and at most 103 clients in all.
   */
  lemma {:induction false} PoolConserves<K>(states: seq<Pools<K>>, acts: seq<Action<K>>, i: nat, k: K)
    requires IsRun(states, acts) && i <= |acts|
    ensures Inv(states[i])
    ensures var h := HostOf(states[i], k);
            && h.num == |h.idle| + |h.out| + Shared(h) && h.num <= 103
            && NoDup(h.idle) && (forall c :: c in h.idle ==> c !in h.out)
            && |h.idle| + |h.out| <= 101
  {
    hide Next;
    if i > 0 {
      PoolConserves(states, acts, i - 1, k);
      assert Enabled(states[i - 1], acts[i - 1]) && states[i - 1 + 1] == Next(states[i - 1], acts[i - 1]);
      StepKeeps(states[i - 1], acts[i - 1]);
    }
    HostIsOk(states[i], k);
  }

  // ---------- the source's object ----------

  class ClientManager<K(==, !new)> {
    /** http_client_pool_list_, client_pool_list_ and client_num_. */
    var idle: map<K, seq<nat>>
    var rpc: set<K>
    var raw: set<K>
    var num: map<K, nat>
    var made: nat
    ghost var out: map<K, set<nat>>
    ghost var pools: Pools<K>

    ghost function At(k: K): Host
      reads this
    {
      Host(
        if k in idle then idle[k] else [], if k in out then out[k] else {}, k in rpc, k in raw,
        if k in num then num[k] else 0)
    }

    ghost predicate Valid()
      reads this
    {
      Inv(pools) && made == pools.made && forall k :: At(k) == HostOf(pools, k)
    }

    constructor ()
      ensures Valid() && pools == Pools(map[], 0)
    {
      idle, rpc, raw, num, made, out, pools := map[], {}, {}, map[], 0, map[], Pools(map[], 0);
    }

    /** The HTTP send_request, up to the send. */
    method CheckOut(k: K) returns (client: Option<nat>)
      requires Valid()
      modifies this
      ensures Valid() && pools == Next(old(pools), Action.CheckOut(k)) && client == Gets(old(pools), k)
    {
      hide Inv;
      CheckOutKeeps(pools, k);
      ghost var h := At(k);
      assert h == HostOf(pools, k);
      pools := Next(pools, Action.CheckOut(k));
      if k in idle && idle[k] != [] {
        client := Some(idle[k][0]);
        idle := idle[k := idle[k][1..]];
      } else {
        if k in num && num[k] > MAX_CLIENT_NUM {
          assert pools == old(pools);
          return None;
        }
        client := Some(made);
        made := made + 1;
        num := num[k := (if k in num then num[k] else 0) + 1];
      }
      out := out[k := h.out + {client.value}];
      forall j ensures At(j) == HostOf(pools, j) {
        assert old(At(j)) == HostOf(old(pools), j);
      }
    }

    /** A client goes back to the end of its queue. */
    method PutBack(k: K, client: nat)
      requires Valid() && client in At(k).out
      modifies this
      ensures Valid() && Enabled(old(pools), Action.PutBack(k, client))
                && pools == Next(old(pools), Action.PutBack(k, client))
    {
      hide Inv;
      PutBackKeeps(pools, k, client);
      ghost var h := At(k);
      pools := Next(pools, Action.PutBack(k, client));
      idle := idle[k := (if k in idle then idle[k] else []) + [client]];
      out := out[k := h.out - {client}];
      forall j ensures At(j) == HostOf(pools, j) {
        assert old(At(j)) == HostOf(old(pools), j);
      }
    }

    /** The RPC send_request, up to the send: the one client of the host is created at its first use. */
    method UseRpc(k: K)
      requires Valid()
      modifies this
      ensures Valid() && pools == Next(old(pools), Action.UseRpc(k))
    {
      hide Inv;
      StepKeeps(pools, Action.UseRpc(k));
      assert At(k) == HostOf(pools, k);
      pools := Next(pools, Action.UseRpc(k));
      if k !in rpc {
        num := num[k := (if k in num then num[k] else 0) + 1];
        made := made + 1;
        rpc := rpc + {k};
      }
      forall j ensures At(j) == HostOf(pools, j) {
        assert old(At(j)) == HostOf(old(pools), j);
      }
    }

    method UseRaw(k: K)
      requires Valid()
      modifies this
      ensures Valid() && pools == Next(old(pools), Action.UseRaw(k))
    {
      hide Inv;
      StepKeeps(pools, Action.UseRaw(k));
      assert At(k) == HostOf(pools, k);
      pools := Next(pools, Action.UseRaw(k));
      if k !in raw {
        num := num[k := (if k in num then num[k] else 0) + 1];
        made := made + 1;
        raw := raw + {k};
      }
      forall j ensures At(j) == HostOf(pools, j) {
        assert old(At(j)) == HostOf(old(pools), j);
      }
    }
  }
}

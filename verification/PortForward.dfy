/**
 Port forwarding: one iteration of watchPortForwardChangeFunc brings the running forwards in
 line with a listing of forward keys, and leaves what a computation from scratch would give.
 The port numbers come from the operating system and are given.
 */
module PortForward {
  import opened Options

  const AGENT_ID_LEN: nat := 10

  datatype ServiceType = Http | Rpc | Raw | Custom

  datatype Service = Service(name: string, kind: ServiceType)

  function Digit(k: ServiceType): char {
    match k
    case Http => '0' case Rpc => '1' case Raw => '2' case Custom => '3'
  }

  /** service_uniquestr: the name and the number of the type. */
  function UniqueStr(s: Service): string { s.name + [Digit(s.kind)] }

  lemma UniqueStrIsUnique(s: Service, t: Service)
    ensures UniqueStr(s) == UniqueStr(t) ==> s == t
  {
    var a, b := UniqueStr(s), UniqueStr(t);
    if a == b {
      assert a[|a| - 1] == Digit(s.kind) && b[|b| - 1] == Digit(t.kind);
      assert s.name == a[..|a| - 1] && t.name == b[..|b| - 1];
    }
  }

  // ---------- FibpPortForwardMgr ----------

  class ForwardTable {
    /** The ports with a running server, and the service each port forwards to. */
    var servers: set<nat>
    var services: map<nat, Service>

    constructor ()
      ensures servers == {} && services == map[]
    {
      servers, services := {}, map[];
    }

    /** startPortForward and updateForwardService; `port` is the one the system has bound. */
    method Start(port: nat, s: Service)
      modifies this
      ensures servers == old(servers) + {port} && services == old(services)[port := s]
    {
      servers := servers + {port};
      services := services[port := s];
    }

    method Stop(port: nat)
      modifies this
      ensures servers == old(servers) - {port}
      ensures services == if port in old(servers) then old(services) - {port} else old(services)
    {
      if port !in servers {
        return;
      }
      servers := servers - {port};
      services := services - {port};
    }

    /** getForwardService. */
    method Get(port: nat) returns (s: Option<Service>)
      ensures s == if port in services then Some(services[port]) else None
    {
      s := if port in services then Some(services[port]) else None;
    }
  }

  // ---------- what a listing asks for ----------

  /** The service of a forward key: the one known from before, or the one the registry gives. */
  function Resolve(key: string, known: map<string, Service>, info: string -> Option<Service>): Option<Service> {
    if |key| <= AGENT_ID_LEN then None else if key in known then Some(known[key]) else info(key)
  }

  /** From scratch: the agents that ask for the service `u` in the first `n` keys. */
  ghost function Users(keys: seq<string>, n: nat, known: map<string, Service>, info: string -> Option<Service>,
                       u: string): set<string>
    requires n <= |keys|
  {
    set i | 0 <= i < n && Wants(keys[i], known, info, u) :: keys[i][..AGENT_ID_LEN]
  }

  predicate Wants(key: string, known: map<string, Service>, info: string -> Option<Service>, u: string)
    ensures Wants(key, known, info, u) ==> |key| > AGENT_ID_LEN
  {
    var s := Resolve(key, known, info);
    s.Some? && UniqueStr(s.value) == u
  }

  lemma UsersMore(keys: seq<string>, n: nat, known: map<string, Service>, info: string -> Option<Service>, u: string)
    requires n < |keys|
    ensures Users(keys, n + 1, known, info, u)
         == Users(keys, n, known, info, u) + if Wants(keys[n], known, info, u) then {keys[n][..AGENT_ID_LEN]} else {}
  {
    hide Wants;
  }

  /** One more key: its agent is added to the users of its service and to no others. */
  lemma UsersWith(keys: seq<string>, n: nat, known: map<string, Service>, info: string -> Option<Service>, s: Service)
    requires n < |keys| && Resolve(keys[n], known, info) == Some(s)
    ensures |keys[n]| > AGENT_ID_LEN
    ensures forall v :: Users(keys, n + 1, known, info, v)
                     == Users(keys, n, known, info, v) + if v == UniqueStr(s) then {keys[n][..AGENT_ID_LEN]} else {}
  {
    hide Users, UniqueStr;
    forall v ensures Users(keys, n + 1, known, info, v)
                  == Users(keys, n, known, info, v) + if v == UniqueStr(s) then {keys[n][..AGENT_ID_LEN]} else {} {
      UsersMore(keys, n, known, info, v);
    }
  }

  lemma UsersWithout(keys: seq<string>, n: nat, known: map<string, Service>, info: string -> Option<Service>)
    requires n < |keys| && Resolve(keys[n], known, info).None?
    ensures forall v :: Users(keys, n + 1, known, info, v) == Users(keys, n, known, info, v)
  {
    hide Users, UniqueStr;
    forall v ensures Users(keys, n + 1, known, info, v) == Users(keys, n, known, info, v) {
      UsersMore(keys, n, known, info, v);
    }
  }

  /** Every port's users are exactly those of the first `n` keys, and every service asked for has a port. */
  ghost predicate Tallied(ports: map<string, nat>, agents: map<nat, set<string>>,
                          keys: seq<string>, n: nat, known: map<string, Service>, info: string -> Option<Service>)
    requires n <= |keys|
  {
    && (forall u :: u in ports ==> ports[u] in agents && agents[ports[u]] == Users(keys, n, known, info, u))
    && (forall u :: Users(keys, n, known, info, u) != {} ==> u in ports)
  }

  lemma TalliedOld(ports: map<string, nat>, services: map<nat, Service>, agents: map<nat, set<string>>,
                   keys: seq<string>, n: nat, known: map<string, Service>, info: string -> Option<Service>, s: Service)
    requires n < |keys| && Tallied(ports, agents, keys, n, known, info) && Match(ports, services)
    requires Resolve(keys[n], known, info) == Some(s) && UniqueStr(s) in ports
    ensures |keys[n]| > AGENT_ID_LEN && ports[UniqueStr(s)] in agents
    ensures var p := ports[UniqueStr(s)];
            Tallied(ports, agents[p := agents[p] + {keys[n][..AGENT_ID_LEN]}], keys, n + 1, known, info)
  {
    hide Users, UniqueStr, Match, Resolve;
    UsersWith(keys, n, known, info, s);
    forall v | v in ports && v != UniqueStr(s) ensures ports[v] != ports[UniqueStr(s)] {
      PortsAreDistinct(ports, services, UniqueStr(s), v);
    }
  }

  lemma TalliedNew(ports: map<string, nat>, services: map<nat, Service>, agents: map<nat, set<string>>, p: nat,
                   keys: seq<string>, n: nat, known: map<string, Service>, info: string -> Option<Service>, s: Service)
    requires n < |keys| && Tallied(ports, agents, keys, n, known, info) && Match(ports, services)
    requires Resolve(keys[n], known, info) == Some(s) && UniqueStr(s) !in ports && p !in services
    ensures |keys[n]| > AGENT_ID_LEN
    ensures Tallied(ports[UniqueStr(s) := p], agents[p := {keys[n][..AGENT_ID_LEN]}], keys, n + 1, known, info)
  {
    hide Users, UniqueStr, Match, Resolve;
    UsersWith(keys, n, known, info, s);
    MatchMore(ports, services, p, s);
  }

  // ---------- the reconciler ----------

  /** Services and ports correspond one to one. */
  ghost predicate Match(ports: map<string, nat>, services: map<nat, Service>) {
    && (forall u :: u in ports ==> ports[u] in services && UniqueStr(services[ports[u]]) == u)
    && (forall p :: p in services ==> UniqueStr(services[p]) in ports && ports[UniqueStr(services[p])] == p)
  }

  lemma MatchMore(ports: map<string, nat>, services: map<nat, Service>, p: nat, s: Service)
    requires Match(ports, services) && p !in services && UniqueStr(s) !in ports
    ensures Match(ports[UniqueStr(s) := p], services[p := s])
    ensures forall u :: u in ports ==> ports[u] != p && ports[u] in services
  {
    hide UniqueStr;
  }

  lemma MatchLess(ports: map<string, nat>, services: map<nat, Service>, p: nat)
    requires Match(ports, services) && p in services
    ensures UniqueStr(services[p]) in ports && ports[UniqueStr(services[p])] == p
    ensures Match(ports - {UniqueStr(services[p])}, services - {p})
    ensures forall u :: u in ports && u != UniqueStr(services[p]) ==> ports[u] != p
  {
    hide UniqueStr;
  }

  /** No two services share a port. */
  lemma PortsAreDistinct(ports: map<string, nat>, services: map<nat, Service>, u: string, v: string)
    requires Match(ports, services) && u in ports && v in ports && u != v
    ensures ports[u] != ports[v] && ports[u] in services
  {}

  /** The ports noted for an agent. */
  function UsedBy(m: map<string, set<nat>>, a: string): set<nat> { if a in m then m[a] else {} }

  /** The ports an agent uses. */
  function PortsOf(agents: map<nat, set<string>>, a: string): set<nat> { set p | p in agents && a in agents[p] }

  class Reconciler {
    var servicePort: map<string, nat>
    var lastPorts: map<nat, set<string>>
    var known: map<string, Service>
    /** ports_used_by_agent_: the ports each agent has been seen to use. */
    var usedBy: map<string, set<nat>>
    const table: ForwardTable

    /** Services and ports correspond one to one, and the tables agree on which ports are in use. */
    ghost predicate Agree()
      reads this, table
    {
      Match(servicePort, table.services) && table.servers == table.services.Keys == lastPorts.Keys
    }

    constructor ()
      ensures Agree() && servicePort == map[] && known == map[] && usedBy == map[] && fresh(table)
    {
      servicePort, lastPorts, known, usedBy := map[], map[], map[], map[];
      table := new ForwardTable();
    }

    /** All agents are forgotten before the listing is gone through. */
    method ClearAgents()
      requires Agree()
      modifies this`lastPorts
      ensures Agree() && forall p :: p in lastPorts ==> lastPorts[p] == {}
    {
      lastPorts := map p | p in lastPorts :: {};
    }

    /**
     One key of the listing: its agent joins the users of its service, for which a forward is started if
     there is none.
     */
    method HandleKey(ghost keys: seq<string>, ghost n: nat, key: string, s: Service, port: nat,
                     ghost before: map<string, Service>, ghost info: string -> Option<Service>)
      requires Agree() && n < |keys| && key == keys[n] && Tallied(servicePort, lastPorts, keys, n, before, info)
      requires Resolve(key, before, info) == Some(s) && port !in table.servers
      modifies this`servicePort, this`lastPorts, table
      ensures Agree() && Tallied(servicePort, lastPorts, keys, n + 1, before, info)
      ensures table.servers <= old(table.servers) + {port}
      ensures forall u :: u in old(servicePort) ==> u in servicePort && servicePort[u] == old(servicePort)[u]
    {
      hide Tallied, UniqueStr, Match, Resolve;
      var u := UniqueStr(s);
      if u in servicePort {
        TalliedOld(servicePort, table.services, lastPorts, keys, n, before, info, s);
        var agent := key[..AGENT_ID_LEN];
        lastPorts := lastPorts[servicePort[u] := lastPorts[servicePort[u]] + {agent}];
        return;
      }
      TalliedNew(servicePort, table.services, lastPorts, port, keys, n, before, info, s);
      MatchMore(servicePort, table.services, port, s);
      table.Start(port, s);
      servicePort := servicePort[u := port];
      lastPorts := lastPorts[port := {key[..AGENT_ID_LEN]}];
    }

    /** Stops the forwards that nobody uses any more. */
    method Sweep()
      requires Agree()
      modifies this`servicePort, this`lastPorts, table
      ensures Agree()
      ensures forall u :: u in servicePort <==> u in old(servicePort) && old(lastPorts)[old(servicePort)[u]] != {}
      ensures forall u :: u in servicePort ==>
                && servicePort[u] == old(servicePort)[u] && servicePort[u] in lastPorts
                && lastPorts[servicePort[u]] == old(lastPorts)[servicePort[u]]
    {
      hide UniqueStr, Match;
      var todo := lastPorts.Keys;
      var removed: set<nat> := {};
      ghost var ports, agents := servicePort, lastPorts;
      forall u | u in ports ensures ports[u] in agents { OwnPort(ports, table.services, u); }
      while todo != {}
        invariant todo <= agents.Keys && removed <= agents.Keys && removed !! todo && lastPorts == agents
        invariant forall p :: p in agents && p !in todo ==> (p in removed <==> agents[p] == {})
        invariant table.servers == table.services.Keys == agents.Keys - removed
        invariant Match(servicePort, table.services)
        invariant forall u :: u in servicePort <==> u in ports && ports[u] !in removed
        invariant forall u :: u in servicePort ==> servicePort[u] == ports[u]
        decreases |todo|
      {
        var p :| p in todo;
        todo := todo - {p};
        if lastPorts[p] == {} {
          MatchLess(servicePort, table.services, p);
          var info := table.Get(p);
          if info.Some? {
            servicePort := servicePort - {UniqueStr(info.value)};
          }
          table.Stop(p);
          removed := removed + {p};
        }
      }
      lastPorts := lastPorts - removed;
    }

    /** Notes port `p` for its agents. */
    method NotePort(p: nat)
      requires p in lastPorts
      modifies this`usedBy
      ensures forall a, q :: q in UsedBy(usedBy, a) <==> q in UsedBy(old(usedBy), a) || (q == p && a in lastPorts[p])
    {
      var agents := lastPorts[p];
      while agents != {}
        invariant agents <= lastPorts[p]
        invariant forall a, q :: q in UsedBy(usedBy, a)
                            <==> q in UsedBy(old(usedBy), a) || (q == p && a in lastPorts[p] && a !in agents)
        decreases |agents|
      {
        var agent :| agent in agents;
        usedBy := usedBy[agent := UsedBy(usedBy, agent) + {p}];
        agents := agents - {agent};
      }
    }

    /** Notes for every agent the ports it uses now. Nothing is ever taken back. */
    method NoteUsers()
      modifies this`usedBy
      ensures forall a :: UsedBy(usedBy, a) == UsedBy(old(usedBy), a) + PortsOf(lastPorts, a)
    {
      hide UsedBy;
      var todo := lastPorts.Keys;
      while todo != {}
        invariant todo <= lastPorts.Keys
        invariant forall a, q :: q in UsedBy(usedBy, a)
                            <==> q in UsedBy(old(usedBy), a) || (q in lastPorts && q !in todo && a in lastPorts[q])
        decreases |todo|
      {
        var p :| p in todo;
        NotePort(p);
        todo := todo - {p};
      }
      forall a ensures UsedBy(usedBy, a) == UsedBy(old(usedBy), a) + PortsOf(lastPorts, a) {
        forall q ensures q in UsedBy(usedBy, a) <==> q in UsedBy(old(usedBy), a) + PortsOf(lastPorts, a) {}
      }
    }

    /**
     One iteration on a listing, `ports` being those the system would bind. After a listing that is
     not empty, the services with a forward are exactly those some key resolves to, a service that
     had a forward before keeps its port, and the users of each port are exactly the agents of those
     keys; every agent is noted as a user of its ports, now and for ever. An empty listing changes
     no forward.
     */
    method Iterate(keys: seq<string>, info: string -> Option<Service>, ports: seq<nat>)
      requires Agree() && |ports| == |keys|
      requires forall i :: 0 <= i < |ports| ==>
                 ports[i] !in table.servers && forall j :: 0 <= j < i ==> ports[i] != ports[j]
      modifies this, table
      ensures Agree()
      ensures keys == [] ==>
                servicePort == old(servicePort) && lastPorts == old(lastPorts) && known == map[] && usedBy == old(usedBy)
      ensures keys != [] ==> forall u :: u in old(servicePort) && u in servicePort ==> servicePort[u] == old(servicePort)[u]
      ensures keys != [] ==> forall a :: UsedBy(usedBy, a) == UsedBy(old(usedBy), a) + PortsOf(lastPorts, a)
      ensures keys != [] ==>
                && (forall u :: u in servicePort <==> Users(keys, |keys|, old(known), info, u) != {})
                && (forall u :: u in servicePort ==>
                      servicePort[u] in lastPorts && lastPorts[servicePort[u]] == Users(keys, |keys|, old(known), info, u))
                && (forall key :: key in known <==> key in keys && Resolve(key, old(known), info).Some?)
                && (forall key :: key in known ==> Resolve(key, old(known), info) == Some(known[key]))
    {
      hide Tallied, UniqueStr, Match, Resolve, Users, UsedBy, PortsOf;
      if keys == [] {
        known := map[];
        return;
      }
      ghost var before := known;
      ClearAgents();
      NoneTallied(servicePort, table.services, lastPorts, keys, before, info);
      var newKeys: map<string, Service> := map[];
      for i := 0 to |keys|
        invariant Agree() && Tallied(servicePort, lastPorts, keys, i, before, info) && known == before
        invariant forall j :: i <= j < |ports| ==> ports[j] !in table.servers
        invariant forall u :: u in old(servicePort) ==> u in servicePort && servicePort[u] == old(servicePort)[u]
        invariant usedBy == old(usedBy)
        invariant forall key :: key in newKeys <==> key in keys[..i] && Resolve(key, before, info).Some?
        invariant forall key :: key in newKeys ==> Resolve(key, before, info) == Some(newKeys[key])
      {
        var key := keys[i];
        assert keys[..i + 1] == keys[..i] + [key];
        var s := Resolve(key, known, info);
        if s.None? {
          SkipTallied(servicePort, lastPorts, keys, i, before, info);
          continue;
        }
        newKeys := newKeys[key := s.value];
        HandleKey(keys, i, key, s.value, ports[i], before, info);
      }
      assert keys[..|keys|] == keys;
      known := newKeys;
      ghost var all, agents := servicePort, lastPorts;
      Sweep();
      SweptTally(all, agents, servicePort, lastPorts, keys, before, info);
      NoteUsers();
    }
  }

  lemma NoneTallied(ports: map<string, nat>, services: map<nat, Service>, agents: map<nat, set<string>>,
                    keys: seq<string>, known: map<string, Service>, info: string -> Option<Service>)
    requires Match(ports, services) && agents.Keys == services.Keys && forall p :: p in agents ==> agents[p] == {}
    ensures Tallied(ports, agents, keys, 0, known, info)
  {
    hide UniqueStr, Wants;
  }

  lemma SkipTallied(ports: map<string, nat>, agents: map<nat, set<string>>,
                    keys: seq<string>, n: nat, known: map<string, Service>, info: string -> Option<Service>)
    requires n < |keys| && Tallied(ports, agents, keys, n, known, info) && Resolve(keys[n], known, info).None?
    ensures Tallied(ports, agents, keys, n + 1, known, info)
  {
    hide Users, Resolve;
    UsersWithout(keys, n, known, info);
  }

  lemma SweptTally(all: map<string, nat>, agents: map<nat, set<string>>,
                   ports: map<string, nat>, rest: map<nat, set<string>>,
                   keys: seq<string>, known: map<string, Service>, info: string -> Option<Service>)
    requires Tallied(all, agents, keys, |keys|, known, info)
    requires forall u :: u in ports <==> u in all && agents[all[u]] != {}
    requires forall u :: u in ports ==> ports[u] == all[u] && ports[u] in rest && rest[ports[u]] == agents[ports[u]]
    ensures forall u :: u in ports <==> Users(keys, |keys|, known, info, u) != {}
    ensures forall u :: u in ports ==> rest[ports[u]] == Users(keys, |keys|, known, info, u)
  {
    hide Users;
  }

  /** After an iteration the forwarded services are exactly the services that the keys resolve to. */
  lemma LiveForwards(ports: map<string, nat>, services: map<nat, Service>,
                     keys: seq<string>, known: map<string, Service>, info: string -> Option<Service>, s: Service)
    requires Match(ports, services)
    requires forall u :: u in ports <==> Users(keys, |keys|, known, info, u) != {}
    ensures (exists p :: p in services && services[p] == s)
       <==> (exists i :: 0 <= i < |keys| && Resolve(keys[i], known, info) == Some(s))
  {
    hide Resolve, UniqueStr;
    var u := UniqueStr(s);
    if p :| p in services && services[p] == s {
      var agent :| agent in Users(keys, |keys|, known, info, u);
      var i :| 0 <= i < |keys| && Wants(keys[i], known, info, u) && keys[i][..AGENT_ID_LEN] == agent;
      UniqueStrIsUnique(s, Resolve(keys[i], known, info).value);
    }
    if i :| 0 <= i < |keys| && Resolve(keys[i], known, info) == Some(s) {
      assert Wants(keys[i], known, info, u);
      assert keys[i][..AGENT_ID_LEN] in Users(keys, |keys|, known, info, u);
      UniqueStrIsUnique(s, services[ports[u]]);
    }
  }

  lemma OwnPort(ports: map<string, nat>, services: map<nat, Service>, u: string)
    requires Match(ports, services) && u in ports
    ensures ports[u] in services && UniqueStr(services[ports[u]]) == u
  {}
}

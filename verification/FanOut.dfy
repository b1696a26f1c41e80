/**
 call_single_service and call_services_in_fiber: a call with retries, the join of many calls
 made by fibers of their own, and the decision to confirm or cancel a transaction. What the
 network does is given: one outcome for each attempt that could be made.
 */
module FanOut {
  import opened Options
  import opened FiberOrder

  const MAX_RETRY: nat := 3

  /** What one attempt meets: no address, a send that fails, or an answer. */
  datatype Attempt =
    | NoAddress
    | NotSent(host: string, port: string)
    | Answer(host: string, port: string, ok: bool, canRetry: bool, data: string)

  datatype Request = Request(name: string, http: bool, cacheable: bool)

  datatype Response = Response(name: string, body: string, error: string, cached: bool, host: string, port: string)

  const NO_RESPONSE := Response("", "", "", false, "", "")

  const LOCAL_TEST := "local_test"

  // ---------- one call ----------

  /** The attempt after which no other is made. */
  predicate Final(a: Attempt, k: nat) {
    match a
    case NoAddress => true
    case NotSent(_, _) => k + 1 >= MAX_RETRY
    case Answer(_, _, ok, canRetry, _) => ok || !canRetry || k + 1 >= MAX_RETRY
  }

  predicate Succeeds(a: Attempt) { a.Answer? && a.ok }

  /** The first final attempt from attempt `k` on. */
  function LastAttempt(env: seq<Attempt>, k: nat): (r: nat)
    requires |env| == MAX_RETRY && k < MAX_RETRY
    ensures k <= r < MAX_RETRY && Final(env[r], r) && forall i :: k <= i < r ==> !Final(env[i], i)
    decreases MAX_RETRY - k
  {
    if Final(env[k], k) then k else LastAttempt(env, k + 1)
  }

  /** A call succeeds if some attempt does and each one before it failed in a way that allows another. */
  ghost predicate CallSucceeds(req: Request, env: seq<Attempt>)
    requires |env| == MAX_RETRY
  {
    || req.name == LOCAL_TEST
    || exists i :: 0 <= i < MAX_RETRY && Succeeds(env[i]) && forall j :: 0 <= j < i ==> !Final(env[j], j)
  }

  function FailureText(a: Attempt): (s: string)
    ensures s != ""
  {
    match a
    case NoAddress => "Service Not Found."
    case NotSent(_, _) => "Send Service Request Failed. "
    case Answer(_, _, _, _, data) => "Get Service Response Failed. " + data
  }

  lemma LastDecides(req: Request, env: seq<Attempt>)
    requires |env| == MAX_RETRY && req.name != LOCAL_TEST
    ensures CallSucceeds(req, env) <==> Succeeds(env[LastAttempt(env, 0)])
  {
    var r := LastAttempt(env, 0);
    if CallSucceeds(req, env) {
      var i :| 0 <= i < MAX_RETRY && Succeeds(env[i]) && forall j :: 0 <= j < i ==> !Final(env[j], j);
      assert Final(env[i], i);
      assert i == r;
    }
  }

  /**
   call_single_service. At most three attempts are made; before the cache is asked, the error is
   empty exactly when the call succeeded and the response came in without one.
   */
  method CallSingle(req: Request, before: Response, env: seq<Attempt>, cache: Option<Response>)
    returns (rsp: Response, attempts: nat, ghost answered: Response)
    requires |env| == MAX_RETRY
    ensures attempts <= MAX_RETRY && (req.name == LOCAL_TEST <==> attempts == 0)
    ensures answered.error == "" <==> CallSucceeds(req, env) && before.error == ""
    ensures answered.name == req.name
    ensures !CallSucceeds(req, env) ==>
              attempts == LastAttempt(env, 0) + 1 && answered.error == FailureText(env[attempts - 1])
    ensures CallSucceeds(req, env) && req.name != LOCAL_TEST ==>
              && attempts == LastAttempt(env, 0) + 1 && env[attempts - 1].Answer?
              && answered.body == env[attempts - 1].data
              && answered.host == env[attempts - 1].host && answered.port == env[attempts - 1].port
    ensures CallSucceeds(req, env) || !req.cacheable || cache.None? ==> rsp == answered
    ensures !CallSucceeds(req, env) && req.cacheable && cache.Some? ==> rsp == cache.value.(cached := true)
  {
    rsp := before.(name := req.name);
    attempts := 0;
    if req.name == LOCAL_TEST {
      rsp := rsp.(body := LOCAL_TEST);
      answered := rsp;
      return;
    }
    LastDecides(req, env);
    var isSuccess := false;
    var counter := 0;
    while counter < MAX_RETRY
      invariant counter <= MAX_RETRY && attempts == counter && !isSuccess
      invariant counter < MAX_RETRY ==> LastAttempt(env, 0) == LastAttempt(env, counter)
      invariant counter < MAX_RETRY ==> rsp.error == before.error
      invariant counter == MAX_RETRY ==> LastAttempt(env, 0) == MAX_RETRY - 1 && !Succeeds(env[MAX_RETRY - 1])
                                         && rsp.error == FailureText(env[MAX_RETRY - 1])
      invariant rsp.name == req.name
    {
      var a := env[counter];
      counter := counter + 1;
      attempts := counter;
      if a.NoAddress? {
        rsp := rsp.(error := FailureText(a));
        break;
      }
      rsp := rsp.(host := a.host, port := a.port);
      if a.NotSent? {
        if counter == MAX_RETRY {
          rsp := rsp.(error := FailureText(a));
        }
        continue;
      }
      if !a.ok {
        if !a.canRetry || counter == MAX_RETRY {
          rsp := rsp.(error := FailureText(a));
          break;
        }
      } else {
        rsp := rsp.(body := a.data);
        isSuccess := true;
        break;
      }
    }
    answered := rsp;
    if !isSuccess && req.cacheable && cache.Some? {
      rsp := cache.value.(cached := true);
    }
  }

  // ---------- the join ----------

  /** Where the fiber that made the calls is: scheduling them, about to look at the counter, suspended, or past the loop. */
  datatype Parent = Scheduling(next: nat) | Looking | Suspended | Done

  /** `callNum` is the counter on the parent's stack; `running` are the children that have not finished. */
  datatype Join = Join(
    total: nat, callNum: int, running: set<nat>, rsps: map<nat, Response>, parent: Parent, callbacks: nat)

  function StartJoin(total: nat): Join { Join(total, total, {}, map[], if total == 0 then Looking else Scheduling(0), 0) }

  datatype Action =
    | ScheduleChild                        // one turn of the scheduling loop
    | FinishChild(i: nat, rsp: Response)   // the end of a child, with its notification
    | Look                                 // the parent looks at the counter

  predicate Enabled(j: Join, a: Action) {
    match a
    case ScheduleChild => j.parent.Scheduling? && j.parent.next < j.total
    case FinishChild(i, _) => i in j.running
    case Look => j.parent.Looking?
  }

  function Next(j: Join, a: Action): Join
    requires Enabled(j, a)
  {
    match a
    case ScheduleChild =>
      var i := j.parent.next;
      j.(running := j.running + {i}, parent := if i + 1 == j.total then Looking else Scheduling(i + 1))
    case FinishChild(i, rsp) =>
      j.(running := j.running - {i}, rsps := j.rsps[i := rsp], callNum := j.callNum - 1,
      parent := if j.callNum == 1 && j.parent.Suspended? then Looking else j.parent)
    case Look => if j.callNum > 0 then j.(parent := Suspended) else j.(parent := Done, callbacks := j.callbacks + 1)
  }

  /** How many children have been scheduled. */
  function Scheduled(j: Join): nat { if j.parent.Scheduling? then j.parent.next else j.total }

  ghost predicate JoinInv(j: Join) {
    && Scheduled(j) <= j.total && (j.parent.Scheduling? ==> j.parent.next < j.total)
    && (forall i :: i in j.running || i in j.rsps ==> i < Scheduled(j))
    && (forall i: nat :: i < Scheduled(j) ==> i in j.running || i in j.rsps)
    && (forall i :: i in j.running ==> i !in j.rsps)
    && j.callNum == j.total - |j.rsps.Keys|
    && (j.parent.Suspended? ==> j.callNum > 0)
    && j.callbacks == (if j.parent.Done? then 1 else 0)
    && (j.parent.Done? ==> j.callNum == 0)
  }

  function Below(n: nat): (r: set<nat>)
    ensures |r| == n && forall i: nat :: i in r <==> i < n
  {
    if n == 0 then {} else Below(n - 1) + {n - 1}
  }

  /** The counter is zero exactly when every child has been scheduled and has finished. */
  lemma ZeroMeansAll(j: Join)
    requires JoinInv(j)
    ensures j.callNum == 0 <==> Scheduled(j) == j.total && j.running == {}
    ensures j.callNum >= 0
    ensures j.callNum == 0 ==> forall i: nat :: i < j.total ==> i in j.rsps
  {
    hide Below;
    assert j.rsps.Keys <= Below(j.total);
    SubsetSize(j.rsps.Keys, Below(j.total));
    assert j.total > 0 ==> j.total - 1 in Below(j.total);
    if j.callNum == 0 {
      SameSize(j.rsps.Keys, Below(j.total));
    }
    if Scheduled(j) == j.total && j.running == {} {
      assert j.rsps.Keys == Below(j.total);
    }
  }

  lemma JoinStepKeeps(j: Join, a: Action)
    requires JoinInv(j) && Enabled(j, a)
    ensures JoinInv(Next(j, a))
  {
    ZeroMeansAll(j);
    if a.FinishChild? {
      assert Next(j, a).rsps.Keys == j.rsps.Keys + {a.i};
    }
  }

  ghost predicate IsJoinRun(states: seq<Join>, acts: seq<Action>) {
    && |states| == |acts| + 1 && states[0] == StartJoin(states[0].total)
    && forall i :: 0 <= i < |acts| ==> Enabled(states[i], acts[i]) && states[i + 1] == Next(states[i], acts[i])
  }

  /**
   In every run: the callback is made at most once, only after every child has finished and left
   its response, and no child is left to touch the parent's frame; and a suspended parent always
   has a child still to come that will wake it. That the callback is made is JoinCompletes.
   */
  lemma {:induction false} JoinSafe(states: seq<Join>, acts: seq<Action>, i: nat)
    requires IsJoinRun(states, acts) && i <= |acts|
    ensures JoinInv(states[i]) && states[i].total == states[0].total
    ensures states[i].callbacks <= 1
    ensures states[i].callbacks == 1 ==>
              states[i].running == {} && forall c: nat :: c < states[0].total ==> c in states[i].rsps
    ensures states[i].parent.Suspended? ==> states[i].running != {}
  {
    hide Next;
    if i > 0 {
      JoinSafe(states, acts, i - 1);
      assert Enabled(states[i - 1], acts[i - 1]) && states[i - 1 + 1] == Next(states[i - 1], acts[i - 1]);
      JoinStepKeeps(states[i - 1], acts[i - 1]);
      TotalStays(states[i - 1], acts[i - 1]);
    }
    ZeroMeansAll(states[i]);
  }

  lemma TotalStays(j: Join, a: Action)
    requires Enabled(j, a)
    ensures Next(j, a).total == j.total
  {}

  /** How many steps are left at most: one for each child to schedule, two for each to finish, two for the parent. */
  function Left(j: Join): int {
    (j.total - Scheduled(j)) + 2 * j.callNum + (match j.parent case Done => 0 case Suspended => 1 case _ => 2)
  }

  lemma LeftFalls(j: Join, a: Action)
    requires JoinInv(j) && Enabled(j, a)
    ensures 0 <= Left(Next(j, a)) < Left(j)
  {
    hide JoinInv;
    ZeroMeansAll(j);
    JoinStepKeeps(j, a);
    ZeroMeansAll(Next(j, a));
    InRange(j);
    InRange(Next(j, a));
  }

  lemma InRange(j: Join)
    requires JoinInv(j)
    ensures Scheduled(j) <= j.total && (j.parent.Scheduling? ==> j.parent.next < j.total)
  {}

  /** Until the callback has been made, something can happen: the parent or a child can go on. */
  lemma JoinGoesOn(j: Join)
    requires JoinInv(j)
    ensures j.parent.Done? || j.parent.Scheduling? || j.parent.Looking? || j.running != {}
    ensures j.parent.Scheduling? ==> Enabled(j, ScheduleChild)
    ensures (exists a :: Enabled(j, a)) <==> !j.parent.Done?
  {
    ZeroMeansAll(j);
    if j.parent.Scheduling? {
      assert Enabled(j, ScheduleChild);
    } else if j.parent.Looking? {
      assert Enabled(j, Look);
    } else if j.parent.Suspended? {
      var i :| i in j.running;
      assert Enabled(j, FinishChild(i, NO_RESPONSE));
    }
  }

  lemma {:induction false} RunIsShort(states: seq<Join>, acts: seq<Action>, i: nat)
    requires IsJoinRun(states, acts) && i <= |acts|
    ensures 0 <= Left(states[i]) <= 3 * states[0].total + 2 - i
  {
    hide Next, Left, JoinInv;
    JoinSafe(states, acts, i);
    if i == 0 {
      assert Left(states[0]) == 3 * states[0].total + 2 by {
        LeftAtStart(states[0].total);
      }
    } else {
      RunIsShort(states, acts, i - 1);
      JoinSafe(states, acts, i - 1);
      assert Enabled(states[i - 1], acts[i - 1]) && states[i - 1 + 1] == Next(states[i - 1], acts[i - 1]);
      LeftFalls(states[i - 1], acts[i - 1]);
    }
  }

  lemma LeftAtStart(total: nat)
    ensures Left(StartJoin(total)) == 3 * total + 2
  {}

  /**
   The callback is made, once: a run with N children has at most 3N + 2 steps, and one that cannot
   go on has made the callback, with every response written.
   */
  lemma JoinCompletes(states: seq<Join>, acts: seq<Action>)
    requires IsJoinRun(states, acts)
    ensures |acts| <= 3 * states[0].total + 2
    ensures (forall a :: !Enabled(states[|acts|], a)) <==> states[|acts|].callbacks == 1
    ensures states[|acts|].callbacks == 1 ==>
              states[|acts|].running == {} && forall c: nat :: c < states[0].total ==> c in states[|acts|].rsps
  {
    hide Next, Left;
    JoinSafe(states, acts, |acts|);
    RunIsShort(states, acts, |acts|);
    JoinGoesOn(states[|acts|]);
  }

  // ---------- transactions ----------

  datatype Op = Confirm(i: nat, id: string) | Cancel(i: nat, id: string)

  ghost predicate AllClear(rsps: seq<Response>) { forall i :: 0 <= i < |rsps| ==> rsps[i].error == "" }

  /** The text the transaction id is looked for in. */
  function TextOf(r: Response): string { if r.error != "" then r.error else r.body }

  /** The confirmations, one for each response. */
  function Confirms(ids: seq<string>): seq<Op> { seq(|ids|, i requires 0 <= i < |ids| => Confirm(i, ids[i])) }

  /** The cancellations, one for each response that carries an id. */
  function Cancels(ids: seq<string>): seq<Op> {
    if ids == [] then []
    else Cancels(ids[..|ids| - 1]) + if ids[|ids| - 1] == "" then [] else [Cancel(|ids| - 1, ids[|ids| - 1])]
  }

  function Ids(rsps: seq<Response>, idOf: string -> string): seq<string> {
    seq(|rsps|, i requires 0 <= i < |rsps| => idOf(TextOf(rsps[i])))
  }

  predicate IsCancelOf(op: Op, ids: seq<string>) { op.Cancel? && op.i < |ids| && op.id == ids[op.i] && op.id != "" }

  /** Cancelling touches exactly the responses with an id, and confirms nothing. */
  lemma {:induction false} CancelsOnly(ids: seq<string>)
    ensures forall i :: 0 <= i < |Cancels(ids)| ==> IsCancelOf(Cancels(ids)[i], ids)
    ensures forall k :: 0 <= k < |ids| && ids[k] != "" ==> Cancel(k, ids[k]) in Cancels(ids)
  {
    if ids != [] {
      var c := ids[..|ids| - 1];
      CancelsOnly(c);
      if ids[|ids| - 1] != "" {
        assert Cancels(ids)[|Cancels(c)|] == Cancel(|ids| - 1, ids[|ids| - 1]);
      }
      forall k | 0 <= k < |ids| && ids[k] != "" ensures Cancel(k, ids[k]) in Cancels(ids) {
        if k < |ids| - 1 {
          assert c[k] == ids[k];
        }
      }
    }
  }

  lemma IdsSnoc(rsps: seq<Response>, i: nat, idOf: string -> string)
    requires i < |rsps|
    ensures Ids(rsps[..i + 1], idOf) == Ids(rsps[..i], idOf) + [idOf(TextOf(rsps[i]))]
  {}

  /**
   The end of call_services_in_fiber: everything is confirmed if no response has an error, otherwise
   every known id is cancelled.
   */
  method Decide(rsps: seq<Response>, idOf: string -> string) returns (ops: seq<Op>)
    ensures ops == if AllClear(rsps) then Confirms(Ids(rsps, idOf)) else Cancels(Ids(rsps, idOf))
  {
    var needCancel := false;
    var ids: seq<string> := [];
    for i := 0 to |rsps|
      invariant needCancel <==> !AllClear(rsps[..i])
      invariant ids == Ids(rsps[..i], idOf)
    {
      IdsSnoc(rsps, i, idOf);
      assert rsps[..i + 1] == rsps[..i] + [rsps[i]];
      if rsps[i].error != "" {
        needCancel := true;
        ids := ids + [idOf(rsps[i].error)];
      } else {
        ids := ids + [idOf(rsps[i].body)];
      }
    }
    assert rsps[..|rsps|] == rsps;
    ops := [];
    for i := 0 to |rsps|
      invariant ops == if needCancel then Cancels(ids[..i]) else Confirms(ids[..i])
    {
      assert ids[..i + 1][..i] == ids[..i];
      if needCancel {
        if ids[i] == "" {
          continue;
        }
        ops := ops + [Cancel(i, ids[i])];
      } else {
        ops := ops + [Confirm(i, ids[i])];
      }
    }
    assert ids[..|rsps|] == ids;
  }

  const ONLY_HTTP := "transaction is supported only if all services using http protocol."

  ghost predicate AllHttp(reqs: seq<Request>) { forall i :: 0 <= i < |reqs| ==> reqs[i].http }

  /**
   call_services_in_fiber on fresh responses, with the children finishing in any order. A
   transaction never confirms and cancels, and without caching it confirms only if every call
   succeeded; a cached response counts as success, so with caching a failed call can be confirmed.
   */
  method CallServices(reqs: seq<Request>, envs: seq<seq<Attempt>>, caches: seq<Option<Response>>, transaction: bool,
                      idOf: string -> string)
    returns (rsps: seq<Response>, ops: seq<Op>)
    requires |envs| == |caches| == |reqs| && forall i :: 0 <= i < |envs| ==> |envs[i]| == MAX_RETRY
    ensures |rsps| == |reqs|
    ensures transaction && !AllHttp(reqs) ==> ops == [] && forall i :: 0 <= i < |rsps| ==> rsps[i].error == ONLY_HTTP
    ensures !transaction || AllHttp(reqs) ==> forall i :: 0 <= i < |rsps| ==> AnswerOf(reqs[i], envs[i], caches[i], rsps[i])
    ensures !transaction ==> ops == []
    ensures transaction && AllHttp(reqs) ==>
              ops == if AllClear(rsps) then Confirms(Ids(rsps, idOf)) else Cancels(Ids(rsps, idOf))
    ensures (forall op :: op in ops ==> op.Confirm?) || (forall op :: op in ops ==> op.Cancel?)
    ensures (exists op :: op in ops && op.Confirm?) && (forall i :: 0 <= i < |reqs| ==> !reqs[i].cacheable) ==>
              forall i :: 0 <= i < |reqs| ==> CallSucceeds(reqs[i], envs[i])
  {
    rsps, ops := [], [];
    if transaction {
      var check := true;
      for i := 0 to |reqs|
        invariant check && forall k :: 0 <= k < i ==> reqs[k].http
      {
        if !reqs[i].http {
          check := false;
          break;
        }
      }
      if !check {
        for i := 0 to |reqs|
          invariant |rsps| == i && forall k :: 0 <= k < i ==> rsps[k].error == ONLY_HTTP
        {
          rsps := rsps + [NO_RESPONSE.(name := reqs[i].name, error := ONLY_HTTP)];
        }
        return;
      }
    }
    rsps := CallAll(reqs, envs, caches);
    if transaction {
      ops := Decide(rsps, idOf);
      CancelsOnly(Ids(rsps, idOf));
    }
  }

  /** What a call leaves in its response, as far as its error goes. */
  ghost predicate AnswerOf(req: Request, env: seq<Attempt>, cache: Option<Response>, rsp: Response)
    requires |env| == MAX_RETRY
  {
    rsp.error == "" <==> CallSucceeds(req, env) || (req.cacheable && cache.Some? && cache.value.error == "")
  }

  /**
   The calls, and the wait for them: a single one is made directly, several go to children. The
   parent and the children take their steps in any order; whatever it is, the parent gets there.
   */
  method CallAll(reqs: seq<Request>, envs: seq<seq<Attempt>>, caches: seq<Option<Response>>) returns (rsps: seq<Response>)
    requires |envs| == |caches| == |reqs| && forall i :: 0 <= i < |envs| ==> |envs[i]| == MAX_RETRY
    ensures |rsps| == |reqs|
    ensures forall i :: 0 <= i < |rsps| ==> AnswerOf(reqs[i], envs[i], caches[i], rsps[i])
  {
    if |reqs| == 1 {
      var rsp, attempts, answered := CallSingle(reqs[0], NO_RESPONSE, envs[0], caches[0]);
      return [rsp];
    }
    hide JoinInv, Left, CallSucceeds;
    var j := StartJoin(|reqs|);
    StartKeeps(|reqs|);
    while !j.parent.Done?
      invariant JoinInv(j) && j.total == |reqs|
      invariant forall i :: i in j.rsps ==> i < |reqs| && AnswerOf(reqs[i], envs[i], caches[i], j.rsps[i])
      decreases Left(j)
    {
      JoinGoesOn(j);
      ChildrenInRange(j);
      var a: Action;
      if {
        case j.parent.Scheduling? =>
          a := ScheduleChild;
        case j.running != {} =>
          var i :| i in j.running;
          var rsp, attempts, answered := CallSingle(reqs[i], NO_RESPONSE, envs[i], caches[i]);
          a := FinishChild(i, rsp);
        case j.parent.Looking? =>
          a := Look;
      }
      JoinStepKeeps(j, a);
      LeftFalls(j, a);
      TotalStays(j, a);
      j := Next(j, a);
    }
    AllIn(j);
    rsps := seq(|reqs|, i requires 0 <= i < |reqs| && i in j.rsps => j.rsps[i]);
  }

  lemma StartKeeps(total: nat)
    ensures JoinInv(StartJoin(total))
  {}

  lemma ChildrenInRange(j: Join)
    requires JoinInv(j)
    ensures forall i :: i in j.running ==> i < j.total
  {}

  lemma AllIn(j: Join)
    requires JoinInv(j) && j.parent.Done?
    ensures forall i: nat :: i < j.total ==> i in j.rsps
  {
    ZeroMeansAll(j);
  }
}

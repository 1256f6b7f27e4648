/** Interleavings that the code allows and a reader may not expect, built step by step. */
module Traces {
  import opened Prelude
  import opened Tables
  import opened Ledger
  import opened Writes
  import opened Invariant
  import opened Machine
  import opened Steps
  import Atomic
  import Lease
  import Theorems
  import TakeRate
  import GS = GiftSteps
  import RS = RechargeSteps
  import Progress
  import TM = TaximeterSteps
  import CS = CallSteps
  import PS = PayoutSteps

  /** Some run, in which the payment provider is idempotent, leads from one state to the other. */
  ghost predicate Leads(s: State, s': State) {
    exists steps: seq<Step> :: CanRun(s, steps) && Lease.HonestRun(s, steps) && Run(s, steps) == s'
  }

  lemma Stay(s: State)
    ensures Leads(s, s)
  {
    assert CanRun(s, []) && Lease.HonestRun(s, []) && Run(s, []) == s;
  }

  lemma {:induction false} RunOn(s: State, steps: seq<Step>, more: seq<Step>)
    requires CanRun(s, steps) && Lease.HonestRun(s, steps)
    requires CanRun(Run(s, steps), more) && Lease.HonestRun(Run(s, steps), more)
    ensures CanRun(s, steps + more) && Lease.HonestRun(s, steps + more)
    ensures Run(s, steps + more) == Run(Run(s, steps), more)
    decreases |steps|
  {
    hide Enabled, Apply, Lease.Honest;
    RunsJoin(s, steps, more);
    if steps == [] {
      assert steps + more == more;
    } else {
      assert (steps + more)[1..] == steps[1..] + more;
      RunOn(Apply(s, steps[0]), steps[1..], more);
    }
  }

  /** What a reachable state leads to is reachable. */
  lemma LeadsToReachable(s: State, s': State)
    requires Theorems.Reachable(s) && Leads(s, s')
    ensures Theorems.Reachable(s')
  {
    hide CanRun, Run, Lease.HonestRun, Init;
    var start, steps :| Init(start) && CanRun(start, steps) && s == Run(start, steps);
    var more :| CanRun(s, more) && Lease.HonestRun(s, more) && Run(s, more) == s';
    RunsJoin(start, steps, more);
    assert Init(start) && CanRun(start, steps + more) && s' == Run(start, steps + more);
  }

  lemma StartIsReachable(s: State)
    requires Init(s)
    ensures Theorems.Reachable(s)
  {
    hide Init;
    assert CanRun(s, []) && Run(s, []) == s;
  }

  lemma Chain(s: State, s': State, s'': State)
    requires Leads(s, s') && Leads(s', s'')
    ensures Leads(s, s'')
  {
    hide CanRun, Run, Lease.HonestRun;
    var a :| CanRun(s, a) && Lease.HonestRun(s, a) && Run(s, a) == s';
    var b :| CanRun(s', b) && Lease.HonestRun(s', b) && Run(s', b) == s'';
    RunOn(s, a, b);
  }

  lemma One(s: State, step: Step)
    requires Enabled(s, step) && Lease.Honest(s, step)
    ensures Leads(s, Apply(s, step))
  {
    hide Enabled, Apply, Lease.Honest;
    var s' := Apply(s, step);
    assert CanRun(s', []) && Lease.HonestRun(s', []);
    assert [step][1..] == [];
    assert CanRun(s, [step]) && Lease.HonestRun(s, [step]) && Run(s, [step]) == s';
  }

  /** Other workers than `t` hold none of these keys. */
  ghost predicate OthersFree(ts: map<Tid, Task>, t: Tid, keys: set<Key>) {
    forall u :: u in ts && u != t ==> Holds(ts[u]) !! keys
  }

  /** The provider's answer, if the statement is a call to it, is that of an idempotent one. */
  ghost predicate HonestAnswer(d: DB, x: Task, o: Oracle) {
    x.Paying? && x.pay.phase.Sending? ==> (o.ok <==> o.moved) && (x.pay.phase.id in d.sent ==> o.ok)
  }

  /** Extend a run by one statement of worker `t`, which goes from point x to point y. */
  lemma Then(s: State, d: DB, ts: map<Tid, Task>, t: Tid, x: Task, o: Oracle, d': DB, y: Task)
    requires Leads(s, State(d, ts[t := x]))
    requires CanAct(d, x, o) && Act(d, x, o) == Effect(d', y)
    requires OthersFree(ts, t, Holds(y)) && HonestAnswer(d, x, o)
    ensures Leads(s, State(d', ts[t := y]))
  {
    hide Leads, Act, CanAct, Holds;
    var s1 := State(d, ts[t := x]);
    One(s1, Advance(t, o));
    Chain(s, s1, Apply(s1, Advance(t, o)));
    assert s1.tasks[t := y] == ts[t := y];
  }

  /** An error rolls back what the worker's transaction has not committed. */
  lemma ThenFails(s: State, d: DB, ts: map<Tid, Task>, t: Tid, x: Task)
    requires Leads(s, State(d, ts[t := x]))
    ensures Leads(s, State(d, ts[t := Failed(x)]))
  {
    hide Leads, Failed;
    var s1 := State(d, ts[t := x]);
    One(s1, Fail(t));
    Chain(s, s1, Apply(s1, Fail(t)));
    assert s1.tasks[t := Failed(x)] == ts[t := Failed(x)];
  }

  lemma ThenOutside(s: State, s1: State, e: Event)
    requires Leads(s, s1) && CanHappen(s1.db, e)
    ensures Leads(s, State(Happen(s1.db, e), s1.tasks))
  {
    hide Leads, Happen, CanHappen;
    One(s1, Outside(e));
    Chain(s, s1, Apply(s1, Outside(e)));
  }

  lemma ThenSpawn(s: State, d: DB, ts: map<Tid, Task>, t: Tid, x: Task)
    requires Leads(s, State(d, ts)) && t !in ts && Starts(d, x)
    ensures Leads(s, State(d, ts[t := x]))
  {
    hide Leads, Starts;
    var s1 := State(d, ts);
    One(s1, Spawn(t, x));
    Chain(s, s1, Apply(s1, Spawn(t, x)));
  }

  const NO: Oracle := Oracle("", [], false, false, 0, "")
  const YES: Oracle := Oracle("", [], true, true, 0, "")

  /** No worker of the list holds a lock, and the numbers from t on are unused. */
  ghost predicate Idle(ts: map<Tid, Task>, t: Tid) {
    forall u :: u in ts ==> u < t && Holds(ts[u]) == {}
  }

  lemma IdleIsFree(ts: map<Tid, Task>, t: Tid, keys: set<Key>)
    requires Idle(ts, t)
    ensures OthersFree(ts, t, keys) && t !in ts
  {
    hide Holds;
  }

  /** A statement of a new worker among idle ones. */
  lemma ThenAmongIdle(s: State, d: DB, ts: map<Tid, Task>, t: Tid, x: Task, o: Oracle, d': DB, y: Task)
    requires Leads(s, State(d, ts[t := x])) && Idle(ts, t)
    requires CanAct(d, x, o) && Act(d, x, o) == Effect(d', y) && HonestAnswer(d, x, o)
    ensures Leads(s, State(d', ts[t := y]))
  {
    hide Leads, CanAct, Act, Idle, Holds;
    IdleIsFree(ts, t, Holds(y));
    Then(s, d, ts, t, x, o, d', y);
  }

  lemma MoreIdle(ts: map<Tid, Task>, t: Tid, task: Task)
    requires Idle(ts, t) && Holds(task) == {}
    ensures Idle(ts[t := task], t + 1)
  {
    hide Holds;
  }

  // ------------------------------------------- a second open call of one model

  function At(call: Id, client: Id, model: Id, phase: CS.Phase): Task {
    Calling(CS.Task(call, client, model, phase))
  }

  /** The client can afford the model, and neither has an open call. */
  ghost predicate CanStart(d: DB, client: Id, model: Id) {
    && !CS.OpenOfClient(d, client) && !CS.OpenOfModel(d, model)
    && model in d.profiles && d.profiles[model].price <= Balance(d.ledger, Client(client))
  }

  lemma StartTakesLocks(s: State, d: DB, ts: map<Tid, Task>, t: Tid, client: Id, model: Id)
    requires Leads(s, State(d, ts)) && t !in ts && OthersFree(ts, t, {ClientKey(client), ModelKey(model)})
    requires CanStart(d, client, model)
    ensures Leads(s, State(d, ts[t := At("", client, model, CS.ClientFree)]))
  {
    hide Leads, Sum, CS.OpenOfClient, CS.OpenOfModel;
    ThenSpawn(s, d, ts, t, At("", client, model, CS.WantClient));
    Then(s, d, ts, t, At("", client, model, CS.WantClient), NO, d, At("", client, model, CS.WantModel));
    Then(s, d, ts, t, At("", client, model, CS.WantModel), NO, d, At("", client, model, CS.BothLocked));
    Then(s, d, ts, t, At("", client, model, CS.BothLocked), NO, d, At("", client, model, CS.ClientFree));
  }

  lemma StartChecks(s: State, d: DB, ts: map<Tid, Task>, t: Tid, client: Id, model: Id)
    requires Leads(s, State(d, ts[t := At("", client, model, CS.ClientFree)]))
    requires OthersFree(ts, t, {ClientKey(client), ModelKey(model)}) && CanStart(d, client, model)
    ensures Leads(s, State(d, ts[t := At("", client, model, CS.Online(d.profiles[model].price))]))
  {
    hide Leads, Sum, CS.OpenOfClient, CS.OpenOfModel;
    var price := d.profiles[model].price;
    Then(s, d, ts, t, At("", client, model, CS.ClientFree), YES, d, At("", client, model, CS.Known(price)));
    Then(s, d, ts, t, At("", client, model, CS.Known(price)), NO, d, At("", client, model, CS.ModelFree(price)));
    Then(s, d, ts, t, At("", client, model, CS.ModelFree(price)), YES, d, At("", client, model, CS.Online(price)));
  }

  /** The start is about to insert its call. */
  function AboutToInsert(d: DB, client: Id, model: Id): Task
    requires model in d.profiles
  {
    At("", client, model, CS.Affordable(d.profiles[model].price, Balance(d.ledger, Client(client))))
  }

  /** A start that nobody disturbs reaches its insert. */
  lemma StartReachesInsert(s: State, d: DB, ts: map<Tid, Task>, t: Tid, client: Id, model: Id)
    requires Leads(s, State(d, ts)) && t !in ts && OthersFree(ts, t, {ClientKey(client), ModelKey(model)})
    requires CanStart(d, client, model)
    ensures Leads(s, State(d, ts[t := AboutToInsert(d, client, model)]))
  {
    StartTakesLocks(s, d, ts, t, client, model);
    StartChecks(s, d, ts, t, client, model);
    hide Leads, Sum, CS.OpenOfClient, CS.OpenOfModel, OpenCall;
    Then(s, d, ts, t, At("", client, model, CS.Online(d.profiles[model].price)), NO, d, AboutToInsert(d, client, model));
  }

  /** The insert itself, whatever has happened since the checks. */
  lemma StartInserts(s: State, d: DB, ts: map<Tid, Task>, t: Tid, client: Id, model: Id, price: int, balance: int, call: Id)
    requires Leads(s, State(d, ts[t := At("", client, model, CS.Affordable(price, balance))]))
    requires balance >= price && call !in d.calls
    ensures Leads(s, State(OpenCall(d, call, client, model, price), ts[t := At("", client, model, CS.Finished)]))
  {
    hide Leads, Sum, OpenCall;
    Then(s, d, ts, t, At("", client, model, CS.Affordable(price, balance)), NO.(id := call),
         OpenCall(d, call, client, model, price), At("", client, model, CS.Finished));
  }

  /** A start that nobody disturbs creates the call. */
  lemma StartSucceeds(s: State, d: DB, ts: map<Tid, Task>, t: Tid, client: Id, model: Id, call: Id)
    requires Leads(s, State(d, ts)) && t !in ts && OthersFree(ts, t, {ClientKey(client), ModelKey(model)})
    requires CanStart(d, client, model) && call !in d.calls
    ensures Leads(s, State(OpenCall(d, call, client, model, d.profiles[model].price),
                           ts[t := At("", client, model, CS.Finished)]))
  {
    hide Leads, Sum, CS.OpenOfClient, CS.OpenOfModel, OpenCall, OthersFree;
    StartReachesInsert(s, d, ts, t, client, model);
    StartInserts(s, d, ts, t, client, model, d.profiles[model].price, Balance(d.ledger, Client(client)), call);
  }

  lemma OneKey(ts: map<Tid, Task>, t: Tid, key: Key)
    requires OthersFree(ts, t, {key})
    ensures OthersFree(ts, t, {})
  {
  }

  /** The worker is about to run the unguarded update of `accept`. */
  function AboutToActivate(call: Id, row: Call, balance: int): Task {
    At(call, row.client, row.model, CS.Funded(row.client, row, balance))
  }

  /** An accept that nobody disturbs reaches its update. */
  lemma AcceptReachesUpdate(s: State, d: DB, ts: map<Tid, Task>, t: Tid, call: Id)
    requires Leads(s, State(d, ts)) && t !in ts && call in d.calls && d.calls[call].status == Requested
    requires OthersFree(ts, t, {ClientKey(d.calls[call].client)})
    requires !IsExpired(d.now, d.calls[call].requestedAt) && !CS.OtherActive(d, d.calls[call].client, call)
    ensures var row := d.calls[call];
      Leads(s, State(d, ts[t := AboutToActivate(call, row, Balance(d.ledger, Client(row.client)))]))
  {
    hide Leads, Sum, CS.OtherActive, OthersFree, IsExpired;
    var row := d.calls[call];
    OneKey(ts, t, ClientKey(row.client));
    var c, m, balance := row.client, row.model, Balance(d.ledger, Client(row.client));
    ThenSpawn(s, d, ts, t, At(call, c, m, CS.Reading));
    Then(s, d, ts, t, At(call, c, m, CS.Reading), NO, d, At(call, c, m, CS.Waiting(c)));
    Then(s, d, ts, t, At(call, c, m, CS.Waiting(c)), NO, d, At(call, c, m, CS.Locked(c)));
    Then(s, d, ts, t, At(call, c, m, CS.Locked(c)), NO, d, At(call, c, m, CS.Pending(c, row)));
    Then(s, d, ts, t, At(call, c, m, CS.Pending(c, row)), NO, d, At(call, c, m, CS.Alone(c, row)));
    Then(s, d, ts, t, At(call, c, m, CS.Alone(c, row)), NO, d, At(call, c, m, CS.Funded(c, row, balance)));
  }

  /** The row of a call that the client opened and left while its accept was under way. */
  function LeftCall(d: DB, a: Id, model: Id, price: int): Call {
    Call(a, model, Ended, Some(HangupClient), price, d.now, None, Some(d.now), 0)
  }

  /** First half: the first call rings, its accept stops before the update, its client hangs up. */
  lemma AcceptOvertakenByHangup(s: State, t: Tid, a: Id, model: Id, x: Id)
    requires Idle(s.tasks, t) && x !in s.db.calls && CanStart(s.db, a, model)
    ensures var d, price := s.db, s.db.profiles[model].price;
      var row := Call(a, model, Requested, None, price, d.now, None, None, 0);
      Leads(s, State(d.(calls := d.calls[x := LeftCall(d, a, model, price)]),
                     s.tasks[t := At("", a, model, CS.Finished)][t + 1 := AboutToActivate(x, row, Balance(d.ledger, Client(a)))]))
  {
    hide Idle, Leads, OthersFree, Sum;
    var d, price := s.db, s.db.profiles[model].price;
    Stay(s);
    IdleIsFree(s.tasks, t, {ClientKey(a), ModelKey(model)});
    StartSucceeds(s, d, s.tasks, t, a, model, x);
    var d1 := OpenCall(d, x, a, model, price);
    var ts := s.tasks[t := At("", a, model, CS.Finished)];
    MoreIdle(s.tasks, t, At("", a, model, CS.Finished));
    NoOtherCall(d, d1, a, x);
    hide CS.OtherActive, CS.OpenOfClient, CS.OpenOfModel, CanStart;
    IdleIsFree(ts, t + 1, {ClientKey(a)});
    AcceptReachesUpdate(s, d1, ts, t + 1, x);
    ThenOutside(s, State(d1, ts[t + 1 := AboutToActivate(x, d1.calls[x], Balance(d.ledger, Client(a)))]), HangUp(x, HangupClient));
    assert d1.calls[x := LeftCall(d, a, model, price)] == d.calls[x := LeftCall(d, a, model, price)];
  }

  lemma NoOtherCall(d: DB, d1: DB, client: Id, x: Id)
    requires !CS.OpenOfClient(d, client) && x in d1.calls && d1.calls == d.calls[x := d1.calls[x]]
    ensures !CS.OtherActive(d1, client, x)
  {
    forall id | id in d1.calls && d1.calls[id].client == client && d1.calls[id].status == Active && id != x ensures false {
      assert IsOpen(d.calls, id);
    }
  }

  /** Take any state without held locks in which two clients can each afford a call with the same
      model and none of the three has an open call. The first call rings, its accept stops before the
      update, the first client hangs up, the second client's call rings, and the update reopens
      the first call: the model has two open calls, one of which has an end reason. */
  lemma SecondOpenCallOfOneModel(s: State, t: Tid, a: Id, b: Id, model: Id, x: Id, y: Id) returns (s': State)
    requires Idle(s.tasks, t) && a != b && x != y && x !in s.db.calls && y !in s.db.calls
    requires CanStart(s.db, a, model) && CanStart(s.db, b, model)
    ensures Leads(s, s')
    ensures IsOpen(s'.db.calls, x) && IsOpen(s'.db.calls, y) && x != y
    ensures s'.db.calls[x].model == model == s'.db.calls[y].model
    ensures s'.db.calls[x].endReason == Some(HangupClient)
  {
    var d, price := s.db, s.db.profiles[model].price;
    var row := Call(a, model, Requested, None, price, d.now, None, None, 0);
    var accept := AboutToActivate(x, row, Balance(d.ledger, Client(a)));
    var d2 := d.(calls := d.calls[x := LeftCall(d, a, model, price)]);
    AcceptOvertakenByHangup(s, t, a, model, x);
    StillCanStart(d, d2, b, model, x);
    SecondIsFree(s.tasks, t, a, b, model, accept);
    hide Leads, CanStart, Sum, Idle, OthersFree;
    var ts := s.tasks[t := At("", a, model, CS.Finished)][t + 1 := accept];
    StartSucceeds(s, d2, ts, t + 2, b, model, y);
    s' := UpdateReopens(s, OpenCall(d2, y, b, model, price), ts[t + 2 := At("", b, model, CS.Finished)], t + 1, x, accept);
  }

  /** The same from the other side: the second client's start has looked at the model's calls when
      the update reopens the first call, and then inserts its own beside it. */
  lemma StartOvertakenByReopening(s: State, t: Tid, a: Id, b: Id, model: Id, x: Id, y: Id) returns (s': State)
    requires Idle(s.tasks, t) && a != b && x != y && x !in s.db.calls && y !in s.db.calls
    requires CanStart(s.db, a, model) && CanStart(s.db, b, model)
    ensures Leads(s, s')
    ensures IsOpen(s'.db.calls, x) && IsOpen(s'.db.calls, y) && x != y
    ensures s'.db.calls[x].model == model == s'.db.calls[y].model
    ensures s'.db.calls[x].status == Active && s'.db.calls[y].status == Requested
  {
    var d, price := s.db, s.db.profiles[model].price;
    var row := Call(a, model, Requested, None, price, d.now, None, None, 0);
    var accept := AboutToActivate(x, row, Balance(d.ledger, Client(a)));
    var d2 := d.(calls := d.calls[x := LeftCall(d, a, model, price)]);
    AcceptOvertakenByHangup(s, t, a, model, x);
    StillCanStart(d, d2, b, model, x);
    SecondIsFree(s.tasks, t, a, b, model, accept);
    var balance := Balance(d.ledger, Client(b));
    assert balance >= price;
    hide Leads, Sum, Idle, OthersFree, CanStart;
    var ts := s.tasks[t := At("", a, model, CS.Finished)][t + 1 := accept];
    StartReachesInsert(s, d2, ts, t + 2, b, model);
    s' := ReopenThenInsert(s, d2, ts[t + 2 := AboutToInsert(d2, b, model)], t + 1, x, accept, b, model, price, balance, y);
  }

  /** The update reopens the first call, and the start next to it inserts its own. */
  lemma ReopenThenInsert(s: State, d: DB, ts: map<Tid, Task>, t: Tid, x: Id, accept: Task,
      b: Id, model: Id, price: int, balance: int, y: Id) returns (s': State)
    requires Leads(s, State(d, ts)) && t in ts && ts[t] == accept && x in d.calls && y !in d.calls
    requires accept.Calling? && accept.call.phase.Funded? && accept.call.call == x
    requires accept.call.phase.balance >= accept.call.phase.row.price
    requires t + 1 in ts && ts[t + 1] == At("", b, model, CS.Affordable(price, balance)) && balance >= price
    ensures Leads(s, s') && s'.db == OpenCall(Activate(d, x), y, b, model, price)
  {
    hide Leads, Activate, OpenCall;
    var s1 := UpdateReopens(s, d, ts, t, x, accept);
    assert s1.tasks[t + 1 := ts[t + 1]] == s1.tasks;
    ReopenedCalls(d, x);
    StartInserts(s, s1.db, s1.tasks, t + 1, b, model, price, balance, y);
    s' := State(OpenCall(s1.db, y, b, model, price), s1.tasks[t + 1 := At("", b, model, CS.Finished)]);
  }

  lemma ReopenedCalls(d: DB, x: Id)
    requires x in d.calls
    ensures Activate(d, x).calls.Keys == d.calls.Keys
  {
  }

  lemma SecondIsFree(ts: map<Tid, Task>, t: Tid, a: Id, b: Id, model: Id, accept: Task)
    requires Idle(ts, t) && a != b && Holds(accept) == {ClientKey(a)}
    ensures var ts' := ts[t := At("", a, model, CS.Finished)][t + 1 := accept];
      t + 2 !in ts' && OthersFree(ts', t + 2, {ClientKey(b), ModelKey(model)})
  {
  }

  lemma UpdateReopens(s: State, d: DB, ts: map<Tid, Task>, t: Tid, x: Id, accept: Task) returns (s': State)
    requires Leads(s, State(d, ts)) && t in ts && ts[t] == accept && x in d.calls
    requires accept.Calling? && accept.call.phase.Funded? && accept.call.call == x
    requires accept.call.phase.balance >= accept.call.phase.row.price
    ensures Leads(s, s') && s' == State(Activate(d, x), ts[t := Calling(accept.call.(phase := CS.Finished))])
  {
    hide Leads, Activate;
    var done := Calling(accept.call.(phase := CS.Finished));
    assert ts[t := accept] == ts;
    Then(s, d, ts, t, accept, NO, Activate(d, x), done);
    s' := State(Activate(d, x), ts[t := done]);
  }

  /** A call that has ended does not stand in the way of another start. */
  lemma StillCanStart(d: DB, d': DB, b: Id, model: Id, x: Id)
    requires CanStart(d, b, model) && x in d'.calls && d'.calls[x].status == Ended
    requires d' == d.(calls := d.calls[x := d'.calls[x]])
    ensures CanStart(d', b, model)
  {
    hide Sum;
    assert forall id :: IsOpen(d'.calls, id) ==> IsOpen(d.calls, id) && d'.calls[id] == d.calls[id];
  }

  // --------------------------------------- a payout both sent and given back

  function Settler(cutoff: Option<int>, queue: seq<Id>, phase: PS.Phase): Task {
    Paying(PS.Task("", 0, cutoff, queue, phase))
  }

  /** A listing that starts with one of the rows. */
  lemma ListingFrom(p: Id, rows: set<Id>) returns (rest: seq<Id>)
    requires p in rows
    ensures TM.Lists([p] + rest, rows)
  {
    rest := Progress.Listing(rows - {p});
    var ids := [p] + rest;
    forall id | id in rows ensures id in ids {
      if id != p { assert id in rest; }
    }
  }

  /** A worker lists the claimable payouts, this one first, and claims it. */
  lemma ClaimHappens(s: State, d: DB, ts: map<Tid, Task>, t: Tid, p: Id, cutoff: Option<int>) returns (rest: seq<Id>)
    requires Leads(s, State(d, ts)) && Idle(ts, t) && p in d.payouts && Claimable(d.payouts[p], cutoff)
    requires cutoff.Some? ==> cutoff.value <= d.now - d.cfg.stuckMs
    ensures Leads(s, State(Claim(d, p), ts[t := Settler(cutoff, rest, PS.Sending(p, d.now))]))
  {
    hide Leads, Claimable, Idle, TM.Lists, Claim;
    rest := ListingFrom(p, PS.ClaimableRows(d.payouts, cutoff));
    IdleIsFree(ts, t, {});
    ThenSpawn(s, d, ts, t, Settler(cutoff, [], PS.Scan));
    ThenAmongIdle(s, d, ts, t, Settler(cutoff, [], PS.Scan), NO.(ids := [p] + rest), d, Settler(cutoff, [p] + rest, PS.Claiming));
    assert ([p] + rest)[1..] == rest;
    ThenAmongIdle(s, d, ts, t, Settler(cutoff, [p] + rest, PS.Claiming), NO, Claim(d, p), Settler(cutoff, rest, PS.Sending(p, d.now)));
  }

  /** The first worker's call to the provider fails, and then it is slow. */
  lemma SlowWorkerFails(s: State, t: Tid, p: Id) returns (rest: seq<Id>)
    requires Idle(s.tasks, t) && p in s.db.payouts && s.db.payouts[p].status == PayoutPending && p !in s.db.sent
    requires s.db.cfg.stuckMs > 0
    ensures var d := s.db;
      Leads(s, State(Claim(d, p).(now := d.now + (d.cfg.stuckMs + 1)),
                     s.tasks[t := Settler(None, rest, PS.Reversing(p, d.now))]))
  {
    hide Leads, Idle;
    var d := s.db;
    var d1 := Claim(d, p);
    Stay(s);
    rest := ClaimHappens(s, d, s.tasks, t, p, None);
    ClaimWrites(d, p);
    hide Claim;
    ThenAmongIdle(s, d1, s.tasks, t, Settler(None, rest, PS.Sending(p, d.now)), NO, d1, Settler(None, rest, PS.Reversing(p, d.now)));
    ThenOutside(s, State(d1, s.tasks[t := Settler(None, rest, PS.Reversing(p, d.now))]), Tick(d.cfg.stuckMs + 1));
  }

  lemma ClaimWrites(d: DB, p: Id)
    requires p in d.payouts
    ensures var d' := Claim(d, p);
      && d'.now == d.now && d'.cfg == d.cfg && d'.sent == d.sent && d'.ledger == d.ledger
      && p in d'.payouts && d'.payouts[p].status == PayoutProcessing && d'.payouts[p].processingAt == Some(d.now)
  {
  }

  /** A second worker takes the stale payout over, sends it and writes PAID. */
  lemma SecondWorkerPays(s: State, d: DB, ts: map<Tid, Task>, t: Tid, p: Id) returns (rest: seq<Id>)
    requires Leads(s, State(d, ts)) && Idle(ts, t) && p in d.payouts
    requires d.payouts[p].status == PayoutProcessing && d.payouts[p].processingAt.Some?
    requires d.payouts[p].processingAt.value < d.now - d.cfg.stuckMs
    ensures Leads(s, State(MarkPaid(MarkSent(Claim(d, p), p), p),
      ts[t := Settler(Some(d.now - d.cfg.stuckMs), rest, PS.Claiming)]))
  {
    hide Leads, Idle;
    var cutoff := Some(d.now - d.cfg.stuckMs);
    rest := ClaimHappens(s, d, ts, t, p, cutoff);
    ClaimWrites(d, p);
    var d1, d2 := Claim(d, p), MarkSent(Claim(d, p), p);
    hide Claim;
    ThenAmongIdle(s, d1, ts, t, Settler(cutoff, rest, PS.Sending(p, d.now)), YES, d2, Settler(cutoff, rest, PS.Marking(p, d.now)));
    ThenAmongIdle(s, d2, ts, t, Settler(cutoff, rest, PS.Marking(p, d.now)), NO, MarkPaid(d2, p), Settler(cutoff, rest, PS.Claiming));
  }

  /** Even with an idempotent provider: a worker that needs longer than the stuck limit gives a
      payout back, and writes FAILED over PAID, after another worker has sent it. */
  lemma SlowWorkerReversesASentPayout(s: State, t: Tid, p: Id) returns (s': State)
    requires Idle(s.tasks, t) && p in s.db.payouts && s.db.payouts[p].status == PayoutPending
    requires p !in s.db.sent && PayoutReversed(p) !in Posted(s.db.ledger) && s.db.cfg.stuckMs > 0
    ensures Leads(s, s')
    ensures p in s'.db.sent && PayoutReversed(p) in Posted(s'.db.ledger)
    ensures p in s'.db.payouts && s'.db.payouts[p].status == PayoutFailed
  {
    hide Leads, Posted, Rows, Idle;
    var d := s.db;
    var rest := SlowWorkerFails(s, t, p);
    ClaimWrites(d, p);
    var slow := Settler(None, rest, PS.Reversing(p, d.now));
    MoreIdle(s.tasks, t, slow);
    var d1 := Claim(d, p).(now := d.now + (d.cfg.stuckMs + 1));
    hide Claim;
    var more := SecondWorkerPays(s, d1, s.tasks[t := slow], t + 1, p);
    var paid := Settler(Some(d1.now - d1.cfg.stuckMs), more, PS.Claiming);
    ClaimWrites(d1, p);
    s' := SlowWorkerReverses(s, MarkPaid(MarkSent(Claim(d1, p), p), p), s.tasks[t := slow][t + 1 := paid], t, slow, p);
  }

  /** The slow worker goes on: it gives the payout back and overwrites its status. */
  lemma SlowWorkerReverses(s: State, d: DB, ts: map<Tid, Task>, t: Tid, slow: Task, p: Id) returns (s': State)
    requires Leads(s, State(d, ts)) && t in ts && ts[t] == slow
    requires slow.Paying? && slow.pay.phase.Reversing? && slow.pay.phase.id == p
    requires p in d.payouts && PayoutReversed(p) !in Posted(d.ledger) && p in d.sent
    ensures Leads(s, s')
    ensures p in s'.db.sent && PayoutReversed(p) in Posted(s'.db.ledger)
    ensures p in s'.db.payouts && s'.db.payouts[p].status == PayoutFailed
  {
    assert ts[t := slow] == ts;
    var done := Paying(slow.pay.(phase := PS.Claiming));
    PostedByRows(d.ledger, PayoutReversed(p), ReversalLines(d.payouts[p].model, d.payouts[p].amount));
    hide Leads, Posted, Rows;
    Then(s, d, ts, t, slow, NO, Reverse(d, p), done);
    s' := State(Reverse(d, p), ts[t := done]);
  }

  /** No payout is stranded: from every reachable state in which no lock is held, a payout that is not
      settled yet, whoever claimed it and died, can still be sent and marked PAID. */
  lemma NoPayoutIsStranded(s: State, t: Tid, p: Id) returns (s': State)
    requires Theorems.Reachable(s) && Idle(s.tasks, t) && p in s.db.payouts && !Lease.Final(s.db.payouts[p].status)
    ensures Leads(s, s') && p in s'.db.payouts
    ensures s'.db.payouts[p].status == PayoutPaid && p in s'.db.sent
  {
    hide Leads, Idle, Theorems.Reachable;
    Stay(s);
    if s.db.payouts[p].status == PayoutPending {
      var rest := ClaimHappens(s, s.db, s.tasks, t, p, None);
      s' := ClaimedIsPaid(s, Claim(s.db, p), s.tasks, t, p, None, rest);
    } else {
      ClaimHasStamp(s, p);
      var late := s.db.payouts[p].processingAt.value + s.db.cfg.stuckMs + 1 - s.db.now;
      var wait := if late > 0 then late else 0;
      ThenOutside(s, s, Tick(wait));
      var d := s.db.(now := s.db.now + wait);
      var cutoff := Some(d.now - d.cfg.stuckMs);
      var rest := ClaimHappens(s, d, s.tasks, t, p, cutoff);
      s' := ClaimedIsPaid(s, Claim(d, p), s.tasks, t, p, cutoff, rest);
    }
  }

  lemma ClaimHasStamp(s: State, p: Id)
    requires Theorems.Reachable(s) && p in s.db.payouts && s.db.payouts[p].status == PayoutProcessing
    ensures s.db.payouts[p].processingAt.Some?
  {
    hide DbInv, AllOk, MutualExclusion, Theorems.Reachable, PayoutsOk, Sum, Posted;
    Theorems.ReachableInv(s);
    RowsAreOk(s.db);
    PayoutIsOk(s.db.ledger, s.db.payouts, s.db.approved, p);
  }

  /** A claimed payout is sent and marked. */
  lemma ClaimedIsPaid(s: State, d: DB, ts: map<Tid, Task>, t: Tid, p: Id, cutoff: Option<int>, rest: seq<Id>) returns (s': State)
    requires Leads(s, State(d, ts[t := Settler(cutoff, rest, PS.Sending(p, d.now))])) && Idle(ts, t) && p in d.payouts
    ensures Leads(s, s') && p in s'.db.payouts && s'.db.payouts[p].status == PayoutPaid && p in s'.db.sent
  {
    hide Leads, Idle;
    var d1 := MarkSent(d, p);
    ThenAmongIdle(s, d, ts, t, Settler(cutoff, rest, PS.Sending(p, d.now)), YES, d1, Settler(cutoff, rest, PS.Marking(p, d.now)));
    ThenAmongIdle(s, d1, ts, t, Settler(cutoff, rest, PS.Marking(p, d.now)), NO, MarkPaid(d1, p), Settler(cutoff, rest, PS.Claiming));
    s' := State(MarkPaid(d1, p), ts[t := Settler(cutoff, rest, PS.Claiming)]);
  }

  // ------------------------------------------------- such states can be reached

  function Charge(user: Id, amount: int, phase: RS.Phase): Task {
    Charging(RS.Task(user, amount, phase))
  }

  /** A recharge as its creation leaves it, and as its confirmation does. */
  function Created(d: DB, id: Id, user: Id, amount: int): DB {
    AttachCharge(OpenRecharge(d, id, user, amount), id, id, 0)
  }

  function Funded(d: DB, id: Id, user: Id, amount: int): DB {
    Credit(Created(d, id, user, amount), id)
  }

  function DoneFunding(ts: map<Tid, Task>, t: Tid, user: Id, amount: int): map<Tid, Task> {
    ts[t := Charge(user, amount, RS.Finished)][t + 1 := Charge(user, amount, RS.Finished)]
  }

  lemma RechargeIsCreated(s: State, d: DB, ts: map<Tid, Task>, t: Tid, id: Id, user: Id, amount: int)
    requires Leads(s, State(d, ts)) && Idle(ts, t) && id !in d.recharges && amount >= d.cfg.minRecharge
    ensures Leads(s, State(Created(d, id, user, amount), ts[t := Charge(user, amount, RS.Finished)]))
  {
    hide Leads, Idle;
    var d1 := OpenRecharge(d, id, user, amount);
    IdleIsFree(ts, t, {});
    ThenSpawn(s, d, ts, t, Charge(user, amount, RS.Checking));
    ThenAmongIdle(s, d, ts, t, Charge(user, amount, RS.Checking), NO.(id := id), d1, Charge(user, amount, RS.Created(id)));
    ThenAmongIdle(s, d1, ts, t, Charge(user, amount, RS.Created(id)), YES.(text := id), d1, Charge(user, amount, RS.Charged(id, id, 0)));
    ThenAmongIdle(s, d1, ts, t, Charge(user, amount, RS.Charged(id, id, 0)), YES, Created(d, id, user, amount), Charge(user, amount, RS.Finished));
  }

  lemma RechargeIsConfirmed(s: State, d: DB, ts: map<Tid, Task>, t: Tid, id: Id, chargeId: string, user: Id, amount: int)
    requires Leads(s, State(d, ts)) && Idle(ts, t) && RechargePaid(id) !in Posted(d.ledger)
    requires id in d.recharges && d.recharges[id].status == RechargePending
    requires d.recharges[id].chargeId == Some(chargeId) && d.recharges[id].amount == amount
    ensures Leads(s, State(Credit(d, id), ts[t := Charge(user, amount, RS.Finished)]))
  {
    hide Leads, Idle, Posted, Credit;
    IdleIsFree(ts, t, {});
    ThenSpawn(s, d, ts, t, Charge(user, amount, RS.Looking(chargeId)));
    ThenAmongIdle(s, d, ts, t, Charge(user, amount, RS.Looking(chargeId)), YES.(id := id), d, Charge(user, amount, RS.Found(id)));
    ThenAmongIdle(s, d, ts, t, Charge(user, amount, RS.Found(id)), NO, Credit(d, id), Charge(user, amount, RS.Finished));
  }

  /** A client pays in an amount. */
  lemma ClientIsFunded(s: State, d: DB, ts: map<Tid, Task>, t: Tid, id: Id, user: Id, amount: int)
    requires Leads(s, State(d, ts)) && Idle(ts, t) && id !in d.recharges && amount >= d.cfg.minRecharge
    requires RechargePaid(id) !in Posted(d.ledger)
    ensures Leads(s, State(Funded(d, id, user, amount), DoneFunding(ts, t, user, amount)))
    ensures Idle(DoneFunding(ts, t, user, amount), t + 2)
  {
    hide Leads, Idle, Posted;
    RechargeIsCreated(s, d, ts, t, id, user, amount);
    MoreIdle(ts, t, Charge(user, amount, RS.Finished));
    var ts1 := ts[t := Charge(user, amount, RS.Finished)];
    RechargeIsConfirmed(s, Created(d, id, user, amount), ts1, t + 1, id, id, user, amount);
    MoreIdle(ts1, t + 1, Charge(user, amount, RS.Finished));
  }

  lemma FundedWrites(d: DB, id: Id, user: Id, amount: int)
    ensures var d' := Funded(d, id, user, amount);
      && d' == d.(ledger := d'.ledger, recharges := d'.recharges)
      && (forall u :: Balance(d'.ledger, Client(u)) == Balance(d.ledger, Client(u)) + if u == user then amount else 0)
      && Posted(d'.ledger) == Posted(d.ledger) + {RechargePaid(id)}
      && d'.recharges.Keys == d.recharges.Keys + {id}
  {
    hide Posted, Sum, Rows;
    var lines := RechargeLines(user, amount);
    PostedByRows(d.ledger, RechargePaid(id), lines);
    forall u ensures Balance(Funded(d, id, user, amount).ledger, Client(u)) == Balance(d.ledger, Client(u)) + if u == user then amount else 0 {
      SumOfTwo(d.ledger, RechargePaid(id), lines[0], lines[1], OfAccount(Client(u)));
    }
  }

  /** The start, once a model has a profile and is approved: a fresh database for the rest. */
  lemma ModelJoins(s: State, model: Id, profile: Profile) returns (d: DB)
    requires Init(s) && ValidProfile(profile)
    ensures d == s.db.(profiles := map[model := profile], approved := {model})
    ensures Leads(s, State(d, map[])) && Theorems.Reachable(s) && Idle(map[], 0) && ValidConfig(d.cfg)
    ensures d.ledger == [] && d.calls == map[] && d.recharges == map[] && d.gifts == map[] && d.payouts == map[] && d.sent == {}
    ensures forall account :: Balance(d.ledger, account) == 0
  {
    StartIsReachable(s);
    Stay(s);
    hide Leads, Theorems.Reachable, ValidConfig;
    ThenOutside(s, s, SetProfile(model, profile));
    ThenOutside(s, State(s.db.(profiles := s.db.profiles[model := profile]), s.tasks), Approve(model));
    d := s.db.(profiles := map[model := profile], approved := {model});
    assert s.db.profiles[model := profile] == d.profiles && s.db.approved + {model} == d.approved;
  }

  lemma TwoAreFunded(s: State, d: DB, a: Id, b: Id, amount: int) returns (s': State)
    requires Leads(s, State(d, map[])) && Idle(map[], 0) && d.recharges == map[] && d.ledger == []
    requires a != b && amount >= d.cfg.minRecharge
    ensures Leads(s, s') && Idle(s'.tasks, 4)
    ensures s'.db == d.(ledger := s'.db.ledger, recharges := s'.db.recharges)
    ensures Balance(s'.db.ledger, Client(a)) == amount == Balance(s'.db.ledger, Client(b))
  {
    assert Posted(d.ledger) == {};
    assert Balance(d.ledger, Client(a)) == 0 == Balance(d.ledger, Client(b));
    hide Leads, Idle, Sum, Posted, Funded, DoneFunding;
    ClientIsFunded(s, d, map[], 0, "first", a, amount);
    FundedWrites(d, "first", a, amount);
    var d1, ts1 := Funded(d, "first", a, amount), DoneFunding(map[], 0, a, amount);
    ClientIsFunded(s, d1, ts1, 2, "second", b, amount);
    FundedWrites(d1, "second", b, amount);
    s' := State(Funded(d1, "second", b, amount), DoneFunding(ts1, 2, b, amount));
  }

  /** From any start: a reachable state in which two clients can afford the same free model. */
  lemma TwoClientsCanStart(s: State, a: Id, b: Id, model: Id, price: nat) returns (s': State)
    requires Init(s) && a != b
    ensures Theorems.Reachable(s') && Idle(s'.tasks, 4) && s'.db.calls == map[]
    ensures CanStart(s'.db, a, model) && CanStart(s'.db, b, model) && s'.db.profiles[model].price == price
  {
    hide Leads, Idle, Init, Theorems.Reachable, Sum, Posted, ValidConfig;
    var d := ModelJoins(s, model, Profile(price, None));
    var amount := if price >= d.cfg.minRecharge then price else d.cfg.minRecharge;
    s' := TwoAreFunded(s, d, a, b, amount);
    LeadsToReachable(s, s');
  }

  /** Two open calls of one model can be reached from any start, for any model and price. */
  lemma TwoOpenCallsAreReachable(s: State, a: Id, b: Id, model: Id, price: nat) returns (s': State, x: Id, y: Id)
    requires Init(s) && a != b
    ensures Theorems.Reachable(s') && x != y
    ensures IsOpen(s'.db.calls, x) && IsOpen(s'.db.calls, y)
    ensures s'.db.calls[x].model == model == s'.db.calls[y].model
  {
    hide Init, CanStart, Leads, Theorems.Reachable;
    var s1 := TwoClientsCanStart(s, a, b, model, price);
    x, y := "x", "y";
    s' := SecondOpenCallOfOneModel(s1, 4, a, b, model, x, y);
    LeadsToReachable(s1, s');
  }

  /** From any start: an update stores the charge and reports an error, the provider confirms, and the
      creation then writes FAILED. The user was credited, and the recharge says FAILED. */
  lemma PaidOverwrittenIsReachable(s: State, user: Id, amount: int) returns (s': State, id: Id)
    requires Init(s) && amount >= s.db.cfg.minRecharge
    ensures Theorems.Reachable(s') && id in s'.db.recharges
    ensures s'.db.recharges[id].status == RechargeFailed && s'.db.recharges[id].user == user
    ensures RechargePaid(id) in Posted(s'.db.ledger) && Balance(s'.db.ledger, Client(user)) == amount
  {
    hide Leads;
    id := "";
    var d := s.db;
    StartIsReachable(s);
    Stay(s);
    assert Idle(s.tasks, 0) && d.ledger == [] && d.recharges == map[] && Balance(d.ledger, Client(user)) == 0;
    hide Leads, Idle, Init, Theorems.Reachable, Sum, Posted;
    ChargeIsLost(s, d, s.tasks, 0, id, user, amount);
    var d1, ts1 := Created(d, id, user, amount), s.tasks[0 := Charge(user, amount, RS.Losing(id))];
    MoreIdle(s.tasks, 0, Charge(user, amount, RS.Losing(id)));
    FundedWrites(d, id, user, amount);
    NothingPosted(d.ledger, RechargePaid(id));
    RechargeIsConfirmed(s, d1, ts1, 1, id, id, user, amount);
    var d2, ts2 := Funded(d, id, user, amount), ts1[1 := Charge(user, amount, RS.Finished)];
    assert ts2[0 := Charge(user, amount, RS.Losing(id))] == ts2;
    hide Funded;
    Then(s, d2, ts2, 0, Charge(user, amount, RS.Losing(id)), NO, FailRecharge(d2, id), Charge(user, amount, RS.Finished));
    s' := State(FailRecharge(d2, id), ts2[0 := Charge(user, amount, RS.Finished)]);
    LeadsToReachable(s, s');
  }

  lemma NothingPosted(l: seq<Entry>, g: Group)
    requires l == []
    ensures g !in Posted(l)
  {
  }

  lemma ChargeIsLost(s: State, d: DB, ts: map<Tid, Task>, t: Tid, id: Id, user: Id, amount: int)
    requires Leads(s, State(d, ts)) && Idle(ts, t) && id !in d.recharges && amount >= d.cfg.minRecharge
    ensures Leads(s, State(Created(d, id, user, amount), ts[t := Charge(user, amount, RS.Losing(id))]))
  {
    hide Leads, Idle;
    var d1 := OpenRecharge(d, id, user, amount);
    IdleIsFree(ts, t, {});
    ThenSpawn(s, d, ts, t, Charge(user, amount, RS.Checking));
    ThenAmongIdle(s, d, ts, t, Charge(user, amount, RS.Checking), NO.(id := id), d1, Charge(user, amount, RS.Created(id)));
    ThenAmongIdle(s, d1, ts, t, Charge(user, amount, RS.Created(id)), YES.(text := id), d1, Charge(user, amount, RS.Charged(id, id, 0)));
    ThenAmongIdle(s, d1, ts, t, Charge(user, amount, RS.Charged(id, id, 0)), NO.(moved := true),
         Created(d, id, user, amount), Charge(user, amount, RS.Losing(id)));
  }

  // ------------------------------------------------------------- a payout is asked

  function Giver(client: Id, model: Id, phase: GS.Phase): Task {
    Gifting(GS.Task(client, model, phase))
  }

  /** A gift whose model keeps everything. */
  function Given(d: DB, id: Id, client: Id, model: Id, price: int): DB {
    PostGift(d, id, client, model, price, 0)
  }

  ghost predicate KeepsAll(d: DB, model: Id) {
    model in d.profiles && d.profiles[model].takeRate == Some(0.0)
  }

  lemma NoCommission(price: int)
    ensures TakeRate.ComputeSplit(price, 0.0).commission == 0
  {
  }

  /** A gift that nobody disturbs and that its client can pay is stored, at the model's rate. */
  lemma GiftIsSent(s: State, d: DB, ts: map<Tid, Task>, t: Tid, id: Id, client: Id, model: Id, price: nat)
    requires Leads(s, State(d, ts)) && Idle(ts, t) && id !in d.gifts && GiftSent(id) !in Posted(d.ledger)
    requires d.cfg.tiers != [] && price <= Balance(d.ledger, Client(client))
    ensures Leads(s, State(PostGift(d, id, client, model, price, Atomic.CommissionOf(d, model, price)),
                           ts[t := Giver(client, model, GS.Finished)]))
  {
    hide Leads, Idle, Posted, Sum, TakeRate.ComputeSplit, PostGift, TierRate;
    IdleIsFree(ts, t, {});
    var balance, rate := Balance(d.ledger, Client(client)), RateOf(d, model);
    var own := if model in d.profiles then d.profiles[model].takeRate else None;
    ThenSpawn(s, d, ts, t, Giver(client, model, GS.Waiting));
    ThenAmongIdle(s, d, ts, t, Giver(client, model, GS.Waiting), NO, d, Giver(client, model, GS.Locked));
    ThenAmongIdle(s, d, ts, t, Giver(client, model, GS.Locked), YES.(amount := price), d, Giver(client, model, GS.Named(price)));
    ThenAmongIdle(s, d, ts, t, Giver(client, model, GS.Named(price)), YES, d, Giver(client, model, GS.Checked(price)));
    ThenAmongIdle(s, d, ts, t, Giver(client, model, GS.Checked(price)), NO, d, Giver(client, model, GS.Funded(price, balance)));
    ThenAmongIdle(s, d, ts, t, Giver(client, model, GS.Funded(price, balance)), NO, d, Giver(client, model, GS.Profiled(price, own)));
    ThenAmongIdle(s, d, ts, t, Giver(client, model, GS.Profiled(price, own)), NO, d, Giver(client, model, GS.Priced(price, rate)));
    ThenAmongIdle(s, d, ts, t, Giver(client, model, GS.Priced(price, rate)), NO.(id := id),
         PostGift(d, id, client, model, price, Atomic.CommissionOf(d, model, price)), Giver(client, model, GS.Finished));
  }

  lemma WholeGiftIsSent(s: State, d: DB, ts: map<Tid, Task>, t: Tid, id: Id, client: Id, model: Id, price: nat)
    requires Leads(s, State(d, ts)) && Idle(ts, t) && id !in d.gifts && GiftSent(id) !in Posted(d.ledger)
    requires d.cfg.tiers != [] && KeepsAll(d, model) && price <= Balance(d.ledger, Client(client))
    ensures Leads(s, State(Given(d, id, client, model, price), ts[t := Giver(client, model, GS.Finished)]))
  {
    hide Leads, Idle, Posted, Sum, TakeRate.ComputeSplit, PostGift, TierRate;
    NoCommission(price);
    GiftIsSent(s, d, ts, t, id, client, model, price);
  }

  lemma GivenWrites(d: DB, id: Id, client: Id, model: Id, price: nat)
    ensures var d' := Given(d, id, client, model, price);
      && d' == d.(ledger := d'.ledger, gifts := d'.gifts)
      && Balance(d'.ledger, Model(model)) == Balance(d.ledger, Model(model)) + price
      && GrossEarned(d'.ledger, model) == GrossEarned(d.ledger, model) + price
      && Posted(d'.ledger) == Posted(d.ledger) + {GiftSent(id)}
  {
    var lines := GiftLines(client, model, price, 0);
    PostedByRows(d.ledger, GiftSent(id), lines);
    SumOfThree(d.ledger, GiftSent(id), lines[0], lines[1], lines[2], OfAccount(Model(model)));
    SumOfThree(d.ledger, GiftSent(id), lines[0], lines[1], lines[2], EarnedBy(model));
    hide Posted, Sum, Rows;
  }

  function Asker(model: Id, amount: int, phase: PS.Phase): Task {
    Paying(PS.Task(model, amount, None, [], phase))
  }

  lemma PayoutIsAsked(s: State, d: DB, ts: map<Tid, Task>, t: Tid, id: Id, model: Id, amount: int)
    requires Leads(s, State(d, ts)) && Idle(ts, t) && id !in d.payouts
    requires model in d.approved && d.cfg.minPayout <= amount <= Balance(d.ledger, Model(model))
    ensures Leads(s, State(OpenPayout(d, id, model, amount), ts[t := Asker(model, amount, PS.Finished)]))
  {
    hide Leads, Idle, Sum, OpenPayout;
    IdleIsFree(ts, t, {});
    var balance := Balance(d.ledger, Model(model));
    ThenSpawn(s, d, ts, t, Asker(model, amount, PS.CheckingKyc));
    ThenAmongIdle(s, d, ts, t, Asker(model, amount, PS.CheckingKyc), NO, d, Asker(model, amount, PS.CheckingMinimum));
    ThenAmongIdle(s, d, ts, t, Asker(model, amount, PS.CheckingMinimum), NO, d, Asker(model, amount, PS.Waiting));
    ThenAmongIdle(s, d, ts, t, Asker(model, amount, PS.Waiting), NO, d, Asker(model, amount, PS.Locked));
    ThenAmongIdle(s, d, ts, t, Asker(model, amount, PS.Locked), NO, d, Asker(model, amount, PS.Funded(balance)));
    ThenAmongIdle(s, d, ts, t, Asker(model, amount, PS.Funded(balance)), NO.(id := id),
         OpenPayout(d, id, model, amount), Asker(model, amount, PS.Finished));
  }

  /** From any start: a reachable state with a PENDING payout of any amount from the minima up. */
  lemma PendingPayoutIsReachable(s: State, client: Id, model: Id, amount: nat) returns (s': State, p: Id)
    requires Init(s) && amount >= s.db.cfg.minRecharge && amount >= s.db.cfg.minPayout
    ensures Theorems.Reachable(s') && Leads(s, s') && Idle(s'.tasks, 4) && s'.db.cfg == s.db.cfg
    ensures p in s'.db.payouts && s'.db.payouts[p] == Payout(model, amount, PayoutPending, None)
    ensures p !in s'.db.sent && PayoutReversed(p) !in Posted(s'.db.ledger)
  {
    hide Leads, Idle, Init, Theorems.Reachable, Sum, Posted, Rows;
    var d := ModelJoins(s, model, Profile(0, Some(0.0)));
    var s1 := ModelEarns(s, d, client, model, amount, amount);
    p := "";
    PayoutIsAsked(s, s1.db, s1.tasks, 3, p, model, amount);
    MoreIdle(s1.tasks, 3, Asker(model, amount, PS.Finished));
    PostedByRows(s1.db.ledger, PayoutAsked(p), PayoutLines(model, amount));
    s' := State(OpenPayout(s1.db, p, model, amount), s1.tasks[3 := Asker(model, amount, PS.Finished)]);
    LeadsToReachable(s, s');
  }

  /** A client pays in and gives some of it to a model who keeps everything. */
  lemma ModelEarns(s: State, d: DB, client: Id, model: Id, paid: nat, amount: nat) returns (s': State)
    requires Leads(s, State(d, map[])) && Idle(map[], 0) && ValidConfig(d.cfg) && KeepsAll(d, model)
    requires d.ledger == [] && d.recharges == map[] && d.gifts == map[]
    requires d.cfg.minRecharge <= paid && amount <= paid
    ensures Leads(s, s') && Idle(s'.tasks, 3)
    ensures s'.db == d.(ledger := s'.db.ledger, recharges := s'.db.recharges, gifts := s'.db.gifts)
    ensures Balance(s'.db.ledger, Model(model)) == amount == GrossEarned(s'.db.ledger, model)
    ensures forall id :: PayoutReversed(id) !in Posted(s'.db.ledger)
  {
    assert Posted(d.ledger) == {};
    assert Balance(d.ledger, Client(client)) == 0 == Balance(d.ledger, Model(model)) && GrossEarned(d.ledger, model) == 0;
    hide Leads, Idle, Sum, Posted, Funded, DoneFunding, Given;
    ClientIsFunded(s, d, map[], 0, "", client, paid);
    FundedWrites(d, "", client, paid);
    ModelUntouched(d, "", client, paid, model);
    var d1, ts1 := Funded(d, "", client, paid), DoneFunding(map[], 0, client, paid);
    WholeGiftIsSent(s, d1, ts1, 2, "", client, model, amount);
    GivenWrites(d1, "", client, model, amount);
    MoreIdle(ts1, 2, Giver(client, model, GS.Finished));
    s' := State(Given(d1, "", client, model, amount), ts1[2 := Giver(client, model, GS.Finished)]);
  }

  lemma ModelUntouched(d: DB, id: Id, user: Id, amount: int, model: Id)
    ensures Balance(Funded(d, id, user, amount).ledger, Model(model)) == Balance(d.ledger, Model(model))
    ensures GrossEarned(Funded(d, id, user, amount).ledger, model) == GrossEarned(d.ledger, model)
  {
    var lines := RechargeLines(user, amount);
    SumOfTwo(d.ledger, RechargePaid(id), lines[0], lines[1], OfAccount(Model(model)));
    SumOfTwo(d.ledger, RechargePaid(id), lines[0], lines[1], EarnedBy(model));
  }

  /** A payout both sent and given back can be reached from any start. */
  lemma SentAndReversedIsReachable(s: State, client: Id, model: Id, amount: nat) returns (s': State, p: Id)
    requires Init(s) && amount >= s.db.cfg.minRecharge && amount >= s.db.cfg.minPayout
    ensures Theorems.Reachable(s') && Leads(s, s')
    ensures p in s'.db.sent && PayoutReversed(p) in Posted(s'.db.ledger)
    ensures p in s'.db.payouts && s'.db.payouts[p].status == PayoutFailed
  {
    assert s.db.cfg.stuckMs > 0;
    hide Init, Leads, Theorems.Reachable, Posted, Idle;
    var s1;
    s1, p := PendingPayoutIsReachable(s, client, model, amount);
    s' := SlowWorkerReversesASentPayout(s1, 4, p);
    LeadsToReachable(s1, s');
    Chain(s, s1, s');
  }

  /** A calm run goes on calmly with a step that takes nothing over. */
  lemma CalmStep(s: State, step: Step)
    requires Lease.CalmReachable(s, false) && Enabled(s, step) && !Lease.Takeover(s, step)
    ensures Lease.CalmReachable(Apply(s, step), false)
  {
    hide Enabled, Apply, Init, Lease.Takeover, CanRun, Run;
    var start, steps :| Init(start) && CanRun(start, steps) && Lease.CalmRun(start, steps) && s == Run(start, steps);
    AppendCalm(start, steps, step);
    assert Init(start) && CanRun(start, steps + [step]) && Lease.CalmRun(start, steps + [step]);
  }

  lemma {:induction false} AppendCalm(s: State, steps: seq<Step>, step: Step)
    requires CanRun(s, steps) && Lease.CalmRun(s, steps)
    requires Enabled(Run(s, steps), step) && !Lease.Takeover(Run(s, steps), step)
    ensures CanRun(s, steps + [step]) && Lease.CalmRun(s, steps + [step])
    ensures Run(s, steps + [step]) == Apply(Run(s, steps), step)
    decreases |steps|
  {
    hide Enabled, Apply, Lease.Takeover;
    if steps == [] {
      assert [step][1..] == [] && steps + [step] == [step];
      assert CanRun(Apply(s, step), []) && Lease.CalmRun(Apply(s, step), []);
    } else {
      assert (steps + [step])[1..] == steps[1..] + [step];
      AppendCalm(Apply(s, steps[0]), steps[1..], step);
    }
  }

  /** A run that is not calm has a first takeover, in a state where every lease still holds. */
  lemma {:induction false} FirstTakeover(s: State, steps: seq<Step>) returns (s': State, step: Step)
    requires Lease.CalmReachable(s, false) && CanRun(s, steps) && !Lease.CalmRun(s, steps)
    ensures Lease.CalmReachable(s', false) && Enabled(s', step) && Lease.Takeover(s', step)
    decreases |steps|
  {
    hide Enabled, Apply, Lease.Takeover, Lease.CalmReachable;
    if Lease.Takeover(s, steps[0]) {
      s', step := s, steps[0];
    } else {
      CalmStep(s, steps[0]);
      s', step := FirstTakeover(Apply(s, steps[0]), steps[1..]);
    }
  }

  /** Takeovers do happen: from any start a state is reached in which all leases hold and the next
      step gives a payout a second live worker. */
  lemma TakeoverIsReachable(s: State, client: Id, model: Id, amount: nat) returns (s': State, step: Step)
    requires Init(s) && amount >= s.db.cfg.minRecharge && amount >= s.db.cfg.minPayout
    ensures Lease.CalmReachable(s', false) && Enabled(s', step) && Lease.OneWorkerEach(s') && !Lease.OneWorkerEach(Apply(s', step))
  {
    var last, p := SentAndReversedIsReachable(s, client, model, amount);
    var steps := RunToSentAndReversed(s, last, p);
    CalmStart(s);
    hide Lease.CalmReachable, Enabled, Apply, Lease.Takeover, Lease.OneWorkerEach, Leads, CanRun, Init;
    s', step := FirstTakeover(s, steps);
    Lease.CalmReachableInv(s', false);
    hide Inv, Lease.LeaseInv;
    Lease.LeaseMeansOneWorker(s');
    Lease.TakeoverMakesTwo(s', step);
  }

  lemma CalmStart(s: State)
    requires Init(s)
    ensures Lease.CalmReachable(s, false)
  {
    hide Init;
    assert CanRun(s, []) && Lease.CalmRun(s, []) && Run(s, []) == s;
  }

  /** With an idempotent provider, a run that ends sent and given back is not calm. */
  lemma RunToSentAndReversed(s: State, s': State, p: Id) returns (steps: seq<Step>)
    requires Init(s) && Leads(s, s') && p in s'.db.sent && PayoutReversed(p) in Posted(s'.db.ledger)
    ensures CanRun(s, steps) && !Lease.CalmRun(s, steps)
  {
    InitInv(s);
    Lease.InitLease(s);
    hide Init, Inv, CanRun, Run, Lease.HonestRun, Lease.CalmRun;
    steps :| CanRun(s, steps) && Lease.HonestRun(s, steps) && Run(s, steps) == s';
    if Lease.CalmRun(s, steps) {
      Lease.RunKeepsLease(s, steps);
      NotBoth(s', p);
      assert false;
    }
  }

  lemma NotBoth(s: State, p: Id)
    requires Lease.LeaseInv(s) && Lease.SentInv(s)
    ensures !(p in s.db.sent && PayoutReversed(p) in Posted(s.db.ledger))
  {
    assert p in s.db.payouts ==> (Lease.Reversed(s.db, p) <==> PayoutReversed(p) in Posted(s.db.ledger));
  }
}

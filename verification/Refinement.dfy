/** An operation that nobody disturbs, statement by statement, is a run of atomic transactions: its
    checks are those of the atomic steps, and what it writes is what they write. */
module Refinement {
  import opened Prelude
  import opened Tables
  import opened Ledger
  import opened Writes
  import opened Invariant
  import opened Machine
  import Atomic
  import AtomicRuns
  import Simulation
  import Steps
  import TakeRate
  import Theorems
  import Traces
  import TM = TaximeterSteps
  import GS = GiftSteps
  import CS = CallSteps
  import PS = PayoutSteps
  import RS = RechargeSteps

  /** What the worker has read is what the database says. */
  ghost predicate ReadsTrue(d: DB, t: Task) {
    match t
    case Meter(m) => (m.phase.Scan? && m.dues == []) || Simulation.ReadsTrue(d, m)
    case Gifting(g) => d.cfg.tiers != [] ==> GiftTrue(d, g)
    case Calling(c) => CallTrue(d, c)
    case Paying(p) => PayTrue(d, p)
    case Charging(r) => ChargeTrue(d, r)
    case Dead => true
  }

  ghost predicate GiftTrue(d: DB, g: GS.Task)
    requires d.cfg.tiers != []
  {
    var balance := Balance(d.ledger, Client(g.client));
    match g.phase
    case Funded(_, b) => b == balance
    case Profiled(price, o) => price <= balance && o == if g.model in d.profiles then d.profiles[g.model].takeRate else None
    case Priced(price, rate) => price <= balance && rate == RateOf(d, g.model)
    case _ => true
  }

  ghost predicate CallTrue(d: DB, c: CS.Task) {
    var free := !CS.OpenOfClient(d, c.client);
    match c.phase
    case ClientFree => free
    case Known(price) => free && PriceTrue(d, c.model, price)
    case ModelFree(price) => free && PriceTrue(d, c.model, price) && !CS.OpenOfModel(d, c.model)
    case Online(price) => free && PriceTrue(d, c.model, price) && !CS.OpenOfModel(d, c.model)
    case Affordable(price, b) =>
      free && PriceTrue(d, c.model, price) && !CS.OpenOfModel(d, c.model) && b == Balance(d.ledger, Client(c.client))
    case Pending(_, row) => Rings(d, c, row)
    case Alone(_, row) => Rings(d, c, row)
    case Funded(_, row, b) => Rings(d, c, row) && b == Balance(d.ledger, Client(row.client))
    case _ => true
  }

  ghost predicate PriceTrue(d: DB, model: Id, price: int) {
    model in d.profiles && d.profiles[model].price == price
  }

  /** The call being accepted is the worker's own, it rings, and not for too long. */
  ghost predicate Rings(d: DB, c: CS.Task, row: Call) {
    c.call in d.calls && row == d.calls[c.call] && row.model == c.model && row.status == Requested && !IsExpired(d.now, row.requestedAt)
  }

  ghost predicate PayTrue(d: DB, p: PS.Task) {
    p.phase.Funded? ==> p.phase.balance == Balance(d.ledger, Model(p.model))
  }

  ghost predicate ChargeTrue(d: DB, r: RS.Task) {
    match r.phase
    case Found(id) => id in d.recharges && d.recharges[id].amount == r.amount
    case _ => true
  }

  // ------------------------------------------------------------------ statements

  lemma GiftStatement(d: DB, g: GS.Task, o: Steps.Oracle)
    requires GS.CanAct(d, g, o) && GS.Ok(d, g) && GiftTrue(d, g)
    ensures var e := GS.Act(d, g, o);
      AtomicRuns.Leads(d, e.db) && e.db.cfg == d.cfg && GiftTrue(e.db, e.task)
  {
    hide AtomicRuns.Leads, Posted, Sum, Rows, TakeRate.ComputeSplit, TierRate;
    AtomicRuns.Stay(d);
    if g.phase.Priced? {
      AtomicRuns.One(d, AtomicRuns.SendGift(o.id, g.client, g.model, g.phase.price));
    }
  }

  lemma CallStatement(d: DB, c: CS.Task, o: Steps.Oracle)
    requires CS.CanAct(d, c, o) && CS.Ok(d, c) && CallTrue(d, c)
    ensures var e := CS.Act(d, c, o);
      AtomicRuns.Leads(d, e.db) && CallTrue(e.db, e.task)
  {
    hide AtomicRuns.Leads, Sum, IsExpired, CS.OpenOfClient, CS.OpenOfModel, CS.OtherActive, CS.ClientHasNone, CS.ModelHasNone;
    AtomicRuns.Stay(d);
    match c.phase {
      case Affordable(price, b) => if b >= price { AtomicRuns.One(d, AtomicRuns.Start(o.id, c.client, c.model)); }
      case Funded(_, row, b) => if b >= row.price { AtomicRuns.One(d, AtomicRuns.Accept(c.call, c.model)); }
      case TimedOut => AtomicRuns.One(d, AtomicRuns.EndCall(c.call, {Requested}, Timeout));
      case Unfunded => AtomicRuns.One(d, AtomicRuns.EndCall(c.call, {Requested}, NoCredits));
      case _ =>
    }
  }

  lemma PayStatement(d: DB, p: PS.Task, o: Steps.Oracle)
    requires PS.CanAct(d, p, o) && PS.Ok(d, p) && PayTrue(d, p)
    ensures var e := PS.Act(d, p, o);
      AtomicRuns.Leads(d, e.db) && PayTrue(e.db, e.task)
  {
    hide AtomicRuns.Leads, Posted, Sum, Rows, Claimable, TM.Lists;
    AtomicRuns.Stay(d);
    match p.phase {
      case Funded(b) => if b >= p.amount { AtomicRuns.One(d, AtomicRuns.RequestPayout(o.id, p.model, p.amount)); }
      case Claiming =>
        if p.queue != [] && p.queue[0] in d.payouts && Claimable(d.payouts[p.queue[0]], p.cutoff) {
          AtomicRuns.One(d, AtomicRuns.ClaimPayout(p.queue[0], p.cutoff));
        }
      case Sending(id, _) => AtomicRuns.One(d, AtomicRuns.MoveMoney(id));
      case Marking(id, _) => AtomicRuns.One(d, AtomicRuns.Pay(id));
      case Reversing(id, _) => AtomicRuns.One(d, AtomicRuns.GiveBack(id));
      case _ =>
    }
  }

  lemma ChargeStatement(d: DB, r: RS.Task, o: Steps.Oracle)
    requires RS.CanAct(d, r, o) && RS.Ok(d, r) && ChargeTrue(d, r)
    ensures var e := RS.Act(d, r, o);
      AtomicRuns.Leads(d, e.db) && ChargeTrue(e.db, e.task)
  {
    hide AtomicRuns.Leads, Posted, Sum, Rows;
    AtomicRuns.Stay(d);
    match r.phase {
      case Checking => if r.amount >= d.cfg.minRecharge { AtomicRuns.One(d, AtomicRuns.CreateRecharge(o.id, r.user, r.amount)); }
      case Charged(id, chargeId, expiresAt) => AtomicRuns.One(d, AtomicRuns.StoreCharge(id, chargeId, expiresAt));
      case Failing(id) => AtomicRuns.One(d, AtomicRuns.GiveUp(id));
      case Losing(id) => AtomicRuns.One(d, AtomicRuns.GiveUp(id));
      case Found(id) => AtomicRuns.One(d, AtomicRuns.Confirm(id, d.recharges[id].chargeId.value, r.amount));
      case _ =>
    }
  }

  lemma MeterStatement(d: DB, m: TM.Task, o: Steps.Oracle)
    requires TM.CanAct(d, m, o) && TM.Ok(d, m) && ((m.phase.Scan? && m.dues == []) || Simulation.ReadsTrue(d, m))
    ensures var e := TM.Act(d, m, o);
      AtomicRuns.Leads(d, e.db) && Simulation.ReadsTrue(e.db, e.task)
  {
    hide AtomicRuns.Leads, Posted, Sum, Rows, Simulation.ReadsTrue, TM.Lists;
    AtomicRuns.Stay(d);
    if m.phase.Scan? {
      ScanReadsTrue(d, m, o);
    } else {
      Simulation.StatementChargesOn(d, m, o);
      hide TM.Act, TM.CanAct;
      if m.dues != [] && m.dues[0].next <= m.dues[0].last {
        DueIsDue(d, m);
        AtomicRuns.One(d, AtomicRuns.Charge(m.dues[0].call, m.dues[0].next));
      }
    }
  }

  lemma ScanReadsTrue(d: DB, m: TM.Task, o: Steps.Oracle)
    requires TM.CanAct(d, m, o) && m.phase.Scan?
    ensures TM.Act(d, m, o).db == d && Simulation.ReadsTrue(d, TM.Act(d, m, o).task)
  {
    Simulation.DuesAreDistinct(d.calls, o.ids, m.phase.now);
  }

  lemma DueIsDue(d: DB, m: TM.Task)
    requires TM.Ok(d, m) && m.dues != [] && m.dues[0].next <= m.dues[0].last
    ensures Atomic.IsDue(d, m.dues[0].call, m.dues[0].next)
  {
    hide TM.PhaseOk;
    assert TM.DueOk(d, m.dues[0]);
  }

  /** Every statement of every worker that reads the truth is a step of an atomic run, or none. */
  lemma StatementIsAtomic(d: DB, t: Task, o: Steps.Oracle)
    requires TaskOk(d, t) && CanAct(d, t, o) && ReadsTrue(d, t)
    ensures var e := Act(d, t, o);
      AtomicRuns.Leads(d, e.db) && ReadsTrue(e.db, e.task)
  {
    hide TM.Ok, GS.Ok, CS.Ok, PS.Ok, RS.Ok, TM.CanAct, CS.CanAct, PS.CanAct, RS.CanAct, TM.Act, GS.Act, CS.Act, PS.Act, RS.Act;
    hide AtomicRuns.Leads, GiftTrue, CallTrue, PayTrue, ChargeTrue, Simulation.ReadsTrue;
    match t {
      case Meter(m) => MeterStatement(d, m, o);
      case Gifting(g) => GiftStatement(d, g, o);
      case Calling(c) => CallStatement(d, c, o);
      case Paying(p) => PayStatement(d, p, o);
      case Charging(r) => ChargeStatement(d, r, o);
    }
  }

  lemma FailureReadsTrue(d: DB, t: Task)
    requires ReadsTrue(d, t) && d.cfg.tiers != []
    ensures ReadsTrue(d, Failed(t))
  {
    if t.Meter? && !t.meter.phase.Scan? { Simulation.FailedReadsTrue(d, t.meter); }
    hide Simulation.PhaseTrue;
  }

  lemma NewWorkerReadsTrue(d: DB, t: Task)
    requires Starts(d, t)
    ensures ReadsTrue(d, t)
  {
  }

  // ------------------------------------------------------------------- lone runs

  lemma {:induction false} LoneRunIsAtomic(s: State, t: Tid, steps: seq<Step>)
    requires Inv(s) && t in s.tasks && ReadsTrue(s.db, s.tasks[t]) && CanRun(s, steps) && Simulation.Lone(steps, t)
    ensures AtomicRuns.Leads(s.db, Run(s, steps).db)
    decreases |steps|
  {
    hide DbInv, TaskOk, ReadsTrue, AtomicRuns.Leads, Act, CanAct, Free, AllOk, MutualExclusion, Failed, Guarantee;
    if steps == [] {
      AtomicRuns.Stay(s.db);
    } else {
      var s1 := Apply(s, steps[0]);
      assert Simulation.Lone(steps[1..], t);
      StepKeeps(s, steps[0]);
      TiersExist(s.db);
      if steps[0].Advance? {
        Theorems.TaskIsOk(s, t);
        StatementIsAtomic(s.db, s.tasks[t], steps[0].o);
      } else {
        FailureReadsTrue(s.db, s.tasks[t]);
        AtomicRuns.Stay(s.db);
      }
      LoneRunIsAtomic(s1, t, steps[1..]);
      AtomicRuns.Chain(s.db, s1.db, Run(s1, steps[1..]).db);
    }
  }

  lemma TiersExist(d: DB)
    requires DbInv(d)
    ensures d.cfg.tiers != []
  {
  }

  /** Any operation at all, from any reachable state: a worker is spawned, and then only its own
      statements and errors happen, as far as it gets. What it has done to the database is a run of
      atomic transactions, each with its checks passed. */
  lemma EveryLoneOperationIsAtomic(s: State, t: Tid, task: Task, steps: seq<Step>)
    requires Theorems.Reachable(s) && Enabled(s, Spawn(t, task))
    requires CanRun(Apply(s, Spawn(t, task)), steps) && Simulation.Lone(steps, t)
    ensures AtomicRuns.Leads(s.db, Run(Apply(s, Spawn(t, task)), steps).db)
  {
    Theorems.ReachableInv(s);
    hide Inv, ReadsTrue, AtomicRuns.Leads, Starts;
    NewWorkerReadsTrue(s.db, task);
    StepKeeps(s, Spawn(t, task));
    LoneRunIsAtomic(Apply(s, Spawn(t, task)), t, steps);
  }

  // ---------------------------------------------------------- the other direction

  /** The transactions that a worker can carry out. */
  predicate IsTransaction(step: AtomicRuns.Step) {
    step.SendGift? || step.Start? || step.Accept? || step.RequestPayout? || step.CreateRecharge? || step.Confirm? || step.ClaimPayout?
  }

  /** The operation is not refused where the transaction would pass: from every reachable state in
      which no lock is held, a new worker that nobody disturbs can do what the atomic step does. */
  lemma EveryTransactionHasALoneRun(s: State, t: Tid, step: AtomicRuns.Step) returns (ts: map<Tid, Task>)
    requires Theorems.Reachable(s) && Traces.Idle(s.tasks, t)
    requires IsTransaction(step) && AtomicRuns.CanStep(s.db, step)
    requires step.ClaimPayout? && step.cutoff.Some? ==> step.cutoff.value <= s.db.now - s.db.cfg.stuckMs
    ensures Traces.Leads(s, State(AtomicRuns.Next(s.db, step), ts))
  {
    hide Theorems.Reachable, Traces.Leads, Traces.Idle, DbInv, AllOk, MutualExclusion, Sum, Posted, Rows, Claimable;
    hide CS.OpenOfClient, CS.OpenOfModel, PostGift, OpenCall, OpenPayout, Activate, Credit, OpenRecharge, Claim, TierRate, TakeRate.ComputeSplit;
    Theorems.ReachableInv(s);
    Traces.Stay(s);
    match step {
      case Accept(call, model) => ts := AcceptHappens(s, t, call, model);
      case Start(id, client, model) =>
        Traces.IdleIsFree(s.tasks, t, {ClientKey(client), ModelKey(model)});
        Traces.StartSucceeds(s, s.db, s.tasks, t, client, model, id);
        ts := s.tasks[t := Traces.At("", client, model, CS.Finished)];
      case SendGift(id, client, model, price) =>
        GS.NoDuplicate(s.db, id);
        Traces.GiftIsSent(s, s.db, s.tasks, t, id, client, model, price);
        ts := s.tasks[t := Traces.Giver(client, model, GS.Finished)];
      case RequestPayout(id, model, amount) =>
        Traces.PayoutIsAsked(s, s.db, s.tasks, t, id, model, amount);
        ts := s.tasks[t := Traces.Asker(model, amount, PS.Finished)];
      case CreateRecharge(id, user, amount) => ts := CreationHappens(s, t, id, user, amount);
      case Confirm(id, chargeId, amount) => ts := ConfirmationHappens(s, t, id, chargeId, amount);
      case ClaimPayout(id, cutoff) =>
        var rest := Traces.ClaimHappens(s, s.db, s.tasks, t, id, cutoff);
        ts := s.tasks[t := Traces.Settler(cutoff, rest, PS.Sending(id, s.db.now))];
    }
  }

  lemma AcceptHappens(s: State, t: Tid, call: Id, model: Id) returns (ts: map<Tid, Task>)
    requires DbInv(s.db) && Traces.Leads(s, s) && Traces.Idle(s.tasks, t)
    requires Atomic.AcceptOutcome(s.db, call, model) == Atomic.Accepted
    ensures Traces.Leads(s, State(Activate(s.db, call), ts))
  {
    hide Traces.Leads, Traces.Idle, DbInv, Sum, Activate;
    var d, row := s.db, s.db.calls[call];
    NoOtherActive(d, call);
    Traces.IdleIsFree(s.tasks, t, {ClientKey(row.client)});
    Traces.AcceptReachesUpdate(s, d, s.tasks, t, call);
    var accept := Traces.AboutToActivate(call, row, Balance(d.ledger, Client(row.client)));
    var s' := Traces.UpdateReopens(s, d, s.tasks[t := accept], t, call, accept);
    ts := s'.tasks;
  }

  lemma NoOtherActive(d: DB, call: Id)
    requires DbInv(d) && call in d.calls && d.calls[call].status == Requested
    ensures !CS.OtherActive(d, d.calls[call].client, call)
  {
    forall id | id in d.calls && d.calls[id].client == d.calls[call].client && d.calls[id].status == Active && id != call
      ensures false
    {
      assert IsOpen(d.calls, id) && IsOpen(d.calls, call);
    }
  }

  lemma CreationHappens(s: State, t: Tid, id: Id, user: Id, amount: int) returns (ts: map<Tid, Task>)
    requires Traces.Leads(s, s) && Traces.Idle(s.tasks, t) && id !in s.db.recharges && amount >= s.db.cfg.minRecharge
    ensures Traces.Leads(s, State(OpenRecharge(s.db, id, user, amount), ts))
  {
    hide Traces.Leads, Traces.Idle;
    Traces.IdleIsFree(s.tasks, t, {});
    Traces.ThenSpawn(s, s.db, s.tasks, t, Traces.Charge(user, amount, RS.Checking));
    Traces.ThenAmongIdle(s, s.db, s.tasks, t, Traces.Charge(user, amount, RS.Checking), Traces.NO.(id := id),
      OpenRecharge(s.db, id, user, amount), Traces.Charge(user, amount, RS.Created(id)));
    ts := s.tasks[t := Traces.Charge(user, amount, RS.Created(id))];
  }

  lemma ConfirmationHappens(s: State, t: Tid, id: Id, chargeId: string, amount: int) returns (ts: map<Tid, Task>)
    requires DbInv(s.db) && Traces.Leads(s, s) && Traces.Idle(s.tasks, t)
    requires id in s.db.recharges && s.db.recharges[id].chargeId == Some(chargeId) && s.db.recharges[id].amount == amount
    ensures Traces.Leads(s, State(Credit(s.db, id), ts))
  {
    hide Traces.Leads, Traces.Idle, DbInv, Posted, Rows;
    ts := s.tasks;
    if s.db.recharges[id].status == RechargePending {
      RS.NoDuplicate(s.db, id);
      Traces.RechargeIsConfirmed(s, s.db, s.tasks, t, id, chargeId, "", amount);
      ts := s.tasks[t := Traces.Charge("", amount, RS.Finished)];
    }
  }
}

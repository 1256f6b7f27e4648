/** Whole runs at transaction granularity: each transaction, and each single update outside one, is
    one step. The lifecycle of a call, which interleaved statements can break, holds here. */
module AtomicRuns {
  import opened Prelude
  import opened Tables
  import opened Ledger
  import opened Writes
  import opened Invariant
  import opened Atomic
  import CS = CallSteps
  import PS = PayoutSteps

  datatype Step =
    | Tick(elapsed: nat)
    | SetProfile(model: Id, profile: Profile)
    | Approve(model: Id)
    | Charge(call: Id, minute: nat)
    | SendGift(id: Id, client: Id, model: Id, price: nat)
    | Start(id: Id, client: Id, model: Id)
    | Accept(call: Id, model: Id)
    | EndCall(call: Id, from: set<CallStatus>, reason: EndReason)
    | CreateRecharge(id: Id, user: Id, amount: int)
    | StoreCharge(id: Id, chargeId: string, expiresAt: int)
    | GiveUp(id: Id)
    | Confirm(id: Id, chargeId: string, amount: int)
    | Sweep
    | RequestPayout(id: Id, model: Id, amount: int)
    | ClaimPayout(id: Id, cutoff: Option<int>)
    | MoveMoney(id: Id)
    | Pay(id: Id)
    | GiveBack(id: Id)

  /** The expiry sweep is one update over all rows. */
  function Swept(rows: map<Id, Recharge>, now: int): map<Id, Recharge> {
    map x | x in rows :: if IsStale(rows[x], now) then rows[x].(status := RechargeExpired) else rows[x]
  }

  /** The transaction passes its own checks; refused ones write nothing and are no steps. */
  ghost predicate CanStep(d: DB, step: Step) {
    match step
    case Tick(_) => true
    case SetProfile(_, profile) => ValidProfile(profile)
    case Approve(_) => true
    case Charge(call, minute) => d.cfg.tiers != [] && IsDue(d, call, minute)
    case SendGift(id, client, _, price) => d.cfg.tiers != [] && id !in d.gifts && price <= Balance(d.ledger, Client(client))
    case Start(id, client, model) =>
      && id !in d.calls && !CS.OpenOfClient(d, client) && !CS.OpenOfModel(d, model)
      && model in d.profiles && d.profiles[model].price <= Balance(d.ledger, Client(client))
    case Accept(call, model) => AcceptOutcome(d, call, model) == Accepted
    case EndCall(call, from, reason) =>
      && from <= NOT_ENDED
      && (reason == Timeout ==> call in d.calls && IsExpired(d.now, d.calls[call].requestedAt))
      && (reason == Timeout || reason == Rejected ==> from == {Requested})
    case CreateRecharge(id, _, amount) => id !in d.recharges && amount >= d.cfg.minRecharge
    case StoreCharge(id, _, _) => id in d.recharges && d.recharges[id].chargeId.None?
    case GiveUp(id) => id in d.recharges
    case Confirm(id, chargeId, amount) =>
      id in d.recharges && d.recharges[id].chargeId == Some(chargeId) && d.recharges[id].amount == amount
    case Sweep => true
    case RequestPayout(id, model, amount) =>
      id !in d.payouts && model in d.approved && d.cfg.minPayout <= amount <= Balance(d.ledger, Model(model))
    case ClaimPayout(id, cutoff) => id in d.payouts && Claimable(d.payouts[id], cutoff)
    case MoveMoney(_) => true
    case Pay(id) => id in d.payouts
    case GiveBack(id) => id in d.payouts && PayoutReversed(id) !in Posted(d.ledger)
  }

  ghost function Next(d: DB, step: Step): DB
    requires CanStep(d, step)
  {
    match step
    case Tick(elapsed) => d.(now := d.now + elapsed)
    case SetProfile(model, profile) => d.(profiles := d.profiles[model := profile])
    case Approve(model) => d.(approved := d.approved + {model})
    case Charge(call, minute) => ChargeMinute(d, call, minute).0
    case SendGift(id, client, model, price) => PostGift(d, id, client, model, price, CommissionOf(d, model, price))
    case Start(id, client, model) => OpenCall(d, id, client, model, d.profiles[model].price)
    case Accept(call, _) => Activate(d, call)
    case EndCall(call, from, reason) => Close(d, call, from, reason)
    case CreateRecharge(id, user, amount) => OpenRecharge(d, id, user, amount)
    case StoreCharge(id, chargeId, expiresAt) => AttachCharge(d, id, chargeId, expiresAt)
    case GiveUp(id) => FailRecharge(d, id)
    case Confirm(id, _, _) => Credit(d, id)
    case Sweep => d.(recharges := Swept(d.recharges, d.now))
    case RequestPayout(id, model, amount) => OpenPayout(d, id, model, amount)
    case ClaimPayout(id, _) => Claim(d, id)
    case MoveMoney(id) => MarkSent(d, id)
    case Pay(id) => MarkPaid(d, id)
    case GiveBack(id) => Reverse(d, id)
  }

  ghost predicate CanRun(d: DB, steps: seq<Step>)
    decreases |steps|
  {
    steps == [] || (CanStep(d, steps[0]) && CanRun(Next(d, steps[0]), steps[1..]))
  }

  ghost function Run(d: DB, steps: seq<Step>): DB
    requires CanRun(d, steps)
    decreases |steps|
  {
    if steps == [] then d else Run(Next(d, steps[0]), steps[1..])
  }

  ghost predicate Leads(d: DB, d': DB) {
    exists steps: seq<Step> :: CanRun(d, steps) && Run(d, steps) == d'
  }

  ghost predicate Reachable(d: DB) {
    exists start: DB :: EmptyDB(start) && ValidConfig(start.cfg) && Leads(start, d)
  }

  lemma Stay(d: DB)
    ensures Leads(d, d)
  {
    assert CanRun(d, []) && Run(d, []) == d;
  }

  lemma One(d: DB, step: Step)
    requires CanStep(d, step)
    ensures Leads(d, Next(d, step))
  {
    hide CanStep, Next;
    var d' := Next(d, step);
    assert [step][1..] == [] && CanRun(d', []) && Run(d', []) == d';
    assert CanRun(d, [step]) && Run(d, [step]) == d';
  }

  lemma {:induction false} RunsJoin(d: DB, steps: seq<Step>, more: seq<Step>)
    requires CanRun(d, steps) && CanRun(Run(d, steps), more)
    ensures CanRun(d, steps + more) && Run(d, steps + more) == Run(Run(d, steps), more)
    decreases |steps|
  {
    hide CanStep, Next;
    if steps == [] {
      assert steps + more == more;
    } else {
      assert (steps + more)[1..] == steps[1..] + more;
      RunsJoin(Next(d, steps[0]), steps[1..], more);
    }
  }

  lemma Chain(d: DB, d': DB, d'': DB)
    requires Leads(d, d') && Leads(d', d'')
    ensures Leads(d, d'')
  {
    hide CanRun, Run;
    var a :| CanRun(d, a) && Run(d, a) == d';
    var b :| CanRun(d', b) && Run(d', b) == d'';
    RunsJoin(d, a, b);
  }

  /** What a reachable database leads to is reachable. */
  lemma LeadsToReachable(d: DB, d': DB)
    requires Reachable(d) && Leads(d, d')
    ensures Reachable(d')
  {
    hide Leads;
    var start :| EmptyDB(start) && ValidConfig(start.cfg) && Leads(start, d);
    Chain(start, d, d');
  }

  // --------------------------------------------------------------- every step

  /** How a call may move on: columns fixed at its creation or start stay, REQUESTED can become
      ACTIVE or ENDED, ACTIVE only ENDED, and why and when a call ended never changes. */
  ghost predicate Forward(c: Call, c': Call) {
    && c'.client == c.client && c'.model == c.model && c'.price == c.price && c'.requestedAt == c.requestedAt
    && c.billed <= c'.billed
    && (c.status == Active ==> c'.status != Requested)
    && (c.status == Ended ==> c'.status == Ended)
    && (c.startedAt.Some? ==> c'.startedAt == c.startedAt)
    && (c.endReason.Some? ==> c'.endReason == c.endReason && c'.endedAt == c.endedAt)
  }

  ghost predicate AllForward(calls: Calls, calls': Calls) {
    forall id :: id in calls ==> id in calls' && Forward(calls[id], calls'[id])
  }

  /** The invariant of atomic runs: the general one, and no call was ever reopened. */
  ghost predicate Inv(d: DB) {
    DbInv(d) && d.reopened == {}
  }

  ghost predicate AboutCalls(step: Step) {
    step.Charge? || step.Start? || step.Accept? || step.EndCall?
  }

  lemma RowOk(d: DB, id: Id)
    requires DbInv(d) && id in d.calls
    ensures CallOk(d.calls[id], d.now, id in d.reopened)
  {
  }

  lemma CallsAreOk(d: DB)
    requires DbInv(d)
    ensures CallsInv(d.calls, d.reopened, d.now)
  {
  }

  lemma ChargeForward(d: DB, call: Id, minute: nat)
    requires Inv(d) && d.cfg.tiers != [] && IsDue(d, call, minute)
    ensures Inv(ChargeMinute(d, call, minute).0) && AllForward(d.calls, ChargeMinute(d, call, minute).0.calls)
  {
    hide DbInv, Posted, Sum, Rows, CommissionOf, IsDue, DueMinute;
    ChargeKeeps(d, call, minute);
    if call in d.calls { RowOk(d, call); }
  }

  lemma StartForward(d: DB, id: Id, client: Id, model: Id)
    requires Inv(d) && CanStep(d, Start(id, client, model))
    ensures var d' := Next(d, Start(id, client, model)); Inv(d') && AllForward(d.calls, d'.calls)
  {
    hide DbInv, Guarantee, Sum, ProfilesOk, ValidConfig;
    MinimaAreNatural(d);
    PriceIsNatural(d.profiles, model);
    NoneOpenOf(d, client, model);
    hide CS.OpenOfClient, CS.OpenOfModel;
    OpenCallKeeps(d, id, client, model, d.profiles[model].price);
  }

  lemma PriceIsNatural(profiles: map<Id, Profile>, model: Id)
    requires ProfilesOk(profiles) && model in profiles
    ensures profiles[model].price >= 0
  {
    assert ValidProfile(profiles[model]);
  }

  lemma NoneOpenOf(d: DB, client: Id, model: Id)
    requires !CS.OpenOfClient(d, client) && !CS.OpenOfModel(d, model)
    ensures forall id :: IsOpen(d.calls, id) ==> d.calls[id].client != client && d.calls[id].model != model
  {
  }

  lemma AcceptForward(d: DB, call: Id, model: Id)
    requires Inv(d) && AcceptOutcome(d, call, model) == Accepted
    ensures Inv(Activate(d, call)) && AllForward(d.calls, Activate(d, call).calls)
  {
    hide DbInv, Guarantee, Sum, IsExpired, CallsInv;
    RowOk(d, call);
    CallsAreOk(d);
    CS.RingingAlone(d, call);
    ActivateKeeps(d, call);
  }

  lemma EndForward(d: DB, call: Id, from: set<CallStatus>, reason: EndReason)
    requires Inv(d) && CanStep(d, EndCall(call, from, reason))
    ensures Inv(Close(d, call, from, reason)) && AllForward(d.calls, Close(d, call, from, reason).calls)
  {
    hide DbInv, Guarantee, Sum, IsExpired, DueMinute;
    if call in d.calls { RowOk(d, call); }
    CloseKeeps(d, call, from, reason);
  }

  lemma CallStepKeeps(d: DB, step: Step)
    requires Inv(d) && CanStep(d, step) && AboutCalls(step)
    ensures Inv(Next(d, step)) && AllForward(d.calls, Next(d, step).calls)
  {
    hide DbInv, AllForward, CS.OpenOfClient, CS.OpenOfModel, Sum, AcceptOutcome, IsDue, IsExpired;
    match step {
      case Charge(call, minute) => ChargeForward(d, call, minute);
      case Start(id, client, model) => StartForward(d, id, client, model);
      case Accept(call, model) => AcceptForward(d, call, model);
      case EndCall(call, from, reason) => EndForward(d, call, from, reason);
    }
  }

  lemma SweepKeeps(d: DB)
    requires DbInv(d)
    ensures DbInv(d.(recharges := Swept(d.recharges, d.now)))
  {
    hide DbInv, Guarantee, RechargesOk, RechargesStep, Posted, Sum, ExpiriesOk;
    var rows := Swept(d.recharges, d.now);
    assert Credits(d.ledger, rows) == Credits(d.ledger, d.recharges);
    RowsAreOk(d);
    ExpiredWereOverdue(d);
    SweptRows(d.ledger, d.recharges, d.now);
    SweptExpiries(d.recharges, d.now);
    RechargesWriteKeeps(d, rows, {});
  }

  lemma SweptExpiries(rows: map<Id, Recharge>, now: int)
    requires ExpiriesOk(rows, now)
    ensures ExpiriesOk(Swept(rows, now), now)
  {
  }

  lemma SweptRows(l: seq<Entry>, rows: map<Id, Recharge>, now: int)
    requires RechargesOk(l, rows)
    ensures RechargesOk(l, Swept(rows, now)) && RechargesStep(rows, Swept(rows, now), {})
  {
    assert forall x :: x in rows ==> RechargeOk(l, x, rows[x]);
    hide Sum, Posted;
  }

  lemma MinimaAreNatural(d: DB)
    requires DbInv(d)
    ensures d.cfg.minRecharge >= 0 && d.cfg.minPayout >= 0 && ValidConfig(d.cfg) && ProfilesOk(d.profiles)
  {
  }

  lemma GiftKeeps(d: DB, id: Id, client: Id, model: Id, price: nat)
    requires DbInv(d) && CanStep(d, SendGift(id, client, model, price))
    ensures DbInv(Next(d, SendGift(id, client, model, price)))
  {
    hide DbInv, Guarantee, ValidConfig, ProfilesOk, Sum, CommissionOf;
    MinimaAreNatural(d);
    CommissionInRange(d, model, price);
    PostGiftKeeps(d, id, client, model, price, CommissionOf(d, model, price));
  }

  lemma RechargeStepKeeps(d: DB, step: Step)
    requires DbInv(d) && CanStep(d, step)
    requires step.CreateRecharge? || step.StoreCharge? || step.GiveUp? || step.Confirm? || step.Sweep?
    ensures DbInv(Next(d, step))
  {
    hide DbInv, Guarantee, ValidConfig, ProfilesOk, Swept, OpenRecharge, AttachCharge, FailRecharge, Credit;
    MinimaAreNatural(d);
    match step {
      case CreateRecharge(id, user, amount) => OpenRechargeKeeps(d, id, user, amount);
      case StoreCharge(id, chargeId, expiresAt) => AttachChargeKeeps(d, id, chargeId, expiresAt);
      case GiveUp(id) => FailRechargeKeeps(d, id);
      case Confirm(id, _, _) => CreditKeeps(d, id);
      case Sweep => SweepKeeps(d);
    }
  }

  lemma PayoutStepKeeps(d: DB, step: Step)
    requires DbInv(d) && CanStep(d, step)
    requires step.RequestPayout? || step.ClaimPayout? || step.MoveMoney? || step.Pay? || step.GiveBack?
    ensures DbInv(Next(d, step))
  {
    hide DbInv, Guarantee, ValidConfig, ProfilesOk, Claimable, Posted, Sum, OpenPayout, Claim, MarkSent, MarkPaid, Reverse;
    MinimaAreNatural(d);
    match step {
      case RequestPayout(id, model, amount) => OpenPayoutKeeps(d, id, model, amount);
      case ClaimPayout(id, _) => PS.ClaimKeeps(d, id);
      case MoveMoney(id) => PS.MarkSentKeeps(d, id);
      case Pay(id) => PS.MarkPaidKeeps(d, id);
      case GiveBack(id) => ReverseKeeps(d, id);
    }
  }

  lemma OutsideKeeps(d: DB, step: Step)
    requires DbInv(d) && CanStep(d, step) && (step.Tick? || step.SetProfile? || step.Approve?)
    ensures DbInv(Next(d, step))
  {
    hide DbInv, Guarantee, ValidConfig;
    MinimaAreNatural(d);
    match step {
      case Tick(elapsed) => RestKeeps(d, d.now + elapsed, d.profiles, d.approved, d.sent);
      case SetProfile(model, profile) => RestKeeps(d, d.now, d.profiles[model := profile], d.approved, d.sent);
      case Approve(model) => RestKeeps(d, d.now, d.profiles, d.approved + {model}, d.sent);
    }
  }

  lemma OtherCallsUntouched(d: DB, step: Step)
    requires CanStep(d, step) && !AboutCalls(step)
    ensures Next(d, step).calls == d.calls && Next(d, step).reopened == d.reopened
  {
    hide Sum, Posted, Rows, CommissionOf, IsDue, AcceptOutcome;
  }

  lemma StepKeeps(d: DB, step: Step)
    requires Inv(d) && CanStep(d, step)
    ensures Inv(Next(d, step)) && AllForward(d.calls, Next(d, step).calls)
  {
    hide DbInv, CanStep, Next;
    match step {
      case Charge(_, _) => CallStepKeeps(d, step);
      case Start(_, _, _) => CallStepKeeps(d, step);
      case Accept(_, _) => CallStepKeeps(d, step);
      case EndCall(_, _, _) => CallStepKeeps(d, step);
      case SendGift(id, client, model, price) => GiftKeeps(d, id, client, model, price);
      case Tick(_) => OutsideKeeps(d, step);
      case SetProfile(_, _) => OutsideKeeps(d, step);
      case Approve(_) => OutsideKeeps(d, step);
      case RequestPayout(_, _, _) => PayoutStepKeeps(d, step);
      case ClaimPayout(_, _) => PayoutStepKeeps(d, step);
      case MoveMoney(_) => PayoutStepKeeps(d, step);
      case Pay(_) => PayoutStepKeeps(d, step);
      case GiveBack(_) => PayoutStepKeeps(d, step);
      case _ => RechargeStepKeeps(d, step);
    }
    if !AboutCalls(step) { OtherCallsUntouched(d, step); }
  }

  // ---------------------------------------------------------------- whole runs

  lemma {:induction false} RunKeeps(d: DB, steps: seq<Step>)
    requires Inv(d) && CanRun(d, steps)
    ensures Inv(Run(d, steps)) && AllForward(d.calls, Run(d, steps).calls)
    decreases |steps|
  {
    hide Inv, CanStep, Next;
    if steps != [] {
      StepKeeps(d, steps[0]);
      RunKeeps(Next(d, steps[0]), steps[1..]);
    }
  }

  lemma ReachableInv(d: DB)
    requires Reachable(d)
    ensures Inv(d)
  {
    hide Inv, CanRun, Run, EmptyDB, ValidConfig;
    var start :| EmptyDB(start) && ValidConfig(start.cfg) && Leads(start, d);
    var steps :| CanRun(start, steps) && Run(start, steps) == d;
    EmptyIsOk(start);
    RunKeeps(start, steps);
  }

  lemma EmptyIsOk(d: DB)
    requires EmptyDB(d) && ValidConfig(d.cfg)
    ensures Inv(d)
  {
    EmptyDatabaseOk(d);
  }

  /** A status only moves on over any run, from any reachable state: REQUESTED to ACTIVE or ENDED,
      ACTIVE to ENDED; an end reason and its time, once written, stay; so do price and start. */
  lemma CallsOnlyMoveForward(d: DB, d': DB, call: Id)
    requires Reachable(d) && Leads(d, d') && call in d.calls
    ensures call in d'.calls && Forward(d.calls[call], d'.calls[call])
  {
    hide Inv, CanRun, Run, Forward, Reachable;
    ReachableInv(d);
    var steps :| CanRun(d, steps) && Run(d, steps) == d';
    RunKeeps(d, steps);
  }

  /** No call is ever reopened; no client and no model ever has two open calls. */
  lemma OneOpenCallEach(d: DB, i: Id, j: Id)
    requires Reachable(d) && IsOpen(d.calls, i) && IsOpen(d.calls, j)
    requires d.calls[i].client == d.calls[j].client || d.calls[i].model == d.calls[j].model
    ensures i == j
  {
    ReachableInv(d);
  }

  /** A call has an end reason exactly when it is ENDED; TIMEOUT and REJECTED end only calls that
      never started, TIMEOUT only after the ringing time. */
  lemma EndReasonsOfRuns(d: DB, call: Id)
    requires Reachable(d) && call in d.calls
    ensures var c := d.calls[call];
      && (c.endReason.Some? <==> c.status == Ended)
      && (c.endReason == Some(Timeout) || c.endReason == Some(Rejected) ==> c.startedAt.None? && c.billed == 0)
      && (c.endReason == Some(Timeout) ==> c.endedAt.Some? && c.endedAt.value - c.requestedAt > RING_TIMEOUT_MS)
  {
    hide DbInv, Reachable;
    ReachableInv(d);
    RowOk(d, call);
  }

  /** In every reachable database: no minute is billed before it has begun, and only overdue recharges
      are EXPIRED. */
  lemma NothingTooEarly(d: DB, call: Id, recharge: Id)
    requires Reachable(d)
    ensures call in d.calls && d.calls[call].billed > 0 ==>
      var c := d.calls[call]; c.startedAt.Some? && (c.billed - 1) * 60000 <= d.now - c.startedAt.value
    ensures recharge in d.recharges && d.recharges[recharge].status == RechargeExpired ==>
      var x := d.recharges[recharge]; x.expiresAt.Some? && x.expiresAt.value < d.now
  {
    hide DbInv, Reachable;
    ReachableInv(d);
    if call in d.calls { RowOk(d, call); }
    ExpiredWereOverdue(d);
  }

  lemma ExpiredWereOverdue(d: DB)
    requires DbInv(d)
    ensures ExpiriesOk(d.recharges, d.now)
  {
  }

  /** Exactly how a status changes in one step: accepting starts a ringing call, and only the guarded
      updates, or a charge the client cannot pay, end one. */
  lemma StatusChangesExactly(d: DB, step: Step, call: Id)
    requires CanStep(d, step) && call in d.calls
    ensures call in Next(d, step).calls
    ensures Next(d, step).calls[call].status == Active && d.calls[call].status != Active <==>
      step.Accept? && step.call == call
    ensures Next(d, step).calls[call].status == Ended && d.calls[call].status != Ended <==>
      || (step.EndCall? && step.call == call && d.calls[call].status in step.from)
      || (step.Charge? && step.call == call && ChargeMinute(d, call, step.minute).1 == OutOfCredits)
    ensures Next(d, step).calls[call].status == Active && d.calls[call].status != Active ==>
      var c := d.calls[call];
      && step.model == c.model && c.status == Requested && d.now - c.requestedAt <= 30000
      && Balance(d.ledger, Client(c.client)) >= c.price
    ensures step.Charge? && Next(d, step).calls[call].status == Ended && d.calls[call].status != Ended ==>
      var c := d.calls[call];
      && c.status == Active && Balance(d.ledger, Client(c.client)) < c.price
      && Next(d, step).calls[call] == c.(status := Ended, endReason := Some(NoCredits), endedAt := Some(d.now))
  {
    if AboutCalls(step) {
      hide Sum, Posted, Rows, CommissionOf, CS.OpenOfClient, CS.OpenOfModel, IsDue;
    } else {
      OtherCallsUntouched(d, step);
      hide CanStep, Next;
    }
  }
}

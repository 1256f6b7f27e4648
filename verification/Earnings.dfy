/** What the gross earnings of a model are: her shares, and what reversed payouts gave back to her.
    A payout that fails can therefore lower her commission. */
module Earnings {
  import opened Prelude
  import opened Tables
  import opened Ledger
  import opened Writes
  import opened Invariant
  import opened Machine
  import Lease
  import Placement
  import Ranking
  import Steps
  import TakeRate
  import Theorems
  import Totals
  import Traces
  import TM = TaximeterSteps
  import GS = GiftSteps
  import CS = CallSteps
  import PS = PayoutSteps
  import RS = RechargeSteps

  // ------------------------------------------------------------ one ledger

  /** Every positive row of a model is a share or a reversal. */
  lemma {:induction false} EarningsSplit(l: seq<Entry>, model: Id)
    requires forall e :: e in l ==> Placement.SignOk(e.group, e.account, e.amount)
    ensures GrossEarned(l, model) == Sum(l, SharesOf(model)) + Sum(l, ReturnedTo(model))
  {
    if l != [] {
      var e := l[|l| - 1];
      assert e in l;
      EarningsSplit(l[..|l| - 1], model);
    }
  }

  /** A model has earned at least what a payout that was not reversed took. */
  lemma {:induction false} EarningsCoverPayout(l: seq<Entry>, payout: Id, model: Id)
    requires forall e :: e in l ==> Placement.SignOk(e.group, e.account, e.amount) && e.group != PayoutReversed(payout)
    ensures Balance(l, Model(model)) <= GrossEarned(l, model) + Sum(l, PayoutOf(payout, Model(model)))
  {
    if l != [] {
      var e := l[|l| - 1];
      assert e in l;
      EarningsCoverPayout(l[..|l| - 1], payout, model);
    }
  }

  // ------------------------------------------------------ returns and payout rows

  /** The amounts of a model's reversed payouts. */
  ghost function ReturnedPayouts(l: seq<Entry>, payouts: map<Id, Payout>, model: Id): map<Id, int> {
    map id | id in payouts && PayoutReversed(id) in Posted(l) && payouts[id].model == model :: payouts[id].amount
  }

  ghost predicate ReturnsMatch(d: DB) {
    forall m :: Sum(d.ledger, ReturnedTo(m)) == Totals.MapSum(ReturnedPayouts(d.ledger, d.payouts, m))
  }

  ghost predicate AmountsAtLeast(d: DB) {
    forall id :: id in d.payouts ==> d.payouts[id].amount >= d.cfg.minPayout
  }

  /** No reversal is posted, and nothing is given back. */
  ghost predicate ReturnsStay(d: DB, d': DB) {
    && (forall m :: Sum(d'.ledger, ReturnedTo(m)) == Sum(d.ledger, ReturnedTo(m)))
    && (forall id :: Lease.Reversed(d', id) == Lease.Reversed(d, id))
  }

  lemma SaleReturns(l: seq<Entry>, g: Group, x: Line, y: Line, z: Line)
    requires !g.PayoutReversed?
    ensures forall m :: Sum(l + Rows(g, [x, y, z]), ReturnedTo(m)) == Sum(l, ReturnedTo(m))
    ensures forall id :: PayoutReversed(id) in Posted(l + Rows(g, [x, y, z])) <==> PayoutReversed(id) in Posted(l)
  {
    Lease.RowsNotReversal(l, g, [x, y, z]);
    hide Sum, Posted, Rows;
    forall m ensures Sum(l + Rows(g, [x, y, z]), ReturnedTo(m)) == Sum(l, ReturnedTo(m)) {
      SumOfThree(l, g, x, y, z, ReturnedTo(m));
    }
  }

  lemma TransferReturns(l: seq<Entry>, g: Group, x: Line, y: Line)
    requires !g.PayoutReversed?
    ensures forall m :: Sum(l + Rows(g, [x, y]), ReturnedTo(m)) == Sum(l, ReturnedTo(m))
    ensures forall id :: PayoutReversed(id) in Posted(l + Rows(g, [x, y])) <==> PayoutReversed(id) in Posted(l)
  {
    Lease.RowsNotReversal(l, g, [x, y]);
    hide Sum, Posted, Rows;
    forall m ensures Sum(l + Rows(g, [x, y]), ReturnedTo(m)) == Sum(l, ReturnedTo(m)) {
      SumOfTwo(l, g, x, y, ReturnedTo(m));
    }
  }

  lemma MeterReturns(d: DB, m: TM.Task, o: Steps.Oracle)
    requires TM.CanAct(d, m, o)
    ensures ReturnsStay(d, TM.Act(d, m, o).db)
  {
    hide Posted, Rows, Sum, TakeRate.ComputeSplit;
    if m.phase.Priced? {
      var row := m.phase.row;
      var lines := MinuteLines(row.client, row.model, row.price, TakeRate.ComputeSplit(row.price, m.phase.rate).commission);
      SaleReturns(d.ledger, CallMinute(m.dues[0].call, m.dues[0].next), lines[0], lines[1], lines[2]);
    }
  }

  lemma GiftReturns(d: DB, g: GS.Task, o: Steps.Oracle)
    requires GS.CanAct(d, g, o)
    ensures ReturnsStay(d, GS.Act(d, g, o).db)
  {
    hide Posted, Rows, Sum, TakeRate.ComputeSplit;
    if g.phase.Priced? {
      var lines := GiftLines(g.client, g.model, g.phase.price, TakeRate.ComputeSplit(g.phase.price, g.phase.rate).commission);
      SaleReturns(d.ledger, GiftSent(o.id), lines[0], lines[1], lines[2]);
    }
  }

  lemma RechargeReturns(d: DB, r: RS.Task, o: Steps.Oracle)
    requires RS.CanAct(d, r, o)
    ensures ReturnsStay(d, RS.Act(d, r, o).db)
  {
    hide Posted, Rows, Sum;
    if r.phase.Found? {
      var row := d.recharges[r.phase.id];
      var lines := RechargeLines(row.user, row.amount);
      TransferReturns(d.ledger, RechargePaid(r.phase.id), lines[0], lines[1]);
    }
  }

  lemma CallReturns(d: DB, c: CS.Task, o: Steps.Oracle)
    requires CS.CanAct(d, c, o)
    ensures ReturnsStay(d, CS.Act(d, c, o).db)
  {
    hide Posted, Sum, IsExpired;
  }

  lemma PayerReturns(d: DB, p: PS.Task, o: Steps.Oracle)
    requires PS.CanAct(d, p, o) && !p.phase.Reversing?
    ensures ReturnsStay(d, PS.Act(d, p, o).db)
  {
    hide Posted, Rows, Sum, Claimable;
    if p.phase.Funded? {
      var lines := PayoutLines(p.model, p.amount);
      TransferReturns(d.ledger, PayoutAsked(o.id), lines[0], lines[1]);
    }
  }

  /** A statement that reverses no payout. */
  lemma OtherReturns(d: DB, t: Task, o: Steps.Oracle)
    requires CanAct(d, t, o) && !(t.Paying? && t.pay.phase.Reversing?)
    ensures ReturnsStay(d, Act(d, t, o).db)
  {
    hide ReturnsStay, TM.Act, GS.Act, PS.Act, CS.Act, RS.Act, TM.CanAct, GS.CanAct, PS.CanAct, CS.CanAct, RS.CanAct;
    match t {
      case Meter(m) => MeterReturns(d, m, o);
      case Gifting(g) => GiftReturns(d, g, o);
      case Calling(c) => CallReturns(d, c, o);
      case Paying(p) => PayerReturns(d, p, o);
      case Charging(r) => RechargeReturns(d, r, o);
      case Dead =>
    }
  }

  lemma EventReturns(d: DB, e: Event)
    requires CanHappen(d, e)
    ensures ReturnsStay(d, Happen(d, e))
  {
    hide Sum, Posted;
  }

  /** Without a reversal the returns go on matching: new payouts are not reversed. */
  lemma StayingMatches(d: DB, d': DB, keys: set<Key>)
    requires ReturnsMatch(d) && ReturnsStay(d, d') && DbInv(d) && Guarantee(d, d', keys)
    ensures ReturnsMatch(d')
  {
    hide DbInv, Guarantee, Sum, Posted, PayoutsOk;
    RowsAreOk(d);
    AmountsStay(d, d', keys);
    forall m ensures ReturnedPayouts(d'.ledger, d'.payouts, m) == ReturnedPayouts(d.ledger, d.payouts, m) {
      SameReturned(d, d', m);
    }
  }

  lemma AmountsStay(d: DB, d': DB, keys: set<Key>)
    requires Guarantee(d, d', keys)
    ensures d'.cfg == d.cfg && PayoutsStep(d.payouts, d'.payouts)
  {
    hide CallsStep, MinutesStep, MoneyStep, RechargesStep;
  }

  lemma SameReturned(d: DB, d': DB, m: Id)
    requires ReturnsStay(d, d') && PayoutsOk(d.ledger, d.payouts, d.approved) && PayoutsStep(d.payouts, d'.payouts)
    ensures ReturnedPayouts(d'.ledger, d'.payouts, m) == ReturnedPayouts(d.ledger, d.payouts, m)
  {
    hide Sum, Posted;
    var before, after := ReturnedPayouts(d.ledger, d.payouts, m), ReturnedPayouts(d'.ledger, d'.payouts, m);
    forall id ensures id in after <==> id in before {
      assert Lease.Reversed(d', id) <==> Lease.Reversed(d, id);
      assert PayoutReversed(id) in Posted(d.ledger) ==> id in d.payouts;
    }
    assert forall id :: id in before ==> after[id] == before[id];
  }

  lemma ReverseSums(l: seq<Entry>, id: Id, model: Id, amount: int, m: Id)
    requires amount >= 0
    ensures var l' := l + Rows(PayoutReversed(id), ReversalLines(model, amount));
      && Sum(l', ReturnedTo(m)) == Sum(l, ReturnedTo(m)) + (if m == model then amount else 0)
      && Sum(l', SharesOf(m)) == Sum(l, SharesOf(m))
      && GrossEarned(l', m) == GrossEarned(l, m) + if m == model then amount else 0
  {
    var lines := ReversalLines(model, amount);
    SumOfTwo(l, PayoutReversed(id), lines[0], lines[1], ReturnedTo(m));
    SumOfTwo(l, PayoutReversed(id), lines[0], lines[1], SharesOf(m));
    SumOfTwo(l, PayoutReversed(id), lines[0], lines[1], EarnedBy(m));
  }

  lemma ReverseMatches(d: DB, id: Id)
    requires ReturnsMatch(d) && id in d.payouts && !Lease.Reversed(d, id) && d.payouts[id].amount >= 0
    ensures ReturnsMatch(Reverse(d, id))
  {
    var row, d' := d.payouts[id], Reverse(d, id);
    hide Sum, Rows, Posted, ReturnedPayouts, Lease.Reversed;
    forall m ensures Sum(d'.ledger, ReturnedTo(m)) == Totals.MapSum(ReturnedPayouts(d'.ledger, d'.payouts, m)) {
      ReverseSums(d.ledger, id, row.model, row.amount, m);
      ReverseRows(d, id, m);
    }
  }

  lemma ReverseRows(d: DB, id: Id, m: Id)
    requires id in d.payouts && !Lease.Reversed(d, id)
    ensures var row, d' := d.payouts[id], Reverse(d, id);
      Totals.MapSum(ReturnedPayouts(d'.ledger, d'.payouts, m))
      == Totals.MapSum(ReturnedPayouts(d.ledger, d.payouts, m)) + if m == row.model then row.amount else 0
  {
    var row, d' := d.payouts[id], Reverse(d, id);
    PostedByRows(d.ledger, PayoutReversed(id), ReversalLines(row.model, row.amount));
    hide Sum, Rows, Posted;
    var before, after := ReturnedPayouts(d.ledger, d.payouts, m), ReturnedPayouts(d'.ledger, d'.payouts, m);
    if m == row.model {
      assert after == before[id := row.amount];
      Totals.MapSumUpdate(before, id, row.amount);
    } else {
      assert after == before;
    }
  }

  // ------------------------------------------------------------------ every step

  ghost predicate EarningsInv(d: DB) {
    ReturnsMatch(d) && AmountsAtLeast(d)
  }

  /** A payout row appears with an amount from the minimum up. */
  lemma NewAmounts(d: DB, t: Task, o: Steps.Oracle, id: Id)
    requires TaskOk(d, t) && CanAct(d, t, o) && id !in d.payouts && id in Act(d, t, o).db.payouts
    ensures Act(d, t, o).db.payouts[id].amount >= d.cfg.minPayout
  {
    hide TM.Act, GS.Act, RS.Act, CS.Act, TM.CanAct, GS.CanAct, RS.CanAct, CS.CanAct, TM.Ok, GS.Ok, RS.Ok, CS.Ok, Lease.Reversed;
    hide Rows, Posted, Sum, Claimable;
    if !t.Paying? { Lease.OtherFrame(d, t, o); }
  }

  lemma StatementKeeps(s: State, t: Tid, o: Steps.Oracle)
    requires Inv(s) && Enabled(s, Advance(t, o)) && EarningsInv(s.db)
    ensures EarningsInv(Apply(s, Advance(t, o)).db)
  {
    var task := s.tasks[t];
    assert TaskOk(s.db, task);
    hide DbInv, TaskOk, Act, CanAct, Guarantee, ReturnsMatch, ReturnsStay, Free, AllOk, MutualExclusion;
    var keys := StepGuarantee(s, Advance(t, o));
    var d' := Apply(s, Advance(t, o)).db;
    AmountsStay(s.db, d', keys);
    forall id | id in d'.payouts ensures d'.payouts[id].amount >= d'.cfg.minPayout {
      if id !in s.db.payouts { NewAmounts(s.db, task, o, id); }
    }
    if task.Paying? && task.pay.phase.Reversing? {
      ReversalIs(s.db, task.pay, o);
      Placement.AmountNotNegative(s.db, task.pay.phase.id);
      ReverseMatches(s.db, task.pay.phase.id);
    } else {
      OtherReturns(s.db, task, o);
      StayingMatches(s.db, d', keys);
    }
  }

  lemma ReversalIs(d: DB, p: PS.Task, o: Steps.Oracle)
    requires CanAct(d, Paying(p), o) && p.phase.Reversing?
    ensures p.phase.id in d.payouts && !Lease.Reversed(d, p.phase.id)
    ensures Act(d, Paying(p), o).db == Reverse(d, p.phase.id)
  {
    hide Reverse, Posted;
  }

  lemma StepKeepsEarnings(s: State, step: Step)
    requires Inv(s) && Enabled(s, step) && EarningsInv(s.db)
    ensures EarningsInv(Apply(s, step).db)
  {
    hide DbInv, TaskOk, Act, CanAct, CanHappen, Guarantee, ReturnsMatch, ReturnsStay, Free, Starts, AllOk, MutualExclusion;
    match step {
      case Advance(t, o) => StatementKeeps(s, t, o);
      case Outside(e) =>
        var keys := StepGuarantee(s, step);
        EventReturns(s.db, e);
        StayingMatches(s.db, Apply(s, step).db, keys);
        Lease.EventFrame(s.db, e);
        AmountsStay(s.db, Apply(s, step).db, keys);
      case _ =>
    }
  }

  lemma {:induction false} RunKeepsEarnings(s: State, steps: seq<Step>)
    requires Inv(s) && EarningsInv(s.db) && CanRun(s, steps)
    ensures EarningsInv(Run(s, steps).db)
    decreases |steps|
  {
    hide Inv, EarningsInv, Enabled, Apply;
    if steps != [] {
      StepKeeps(s, steps[0]);
      StepKeepsEarnings(s, steps[0]);
      RunKeepsEarnings(Apply(s, steps[0]), steps[1..]);
    }
  }

  lemma InitHasNone(s: State)
    requires Init(s)
    ensures EarningsInv(s.db)
  {
    assert forall m :: ReturnedPayouts(s.db.ledger, s.db.payouts, m) == map[];
  }

  lemma ReachableEarnings(s: State)
    requires Theorems.Reachable(s)
    ensures EarningsInv(s.db)
  {
    hide Init, Inv, Run, CanRun, EarningsInv;
    var start, steps :| Init(start) && CanRun(start, steps) && s == Run(start, steps);
    InitInv(start);
    InitHasNone(start);
    RunKeepsEarnings(start, steps);
  }

  // -------------------------------------------------------------- what they are

  /** In every reachable state a model's gross earnings are her shares of minutes and gifts plus the
      amounts of her reversed payouts. */
  lemma SharesPlusReturns(s: State, model: Id)
    requires Theorems.Reachable(s)
    ensures GrossEarned(s.db.ledger, model) == Sum(s.db.ledger, SharesOf(model))
      + Totals.MapSum(ReturnedPayouts(s.db.ledger, s.db.payouts, model))
  {
    hide Theorems.Reachable, Sum, ReturnedPayouts;
    ReachableEarnings(s);
    Theorems.ReachablePlaced(s);
    EarningsSplit(s.db.ledger, model);
  }

  lemma {:induction false} TotalOfNaturals(m: map<Id, int>)
    requires forall id :: id in m ==> m[id] >= 0
    ensures Totals.MapSum(m) >= 0
    ensures Totals.MapSum(m) == 0 <==> forall id :: id in m ==> m[id] == 0
    decreases |m|
  {
    if m != map[] {
      var k :| k in m && Totals.MapSum(m) == m[k] + Totals.MapSum(m - {k});
      TotalOfNaturals(m - {k});
      assert forall id :: id in m ==> id == k || id in m - {k};
    }
  }

  /** They are her shares exactly when none of her payouts of a positive amount was reversed. */
  lemma EarningsAreSharesIff(s: State, model: Id)
    requires Theorems.Reachable(s)
    ensures GrossEarned(s.db.ledger, model) >= Sum(s.db.ledger, SharesOf(model))
    ensures GrossEarned(s.db.ledger, model) == Sum(s.db.ledger, SharesOf(model)) <==>
      forall id :: id in s.db.payouts && s.db.payouts[id].model == model && s.db.payouts[id].amount > 0 ==> !Lease.Reversed(s.db, id)
  {
    hide Theorems.Reachable, Sum, Posted;
    SharesPlusReturns(s, model);
    var returned := ReturnedPayouts(s.db.ledger, s.db.payouts, model);
    AmountsAreNatural(s);
    TotalOfNaturals(returned);
    assert forall id :: id in returned <==> id in s.db.payouts && s.db.payouts[id].model == model && Lease.Reversed(s.db, id);
  }

  lemma AmountsAreNatural(s: State)
    requires Theorems.Reachable(s)
    ensures forall id :: id in s.db.payouts ==> s.db.payouts[id].amount >= 0
  {
    hide DbInv, Theorems.Reachable, AllOk, MutualExclusion;
    Theorems.ReachableInv(s);
    forall id | id in s.db.payouts ensures s.db.payouts[id].amount >= 0 { Placement.AmountNotNegative(s.db, id); }
  }

  // ------------------------------------------------- a reversal changes the tier

  /** A reversal, without any sale, raises the earnings of its model by its amount; that amount is
      from the minimum up, and she had earned it before. */
  lemma ReversalRaisesEarnings(s: State, step: Step, payout: Id, model: Id)
    requires Theorems.Reachable(s) && Enabled(s, step) && Lease.Reverses(s, step, payout)
    ensures payout in s.db.payouts
    ensures var d, d', row := s.db, Apply(s, step).db, s.db.payouts[payout];
      && Sum(d'.ledger, SharesOf(model)) == Sum(d.ledger, SharesOf(model))
      && GrossEarned(d'.ledger, model) == GrossEarned(d.ledger, model) + (if model == row.model then row.amount else 0)
      && d.cfg.minPayout <= row.amount <= GrossEarned(d.ledger, row.model)
  {
    hide DbInv, Theorems.Reachable, AllOk, MutualExclusion, Act, CanAct, Free, Sum, Rows, Posted, ReturnsMatch, Placement.WellPlaced;
    Theorems.ReachableInv(s);
    Theorems.ReachablePlaced(s);
    ReachableEarnings(s);
    var d := s.db;
    ReversalIs(d, s.tasks[step.t].pay, step.o);
    Placement.AmountNotNegative(d, payout);
    ReverseSums(d.ledger, payout, d.payouts[payout].model, d.payouts[payout].amount, model);
    PayoutWasEarned(d, payout);
  }

  lemma PayoutWasEarned(d: DB, payout: Id)
    requires DbInv(d) && Placement.WellPlaced(d) && payout in d.payouts && !Lease.Reversed(d, payout)
    ensures d.payouts[payout].amount <= GrossEarned(d.ledger, d.payouts[payout].model)
  {
    hide DbInv, PayoutsOk, NoOverdraft, Sum;
    RowsAreOk(d);
    PayoutIsOk(d.ledger, d.payouts, d.approved, payout);
    NobodyOwes(d);
    var model := d.payouts[payout].model;
    BalanceNotNegative(d.ledger, Model(model));
    EarningsCoverPayout(d.ledger, payout, model);
  }

  lemma NobodyOwes(d: DB)
    requires DbInv(d)
    ensures NoOverdraft(d.ledger)
  {
  }

  /** Earnings that a payout of this amount, once reversed, lifts into a tier with a lower rate. */
  ghost predicate Lifts(cfg: Config, earned: nat, amount: nat) {
    && cfg.tiers != [] && cfg.minPayout <= amount <= earned
    && TierRate(cfg.tiers, earned + amount) < TierRate(cfg.tiers, earned)
  }

  /** The step reverses a payout, sells nothing, and lowers the tier rate of the payout's model. */
  ghost predicate LowersRate(s: State, step: Step, payout: Id) {
    && Enabled(s, step) && Lease.Reverses(s, step, payout) && payout in s.db.payouts && s.db.cfg.tiers != []
    && var model := s.db.payouts[payout].model;
    TierRate(s.db.cfg.tiers, GrossEarned(Apply(s, step).db.ledger, model)) < TierRate(s.db.cfg.tiers, GrossEarned(s.db.ledger, model))
  }

  /** From any start: for any earnings and any payout out of them from the minimum up, a reachable
      state in which the next step gives that payout back. */
  lemma RefundIsReachable(start: State, client: Id, model: Id, earned: nat, amount: nat) returns (s: State, step: Step, payout: Id)
    requires Init(start) && start.db.cfg.minPayout <= amount <= earned
    ensures Theorems.Reachable(s) && s.db.cfg == start.db.cfg
    ensures Enabled(s, step) && Lease.Reverses(s, step, payout)
    ensures payout in s.db.payouts && s.db.payouts[payout].model == model && s.db.payouts[payout].amount == amount
    ensures GrossEarned(s.db.ledger, model) == earned
    ensures model in s.db.profiles && s.db.profiles[model].takeRate.None?
  {
    hide Traces.Leads, Traces.Idle, Init, Theorems.Reachable, Sum, Posted, Rows, ValidConfig;
    payout := "";
    var d := Traces.ModelJoins(start, model, Profile(0, Some(0.0)));
    var paid := if earned >= d.cfg.minRecharge then earned else d.cfg.minRecharge;
    var s1 := Traces.ModelEarns(start, d, client, model, paid, earned);
    Traces.ThenOutside(start, s1, SetProfile(model, Profile(0, None)));
    var d2 := s1.db.(profiles := s1.db.profiles[model := Profile(0, None)]);
    s, step := PayoutIsRefused(start, d2, s1.tasks, payout, model, amount);
    Traces.LeadsToReachable(start, s);
  }

  /** The payout is asked and claimed, and the provider refuses it. */
  lemma PayoutIsRefused(start: State, d: DB, ts: map<Tid, Task>, p: Id, model: Id, amount: nat) returns (s: State, step: Step)
    requires Traces.Leads(start, State(d, ts)) && Traces.Idle(ts, 3) && d.payouts == map[] && d.sent == {}
    requires model in d.approved && d.cfg.minPayout <= amount <= Balance(d.ledger, Model(model))
    requires forall id :: PayoutReversed(id) !in Posted(d.ledger)
    ensures Traces.Leads(start, s) && Enabled(s, step) && Lease.Reverses(s, step, p)
    ensures s.db == d.(ledger := s.db.ledger, payouts := s.db.payouts)
    ensures p in s.db.payouts && s.db.payouts[p].model == model && s.db.payouts[p].amount == amount
    ensures GrossEarned(s.db.ledger, model) == GrossEarned(d.ledger, model)
  {
    hide Traces.Leads, Traces.Idle, Sum, Posted, Rows;
    Traces.PayoutIsAsked(start, d, ts, 3, p, model, amount);
    Traces.MoreIdle(ts, 3, Traces.Asker(model, amount, PS.Finished));
    var d1, ts1 := OpenPayout(d, p, model, amount), ts[3 := Traces.Asker(model, amount, PS.Finished)];
    AskedWrites(d, p, model, amount);
    var rest := Traces.ClaimHappens(start, d1, ts1, 4, p, None);
    var d2 := Claim(d1, p);
    var reversing := Traces.Settler(None, rest, PS.Reversing(p, d1.now));
    Traces.ClaimWrites(d1, p);
    Traces.ThenAmongIdle(start, d2, ts1, 4, Traces.Settler(None, rest, PS.Sending(p, d1.now)), Traces.NO, d2, reversing);
    s, step := State(d2, ts1[4 := reversing]), Advance(4, Traces.NO);
    ReversalCanHappen(s, 4, ts1, p);
  }

  lemma AskedWrites(d: DB, p: Id, model: Id, amount: nat)
    ensures var d' := OpenPayout(d, p, model, amount);
      && GrossEarned(d'.ledger, model) == GrossEarned(d.ledger, model)
      && Posted(d'.ledger) == Posted(d.ledger) + {PayoutAsked(p)}
  {
    var lines := PayoutLines(model, amount);
    PostedByRows(d.ledger, PayoutAsked(p), lines);
    SumOfTwo(d.ledger, PayoutAsked(p), lines[0], lines[1], EarnedBy(model));
    hide Sum, Posted, Rows;
  }

  lemma ReversalCanHappen(s: State, t: Tid, ts: map<Tid, Task>, p: Id)
    requires t in s.tasks && s.tasks[t].Paying? && s.tasks[t].pay.phase.Reversing? && s.tasks[t].pay.phase.id == p
    requires p in s.db.payouts && PayoutReversed(p) !in Posted(s.db.ledger)
    ensures Enabled(s, Advance(t, Traces.NO))
  {
    hide Posted, Rows, Sum;
    assert Holds(Act(s.db, s.tasks[t], Traces.NO).task) == {};
  }

  /** The climb, concretely: a failed payout moves its model to a higher tier, and the rate that her
      next sale pays falls, although she sold nothing. */
  lemma RefundedModelClimbs(start: State, client: Id, model: Id, earned: nat, amount: nat) returns (s: State, step: Step, payout: Id)
    requires Init(start) && Lifts(start.db.cfg, earned, amount)
    ensures Theorems.Reachable(s) && s.db.cfg == start.db.cfg && LowersRate(s, step, payout)
    ensures payout in s.db.payouts && s.db.payouts[payout].model == model && Enabled(s, step)
    ensures var d, d' := s.db, Apply(s, step).db;
      && d.cfg.tiers != [] && d'.cfg == d.cfg
      && Sum(d'.ledger, SharesOf(model)) == Sum(d.ledger, SharesOf(model))
      && Ranking.LastReached(GrossEarned(d.ledger, model) as real / 100.0, d.cfg.tiers)
         < Ranking.LastReached(GrossEarned(d'.ledger, model) as real / 100.0, d.cfg.tiers)
      && RateOf(d', model) < RateOf(d, model)
  {
    hide Init, Theorems.Reachable, Sum, Enabled, Apply, Lease.Reverses;
    s, step, payout := RefundIsReachable(start, client, model, earned, amount);
    ReversalRaisesEarnings(s, step, payout, model);
    var d, d' := s.db, Apply(s, step).db;
    Ranking.TierIndexMonotone(earned as real / 100.0, (earned + amount) as real / 100.0, d.cfg.tiers);
    SameProfiles(s, step, payout);
    hide Ranking.LastReached;
  }

  lemma SameProfiles(s: State, step: Step, payout: Id)
    requires Enabled(s, step) && Lease.Reverses(s, step, payout)
    ensures Apply(s, step).db.profiles == s.db.profiles && Apply(s, step).db.cfg == s.db.cfg
  {
    hide Rows, Posted, Sum, Free;
  }

  /** Under a configuration a reversal can lower a rate if and only if some earnings can be lifted into
      a tier with a lower rate by a payout out of them. */
  lemma ReversalCanLowerRateIff(start: State, client: Id, model: Id)
    requires Init(start)
    ensures (exists s, step, payout :: Theorems.Reachable(s) && s.db.cfg == start.db.cfg && LowersRate(s, step, payout))
      <==> exists earned: nat, amount: nat :: Lifts(start.db.cfg, earned, amount)
  {
    hide Init, Theorems.Reachable, Lifts, LowersRate;
    if earned: nat, amount: nat :| Lifts(start.db.cfg, earned, amount) {
      var s, step, payout := RefundedModelClimbs(start, client, model, earned, amount);
    }
    if s, step, payout :| Theorems.Reachable(s) && s.db.cfg == start.db.cfg && LowersRate(s, step, payout) {
      LoweredMeansLifted(s, step, payout);
    }
  }

  lemma LoweredMeansLifted(s: State, step: Step, payout: Id)
    requires Theorems.Reachable(s) && LowersRate(s, step, payout)
    ensures exists earned: nat, amount: nat :: Lifts(s.db.cfg, earned, amount)
  {
    hide Theorems.Reachable, Sum, Enabled, Apply, Lease.Reverses, TierRate;
    var model, amount := s.db.payouts[payout].model, s.db.payouts[payout].amount;
    ReversalRaisesEarnings(s, step, payout, model);
    AmountsAreNatural(s);
    assert Lifts(s.db.cfg, GrossEarned(s.db.ledger, model), amount);
  }

  /** Sorted tiers with falling rates: every threshold between two different rates that earnings from
      the minimum payout up can pass by a payout out of them. */
  lemma CrossingLifts(cfg: Config, i: nat, earned: nat, amount: nat)
    requires i + 1 < |cfg.tiers| && Ranking.StrictlySorted(cfg.tiers) && Theorems.RatesFall(cfg.tiers)
    requires cfg.tiers[0].min <= earned as real / 100.0 && cfg.minPayout <= amount <= earned
    requires cfg.tiers[i].min <= earned as real / 100.0 < cfg.tiers[i + 1].min <= (earned + amount) as real / 100.0
    requires cfg.tiers[i + 1].rate < cfg.tiers[i].rate
    ensures Lifts(cfg, earned, amount)
  {
    var x, y := earned as real / 100.0, (earned + amount) as real / 100.0;
    Ranking.ScanFindsTheBand(x, cfg.tiers, i);
    Ranking.LastReachedIsLast(y, cfg.tiers);
    assert i + 1 <= Ranking.LastReached(y, cfg.tiers);
    Ranking.FallingRates(cfg.tiers, i + 1, Ranking.LastReached(y, cfg.tiers));
  }

  /** The default tiers allow it under a global rate of 30 percent: 300.00 earned, a payout of 200.00 given back, and the rate falls from 30 to
      25 percent. */
  lemma DefaultsLift(cfg: Config)
    requires cfg.tiers == Ranking.LoadTierTable(0.30, None, None) && cfg.minPayout == 20000
    ensures Lifts(cfg, 30000, 20000)
    ensures TierRate(cfg.tiers, 30000) == 0.30 && TierRate(cfg.tiers, 50000) == 0.25
  {
    assert Ranking.StrictlySorted(cfg.tiers);
    Ranking.ScanFindsTheBand(300.0, cfg.tiers, 0);
    Ranking.ScanFindsTheBand(500.0, cfg.tiers, 1);
    assert 30000 as real / 100.0 == 300.0 && 50000 as real / 100.0 == 500.0;
  }
}

/** Who a ledger row may belong to: only the accounts its group is about, and every group, and
    every call's minutes together, add up to zero. */
module Placement {
  import opened Prelude
  import opened Tables
  import opened Ledger
  import opened Writes
  import opened Invariant
  import opened Machine
  import Steps
  import TakeRate
  import TM = TaximeterSteps
  import GS = GiftSteps
  import CS = CallSteps
  import PS = PayoutSteps
  import RS = RechargeSteps

  /** The account is one of those that the row behind the group names. */
  ghost predicate Placed(d: DB, g: Group, a: Account) {
    match g
    case CallMinute(call, _) =>
      call in d.calls && (a == Client(d.calls[call].client) || a == Model(d.calls[call].model) || a == Platform)
    case RechargePaid(id) => id in d.recharges && (a == Client(d.recharges[id].user) || a == External)
    case PayoutAsked(id) => id in d.payouts && (a == Model(d.payouts[id].model) || a == External)
    case PayoutReversed(id) => id in d.payouts && (a == Model(d.payouts[id].model) || a == External)
    case GiftSent(_) => true
  }

  /** Only sales and reversals give to a model, and only payouts take from her. */
  predicate SignOk(g: Group, a: Account, amount: int) {
    a.Model? ==>
      match g
      case CallMinute(_, _) => amount >= 0
      case GiftSent(_) => amount >= 0
      case PayoutReversed(_) => amount >= 0
      case PayoutAsked(_) => amount <= 0
      case RechargePaid(_) => false
  }

  ghost predicate WellPlaced(d: DB) {
    && (forall e :: e in d.ledger ==> SignOk(e.group, e.account, e.amount))
    && (forall e :: e in d.ledger ==> Placed(d, e.group, e.account))
    && (forall g :: Sum(d.ledger, OfGroup(g)) == 0)
    && (forall call :: Sum(d.ledger, OfCall(call)) == 0)
  }

  // ------------------------------------------------------------------- batches

  /** A balanced batch whose lines name the accounts of the group. */
  ghost predicate GoodBatch(d: DB, g: Group, lines: seq<Line>) {
    && Total(lines) == 0
    && (forall i :: 0 <= i < |lines| ==> Placed(d, g, lines[i].account))
    && (forall i :: 0 <= i < |lines| ==> SignOk(g, lines[i].account, lines[i].amount))
  }

  /** The ledger is unchanged, or gains one good batch. */
  ghost predicate AddsBatch(d: DB, d': DB) {
    d'.ledger == d.ledger || exists g, lines :: GoodBatch(d', g, lines) && d'.ledger == d.ledger + Rows(g, lines)
  }

  lemma BatchAdded(d: DB, d': DB, g: Group, lines: seq<Line>)
    requires GoodBatch(d', g, lines) && d'.ledger == d.ledger + Rows(g, lines)
    ensures AddsBatch(d, d')
  {
  }

  /** A filter that looks at groups only picks all of a batch or nothing of it. */
  lemma {:induction false} BatchSum(g: Group, lines: seq<Line>, f: Filter)
    requires f.OfGroup? || f.OfCall?
    ensures Sum(Rows(g, lines), f) == 0 || Sum(Rows(g, lines), f) == Total(lines)
  {
    AllOrNothing(g, lines, f, f.Picks(Platform, 0, g));
  }

  lemma {:induction false} AllOrNothing(g: Group, lines: seq<Line>, f: Filter, picked: bool)
    requires f.OfGroup? || f.OfCall?
    requires picked == f.Picks(Platform, 0, g)
    ensures Sum(Rows(g, lines), f) == if picked then Total(lines) else 0
  {
    if lines != [] {
      var n := |lines| - 1;
      assert Rows(g, lines)[..n] == Rows(g, lines[..n]);
      AllOrNothing(g, lines[..n], f, picked);
    }
  }

  lemma PlacedStays(d: DB, d': DB, keys: set<Key>, g: Group, a: Account)
    requires Placed(d, g, a) && Guarantee(d, d', keys)
    ensures Placed(d', g, a)
  {
    hide MinutesStep, MoneyStep;
  }

  lemma BatchKeeps(d: DB, d': DB, keys: set<Key>)
    requires WellPlaced(d) && AddsBatch(d, d') && Guarantee(d, d', keys)
    ensures WellPlaced(d')
  {
    hide Guarantee, Placed, Sum, Rows;
    forall e | e in d.ledger ensures Placed(d', e.group, e.account) { PlacedStays(d, d', keys, e.group, e.account); }
    if d'.ledger != d.ledger {
      var g, lines :| GoodBatch(d', g, lines) && d'.ledger == d.ledger + Rows(g, lines);
      forall f: Filter | f.OfGroup? || f.OfCall? ensures Sum(d'.ledger, f) == Sum(d.ledger, f) {
        SumOfConcat(d.ledger, Rows(g, lines), f);
        BatchSum(g, lines, f);
      }
    }
  }

  // ------------------------------------------------------------------- steps

  lemma MeterAdds(d: DB, m: TM.Task, o: Steps.Oracle)
    requires DbInv(d) && TM.CanAct(d, m, o) && TM.Ok(d, m)
    ensures AddsBatch(d, TM.Act(d, m, o).db)
  {
    hide DbInv, Rows, Sum, Posted, TakeRate.ComputeSplit;
    if m.phase.Priced? {
      TM.PriceNotNegative(d, m.dues[0].call);
      TakeRate.CommissionWithinPrice(m.phase.row.price, m.phase.rate);
      var row, due := m.phase.row, m.dues[0];
      var lines := MinuteLines(row.client, row.model, row.price, TakeRate.ComputeSplit(row.price, m.phase.rate).commission);
      TotalOfThree(lines[0], lines[1], lines[2]);
      var d' := TM.Act(d, m, o).db;
      assert TM.RowOk(d, due, m.phase.client, row);
      hide TM.Ok, Total;
      BatchAdded(d, d', CallMinute(due.call, due.next), lines);
    }
  }

  lemma GiftAdds(d: DB, g: GS.Task, o: Steps.Oracle)
    requires GS.CanAct(d, g, o) && GS.Ok(d, g)
    ensures AddsBatch(d, GS.Act(d, g, o).db)
  {
    hide Rows, Sum, Posted, TakeRate.ComputeSplit;
    if g.phase.Priced? {
      TakeRate.CommissionWithinPrice(g.phase.price, g.phase.rate);
      var lines := GiftLines(g.client, g.model, g.phase.price, TakeRate.ComputeSplit(g.phase.price, g.phase.rate).commission);
      TotalOfThree(lines[0], lines[1], lines[2]);
      hide Total;
      BatchAdded(d, GS.Act(d, g, o).db, GiftSent(o.id), lines);
    }
  }

  lemma RechargeAdds(d: DB, r: RS.Task, o: Steps.Oracle)
    requires RS.CanAct(d, r, o)
    ensures AddsBatch(d, RS.Act(d, r, o).db)
  {
    hide Rows, Sum, Posted;
    if r.phase.Found? && d.recharges[r.phase.id].status == RechargePending {
      var row := d.recharges[r.phase.id];
      var lines := RechargeLines(row.user, row.amount);
      TotalOfTwo(lines[0], lines[1]);
      hide Total;
      BatchAdded(d, RS.Act(d, r, o).db, RechargePaid(r.phase.id), lines);
    }
  }

  lemma AmountNotNegative(d: DB, id: Id)
    requires DbInv(d) && id in d.payouts
    ensures d.payouts[id].amount >= 0
  {
    PayoutIsOk(d.ledger, d.payouts, d.approved, id);
  }

  lemma PayoutAdds(d: DB, p: PS.Task, o: Steps.Oracle)
    requires DbInv(d) && PS.CanAct(d, p, o) && PS.Ok(d, p)
    ensures AddsBatch(d, PS.Act(d, p, o).db)
  {
    hide DbInv, Rows, Sum, Posted, Claimable;
    PS.MinimumIsNatural(d);
    match p.phase {
      case Funded(balance) =>
        var lines := PayoutLines(p.model, p.amount);
        TotalOfTwo(lines[0], lines[1]);
        if balance >= p.amount { BatchAdded(d, PS.Act(d, p, o).db, PayoutAsked(o.id), lines); }
      case Reversing(id, _) =>
        var lines := ReversalLines(d.payouts[id].model, d.payouts[id].amount);
        TotalOfTwo(lines[0], lines[1]);
        AmountNotNegative(d, id);
        BatchAdded(d, PS.Act(d, p, o).db, PayoutReversed(id), lines);
      case _ =>
    }
  }

  lemma StatementAdds(d: DB, t: Task, o: Steps.Oracle)
    requires DbInv(d) && TaskOk(d, t) && CanAct(d, t, o)
    ensures AddsBatch(d, Act(d, t, o).db)
  {
    hide DbInv, AddsBatch, TM.Act, GS.Act, PS.Act, RS.Act, TM.CanAct, GS.CanAct, PS.CanAct, RS.CanAct, TM.Ok, GS.Ok, PS.Ok;
    match t {
      case Meter(m) => MeterAdds(d, m, o);
      case Gifting(g) => GiftAdds(d, g, o);
      case Paying(p) => PayoutAdds(d, p, o);
      case Charging(r) => RechargeAdds(d, r, o);
      case Calling(c) => CallAdds(d, c, o);
      case Dead =>
    }
  }

  lemma CallAdds(d: DB, c: CS.Task, o: Steps.Oracle)
    requires CS.CanAct(d, c, o)
    ensures AddsBatch(d, CS.Act(d, c, o).db)
  {
    hide Sum, Rows, IsExpired;
  }

  lemma EventAdds(d: DB, e: Event)
    requires CanHappen(d, e)
    ensures AddsBatch(d, Happen(d, e))
  {
  }

  lemma StepKeepsPlacement(s: State, step: Step)
    requires Inv(s) && Enabled(s, step) && WellPlaced(s.db)
    ensures WellPlaced(Apply(s, step).db)
  {
    hide DbInv, Guarantee, WellPlaced, AddsBatch, TaskOk, Act, CanAct, Happen, CanHappen, Free, Starts;
    var keys := StepGuarantee(s, step);
    match step {
      case Advance(t, o) =>
        StatementAdds(s.db, s.tasks[t], o);
        BatchKeeps(s.db, Apply(s, step).db, keys);
      case Outside(e) =>
        EventAdds(s.db, e);
        BatchKeeps(s.db, Apply(s, step).db, keys);
      case _ =>
    }
  }

  lemma {:induction false} RunKeepsPlacement(s: State, steps: seq<Step>)
    requires Inv(s) && WellPlaced(s.db) && CanRun(s, steps)
    ensures WellPlaced(Run(s, steps).db)
    decreases |steps|
  {
    hide Inv, WellPlaced, Enabled, Apply;
    if steps != [] {
      StepKeeps(s, steps[0]);
      StepKeepsPlacement(s, steps[0]);
      RunKeepsPlacement(Apply(s, steps[0]), steps[1..]);
    }
  }

  lemma InitIsPlaced(s: State)
    requires Init(s)
    ensures WellPlaced(s.db)
  {
  }

  // -------------------------------------------------------- what the sums are

  /** A call's minutes split into what its client, its model and the platform moved. */
  lemma {:induction false} CallTotal(l: seq<Entry>, call: Id, client: Id, model: Id)
    requires forall e :: e in l && OfCall(call).Picks(e.account, e.amount, e.group) ==>
      e.account == Client(client) || e.account == Model(model) || e.account == Platform
    ensures Sum(l, OfCall(call)) == Sum(l, MinutesOf(call, Client(client))) + Sum(l, MinutesOf(call, Model(model)))
      + Sum(l, MinutesOf(call, Platform))
  {
    if l != [] {
      var n := |l| - 1;
      assert l[n] in l;
      CallTotal(l[..n], call, client, model);
    }
  }

  /** A recharge's group splits into what its user and the outside moved. */
  lemma {:induction false} RechargeTotal(l: seq<Entry>, id: Id, user: Id)
    requires forall e :: e in l && e.group == RechargePaid(id) ==> e.account == Client(user) || e.account == External
    ensures Sum(l, OfGroup(RechargePaid(id))) == Sum(l, RechargeOf(id, Client(user))) + Sum(l, RechargeOf(id, External))
  {
    if l != [] {
      var n := |l| - 1;
      assert l[n] in l;
      RechargeTotal(l[..n], id, user);
    }
  }

  /** A payout's two groups split into what its model and the outside moved. */
  lemma {:induction false} PayoutTotal(l: seq<Entry>, id: Id, model: Id)
    requires forall e :: e in l && (e.group == PayoutAsked(id) || e.group == PayoutReversed(id)) ==>
      e.account == Model(model) || e.account == External
    ensures Sum(l, OfGroup(PayoutAsked(id))) + Sum(l, OfGroup(PayoutReversed(id)))
      == Sum(l, PayoutOf(id, Model(model))) + Sum(l, PayoutOf(id, External))
  {
    if l != [] {
      var n := |l| - 1;
      assert l[n] in l;
      PayoutTotal(l[..n], id, model);
    }
  }
}

/** When the status of a recharge stops telling the truth: exactly when a creation that stored its
    charge, but was told it had not, writes FAILED over PAID. */
module Recharges {
  import opened Prelude
  import opened Tables
  import opened Ledger
  import opened Writes
  import opened Invariant
  import opened Machine
  import Steps
  import TakeRate
  import Theorems
  import TM = TaximeterSteps
  import GS = GiftSteps
  import CS = CallSteps
  import PS = PayoutSteps
  import RS = RechargeSteps

  // ------------------------------------------------------------------- frames

  ghost predicate Credited(d: DB, id: Id) {
    RechargePaid(id) in Posted(d.ledger)
  }

  /** Nothing that concerns recharges changed: neither rows nor credits. */
  ghost predicate SameRecharges(d: DB, d': DB) {
    d'.recharges == d.recharges && forall id :: Credited(d', id) == Credited(d, id)
  }

  lemma RowsNotCredit(l: seq<Entry>, g: Group, lines: seq<Line>)
    requires lines != [] && !g.RechargePaid?
    ensures forall id :: RechargePaid(id) in Posted(l + Rows(g, lines)) <==> RechargePaid(id) in Posted(l)
  {
    PostedByRows(l, g, lines);
  }

  lemma MeterFrame(d: DB, m: TM.Task, o: Steps.Oracle)
    requires TM.CanAct(d, m, o)
    ensures SameRecharges(d, TM.Act(d, m, o).db)
  {
    hide Posted, Rows, Sum, TakeRate.ComputeSplit;
    if m.phase.Priced? {
      var row := m.phase.row;
      RowsNotCredit(d.ledger, CallMinute(m.dues[0].call, m.dues[0].next),
        MinuteLines(row.client, row.model, row.price, TakeRate.ComputeSplit(row.price, m.phase.rate).commission));
    }
  }

  lemma GiftFrame(d: DB, g: GS.Task, o: Steps.Oracle)
    requires GS.CanAct(d, g, o)
    ensures SameRecharges(d, GS.Act(d, g, o).db)
  {
    hide Posted, Rows, Sum, TakeRate.ComputeSplit;
    if g.phase.Priced? {
      RowsNotCredit(d.ledger, GiftSent(o.id),
        GiftLines(g.client, g.model, g.phase.price, TakeRate.ComputeSplit(g.phase.price, g.phase.rate).commission));
    }
  }

  lemma PayFrame(d: DB, p: PS.Task, o: Steps.Oracle)
    requires PS.CanAct(d, p, o)
    ensures SameRecharges(d, PS.Act(d, p, o).db)
  {
    hide Posted, Rows, Sum, Claimable;
    match p.phase {
      case Reversing(id, _) =>
        RowsNotCredit(d.ledger, PayoutReversed(id), ReversalLines(d.payouts[id].model, d.payouts[id].amount));
      case Funded(_) => RowsNotCredit(d.ledger, PayoutAsked(o.id), PayoutLines(p.model, p.amount));
      case _ =>
    }
  }

  lemma CallFrame(d: DB, c: CS.Task, o: Steps.Oracle)
    requires CS.CanAct(d, c, o)
    ensures SameRecharges(d, CS.Act(d, c, o).db)
  {
    hide Posted, Sum, IsExpired;
  }

  lemma OtherFrame(d: DB, t: Task, o: Steps.Oracle)
    requires CanAct(d, t, o) && !t.Charging?
    ensures SameRecharges(d, Act(d, t, o).db)
  {
    hide SameRecharges, TM.Act, GS.Act, PS.Act, CS.Act, TM.CanAct, GS.CanAct, PS.CanAct, CS.CanAct;
    match t {
      case Meter(m) => MeterFrame(d, m, o);
      case Gifting(g) => GiftFrame(d, g, o);
      case Calling(c) => CallFrame(d, c, o);
      case Paying(p) => PayFrame(d, p, o);
      case Dead =>
    }
  }

  // --------------------------------------------------------------- every step

  /** The creation of this recharge writes FAILED although its charge was stored. */
  ghost predicate Overwrites(s: State, step: Step, id: Id) {
    && step.Advance? && step.t in s.tasks && s.tasks[step.t].Charging?
    && s.tasks[step.t].charge.phase == RS.Losing(id)
  }

  /** How one row and its credit may move, given whether the step overwrites it. */
  ghost predicate RowMoves(d: DB, d': DB, id: Id, overwritten: bool)
    requires id in d.recharges
  {
    && id in d'.recharges
    && d'.recharges[id].user == d.recharges[id].user && d'.recharges[id].amount == d.recharges[id].amount
    && (Credited(d, id) ==> Credited(d', id))
    && (Credited(d', id) && !Credited(d, id) ==> d'.recharges[id].status == RechargeCredited)
    && (overwritten ==> d'.recharges[id].status == RechargeFailed)
    && (!overwritten && d.recharges[id].status != RechargePending ==> d'.recharges[id].status == d.recharges[id].status)
  }

  lemma CreditMoves(d: DB, x: Id, id: Id)
    requires x in d.recharges && id in d.recharges
    ensures RowMoves(d, Credit(d, x), id, false)
  {
    var row := d.recharges[x];
    PostedByRows(d.ledger, RechargePaid(x), RechargeLines(row.user, row.amount));
    hide Posted, Rows;
  }

  /** A statement that changes rows only. */
  lemma StatementMoves(d: DB, r: RS.Task, o: Steps.Oracle, id: Id)
    requires RS.CanAct(d, r, o) && RS.Ok(d, r) && id in d.recharges
    ensures RowMoves(d, RS.Act(d, r, o).db, id, r.phase == RS.Losing(id))
  {
    hide Posted, Rows, Sum, Credit, RowMoves;
    match r.phase {
      case Found(x) => CreditMoves(d, x, id);
      case _ => RowOnly(d, r, o, id);
    }
  }

  lemma RowOnly(d: DB, r: RS.Task, o: Steps.Oracle, id: Id)
    requires RS.CanAct(d, r, o) && RS.Ok(d, r) && id in d.recharges && !r.phase.Found?
    ensures RowMoves(d, RS.Act(d, r, o).db, id, r.phase == RS.Losing(id))
  {
    hide Posted;
  }

  lemma SweptMoves(d: DB, e: Event, id: Id)
    requires CanHappen(d, e) && id in d.recharges
    ensures RowMoves(d, Happen(d, e), id, false)
  {
    hide Posted;
  }

  lemma StepMoves(s: State, step: Step, id: Id)
    requires Inv(s) && Enabled(s, step) && id in s.db.recharges
    ensures RowMoves(s.db, Apply(s, step).db, id, Overwrites(s, step, id))
  {
    hide DbInv, TaskOk, Act, CanAct, Happen, CanHappen, Free, Starts, Credited, RS.Act, RS.CanAct, RS.Ok;
    match step {
      case Advance(t, o) =>
        if s.tasks[t].Charging? {
          ChargerActs(s.db, s.tasks[t].charge, o);
          StatementMoves(s.db, s.tasks[t].charge, o, id);
        } else {
          OtherFrame(s.db, s.tasks[t], o);
        }
      case Outside(e) => SweptMoves(s.db, e, id);
      case _ =>
    }
  }

  lemma ChargerActs(d: DB, r: RS.Task, o: Steps.Oracle)
    requires CanAct(d, Charging(r), o) && TaskOk(d, Charging(r))
    ensures RS.CanAct(d, r, o) && RS.Ok(d, r) && Act(d, Charging(r), o).db == RS.Act(d, r, o).db
  {
    hide RS.CanAct, RS.Ok, RS.Act;
  }

  /** Owner and amount of a recharge never change, and PAID, EXPIRED or FAILED changes exactly when
      such a creation writes FAILED over something else. */
  lemma OutcomeOverwrittenExactly(s: State, step: Step, recharge: Id)
    requires Theorems.Reachable(s) && Enabled(s, step) && recharge in s.db.recharges
    ensures recharge in Apply(s, step).db.recharges
    ensures var r, r' := s.db.recharges[recharge], Apply(s, step).db.recharges[recharge];
      && r'.user == r.user && r'.amount == r.amount
      && (r.status != RechargePending ==>
            (r'.status != r.status <==> Overwrites(s, step, recharge) && r.status != RechargeFailed))
  {
    hide Theorems.Reachable, Inv, Enabled, Apply, Overwrites, Credited;
    Theorems.ReachableInv(s);
    StepMoves(s, step, recharge);
  }

  // ---------------------------------------------------------------- whole runs

  /** PAID exactly when credited. */
  ghost predicate TellsTruth(d: DB, id: Id) {
    id in d.recharges ==> (d.recharges[id].status == RechargeCredited <==> Credited(d, id))
  }

  ghost predicate OverwritesPaid(s: State, step: Step, id: Id) {
    Overwrites(s, step, id) && id in s.db.recharges && s.db.recharges[id].status == RechargeCredited
  }

  ghost predicate TruthThroughout(s: State, steps: seq<Step>, id: Id)
    requires CanRun(s, steps)
    decreases |steps|
  {
    TellsTruth(s.db, id) && (steps == [] || TruthThroughout(Apply(s, steps[0]), steps[1..], id))
  }

  ghost predicate NeverOverwritesPaid(s: State, steps: seq<Step>, id: Id)
    requires CanRun(s, steps)
    decreases |steps|
  {
    steps == [] || (!OverwritesPaid(s, steps[0], id) && NeverOverwritesPaid(Apply(s, steps[0]), steps[1..], id))
  }

  /** A row that appears is PENDING and not credited. */
  lemma RowAppears(s: State, step: Step, id: Id)
    requires Inv(s) && Enabled(s, step) && id !in s.db.recharges
    ensures TellsTruth(Apply(s, step).db, id)
  {
    hide DbInv, TaskOk, Act, CanAct, Happen, CanHappen, Free, Starts, RS.Act, RS.CanAct, RS.Ok, Credited;
    StepKeeps(s, step);
    var d' := Apply(s, step).db;
    if id in d'.recharges {
      match step {
        case Advance(t, o) =>
          if s.tasks[t].Charging? {
            ChargerActs(s.db, s.tasks[t].charge, o);
            NewRowIsPending(s.db, s.tasks[t].charge, o, id);
          } else {
            OtherFrame(s.db, s.tasks[t], o);
          }
        case Outside(e) => NoRowAppears(s.db, e, id);
        case _ =>
      }
      PendingTellsTruth(d', id);
    }
  }

  lemma NewRowIsPending(d: DB, r: RS.Task, o: Steps.Oracle, id: Id)
    requires RS.CanAct(d, r, o) && id !in d.recharges && id in RS.Act(d, r, o).db.recharges
    ensures RS.Act(d, r, o).db.recharges[id].status == RechargePending
  {
    hide Posted, Rows;
  }

  lemma NoRowAppears(d: DB, e: Event, id: Id)
    requires CanHappen(d, e) && id !in d.recharges
    ensures id !in Happen(d, e).recharges
  {
  }

  lemma PendingTellsTruth(d: DB, id: Id)
    requires DbInv(d) && id in d.recharges && d.recharges[id].status == RechargePending
    ensures TellsTruth(d, id)
  {
    hide DbInv, Posted, Sum, RechargesOk;
    RowsAreOk(d);
    RechargeIsOk(d.ledger, d.recharges, id);
  }

  lemma CreditedStatus(d: DB, id: Id)
    requires DbInv(d) && id in d.recharges
    ensures d.recharges[id].status == RechargeCredited ==> Credited(d, id)
    ensures Credited(d, id) ==> d.recharges[id].status == RechargeCredited || d.recharges[id].status == RechargeFailed
  {
    hide DbInv, Posted, Sum, RechargesOk;
    RowsAreOk(d);
    RechargeIsOk(d.ledger, d.recharges, id);
  }

  /** A status that tells the truth stops telling it exactly when PAID is overwritten. */
  lemma StatusLiesExactly(s: State, step: Step, id: Id)
    requires Inv(s) && Enabled(s, step) && TellsTruth(s.db, id)
    ensures TellsTruth(Apply(s, step).db, id) <==> !OverwritesPaid(s, step, id)
  {
    hide DbInv, TaskOk, Act, CanAct, Happen, CanHappen, Free, Starts, Credited, AllOk, MutualExclusion;
    if id in s.db.recharges {
      StepKeeps(s, step);
      StepMoves(s, step, id);
      CreditedStatus(s.db, id);
      CreditedStatus(Apply(s, step).db, id);
      hide Enabled, Apply, Overwrites;
    } else {
      RowAppears(s, step, id);
    }
  }

  /** Over any run from the empty database: a recharge is PAID exactly when it is credited, at every
      moment, if and only if no step of the run writes FAILED over its PAID. */
  lemma PaidIffCreditedIff(s: State, steps: seq<Step>, id: Id)
    requires Init(s) && CanRun(s, steps)
    ensures TruthThroughout(s, steps, id) <==> NeverOverwritesPaid(s, steps, id)
  {
    InitInv(s);
    assert TellsTruth(s.db, id);
    TruthFrom(s, steps, id);
  }

  lemma {:induction false} TruthFrom(s: State, steps: seq<Step>, id: Id)
    requires Inv(s) && TellsTruth(s.db, id) && CanRun(s, steps)
    ensures TruthThroughout(s, steps, id) <==> NeverOverwritesPaid(s, steps, id)
    decreases |steps|
  {
    hide Inv, Enabled, Apply, TellsTruth, OverwritesPaid;
    if steps != [] {
      StatusLiesExactly(s, steps[0], id);
      StepKeeps(s, steps[0]);
      if !OverwritesPaid(s, steps[0], id) { TruthFrom(Apply(s, steps[0]), steps[1..], id); }
    }
  }
}

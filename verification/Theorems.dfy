/** What holds in every reachable state of the interleaved system, at statement granularity. */
module Theorems {
  import opened Prelude
  import opened Tables
  import opened Ledger
  import opened Writes
  import opened Invariant
  import opened Machine
  import Keys
  import Placement
  import Ranking
  import Steps
  import TakeRate
  import Totals
  import TM = TaximeterSteps
  import GS = GiftSteps
  import CS = CallSteps
  import PS = PayoutSteps
  import RS = RechargeSteps

  ghost predicate Reachable(s: State) {
    exists start: State, steps: seq<Step> :: Init(start) && CanRun(start, steps) && s == Run(start, steps)
  }

  lemma ReachableInv(s: State)
    requires Reachable(s)
    ensures Inv(s)
  {
    hide Init, Inv, Run, CanRun;
    var start, steps :| Init(start) && CanRun(start, steps) && s == Run(start, steps);
    InitInv(start);
    RunKeeps(start, steps);
  }

  lemma ReachablePlaced(s: State)
    requires Reachable(s)
    ensures Placement.WellPlaced(s.db)
  {
    hide Init, Inv, Run, CanRun, Placement.WellPlaced;
    var start, steps :| Init(start) && CanRun(start, steps) && s == Run(start, steps);
    InitInv(start);
    Placement.InitIsPlaced(start);
    Placement.RunKeepsPlacement(start, steps);
  }

  // --------------------------------------------------------------- overdraft

  /** No client and no model ever owes money, whatever charges, gifts, starts, accepts, recharges
      and payouts run at the same time. */
  lemma NoAccountIsOverdrawn(s: State, user: Id)
    requires Reachable(s)
    ensures Balance(s.db.ledger, Client(user)) >= 0
    ensures Balance(s.db.ledger, Model(user)) >= 0
  {
    ReachableInv(s);
  }

  /** A balance that a worker read inside its transaction, and the account it read. */
  function ReadBalance(t: Task): Option<(Account, int)> {
    match t
    case Meter(m) =>
      (match m.phase
       case Funded(client, _, balance) => Some((Client(client), balance))
       case Profiled(client, _, balance, _) => Some((Client(client), balance))
       case Priced(client, _, balance, _) => Some((Client(client), balance))
       case _ => None)
    case Gifting(g) => if g.phase.Funded? then Some((Client(g.client), g.phase.balance)) else None
    case Calling(c) =>
      (match c.phase
       case Affordable(_, balance) => Some((Client(c.client), balance))
       case Funded(client, _, balance) => Some((Client(client), balance))
       case _ => None)
    case Paying(p) => if p.phase.Funded? then Some((Model(p.model), p.phase.balance)) else None
    case _ => None
  }

  /** A balance read under its lock stays a lower bound of the real balance until the commit. */
  lemma ReadBalanceIsLowerBound(s: State, t: Tid)
    requires Reachable(s) && t in s.tasks && ReadBalance(s.tasks[t]).Some?
    ensures var (account, balance) := ReadBalance(s.tasks[t]).value;
      balance <= Balance(s.db.ledger, account)
  {
    ReachableInv(s);
    assert TaskOk(s.db, s.tasks[t]);
    hide Inv, TaskOk, ReadBalance, Sum;
    KnownBalance(s.db, s.tasks[t]);
  }

  lemma KnownBalance(d: DB, t: Task)
    requires TaskOk(d, t) && ReadBalance(t).Some?
    ensures var (account, balance) := ReadBalance(t).value;
      balance <= Balance(d.ledger, account)
  {
    hide Sum, TM.DueOk, CS.ClientHasNone, CS.ModelHasNone;
  }

  // ----------------------------------------------------------------- minutes

  /** The minutes of a call on the ledger are exactly 1..billed. */
  lemma MinutesAreContiguous(s: State, call: Id, minute: nat)
    requires Reachable(s)
    ensures CallMinute(call, minute) in Posted(s.db.ledger) <==>
      call in s.db.calls && 1 <= minute <= s.db.calls[call].billed
  {
    ReachableInv(s);
  }

  /** The client was debited billed minutes at the price of the call, and no minute is billed
      that has not begun. */
  lemma ClientPaysBilledMinutes(s: State, call: Id)
    requires Reachable(s) && call in s.db.calls
    ensures var c := s.db.calls[call];
      && Sum(s.db.ledger, MinutesOf(call, Client(c.client))) == -(c.billed * c.price)
      && (c.billed > 0 ==> c.startedAt.Some? && (c.billed - 1) * 60000 <= s.db.now - c.startedAt.value)
  {
    ReachableInv(s);
    assert CallOk(s.db.calls[call], s.db.now, call in s.db.reopened);
  }

  /** No row is stored twice: the unique column never holds a text twice. */
  lemma RowsAreUnique(s: State, i: nat, j: nat)
    requires Reachable(s) && i < j < |s.db.ledger|
    ensures var l := s.db.ledger;
      Keys.RefText(l[i].group, l[i].index) != Keys.RefText(l[j].group, l[j].index)
  {
    ReachableInv(s);
    UniqueRefsMeansUniqueTexts(s.db.ledger, i, j);
  }

  /** A worker about to post a minute is about to post the one after the cursor, and that minute has
      begun: 60 000 milliseconds for each one before it have passed since the start. */
  lemma PostedMinuteIsTheNext(s: State, t: Tid)
    requires Reachable(s) && t in s.tasks && s.tasks[t].Meter? && s.tasks[t].meter.phase.Priced?
    ensures s.tasks[t].meter.dues != []
    ensures var due := s.tasks[t].meter.dues[0];
      && due.call in s.db.calls && due.next == s.db.calls[due.call].billed + 1 <= due.last
      && var c := s.db.calls[due.call];
      && c.startedAt.Some? && (due.next - 1) * 60000 <= s.db.now - c.startedAt.value
  {
    hide DbInv, Reachable, TM.PhaseOk, TM.DueOk;
    ReachableInv(s);
    assert TaskOk(s.db, s.tasks[t]);
    NextIsDue(s.db, s.tasks[t].meter);
  }

  lemma NextIsDue(d: DB, m: TM.Task)
    requires DbInv(d) && TM.Ok(d, m) && m.phase.Priced?
    ensures m.dues != [] && m.dues[0].call in d.calls
    ensures m.dues[0].next == d.calls[m.dues[0].call].billed + 1 <= m.dues[0].last
    ensures var c := d.calls[m.dues[0].call];
      c.startedAt.Some? && (m.dues[0].next - 1) * 60000 <= d.now - c.startedAt.value
  {
    hide DbInv, TM.PhaseOk;
    assert TM.DueOk(d, m.dues[0]);
    TM.PricedMinuteIsNext(d, m);
  }

  /** The row a transaction is about to insert under a new group. */
  function AboutToPost(t: Task, o: Steps.Oracle): Option<Group> {
    match t
    case Meter(m) => if m.phase.Priced? && m.dues != [] then Some(CallMinute(m.dues[0].call, m.dues[0].next)) else None
    case Gifting(g) => if g.phase.Priced? then Some(GiftSent(o.id)) else None
    case Paying(p) => if p.phase.Funded? then Some(PayoutAsked(o.id)) else None
    case Charging(r) => if r.phase.Found? then Some(RechargePaid(r.phase.id)) else None
    case _ => None
  }

  /** Charges, gifts, payout requests and confirmations never meet a duplicate inside their own
      transaction, provided new identifiers are fresh; a confirmation that lost the race posts
      nothing because its update finds the row no longer PENDING. */
  lemma NoDuplicateInsideTransaction(s: State, t: Tid, o: Steps.Oracle)
    requires Reachable(s) && t in s.tasks && AboutToPost(s.tasks[t], o).Some?
    requires o.id !in s.db.gifts && o.id !in s.db.payouts
    ensures var g := AboutToPost(s.tasks[t], o).value;
      g in Posted(s.db.ledger) ==>
        g.RechargePaid? && g.recharge in s.db.recharges && s.db.recharges[g.recharge].status != RechargePending
  {
    ReachableInv(s);
    assert TaskOk(s.db, s.tasks[t]);
    hide Inv, TaskOk, DbInv, Posted, AboutToPost;
    TaskMeetsNoDuplicate(s.db, s.tasks[t], o);
  }

  lemma TaskMeetsNoDuplicate(d: DB, t: Task, o: Steps.Oracle)
    requires DbInv(d) && TaskOk(d, t) && AboutToPost(t, o).Some?
    requires o.id !in d.gifts && o.id !in d.payouts
    ensures var g := AboutToPost(t, o).value;
      g in Posted(d.ledger) ==>
        g.RechargePaid? && g.recharge in d.recharges && d.recharges[g.recharge].status != RechargePending
  {
    hide DbInv, Posted, TM.Ok, GS.Ok, CS.Ok, PS.Ok;
    match t {
      case Meter(m) => MeterIsFresh(d, m);
      case Gifting(_) => GS.NoDuplicate(d, o.id);
      case Paying(_) => FreshPayout(d, o.id);
      case Charging(r) => CreditedOrFresh(d, r.phase.id);
      case _ =>
    }
  }

  lemma MeterIsFresh(d: DB, m: TM.Task)
    requires TM.Ok(d, m) && m.phase.Priced?
    ensures m.dues != [] && CallMinute(m.dues[0].call, m.dues[0].next) !in Posted(d.ledger)
  {
    hide TM.DueOk, Posted, Sum;
  }

  lemma FreshPayout(d: DB, id: Id)
    requires DbInv(d) && id !in d.payouts
    ensures PayoutAsked(id) !in Posted(d.ledger)
  {
    NewPayoutIsNew(d.ledger, d.payouts, d.approved, id);
  }

  lemma CreditedOrFresh(d: DB, id: Id)
    requires DbInv(d) && id in d.recharges
    ensures RechargePaid(id) in Posted(d.ledger) ==> d.recharges[id].status != RechargePending
  {
    RechargeIsOk(d.ledger, d.recharges, id);
  }

  /** What a call's minutes took from its client is what they gave to its model and the platform,
      and they moved nothing on any other account. */
  lemma CallMoneyIsConserved(s: State, call: Id, a: Account)
    requires Reachable(s) && call in s.db.calls
    ensures var l, c := s.db.ledger, s.db.calls[call];
      && Sum(l, MinutesOf(call, Model(c.model))) + Sum(l, MinutesOf(call, Platform)) == c.billed * c.price
      && (a != Client(c.client) && a != Model(c.model) && a != Platform ==> Sum(l, MinutesOf(call, a)) == 0)
  {
    hide Sum, Reachable;
    ReachablePlaced(s);
    ClientPaysBilledMinutes(s, call);
    var l, c := s.db.ledger, s.db.calls[call];
    Placement.CallTotal(l, call, c.client, c.model);
    if a != Client(c.client) && a != Model(c.model) && a != Platform { NothingPicked(l, MinutesOf(call, a)); }
  }

  /** Every transaction group on the ledger adds up to zero. */
  lemma EveryGroupBalances(s: State, g: Group)
    requires Reachable(s)
    ensures Sum(s.db.ledger, OfGroup(g)) == 0
  {
    ReachablePlaced(s);
  }

  /** A sale about to be written: its client, its model, its price and the rate read for it. */
  function AboutToSell(t: Task): Option<(Id, Id, int, real)> {
    match t
    case Meter(m) => if m.phase.Priced? then Some((m.phase.row.client, m.phase.row.model, m.phase.row.price, m.phase.rate)) else None
    case Gifting(g) => if g.phase.Priced? then Some((g.client, g.model, g.phase.price, g.phase.rate)) else None
    case _ => None
  }

  /** What one sale does to an account. */
  function SaleEffect(client: Id, model: Id, price: int, commission: int, a: Account): int {
    match a
    case Client(u) => if u == client then -price else 0
    case Model(u) => if u == model then price - commission else 0
    case Platform => commission
    case External => 0
  }

  /** A minute or a gift takes the price from its client, gives the platform the whole number of cents
      nearest to price times rate, ties going up, and the model the rest, and touches nobody else. */
  lemma SaleIsSplit(s: State, t: Tid, o: Steps.Oracle, a: Account)
    requires Reachable(s) && Enabled(s, Advance(t, o)) && AboutToSell(s.tasks[t]).Some?
    ensures var (client, model, price, rate) := AboutToSell(s.tasks[t]).value;
      var l, l' := s.db.ledger, Apply(s, Advance(t, o)).db.ledger;
      var gain := Balance(l', Platform) - Balance(l, Platform);
      && 0 <= gain <= price && gain as real - 0.5 <= price as real * rate < gain as real + 0.5
      && Balance(l', a) == Balance(l, a) + SaleEffect(client, model, price, gain, a)
  {
    hide DbInv, AllOk, MutualExclusion, Reachable, TaskOk, Posted, Sum, Rows, Free, Holds, TakeRate.ComputeSplit, TM.Act, GS.Act, TM.CanAct, GS.CanAct;
    var (_, _, price, rate) := AboutToSell(s.tasks[t]).value;
    TakeRate.CommissionIsHalfUp(price, rate, TakeRate.ComputeSplit(price, rate).commission);
    ReachableInv(s);
    TaskIsOk(s, t);
    SaleRange(s.db, s.tasks[t]);
    match s.tasks[t] {
      case Meter(m) => MinuteMoves(s.db, m, o, a); MinuteMoves(s.db, m, o, Platform);
      case Gifting(g) => GiftMoves(s.db, g, o, a); GiftMoves(s.db, g, o, Platform);
    }
  }

  lemma SaleRange(d: DB, t: Task)
    requires DbInv(d) && TaskOk(d, t) && AboutToSell(t).Some?
    ensures var (_, _, price, rate) := AboutToSell(t).value;
      0 <= TakeRate.ComputeSplit(price, rate).commission <= price && price as real * rate >= 0.0
  {
    hide DbInv, Posted, Sum, TakeRate.ComputeSplit;
    var (_, _, price, rate) := AboutToSell(t).value;
    if t.Meter? { TM.PriceNotNegative(d, t.meter.dues[0].call); }
    TakeRate.CommissionWithinPrice(price, rate);
    TakeRate.ProductMonotone(0.0, price as real, 0.0, rate);
  }

  lemma MinuteMoves(d: DB, m: TM.Task, o: Steps.Oracle, a: Account)
    requires TM.CanAct(d, m, o) && m.phase.Priced?
    ensures var row, commission := m.phase.row, TakeRate.ComputeSplit(m.phase.row.price, m.phase.rate).commission;
      Balance(TM.Act(d, m, o).db.ledger, a) == Balance(d.ledger, a) + SaleEffect(row.client, row.model, row.price, commission, a)
  {
    hide Posted, Rows, Sum, TakeRate.ComputeSplit;
    var row := m.phase.row;
    var lines := MinuteLines(row.client, row.model, row.price, TakeRate.ComputeSplit(row.price, m.phase.rate).commission);
    SumOfThree(d.ledger, CallMinute(m.dues[0].call, m.dues[0].next), lines[0], lines[1], lines[2], OfAccount(a));
  }

  lemma GiftMoves(d: DB, g: GS.Task, o: Steps.Oracle, a: Account)
    requires GS.CanAct(d, g, o) && g.phase.Priced?
    ensures var commission := TakeRate.ComputeSplit(g.phase.price, g.phase.rate).commission;
      Balance(GS.Act(d, g, o).db.ledger, a) == Balance(d.ledger, a) + SaleEffect(g.client, g.model, g.phase.price, commission, a)
  {
    hide Posted, Rows, Sum, TakeRate.ComputeSplit;
    var lines := GiftLines(g.client, g.model, g.phase.price, TakeRate.ComputeSplit(g.phase.price, g.phase.rate).commission);
    SumOfThree(d.ledger, GiftSent(o.id), lines[0], lines[1], lines[2], OfAccount(a));
  }

  // ------------------------------------------------------------------- calls

  /** No client ever has two open calls. */
  lemma OneOpenCallPerClient(s: State, i: Id, j: Id)
    requires Reachable(s) && IsOpen(s.db.calls, i) && IsOpen(s.db.calls, j)
    requires s.db.calls[i].client == s.db.calls[j].client
    ensures i == j
  {
    ReachableInv(s);
  }

  /** The test for another active call in `accept` never succeeds. */
  lemma AcceptNeverConflicts(s: State, t: Tid)
    requires Reachable(s) && t in s.tasks && s.tasks[t].Calling? && s.tasks[t].call.phase.Pending?
    ensures !CS.OtherActive(s.db, s.tasks[t].call.phase.row.client, s.tasks[t].call.call)
  {
    ReachableInv(s);
    assert TaskOk(s.db, s.tasks[t]);
    hide DbInv;
    CS.NoOtherActive(s.db, s.tasks[t].call);
  }

  /** An open call with an end reason is one that `accept` brought back; of two open calls of one model
      at least one is such a call. */
  lemma OneOpenCallPerModelUnlessReopened(s: State, i: Id, j: Id)
    requires Reachable(s) && IsOpen(s.db.calls, i) && IsOpen(s.db.calls, j)
    ensures s.db.calls[i].endReason.Some? <==> i in s.db.reopened
    ensures i != j && s.db.calls[i].model == s.db.calls[j].model ==>
      s.db.calls[i].endReason.Some? || s.db.calls[j].endReason.Some?
  {
    ReachableInv(s);
    assert CallOk(s.db.calls[i], s.db.now, i in s.db.reopened) && CallOk(s.db.calls[j], s.db.now, j in s.db.reopened);
  }

  /** The model has at most one open call. */
  ghost predicate OneOpen(calls: Calls, model: Id) {
    forall i, j :: IsOpen(calls, i) && IsOpen(calls, j) && calls[i].model == model == calls[j].model ==> i == j
  }

  /** The step opens a call of a model who has an open call: the unguarded update of `accept` on a
      call that is over, or the insert of a start whose look at the model's calls came too early. */
  ghost predicate OpensSecond(s: State, step: Step, model: Id) {
    && CS.OpenOfModel(s.db, model)
    && step.Advance? && step.t in s.tasks && s.tasks[step.t].Calling?
    && StatementOpens(s.db, s.tasks[step.t].call, model)
  }

  ghost predicate StatementOpens(d: DB, c: CS.Task, model: Id) {
    match c.phase
    case Funded(_, row, balance) =>
      balance >= row.price && c.call in d.calls && d.calls[c.call].status == Ended && d.calls[c.call].model == model
    case Affordable(price, balance) => balance >= price && c.model == model
    case _ => false
  }

  /** A model who has at most one open call gets a second one exactly by such a step. */
  lemma SecondOpenCallExactly(s: State, step: Step, model: Id)
    requires Enabled(s, step) && OneOpen(s.db.calls, model)
    ensures !OneOpen(Apply(s, step).db.calls, model) <==> OpensSecond(s, step, model)
  {
    hide Act, CanAct, CS.CanAct, CS.Act, Free, Holds, Happen, CanHappen, Starts, OneOpen, StatementOpens, CS.OpenOfModel;
    match step {
      case Advance(t, o) =>
        if s.tasks[t].Calling? {
          CallerActs(s.db, s.tasks[t].call, o);
          CallStatementOpens(s.db, s.tasks[t].call, o, model);
        } else {
          OtherStatementOpens(s.db, s.tasks[t], o);
          NoneOpened(s.db.calls, Apply(s, step).db.calls, model);
        }
      case Outside(e) =>
        EventOpens(s.db, e);
        NoneOpened(s.db.calls, Apply(s, step).db.calls, model);
      case _ =>
    }
  }

  lemma CallerActs(d: DB, c: CS.Task, o: Steps.Oracle)
    requires CanAct(d, Calling(c), o)
    ensures CS.CanAct(d, c, o)
    ensures Act(d, Calling(c), o).db == CS.Act(d, c, o).db
  {
    hide CS.CanAct, CS.Act;
  }

  /** Every open call was open before, with the same model. */
  ghost predicate OpensNothing(calls: Calls, calls': Calls) {
    forall id :: IsOpen(calls', id) ==> IsOpen(calls, id) && calls'[id].model == calls[id].model
  }

  lemma NoneOpened(calls: Calls, calls': Calls, model: Id)
    requires OneOpen(calls, model) && OpensNothing(calls, calls')
    ensures OneOpen(calls', model)
  {
  }

  lemma OtherStatementOpens(d: DB, t: Task, o: Steps.Oracle)
    requires CanAct(d, t, o) && !t.Calling?
    ensures OpensNothing(d.calls, Act(d, t, o).db.calls)
  {
    hide Rows, TakeRate.ComputeSplit, Posted, Sum, Claimable, OpensNothing, TM.Act, TM.CanAct;
    match t {
      case Meter(m) => MeterOpens(d, m, o);
      case _ => SameCalls(d, t, o);
    }
  }

  lemma MeterOpens(d: DB, m: TM.Task, o: Steps.Oracle)
    requires TM.CanAct(d, m, o)
    ensures OpensNothing(d.calls, TM.Act(d, m, o).db.calls)
  {
    hide Rows, TakeRate.ComputeSplit, Posted, Sum;
  }

  lemma SameCalls(d: DB, t: Task, o: Steps.Oracle)
    requires CanAct(d, t, o) && !t.Calling? && !t.Meter?
    ensures OpensNothing(d.calls, Act(d, t, o).db.calls)
  {
    hide Rows, TakeRate.ComputeSplit, Posted, Sum, Claimable, TM.Act, CS.Act;
  }

  lemma EventOpens(d: DB, e: Event)
    requires CanHappen(d, e)
    ensures OpensNothing(d.calls, Happen(d, e).calls)
  {
  }

  /** A statement of a start or an accept. */
  lemma CallStatementOpens(d: DB, c: CS.Task, o: Steps.Oracle, model: Id)
    requires CS.CanAct(d, c, o) && OneOpen(d.calls, model)
    ensures !OneOpen(CS.Act(d, c, o).db.calls, model) <==> CS.OpenOfModel(d, model) && StatementOpens(d, c, model)
  {
    var calls' := CS.Act(d, c, o).db.calls;
    if CallOpened(d, c) {
      OpeningStatement(d, c, o);
      var id := if c.phase.Affordable? then o.id else c.call;
      hide CS.Act, CS.CanAct;
      OneMoreOpen(d.calls, calls', id, calls'[id], model);
    } else {
      OtherCallStatement(d, c, o);
      hide CS.Act, CS.CanAct, OneOpen, CS.OpenOfModel;
      NoneOpened(d.calls, calls', model);
    }
  }

  /** The statement opens a call that was not open. */
  ghost predicate CallOpened(d: DB, c: CS.Task) {
    match c.phase
    case Funded(_, row, balance) => balance >= row.price && c.call in d.calls && d.calls[c.call].status == Ended
    case Affordable(price, balance) => balance >= price
    case _ => false
  }

  lemma OpeningStatement(d: DB, c: CS.Task, o: Steps.Oracle)
    requires CS.CanAct(d, c, o) && CallOpened(d, c)
    ensures var calls', id := CS.Act(d, c, o).db.calls, if c.phase.Affordable? then o.id else c.call;
      && id in calls' && calls' == d.calls[id := calls'[id]]
      && calls'[id].status != Ended && !IsOpen(d.calls, id)
      && calls'[id].model == if c.phase.Affordable? then c.model else d.calls[id].model
  {
  }

  lemma OtherCallStatement(d: DB, c: CS.Task, o: Steps.Oracle)
    requires CS.CanAct(d, c, o) && !CallOpened(d, c)
    ensures OpensNothing(d.calls, CS.Act(d, c, o).db.calls)
  {
    hide Sum, IsExpired, CS.OtherActive, CS.OpenOfClient, CS.OpenOfModel;
  }

  lemma OneMoreOpen(calls: Calls, calls': Calls, id: Id, row: Call, model: Id)
    requires calls' == calls[id := row] && !IsOpen(calls, id) && row.status != Ended && OneOpen(calls, model)
    ensures !OneOpen(calls', model) <==> row.model == model && exists j :: IsOpen(calls, j) && calls[j].model == model
  {
    assert IsOpen(calls', id);
    assert forall x :: x != id ==> IsOpen(calls', x) == IsOpen(calls, x);
    if j :| IsOpen(calls, j) && calls[j].model == model {
      assert IsOpen(calls', j) && j != id;
    }
  }

  ghost predicate OneOpenThroughout(s: State, steps: seq<Step>, model: Id)
    requires CanRun(s, steps)
    decreases |steps|
  {
    OneOpen(s.db.calls, model) && (steps == [] || OneOpenThroughout(Apply(s, steps[0]), steps[1..], model))
  }

  ghost predicate NeverOpensSecond(s: State, steps: seq<Step>, model: Id)
    requires CanRun(s, steps)
    decreases |steps|
  {
    steps == [] || (!OpensSecond(s, steps[0], model) && NeverOpensSecond(Apply(s, steps[0]), steps[1..], model))
  }

  /** Over any run from the empty database: a model never has two open calls if and only if no step
      of the run is one of those two. */
  lemma OneOpenCallPerModelIff(s: State, steps: seq<Step>, model: Id)
    requires Init(s) && CanRun(s, steps)
    ensures OneOpenThroughout(s, steps, model) <==> NeverOpensSecond(s, steps, model)
  {
    assert OneOpen(s.db.calls, model);
    OneOpenFrom(s, steps, model);
  }

  lemma {:induction false} OneOpenFrom(s: State, steps: seq<Step>, model: Id)
    requires OneOpen(s.db.calls, model) && CanRun(s, steps)
    ensures OneOpenThroughout(s, steps, model) <==> NeverOpensSecond(s, steps, model)
    decreases |steps|
  {
    hide Enabled, Apply, OneOpen, OpensSecond;
    if steps != [] {
      SecondOpenCallExactly(s, steps[0], model);
      if !OpensSecond(s, steps[0], model) { OneOpenFrom(Apply(s, steps[0]), steps[1..], model); }
    }
  }

  /** The step is the unguarded update of `accept`, on a call that is over. */
  ghost predicate Reopens(s: State, step: Step, call: Id) {
    && step.Advance? && step.t in s.tasks && s.tasks[step.t].Calling?
    && var c := s.tasks[step.t].call;
    && c.phase.Funded? && c.phase.balance >= c.phase.row.price && c.call == call
    && call in s.db.calls && s.db.calls[call].status == Ended
  }

  /** ENDED is left exactly by the unguarded update of `accept` on a call that ended meanwhile; no
      step changes why and when an ended call ended. */
  lemma EndedIsLeftExactlyByReopening(s: State, step: Step, call: Id)
    requires Reachable(s) && Enabled(s, step) && call in s.db.calls && s.db.calls[call].status == Ended
    ensures call in Apply(s, step).db.calls
    ensures Apply(s, step).db.calls[call].status != Ended <==> Reopens(s, step, call)
    ensures SameEnding(s.db.calls[call], Apply(s, step).db.calls[call])
  {
    ReachableInv(s);
    assert DbInv(s.db);
    hide DbInv, Inv, Act, CanAct, Free, Holds, Happen, CanHappen, Starts, Failed;
    match step {
      case Advance(t, o) => StatementLeavesEnded(s.db, s.tasks[t], o, call);
      case Outside(e) => EventLeavesEnded(s.db, e, call);
      case _ =>
    }
  }

  predicate SameEnding(c: Call, c': Call) {
    c'.endReason == c.endReason && c'.endedAt == c.endedAt
  }

  /** The statement is the unguarded update of `accept`. */
  ghost predicate IsActivation(t: Task, call: Id) {
    t.Calling? && t.call.phase.Funded? && t.call.phase.balance >= t.call.phase.row.price && t.call.call == call
  }

  lemma StatementLeavesEnded(d: DB, t: Task, o: Steps.Oracle, call: Id)
    requires CanAct(d, t, o) && call in d.calls && d.calls[call].status == Ended
    ensures var d' := Act(d, t, o).db;
      call in d'.calls && (d'.calls[call].status != Ended <==> IsActivation(t, call)) && SameEnding(d.calls[call], d'.calls[call])
  {
    match t {
      case Calling(c) => AcceptOnEnded(d, c, o, call);
      case Meter(m) => MeterOnEnded(d, m, o, call);
      case Gifting(g) => hide CS.Act, TM.Act, PS.Act, RS.Act;
      case Paying(p) => hide CS.Act, TM.Act, GS.Act, RS.Act, Claimable;
      case Charging(r) => hide CS.Act, TM.Act, GS.Act, PS.Act;
    }
  }

  lemma AcceptOnEnded(d: DB, c: CS.Task, o: Steps.Oracle, call: Id)
    requires CS.CanAct(d, c, o) && call in d.calls && d.calls[call].status == Ended
    ensures var d' := CS.Act(d, c, o).db;
      call in d'.calls && (d'.calls[call].status != Ended <==> IsActivation(Calling(c), call)) && SameEnding(d.calls[call], d'.calls[call])
  {
  }

  lemma MeterOnEnded(d: DB, m: TM.Task, o: Steps.Oracle, call: Id)
    requires TM.CanAct(d, m, o) && call in d.calls && d.calls[call].status == Ended
    ensures var d' := TM.Act(d, m, o).db;
      call in d'.calls && d'.calls[call].status == Ended && SameEnding(d.calls[call], d'.calls[call])
  {
    hide Rows, TakeRate.ComputeSplit, Posted, Sum;
  }

  lemma EventLeavesEnded(d: DB, e: Event, call: Id)
    requires CanHappen(d, e) && call in d.calls && d.calls[call].status == Ended
    ensures call in Happen(d, e).calls && Happen(d, e).calls[call].status == Ended
    ensures SameEnding(d.calls[call], Happen(d, e).calls[call])
  {
  }

  /** What `accept` writes after its transaction never touches a call that was started or ended
      meanwhile, and never ends a ringing call for its age before its time. */
  lemma LateWritesSpareOthers(s: State, t: Tid, o: Steps.Oracle)
    requires Reachable(s) && Enabled(s, Advance(t, o)) && s.tasks[t].Calling?
    requires s.tasks[t].call.phase.TimedOut? || s.tasks[t].call.phase.Unfunded?
    ensures var call, d' := s.tasks[t].call.call, Apply(s, Advance(t, o)).db;
      && (call in s.db.calls && s.db.calls[call].status != Requested ==> d' == s.db)
      && (call in s.db.calls && s.db.calls[call].status == Requested ==>
            d'.calls == s.db.calls[call := s.db.calls[call].(status := Ended, endedAt := Some(s.db.now),
              endReason := Some(if s.tasks[t].call.phase.TimedOut? then Timeout else NoCredits))])
      && (forall other :: other in s.db.calls && other != call ==> other in d'.calls && d'.calls[other] == s.db.calls[other])
      && (call in d'.calls && d'.calls != s.db.calls && s.tasks[t].call.phase.TimedOut? ==>
            IsExpired(s.db.now, d'.calls[call].requestedAt) && d'.calls[call].startedAt.None?)
  {
    ReachableInv(s);
    assert TaskOk(s.db, s.tasks[t]);
    hide DbInv, Inv, Holds, Free, CS.Act, CS.CanAct;
    LateWrite(s.db, s.tasks[t].call, o);
  }

  lemma LateWrite(d: DB, c: CS.Task, o: Steps.Oracle)
    requires DbInv(d) && CS.Ok(d, c) && CS.CanAct(d, c, o) && (c.phase.TimedOut? || c.phase.Unfunded?)
    ensures var d' := CS.Act(d, c, o).db;
      && (c.call in d.calls && d.calls[c.call].status != Requested ==> d' == d)
      && (c.call in d.calls && d.calls[c.call].status == Requested ==>
            d'.calls == d.calls[c.call := d.calls[c.call].(status := Ended, endedAt := Some(d.now),
              endReason := Some(if c.phase.TimedOut? then Timeout else NoCredits))])
      && (forall other :: other in d.calls && other != c.call ==> other in d'.calls && d'.calls[other] == d.calls[other])
      && (c.call in d'.calls && d'.calls != d.calls && c.phase.TimedOut? ==>
            IsExpired(d.now, d'.calls[c.call].requestedAt) && d'.calls[c.call].startedAt.None?)
  {
    hide DbInv, IsExpired, Sum;
    if c.call in d.calls { RingingNotStarted(d, c.call); }
  }

  lemma RingingNotStarted(d: DB, call: Id)
    requires DbInv(d) && call in d.calls
    ensures d.calls[call].status == Requested ==> d.calls[call].startedAt.None?
  {
    assert CallOk(d.calls[call], d.now, call in d.reopened);
  }

  /** A call becomes ACTIVE only by an accept of the call's own model, which re-read it ringing, and
      only while the client's balance covers the first minute. */
  lemma StartedByItsModel(s: State, step: Step, call: Id)
    requires Reachable(s) && Enabled(s, step) && call in s.db.calls && call in Apply(s, step).db.calls
    requires s.db.calls[call].status != Active && Apply(s, step).db.calls[call].status == Active
    ensures step.Advance? && step.t in s.tasks && IsActivation(s.tasks[step.t], call)
    ensures var c, work := s.db.calls[call], s.tasks[step.t].call;
      && work.model == c.model && work.phase.row.status == Requested
      && c.price <= Balance(s.db.ledger, Client(c.client)) && c.startedAt.None?
  {
    hide DbInv, AllOk, MutualExclusion, Reachable, Act, CanAct, Free, Holds, Happen, CanHappen, Starts, Failed, TaskOk, Sum;
    ReachableInv(s);
    match step {
      case Advance(t, o) =>
        StatementActivates(s.db, s.tasks[t], o, call);
        TaskIsOk(s, t);
        ActivatorKnows(s.db, s.tasks[t], call);
      case Outside(e) => EventActivates(s.db, e, call);
      case _ =>
    }
  }

  lemma TaskIsOk(s: State, t: Tid)
    requires Inv(s) && t in s.tasks
    ensures TaskOk(s.db, s.tasks[t])
  {
    hide DbInv, TaskOk, MutualExclusion;
  }

  lemma StatementActivates(d: DB, t: Task, o: Steps.Oracle, call: Id)
    requires CanAct(d, t, o) && call in d.calls && d.calls[call].status != Active
    requires call in Act(d, t, o).db.calls && Act(d, t, o).db.calls[call].status == Active
    ensures IsActivation(t, call)
  {
    hide CS.Act, CS.CanAct, TM.Act, TM.CanAct, OpensNothing, Sum, Posted, Rows;
    if t.Calling? {
      CallerActs(d, t.call, o);
      CallActivates(d, t.call, o, call);
    } else {
      OtherActivates(d, t, o, call);
    }
  }

  lemma CallActivates(d: DB, c: CS.Task, o: Steps.Oracle, call: Id)
    requires CS.CanAct(d, c, o) && call in d.calls && d.calls[call].status != Active
    requires call in CS.Act(d, c, o).db.calls && CS.Act(d, c, o).db.calls[call].status == Active
    ensures IsActivation(Calling(c), call)
  {
    hide Sum, IsExpired, CS.OpenOfClient, CS.OpenOfModel, CS.OtherActive;
  }

  lemma OtherActivates(d: DB, t: Task, o: Steps.Oracle, call: Id)
    requires CanAct(d, t, o) && !t.Calling? && call in d.calls && d.calls[call].status != Active
    ensures call in Act(d, t, o).db.calls && Act(d, t, o).db.calls[call].status != Active
  {
    hide Rows, TakeRate.ComputeSplit, Posted, Sum, Claimable, CS.Act, TM.Act, TM.CanAct;
    if t.Meter? { MeterActivates(d, t.meter, o, call); }
  }

  lemma MeterActivates(d: DB, m: TM.Task, o: Steps.Oracle, call: Id)
    requires TM.CanAct(d, m, o) && call in d.calls && d.calls[call].status != Active
    ensures call in TM.Act(d, m, o).db.calls && TM.Act(d, m, o).db.calls[call].status != Active
  {
    hide Rows, TakeRate.ComputeSplit, Posted, Sum;
  }

  lemma EventActivates(d: DB, e: Event, call: Id)
    requires CanHappen(d, e) && call in d.calls && d.calls[call].status != Active
    ensures call in Happen(d, e).calls && Happen(d, e).calls[call].status != Active
  {
  }

  lemma ActivatorKnows(d: DB, t: Task, call: Id)
    requires TaskOk(d, t) && IsActivation(t, call)
    ensures call in d.calls
    ensures var c := d.calls[call];
      && t.call.model == c.model && t.call.phase.row.status == Requested
      && c.price <= Balance(d.ledger, Client(c.client)) && c.startedAt.None?
  {
    hide Sum;
  }

  /** What the updates outside any transaction do, column by column: reject and the ring timeout end a
      ringing call, hangup, panic and endCall any open one, and the sweep expires an overdue PENDING
      recharge; a row in any other state, and every other row, stays as it is. */
  lemma UpdatesInWords(d: DB, e: Event)
    requires CanHappen(d, e)
    ensures var d' := Happen(d, e);
      match e
      case Reject(call) =>
        d' == d.(calls := if call in d.calls && d.calls[call].status == Requested
          then d.calls[call := d.calls[call].(status := Ended, endReason := Some(Rejected), endedAt := Some(d.now))] else d.calls)
      case RingOut(call) =>
        && call in d.calls && d.now - d.calls[call].requestedAt > 30000
        && d' == d.(calls := if d.calls[call].status == Requested
          then d.calls[call := d.calls[call].(status := Ended, endReason := Some(Timeout), endedAt := Some(d.now))] else d.calls)
      case HangUp(call, reason) =>
        d' == d.(calls := if call in d.calls && d.calls[call].status != Ended
          then d.calls[call := d.calls[call].(status := Ended, endReason := Some(reason), endedAt := Some(d.now))] else d.calls)
      case Sweep(id) =>
        && id in d.recharges
        && var row := d.recharges[id];
           d' == d.(recharges := if row.status == RechargePending && row.expiresAt.Some? && row.expiresAt.value < d.now
             then d.recharges[id := row.(status := RechargeExpired)] else d.recharges)
      case Tick(elapsed) => d' == d.(now := d.now + elapsed)
      case SetProfile(model, profile) => d' == d.(profiles := d.profiles[model := profile])
      case Approve(model) => d' == d.(approved := d.approved + {model})
  {
  }

  /** A refusal by the environment ends the operation without a write: no such gift or model, a model
      who is not available or not online; a provider that gives no charge leads to FAILED, one that does
      not pay leads to the reversal, and one that pays to PAID. */
  lemma AnswersInWords(d: DB, t: Task, o: Steps.Oracle)
    requires CanAct(d, t, o)
    ensures t.Gifting? && (t.gift.phase.Locked? || t.gift.phase.Named?) && !o.ok ==>
      Act(d, t, o).db == d && Act(d, t, o).task.gift.phase.Finished?
    ensures t.Calling? && (t.call.phase.ClientFree? || t.call.phase.ModelFree?) && !o.ok ==>
      Act(d, t, o).db == d && Act(d, t, o).task.call.phase.Finished?
    ensures t.Charging? && t.charge.phase.Created? && !o.ok ==>
      Act(d, t, o).db == d && Act(d, t, o).task.charge.phase == RS.Failing(t.charge.phase.id)
    ensures t.Charging? && t.charge.phase.Failing? ==>
      var id := t.charge.phase.id;
      id in d.recharges && Act(d, t, o).db == d.(recharges := d.recharges[id := d.recharges[id].(status := RechargeFailed)])
    ensures t.Paying? && t.pay.phase.Sending? ==>
      var id, stamp := t.pay.phase.id, t.pay.phase.stamp;
      && Act(d, t, o).task.pay.phase == (if o.ok then PS.Marking(id, stamp) else PS.Reversing(id, stamp))
      && Act(d, t, o).db == d.(sent := if o.moved then d.sent + {id} else d.sent)
  {
    match t {
      case Gifting(_) => hide TM.Act, CS.Act, PS.Act, RS.Act, Rows, Sum, TakeRate.ComputeSplit, Posted;
      case Calling(_) => hide TM.Act, GS.Act, PS.Act, RS.Act, Sum;
      case Charging(_) => hide TM.Act, CS.Act, PS.Act, GS.Act, Rows, Posted;
      case Paying(_) => hide TM.Act, CS.Act, GS.Act, RS.Act, Rows, Posted, Sum, Claimable;
      case _ =>
    }
  }

  /** A call that has started stays started, and once it is over it stays over: `accept` can only
      reopen calls that never began. */
  lemma StartedCallsEndForGood(s: State, step: Step, call: Id)
    requires Reachable(s) && Enabled(s, step) && call in s.db.calls && s.db.calls[call].startedAt.Some?
    ensures var d' := Apply(s, step).db;
      && call in d'.calls && d'.calls[call].startedAt == s.db.calls[call].startedAt
      && d'.calls[call].status != Requested
      && (s.db.calls[call].status == Ended ==> d'.calls[call].status == Ended)
  {
    ReachableInv(s);
    var keys := StepGuarantee(s, step);
    assert CallOk(s.db.calls[call], s.db.now, call in s.db.reopened);
  }

  /** End reasons: set exactly on ended calls, TIMEOUT and REJECTED only on calls never started,
      TIMEOUT only after the ringing time; a reopened call is the exception and keeps its reason. */
  lemma EndReasons(s: State, call: Id)
    requires Reachable(s) && call in s.db.calls
    ensures var c := s.db.calls[call];
      && (call !in s.db.reopened ==> (c.endReason.Some? <==> c.status == Ended))
      && (call !in s.db.reopened && (c.endReason == Some(Timeout) || c.endReason == Some(Rejected)) ==> c.startedAt.None? && c.billed == 0)
      && (c.endReason == Some(Timeout) ==> c.endedAt.Some? && c.endedAt.value - c.requestedAt > RING_TIMEOUT_MS)
      && (call in s.db.reopened ==> c.startedAt.Some? && c.endReason.Some?)
  {
    ReachableInv(s);
    assert CallOk(s.db.calls[call], s.db.now, call in s.db.reopened);
  }

  // ---------------------------------------------------------------- whole runs

  /** Rows are only ever added, and the platform never loses money. */
  lemma LedgerOnlyGrows(s: State, steps: seq<Step>)
    requires Reachable(s) && CanRun(s, steps)
    ensures var s' := Run(s, steps);
      && s.db.ledger <= s'.db.ledger && s.db.cfg == s'.db.cfg
      && Balance(s.db.ledger, Platform) <= Balance(s'.db.ledger, Platform)
  {
    ReachableInv(s);
    hide Inv, CanRun, Run, Reachable;
    GrowsFrom(s, steps);
  }

  lemma {:induction false} GrowsFrom(s: State, steps: seq<Step>)
    requires Inv(s) && CanRun(s, steps)
    ensures var s' := Run(s, steps);
      && s.db.ledger <= s'.db.ledger && s.db.cfg == s'.db.cfg
      && Balance(s.db.ledger, Platform) <= Balance(s'.db.ledger, Platform)
    decreases |steps|
  {
    hide Inv, Enabled, Apply, MinutesStep, CallsStep, RechargesStep, PayoutsStep;
    if steps != [] {
      var keys := StepGuarantee(s, steps[0]);
      StepKeeps(s, steps[0]);
      GrowsFrom(Apply(s, steps[0]), steps[1..]);
    }
  }

  // -------------------------------------------------------------- commission

  ghost predicate RatesFall(tiers: seq<Ranking.TierRow>) {
    forall k :: 0 <= k < |tiers| - 1 ==> tiers[k + 1].rate <= tiers[k].rate
  }

  /** Over any run, the earnings and the tier of a model never fall; if rates fall from tier to
      tier, neither the tier's rate nor the commission on a price ever rises. */
  lemma CommissionNeverRises(s: State, steps: seq<Step>, model: Id, price: int)
    requires Reachable(s) && CanRun(s, steps)
    requires RatesFall(s.db.cfg.tiers) && price >= 0
    ensures var d, d' := s.db, Run(s, steps).db;
      && d.cfg.tiers != [] && d'.cfg.tiers != []
      && GrossEarned(d.ledger, model) <= GrossEarned(d'.ledger, model)
      && var rate, rate' := TierRate(d.cfg.tiers, GrossEarned(d.ledger, model)), TierRate(d'.cfg.tiers, GrossEarned(d'.ledger, model));
      && rate' <= rate
      && TakeRate.ComputeSplit(price, rate').commission <= TakeRate.ComputeSplit(price, rate).commission
  {
    hide DbInv, AllOk, MutualExclusion, Reachable, Run, CanRun, TakeRate.ComputeSplit, ValidConfig, Sum, TierRate;
    ReachableInv(s);
    LedgerOnlyGrows(s, steps);
    var d, d' := s.db, Run(s, steps).db;
    ConfigIsValid(d);
    assert d'.ledger == d.ledger + d'.ledger[|d.ledger|..];
    EarningsNeverShrink(d.ledger, d'.ledger[|d.ledger|..], model);
    var e, e' := GrossEarned(d.ledger, model), GrossEarned(d'.ledger, model);
    TierNeverFalls(d.cfg.tiers, e, e');
    RateIsRate(d.cfg, e');
    TakeRate.CommissionMonotone(price, price, TierRate(d.cfg.tiers, e'), TierRate(d.cfg.tiers, e));
  }

  lemma ConfigIsValid(d: DB)
    requires DbInv(d)
    ensures ValidConfig(d.cfg) && d.cfg.tiers != []
  {
  }

  /** The rate of a tier, in cents: earnings in cents against thresholds in whole units, the last row
      reached, or the first one. */
  lemma TierRateInWords(tiers: seq<Ranking.TierRow>, cents: int, k: nat)
    requires k < |tiers| && (k == 0 || tiers[k].min * 100.0 <= cents as real)
    requires forall j :: k < j < |tiers| ==> cents as real < tiers[j].min * 100.0
    ensures TierRate(tiers, cents) == tiers[k].rate
  {
    var earned := cents as real / 100.0;
    Ranking.LastReachedIsLast(earned, tiers);
    assert earned * 100.0 == cents as real;
  }

  lemma TierNeverFalls(tiers: seq<Ranking.TierRow>, earned: int, more: int)
    requires tiers != [] && RatesFall(tiers) && earned <= more
    ensures TierRate(tiers, more) <= TierRate(tiers, earned)
  {
    var x, y := earned as real / 100.0, more as real / 100.0;
    Ranking.TierIndexMonotone(x, y, tiers);
    Ranking.FallingRates(tiers, Ranking.LastReached(x, tiers), Ranking.LastReached(y, tiers));
  }

  lemma RateIsRate(cfg: Config, earned: int)
    requires ValidConfig(cfg)
    ensures TakeRate.IsRate(TierRate(cfg.tiers, earned))
  {
    var i := Ranking.LastReached(earned as real / 100.0, cfg.tiers);
    assert TakeRate.IsRate(cfg.tiers[i].rate);
  }

  // ---------------------------------------------------------------- solvency

  /** A recharge is EXPIRED only after its time. */
  lemma ExpiredWereOverdue(s: State, recharge: Id)
    requires Reachable(s) && recharge in s.db.recharges && s.db.recharges[recharge].status == RechargeExpired
    ensures s.db.recharges[recharge].expiresAt.Some? && s.db.recharges[recharge].expiresAt.value < s.db.now
  {
    ReachableInv(s);
  }

  /** All balances add up to zero, and clients, models and platform together hold what was
      credited by recharges minus what left through payouts that were not reversed. */
  lemma Solvency(s: State)
    requires Reachable(s)
    ensures var d := s.db;
      && Sum(d.ledger, Internal) + Balance(d.ledger, External) == 0
      && Sum(d.ledger, Internal) == Totals.MapSum(Credits(d.ledger, d.recharges)) - Totals.MapSum(Outstanding(d.ledger, d.payouts))
  {
    ReachableInv(s);
    InternalPlusExternal(s.db.ledger);
  }

  // --------------------------------------------------------------- recharges

  /** A recharge is credited at most once: if its group is on the ledger, its user got exactly the
      stored amount for it, the outside account the opposite, and nobody else anything. PAID ones are
      credited; credited ones have a charge and are PAID, or FAILED; all others moved nothing. */
  lemma RechargeCreditedExactlyOnce(s: State, recharge: Id, a: Account)
    requires Reachable(s) && recharge in s.db.recharges
    ensures var r := s.db.recharges[recharge];
      var credited := if RechargePaid(recharge) in Posted(s.db.ledger) then r.amount else 0;
      && (r.status == RechargeCredited ==> RechargePaid(recharge) in Posted(s.db.ledger))
      && (RechargePaid(recharge) in Posted(s.db.ledger) ==>
            r.chargeId.Some? && (r.status == RechargeCredited || r.status == RechargeFailed))
      && Sum(s.db.ledger, RechargeOf(recharge, a)) ==
           if a == Client(r.user) then credited else if a == External then -credited else 0
  {
    hide DbInv, AllOk, MutualExclusion, Reachable, Placement.WellPlaced;
    ReachableInv(s);
    ReachablePlaced(s);
    RechargeSums(s.db, recharge, a);
  }

  lemma RechargeSums(d: DB, recharge: Id, a: Account)
    requires DbInv(d) && Placement.WellPlaced(d) && recharge in d.recharges
    ensures var r := d.recharges[recharge];
      var credited := if RechargePaid(recharge) in Posted(d.ledger) then r.amount else 0;
      && (r.status == RechargeCredited ==> RechargePaid(recharge) in Posted(d.ledger))
      && (RechargePaid(recharge) in Posted(d.ledger) ==>
            r.chargeId.Some? && (r.status == RechargeCredited || r.status == RechargeFailed))
      && Sum(d.ledger, RechargeOf(recharge, a)) ==
           if a == Client(r.user) then credited else if a == External then -credited else 0
  {
    hide DbInv, Sum, Posted, RechargesOk;
    RowsAreOk(d);
    RechargeIsOk(d.ledger, d.recharges, recharge);
    var user := d.recharges[recharge].user;
    Placement.RechargeTotal(d.ledger, recharge, user);
    if a != Client(user) && a != External { NothingPicked(d.ledger, RechargeOf(recharge, a)); }
  }

  // ----------------------------------------------------------------- payouts

  /** Without any assumption on timing: one debit, at most one reversal, nothing else. */
  lemma PayoutNetEffect(s: State, payout: Id, a: Account)
    requires Reachable(s) && payout in s.db.payouts
    ensures var p := s.db.payouts[payout];
      var out := if PayoutReversed(payout) in Posted(s.db.ledger) then 0 else p.amount;
      && PayoutAsked(payout) in Posted(s.db.ledger)
      && Sum(s.db.ledger, PayoutOf(payout, a)) == if a == Model(p.model) then -out else if a == External then out else 0
  {
    hide DbInv, AllOk, MutualExclusion, Reachable, Placement.WellPlaced;
    ReachableInv(s);
    ReachablePlaced(s);
    PayoutTotals(s.db, payout, a);
  }

  lemma PayoutTotals(d: DB, payout: Id, a: Account)
    requires DbInv(d) && Placement.WellPlaced(d) && payout in d.payouts
    ensures var p := d.payouts[payout];
      var out := if PayoutReversed(payout) in Posted(d.ledger) then 0 else p.amount;
      && PayoutAsked(payout) in Posted(d.ledger)
      && Sum(d.ledger, PayoutOf(payout, a)) == if a == Model(p.model) then -out else if a == External then out else 0
  {
    hide DbInv, Sum, Posted, PayoutsOk;
    RowsAreOk(d);
    PayoutIsOk(d.ledger, d.payouts, d.approved, payout);
    var model := d.payouts[payout].model;
    Placement.PayoutTotal(d.ledger, payout, model);
    if a != Model(model) && a != External { NothingPicked(d.ledger, PayoutOf(payout, a)); }
  }

  /** Every payout belongs to an approved account, although approval is read outside the
      transaction. */
  lemma PayoutsAreApproved(s: State, payout: Id)
    requires Reachable(s) && payout in s.db.payouts
    ensures s.db.payouts[payout].model in s.db.approved
  {
    ReachableInv(s);
    PayoutIsOk(s.db.ledger, s.db.payouts, s.db.approved, payout);
  }
}

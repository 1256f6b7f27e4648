/** No interleaving deadlocks on the advisory locks. */
module Progress {
  import opened Prelude
  import opened Tables
  import opened Ledger
  import opened Writes
  import opened Invariant
  import opened Machine
  import opened Steps
  import Theorems
  import TM = TaximeterSteps
  import GS = GiftSteps
  import CS = CallSteps
  import PS = PayoutSteps
  import RS = RechargeSteps

  // -------------------------------------------------- what the oracle can offer

  /** There is always an identifier outside a finite set. */
  lemma {:induction false} FreshId(used: set<Id>) returns (id: Id)
    ensures id !in used
  {
    id := LongerThanAll(used);
  }

  lemma {:induction false} LongerThanAll(used: set<Id>) returns (id: Id)
    ensures forall x :: x in used ==> |x| < |id|
  {
    if used == {} {
      id := "";
    } else {
      var x :| x in used;
      var longer := LongerThanAll(used - {x});
      id := longer + x + "-";
    }
  }

  /** The rows of a query can be listed. */
  lemma {:induction false} Listing(rows: set<Id>) returns (ids: seq<Id>)
    ensures TM.Lists(ids, rows)
  {
    if rows == {} {
      ids := [];
    } else {
      var x :| x in rows;
      var rest := Listing(rows - {x});
      ids := [x] + rest;
      assert forall id :: id in rows ==> id == x || id in rest;
    }
  }

  // ------------------------------------------------------------- live workers

  predicate Unfinished(t: Task) {
    match t
    case Meter(m) => !m.phase.Finished?
    case Gifting(g) => !g.phase.Finished?
    case Calling(c) => !c.phase.Finished?
    case Paying(p) => !p.phase.Finished?
    case Charging(r) => !r.phase.Finished?
    case Dead => false
  }

  /** The advisory lock a worker is asking for. */
  function Wants(t: Task): Option<Key> {
    match t
    case Meter(m) => if m.phase.Waiting? then Some(ClientKey(m.phase.client)) else None
    case Gifting(g) => if g.phase.Waiting? then Some(ClientKey(g.client)) else None
    case Calling(c) =>
      if c.phase.WantClient? then Some(ClientKey(c.client))
      else if c.phase.WantModel? then Some(ModelKey(c.model))
      else if c.phase.Waiting? then Some(ClientKey(c.phase.client))
      else None
    case Paying(p) => if p.phase.Waiting? then Some(AccountKey(p.model)) else None
    case _ => None
  }

  /** The worker's next statement fails: its reversal is posted already. */
  ghost predicate MustFail(d: DB, t: Task) {
    t.Paying? && t.pay.phase.Reversing? && PayoutReversed(t.pay.phase.id) in Posted(d.ledger)
  }

  /** Some statement of this worker can be executed now, or its statement fails by itself. */
  ghost predicate CanStep(s: State, t: Tid) {
    t in s.tasks && (MustFail(s.db, s.tasks[t]) || exists o :: Enabled(s, Advance(t, o)))
  }

  /** A worker that asks for no lock finds an answer from the environment with which it can act,
      and acting takes no lock. */
  lemma AnswerExists(d: DB, t: Task) returns (o: Oracle)
    requires DbInv(d) && TaskOk(d, t) && Unfinished(t) && !MustFail(d, t)
    ensures CanAct(d, t, o)
    ensures Holds(Act(d, t, o).task) <= Holds(t) + (if Wants(t).Some? then {Wants(t).value} else {})
      + (if t.Charging? then {FreshRecharge(o.id)} else {})
    ensures t.Charging? && t.charge.phase.Checking? ==> o.id !in d.recharges
  {
    assert d.cfg.tiers != [];
    var id := FreshId(d.calls.Keys + d.gifts.Keys + d.recharges.Keys + d.payouts.Keys);
    var rows := if t.Meter? then TM.ActiveCalls(d.calls)
      else if t.Paying? then PS.ClaimableRows(d.payouts, t.pay.cutoff) else {};
    var ids := Listing(rows);
    o := Oracle(id, ids, false, false, 0, "");
    match t {
      case Meter(m) => hide DbInv; MeterAnswer(d, m, o);
      case Gifting(g) => GS.NoDuplicate(d, id); hide DbInv; GiftAnswer(d, g, o);
      case Calling(c) => hide DbInv; CallAnswer(d, c, o);
      case Paying(p) => hide DbInv; PayAnswer(d, p, o);
      case Charging(r) => o := ChargeAnswer(d, r, o);
    }
  }

  lemma MeterAnswer(d: DB, m: TM.Task, o: Oracle)
    requires TM.Ok(d, m) && !m.phase.Finished? && d.cfg.tiers != [] && TM.Lists(o.ids, TM.ActiveCalls(d.calls))
    ensures TM.CanAct(d, m, o)
    ensures TM.Holds(TM.Act(d, m, o).task) <= TM.Holds(m) + (if m.phase.Waiting? then {ClientKey(m.phase.client)} else {})
  {
    assert m.dues != [] ==> TM.DueOk(d, m.dues[0]);
    hide Posted, Sum, Rows;
  }

  lemma GiftAnswer(d: DB, g: GS.Task, o: Oracle)
    requires !g.phase.Finished? && d.cfg.tiers != [] && o.amount >= 0
    requires o.id !in d.gifts && GiftSent(o.id) !in Posted(d.ledger)
    ensures GS.CanAct(d, g, o)
    ensures GS.Holds(GS.Act(d, g, o).task) <= GS.Holds(g) + (if g.phase.Waiting? then {ClientKey(g.client)} else {})
  {
    hide Posted, Sum, Rows;
  }

  lemma CallAnswer(d: DB, c: CS.Task, o: Oracle)
    requires CS.Ok(d, c) && !c.phase.Finished? && o.id !in d.calls
    ensures CS.CanAct(d, c, o)
    ensures CS.Holds(CS.Act(d, c, o).task) <= CS.Holds(c) +
      (if c.phase.WantClient? then {ClientKey(c.client)}
       else if c.phase.WantModel? then {ModelKey(c.model)}
       else if c.phase.Waiting? then {ClientKey(c.phase.client)} else {})
  {
    hide Posted, Sum, Rows;
  }

  lemma PayAnswer(d: DB, p: PS.Task, o: Oracle)
    requires PS.Ok(d, p) && !p.phase.Finished? && o.id !in d.payouts
    requires TM.Lists(o.ids, PS.ClaimableRows(d.payouts, p.cutoff))
    requires p.phase.Reversing? ==> PayoutReversed(p.phase.id) !in Posted(d.ledger)
    ensures PS.CanAct(d, p, o)
    ensures PS.Holds(PS.Act(d, p, o).task) <= PS.Holds(p) + (if p.phase.Waiting? then {AccountKey(p.model)} else {})
  {
    hide Posted, Sum, Rows, TM.Lists, PS.ClaimableRows;
  }

  lemma ChargeAnswer(d: DB, r: RS.Task, o: Oracle) returns (p: Oracle)
    requires DbInv(d) && RS.Ok(d, r) && !r.phase.Finished? && o.id !in d.recharges
    ensures RS.CanAct(d, r, p)
    ensures RS.Holds(RS.Act(d, r, p).task) <= RS.Holds(r) + {FreshRecharge(p.id)}
    ensures r.phase.Checking? ==> p.id !in d.recharges
  {
    hide DbInv, Posted, Sum, Rows, OpenRecharge, AttachCharge, FailRecharge, Credit;
    p := o;
    if r.phase.Looking? {
      if id :| id in d.recharges && d.recharges[id].chargeId == Some(r.phase.chargeId) {
        p := o.(id := id, ok := true);
      } else {
        p := o.(ok := false);
      }
    }
    if r.phase.Found? && d.recharges[r.phase.id].status == RechargePending { RS.NoDuplicate(d, r.phase.id); }
  }

  /** The id of a new recharge is known to nobody, so the step that creates it never waits. */
  lemma NobodyHoldsAFreshRow(s: State, u: Tid, id: Id)
    requires Inv(s) && u in s.tasks && FreshRecharge(id) in Holds(s.tasks[u])
    ensures id in s.db.recharges
  {
    assert TaskOk(s.db, s.tasks[u]);
  }

  /** A worker whose wanted lock nobody else holds can step. */
  lemma UnblockedCanStep(s: State, t: Tid)
    requires Inv(s) && t in s.tasks && Unfinished(s.tasks[t])
    requires Wants(s.tasks[t]).Some? ==> Free(s, t, {Wants(s.tasks[t]).value})
    ensures CanStep(s, t)
  {
    assert TaskOk(s.db, s.tasks[t]);
    if !MustFail(s.db, s.tasks[t]) {
      var o := AnswerExists(s.db, s.tasks[t]);
      var task := s.tasks[t];
      hide TaskOk, DbInv, Act, CanAct, Unfinished;
      forall u | u in s.tasks && u != t ensures Holds(s.tasks[u]) !! Holds(Act(s.db, task, o).task) {
        assert Holds(s.tasks[u]) !! Holds(task);
        if task.Charging? { FreshOnlyAtCreation(s, t, u, o); }
      }
      assert Enabled(s, Advance(t, o));
    }
  }

  lemma FreshOnlyAtCreation(s: State, t: Tid, u: Tid, o: Oracle)
    requires Inv(s) && t in s.tasks && u in s.tasks && u != t && CanAct(s.db, s.tasks[t], o)
    requires s.tasks[t].Charging?
    ensures Holds(s.tasks[u]) !! Holds(Act(s.db, s.tasks[t], o).task)
  {
    hide DbInv, TaskOk, CanAct, Act, Inv, Holds;
    OthersHoldOther(s, t, u);
    ChargeTakesFreshOnly(s.db, s.tasks[t], o);
    if s.tasks[t].charge.phase.Checking? && FreshRecharge(o.id) in Holds(s.tasks[u]) {
      NobodyHoldsAFreshRow(s, u, o.id);
    }
  }

  lemma OthersHoldOther(s: State, t: Tid, u: Tid)
    requires Inv(s) && t in s.tasks && u in s.tasks && u != t
    ensures Holds(s.tasks[u]) !! Holds(s.tasks[t])
  {
    hide DbInv, TaskOk, Holds;
  }

  /** Creating a recharge takes its fresh id, which no row has; every other statement about
      recharges takes nothing. */
  lemma ChargeTakesFreshOnly(d: DB, t: Task, o: Oracle)
    requires t.Charging? && CanAct(d, t, o)
    ensures Holds(Act(d, t, o).task) <= Holds(t) + (if t.charge.phase.Checking? then {FreshRecharge(o.id)} else {})
    ensures t.charge.phase.Checking? ==> o.id !in d.recharges
  {
    hide Posted, Sum, Rows;
  }

  /** Whoever holds a lock asks for no further one, except a starting call that holds its client's
      lock and asks for its model's: keys are taken in one fixed order. */
  lemma HoldersAskUpwards(d: DB, t: Task)
    requires Holds(t) != {} && Wants(t).Some?
    ensures t.Calling? && t.call.phase.WantModel?
    ensures Holds(t) == {ClientKey(t.call.client)} && Wants(t) == Some(ModelKey(t.call.model))
  {
  }

  /** Deadlock freedom: while some worker is unfinished, some worker can take a step. */
  lemma SomebodyCanStep(s: State, t: Tid) returns (u: Tid)
    requires Theorems.Reachable(s) && t in s.tasks && Unfinished(s.tasks[t])
    ensures CanStep(s, u)
  {
    Theorems.ReachableInv(s);
    u := t;
    hide Inv, CanStep, Holds, Wants, Unfinished;
    var key := Wants(s.tasks[t]);
    if key.Some? && !Free(s, t, {key.value}) {
      var v :| v in s.tasks && v != t && key.value in Holds(s.tasks[v]);
      u := v;
      if Wants(s.tasks[v]).Some? {
        HoldersAskUpwards(s.db, s.tasks[v]);
        var model := Wants(s.tasks[v]).value;
        if !Free(s, v, {model}) {
          var w :| w in s.tasks && w != v && model in Holds(s.tasks[w]);
          u := w;
          ModelHolderAsksNothing(s.tasks[w], model);
        }
      }
    }
    if u != t { HolderIsUnfinished(s.tasks[u]); }
    UnblockedCanStep(s, u);
  }

  lemma HolderIsUnfinished(t: Task)
    requires Holds(t) != {}
    ensures Unfinished(t)
  {
  }

  lemma ModelHolderAsksNothing(t: Task, key: Key)
    requires key in Holds(t) && key.ModelKey?
    ensures Wants(t).None?
  {
  }
}

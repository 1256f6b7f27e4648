/** Creating and confirming recharges, statement by statement (src/wallet/wallet.service.ts). */
module RechargeSteps {
  import opened Prelude
  import opened Tables
  import opened Ledger
  import opened Writes
  import opened Invariant
  import opened Steps

  datatype Phase =
    // createRecharge
    | Checking                                        // minimum, then insert the PENDING row
    | Created(id: Id)                                 // about to call the provider
    | Charged(id: Id, chargeId: string, expiresAt: int)  // about to store the charge
    | Failing(id: Id)                                 // about to write FAILED
    | Losing(id: Id)                                  // the same, although the charge was stored after all
    // confirmRecharge
    | Looking(chargeId: string)                       // about to look the recharge up
    | Found(id: Id)                                   // checks passed; about to claim and credit
    | Finished

  /** `amount` is the requested amount, or the amount a confirmation reports. */
  datatype Task = Task(user: Id, amount: int, phase: Phase)

  datatype Effect = Effect(db: DB, task: Task)

  ghost function Holds(t: Task): set<Key> {
    match t.phase
    case Created(id) => {FreshRecharge(id)}
    case Charged(id, _, _) => {FreshRecharge(id)}
    case Failing(id) => {FreshRecharge(id)}
    case _ => {}
  }

  /** The lookup returns any row with that charge, and none only if there is none. */
  ghost predicate CanAct(d: DB, t: Task, o: Oracle) {
    match t.phase
    case Checking => o.id !in d.recharges
    case Charged(id, _, _) => id in d.recharges
    case Failing(id) => id in d.recharges
    case Losing(id) => id in d.recharges
    case Looking(chargeId) =>
      if o.ok then o.id in d.recharges && d.recharges[o.id].chargeId == Some(chargeId)
      else forall id :: id in d.recharges ==> d.recharges[id].chargeId != Some(chargeId)
    case Found(id) =>
      id in d.recharges && (d.recharges[id].status == RechargePending ==> RechargePaid(id) !in Posted(d.ledger))
    case Created(_) => true
    case Finished => false
  }

  /** The update that stores the charge may be committed (`moved`) and still report an error. */
  ghost function Act(d: DB, t: Task, o: Oracle): Effect
    requires CanAct(d, t, o)
  {
    match t.phase
    case Checking =>
      if t.amount < d.cfg.minRecharge then Effect(d, t.(phase := Finished))
      else Effect(OpenRecharge(d, o.id, t.user, t.amount), t.(phase := Created(o.id)))
    case Created(id) => Effect(d, t.(phase := if o.ok then Charged(id, o.text, o.amount) else Failing(id)))
    case Charged(id, chargeId, expiresAt) =>
      if o.ok then Effect(AttachCharge(d, id, chargeId, expiresAt), t.(phase := Finished))
      else if o.moved then Effect(AttachCharge(d, id, chargeId, expiresAt), t.(phase := Losing(id)))
      else Effect(d, t.(phase := Failing(id)))
    case Failing(id) => Effect(FailRecharge(d, id), t.(phase := Finished))
    case Losing(id) => Effect(FailRecharge(d, id), t.(phase := Finished))
    case Looking(chargeId) =>
      var go := o.ok && d.recharges[o.id].status != RechargeCredited && t.amount == d.recharges[o.id].amount;
      Effect(d, t.(phase := if go then Found(o.id) else Finished))
    case Found(id) => Effect(Credit(d, id), t.(phase := Finished))
    case Finished => Effect(d, t)
  }

  /** While its creator works on it, a recharge is PENDING and has no charge. */
  ghost predicate IsFresh(d: DB, id: Id) {
    id in d.recharges && d.recharges[id].status == RechargePending && d.recharges[id].chargeId.None?
  }

  ghost predicate Ok(d: DB, t: Task) {
    match t.phase
    case Created(id) => IsFresh(d, id)
    case Charged(id, _, _) => IsFresh(d, id)
    case Failing(id) => IsFresh(d, id)
    case Losing(id) => id in d.recharges && d.recharges[id].chargeId.Some?
    case Found(id) => id in d.recharges && d.recharges[id].chargeId.Some?
    case _ => true
  }

  lemma Stable(d: DB, d': DB, keys: set<Key>, t: Task)
    requires Ok(d, t) && Guarantee(d, d', keys) && Holds(t) !! keys
    ensures Ok(d', t)
  {
    hide PayoutsStep, CallsStep, MinutesStep, MoneyStep, Sum;
  }

  /** Keys before and after the step: the fresh row's id is known to its creator only. */
  ghost function KeysOf(d: DB, t: Task, o: Oracle): set<Key>
    requires CanAct(d, t, o)
  {
    Holds(t) + Holds(Act(d, t, o).task)
  }

  /** A step whose guarantee is stated for fewer keys. */
  lemma Widen(d: DB, t: Task, o: Oracle, keys: set<Key>)
    requires DbInv(d) && CanAct(d, t, o) && keys <= KeysOf(d, t, o)
    requires Guarantee(d, Act(d, t, o).db, keys)
    ensures Guarantee(d, Act(d, t, o).db, KeysOf(d, t, o))
  {
    hide Guarantee, DbInv;
    MoreKeys(d, Act(d, t, o).db, keys, KeysOf(d, t, o));
  }

  lemma CreationKeeps(d: DB, t: Task, o: Oracle)
    requires DbInv(d) && Ok(d, t) && CanAct(d, t, o) && (t.phase.Charged? || t.phase.Failing?)
    ensures var e := Act(d, t, o);
      DbInv(e.db) && Guarantee(d, e.db, {FreshRecharge(t.phase.id)}) && Ok(e.db, e.task)
  {
    hide DbInv, Guarantee, Sum;
    NothingHappens(d, {FreshRecharge(t.phase.id)});
    match t.phase {
      case Charged(id, chargeId, expiresAt) => AttachChargeKeeps(d, id, chargeId, expiresAt);
      case Failing(id) => FailRechargeKeeps(d, id);
    }
  }

  lemma MinimumIsNatural(d: DB)
    requires DbInv(d)
    ensures d.cfg.minRecharge >= 0
  {
  }

  lemma OpenedRow(d: DB, id: Id, user: Id, amount: int)
    ensures IsFresh(OpenRecharge(d, id, user, amount), id)
  {
  }

  lemma InsertKeeps(d: DB, t: Task, o: Oracle)
    requires DbInv(d) && Ok(d, t) && CanAct(d, t, o) && t.phase.Checking?
    ensures var e := Act(d, t, o);
      DbInv(e.db) && Guarantee(d, e.db, Holds(e.task)) && Ok(e.db, e.task)
  {
    hide DbInv, Guarantee, Sum, Posted, Rows, OpenRecharge;
    MinimumIsNatural(d);
    OpenedRow(d, o.id, t.user, t.amount);
    if t.amount >= d.cfg.minRecharge {
      OpenRechargeKeeps(d, o.id, t.user, t.amount);
    } else {
      NothingHappens(d, {});
    }
  }

  lemma ActKeeps(d: DB, t: Task, o: Oracle)
    requires DbInv(d) && Ok(d, t) && CanAct(d, t, o)
    ensures var e := Act(d, t, o);
      DbInv(e.db) && Guarantee(d, e.db, KeysOf(d, t, o)) && Ok(e.db, e.task)
  {
    hide DbInv, Guarantee, Credit, OpenRecharge, AttachCharge, FailRecharge;
    match t.phase {
      case Checking =>
        InsertKeeps(d, t, o);
        Widen(d, t, o, Holds(Act(d, t, o).task));
      case Charged(id, _, _) =>
        CreationKeeps(d, t, o);
        Widen(d, t, o, {FreshRecharge(id)});
      case Failing(id) =>
        CreationKeeps(d, t, o);
        Widen(d, t, o, {FreshRecharge(id)});
      case Losing(id) =>
        FailRechargeKeeps(d, id);
        Widen(d, t, o, {});
      case Found(id) =>
        CreditKeeps(d, id);
        Widen(d, t, o, {});
      case _ =>
        NothingHappens(d, KeysOf(d, t, o));
    }
  }

  /** The insert of a confirmation can never meet a duplicate. */
  lemma NoDuplicate(d: DB, id: Id)
    requires DbInv(d) && id in d.recharges && d.recharges[id].status == RechargePending
    ensures RechargePaid(id) !in Posted(d.ledger)
  {
    assert RechargeOk(d.ledger, id, d.recharges[id]);
  }
}

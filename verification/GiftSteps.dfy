/** Sending a gift, statement by statement (sendGift in src/billing/billing.service.ts). */
module GiftSteps {
  import opened Prelude
  import opened Tables
  import opened Ledger
  import opened Writes
  import opened Invariant
  import opened Steps
  import TakeRate
  import TaximeterSteps

  datatype Phase =
    | Waiting                          // asking for the client's lock
    | Locked                           // lock held, about to look up the gift type
    | Named(price: int)                // about to look up the model's user row
    | Checked(price: int)              // about to read the balance
    | Funded(price: int, balance: int)
    | Profiled(price: int, override: Option<real>)
    | Priced(price: int, rate: real)   // about to create the gift and post its entries
    | Finished

  datatype Task = Task(client: Id, model: Id, phase: Phase)

  datatype Effect = Effect(db: DB, task: Task)

  ghost function Holds(t: Task): set<Key> {
    if t.phase.Waiting? || t.phase.Finished? then {} else {ClientKey(t.client)}
  }

  /** Prices of gift types are not negative; the new gift's id is fresh. */
  ghost predicate CanAct(d: DB, t: Task, o: Oracle) {
    && !t.phase.Finished?
    && d.cfg.tiers != []
    && (t.phase.Locked? ==> o.amount >= 0)
    && (t.phase.Priced? ==> o.id !in d.gifts && GiftSent(o.id) !in Posted(d.ledger))
  }

  ghost function Act(d: DB, t: Task, o: Oracle): Effect
    requires CanAct(d, t, o)
  {
    match t.phase
    case Waiting => Effect(d, t.(phase := Locked))
    case Locked => Effect(d, t.(phase := if o.ok then Named(o.amount) else Finished))
    case Named(price) => Effect(d, t.(phase := if o.ok then Checked(price) else Finished))
    case Checked(price) => Effect(d, t.(phase := Funded(price, Balance(d.ledger, Client(t.client)))))
    case Funded(price, balance) =>
      var override := if t.model in d.profiles then d.profiles[t.model].takeRate else None;
      Effect(d, t.(phase := if balance < price then Finished else Profiled(price, override)))
    case Profiled(price, override) =>
      var rate := TakeRate.ResolveTakeRate(override, TierRate(d.cfg.tiers, GrossEarned(d.ledger, t.model)));
      Effect(d, t.(phase := Priced(price, rate)))
    case Priced(price, rate) =>
      Effect(PostGift(d, o.id, t.client, t.model, price, TakeRate.ComputeSplit(price, rate).commission),
             t.(phase := Finished))
    case Finished => Effect(d, t)
  }

  /** The worker's view: the price is not negative and, once the balance is read, it stays covered. */
  ghost predicate Ok(d: DB, t: Task) {
    match t.phase
    case Named(price) => price >= 0
    case Checked(price) => price >= 0
    case Funded(price, balance) => price >= 0 && balance <= Balance(d.ledger, Client(t.client))
    case Profiled(price, override) =>
      0 <= price <= Balance(d.ledger, Client(t.client)) && (override.Some? ==> TakeRate.IsRate(override.value))
    case Priced(price, rate) => 0 <= price <= Balance(d.ledger, Client(t.client)) && TakeRate.IsRate(rate)
    case _ => true
  }

  lemma Stable(d: DB, d': DB, keys: set<Key>, t: Task)
    requires Ok(d, t) && Guarantee(d, d', keys) && Holds(t) !! keys
    ensures Ok(d', t)
  {
    hide RechargesStep, PayoutsStep, CallsStep, MinutesStep, Sum;
  }

  lemma ActKeeps(d: DB, t: Task, o: Oracle)
    requires DbInv(d) && Ok(d, t) && CanAct(d, t, o)
    ensures var e := Act(d, t, o);
      DbInv(e.db) && Guarantee(d, e.db, Holds(t)) && Ok(e.db, e.task)
  {
    hide Guarantee, Posted, Sum, TakeRate.ComputeSplit, CallsInv, MinutesOk, RechargesOk, PayoutsOk, Solvent, NoOverdraft;
    match t.phase {
      case Priced(price, rate) =>
        hide DbInv;
        TakeRate.CommissionWithinPrice(price, rate);
        PostGiftKeeps(d, o.id, t.client, t.model, price, TakeRate.ComputeSplit(price, rate).commission);
      case Profiled(price, override) =>
        TaximeterSteps.RateInRange(d, override, t.model);
        NothingHappens(d, Holds(t));
      case _ =>
        NothingHappens(d, Holds(t));
    }
  }

  /** The group of a fresh gift is never taken: the transaction cannot meet a duplicate. */
  lemma NoDuplicate(d: DB, id: Id)
    requires DbInv(d) && id !in d.gifts
    ensures GiftSent(id) !in Posted(d.ledger)
  {
    NewGiftIsNew(d.ledger, d.gifts, id);
  }
}

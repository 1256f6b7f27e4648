/** Requesting and settling payouts, statement by statement
    (src/payout/payout.service.ts, src/payout/payout.processor.ts). */
module PayoutSteps {
  import opened Prelude
  import opened Tables
  import opened Ledger
  import opened Writes
  import opened Invariant
  import opened Steps
  import TaximeterSteps

  datatype Phase =
    // requestPayout
    | CheckingKyc
    | CheckingMinimum
    | Waiting                          // asking for the account's lock
    | Locked                           // about to read the balance
    | Funded(balance: int)
    // processPending (no cutoff) and recoverStuck (a cutoff)
    | Scan                             // about to list the payouts that can be claimed
    | Claiming                         // loop control and the claiming update
    | Sending(id: Id, stamp: int)      // claimed at `stamp`; about to call the provider
    | Marking(id: Id, stamp: int)      // the provider accepted; about to write PAID
    | Reversing(id: Id, stamp: int)    // the provider threw; about to reverse and write FAILED
    | Finished

  datatype Task = Task(model: Id, amount: int, cutoff: Option<int>, queue: seq<Id>, phase: Phase)

  datatype Effect = Effect(db: DB, task: Task)

  ghost function Holds(t: Task): set<Key> {
    if t.phase.Locked? || t.phase.Funded? then {AccountKey(t.model)} else {}
  }

  function ClaimableRows(payouts: map<Id, Payout>, cutoff: Option<int>): set<Id> {
    set id | id in payouts && Claimable(payouts[id], cutoff)
  }

  /** The payout a worker is settling, and when it claimed it. */
  predicate Settles(t: Task, id: Id) {
    match t.phase
    case Sending(p, _) => p == id
    case Marking(p, _) => p == id
    case Reversing(p, _) => p == id
    case _ => false
  }

  /** The reversal's insert fails when its group is posted already; then only an error can follow. */
  ghost predicate CanAct(d: DB, t: Task, o: Oracle) {
    && !t.phase.Finished?
    && (t.phase.Funded? ==> o.id !in d.payouts)
    && (t.phase.Scan? ==> TaximeterSteps.Lists(o.ids, ClaimableRows(d.payouts, t.cutoff)))
    && (t.phase.Marking? ==> t.phase.id in d.payouts)
    && (t.phase.Reversing? ==> t.phase.id in d.payouts && PayoutReversed(t.phase.id) !in Posted(d.ledger))
  }

  ghost function Act(d: DB, t: Task, o: Oracle): Effect
    requires CanAct(d, t, o)
  {
    match t.phase
    case CheckingKyc => Effect(d, t.(phase := if t.model in d.approved then CheckingMinimum else Finished))
    case CheckingMinimum => Effect(d, t.(phase := if t.amount < d.cfg.minPayout then Finished else Waiting))
    case Waiting => Effect(d, t.(phase := Locked))
    case Locked => Effect(d, t.(phase := Funded(Balance(d.ledger, Model(t.model)))))
    case Funded(balance) =>
      Effect(if balance < t.amount then d else OpenPayout(d, o.id, t.model, t.amount), t.(phase := Finished))
    case Scan => Effect(d, t.(queue := o.ids, phase := Claiming))
    case Claiming =>
      if t.queue == [] then Effect(d, t.(phase := Finished))
      else
        var id := t.queue[0];
        if id in d.payouts && Claimable(d.payouts[id], t.cutoff)
        then Effect(Claim(d, id), t.(queue := t.queue[1..], phase := Sending(id, d.now)))
        else Effect(d, t.(queue := t.queue[1..]))
    case Sending(id, stamp) =>
      Effect(if o.moved then MarkSent(d, id) else d,
             t.(phase := if o.ok then Marking(id, stamp) else Reversing(id, stamp)))
    case Marking(id, stamp) => Effect(MarkPaid(d, id), t.(phase := Claiming))
    case Reversing(id, stamp) => Effect(Reverse(d, id), t.(phase := Claiming))
    case Finished => Effect(d, t)
  }

  // ------------------------------------------------------- the worker's view

  ghost predicate Ok(d: DB, t: Task) {
    match t.phase
    case CheckingMinimum => t.model in d.approved
    case Waiting => t.model in d.approved && t.amount >= d.cfg.minPayout
    case Locked => t.model in d.approved && t.amount >= d.cfg.minPayout
    case Funded(balance) => t.model in d.approved && t.amount >= d.cfg.minPayout && balance <= Balance(d.ledger, Model(t.model))
    case Scan => t.cutoff.Some? ==> t.cutoff.value <= d.now - d.cfg.stuckMs
    case Claiming => t.cutoff.Some? ==> t.cutoff.value <= d.now - d.cfg.stuckMs
    case Sending(id, stamp) => id in d.payouts && stamp <= d.now && (t.cutoff.Some? ==> t.cutoff.value <= d.now - d.cfg.stuckMs)
    case Marking(id, stamp) => id in d.payouts && stamp <= d.now && (t.cutoff.Some? ==> t.cutoff.value <= d.now - d.cfg.stuckMs)
    case Reversing(id, stamp) => id in d.payouts && stamp <= d.now && (t.cutoff.Some? ==> t.cutoff.value <= d.now - d.cfg.stuckMs)
    case Finished => true
    case CheckingKyc => true
  }

  lemma Stable(d: DB, d': DB, keys: set<Key>, t: Task)
    requires Ok(d, t) && Guarantee(d, d', keys) && Holds(t) !! keys
    ensures Ok(d', t)
  {
    hide RechargesStep, CallsStep, MinutesStep, Sum;
  }

  predicate Settling(p: Phase) {
    p.Claiming? || p.Sending? || p.Marking? || p.Reversing?
  }

  lemma ClaimKeeps(d: DB, id: Id)
    requires DbInv(d) && id in d.payouts
    ensures DbInv(Claim(d, id)) && Guarantee(d, Claim(d, id), {})
  {
    hide DbInv, Guarantee;
    PayoutRowKeeps(d, id, Claim(d, id).payouts[id]);
  }

  lemma MarkPaidKeeps(d: DB, id: Id)
    requires DbInv(d) && id in d.payouts
    ensures DbInv(MarkPaid(d, id)) && Guarantee(d, MarkPaid(d, id), {})
  {
    hide DbInv, Guarantee;
    PayoutRowKeeps(d, id, MarkPaid(d, id).payouts[id]);
  }

  lemma MarkSentKeeps(d: DB, id: Id)
    requires DbInv(d)
    ensures DbInv(MarkSent(d, id)) && Guarantee(d, MarkSent(d, id), {})
  {
    assert ProfilesOk(d.profiles);
    hide DbInv, Guarantee, ProfilesOk;
    RestKeeps(d, d.now, d.profiles, d.approved, d.sent + {id});
  }

  lemma SettleWrites(d: DB, t: Task, o: Oracle)
    requires DbInv(d) && Ok(d, t) && CanAct(d, t, o) && Settling(t.phase)
    ensures DbInv(Act(d, t, o).db) && Guarantee(d, Act(d, t, o).db, {})
  {
    hide DbInv, Guarantee, Claim, MarkPaid, MarkSent, Reverse, Claimable;
    NothingHappens(d, {});
    match t.phase {
      case Claiming => if t.queue != [] && t.queue[0] in d.payouts { ClaimKeeps(d, t.queue[0]); }
      case Sending(id, _) => MarkSentKeeps(d, id);
      case Marking(id, _) => MarkPaidKeeps(d, id);
      case Reversing(id, _) => ReverseKeeps(d, id);
    }
  }

  lemma SettleView(d: DB, t: Task, o: Oracle)
    requires Ok(d, t) && CanAct(d, t, o) && Settling(t.phase)
    ensures Ok(Act(d, t, o).db, Act(d, t, o).task)
  {
    hide Claimable, Rows;
  }

  lemma MinimumIsNatural(d: DB)
    requires DbInv(d)
    ensures d.cfg.minPayout >= 0
  {
  }

  lemma RequestCommits(d: DB, t: Task, o: Oracle)
    requires DbInv(d) && Ok(d, t) && CanAct(d, t, o) && t.phase.Funded?
    ensures var e := Act(d, t, o);
      DbInv(e.db) && Guarantee(d, e.db, Holds(t)) && Ok(e.db, e.task)
  {
    hide DbInv, Guarantee, OpenPayout, Sum, Posted;
    MinimumIsNatural(d);
    if t.phase.balance >= t.amount {
      OpenPayoutKeeps(d, o.id, t.model, t.amount);
    } else {
      NothingHappens(d, Holds(t));
    }
  }

  lemma RequestReads(d: DB, t: Task, o: Oracle)
    requires ValidConfig(d.cfg) && Ok(d, t) && CanAct(d, t, o)
    requires t.phase.CheckingKyc? || t.phase.CheckingMinimum? || t.phase.Waiting? || t.phase.Locked? || t.phase.Scan?
    ensures Act(d, t, o).db == d && Ok(d, Act(d, t, o).task)
  {
    hide Sum;
  }

  lemma ActKeeps(d: DB, t: Task, o: Oracle)
    requires DbInv(d) && Ok(d, t) && CanAct(d, t, o)
    ensures var e := Act(d, t, o);
      DbInv(e.db) && Guarantee(d, e.db, Holds(t)) && Ok(e.db, e.task)
  {
    assert ValidConfig(d.cfg);
    hide DbInv, Guarantee, Act, Ok, CanAct, ValidConfig;
    if Settling(t.phase) {
      SettleWrites(d, t, o);
      SettleView(d, t, o);
      MoreKeys(d, Act(d, t, o).db, {}, Holds(t));
    } else if t.phase.Funded? {
      RequestCommits(d, t, o);
    } else {
      NothingHappens(d, Holds(t));
      NotFinished(d, t, o);
      RequestReads(d, t, o);
    }
  }

  lemma NotFinished(d: DB, t: Task, o: Oracle)
    requires CanAct(d, t, o)
    ensures !t.phase.Finished?
  {
  }
}

/** What each transaction writes when it commits, and what each single-statement update writes.
    The atomic services and the statement-step machine share these functions. */
module Writes {
  import opened Prelude
  import opened Tables
  import opened Ledger
  import Ranking
  import TakeRate

  // ------------------------------------------------------------------- rates

  /** The rate a charge applies: the model's own rate, else her tier's. */
  function RateOf(db: DB, model: Id): real
    requires db.cfg.tiers != []
  {
    var override := if model in db.profiles then db.profiles[model].takeRate else None;
    TakeRate.ResolveTakeRate(override, TierRate(db.cfg.tiers, GrossEarned(db.ledger, model)))
  }

  /** Earnings are kept in cents, thresholds in whole currency units. */
  function TierRate(tiers: seq<Ranking.TierRow>, earnedCents: int): real
    requires tiers != []
  {
    Ranking.RateFor(earnedCents as real / 100.0, tiers)
  }

  // ------------------------------------------------------------------- sales

  function MinuteLines(client: Id, model: Id, price: int, commission: int): seq<Line> {
    [Line(Client(client), ConsumoMin, -price),
     Line(Model(model), GanhoMin, price - commission),
     Line(Platform, Comissao, commission)]
  }

  function GiftLines(client: Id, model: Id, price: int, commission: int): seq<Line> {
    [Line(Client(client), Presente, -price),
     Line(Model(model), GanhoPresente, price - commission),
     Line(Platform, Comissao, commission)]
  }

  /** A minute is posted and the cursor moves on; the row read under the lock gives the lines. */
  function PostMinute(db: DB, call: Id, minute: nat, row: Call, commission: int): DB
    requires call in db.calls
  {
    var now := db.calls[call];
    db.(ledger := db.ledger + Rows(CallMinute(call, minute), MinuteLines(row.client, row.model, row.price, commission)),
        calls := db.calls[call := now.(billed := now.billed + 1)])
  }

  function PostGift(db: DB, gift: Id, client: Id, model: Id, price: int, commission: int): DB {
    db.(ledger := db.ledger + Rows(GiftSent(gift), GiftLines(client, model, price, commission)),
        gifts := db.gifts[gift := Gift(client, model, price)])
  }

  // ------------------------------------------------------------------- calls

  function OpenCall(db: DB, call: Id, client: Id, model: Id, price: int): DB {
    db.(calls := db.calls[call := Call(client, model, Requested, None, price, db.now, None, None, 0)])
  }

  /** The update in `accept` names the row by its id only: it does not look at the status. */
  function Activate(db: DB, call: Id): DB
    requires call in db.calls
  {
    var row := db.calls[call];
    db.(calls := db.calls[call := row.(status := Active, startedAt := Some(db.now))],
        reopened := if row.status == Requested then db.reopened else db.reopened + {call})
  }

  const NOT_ENDED: set<CallStatus> := {Requested, Active}

  /** A guarded update: it ends the call when its status is among the given ones, else nothing. */
  function Close(db: DB, call: Id, from: set<CallStatus>, reason: EndReason): DB {
    if call in db.calls && db.calls[call].status in from
    then db.(calls := db.calls[call :=
           db.calls[call].(status := Ended, endReason := Some(reason), endedAt := Some(db.now))])
    else db
  }

  // --------------------------------------------------------------- recharges

  function OpenRecharge(db: DB, recharge: Id, user: Id, amount: int): DB {
    db.(recharges := db.recharges[recharge := Recharge(user, amount, RechargePending, None, None)])
  }

  function AttachCharge(db: DB, recharge: Id, chargeId: string, expiresAt: int): DB
    requires recharge in db.recharges
  {
    db.(recharges := db.recharges[recharge :=
      db.recharges[recharge].(chargeId := Some(chargeId), expiresAt := Some(expiresAt))])
  }

  function FailRecharge(db: DB, recharge: Id): DB
    requires recharge in db.recharges
  {
    db.(recharges := db.recharges[recharge := db.recharges[recharge].(status := RechargeFailed)])
  }

  function RechargeLines(user: Id, amount: int): seq<Line> {
    [Line(Client(user), Recarga, amount), Line(External, RecargaOffset, -amount)]
  }

  /** PENDING becomes PAID and the stored amount is credited, in one transaction. */
  function Credit(db: DB, recharge: Id): DB
    requires recharge in db.recharges
  {
    var row := db.recharges[recharge];
    if row.status != RechargePending then db
    else db.(ledger := db.ledger + Rows(RechargePaid(recharge), RechargeLines(row.user, row.amount)),
             recharges := db.recharges[recharge := row.(status := RechargeCredited)])
  }

  predicate IsStale(r: Recharge, now: int) {
    r.status == RechargePending && r.expiresAt.Some? && r.expiresAt.value < now
  }

  function Expire(db: DB, recharge: Id): DB
    requires recharge in db.recharges
  {
    var row := db.recharges[recharge];
    if IsStale(row, db.now)
    then db.(recharges := db.recharges[recharge := row.(status := RechargeExpired)])
    else db
  }

  // ----------------------------------------------------------------- payouts

  function PayoutLines(model: Id, amount: int): seq<Line> {
    [Line(Model(model), Saque, -amount), Line(External, SaqueOffset, amount)]
  }

  function ReversalLines(model: Id, amount: int): seq<Line> {
    [Line(Model(model), SaqueEstorno, amount), Line(External, SaqueEstornoOffset, -amount)]
  }

  function OpenPayout(db: DB, payout: Id, model: Id, amount: int): DB {
    db.(ledger := db.ledger + Rows(PayoutAsked(payout), PayoutLines(model, amount)),
        payouts := db.payouts[payout := Payout(model, amount, PayoutPending, None)])
  }

  /** The row is PENDING, or PROCESSING with a claim stamp older than the cutoff (or none). */
  predicate Claimable(p: Payout, cutoff: Option<int>) {
    match cutoff
    case None => p.status == PayoutPending
    case Some(limit) => p.status == PayoutProcessing && (p.processingAt.Some? ==> p.processingAt.value < limit)
  }

  function Claim(db: DB, payout: Id): DB
    requires payout in db.payouts
  {
    db.(payouts := db.payouts[payout :=
      db.payouts[payout].(status := PayoutProcessing, processingAt := Some(db.now))])
  }

  function MarkSent(db: DB, payout: Id): DB {
    db.(sent := db.sent + {payout})
  }

  function MarkPaid(db: DB, payout: Id): DB
    requires payout in db.payouts
  {
    db.(payouts := db.payouts[payout := db.payouts[payout].(status := PayoutPaid)])
  }

  function Reverse(db: DB, payout: Id): DB
    requires payout in db.payouts
  {
    var row := db.payouts[payout];
    db.(ledger := db.ledger + Rows(PayoutReversed(payout), ReversalLines(row.model, row.amount)),
        payouts := db.payouts[payout := row.(status := PayoutFailed)])
  }
}

/** The rows of the database that move money (prisma/schema.prisma), and the configuration. */
module Tables {
  import opened Prelude
  import Ranking
  import TakeRate

  // ------------------------------------------------------------------ ledger

  datatype Account = Client(user: Id) | Model(user: Id) | Platform | External

  /** The transaction group of a batch of entries: one constructor per caller of the ledger. */
  datatype Group =
    | CallMinute(call: Id, minute: nat)
    | GiftSent(gift: Id)
    | RechargePaid(recharge: Id)
    | PayoutAsked(payout: Id)
    | PayoutReversed(payout: Id)

  datatype EntryType =
    | ConsumoMin | GanhoMin | Comissao | Presente | GanhoPresente
    | Recarga | RecargaOffset | Saque | SaqueOffset | SaqueEstorno | SaqueEstornoOffset

  /** What a caller hands to the ledger; amounts are whole cents. */
  datatype Line = Line(account: Account, entryType: EntryType, amount: int)

  /** A stored row: a line, its group and its position in the batch. */
  datatype Entry = Entry(account: Account, entryType: EntryType, amount: int, group: Group, index: nat)

  // ------------------------------------------------------------------- calls

  datatype CallStatus = Requested | Active | Ended

  datatype EndReason =
    | NoCredits | Timeout | Rejected | HangupClient | HangupModel | Panic | OtherReason(text: string)

  datatype Call = Call(
    client: Id, model: Id, status: CallStatus, endReason: Option<EndReason>,
    price: int, requestedAt: int, startedAt: Option<int>, endedAt: Option<int>, billed: nat)

  /** Milliseconds after which a ringing call can no longer be accepted. */
  const RING_TIMEOUT_MS: int := 30 * 1000

  predicate IsExpired(now: int, requestedAt: int) {
    now - requestedAt > RING_TIMEOUT_MS
  }

  /** The number of the minute that is running at `now`; division rounds down, as Math.floor. */
  function DueMinute(now: int, startedAt: int): int {
    (now - startedAt) / 60000 + 1
  }

  // ------------------------------------------------- gifts, recharges, payouts

  datatype Gift = Gift(client: Id, model: Id, price: int)

  datatype RechargeStatus = RechargePending | RechargeCredited | RechargeExpired | RechargeFailed

  datatype Recharge = Recharge(
    user: Id, amount: int, status: RechargeStatus, chargeId: Option<string>, expiresAt: Option<int>)

  datatype PayoutStatus = PayoutPending | PayoutProcessing | PayoutPaid | PayoutFailed

  /** The account of a payout is always a model account: the controller builds it from the user. */
  datatype Payout = Payout(model: Id, amount: int, status: PayoutStatus, processingAt: Option<int>)

  datatype Profile = Profile(price: int, takeRate: Option<real>)

  // ---------------------------------------------------------------- database

  datatype Config = Config(tiers: seq<Ranking.TierRow>, minRecharge: int, minPayout: int, stuckMs: int)

  /** `now` is the clock; `sent` holds the payouts for which the payment provider moved money.
      `reopened` is a history of this model only: the calls that `accept` set ACTIVE although
      their row was no longer REQUESTED at that moment. */
  datatype DB = DB(
    cfg: Config, now: int,
    ledger: seq<Entry>,
    calls: map<Id, Call>,
    gifts: map<Id, Gift>,
    recharges: map<Id, Recharge>,
    payouts: map<Id, Payout>,
    profiles: map<Id, Profile>,
    approved: set<Id>,
    sent: set<Id>,
    reopened: set<Id>)

  /** Ranges the code relies on without checking them. */
  ghost predicate ValidConfig(cfg: Config) {
    && cfg.tiers != [] && (forall i :: 0 <= i < |cfg.tiers| ==> TakeRate.IsRate(cfg.tiers[i].rate))
    && cfg.minRecharge >= 0 && cfg.minPayout >= 0 && cfg.stuckMs > 0
  }

  ghost predicate ValidProfile(p: Profile) {
    p.price >= 0 && (p.takeRate.Some? ==> TakeRate.IsRate(p.takeRate.value))
  }

  ghost predicate EmptyDB(db: DB) {
    && db.ledger == [] && db.calls == map[] && db.gifts == map[] && db.recharges == map[]
    && db.payouts == map[] && db.profiles == map[]
    && db.approved == {} && db.sent == {} && db.reopened == {}
  }
}

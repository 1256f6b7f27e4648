/** The services at transaction granularity: each call of a service method is one step. */
module Atomic {
  import opened Prelude
  import opened Tables
  import opened Ledger
  import opened Writes
  import opened Invariant
  import TakeRate
  import TM = TaximeterSteps

  datatype ChargeResult = NotFound | AlreadyCharged | NotActive | OutOfCredits | Charged

  function CommissionOf(d: DB, model: Id, price: int): int
    requires d.cfg.tiers != []
  {
    TakeRate.ComputeSplit(price, RateOf(d, model)).commission
  }

  /** One call of chargeMinute. */
  ghost function ChargeMinute(d: DB, call: Id, minute: nat): (DB, ChargeResult)
    requires d.cfg.tiers != []
  {
    if call !in d.calls then (d, NotFound)
    else if CallMinute(call, minute) in Posted(d.ledger) then (d, AlreadyCharged)
    else
      var row := d.calls[call];
      if row.status != Active then (d, NotActive)
      else if Balance(d.ledger, Client(row.client)) < row.price then (Close(d, call, {Active}, NoCredits), OutOfCredits)
      else (PostMinute(d, call, minute, row, CommissionOf(d, row.model, row.price)), Charged)
  }

  datatype AcceptResult = NoSuchCall | NotYours | Expired | NotPending | CannotPayFirstMinute | Accepted

  /** What `accept` answers. The test for another active call of the client does not appear:
      when transactions do not interleave it never succeeds. */
  ghost function AcceptOutcome(d: DB, call: Id, model: Id): AcceptResult {
    if call !in d.calls then NoSuchCall
    else
      var c := d.calls[call];
      if c.model != model then NotYours
      else if c.status != Requested then NotPending
      else if IsExpired(d.now, c.requestedAt) then Expired
      else if Balance(d.ledger, Client(c.client)) < c.price then CannotPayFirstMinute
      else Accepted
  }

  /** The minute may be charged: it is the next one and it has begun. */
  ghost predicate IsDue(d: DB, call: Id, minute: nat) {
    call in d.calls && d.calls[call].status == Active ==>
      && 1 <= minute <= d.calls[call].billed + 1
      && (d.calls[call].startedAt.Some? ==> minute <= DueMinute(d.now, d.calls[call].startedAt.value))
  }

  lemma CommissionInRange(d: DB, model: Id, price: int)
    requires ValidConfig(d.cfg) && ProfilesOk(d.profiles) && price >= 0
    ensures 0 <= CommissionOf(d, model, price) <= price
  {
    var override := if model in d.profiles then d.profiles[model].takeRate else None;
    if model in d.profiles { assert ValidProfile(d.profiles[model]); }
    TM.RateInRange(d, override, model);
    TakeRate.CommissionWithinPrice(price, RateOf(d, model));
  }

  lemma ChargeKeeps(d: DB, call: Id, minute: nat)
    requires DbInv(d) && IsDue(d, call, minute)
    ensures DbInv(ChargeMinute(d, call, minute).0)
  {
    if call in d.calls && CallMinute(call, minute) !in Posted(d.ledger) && d.calls[call].status == Active {
      var row := d.calls[call];
      assert CallOk(row, d.now, call in d.reopened);
      assert ValidConfig(d.cfg) && ProfilesOk(d.profiles);
      TM.PostedIsBilled(d, call, minute);
      hide DbInv, Guarantee, ValidConfig, ProfilesOk, CommissionOf, Posted, Sum;
      if Balance(d.ledger, Client(row.client)) < row.price {
        CloseKeeps(d, call, {Active}, NoCredits);
      } else {
        CommissionInRange(d, row.model, row.price);
        PostMinuteKeeps(d, call, minute, row, CommissionOf(d, row.model, row.price));
      }
    }
  }

  // ------------------------------------------------------------ the catch-up

  /** The inner loop of the taximeter for one call, without interruption. */
  ghost function CatchUp(d: DB, call: Id, n: nat, last: int): (d': DB)
    requires d.cfg.tiers != []
    ensures d'.cfg == d.cfg && d'.now == d.now
    decreases last - n
  {
    if n > last then d
    else
      var (d', r) := ChargeMinute(d, call, n);
      if r.OutOfCredits? then d' else CatchUp(d', call, n + 1, last)
  }

  /** One round of the taximeter: its time, and the charges that throw while it lasts. */
  datatype Round = Round(at: int, broken: set<(Id, int)>)

  /** The last of the minutes n..last before the first one whose charge throws; the loop logs the
      error and goes on with the next call. */
  function Until(broken: set<(Id, int)>, call: Id, n: int, last: int): int
    decreases last - n
  {
    if n > last then last else if (call, n) in broken then n - 1 else Until(broken, call, n + 1, last)
  }

  /** The outer loop: every listed call of the snapshot, in the listed order. */
  ghost function RunDue(d: DB, snapshot: map<Id, Call>, ids: seq<Id>, round: Round): (d': DB)
    requires d.cfg.tiers != []
    ensures d'.cfg == d.cfg && d'.now == d.now
    requires forall i :: 0 <= i < |ids| ==> ids[i] in snapshot
    decreases |ids|
  {
    if ids == [] then d
    else
      var row := snapshot[ids[0]];
      var d' := if row.startedAt.None? then d
        else CatchUp(d, ids[0], row.billed + 1, Until(round.broken, ids[0], row.billed + 1, DueMinute(round.at, row.startedAt.value)));
      RunDue(d', snapshot, ids[1..], round)
  }
}

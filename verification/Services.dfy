/** The services as they run: methods that update the tables in place, one transaction at a time.
    Identifiers, answers of providers and facts about users are parameters. */
module Services {
  import opened Prelude
  import opened Tables
  import opened Ledger
  import opened Writes
  import opened Invariant
  import opened Atomic
  import Ranking
  import TakeRate
  import AtomicRuns
  import CatchUps
  import Lease
  import CS = CallSteps
  import PS = PayoutSteps
  import RS = RechargeSteps
  import Settlement
  import TM = TaximeterSteps

  datatype GiftResult = GiftNotFound | ModelNotFound | NoFunds | GiftStored
  datatype StartResult = ClientBusy | ModelUnavailable | ModelBusy | ModelOffline | CannotPay | Ringing
  datatype EndResult = UnknownCall | Forbidden | Conflict | Done
  datatype PayoutResult = KycMissing | BelowMinimum | InsufficientBalance | PayoutOpened
  /** The update that stores a charge: committed, refused, or committed with an error reported. */
  datatype Update = Stored | Refused | StoredWithError
  datatype CreateResult = TooSmall | ProviderDown | Created
  datatype ConfirmResult = Unknown | Already | AmountMismatch | Credited

  class Database {
    const cfg: Config
    var now: int
    var ledger: seq<Entry>
    var calls: map<Id, Call>
    var gifts: map<Id, Gift>
    var recharges: map<Id, Recharge>
    var payouts: map<Id, Payout>
    var profiles: map<Id, Profile>
    var approved: set<Id>
    var sent: set<Id>

    constructor (cfg: Config, now: int)
      requires ValidConfig(cfg)
      ensures this.cfg == cfg && this.now == now
      ensures EmptyDB(View()) && DbInv(View()) && AtomicRuns.Reachable(View())
    {
      this.cfg := cfg;
      this.now := now;
      ledger, calls, gifts, recharges, payouts, profiles := [], map[], map[], map[], map[], map[];
      approved, sent := {}, {};
      new;
      EmptyDatabaseOk(View());
      AtomicRuns.Stay(View());
    }

    /** All tables as one value. No call is ever reopened when transactions do not interleave. */
    ghost function View(): DB
      reads this
    {
      DB(cfg, now, ledger, calls, gifts, recharges, payouts, profiles, approved, sent, {})
    }

    // ------------------------------------------------------------------ ledger

    /** Whether some row carries the group. */
    method FindGroup(g: Group) returns (found: bool)
      ensures found <==> g in Posted(ledger)
    {
      found := false;
      for i := 0 to |ledger|
        invariant found <==> exists j :: 0 <= j < i && ledger[j].group == g
      {
        if ledger[i].group == g { found := true; }
      }
    }

    /** Inserting a batch inside the caller's transaction; any refusal aborts that transaction. */
    method PostTransaction(g: Group, lines: seq<Line>) returns (posted: bool)
      requires UniqueRefs(ledger)
      modifies this`ledger
      ensures posted <==> Total(lines) == 0 && (lines == [] || g !in old(Posted(ledger)))
      ensures ledger == if posted then old(ledger) + Rows(g, lines) else old(ledger)
    {
      if lines != [] { CollidesIffPosted(ledger, g, lines); }
      match Post(ledger, g, lines) {
        case Appended(l) => ledger := l; posted := true;
        case _ => posted := false;
      }
    }

    method RateFor(model: Id) returns (rate: real)
      requires cfg.tiers != []
      ensures rate == RateOf(View(), model)
      ensures rate == if model in profiles && profiles[model].takeRate.Some? then profiles[model].takeRate.value
                      else TierRate(cfg.tiers, GrossEarned(ledger, model))
    {
      var override := if model in profiles then profiles[model].takeRate else None;
      var info := Ranking.TierForEarnings(GrossEarned(ledger, model) as real / 100.0, cfg.tiers);
      rate := TakeRate.ResolveTakeRate(override, info.rate);
    }

    // ----------------------------------------------------------------- billing

    /** The paying half of chargeMinute: the split at the current rate, the rows, the cursor. */
    method PayMinute(call: Id, minute: nat)
      requires UniqueRefs(ledger) && cfg.tiers != []
      requires call in calls && CallMinute(call, minute) !in Posted(ledger)
      modifies this`ledger, this`calls
      ensures var row := old(calls)[call];
        View() == PostMinute(old(View()), call, minute, row, CommissionOf(old(View()), row.model, row.price))
    {
      hide UniqueRefs, Sum, TakeRate.ComputeSplit, Rows, Posted, Total;
      var row := calls[call];
      var rate := RateFor(row.model);
      var split := TakeRate.ComputeSplit(row.price, rate);
      MinuteLinesBalance(row, split.commission);
      var posted := PostTransaction(CallMinute(call, minute), MinuteLines(row.client, row.model, row.price, split.commission));
      calls := calls[call := row.(billed := row.billed + 1)];
    }

    /** chargeMinute: exactly the atomic charge. */
    method ChargeMinute(call: Id, minute: nat) returns (r: ChargeResult)
      requires DbInv(View())
      modifies this`ledger, this`calls
      ensures cfg.tiers != []
      ensures (View(), r) == Atomic.ChargeMinute(old(View()), call, minute)
      ensures r == if call !in old(calls) then NotFound
                   else if exists e :: e in old(ledger) && e.group == CallMinute(call, minute) then AlreadyCharged
                   else if old(calls)[call].status != Active then NotActive
                   else if Balance(old(ledger), Client(old(calls)[call].client)) < old(calls)[call].price then OutOfCredits
                   else Charged
      ensures r == OutOfCredits ==> ledger == old(ledger)
      ensures r == OutOfCredits ==>
        calls == old(calls)[call := old(calls)[call].(status := Ended, endReason := Some(NoCredits), endedAt := Some(now))]
      ensures r == Charged ==>
        var row, gain := old(calls)[call], Balance(ledger, Platform) - Balance(old(ledger), Platform);
        && calls == old(calls)[call := row.(billed := row.billed + 1)]
        && ledger == old(ledger) + [
             Entry(Client(row.client), ConsumoMin, -row.price, CallMinute(call, minute), 0),
             Entry(Model(row.model), GanhoMin, row.price - gain, CallMinute(call, minute), 1),
             Entry(Platform, Comissao, gain, CallMinute(call, minute), 2)]
      ensures r == Charged ==>
        var row, gain := old(calls)[call], Balance(ledger, Platform) - Balance(old(ledger), Platform);
        var rate := if row.model in profiles && profiles[row.model].takeRate.Some? then profiles[row.model].takeRate.value
                    else TierRate(cfg.tiers, GrossEarned(old(ledger), row.model));
        gain as real - 0.5 <= row.price as real * rate < gain as real + 0.5
      ensures r != OutOfCredits && r != Charged ==> View() == old(View())
    {
      hide DbInv, ValidConfig, UniqueRefs, Sum, CommissionOf, PostMinute, Rows, MinuteLines, TierRate, ProfilesOk;
      ghost var before := View();
      LedgerIsSound(before);
      if call !in calls { return NotFound; }
      var existing := FindGroup(CallMinute(call, minute));
      if existing { return AlreadyCharged; }
      var row := calls[call];
      if row.status != Active { return NotActive; }
      if Balance(ledger, Client(row.client)) < row.price {
        calls := calls[call := row.(status := Ended, endReason := Some(NoCredits), endedAt := Some(now))];
        return OutOfCredits;
      }
      PriceIsNatural(before, call);
      PayMinute(call, minute);
      CommissionInWords(before, row.model, row.price);
      MinuteInWords(before.ledger, call, minute, row, CommissionOf(before, row.model, row.price));
      WrittenMinute(before, View(), call, minute, row, CommissionOf(before, row.model, row.price));
      r := Charged;
    }

    /** The ids of the ACTIVE calls, in some order. */
    method FindActive() returns (ids: seq<Id>)
      ensures TM.Lists(ids, TM.ActiveCalls(calls))
      ensures forall id :: id in ids <==> id in calls && calls[id].status == Active
    {
      ids := Listed(TM.ActiveCalls(calls));
    }

    /** runDueCharges without interruption: it is the folded catch-up over the listed calls. */
    method RunDueCharges(round: Round) returns (ids: seq<Id>)
      requires DbInv(View()) && round.at <= now
      modifies this`ledger, this`calls
      ensures DbInv(View()) && cfg.tiers != []
      ensures AtomicRuns.Leads(old(View()), View())
      ensures TM.Lists(ids, TM.ActiveCalls(old(calls)))
      ensures View() == RunDue(old(View()), old(calls), ids, round)
      ensures forall id :: id in ids <==> id in old(calls) && old(calls)[id].status == Active
      ensures calls.Keys == old(calls).Keys && forall id :: id in calls && id !in ids ==> calls[id] == old(calls)[id]
      ensures forall id :: id in ids ==>
        CatchUps.ChargedFor(id, old(calls)[id], calls[id], Balance(old(ledger), Client(old(calls)[id].client)),
          Balance(ledger, Client(old(calls)[id].client)), round, now)
    {
      assert cfg.tiers != [];
      ids := FindActive();
      var snapshot := calls;
      ghost var start := View();
      CatchUps.RunStarts(start, ids, round);
      AtomicRuns.Stay(start);
      hide DbInv, TM.Lists, RunDue, CatchUps.ListedUpTo, AtomicRuns.Leads;
      for i := 0 to |ids|
        invariant DbInv(View()) && CatchUps.ListedUpTo(start, ids, round, i, View())
        invariant AtomicRuns.Leads(start, View())
      {
        ghost var before := View();
        ChargeListed(start, snapshot, ids, i, round);
        AtomicRuns.Chain(start, before, View());
      }
      CatchUps.RunEnds(start, ids, round, View());
      RoundInWords(start, ids, round);
    }

    /** One pass of the outer loop: the next call of the list, from its row in the snapshot. */
    method ChargeListed(ghost start: DB, snapshot: map<Id, Call>, ids: seq<Id>, i: nat, round: Round)
      requires DbInv(View()) && cfg.tiers != [] && start.cfg == cfg && round.at <= now
      requires snapshot == start.calls && i < |ids|
      requires CatchUps.ListedUpTo(start, ids, round, i, View())
      modifies this`ledger, this`calls
      ensures AtomicRuns.Leads(old(View()), View())
      ensures DbInv(View()) && CatchUps.ListedUpTo(start, ids, round, i + 1, View())
    {
      hide DbInv, CatchUps.ListedUpTo, CatchUp, CatchUps.OnTrack, DueMinute, RunDue, Sum, Posted, CommissionOf, Until, AtomicRuns.Leads;
      ghost var before := View();
      AtomicRuns.Stay(before);
      CatchUps.NextInList(start, ids, i, round, before);
      var row := snapshot[ids[i]];
      if row.startedAt.None? {
        CatchUps.OneMoreCharged(start, ids, i, round, before, View());
        return;
      }
      CatchUpCall(ids[i], row.billed + 1, DueMinute(round.at, row.startedAt.value), round.broken);
      CatchUps.OneMoreCharged(start, ids, i, round, before, View());
    }

    /** The inner loop: minute after minute until the last due one, until money runs out, or until
        a charge throws. */
    method CatchUpCall(id: Id, first: nat, last: int, broken: set<(Id, int)>)
      requires DbInv(View()) && cfg.tiers != [] && CatchUps.OnTrack(View(), id, first, last)
      modifies this`ledger, this`calls
      ensures DbInv(View())
      ensures AtomicRuns.Leads(old(View()), View())
      ensures View() == CatchUp(old(View()), id, first, Until(broken, id, first, last))
      ensures forall other :: other in old(calls) && other != id ==> other in calls && calls[other] == old(calls)[other]
    {
      hide DbInv, Atomic.ChargeMinute, CatchUps.OnTrack, AtomicRuns.Leads, IsDue;
      var n := first;
      ghost var start := View();
      AtomicRuns.Stay(start);
      ghost var stop := Until(broken, id, first, last);
      while n <= last
        invariant DbInv(View()) && CatchUps.OnTrack(View(), id, n, last)
        invariant Until(broken, id, n, last) == stop
        invariant AtomicRuns.Leads(start, View())
        invariant CatchUp(View(), id, n, stop) == CatchUp(old(View()), id, first, stop)
        invariant forall other :: other in old(calls) && other != id ==> other in calls && calls[other] == old(calls)[other]
        decreases last - n
      {
        if (id, n) in broken { return; }
        CatchUps.UntilBounds(broken, id, n + 1, last);
        ghost var before := View();
        CatchUps.StaysOnTrack(before, id, n, last);
        CatchUps.NextIsDue(before, id, n, last);
        AtomicRuns.One(before, AtomicRuns.Charge(id, n));
        var r := ChargeMinute(id, n);
        AtomicRuns.Chain(start, before, View());
        if r == OutOfCredits { return; }
        n := n + 1;
      }
    }

    /** sendGift, at the price of an active gift type (none: unknown or inactive). */
    method SendGift(client: Id, model: Id, giftType: Option<int>, isModel: bool, id: Id) returns (r: GiftResult)
      requires DbInv(View()) && id !in gifts && (giftType.Some? ==> giftType.value >= 0)
      modifies this`ledger, this`gifts
      ensures DbInv(View()) && cfg.tiers != []
      ensures AtomicRuns.Leads(old(View()), View())
      ensures r == if giftType.None? then GiftNotFound
                   else if !isModel then ModelNotFound
                   else if Balance(old(ledger), Client(client)) < giftType.value then NoFunds
                   else GiftStored
      ensures r != GiftStored ==> View() == old(View())
      ensures r == GiftStored ==>
        View() == PostGift(old(View()), id, client, model, giftType.value, CommissionOf(old(View()), model, giftType.value))
      ensures r == GiftStored ==> Balance(ledger, Client(client)) == Balance(old(ledger), Client(client)) - giftType.value
      ensures r == GiftStored ==>
        var price, gain := giftType.value, Balance(ledger, Platform) - Balance(old(ledger), Platform);
        && gifts == old(gifts)[id := Gift(client, model, price)]
        && ledger == old(ledger) + [
             Entry(Client(client), Presente, -price, GiftSent(id), 0),
             Entry(Model(model), GanhoPresente, price - gain, GiftSent(id), 1),
             Entry(Platform, Comissao, gain, GiftSent(id), 2)]
      ensures r == GiftStored ==>
        var price, gain := giftType.value, Balance(ledger, Platform) - Balance(old(ledger), Platform);
        var rate := if model in profiles && profiles[model].takeRate.Some? then profiles[model].takeRate.value
                    else TierRate(cfg.tiers, GrossEarned(old(ledger), model));
        gain as real - 0.5 <= price as real * rate < gain as real + 0.5
    {
      hide DbInv, UniqueRefs, ProfilesOk, Posted, GiftLines, Guarantee, TakeRate.ComputeSplit, PostGift, Total, Sum, Rows, AtomicRuns.Leads;
      ghost var before := View();
      AtomicRuns.Stay(before);
      NewGift(before, id);
      if giftType.None? { return GiftNotFound; }
      if !isModel { return ModelNotFound; }
      var price := giftType.value;
      if Balance(ledger, Client(client)) < price { return NoFunds; }
      var rate := RateFor(model);
      var split := TakeRate.ComputeSplit(price, rate);
      CommissionInRange(before, model, price);
      PostGiftKeeps(before, id, client, model, price, split.commission);
      AtomicRuns.One(before, AtomicRuns.SendGift(id, client, model, price));
      GiftCost(before, id, client, model, price, split.commission);
      CommissionInWords(before, model, price);
      GiftInWords(before.ledger, id, client, model, price, split.commission);
      var posted := PostTransaction(GiftSent(id), GiftLines(client, model, price, split.commission));
      gifts := gifts[id := Gift(client, model, price)];
      assert View() == PostGift(before, id, client, model, price, split.commission) by { GiftWritten(before, View(), id, client, model, price, split.commission); }
      r := GiftStored;
    }

    // ------------------------------------------------------------------- calls

    /** initiate: the call rings exactly when client and model are free and the client can pay. */
    method Initiate(client: Id, model: Id, available: bool, online: bool, id: Id) returns (r: StartResult)
      requires DbInv(View()) && id !in calls
      modifies this`calls
      ensures DbInv(View())
      ensures AtomicRuns.Leads(old(View()), View())
      ensures r == if CS.OpenOfClient(old(View()), client) then ClientBusy
                   else if !available || model !in profiles then ModelUnavailable
                   else if CS.OpenOfModel(old(View()), model) then ModelBusy
                   else if !online then ModelOffline
                   else if Balance(ledger, Client(client)) < profiles[model].price then CannotPay
                   else Ringing
      ensures View() == if r == Ringing then OpenCall(old(View()), id, client, model, profiles[model].price) else old(View())
      ensures calls == if r == Ringing
        then old(calls)[id := Call(client, model, Requested, None, profiles[model].price, now, None, None, 0)] else old(calls)
    {
      hide DbInv, Guarantee, Sum, AtomicRuns.Leads;
      ghost var before := View();
      AtomicRuns.Stay(before);
      if exists c :: c in calls && calls[c].status != Ended && calls[c].client == client { return ClientBusy; }
      if !available || model !in profiles { return ModelUnavailable; }
      if exists c :: c in calls && calls[c].status != Ended && calls[c].model == model { return ModelBusy; }
      if !online { return ModelOffline; }
      var price := profiles[model].price;
      if Balance(ledger, Client(client)) < price { return CannotPay; }
      CS.NoneOpen(before, client);
      PriceOfProfile(before, model);
      AtomicRuns.One(before, AtomicRuns.Start(id, client, model));
      OpenCallKeeps(before, id, client, model, price);
      calls := calls[id := Call(client, model, Requested, None, price, now, None, None, 0)];
      r := Ringing;
    }

    /** The transaction of accept up to its decision; it cannot meet another active call. */
    method DecideAccept(call: Id, model: Id) returns (r: AcceptResult)
      requires DbInv(View())
      ensures r == AcceptOutcome(View(), call, model)
      ensures r == NoSuchCall <==> call !in calls
      ensures call in calls ==>
        var c := calls[call];
        && (r == NotYours <==> c.model != model)
        && (r == Expired <==> c.model == model && c.status == Requested && now - c.requestedAt > 30000)
        && (r == NotPending <==> c.model == model && c.status != Requested)
        && (r == CannotPayFirstMinute <==>
              c.model == model && c.status == Requested && now - c.requestedAt <= 30000 && Balance(ledger, Client(c.client)) < c.price)
        && (r == Accepted <==>
              c.model == model && c.status == Requested && now - c.requestedAt <= 30000 && Balance(ledger, Client(c.client)) >= c.price)
    {
      ghost var d := View();
      if call !in calls { return NoSuchCall; }
      var c := calls[call];
      if c.model != model { return NotYours; }
      if c.status == Requested && IsExpired(now, c.requestedAt) { return Expired; }
      if c.status != Requested { return NotPending; }
      NobodyElseActive(d, call);
      hide DbInv, Sum;
      if exists o :: o in calls && calls[o].client == c.client && calls[o].status == Active && o != call { return NotPending; }
      r := if Balance(ledger, Client(c.client)) < c.price then CannotPayFirstMinute else Accepted;
    }

    /** accept, with the writes it makes after its transaction: the call starts, or ends when it
        rang too long or its first minute is not covered, or nothing changes. */
    method Accept(call: Id, model: Id) returns (r: AcceptResult)
      requires DbInv(View())
      modifies this`calls
      ensures DbInv(View())
      ensures AtomicRuns.Leads(old(View()), View())
      ensures r == AcceptOutcome(old(View()), call, model)
      ensures r == NoSuchCall <==> call !in old(calls)
      ensures call in old(calls) ==>
        var c := old(calls)[call];
        && (r == NotYours <==> c.model != model)
        && (r == Expired <==> c.model == model && c.status == Requested && now - c.requestedAt > 30000)
        && (r == NotPending <==> c.model == model && c.status != Requested)
        && (r == CannotPayFirstMinute <==>
              c.model == model && c.status == Requested && now - c.requestedAt <= 30000 && Balance(ledger, Client(c.client)) < c.price)
        && (r == Accepted <==>
              c.model == model && c.status == Requested && now - c.requestedAt <= 30000 && Balance(ledger, Client(c.client)) >= c.price)
      ensures View() == match r {
          case Accepted => Activate(old(View()), call)
          case Expired => Close(old(View()), call, {Requested}, Timeout)
          case CannotPayFirstMinute => Close(old(View()), call, {Requested}, NoCredits)
          case _ => old(View())
        }
      ensures calls == match r {
          case Accepted => old(calls)[call := old(calls)[call].(status := Active, startedAt := Some(now))]
          case Expired =>
            old(calls)[call := old(calls)[call].(status := Ended, endReason := Some(Timeout), endedAt := Some(now))]
          case CannotPayFirstMinute =>
            old(calls)[call := old(calls)[call].(status := Ended, endReason := Some(NoCredits), endedAt := Some(now))]
          case _ => old(calls)
        }
    {
      hide DbInv, Guarantee, Sum, IsExpired, AtomicRuns.Leads;
      r := DecideAccept(call, model);
      ghost var before := View();
      AtomicRuns.Stay(before);
      match r {
        case Accepted =>
          RingingAlone(before, call);
          ActivateKeeps(before, call);
          AtomicRuns.One(before, AtomicRuns.Accept(call, model));
          calls := calls[call := calls[call].(status := Active, startedAt := Some(now))];
        case Expired =>
          CloseKeeps(before, call, {Requested}, Timeout);
          AtomicRuns.One(before, AtomicRuns.EndCall(call, {Requested}, Timeout));
          calls := calls[call := calls[call].(status := Ended, endReason := Some(Timeout), endedAt := Some(now))];
        case CannotPayFirstMinute =>
          CloseKeeps(before, call, {Requested}, NoCredits);
          AtomicRuns.One(before, AtomicRuns.EndCall(call, {Requested}, NoCredits));
          calls := calls[call := calls[call].(status := Ended, endReason := Some(NoCredits), endedAt := Some(now))];
        case _ =>
      }
    }

    /** The guarded updates of reject, hangup, panic, endCall and the lazy ring timeout: an open
        call in one of the given states ends with the reason, and a call that is over is left alone. */
    method End(call: Id, from: set<CallStatus>, reason: EndReason) returns (ended: bool)
      requires DbInv(View()) && from <= NOT_ENDED
      requires reason == Timeout ==> call in calls && IsExpired(now, calls[call].requestedAt)
      requires reason == Timeout || reason == Rejected ==> from == {Requested}
      modifies this`calls
      ensures DbInv(View())
      ensures AtomicRuns.Leads(old(View()), View())
      ensures ended <==> call in old(calls) && old(calls)[call].status in from
      ensures View() == Close(old(View()), call, from, reason)
      ensures calls == if ended
        then old(calls)[call := old(calls)[call].(status := Ended, endReason := Some(reason), endedAt := Some(now))] else old(calls)
    {
      hide DbInv, Guarantee, AtomicRuns.Leads;
      CloseKeeps(View(), call, from, reason);
      AtomicRuns.One(View(), AtomicRuns.EndCall(call, from, reason));
      ended := call in calls && calls[call].status in from;
      if ended {
        calls := calls[call := calls[call].(status := Ended, endReason := Some(reason), endedAt := Some(now))];
      }
    }

    /** reject: the model's own ringing call ends as REJECTED; any other state is a conflict. */
    method Reject(call: Id, model: Id) returns (r: EndResult)
      requires DbInv(View())
      modifies this`calls
      ensures DbInv(View())
      ensures AtomicRuns.Leads(old(View()), View())
      ensures r == if call !in old(calls) then UnknownCall
                   else if old(calls)[call].model != model then Forbidden
                   else if old(calls)[call].status != Requested then Conflict
                   else Done
      ensures View() == if r == Done then Close(old(View()), call, {Requested}, Rejected) else old(View())
      ensures calls == if r == Done
        then old(calls)[call := old(calls)[call].(status := Ended, endReason := Some(Rejected), endedAt := Some(now))] else old(calls)
    {
      hide DbInv, AtomicRuns.Leads;
      AtomicRuns.Stay(View());
      if call !in calls { return UnknownCall; }
      if calls[call].model != model { return Forbidden; }
      var ended := End(call, {Requested}, Rejected);
      r := if ended then Done else Conflict;
    }

    /** hangup: either participant ends an open call, and the reason names who did; a call that is
        over is returned as it is. */
    method Hangup(call: Id, user: Id) returns (r: EndResult)
      requires DbInv(View())
      modifies this`calls
      ensures DbInv(View())
      ensures AtomicRuns.Leads(old(View()), View())
      ensures r == if call !in old(calls) then UnknownCall
                   else if old(calls)[call].client != user && old(calls)[call].model != user then Forbidden
                   else Done
      ensures r != Done ==> View() == old(View())
      ensures calls == if r == Done && old(calls)[call].status != Ended
        then old(calls)[call := old(calls)[call].(status := Ended, endedAt := Some(now),
               endReason := Some(if old(calls)[call].client == user then HangupClient else HangupModel))]
        else old(calls)
      ensures r == Done ==>
        var reason := if old(calls)[call].client == user then HangupClient else HangupModel;
        View() == Close(old(View()), call, NOT_ENDED, reason)
    {
      hide DbInv, AtomicRuns.Leads;
      AtomicRuns.Stay(View());
      if call !in calls { return UnknownCall; }
      var c := calls[call];
      if c.client != user && c.model != user { return Forbidden; }
      if c.status == Ended { return Done; }
      var ended := End(call, NOT_ENDED, if c.client == user then HangupClient else HangupModel);
      r := Done;
    }

    /** panic: the model ends her open call at once; a call that is over stays as it is. */
    method PanicEnd(call: Id, model: Id) returns (r: EndResult)
      requires DbInv(View())
      modifies this`calls
      ensures DbInv(View())
      ensures AtomicRuns.Leads(old(View()), View())
      ensures r == if call !in old(calls) then UnknownCall else if old(calls)[call].model != model then Forbidden else Done
      ensures View() == if r == Done then Close(old(View()), call, NOT_ENDED, Panic) else old(View())
      ensures calls == if r == Done && old(calls)[call].status != Ended
        then old(calls)[call := old(calls)[call].(status := Ended, endReason := Some(Panic), endedAt := Some(now))] else old(calls)
    {
      hide DbInv, AtomicRuns.Leads;
      AtomicRuns.Stay(View());
      if call !in calls { return UnknownCall; }
      if calls[call].model != model { return Forbidden; }
      var ended := End(call, NOT_ENDED, Panic);
      r := Done;
    }

    /** getForParticipant: a participant sees the call, and a ringing call that rang too long ends
        as TIMEOUT before it is shown. */
    method GetForParticipant(call: Id, user: Id) returns (r: EndResult, shown: Option<Call>)
      requires DbInv(View())
      modifies this`calls
      ensures DbInv(View())
      ensures AtomicRuns.Leads(old(View()), View())
      ensures r == if call !in old(calls) then UnknownCall
                   else if old(calls)[call].client != user && old(calls)[call].model != user then Forbidden
                   else Done
      ensures View() ==
        if r == Done && IsExpired(now, old(calls)[call].requestedAt) then Close(old(View()), call, {Requested}, Timeout)
        else old(View())
      ensures r == Done <==> shown.Some?
      ensures r == Done ==> call in calls && shown == Some(calls[call])
      ensures calls == if r == Done && old(calls)[call].status == Requested && now - old(calls)[call].requestedAt > 30000
        then old(calls)[call := old(calls)[call].(status := Ended, endReason := Some(Timeout), endedAt := Some(now))] else old(calls)
    {
      hide DbInv, AtomicRuns.Leads;
      AtomicRuns.Stay(View());
      if call !in calls { return UnknownCall, None; }
      var c := calls[call];
      if c.client != user && c.model != user { return Forbidden, None; }
      if c.status == Requested && IsExpired(now, c.requestedAt) {
        var ended := End(call, {Requested}, Timeout);
      }
      return Done, Some(calls[call]);
    }

    // --------------------------------------------------------------- recharges

    /** confirmRecharge: credited exactly when a PENDING recharge with this charge and this amount
        is found; its stored amount then reaches its user, and nothing else changes. */
    method ConfirmRecharge(chargeId: string, amount: int) returns (r: ConfirmResult, id: Id)
      requires DbInv(View())
      modifies this`ledger, this`recharges
      ensures DbInv(View())
      ensures AtomicRuns.Leads(old(View()), View())
      ensures r == Unknown <==> forall x :: x in old(recharges) ==> old(recharges)[x].chargeId != Some(chargeId)
      ensures r != Unknown ==> id in old(recharges) && old(recharges)[id].chargeId == Some(chargeId)
      ensures r != Unknown ==>
        r == if old(recharges)[id].status == RechargeCredited then Already
             else if amount != old(recharges)[id].amount then AmountMismatch
             else if old(recharges)[id].status != RechargePending then Already
             else Credited
      ensures View() == if r == Credited then Credit(old(View()), id) else old(View())
      ensures r == Credited ==>
        var row := old(recharges)[id];
        && recharges == old(recharges)[id := row.(status := RechargeCredited)]
        && ledger == old(ledger) + [
             Entry(Client(row.user), Recarga, row.amount, RechargePaid(id), 0),
             Entry(External, RecargaOffset, -row.amount, RechargePaid(id), 1)]
      ensures r == Credited ==>
        Balance(ledger, Client(old(recharges)[id].user)) == Balance(old(ledger), Client(old(recharges)[id].user)) + amount
    {
      hide DbInv, UniqueRefs, Guarantee, Sum, Rows, Total, Posted, RechargeLines, AtomicRuns.Leads;
      ghost var before := View();
      AtomicRuns.Stay(before);
      id := "";
      if x :| x in recharges && recharges[x].chargeId == Some(chargeId) {
        id := x;
      } else {
        return Unknown, id;
      }
      var row := recharges[id];
      if row.status == RechargeCredited { return Already, id; }
      if amount != row.amount { return AmountMismatch, id; }
      if row.status != RechargePending { return Already, id; }
      KnownRecharge(before, id);
      CreditKeeps(before, id);
      AtomicRuns.One(before, AtomicRuns.Confirm(id, chargeId, amount));
      CreditedAmount(before, id);
      RechargeInWords(id, row.user, row.amount);
      var posted := PostTransaction(RechargePaid(id), RechargeLines(row.user, row.amount));
      recharges := recharges[id := row.(status := RechargeCredited)];
      r := Credited;
    }

    /** createRecharge: amounts from the minimum up get a row. It is PENDING with its charge when the
        provider answered and the charge was stored; else it is FAILED, with its charge only if the
        update was committed and reported an error all the same. */
    method CreateRecharge(user: Id, amount: int, charge: Option<(string, int)>, update: Update, id: Id) returns (r: CreateResult)
      requires DbInv(View()) && id !in recharges
      modifies this`recharges
      ensures DbInv(View())
      ensures AtomicRuns.Leads(old(View()), View())
      ensures r == if amount < cfg.minRecharge then TooSmall
                   else if charge.None? || update != Stored then ProviderDown else Created
      ensures View() == old(View()).(recharges := recharges)
      ensures recharges == match r {
          case TooSmall => old(recharges)
          case Created => old(recharges)[id := Recharge(user, amount, RechargePending, Some(charge.value.0), Some(charge.value.1))]
          case ProviderDown =>
            if charge.Some? && update == StoredWithError
            then old(recharges)[id := Recharge(user, amount, RechargeFailed, Some(charge.value.0), Some(charge.value.1))]
            else old(recharges)[id := Recharge(user, amount, RechargeFailed, None, None)]
        }
    {
      hide DbInv, AtomicRuns.Leads;
      AtomicRuns.Stay(View());
      if amount < cfg.minRecharge { return TooSmall; }
      ghost var before := View();
      CreationHappens(before, id, user, amount);
      recharges := recharges[id := Recharge(user, amount, RechargePending, None, None)];
      if charge.Some? && update != Refused {
        ghost var created := View();
        StoringHappens(before, created, id, charge.value.0, charge.value.1);
        recharges := recharges[id := recharges[id].(chargeId := Some(charge.value.0), expiresAt := Some(charge.value.1))];
        if update == Stored { return Created; }
      }
      GivingUpHappens(before, View(), id);
      recharges := recharges[id := recharges[id].(status := RechargeFailed)];
      r := ProviderDown;
    }

    /** expireStaleRecharges, one update over all rows: exactly the overdue PENDING ones expire. */
    method ExpireStaleRecharges() returns (count: nat)
      requires DbInv(View())
      modifies this`recharges
      ensures DbInv(View())
      ensures AtomicRuns.Leads(old(View()), View())
      ensures View() == old(View()).(recharges := recharges)
      ensures recharges.Keys == old(recharges).Keys
      ensures forall x :: x in recharges ==>
        var row := old(recharges)[x];
        recharges[x] == if row.status == RechargePending && row.expiresAt.Some? && row.expiresAt.value < now
          then row.(status := RechargeExpired) else row
      ensures forall x :: x in recharges && recharges[x].status == RechargePending && recharges[x].expiresAt.Some? ==>
        recharges[x].expiresAt.value >= now
      ensures count == |set x | x in old(recharges) && old(recharges)[x].status == RechargePending
                              && old(recharges)[x].expiresAt.Some? && old(recharges)[x].expiresAt.value < now|
    {
      hide DbInv, Sum, Posted, AtomicRuns.Leads;
      count := |set x | x in recharges && IsStale(recharges[x], now)|;
      assert (set x | x in recharges && IsStale(recharges[x], now)) == set x | x in recharges
        && recharges[x].status == RechargePending && recharges[x].expiresAt.Some? && recharges[x].expiresAt.value < now;
      AtomicRuns.SweepKeeps(View());
      AtomicRuns.One(View(), AtomicRuns.Sweep);
      recharges := AtomicRuns.Swept(recharges, now);
    }

    // ----------------------------------------------------------------- payouts

    /** requestPayout: exactly the covered amounts of approved accounts leave the balance. */
    method RequestPayout(model: Id, amount: int, id: Id) returns (r: PayoutResult)
      requires DbInv(View()) && id !in payouts
      modifies this`ledger, this`payouts
      ensures DbInv(View())
      ensures AtomicRuns.Leads(old(View()), View())
      ensures r == if model !in approved then KycMissing
                   else if amount < cfg.minPayout then BelowMinimum
                   else if Balance(old(ledger), Model(model)) < amount then InsufficientBalance
                   else PayoutOpened
      ensures View() == if r == PayoutOpened then OpenPayout(old(View()), id, model, amount) else old(View())
      ensures r == PayoutOpened ==>
        && payouts == old(payouts)[id := Payout(model, amount, PayoutPending, None)]
        && ledger == old(ledger) + [
             Entry(Model(model), Saque, -amount, PayoutAsked(id), 0),
             Entry(External, SaqueOffset, amount, PayoutAsked(id), 1)]
      ensures r == PayoutOpened ==> 0 <= Balance(ledger, Model(model)) == Balance(old(ledger), Model(model)) - amount
    {
      hide DbInv, UniqueRefs, Guarantee, Sum, Rows, Total, Posted, PayoutLines, AtomicRuns.Leads;
      ghost var before := View();
      AtomicRuns.Stay(before);
      if model !in approved { return KycMissing; }
      if amount < cfg.minPayout { return BelowMinimum; }
      if Balance(ledger, Model(model)) < amount { return InsufficientBalance; }
      NewPayout(before, id);
      OpenPayoutKeeps(before, id, model, amount);
      AtomicRuns.One(before, AtomicRuns.RequestPayout(id, model, amount));
      PayoutCost(before, id, model, amount);
      PayoutInWords(id, model, amount);
      var posted := PostTransaction(PayoutAsked(id), PayoutLines(model, amount));
      payouts := payouts[id := Payout(model, amount, PayoutPending, None)];
      r := PayoutOpened;
    }

    /** settle, after the claim: PAID, or given back and FAILED if the provider throws. */
    method Settle(id: Id, fate: Settlement.Fate)
      requires DbInv(View()) && id in payouts && PayoutReversed(id) !in Posted(ledger)
      modifies this`ledger, this`payouts, this`sent
      ensures var d := Settlement.Contact(old(View()), id, fate);
        View() == if id in fate.throws then Reverse(d, id) else MarkPaid(d, id)
      ensures var row := old(payouts)[id];
        && payouts == old(payouts)[id := row.(status := if id in fate.throws then PayoutFailed else PayoutPaid)]
        && sent == (if id in fate.moves then old(sent) + {id} else old(sent))
        && ledger == if id !in fate.throws then old(ledger) else old(ledger) + [
             Entry(Model(row.model), SaqueEstorno, row.amount, PayoutReversed(id), 0),
             Entry(External, SaqueEstornoOffset, -row.amount, PayoutReversed(id), 1)]
    {
      hide DbInv, UniqueRefs, Sum, Rows, Posted, Total, ReversalLines;
      var row := payouts[id];
      ReversalBalances(row);
      ReversalInWords(id, row.model, row.amount);
      RefsAreUnique(View());
      if id in fate.moves { sent := sent + {id}; }
      if id in fate.throws {
        var posted := PostTransaction(PayoutReversed(id), ReversalLines(row.model, row.amount));
        payouts := payouts[id := row.(status := PayoutFailed)];
      } else {
        payouts := payouts[id := row.(status := PayoutPaid)];
      }
    }

    /** The claiming update, for a row that is still claimable. */
    method ClaimPayout(id: Id, cutoff: Option<int>) returns (claimed: bool)
      requires id in payouts
      modifies this`payouts
      ensures claimed == Claimable(old(payouts)[id], cutoff)
      ensures claimed <==> match cutoff {
          case None => old(payouts)[id].status == PayoutPending
          case Some(limit) =>
            old(payouts)[id].status == PayoutProcessing
            && (old(payouts)[id].processingAt.None? || old(payouts)[id].processingAt.value < limit)
        }
      ensures payouts == if claimed
        then old(payouts)[id := old(payouts)[id].(status := PayoutProcessing, processingAt := Some(now))] else old(payouts)
      ensures View() == if claimed then Claim(old(View()), id) else old(View())
    {
      claimed := Claimable(payouts[id], cutoff);
      if claimed {
        payouts := payouts[id := payouts[id].(status := PayoutProcessing, processingAt := Some(now))];
      }
    }

    /** The loop of both rounds: claim what is still claimable, settle what was claimed. */
    method SettleListed(ids: seq<Id>, cutoff: Option<int>, fate: Settlement.Fate) returns (done: set<Id>, left: set<Id>)
      requires DbInv(View()) && Lease.StatusTrue(View())
      requires TM.Lists(ids, PS.ClaimableRows(payouts, cutoff))
      modifies this`ledger, this`payouts, this`sent
      ensures DbInv(View()) && Lease.StatusTrue(View())
      ensures AtomicRuns.Leads(old(View()), View())
      ensures Settlement.RowsSettled(old(View()), View(), done, left, fate)
      ensures Settlement.MoneySettled(old(View()), View(), done, fate)
      ensures Settlement.RoundEnds(PS.ClaimableRows(old(payouts), cutoff), done, left, fate.crash)
    {
      hide DbInv, Posted, Sum, Lease.StatusTrue, Settlement.MoneySettled, Settlement.RowsSettled, Claimable, PS.ClaimableRows, AtomicRuns.Leads;
      ghost var start, rows := View(), PS.ClaimableRows(payouts, cutoff);
      done, left := {}, {};
      Settlement.NothingSettled(start, fate);
      AtomicRuns.Stay(start);
      for i := 0 to |ids|
        invariant DbInv(View()) && left == {} && AtomicRuns.Leads(start, View())
        invariant done == set j | 0 <= j < i :: ids[j]
        invariant forall j :: 0 <= j < i ==> fate.crash != Settlement.BeforeClaim(ids[j]) && fate.crash != Settlement.AfterClaim(ids[j])
        invariant Settlement.RowsSettled(start, View(), done, {}, fate)
        invariant Settlement.MoneySettled(start, View(), done, fate)
      {
        var id := ids[i];
        ghost var before := View();
        Settlement.StillClaimable(start, before, done, fate, id, cutoff);
        KnownRow(start, id, cutoff);
        if fate.crash == Settlement.BeforeClaim(id) {
          Settlement.StatusStaysTrue(start, View(), done, {}, cutoff, fate);
          return;
        }
        Settlement.SettleOneKeeps(before, id, fate);
        SettlingLeads(start, before, id, cutoff, fate);
        var claimed := ClaimPayout(id, cutoff);
        if fate.crash == Settlement.AfterClaim(id) {
          Settlement.OneLeft(start, before, done, fate, id);
          if id in fate.moves { sent := sent + {id}; }
          left := {id};
          Settlement.StatusStaysTrue(start, View(), done, left, cutoff, fate);
          return;
        }
        if claimed {
          Settlement.OneMoreRow(start, before, done, fate, id);
          Settlement.OneMorePaid(start, before, done, fate, id);
          Settle(id, fate);
        }
        done := done + {id};
      }
      assert done == rows;
      Settlement.StatusStaysTrue(start, View(), done, {}, cutoff, fate);
    }

    /** processPending: every PENDING payout is paid, or failed and given back in full, up to the
        point where the worker dies. */
    method ProcessPending(fate: Settlement.Fate) returns (done: set<Id>, left: set<Id>)
      requires DbInv(View()) && Lease.StatusTrue(View())
      modifies this`ledger, this`payouts, this`sent
      ensures DbInv(View()) && Lease.StatusTrue(View())
      ensures AtomicRuns.Leads(old(View()), View())
      ensures Settlement.RowsSettled(old(View()), View(), done, left, fate)
      ensures Settlement.MoneySettled(old(View()), View(), done, fate)
      ensures Settlement.RoundEnds((set id | id in old(payouts) && old(payouts)[id].status == PayoutPending),
        done, left, fate.crash)
      ensures done + left <= old(payouts).Keys == payouts.Keys
      ensures forall id :: id in done ==>
        payouts[id] == old(payouts)[id].(status := if id in fate.throws then PayoutFailed else PayoutPaid, processingAt := Some(now))
      ensures forall id :: id in left ==>
        payouts[id] == old(payouts)[id].(status := PayoutProcessing, processingAt := Some(now))
      ensures forall id :: id in payouts && id !in done && id !in left ==> payouts[id] == old(payouts)[id]
      ensures sent == old(sent) + (done + left) * fate.moves
      ensures forall id :: id in payouts && payouts[id].status == PayoutPending <==>
        id in old(payouts) && old(payouts)[id].status == PayoutPending && id !in done && id !in left
    {
      hide DbInv, Posted, Sum, Lease.StatusTrue, Settlement.RowsSettled, Settlement.MoneySettled, PS.ClaimableRows, TM.Lists, AtomicRuns.Leads;
      var ids := Listed(PS.ClaimableRows(payouts, None));
      ghost var start := View();
      done, left := SettleListed(ids, None, fate);
      PendingInWords(start, View(), done, left, fate);
    }

    /** recoverStuck: the same for the payouts whose claim is older than the stuck limit. */
    method RecoverStuck(fate: Settlement.Fate) returns (done: set<Id>, left: set<Id>)
      requires DbInv(View()) && Lease.StatusTrue(View())
      modifies this`ledger, this`payouts, this`sent
      ensures DbInv(View()) && Lease.StatusTrue(View())
      ensures AtomicRuns.Leads(old(View()), View())
      ensures Settlement.RowsSettled(old(View()), View(), done, left, fate)
      ensures Settlement.MoneySettled(old(View()), View(), done, fate)
      ensures Settlement.RoundEnds((set id | id in old(payouts) && old(payouts)[id].status == PayoutProcessing
          && (old(payouts)[id].processingAt.None? || old(payouts)[id].processingAt.value < now - cfg.stuckMs)),
        done, left, fate.crash)
      ensures done + left <= old(payouts).Keys == payouts.Keys
      ensures forall id :: id in done ==>
        payouts[id] == old(payouts)[id].(status := if id in fate.throws then PayoutFailed else PayoutPaid, processingAt := Some(now))
      ensures forall id :: id in left ==>
        payouts[id] == old(payouts)[id].(status := PayoutProcessing, processingAt := Some(now))
      ensures forall id :: id in payouts && id !in done && id !in left ==> payouts[id] == old(payouts)[id]
      ensures sent == old(sent) + (done + left) * fate.moves
      ensures forall id :: id in done + left ==>
        !(payouts[id].status == PayoutProcessing && (payouts[id].processingAt.None? || payouts[id].processingAt.value < now - cfg.stuckMs))
    {
      hide DbInv, Posted, Sum, Lease.StatusTrue, Settlement.RowsSettled, Settlement.MoneySettled, PS.ClaimableRows, TM.Lists, AtomicRuns.Leads;
      StuckIsPositive(View());
      var cutoff := Some(now - cfg.stuckMs);
      var ids := Listed(PS.ClaimableRows(payouts, cutoff));
      ghost var start := View();
      done, left := SettleListed(ids, cutoff, fate);
      StuckInWords(start, View(), done, left, fate);
    }
  }

  /** A query's result set as a list, in no particular order. */
  method Listed(rows: set<Id>) returns (ids: seq<Id>)
    ensures TM.Lists(ids, rows)
  {
    ids := [];
    var rest := rows;
    while rest != {}
      invariant rest <= rows && TM.Lists(ids, rows - rest)
      decreases rest
    {
      var id :| id in rest;
      rest := rest - {id};
      ids := ids + [id];
    }
    assert rows - rest == rows;
  }

  // --------------------------------------------- what is written, in so many words

  /** The commission is the nearest whole number of cents, at the model's own rate or her tier's. */
  lemma CommissionInWords(d: DB, model: Id, price: int)
    requires ValidConfig(d.cfg) && ProfilesOk(d.profiles) && price >= 0
    ensures var n := CommissionOf(d, model, price);
      var rate := if model in d.profiles && d.profiles[model].takeRate.Some? then d.profiles[model].takeRate.value
                  else TierRate(d.cfg.tiers, GrossEarned(d.ledger, model));
      n as real - 0.5 <= price as real * rate < n as real + 0.5
  {
    hide TierRate, Sum, TakeRate.ComputeSplit;
    var rate := RateOf(d, model);
    RateInRange(d, model);
    TakeRate.ProductMonotone(0.0, price as real, 0.0, rate);
    TakeRate.CommissionIsHalfUp(price, rate, CommissionOf(d, model, price));
  }

  lemma RateInRange(d: DB, model: Id)
    requires ValidConfig(d.cfg) && ProfilesOk(d.profiles)
    ensures TakeRate.IsRate(RateOf(d, model))
  {
    if model in d.profiles { assert ValidProfile(d.profiles[model]); }
    TM.RateInRange(d, if model in d.profiles then d.profiles[model].takeRate else None, model);
  }

  lemma MinuteInWords(l: seq<Entry>, call: Id, minute: nat, row: Call, n: int)
    ensures var rows := Rows(CallMinute(call, minute), MinuteLines(row.client, row.model, row.price, n));
      && rows == [
           Entry(Client(row.client), ConsumoMin, -row.price, CallMinute(call, minute), 0),
           Entry(Model(row.model), GanhoMin, row.price - n, CallMinute(call, minute), 1),
           Entry(Platform, Comissao, n, CallMinute(call, minute), 2)]
      && Balance(l + rows, Platform) == Balance(l, Platform) + n
  {
    var lines := MinuteLines(row.client, row.model, row.price, n);
    SumOfThree(l, CallMinute(call, minute), lines[0], lines[1], lines[2], OfAccount(Platform));
    hide Sum;
  }

  lemma WrittenMinute(d: DB, d': DB, call: Id, minute: nat, row: Call, n: int)
    requires call in d.calls && row == d.calls[call] && d' == PostMinute(d, call, minute, row, n)
    ensures d'.ledger == d.ledger + Rows(CallMinute(call, minute), MinuteLines(row.client, row.model, row.price, n))
    ensures d'.calls == d.calls[call := row.(billed := row.billed + 1)]
  {
    hide Rows;
  }

  lemma GiftInWords(l: seq<Entry>, id: Id, client: Id, model: Id, price: int, n: int)
    ensures var rows := Rows(GiftSent(id), GiftLines(client, model, price, n));
      && rows == [
           Entry(Client(client), Presente, -price, GiftSent(id), 0),
           Entry(Model(model), GanhoPresente, price - n, GiftSent(id), 1),
           Entry(Platform, Comissao, n, GiftSent(id), 2)]
      && Balance(l + rows, Platform) == Balance(l, Platform) + n
  {
    var lines := GiftLines(client, model, price, n);
    SumOfThree(l, GiftSent(id), lines[0], lines[1], lines[2], OfAccount(Platform));
    hide Sum;
  }

  lemma RechargeInWords(id: Id, user: Id, amount: int)
    ensures Rows(RechargePaid(id), RechargeLines(user, amount)) == [
      Entry(Client(user), Recarga, amount, RechargePaid(id), 0),
      Entry(External, RecargaOffset, -amount, RechargePaid(id), 1)]
  {
  }

  lemma PayoutInWords(id: Id, model: Id, amount: int)
    ensures Rows(PayoutAsked(id), PayoutLines(model, amount)) == [
      Entry(Model(model), Saque, -amount, PayoutAsked(id), 0),
      Entry(External, SaqueOffset, amount, PayoutAsked(id), 1)]
  {
  }

  lemma ReversalInWords(id: Id, model: Id, amount: int)
    ensures Rows(PayoutReversed(id), ReversalLines(model, amount)) == [
      Entry(Model(model), SaqueEstorno, amount, PayoutReversed(id), 0),
      Entry(External, SaqueEstornoOffset, -amount, PayoutReversed(id), 1)]
  {
  }

  lemma LedgerIsSound(d: DB)
    requires DbInv(d)
    ensures UniqueRefs(d.ledger) && d.cfg.tiers != []
  {
  }

  lemma PriceIsNatural(d: DB, call: Id)
    requires DbInv(d) && call in d.calls
    ensures d.calls[call].price >= 0 && ValidConfig(d.cfg) && ProfilesOk(d.profiles)
  {
    TM.PriceNotNegative(d, call);
  }

  lemma RoundInWords(d: DB, ids: seq<Id>, round: Round)
    requires DbInv(d) && round.at <= d.now && TM.Lists(ids, TM.ActiveCalls(d.calls)) && d.cfg.tiers != []
    ensures forall i :: 0 <= i < |ids| ==> ids[i] in d.calls
    ensures var d' := RunDue(d, d.calls, ids, round);
      && d'.calls.Keys == d.calls.Keys
      && (forall id :: id in d.calls && id !in ids ==> d'.calls[id] == d.calls[id])
      && forall id :: id in ids ==>
           CatchUps.ChargedFor(id, d.calls[id], d'.calls[id], Balance(d.ledger, Client(d.calls[id].client)),
             Balance(d'.ledger, Client(d.calls[id].client)), round, d.now)
  {
    CatchUps.ActiveListIsReady(d, ids, round);
    CatchUps.RunDueRows(d, d.calls, ids, round);
    hide DbInv, RunDue, Sum, CatchUps.ChargedFor, CatchUps.FinalOf, CatchUps.Ready;
    forall id | id in ids
      ensures var d' := RunDue(d, d.calls, ids, round);
        id in d.calls && id in d'.calls &&
        CatchUps.ChargedFor(id, d.calls[id], d'.calls[id], Balance(d.ledger, Client(d.calls[id].client)),
          Balance(d'.ledger, Client(d.calls[id].client)), round, d.now)
    {
      CatchUps.RoundMeaning(d, ids, id, round);
    }
  }

  lemma PendingInWords(d: DB, d': DB, done: set<Id>, left: set<Id>, fate: Settlement.Fate)
    requires Settlement.RowsSettled(d, d', done, left, fate)
    ensures PS.ClaimableRows(d.payouts, None) == set id | id in d.payouts && d.payouts[id].status == PayoutPending
    ensures forall id :: id in d'.payouts && d'.payouts[id].status == PayoutPending <==>
      id in d.payouts && d.payouts[id].status == PayoutPending && id !in done && id !in left
    ensures SettledInWords(d, d', done, left, fate)
  {
    hide Posted;
  }

  lemma StuckInWords(d: DB, d': DB, done: set<Id>, left: set<Id>, fate: Settlement.Fate)
    requires Settlement.RowsSettled(d, d', done, left, fate) && d.cfg.stuckMs > 0
    requires Settlement.RoundEnds(PS.ClaimableRows(d.payouts, Some(d.now - d.cfg.stuckMs)), done, left, fate.crash)
    ensures PS.ClaimableRows(d.payouts, Some(d.now - d.cfg.stuckMs)) == set id | id in d.payouts
      && d.payouts[id].status == PayoutProcessing
      && (d.payouts[id].processingAt.None? || d.payouts[id].processingAt.value < d.now - d.cfg.stuckMs)
    ensures SettledInWords(d, d', done, left, fate)
    ensures forall id :: id in done + left ==>
      !(d'.payouts[id].status == PayoutProcessing
        && (d'.payouts[id].processingAt.None? || d'.payouts[id].processingAt.value < d.now - d.cfg.stuckMs))
  {
    hide Posted;
  }

  ghost predicate SettledInWords(d: DB, d': DB, done: set<Id>, left: set<Id>, fate: Settlement.Fate) {
    && done + left <= d.payouts.Keys == d'.payouts.Keys
    && (forall id :: id in done ==>
          d'.payouts[id] == d.payouts[id].(status := if id in fate.throws then PayoutFailed else PayoutPaid, processingAt := Some(d.now)))
    && (forall id :: id in left ==> d'.payouts[id] == d.payouts[id].(status := PayoutProcessing, processingAt := Some(d.now)))
    && (forall id :: id in d.payouts && id !in done && id !in left ==> d'.payouts[id] == d.payouts[id])
    && d'.sent == d.sent + (done + left) * fate.moves
  }

  lemma MinuteLinesBalance(row: Call, commission: int)
    ensures Total(MinuteLines(row.client, row.model, row.price, commission)) == 0
  {
    var lines := MinuteLines(row.client, row.model, row.price, commission);
    TotalOfThree(lines[0], lines[1], lines[2]);
  }

  lemma StuckIsPositive(d: DB)
    requires DbInv(d)
    ensures d.cfg.stuckMs > 0
  {
  }

  /** Claiming and settling are steps of an atomic run, and so is giving up in between. */
  lemma SettlingLeads(start: DB, d: DB, id: Id, cutoff: Option<int>, fate: Settlement.Fate)
    requires AtomicRuns.Leads(start, d) && id in d.payouts && Claimable(d.payouts[id], cutoff)
    requires PayoutReversed(id) !in Posted(d.ledger)
    ensures AtomicRuns.Leads(start, Settlement.Contact(Claim(d, id), id, fate))
    ensures AtomicRuns.Leads(start, Settlement.SettleOne(d, id, fate))
  {
    hide AtomicRuns.Leads, Posted, Rows;
    var d1 := Claim(d, id);
    var d2 := Settlement.Contact(d1, id, fate);
    AtomicRuns.One(d, AtomicRuns.ClaimPayout(id, cutoff));
    AtomicRuns.Chain(start, d, d1);
    AtomicRuns.Stay(d1);
    AtomicRuns.One(d1, AtomicRuns.MoveMoney(id));
    AtomicRuns.Chain(start, d1, d2);
    if id in fate.throws { AtomicRuns.One(d2, AtomicRuns.GiveBack(id)); } else { AtomicRuns.One(d2, AtomicRuns.Pay(id)); }
    AtomicRuns.Chain(start, d2, Settlement.SettleOne(d, id, fate));
  }

  lemma KnownRow(d: DB, id: Id, cutoff: Option<int>)
    requires id in PS.ClaimableRows(d.payouts, cutoff)
    ensures id in d.payouts
  {
  }

  lemma RefsAreUnique(d: DB)
    requires DbInv(d)
    ensures UniqueRefs(d.ledger)
  {
  }

  lemma NewGift(d: DB, id: Id)
    requires DbInv(d) && id !in d.gifts
    ensures UniqueRefs(d.ledger) && ValidConfig(d.cfg) && ProfilesOk(d.profiles) && GiftSent(id) !in Posted(d.ledger)
  {
    NewGiftIsNew(d.ledger, d.gifts, id);
  }

  /** A gift costs its client the price; its lines add up to zero. */
  lemma GiftCost(d: DB, id: Id, client: Id, model: Id, price: int, commission: int)
    ensures Total(GiftLines(client, model, price, commission)) == 0
    ensures Balance(PostGift(d, id, client, model, price, commission).ledger, Client(client))
      == Balance(d.ledger, Client(client)) - price
  {
    var lines := GiftLines(client, model, price, commission);
    TotalOfThree(lines[0], lines[1], lines[2]);
    SumOfThree(d.ledger, GiftSent(id), lines[0], lines[1], lines[2], OfAccount(Client(client)));
  }

  lemma GiftWritten(d: DB, d': DB, id: Id, client: Id, model: Id, price: int, commission: int)
    requires d' == d.(ledger := d.ledger + Rows(GiftSent(id), GiftLines(client, model, price, commission)),
                      gifts := d.gifts[id := Gift(client, model, price)])
    ensures d' == PostGift(d, id, client, model, price, commission)
  {
  }

  lemma PriceOfProfile(d: DB, model: Id)
    requires DbInv(d) && model in d.profiles
    ensures d.profiles[model].price >= 0
  {
    assert ValidProfile(d.profiles[model]);
  }

  lemma RingingAlone(d: DB, call: Id)
    requires DbInv(d) && call in d.calls && d.calls[call].status == Requested
    ensures d.calls[call].startedAt.None?
    ensures forall id :: IsOpen(d.calls, id) && d.calls[id].client == d.calls[call].client ==> id == call
  {
    CS.RingingAlone(d, call);
  }

  lemma NobodyElseActive(d: DB, call: Id)
    requires DbInv(d) && call in d.calls && d.calls[call].status == Requested
    ensures !exists o :: o in d.calls && d.calls[o].client == d.calls[call].client && d.calls[o].status == Active && o != call
  {
    forall o | o in d.calls && d.calls[o].client == d.calls[call].client && d.calls[o].status == Active && o != call ensures false {
      assert IsOpen(d.calls, o) && IsOpen(d.calls, call);
    }
  }

  lemma KnownRecharge(d: DB, id: Id)
    requires DbInv(d) && id in d.recharges
    ensures UniqueRefs(d.ledger)
    ensures RechargePaid(id) in Posted(d.ledger) ==> d.recharges[id].status != RechargePending
  {
    RechargeIsOk(d.ledger, d.recharges, id);
  }

  lemma CreditedAmount(d: DB, id: Id)
    requires id in d.recharges && d.recharges[id].status == RechargePending
    ensures var row := d.recharges[id];
      && Total(RechargeLines(row.user, row.amount)) == 0
      && Balance(Credit(d, id).ledger, Client(row.user)) == Balance(d.ledger, Client(row.user)) + row.amount
  {
    var row := d.recharges[id];
    var lines := RechargeLines(row.user, row.amount);
    TotalOfTwo(lines[0], lines[1]);
    SumOfTwo(d.ledger, RechargePaid(id), lines[0], lines[1], OfAccount(Client(row.user)));
  }

  lemma CreationHappens(d: DB, id: Id, user: Id, amount: int)
    requires DbInv(d) && id !in d.recharges && amount >= d.cfg.minRecharge
    ensures DbInv(OpenRecharge(d, id, user, amount)) && AtomicRuns.Leads(d, OpenRecharge(d, id, user, amount))
  {
    hide DbInv, Guarantee, AtomicRuns.Leads;
    RS.MinimumIsNatural(d);
    OpenRechargeKeeps(d, id, user, amount);
    AtomicRuns.One(d, AtomicRuns.CreateRecharge(id, user, amount));
  }

  lemma StoringHappens(start: DB, d: DB, id: Id, chargeId: string, expiresAt: int)
    requires DbInv(d) && AtomicRuns.Leads(start, d) && id in d.recharges && d.recharges[id].chargeId.None?
    ensures DbInv(AttachCharge(d, id, chargeId, expiresAt)) && AtomicRuns.Leads(start, AttachCharge(d, id, chargeId, expiresAt))
  {
    hide DbInv, Guarantee, AtomicRuns.Leads;
    AttachChargeKeeps(d, id, chargeId, expiresAt);
    AtomicRuns.One(d, AtomicRuns.StoreCharge(id, chargeId, expiresAt));
    AtomicRuns.Chain(start, d, AttachCharge(d, id, chargeId, expiresAt));
  }

  lemma GivingUpHappens(start: DB, d: DB, id: Id)
    requires DbInv(d) && AtomicRuns.Leads(start, d) && id in d.recharges
    ensures DbInv(FailRecharge(d, id)) && AtomicRuns.Leads(start, FailRecharge(d, id))
  {
    hide DbInv, Guarantee, AtomicRuns.Leads;
    FailRechargeKeeps(d, id);
    AtomicRuns.One(d, AtomicRuns.GiveUp(id));
    AtomicRuns.Chain(start, d, FailRecharge(d, id));
  }

  lemma ReversalBalances(row: Payout)
    ensures Total(ReversalLines(row.model, row.amount)) == 0
  {
    var lines := ReversalLines(row.model, row.amount);
    TotalOfTwo(lines[0], lines[1]);
  }

  lemma NewPayout(d: DB, id: Id)
    requires DbInv(d) && id !in d.payouts
    ensures UniqueRefs(d.ledger) && d.cfg.minPayout >= 0 && PayoutAsked(id) !in Posted(d.ledger)
  {
    NewPayoutIsNew(d.ledger, d.payouts, d.approved, id);
  }

  lemma PayoutCost(d: DB, id: Id, model: Id, amount: int)
    ensures Total(PayoutLines(model, amount)) == 0
    ensures Balance(OpenPayout(d, id, model, amount).ledger, Model(model)) == Balance(d.ledger, Model(model)) - amount
  {
    var lines := PayoutLines(model, amount);
    TotalOfTwo(lines[0], lines[1]);
    SumOfTwo(d.ledger, PayoutAsked(id), lines[0], lines[1], OfAccount(Model(model)));
  }
}

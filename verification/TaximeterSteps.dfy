/** The taximeter worker, statement by statement (src/scheduler/taximeter.service.ts and
    chargeMinute in src/billing/billing.service.ts). */
module TaximeterSteps {
  import opened Prelude
  import opened Tables
  import opened Ledger
  import opened Writes
  import opened Invariant
  import opened Steps
  import Ranking
  import TakeRate

  /** A call of the snapshot: the next minute to charge and the last one due. */
  datatype Due = Due(call: Id, next: nat, last: int)

  /** Where the worker stands. The local variables of chargeMinute are the constructor fields:
      `row` is the row re-read under the lock, `balance` the balance read under the lock. */
  datatype Phase =
    | Scan(now: int)                       // about to list the ACTIVE calls
    | Idle                                 // loop control, outside any transaction
    | Reading                              // first read of the call
    | Waiting(client: Id)                  // asking for the client's lock
    | Locked(client: Id)                   // lock held, about to re-read the call
    | Fresh(client: Id, row: Call)         // about to look for the minute's group
    | Unposted(client: Id, row: Call)      // group absent; about to test the status and read the balance
    | Funded(client: Id, row: Call, balance: int)
    | Profiled(client: Id, row: Call, balance: int, override: Option<real>)
    | Priced(client: Id, row: Call, balance: int, rate: real)
    | Finished

  /** `dues` is what is left of the snapshot; its first element is the call being charged. */
  datatype Task = Task(dues: seq<Due>, phase: Phase)

  datatype Effect = Effect(db: DB, task: Task)

  ghost function Holds(t: Task): set<Key> {
    match t.phase
    case Locked(c) => {ClientKey(c)}
    case Fresh(c, _) => {ClientKey(c)}
    case Unposted(c, _) => {ClientKey(c)}
    case Funded(c, _, _) => {ClientKey(c)}
    case Profiled(c, _, _, _) => {ClientKey(c)}
    case Priced(c, _, _, _) => {ClientKey(c)}
    case _ => {}
  }

  predicate InLoop(p: Phase) {
    !p.Scan? && !p.Idle? && !p.Finished?
  }

  /** The calls of a listing with their due minutes; a call without start is skipped. */
  function DuesOf(calls: map<Id, Call>, ids: seq<Id>, now: int): seq<Due>
    requires forall i :: 0 <= i < |ids| ==> ids[i] in calls
  {
    if ids == [] then []
    else
      var c := calls[ids[0]];
      var rest := DuesOf(calls, ids[1..], now);
      if c.startedAt.None? then rest
      else [Due(ids[0], c.billed + 1, DueMinute(now, c.startedAt.value))] + rest
  }

  /** A listing of a query: every row that qualifies, each once, in any order. */
  ghost predicate Lists(ids: seq<Id>, rows: set<Id>) {
    && (forall i :: 0 <= i < |ids| ==> ids[i] in rows)
    && (forall id :: id in rows ==> id in ids)
    && (forall i, j :: 0 <= i < j < |ids| ==> ids[i] != ids[j])
  }

  function ActiveCalls(calls: map<Id, Call>): set<Id> {
    set id | id in calls && calls[id].status == Active
  }

  function NextMinute(dues: seq<Due>): Task
    requires dues != []
  {
    Task([dues[0].(next := dues[0].next + 1)] + dues[1..], Idle)
  }

  /** `break`: on to the next call of the snapshot. */
  function Break(dues: seq<Due>): Task
    requires dues != []
  {
    Task(dues[1..], Idle)
  }

  ghost predicate CanAct(d: DB, t: Task, o: Oracle) {
    && !t.phase.Finished?
    && d.cfg.tiers != []
    && (t.phase.Scan? ==> Lists(o.ids, ActiveCalls(d.calls)))
    && (InLoop(t.phase) ==> t.dues != [])
    && (t.phase.Priced? ==>
          t.dues[0].call in d.calls && CallMinute(t.dues[0].call, t.dues[0].next) !in Posted(d.ledger))
  }

  ghost function Act(d: DB, t: Task, o: Oracle): Effect
    requires CanAct(d, t, o)
  {
    match t.phase
    case Scan(now) => Effect(d, Task(DuesOf(d.calls, o.ids, now), Idle))
    case Idle =>
      Effect(d,
        if t.dues == [] then t.(phase := Finished)
        else if t.dues[0].next > t.dues[0].last then Break(t.dues)
        else t.(phase := Reading))
    case Finished => Effect(d, t)
    case _ => Charge(d, t)
  }

  /** One statement of chargeMinute. */
  ghost function Charge(d: DB, t: Task): Effect
    requires InLoop(t.phase) && t.dues != [] && d.cfg.tiers != []
    requires t.phase.Priced? ==> t.dues[0].call in d.calls
  {
    var call, minute := t.dues[0].call, t.dues[0].next;
    match t.phase
    case Reading =>
      Effect(d, if call in d.calls then t.(phase := Waiting(d.calls[call].client)) else NextMinute(t.dues))
    case Waiting(client) => Effect(d, t.(phase := Locked(client)))
    case Locked(client) =>
      Effect(d, if call in d.calls then t.(phase := Fresh(client, d.calls[call])) else NextMinute(t.dues))
    case Fresh(client, row) =>
      Effect(d, if CallMinute(call, minute) in Posted(d.ledger) then NextMinute(t.dues) else t.(phase := Unposted(client, row)))
    case Unposted(client, row) =>
      Effect(d,
        if row.status != Active then NextMinute(t.dues)
        else t.(phase := Funded(client, row, Balance(d.ledger, Client(row.client)))))
    case Funded(client, row, balance) =>
      if balance < row.price then Effect(Close(d, call, {Active}, NoCredits), Break(t.dues))
      else
        var override := if row.model in d.profiles then d.profiles[row.model].takeRate else None;
        Effect(d, t.(phase := Profiled(client, row, balance, override)))
    case Profiled(client, row, balance, override) =>
      var rate := TakeRate.ResolveTakeRate(override, TierRate(d.cfg.tiers, GrossEarned(d.ledger, row.model)));
      Effect(d, t.(phase := Priced(client, row, balance, rate)))
    case Priced(client, row, balance, rate) =>
      Effect(PostMinute(d, call, minute, row, TakeRate.ComputeSplit(row.price, rate).commission), NextMinute(t.dues))
    case _ => Effect(d, t)
  }

  /** An error inside chargeMinute is logged; the loop goes on with the next call. */
  function Failed(t: Task): Task {
    if t.dues == [] then t.(phase := Finished) else Break(t.dues)
  }

  // ------------------------------------------------------- the worker's view

  /** The call was started; the next minute is at most one ahead of the cursor, unless the call
      is over for good; and nothing beyond the running minute is due. */
  ghost predicate DueOk(d: DB, due: Due) {
    && due.call in d.calls
    && var c := d.calls[due.call];
    && c.startedAt.Some? && c.status != Requested
    && due.next >= 1
    && (due.next <= c.billed + 1 || c.status == Ended)
    && due.last <= DueMinute(d.now, c.startedAt.value)
  }

  /** What the re-read row still tells: immutable columns, and a status that was final if it was
      not ACTIVE. */
  ghost predicate RowOk(d: DB, due: Due, client: Id, row: Call)
    requires due.call in d.calls
  {
    var c := d.calls[due.call];
    && client == c.client == row.client && row.model == c.model && row.price == c.price
    && (row.status == Active ==> due.next <= c.billed + 1)
    && (row.status != Active ==> c.status == Ended)
  }

  ghost predicate PhaseOk(d: DB, due: Due, p: Phase)
    requires due.call in d.calls
  {
    match p
    case Waiting(client) => client == d.calls[due.call].client
    case Locked(client) => client == d.calls[due.call].client
    case Fresh(client, row) => RowOk(d, due, client, row)
    case Unposted(client, row) =>
      RowOk(d, due, client, row) && CallMinute(due.call, due.next) !in Posted(d.ledger)
    case Funded(client, row, balance) =>
      && RowOk(d, due, client, row) && CallMinute(due.call, due.next) !in Posted(d.ledger)
      && row.status == Active && balance <= Balance(d.ledger, Client(client))
    case Profiled(client, row, balance, override) =>
      && RowOk(d, due, client, row) && CallMinute(due.call, due.next) !in Posted(d.ledger)
      && row.status == Active && row.price <= balance <= Balance(d.ledger, Client(client))
      && (override.Some? ==> TakeRate.IsRate(override.value))
    case Priced(client, row, balance, rate) =>
      && RowOk(d, due, client, row) && CallMinute(due.call, due.next) !in Posted(d.ledger)
      && row.status == Active && row.price <= balance <= Balance(d.ledger, Client(client))
      && TakeRate.IsRate(rate)
    case _ => true
  }

  ghost predicate Ok(d: DB, t: Task) {
    && (t.phase.Scan? ==> t.phase.now <= d.now && t.dues == [])
    && (forall i :: 0 <= i < |t.dues| ==> DueOk(d, t.dues[i]))
    && (InLoop(t.phase) ==> t.dues != [] && t.dues[0].next <= t.dues[0].last && PhaseOk(d, t.dues[0], t.phase))
  }

  // ------------------------------------------------------------------ proofs

  lemma DueMinuteMonotone(now: int, later: int, startedAt: int)
    requires now <= later
    ensures DueMinute(now, startedAt) <= DueMinute(later, startedAt)
  {
  }

  lemma DueStable(d: DB, d': DB, keys: set<Key>, due: Due)
    requires DueOk(d, due) && Guarantee(d, d', keys)
    ensures DueOk(d', due)
  {
    DueMinuteMonotone(d.now, d'.now, d.calls[due.call].startedAt.value);
  }

  lemma DuesStable(d: DB, d': DB, keys: set<Key>, dues: seq<Due>)
    requires forall i :: 0 <= i < |dues| ==> DueOk(d, dues[i])
    requires Guarantee(d, d', keys)
    ensures forall i :: 0 <= i < |dues| ==> DueOk(d', dues[i])
  {
    hide DueOk, Guarantee;
    forall i | 0 <= i < |dues| ensures DueOk(d', dues[i]) {
      DueStable(d, d', keys, dues[i]);
    }
  }

  lemma PhaseStable(d: DB, d': DB, keys: set<Key>, t: Task)
    requires t.dues != [] && DueOk(d, t.dues[0]) && PhaseOk(d, t.dues[0], t.phase)
    requires Guarantee(d, d', keys) && Holds(t) !! keys
    ensures t.dues[0].call in d'.calls && PhaseOk(d', t.dues[0], t.phase)
  {
    hide RechargesStep, PayoutsStep, Sum, Posted;
  }

  /** No step of another worker can falsify what this worker knows. */
  lemma Stable(d: DB, d': DB, keys: set<Key>, t: Task)
    requires Ok(d, t) && Guarantee(d, d', keys) && Holds(t) !! keys
    ensures Ok(d', t)
  {
    assert d.now <= d'.now;
    hide DueOk, PhaseOk, Guarantee;
    DuesStable(d, d', keys, t.dues);
    if InLoop(t.phase) { PhaseStable(d, d', keys, t); }
  }

  lemma {:induction false} DuesOk(d: DB, ids: seq<Id>, now: int)
    requires CallsInv(d.calls, d.reopened, d.now) && now <= d.now
    requires forall i :: 0 <= i < |ids| ==> ids[i] in d.calls && d.calls[ids[i]].status == Active
    ensures forall i :: 0 <= i < |DuesOf(d.calls, ids, now)| ==> DueOk(d, DuesOf(d.calls, ids, now)[i])
  {
    if ids != [] {
      var c := d.calls[ids[0]];
      assert CallOk(c, d.now, ids[0] in d.reopened);
      DueMinuteMonotone(now, d.now, c.startedAt.value);
      assert DueOk(d, Due(ids[0], c.billed + 1, DueMinute(now, c.startedAt.value)));
      DuesOk(d, ids[1..], now);
    }
  }

  /** Leaving a minute behind is sound when it is posted, or when the call is over for good. */
  lemma NextMinuteOk(d: DB, t: Task)
    requires t.dues != [] && forall i :: 0 <= i < |t.dues| ==> DueOk(d, t.dues[i])
    requires t.dues[0].call in d.calls
    requires t.dues[0].next <= d.calls[t.dues[0].call].billed || d.calls[t.dues[0].call].status == Ended
    ensures Ok(d, NextMinute(t.dues))
  {
    var u := NextMinute(t.dues);
    forall i | 0 <= i < |u.dues| ensures DueOk(d, u.dues[i]) {
      assert DueOk(d, t.dues[i]);
    }
  }

  lemma BreakOk(d: DB, t: Task)
    requires t.dues != [] && forall i :: 0 <= i < |t.dues| ==> DueOk(d, t.dues[i])
    ensures Ok(d, Break(t.dues))
  {
  }

  lemma RateInRange(d: DB, override: Option<real>, model: Id)
    requires ValidConfig(d.cfg) && (override.Some? ==> TakeRate.IsRate(override.value))
    ensures TakeRate.IsRate(TakeRate.ResolveTakeRate(override, TierRate(d.cfg.tiers, GrossEarned(d.ledger, model))))
  {
    var i := Ranking.LastReached(GrossEarned(d.ledger, model) as real / 100.0, d.cfg.tiers);
    assert TakeRate.IsRate(d.cfg.tiers[i].rate);
  }

  lemma PostedIsBilled(d: DB, call: Id, minute: nat)
    requires MinutesOk(d.ledger, d.calls) && call in d.calls && minute >= 1
    ensures CallMinute(call, minute) in Posted(d.ledger) <==> minute <= d.calls[call].billed
  {
  }

  /** A minute about to be posted is exactly the one after the cursor. */
  lemma PricedMinuteIsNext(d: DB, t: Task)
    requires DbInv(d) && Ok(d, t) && t.phase.Priced?
    ensures t.dues[0].next == d.calls[t.dues[0].call].billed + 1
  {
    assert DueOk(d, t.dues[0]);
    hide DbInv, Sum, Posted;
    PostedIsBilled(d, t.dues[0].call, t.dues[0].next);
  }

  lemma PostKeeps(d: DB, t: Task)
    requires DbInv(d) && Ok(d, t) && t.phase.Priced?
    ensures var e := Charge(d, t);
      DbInv(e.db) && Guarantee(d, e.db, Holds(t)) && Ok(e.db, e.task)
  {
    assert d.cfg.tiers != [];
    hide DbInv, Guarantee, Posted, Sum, TakeRate.ComputeSplit;
    var due, p := t.dues[0], t.phase;
    assert DueOk(d, due);
    PricedMinuteIsNext(d, t);
    PriceNotNegative(d, due.call);
    TakeRate.CommissionWithinPrice(p.row.price, p.rate);
    PostMinuteKeeps(d, due.call, due.next, p.row, TakeRate.ComputeSplit(p.row.price, p.rate).commission);
    var d' := Charge(d, t).db;
    DuesStable(d, d', Holds(t), t.dues);
    NextMinuteOk(d', t);
  }

  lemma PriceNotNegative(d: DB, call: Id)
    requires DbInv(d) && call in d.calls
    ensures d.calls[call].price >= 0
  {
    assert CallOk(d.calls[call], d.now, call in d.reopened);
  }

  lemma CallEnded(d: DB, call: Id, keys: set<Key>)
    requires DbInv(d)
    ensures var d' := Close(d, call, {Active}, NoCredits);
      DbInv(d') && Guarantee(d, d', keys)
  {
    hide DbInv, Guarantee, Close;
    CloseKeeps(d, call, {Active}, NoCredits);
    MoreKeys(d, Close(d, call, {Active}, NoCredits), {}, keys);
  }

  lemma EndKeeps(d: DB, t: Task)
    requires DbInv(d) && Ok(d, t) && d.cfg.tiers != []
    requires t.phase.Funded? && t.phase.balance < t.phase.row.price
    ensures var e := Charge(d, t);
      DbInv(e.db) && Guarantee(d, e.db, Holds(t)) && Ok(e.db, e.task)
  {
    hide DbInv, Guarantee, DueOk, PhaseOk, Close;
    var d' := Close(d, t.dues[0].call, {Active}, NoCredits);
    CallEnded(d, t.dues[0].call, Holds(t));
    DuesStable(d, d', Holds(t), t.dues);
    BreakOk(d', t);
  }

  /** A statement of chargeMinute that writes nothing. */
  lemma ReadKeeps(d: DB, t: Task)
    requires DbInv(d) && Ok(d, t) && InLoop(t.phase) && !t.phase.Priced?
    requires t.phase.Funded? ==> t.phase.balance >= t.phase.row.price
    ensures Charge(d, t).db == d && Ok(d, Charge(d, t).task)
  {
    hide RechargesOk, PayoutsOk, Solvent, Sum, NoOverdraft, UniqueRefs, Posted, CallsInv, MinutesOk, GiftsOk;
    var due := t.dues[0];
    assert DueOk(d, due);
    PostedIsBilled(d, due.call, due.next);
    if t.phase.Profiled? { RateInRange(d, t.phase.override, t.phase.row.model); }
    if t.phase.Fresh? && CallMinute(due.call, due.next) in Posted(d.ledger) {
      NextMinuteOk(d, t);
    } else if t.phase.Unposted? && t.phase.row.status != Active {
      NextMinuteOk(d, t);
    }
  }

  /** Every statement keeps the database invariant, keeps its promise to the other workers, and
      leaves this worker with a true view. */
  lemma ActKeeps(d: DB, t: Task, o: Oracle)
    requires DbInv(d) && Ok(d, t) && CanAct(d, t, o)
    ensures var e := Act(d, t, o);
      DbInv(e.db) && Guarantee(d, e.db, Holds(t)) && Ok(e.db, e.task)
  {
    hide Guarantee, DueOk;
    if InLoop(t.phase) {
      if t.phase.Priced? {
        PostKeeps(d, t);
      } else if t.phase.Funded? && t.phase.balance < t.phase.row.price {
        EndKeeps(d, t);
      } else {
        ReadKeeps(d, t);
        NothingHappens(d, Holds(t));
      }
    } else {
      NothingHappens(d, Holds(t));
      if t.phase.Scan? {
        hide DbInv;
        ScanKeeps(d, t, o);
      }
    }
  }

  lemma ScanKeeps(d: DB, t: Task, o: Oracle)
    requires DbInv(d) && Ok(d, t) && CanAct(d, t, o) && t.phase.Scan?
    ensures Ok(d, Act(d, t, o).task)
  {
    DuesOk(d, o.ids, t.phase.now);
  }

  lemma FailedKeeps(d: DB, t: Task)
    requires Ok(d, t)
    ensures Ok(d, Failed(t)) && Holds(Failed(t)) == {}
  {
  }
}

/** Starting and accepting a call, statement by statement (src/calls/call.service.ts). */
module CallSteps {
  import opened Prelude
  import opened Tables
  import opened Ledger
  import opened Writes
  import opened Invariant
  import opened Steps

  datatype Phase =
    // initiate
    | WantClient                      // asking for the client's lock
    | WantModel                       // client's lock held, asking for the model's
    | BothLocked                      // about to look for an open call of the client
    | ClientFree                      // about to look up the model's user row and profile
    | Known(price: int)               // about to look for an open call of the model
    | ModelFree(price: int)           // about to read the model's presence
    | Online(price: int)              // about to read the balance
    | Affordable(price: int, balance: int)
    // accept
    | Reading                         // first read of the call
    | Waiting(client: Id)
    | Locked(client: Id)
    | Pending(client: Id, row: Call)  // re-read and still ringing; about to look for another active call
    | Alone(client: Id, row: Call)    // about to read the balance
    | Funded(client: Id, row: Call, balance: int)
    | TimedOut                        // outside the transaction: about to end the expired call
    | Unfunded                        // outside the transaction: about to end the call for lack of credits
    | Finished

  /** `call` is the call being accepted; a start creates its call last and leaves it empty. */
  datatype Task = Task(call: Id, client: Id, model: Id, phase: Phase)

  datatype Effect = Effect(db: DB, task: Task)

  ghost function Holds(t: Task): set<Key> {
    match t.phase
    case WantModel => {ClientKey(t.client)}
    case BothLocked => {ClientKey(t.client), ModelKey(t.model)}
    case ClientFree => {ClientKey(t.client), ModelKey(t.model)}
    case Known(_) => {ClientKey(t.client), ModelKey(t.model)}
    case ModelFree(_) => {ClientKey(t.client), ModelKey(t.model)}
    case Online(_) => {ClientKey(t.client), ModelKey(t.model)}
    case Affordable(_, _) => {ClientKey(t.client), ModelKey(t.model)}
    case Locked(c) => {ClientKey(c)}
    case Pending(c, _) => {ClientKey(c)}
    case Alone(c, _) => {ClientKey(c)}
    case Funded(c, _, _) => {ClientKey(c)}
    case _ => {}
  }

  ghost predicate OpenOfClient(d: DB, client: Id) {
    exists id :: IsOpen(d.calls, id) && d.calls[id].client == client
  }

  ghost predicate OpenOfModel(d: DB, model: Id) {
    exists id :: IsOpen(d.calls, id) && d.calls[id].model == model
  }

  ghost predicate OtherActive(d: DB, client: Id, call: Id) {
    exists id :: id in d.calls && d.calls[id].client == client && d.calls[id].status == Active && id != call
  }

  ghost predicate CanAct(d: DB, t: Task, o: Oracle) {
    && !t.phase.Finished?
    && (t.phase.Affordable? ==> o.id !in d.calls)
    && (t.phase.Funded? ==> t.call in d.calls)
  }

  ghost function Act(d: DB, t: Task, o: Oracle): Effect
    requires CanAct(d, t, o)
  {
    match t.phase
    case WantClient => Effect(d, t.(phase := WantModel))
    case WantModel => Effect(d, t.(phase := BothLocked))
    case BothLocked => Effect(d, t.(phase := if OpenOfClient(d, t.client) then Finished else ClientFree))
    case ClientFree =>
      Effect(d, t.(phase := if o.ok && t.model in d.profiles then Known(d.profiles[t.model].price) else Finished))
    case Known(price) => Effect(d, t.(phase := if OpenOfModel(d, t.model) then Finished else ModelFree(price)))
    case ModelFree(price) => Effect(d, t.(phase := if o.ok then Online(price) else Finished))
    case Online(price) => Effect(d, t.(phase := Affordable(price, Balance(d.ledger, Client(t.client)))))
    case Affordable(price, balance) =>
      Effect(if balance < price then d else OpenCall(d, o.id, t.client, t.model, price), t.(phase := Finished))
    case Reading =>
      Effect(d, t.(phase :=
        if t.call !in d.calls || d.calls[t.call].model != t.model then Finished
        else Waiting(d.calls[t.call].client)))
    case Waiting(client) => Effect(d, t.(phase := Locked(client)))
    case Locked(client) =>
      Effect(d, t.(phase :=
        if t.call !in d.calls || d.calls[t.call].status != Requested then Finished
        else if IsExpired(d.now, d.calls[t.call].requestedAt) then TimedOut
        else Pending(client, d.calls[t.call])))
    case Pending(client, row) =>
      Effect(d, t.(phase := if OtherActive(d, row.client, t.call) then Finished else Alone(client, row)))
    case Alone(client, row) => Effect(d, t.(phase := Funded(client, row, Balance(d.ledger, Client(row.client)))))
    case Funded(client, row, balance) =>
      if balance < row.price then Effect(d, t.(phase := Unfunded))
      else Effect(Activate(d, t.call), t.(phase := Finished))
    case TimedOut => Effect(Close(d, t.call, {Requested}, Timeout), t.(phase := Finished))
    case Unfunded => Effect(Close(d, t.call, {Requested}, NoCredits), t.(phase := Finished))
    case Finished => Effect(d, t)
  }

  // ------------------------------------------------------- the worker's view

  /** While the client's lock is held after the first check, no call of the client is open. */
  ghost predicate ClientHasNone(d: DB, client: Id) {
    forall id :: IsOpen(d.calls, id) ==> d.calls[id].client != client
  }

  /** While both locks are held after the second check, only reopened calls can be the model's. */
  ghost predicate ModelHasNone(d: DB, model: Id) {
    forall id :: IsOpen(d.calls, id) && d.calls[id].model == model ==> id in d.reopened
  }

  /** The call being accepted was not started, and no other call of its client is open, even if
      somebody has ended this one since it was re-read. */
  ghost predicate AcceptOk(d: DB, call: Id, client: Id, row: Call) {
    && call in d.calls
    && var c := d.calls[call];
    && client == c.client == row.client && row.price == c.price && row.model == c.model
    && row.status == Requested && c.startedAt.None?
    && forall id :: IsOpen(d.calls, id) && d.calls[id].client == client ==> id == call
  }

  ghost predicate Ok(d: DB, t: Task) {
    match t.phase
    case ClientFree => ClientHasNone(d, t.client)
    case Known(price) => price >= 0 && ClientHasNone(d, t.client)
    case ModelFree(price) => price >= 0 && ClientHasNone(d, t.client) && ModelHasNone(d, t.model)
    case Online(price) => price >= 0 && ClientHasNone(d, t.client) && ModelHasNone(d, t.model)
    case Affordable(price, balance) =>
      price >= 0 && ClientHasNone(d, t.client) && ModelHasNone(d, t.model) && balance <= Balance(d.ledger, Client(t.client))
    case Waiting(client) => t.call in d.calls && client == d.calls[t.call].client && t.model == d.calls[t.call].model
    case Locked(client) => t.call in d.calls && client == d.calls[t.call].client && t.model == d.calls[t.call].model
    case Pending(client, row) => AcceptOk(d, t.call, client, row) && t.model == row.model
    case Alone(client, row) => AcceptOk(d, t.call, client, row) && t.model == row.model
    case Funded(client, row, balance) =>
      AcceptOk(d, t.call, client, row) && t.model == row.model && balance <= Balance(d.ledger, Client(client))
    case TimedOut =>
      t.call in d.calls && t.model == d.calls[t.call].model && IsExpired(d.now, d.calls[t.call].requestedAt)
    case Unfunded => t.call in d.calls && t.model == d.calls[t.call].model
    case _ => true
  }

  // ------------------------------------------------------------------ proofs

  /** Nobody can open or reopen a call of a client whose lock is held by someone else. */
  lemma OpenCallsShrink(d: DB, d': DB, keys: set<Key>, client: Id, id: Id)
    requires Guarantee(d, d', keys) && ClientKey(client) !in keys
    requires IsOpen(d'.calls, id) && d'.calls[id].client == client
    ensures IsOpen(d.calls, id) && d.calls[id].client == client
  {
  }

  lemma ClientStable(d: DB, d': DB, keys: set<Key>, client: Id)
    requires Guarantee(d, d', keys) && ClientKey(client) !in keys && ClientHasNone(d, client)
    ensures ClientHasNone(d', client)
  {
    forall id | IsOpen(d'.calls, id) && d'.calls[id].client == client ensures false {
      OpenCallsShrink(d, d', keys, client, id);
    }
  }

  lemma ModelStable(d: DB, d': DB, keys: set<Key>, model: Id)
    requires Guarantee(d, d', keys) && ModelKey(model) !in keys && ModelHasNone(d, model)
    ensures ModelHasNone(d', model)
  {
    hide MinutesStep, MoneyStep, RechargesStep, PayoutsStep;
    forall id | IsOpen(d'.calls, id) && d'.calls[id].model == model ensures id in d'.reopened {
      assert id in d'.reopened || IsOpen(d.calls, id);
    }
  }

  lemma AcceptStable(d: DB, d': DB, keys: set<Key>, call: Id, client: Id, row: Call)
    requires Guarantee(d, d', keys) && ClientKey(client) !in keys && AcceptOk(d, call, client, row)
    ensures AcceptOk(d', call, client, row)
  {
    forall id | IsOpen(d'.calls, id) && d'.calls[id].client == client ensures id == call {
      OpenCallsShrink(d, d', keys, client, id);
    }
  }

  lemma BalanceStable(d: DB, d': DB, keys: set<Key>, client: Id)
    requires Guarantee(d, d', keys) && ClientKey(client) !in keys
    ensures Balance(d'.ledger, Client(client)) >= Balance(d.ledger, Client(client))
  {
  }

  lemma RowStays(d: DB, d': DB, keys: set<Key>, call: Id)
    requires Guarantee(d, d', keys) && call in d.calls
    ensures call in d'.calls && d'.calls[call].client == d.calls[call].client && d'.calls[call].model == d.calls[call].model
    ensures d'.calls[call].requestedAt == d.calls[call].requestedAt && d.now <= d'.now
  {
  }

  lemma Stable(d: DB, d': DB, keys: set<Key>, t: Task)
    requires Ok(d, t) && Guarantee(d, d', keys) && Holds(t) !! keys
    ensures Ok(d', t)
  {
    hide Guarantee, ClientHasNone, ModelHasNone, AcceptOk, Sum;
    match t.phase {
      case ClientFree => ClientStable(d, d', keys, t.client);
      case Known(_) => ClientStable(d, d', keys, t.client);
      case ModelFree(_) => ClientStable(d, d', keys, t.client); ModelStable(d, d', keys, t.model);
      case Online(_) => ClientStable(d, d', keys, t.client); ModelStable(d, d', keys, t.model);
      case Affordable(_, _) =>
        ClientStable(d, d', keys, t.client);
        ModelStable(d, d', keys, t.model);
        BalanceStable(d, d', keys, t.client);
      case Waiting(_) => RowStays(d, d', keys, t.call);
      case Locked(_) => RowStays(d, d', keys, t.call);
      case Pending(client, row) => AcceptStable(d, d', keys, t.call, client, row);
      case Alone(client, row) => AcceptStable(d, d', keys, t.call, client, row);
      case Funded(client, row, _) =>
        AcceptStable(d, d', keys, t.call, client, row);
        BalanceStable(d, d', keys, client);
      case TimedOut => RowStays(d, d', keys, t.call);
      case Unfunded => RowStays(d, d', keys, t.call);
      case _ =>
    }
  }

  /** The re-read row is ringing: its client has no other open call. */
  lemma RingingAlone(d: DB, call: Id)
    requires CallsInv(d.calls, d.reopened, d.now) && call in d.calls && d.calls[call].status == Requested
    ensures AcceptOk(d, call, d.calls[call].client, d.calls[call])
  {
    assert CallOk(d.calls[call], d.now, call in d.reopened);
    assert IsOpen(d.calls, call);
  }

  /** The conflict that `accept` tests for cannot arise, whatever other workers do meanwhile. */
  lemma NoOtherActive(d: DB, t: Task)
    requires Ok(d, t) && t.phase.Pending?
    ensures !OtherActive(d, t.phase.row.client, t.call)
  {
    forall id | id in d.calls && d.calls[id].client == t.phase.row.client && d.calls[id].status == Active && id != t.call
      ensures false
    {
      assert IsOpen(d.calls, id);
    }
  }

  lemma NoneOpen(d: DB, client: Id)
    requires !OpenOfClient(d, client)
    ensures ClientHasNone(d, client)
  {
  }

  lemma StartReads(d: DB, t: Task, o: Oracle)
    requires ProfilesOk(d.profiles) && Ok(d, t) && CanAct(d, t, o)
    requires t.phase.WantClient? || t.phase.WantModel? || t.phase.BothLocked? || t.phase.ClientFree? || t.phase.Known?
      || t.phase.ModelFree? || t.phase.Online?
    ensures Act(d, t, o).db == d && Ok(d, Act(d, t, o).task)
  {
    hide Sum, ClientHasNone;
    if t.phase.ClientFree? && t.model in d.profiles { assert ValidProfile(d.profiles[t.model]); }
    if t.phase.BothLocked? && !OpenOfClient(d, t.client) { NoneOpen(d, t.client); }
  }

  lemma AcceptReads(d: DB, t: Task, o: Oracle)
    requires CallsInv(d.calls, d.reopened, d.now) && Ok(d, t) && CanAct(d, t, o)
    requires t.phase.Reading? || t.phase.Waiting? || t.phase.Locked? || t.phase.Pending? || t.phase.Alone?
    ensures Act(d, t, o).db == d && Ok(d, Act(d, t, o).task)
  {
    if t.phase.Locked? && t.call in d.calls && d.calls[t.call].status == Requested { RingingAlone(d, t.call); }
    hide CallsInv, AcceptOk;
  }

  lemma CloseForAll(d: DB, t: Task, from: set<CallStatus>, reason: EndReason)
    requires DbInv(d) && from <= NOT_ENDED
    requires reason == Timeout ==> t.call in d.calls && IsExpired(d.now, d.calls[t.call].requestedAt)
    requires reason == Timeout || reason == Rejected ==> from == {Requested}
    ensures var d' := Close(d, t.call, from, reason);
      DbInv(d') && Guarantee(d, d', Holds(t))
  {
    hide DbInv, Guarantee, Close;
    CloseKeeps(d, t.call, from, reason);
    MoreKeys(d, Close(d, t.call, from, reason), {}, Holds(t));
  }

  lemma StartCommits(d: DB, t: Task, o: Oracle)
    requires DbInv(d) && Ok(d, t) && CanAct(d, t, o) && t.phase.Affordable?
    ensures var e := Act(d, t, o);
      DbInv(e.db) && Guarantee(d, e.db, Holds(t)) && Ok(e.db, e.task)
  {
    hide DbInv, Guarantee, OpenCall, Sum;
    if t.phase.balance < t.phase.price {
      NothingHappens(d, Holds(t));
    } else {
      OpenCallKeeps(d, o.id, t.client, t.model, t.phase.price);
    }
  }

  lemma AcceptCommits(d: DB, t: Task, o: Oracle)
    requires DbInv(d) && Ok(d, t) && CanAct(d, t, o) && t.phase.Funded?
    ensures var e := Act(d, t, o);
      DbInv(e.db) && Guarantee(d, e.db, Holds(t)) && Ok(e.db, e.task)
  {
    hide DbInv, Guarantee, Activate, Sum;
    if t.phase.balance < t.phase.row.price {
      NothingHappens(d, Holds(t));
    } else {
      ActivateKeeps(d, t.call);
    }
  }

  predicate MayWrite(p: Phase) {
    p.Affordable? || p.Funded? || p.TimedOut? || p.Unfunded?
  }

  lemma ReadsKeep(d: DB, t: Task, o: Oracle)
    requires DbInv(d) && Ok(d, t) && CanAct(d, t, o) && !MayWrite(t.phase)
    ensures var e := Act(d, t, o);
      e.db == d && Guarantee(d, d, Holds(t)) && Ok(d, e.task)
  {
    assert CallsInv(d.calls, d.reopened, d.now) && ProfilesOk(d.profiles);
    hide DbInv, Guarantee, CallsInv, ProfilesOk, Ok, Act;
    NothingHappens(d, Holds(t));
    if t.phase.Reading? || t.phase.Waiting? || t.phase.Locked? || t.phase.Pending? || t.phase.Alone? {
      AcceptReads(d, t, o);
    } else {
      StartReads(d, t, o);
    }
  }

  lemma ActKeeps(d: DB, t: Task, o: Oracle)
    requires DbInv(d) && Ok(d, t) && CanAct(d, t, o)
    ensures var e := Act(d, t, o);
      DbInv(e.db) && Guarantee(d, e.db, Holds(t)) && Ok(e.db, e.task)
  {
    hide DbInv, Guarantee, Close, Activate, OpenCall, Sum, Holds;
    if t.phase.Affordable? {
      StartCommits(d, t, o);
    } else if t.phase.Funded? {
      AcceptCommits(d, t, o);
    } else if t.phase.TimedOut? {
      CloseForAll(d, t, {Requested}, Timeout);
    } else if t.phase.Unfunded? {
      CloseForAll(d, t, {Requested}, NoCredits);
    } else {
      hide Act, Ok;
      ReadsKeep(d, t, o);
    }
  }
}

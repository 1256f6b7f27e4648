/** What every committed state satisfies, and what one worker promises the others. */
module Invariant {
  import opened Prelude
  import opened Tables
  import opened Ledger
  import opened Writes
  import Totals

  // ------------------------------------------------------------------- locks

  /** The keys a worker can own: the advisory locks, and the private knowledge of a fresh
      recharge id, which nobody else learns until the creation has finished. */
  datatype Key = ClientKey(user: Id) | ModelKey(user: Id) | AccountKey(user: Id) | FreshRecharge(recharge: Id)

  // ------------------------------------------------------------ the invariant

  ghost predicate CallOk(c: Call, now: int, reopened: bool) {
    && c.price >= 0
    && c.requestedAt <= now
    && (c.status == Requested ==> c.startedAt.None?)
    && (c.status == Active ==> c.startedAt.Some?)
    && (c.startedAt.None? ==> c.billed == 0)
    && (c.startedAt.Some? ==> c.startedAt.value <= now && c.billed <= DueMinute(now, c.startedAt.value))
    && (c.endReason.Some? <==> c.endedAt.Some?)
    && (c.endReason == Some(Timeout) ==> c.endedAt.value - c.requestedAt > RING_TIMEOUT_MS)
    && (if reopened
        then c.startedAt.Some? && c.endReason.Some?
        else
          && (c.endReason.Some? <==> c.status == Ended)
          && (c.endReason == Some(Timeout) || c.endReason == Some(Rejected) ==> c.startedAt.None?))
  }

  type Calls = map<Id, Call>

  ghost predicate CallsOk(calls: Calls, reopened: set<Id>, now: int) {
    && reopened <= calls.Keys
    && forall id :: id in calls ==> CallOk(calls[id], now, id in reopened)
  }

  predicate IsOpen(calls: Calls, id: Id) {
    id in calls && calls[id].status != Ended
  }

  ghost predicate OneOpenPerClient(calls: Calls) {
    forall i, j :: IsOpen(calls, i) && IsOpen(calls, j) && calls[i].client == calls[j].client ==> i == j
  }

  /** Two open calls of one model can only be explained by a call that was reopened. */
  ghost predicate OneOpenPerModel(calls: Calls, reopened: set<Id>) {
    forall i, j :: IsOpen(calls, i) && IsOpen(calls, j) && calls[i].model == calls[j].model ==>
      i == j || i in reopened || j in reopened
  }

  ghost predicate CallsInv(calls: Calls, reopened: set<Id>, now: int) {
    CallsOk(calls, reopened, now) && OneOpenPerClient(calls) && OneOpenPerModel(calls, reopened)
  }

  /** The posted minutes of a call are exactly 1..billed, and its client paid exactly for them. */
  ghost predicate MinutesOk(l: seq<Entry>, calls: map<Id, Call>) {
    && (forall id, n: nat :: CallMinute(id, n) in Posted(l) <==> id in calls && 1 <= n <= calls[id].billed)
    && (forall id :: id in calls ==>
          Sum(l, MinutesOf(id, Client(calls[id].client))) == -(calls[id].billed * calls[id].price))
    && (forall id, a :: id !in calls ==> Sum(l, MinutesOf(id, a)) == 0)
  }

  ghost predicate NoOverdraft(l: seq<Entry>) {
    && (forall u :: Balance(l, Client(u)) >= 0)
    && (forall u :: Balance(l, Model(u)) >= 0)
  }

  ghost predicate GiftsOk(l: seq<Entry>, gifts: map<Id, Gift>) {
    forall g :: GiftSent(g) in Posted(l) <==> g in gifts
  }

  /** PAID is credited, and a credited recharge is PAID, or FAILED if that overwrote PAID. */
  ghost predicate RechargeOk(l: seq<Entry>, id: Id, r: Recharge) {
    && r.amount >= 0
    && (r.expiresAt.Some? ==> r.chargeId.Some?)
    && (r.status == RechargeCredited ==> RechargePaid(id) in Posted(l))
    && (RechargePaid(id) in Posted(l) ==> r.chargeId.Some? && (r.status == RechargeCredited || r.status == RechargeFailed))
    && Sum(l, RechargeOf(id, Client(r.user))) == if RechargePaid(id) in Posted(l) then r.amount else 0
  }

  ghost predicate RechargesOk(l: seq<Entry>, recharges: map<Id, Recharge>) {
    && (forall id :: id in recharges ==> RechargeOk(l, id, recharges[id]))
    && (forall id :: RechargePaid(id) in Posted(l) ==> id in recharges)
    && (forall id, a :: id !in recharges ==> Sum(l, RechargeOf(id, a)) == 0)
  }

  ghost predicate PayoutOk(l: seq<Entry>, id: Id, p: Payout, approved: set<Id>) {
    && p.amount >= 0
    && p.model in approved
    && (p.status == PayoutPending ==> p.processingAt.None?)
    && (p.status == PayoutProcessing ==> p.processingAt.Some?)
    && PayoutAsked(id) in Posted(l)
    && Sum(l, PayoutOf(id, Model(p.model))) == if PayoutReversed(id) in Posted(l) then 0 else -p.amount
  }

  ghost predicate PayoutsOk(l: seq<Entry>, payouts: map<Id, Payout>, approved: set<Id>) {
    && (forall id :: id in payouts ==> PayoutOk(l, id, payouts[id], approved))
    && (forall id :: PayoutAsked(id) in Posted(l) ==> id in payouts)
    && (forall id :: PayoutReversed(id) in Posted(l) ==> id in payouts)
    && (forall id, a :: id !in payouts ==> Sum(l, PayoutOf(id, a)) == 0)
  }

  /** The amount of every recharge row whose credit is posted. */
  ghost function Credits(l: seq<Entry>, recharges: map<Id, Recharge>): map<Id, int> {
    map id | id in recharges :: if RechargePaid(id) in Posted(l) then recharges[id].amount else 0
  }

  /** The amount of every payout row whose reversal is not posted. */
  ghost function Outstanding(l: seq<Entry>, payouts: map<Id, Payout>): map<Id, int> {
    map id | id in payouts :: if PayoutReversed(id) in Posted(l) then 0 else payouts[id].amount
  }

  /** The ledger adds up to zero, and what clients, models and the platform hold together is
      what was credited minus what was paid out. */
  ghost predicate Solvent(l: seq<Entry>, recharges: map<Id, Recharge>, payouts: map<Id, Payout>) {
    && Sum(l, Everything) == 0
    && Sum(l, Internal) == Totals.MapSum(Credits(l, recharges)) - Totals.MapSum(Outstanding(l, payouts))
  }

  ghost predicate ProfilesOk(profiles: map<Id, Profile>) {
    forall m :: m in profiles ==> ValidProfile(profiles[m])
  }

  /** EXPIRED ones are overdue. */
  ghost predicate ExpiriesOk(recharges: map<Id, Recharge>, now: int) {
    forall id :: id in recharges && recharges[id].status == RechargeExpired ==>
      recharges[id].expiresAt.Some? && recharges[id].expiresAt.value < now
  }

  ghost predicate DbInv(d: DB) {
    && ValidConfig(d.cfg) && ProfilesOk(d.profiles)
    && UniqueRefs(d.ledger)
    && CallsInv(d.calls, d.reopened, d.now)
    && MinutesOk(d.ledger, d.calls)
    && NoOverdraft(d.ledger)
    && GiftsOk(d.ledger, d.gifts)
    && RechargesOk(d.ledger, d.recharges) && ExpiriesOk(d.recharges, d.now)
    && PayoutsOk(d.ledger, d.payouts, d.approved)
    && Solvent(d.ledger, d.recharges, d.payouts)
  }

  // ------------------------------------------------------------ the guarantee

  /** How a call row may change under a step that owns, or does not own, its client's lock. */
  ghost predicate CallStep(c: Call, c': Call, owned: bool) {
    && c'.client == c.client && c'.model == c.model && c'.price == c.price && c'.requestedAt == c.requestedAt
    && c'.billed >= c.billed
    && (c.startedAt.Some? ==> c'.startedAt == c.startedAt && c'.status != Requested)
    && (c.startedAt.Some? && c.status == Ended ==> c'.status == Ended)
    && (!owned ==> c'.startedAt == c.startedAt && c'.billed == c.billed && (c'.status == c.status || c'.status == Ended))
  }

  ghost predicate CallsStep(calls: Calls, reopened: set<Id>, calls': Calls, reopened': set<Id>, keys: set<Key>) {
    && (forall id :: id in calls ==>
          id in calls' && CallStep(calls[id], calls'[id], ClientKey(calls[id].client) in keys))
    && (forall id :: id in calls' && id !in calls ==> ClientKey(calls'[id].client) in keys)
    && reopened <= reopened'
    && (forall id :: IsOpen(calls', id) && id !in reopened' && ModelKey(calls'[id].model) !in keys ==> IsOpen(calls, id))
  }

  /** Minutes of a call are posted only by the owner of its client's lock. */
  ghost predicate MinutesStep(l: seq<Entry>, l': seq<Entry>, calls: Calls, keys: set<Key>) {
    forall id, n: nat :: CallMinute(id, n) in Posted(l') && CallMinute(id, n) !in Posted(l) ==>
      id in calls && ClientKey(calls[id].client) in keys
  }

  /** A balance falls only under its lock; the platform's never falls; rows are only added. */
  ghost predicate MoneyStep(l: seq<Entry>, l': seq<Entry>, keys: set<Key>) {
    && l <= l'
    && (forall u :: ClientKey(u) !in keys ==> Balance(l', Client(u)) >= Balance(l, Client(u)))
    && (forall u :: AccountKey(u) !in keys ==> Balance(l', Model(u)) >= Balance(l, Model(u)))
    && Balance(l', Platform) >= Balance(l, Platform)
  }

  ghost predicate RechargeStep(r: Recharge, r': Recharge, owned: bool) {
    && r'.user == r.user && r'.amount == r.amount
    && (r.status != RechargePending ==> r'.status == r.status || r'.status == RechargeFailed)
    && (r.chargeId.Some? ==> r'.chargeId == r.chargeId)
    && (!owned && r.chargeId.None? ==> r' == r)
  }

  ghost predicate RechargesStep(rows: map<Id, Recharge>, rows': map<Id, Recharge>, keys: set<Key>) {
    && (forall id :: id in rows ==>
          id in rows' && RechargeStep(rows[id], rows'[id], FreshRecharge(id) in keys))
    && (forall id :: id in rows' && id !in rows ==> FreshRecharge(id) in keys)
  }

  ghost predicate PayoutsStep(rows: map<Id, Payout>, rows': map<Id, Payout>) {
    forall id :: id in rows ==> id in rows' && rows'[id].model == rows[id].model && rows'[id].amount == rows[id].amount
  }

  /** Everything a step of a worker that owns `keys` promises to all other workers. */
  ghost predicate Guarantee(d: DB, d': DB, keys: set<Key>) {
    && d'.cfg == d.cfg && d.now <= d'.now && d.approved <= d'.approved
    && CallsStep(d.calls, d.reopened, d'.calls, d'.reopened, keys)
    && MinutesStep(d.ledger, d'.ledger, d.calls, keys)
    && MoneyStep(d.ledger, d'.ledger, keys)
    && RechargesStep(d.recharges, d'.recharges, keys)
    && PayoutsStep(d.payouts, d'.payouts)
  }

  lemma NothingHappens(d: DB, keys: set<Key>)
    requires DbInv(d)
    ensures Guarantee(d, d, keys)
  {
  }

  // ---------------------------------------------------------------- postings

  datatype Move = Move(account: Account, amount: int)

  /** The ledger gains one new group that moves the given amounts. */
  ghost predicate IsPosting(l: seq<Entry>, l': seq<Entry>, g: Group, x: Move, y: Move, z: Move) {
    && l <= l'
    && UniqueRefs(l') && Posted(l') == Posted(l) + {g}
    && x.amount + y.amount + z.amount == 0
    && forall f: Filter :: Sum(l', f) == Sum(l, f)
         + f.Part(x.account, x.amount, g) + f.Part(y.account, y.amount, g) + f.Part(z.account, z.amount, g)
  }

  lemma ThreeLinesPosted(l: seq<Entry>, g: Group, x: Line, y: Line, z: Line)
    requires UniqueRefs(l) && g !in Posted(l) && x.amount + y.amount + z.amount == 0
    ensures IsPosting(l, l + Rows(g, [x, y, z]), g,
      Move(x.account, x.amount), Move(y.account, y.amount), Move(z.account, z.amount))
  {
    PostKeepsUnique(l, g, [x, y, z]);
    forall f: Filter { SumOfThree(l, g, x, y, z, f); }
  }

  lemma TwoLinesPosted(l: seq<Entry>, g: Group, x: Line, y: Line)
    requires UniqueRefs(l) && g !in Posted(l) && x.amount + y.amount == 0
    ensures IsPosting(l, l + Rows(g, [x, y]), g,
      Move(x.account, x.amount), Move(y.account, y.amount), Move(External, 0))
  {
    PostKeepsUnique(l, g, [x, y]);
    forall f: Filter { SumOfTwo(l, g, x, y, f); }
  }

  lemma OtherMinutes(l: seq<Entry>, l': seq<Entry>, g: Group, x: Move, y: Move, z: Move, calls: Calls)
    requires IsPosting(l, l', g, x, y, z) && !g.CallMinute? && MinutesOk(l, calls)
    ensures MinutesOk(l', calls)
  {
  }

  lemma OtherRecharges(l: seq<Entry>, l': seq<Entry>, g: Group, x: Move, y: Move, z: Move, rows: map<Id, Recharge>)
    requires IsPosting(l, l', g, x, y, z) && !g.RechargePaid? && RechargesOk(l, rows)
    ensures RechargesOk(l', rows)
  {
  }

  lemma OtherPayouts(l: seq<Entry>, l': seq<Entry>, g: Group, x: Move, y: Move, z: Move, rows: map<Id, Payout>, approved: set<Id>)
    requires IsPosting(l, l', g, x, y, z) && !g.PayoutAsked? && !g.PayoutReversed? && PayoutsOk(l, rows, approved)
    ensures PayoutsOk(l', rows, approved)
  {
    assert forall id, a :: Sum(l', PayoutOf(id, a)) == Sum(l, PayoutOf(id, a));
    hide Sum, Filter.Part;
    forall id | id in rows ensures PayoutOk(l', id, rows[id], approved) {
      assert PayoutOk(l, id, rows[id], approved);
    }
  }

  lemma OutstandingUnchanged(l: seq<Entry>, l': seq<Entry>, g: Group, rows: map<Id, Payout>)
    requires Posted(l') == Posted(l) + {g} && !g.PayoutReversed?
    ensures Outstanding(l', rows) == Outstanding(l, rows)
  {
  }

  lemma CreditsUnchanged(l: seq<Entry>, l': seq<Entry>, g: Group, rows: map<Id, Recharge>)
    requires Posted(l') == Posted(l) + {g} && !g.RechargePaid?
    ensures Credits(l', rows) == Credits(l, rows)
  {
  }

  // ------------------------------------------------------------------- sales

  lemma SaleMoney(l: seq<Entry>, l': seq<Entry>, g: Group, client: Id, model: Id, price: int, commission: int)
    requires IsPosting(l, l', g, Move(Client(client), -price), Move(Model(model), price - commission), Move(Platform, commission))
    requires NoOverdraft(l) && 0 <= commission <= price <= Balance(l, Client(client))
    ensures NoOverdraft(l') && MoneyStep(l, l', {ClientKey(client)})
    ensures Sum(l', Internal) == Sum(l, Internal) && Sum(l', Everything) == Sum(l, Everything)
  {
  }

  /** A sale under a minute's or a gift's group keeps everything that is not about that group. */
  lemma SaleKeepsRest(d: DB, l': seq<Entry>, g: Group, client: Id, model: Id, price: int, commission: int)
    requires IsPosting(d.ledger, l', g, Move(Client(client), -price), Move(Model(model), price - commission), Move(Platform, commission))
    requires DbInv(d) && (g.CallMinute? || g.GiftSent?)
    requires 0 <= commission <= price <= Balance(d.ledger, Client(client))
    ensures NoOverdraft(l') && MoneyStep(d.ledger, l', {ClientKey(client)})
    ensures RechargesOk(l', d.recharges) && PayoutsOk(l', d.payouts, d.approved)
    ensures Solvent(l', d.recharges, d.payouts)
  {
    hide MinutesOk, CallsInv, RechargesOk, PayoutsOk, UniqueRefs, NoOverdraft, MoneyStep, GiftsOk, ProfilesOk;
    var x, y, z := Move(Client(client), -price), Move(Model(model), price - commission), Move(Platform, commission);
    SaleMoney(d.ledger, l', g, client, model, price, commission);
    OtherRecharges(d.ledger, l', g, x, y, z, d.recharges);
    OtherPayouts(d.ledger, l', g, x, y, z, d.payouts, d.approved);
    OutstandingUnchanged(d.ledger, l', g, d.payouts);
    CreditsUnchanged(d.ledger, l', g, d.recharges);
  }

  lemma MinutePosted(l: seq<Entry>, l': seq<Entry>, calls: Calls, call: Id, minute: nat, model: Id, commission: int)
    requires call in calls && minute == calls[call].billed + 1 && MinutesOk(l, calls)
    requires var c := calls[call];
      IsPosting(l, l', CallMinute(call, minute), Move(Client(c.client), -c.price), Move(Model(model), c.price - commission), Move(Platform, commission))
    ensures var c := calls[call];
      MinutesOk(l', calls[call := c.(billed := c.billed + 1)]) && MinutesStep(l, l', calls, {ClientKey(c.client)})
  {
    hide IsPosting, Sum;
    var c := calls[call];
    MinuteSums(l, l', call, minute, c.client, model, c.price, commission);
    MinuteCounted(l, l', calls, call, minute);
  }

  lemma MinuteCounted(l: seq<Entry>, l': seq<Entry>, calls: Calls, call: Id, minute: nat)
    requires call in calls && minute == calls[call].billed + 1 && MinutesOk(l, calls)
    requires Posted(l') == Posted(l) + {CallMinute(call, minute)}
    requires forall id, a :: id != call ==> Sum(l', MinutesOf(id, a)) == Sum(l, MinutesOf(id, a))
    requires var a := Client(calls[call].client);
      Sum(l', MinutesOf(call, a)) == Sum(l, MinutesOf(call, a)) - calls[call].price
    ensures var c := calls[call];
      MinutesOk(l', calls[call := c.(billed := c.billed + 1)]) && MinutesStep(l, l', calls, {ClientKey(c.client)})
  {
    hide Sum, Posted;
    var c := calls[call];
    assert (c.billed + 1) * c.price == c.billed * c.price + c.price;
    assert Sum(l, MinutesOf(call, Client(c.client))) == -(c.billed * c.price);
  }

  /** A posting about a minute of one call changes that call's sums only. */
  lemma MinuteSums(l: seq<Entry>, l': seq<Entry>, call: Id, minute: nat, client: Id, model: Id, price: int, commission: int)
    requires IsPosting(l, l', CallMinute(call, minute), Move(Client(client), -price), Move(Model(model), price - commission), Move(Platform, commission))
    ensures forall id, a :: id != call ==> Sum(l', MinutesOf(id, a)) == Sum(l, MinutesOf(id, a))
    ensures Sum(l', MinutesOf(call, Client(client))) == Sum(l, MinutesOf(call, Client(client))) - price
    ensures Posted(l') == Posted(l) + {CallMinute(call, minute)}
  {
  }

  lemma RowIsOk(calls: Calls, reopened: set<Id>, now: int, call: Id)
    requires CallsInv(calls, reopened, now) && call in calls
    ensures CallOk(calls[call], now, call in reopened)
  {
  }

  lemma CursorMoves(calls: Calls, reopened: set<Id>, now: int, call: Id)
    requires CallsInv(calls, reopened, now) && call in calls && calls[call].startedAt.Some?
    requires calls[call].billed < DueMinute(now, calls[call].startedAt.value)
    ensures var c := calls[call];
      var calls' := calls[call := c.(billed := c.billed + 1)];
      CallsInv(calls', reopened, now) && CallsStep(calls, reopened, calls', reopened, {ClientKey(c.client)})
  {
    hide CallsInv, CallsStep, DueMinute;
    var c := calls[call];
    RowIsOk(calls, reopened, now, call);
    RowRewritten(calls, reopened, now, call, c.(billed := c.billed + 1), reopened, {ClientKey(c.client)});
  }

  lemma CallsUnchanged(calls: Calls, reopened: set<Id>, now: int, keys: set<Key>)
    requires CallsInv(calls, reopened, now)
    ensures CallsStep(calls, reopened, calls, reopened, keys)
  {
    assert forall id :: id in calls ==> CallOk(calls[id], now, id in reopened);
  }

  lemma RowsUnchanged(recharges: map<Id, Recharge>, payouts: map<Id, Payout>, keys: set<Key>)
    ensures RechargesStep(recharges, recharges, keys) && PayoutsStep(payouts, payouts)
  {
  }

  lemma LedgerUnchanged(l: seq<Entry>, calls: Calls, keys: set<Key>)
    ensures MoneyStep(l, l, keys) && MinutesStep(l, l, calls, keys)
  {
  }

  lemma NextMinuteIsNew(l: seq<Entry>, calls: Calls, call: Id, minute: nat)
    requires MinutesOk(l, calls) && call in calls && minute > calls[call].billed
    ensures CallMinute(call, minute) !in Posted(l)
  {
  }

  lemma PostingBasics(l: seq<Entry>, l': seq<Entry>, g: Group, x: Move, y: Move, z: Move, gifts: map<Id, Gift>)
    requires IsPosting(l, l', g, x, y, z) && GiftsOk(l, gifts)
    ensures UniqueRefs(l') && (!g.GiftSent? ==> GiftsOk(l', gifts))
  {
  }

  lemma PostMinuteKeeps(d: DB, call: Id, minute: nat, row: Call, commission: int)
    requires DbInv(d) && call in d.calls
    requires row.client == d.calls[call].client && row.model == d.calls[call].model && row.price == d.calls[call].price
    requires d.calls[call].startedAt.Some? && minute == d.calls[call].billed + 1
    requires minute <= DueMinute(d.now, d.calls[call].startedAt.value)
    requires 0 <= commission <= row.price <= Balance(d.ledger, Client(row.client))
    ensures DbInv(PostMinute(d, call, minute, row, commission))
    ensures Guarantee(d, PostMinute(d, call, minute, row, commission), {ClientKey(row.client)})
  {
    hide MinutesOk, CallsInv, RechargesOk, PayoutsOk, NoOverdraft, Solvent, UniqueRefs, Sum, Rows, IsPosting;
    hide CallsStep, MinutesStep, MoneyStep, RechargesStep, PayoutsStep, GiftsOk, ProfilesOk, ValidConfig;
    var g := CallMinute(call, minute);
    var d' := PostMinute(d, call, minute, row, commission);
    var lines := MinuteLines(row.client, row.model, row.price, commission);
    NextMinuteIsNew(d.ledger, d.calls, call, minute);
    ThreeLinesPosted(d.ledger, g, lines[0], lines[1], lines[2]);
    PostingBasics(d.ledger, d'.ledger, g, Move(Client(row.client), -row.price), Move(Model(row.model), row.price - commission), Move(Platform, commission), d.gifts);
    MinutePosted(d.ledger, d'.ledger, d.calls, call, minute, row.model, commission);
    CursorMoves(d.calls, d.reopened, d.now, call);
    SaleKeepsRest(d, d'.ledger, g, row.client, row.model, row.price, commission);
    RowsUnchanged(d.recharges, d.payouts, {ClientKey(row.client)});
  }

  lemma PostGiftKeeps(d: DB, gift: Id, client: Id, model: Id, price: int, commission: int)
    requires DbInv(d) && gift !in d.gifts
    requires 0 <= commission <= price <= Balance(d.ledger, Client(client))
    ensures DbInv(PostGift(d, gift, client, model, price, commission))
    ensures Guarantee(d, PostGift(d, gift, client, model, price, commission), {ClientKey(client)})
  {
    hide MinutesOk, CallsInv, RechargesOk, PayoutsOk, NoOverdraft, Solvent, UniqueRefs, Sum, Rows, IsPosting;
    hide CallsStep, MinutesStep, MoneyStep, RechargesStep, PayoutsStep, GiftsOk, ProfilesOk, ValidConfig;
    var g := GiftSent(gift);
    var d' := PostGift(d, gift, client, model, price, commission);
    var x, y, z := Move(Client(client), -price), Move(Model(model), price - commission), Move(Platform, commission);
    var lines := GiftLines(client, model, price, commission);
    NewGiftIsNew(d.ledger, d.gifts, gift);
    ThreeLinesPosted(d.ledger, g, lines[0], lines[1], lines[2]);
    GiftPosted(d.ledger, d'.ledger, gift, x, y, z, d.gifts, d'.gifts);
    OtherMinutes(d.ledger, d'.ledger, g, x, y, z, d.calls);
    MinutesStayPut(d.ledger, d'.ledger, g, x, y, z, d.calls, {ClientKey(client)});
    SaleKeepsRest(d, d'.ledger, g, client, model, price, commission);
    CallsUnchanged(d.calls, d.reopened, d.now, {ClientKey(client)});
    RowsUnchanged(d.recharges, d.payouts, {ClientKey(client)});
  }

  lemma NewGiftIsNew(l: seq<Entry>, gifts: map<Id, Gift>, gift: Id)
    requires GiftsOk(l, gifts) && gift !in gifts
    ensures GiftSent(gift) !in Posted(l)
  {
  }

  lemma GiftPosted(l: seq<Entry>, l': seq<Entry>, gift: Id, x: Move, y: Move, z: Move, gifts: map<Id, Gift>, gifts': map<Id, Gift>)
    requires IsPosting(l, l', GiftSent(gift), x, y, z) && GiftsOk(l, gifts)
    requires gifts'.Keys == gifts.Keys + {gift}
    ensures UniqueRefs(l') && GiftsOk(l', gifts')
  {
  }

  lemma MinutesStayPut(l: seq<Entry>, l': seq<Entry>, g: Group, x: Move, y: Move, z: Move, calls: Calls, keys: set<Key>)
    requires IsPosting(l, l', g, x, y, z) && !g.CallMinute?
    ensures MinutesStep(l, l', calls, keys)
  {
  }

  // ------------------------------------------------------------------- calls

  /** A write that touches call rows only. */
  lemma CallsWriteKeeps(d: DB, calls: Calls, reopened: set<Id>, keys: set<Key>)
    requires DbInv(d) && CallsInv(calls, reopened, d.now) && MinutesOk(d.ledger, calls)
    requires CallsStep(d.calls, d.reopened, calls, reopened, keys)
    ensures DbInv(d.(calls := calls, reopened := reopened))
    ensures Guarantee(d, d.(calls := calls, reopened := reopened), keys)
  {
    hide MinutesOk, CallsInv, RechargesOk, PayoutsOk, NoOverdraft, Solvent, UniqueRefs, Sum;
    hide CallsStep, MinutesStep, MoneyStep, RechargesStep, PayoutsStep, GiftsOk, ProfilesOk, ValidConfig;
    RowsUnchanged(d.recharges, d.payouts, keys);
    LedgerUnchanged(d.ledger, d.calls, keys);
  }

  lemma NewRow(calls: Calls, reopened: set<Id>, now: int, call: Id, row: Call)
    requires CallsInv(calls, reopened, now) && call !in calls && CallOk(row, now, false)
    requires forall id :: IsOpen(calls, id) ==> calls[id].client != row.client
    requires forall id :: IsOpen(calls, id) && calls[id].model == row.model ==> id in reopened
    ensures CallsInv(calls[call := row], reopened, now)
    ensures CallsStep(calls, reopened, calls[call := row], reopened, {ClientKey(row.client), ModelKey(row.model)})
  {
    var calls' := calls[call := row];
    assert forall id :: id in calls ==> CallOk(calls[id], now, id in reopened);
    assert forall id :: IsOpen(calls', id) ==> id == call || IsOpen(calls, id);
  }

  lemma OpenCallKeeps(d: DB, call: Id, client: Id, model: Id, price: int)
    requires DbInv(d) && call !in d.calls && price >= 0
    requires forall id :: IsOpen(d.calls, id) ==> d.calls[id].client != client
    requires forall id :: IsOpen(d.calls, id) && d.calls[id].model == model ==> id in d.reopened
    ensures DbInv(OpenCall(d, call, client, model, price))
    ensures Guarantee(d, OpenCall(d, call, client, model, price), {ClientKey(client), ModelKey(model)})
  {
    hide MinutesOk, CallsInv, CallsStep, Guarantee;
    var d' := OpenCall(d, call, client, model, price);
    CallOutsideReopened(d.calls, d.reopened, d.now, call);
    NewRow(d.calls, d.reopened, d.now, call, d'.calls[call]);
    MinutesOfNewRow(d.ledger, d.calls, call, d'.calls[call]);
    CallsWriteKeeps(d, d'.calls, d'.reopened, {ClientKey(client), ModelKey(model)});
  }

  lemma MinutesOfNewRow(l: seq<Entry>, calls: Calls, call: Id, row: Call)
    requires MinutesOk(l, calls) && call !in calls && row.billed == 0
    ensures MinutesOk(l, calls[call := row])
  {
    assert row.billed * row.price == 0;
  }

  lemma CallOutsideReopened(calls: Calls, reopened: set<Id>, now: int, call: Id)
    requires CallsInv(calls, reopened, now) && call !in calls
    ensures call !in reopened
  {
  }

  /** Rewriting status and times of a row leaves its minutes and their price alone. */
  lemma MinutesOfRewrittenRow(l: seq<Entry>, calls: Calls, call: Id, row: Call)
    requires MinutesOk(l, calls) && call in calls
    requires row.client == calls[call].client && row.price == calls[call].price && row.billed == calls[call].billed
    ensures MinutesOk(l, calls[call := row])
  {
  }

  lemma RowActivated(calls: Calls, reopened: set<Id>, now: int, call: Id)
    requires CallsInv(calls, reopened, now) && call in calls && calls[call].startedAt.None?
    requires forall id :: IsOpen(calls, id) && calls[id].client == calls[call].client ==> id == call
    ensures var c := calls[call];
      var calls' := calls[call := c.(status := Active, startedAt := Some(now))];
      var reopened' := if c.status == Requested then reopened else reopened + {call};
      CallsInv(calls', reopened', now) && CallsStep(calls, reopened, calls', reopened', {ClientKey(c.client)})
  {
    var c := calls[call];
    var row := c.(status := Active, startedAt := Some(now));
    assert CallOk(c, now, call in reopened);
    RowRewritten(calls, reopened, now, call, row, if c.status == Requested then reopened else reopened + {call}, {ClientKey(c.client)});
  }

  /** A row may be rewritten as the guarantee allows; if that opens it, its client must have no
      other open call, and the call counts as reopened unless it was open before. */
  lemma RowRewritten(calls: Calls, reopened: set<Id>, now: int, call: Id, row: Call, reopened': set<Id>, keys: set<Key>)
    requires CallsInv(calls, reopened, now) && call in calls
    requires CallStep(calls[call], row, ClientKey(row.client) in keys)
    requires CallOk(row, now, call in reopened')
    requires reopened' == reopened || reopened' == reopened + {call}
    requires row.status != Ended && !IsOpen(calls, call) ==>
      call in reopened' && forall id :: IsOpen(calls, id) ==> calls[id].client != row.client
    ensures CallsInv(calls[call := row], reopened', now)
    ensures CallsStep(calls, reopened, calls[call := row], reopened', keys)
  {
    hide CallOk, IsOpen;
    OpenCallsOf(calls, call, row);
    RowStep(calls, reopened, now, call, row, reopened', keys);
    StillOnePerClient(calls, call, row);
    StillOnePerModel(calls, reopened, call, row, reopened');
  }

  /** Writing one row changes whether that call is open, and no other. */
  lemma OpenCallsOf(calls: Calls, call: Id, row: Call)
    ensures IsOpen(calls[call := row], call) <==> row.status != Ended
    ensures forall id :: id != call ==> IsOpen(calls[call := row], id) == IsOpen(calls, id)
  {
    forall id | id != call ensures IsOpen(calls[call := row], id) == IsOpen(calls, id) {
      assert id in calls[call := row] <==> id in calls;
    }
  }

  lemma RowStep(calls: Calls, reopened: set<Id>, now: int, call: Id, row: Call, reopened': set<Id>, keys: set<Key>)
    requires CallsOk(calls, reopened, now) && call in calls
    requires CallStep(calls[call], row, ClientKey(row.client) in keys)
    requires CallOk(row, now, call in reopened')
    requires reopened' == reopened || reopened' == reopened + {call}
    requires row.status != Ended && !IsOpen(calls, call) ==> call in reopened'
    ensures CallsOk(calls[call := row], reopened', now)
    ensures CallsStep(calls, reopened, calls[call := row], reopened', keys)
  {
    OpenCallsOf(calls, call, row);
    assert forall id :: id in calls ==> CallOk(calls[id], now, id in reopened);
  }

  lemma StillOnePerClient(calls: Calls, call: Id, row: Call)
    requires OneOpenPerClient(calls) && call in calls && row.client == calls[call].client
    requires row.status != Ended && !IsOpen(calls, call) ==> forall id :: IsOpen(calls, id) ==> calls[id].client != row.client
    ensures OneOpenPerClient(calls[call := row])
  {
    OpenCallsOf(calls, call, row);
    hide IsOpen;
  }

  lemma StillOnePerModel(calls: Calls, reopened: set<Id>, call: Id, row: Call, reopened': set<Id>)
    requires OneOpenPerModel(calls, reopened) && call in calls && row.model == calls[call].model
    requires reopened <= reopened'
    requires row.status != Ended && !IsOpen(calls, call) ==> call in reopened'
    ensures OneOpenPerModel(calls[call := row], reopened')
  {
    OpenCallsOf(calls, call, row);
    hide IsOpen;
  }

  lemma ActivateKeeps(d: DB, call: Id)
    requires DbInv(d) && call in d.calls && d.calls[call].startedAt.None?
    requires forall id :: IsOpen(d.calls, id) && d.calls[id].client == d.calls[call].client ==> id == call
    ensures DbInv(Activate(d, call))
    ensures Guarantee(d, Activate(d, call), {ClientKey(d.calls[call].client)})
  {
    hide MinutesOk, CallsInv, CallsStep, Guarantee;
    var d' := Activate(d, call);
    RowActivated(d.calls, d.reopened, d.now, call);
    MinutesOfRewrittenRow(d.ledger, d.calls, call, d'.calls[call]);
    CallsWriteKeeps(d, d'.calls, d'.reopened, {ClientKey(d.calls[call].client)});
  }

  lemma RowClosed(calls: Calls, reopened: set<Id>, now: int, call: Id, reason: EndReason)
    requires CallsInv(calls, reopened, now) && IsOpen(calls, call)
    requires reason == Timeout ==> IsExpired(now, calls[call].requestedAt)
    requires reason == Timeout || reason == Rejected ==> calls[call].status == Requested
    ensures var calls' := calls[call := calls[call].(status := Ended, endReason := Some(reason), endedAt := Some(now))];
      CallsInv(calls', reopened, now) && CallsStep(calls, reopened, calls', reopened, {})
  {
    var row := calls[call].(status := Ended, endReason := Some(reason), endedAt := Some(now));
    assert CallOk(calls[call], now, call in reopened);
    RowRewritten(calls, reopened, now, call, row, reopened, {});
  }

  lemma CloseKeeps(d: DB, call: Id, from: set<CallStatus>, reason: EndReason)
    requires DbInv(d) && from <= NOT_ENDED
    requires reason == Timeout ==> call in d.calls && IsExpired(d.now, d.calls[call].requestedAt)
    requires reason == Timeout || reason == Rejected ==> from == {Requested}
    ensures DbInv(Close(d, call, from, reason))
    ensures Guarantee(d, Close(d, call, from, reason), {})
  {
    hide MinutesOk, CallsInv, CallsStep, Guarantee;
    var d' := Close(d, call, from, reason);
    if call in d.calls && d.calls[call].status in from {
      RowClosed(d.calls, d.reopened, d.now, call, reason);
      MinutesOfRewrittenRow(d.ledger, d.calls, call, d'.calls[call]);
      CallsWriteKeeps(d, d'.calls, d'.reopened, {});
    } else {
      NothingHappens(d, {});
    }
  }

  // --------------------------------------------------------------- recharges

  /** A write that touches recharge rows only. */
  lemma RechargesWriteKeeps(d: DB, rows: map<Id, Recharge>, keys: set<Key>)
    requires DbInv(d) && RechargesOk(d.ledger, rows) && ExpiriesOk(rows, d.now)
    requires Totals.MapSum(Credits(d.ledger, rows)) == Totals.MapSum(Credits(d.ledger, d.recharges))
    requires RechargesStep(d.recharges, rows, keys)
    ensures DbInv(d.(recharges := rows)) && Guarantee(d, d.(recharges := rows), keys)
  {
    hide MinutesOk, CallsInv, RechargesOk, PayoutsOk, NoOverdraft, UniqueRefs, Sum;
    hide CallsStep, MinutesStep, MoneyStep, RechargesStep, PayoutsStep, GiftsOk, ProfilesOk, ValidConfig;
    CallsUnchanged(d.calls, d.reopened, d.now, keys);
    RowsUnchanged(d.recharges, d.payouts, keys);
    LedgerUnchanged(d.ledger, d.calls, keys);
  }

  lemma OpenRechargeKeeps(d: DB, id: Id, user: Id, amount: int)
    requires DbInv(d) && id !in d.recharges && amount >= 0
    ensures DbInv(OpenRecharge(d, id, user, amount))
    ensures Guarantee(d, OpenRecharge(d, id, user, amount), {FreshRecharge(id)})
  {
    hide RechargesOk, RechargesStep, Guarantee, Credits, Posted, Sum;
    var rows := OpenRecharge(d, id, user, amount).recharges;
    NewRechargeRow(d.ledger, d.recharges, id, rows[id]);
    CreditsUpdated(d.ledger, d.ledger, d.recharges, id, rows[id]);
    RechargesWriteKeeps(d, rows, {FreshRecharge(id)});
  }

  lemma NewRechargeRow(l: seq<Entry>, rows: map<Id, Recharge>, id: Id, row: Recharge)
    requires RechargesOk(l, rows) && id !in rows
    requires row.status == RechargePending && row.amount >= 0 && row.expiresAt.None?
    ensures RechargesOk(l, rows[id := row]) && RechargesStep(rows, rows[id := row], {FreshRecharge(id)})
    ensures RechargePaid(id) !in Posted(l)
  {
    assert forall x :: x in rows ==> RechargeOk(l, x, rows[x]);
    hide Sum, Posted;
  }

  /** Writing one row, and posting at most its own credit, changes the credited total by what it
      adds to that row's credit. */
  lemma CreditsUpdated(l: seq<Entry>, l': seq<Entry>, rows: map<Id, Recharge>, id: Id, row: Recharge)
    requires forall x :: x != id ==> (RechargePaid(x) in Posted(l') <==> RechargePaid(x) in Posted(l))
    ensures Totals.MapSum(Credits(l', rows[id := row])) == Totals.MapSum(Credits(l, rows))
      + (if RechargePaid(id) in Posted(l') then row.amount else 0)
      - (if id in rows && RechargePaid(id) in Posted(l) then rows[id].amount else 0)
  {
    hide Posted;
    var v := if RechargePaid(id) in Posted(l') then row.amount else 0;
    assert Credits(l', rows[id := row]) == Credits(l, rows)[id := v];
    Totals.MapSumUpdate(Credits(l, rows), id, v);
  }

  /** A change of one recharge row that credits nothing. */
  lemma RechargeRowKeeps(d: DB, id: Id, row: Recharge, keys: set<Key>)
    requires DbInv(d) && id in d.recharges
    requires RechargeStep(d.recharges[id], row, FreshRecharge(id) in keys) && RechargeOk(d.ledger, id, row)
    requires row.status == RechargeExpired ==> row.expiresAt.Some? && row.expiresAt.value < d.now
    ensures DbInv(d.(recharges := d.recharges[id := row]))
    ensures Guarantee(d, d.(recharges := d.recharges[id := row]), keys)
  {
    hide RechargesOk, RechargesStep, Guarantee, RechargeOk, Credits, Posted, Sum;
    CreditsUpdated(d.ledger, d.ledger, d.recharges, id, row);
    RechargeRowRewritten(d.ledger, d.recharges, id, row, keys);
    RechargesWriteKeeps(d, d.recharges[id := row], keys);
  }

  lemma RechargeRowRewritten(l: seq<Entry>, rows: map<Id, Recharge>, id: Id, row: Recharge, keys: set<Key>)
    requires RechargesOk(l, rows) && id in rows
    requires RechargeStep(rows[id], row, FreshRecharge(id) in keys) && RechargeOk(l, id, row)
    ensures RechargesOk(l, rows[id := row]) && RechargesStep(rows, rows[id := row], keys)
  {
    hide Sum, Posted;
    assert forall x :: x in rows ==> RechargeOk(l, x, rows[x]);
  }

  lemma AttachChargeKeeps(d: DB, id: Id, chargeId: string, expiresAt: int)
    requires DbInv(d) && id in d.recharges && d.recharges[id].chargeId.None?
    ensures DbInv(AttachCharge(d, id, chargeId, expiresAt))
    ensures Guarantee(d, AttachCharge(d, id, chargeId, expiresAt), {FreshRecharge(id)})
  {
    RechargeRowKeeps(d, id, AttachCharge(d, id, chargeId, expiresAt).recharges[id], {FreshRecharge(id)});
  }

  /** What the creator writes when it gives up looks at no status: it can overwrite any. Before the
      charge is stored nobody else knows the row. */
  lemma FailRechargeKeeps(d: DB, id: Id)
    requires DbInv(d) && id in d.recharges
    ensures DbInv(FailRecharge(d, id))
    ensures Guarantee(d, FailRecharge(d, id), if d.recharges[id].chargeId.None? then {FreshRecharge(id)} else {})
  {
    hide DbInv, Guarantee, RechargesOk, Posted, Sum;
    RowsAreOk(d);
    RechargeIsOk(d.ledger, d.recharges, id);
    RechargeRowKeeps(d, id, FailRecharge(d, id).recharges[id], if d.recharges[id].chargeId.None? then {FreshRecharge(id)} else {});
  }

  lemma RowsAreOk(d: DB)
    requires DbInv(d)
    ensures RechargesOk(d.ledger, d.recharges) && PayoutsOk(d.ledger, d.payouts, d.approved)
  {
  }

  lemma ExpireKeeps(d: DB, id: Id)
    requires DbInv(d) && id in d.recharges
    ensures DbInv(Expire(d, id)) && Guarantee(d, Expire(d, id), {})
  {
    assert RechargeOk(d.ledger, id, d.recharges[id]);
    if IsStale(d.recharges[id], d.now) {
      RechargeRowKeeps(d, id, Expire(d, id).recharges[id], {});
    } else {
      NothingHappens(d, {});
    }
  }

  lemma CreditPosted(l: seq<Entry>, l': seq<Entry>, id: Id, rows: map<Id, Recharge>)
    requires id in rows && rows[id].status == RechargePending && rows[id].chargeId.Some? && RechargesOk(l, rows)
    requires IsPosting(l, l', RechargePaid(id), Move(Client(rows[id].user), rows[id].amount), Move(External, -rows[id].amount), Move(External, 0))
    ensures var row := rows[id].(status := RechargeCredited);
      RechargesOk(l', rows[id := row]) && RechargesStep(rows, rows[id := row], {})
  {
    assert RechargeOk(l, id, rows[id]);
    assert forall x :: x in rows ==> RechargeOk(l, x, rows[x]);
  }

  lemma TransferMoney(l: seq<Entry>, l': seq<Entry>, g: Group, a: Account, amount: int, keys: set<Key>)
    requires IsPosting(l, l', g, Move(a, amount), Move(External, -amount), Move(External, 0))
    requires NoOverdraft(l) && Balance(l, a) + amount >= 0
    requires a.Client? || a.Model?
    requires amount >= 0 || (a.Model? && AccountKey(a.user) in keys)
    ensures NoOverdraft(l') && MoneyStep(l, l', keys)
    ensures Sum(l', Internal) == Sum(l, Internal) + amount && Sum(l', Everything) == Sum(l, Everything)
  {
  }

  lemma CreditKeeps(d: DB, id: Id)
    requires DbInv(d) && id in d.recharges && d.recharges[id].chargeId.Some?
    ensures DbInv(Credit(d, id)) && Guarantee(d, Credit(d, id), {})
  {
    hide MinutesOk, CallsInv, RechargesOk, PayoutsOk, NoOverdraft, UniqueRefs, Sum, Rows, IsPosting, Outstanding, Credits;
    hide CallsStep, MinutesStep, MoneyStep, RechargesStep, PayoutsStep, GiftsOk, ProfilesOk, ValidConfig;
    var row := d.recharges[id];
    var d' := Credit(d, id);
    RechargeIsOk(d.ledger, d.recharges, id);
    if row.status == RechargePending {
      var g := RechargePaid(id);
      var x, y, z := Move(Client(row.user), row.amount), Move(External, -row.amount), Move(External, 0);
      var lines := RechargeLines(row.user, row.amount);
      TwoLinesPosted(d.ledger, g, lines[0], lines[1]);
      PostingBasics(d.ledger, d'.ledger, g, x, y, z, d.gifts);
      BalanceNotNegative(d.ledger, Client(row.user));
      TransferMoney(d.ledger, d'.ledger, g, Client(row.user), row.amount, {});
      CreditPosted(d.ledger, d'.ledger, id, d.recharges);
      OtherMinutes(d.ledger, d'.ledger, g, x, y, z, d.calls);
      MinutesStayPut(d.ledger, d'.ledger, g, x, y, z, d.calls, {});
      OtherPayouts(d.ledger, d'.ledger, g, x, y, z, d.payouts, d.approved);
      PostedGroup(d.ledger, d'.ledger, g, x, y, z);
      OutstandingUnchanged(d.ledger, d'.ledger, g, d.payouts);
      CreditsUpdated(d.ledger, d'.ledger, d.recharges, id, d'.recharges[id]);
      CallsUnchanged(d.calls, d.reopened, d.now, {});
      RowsUnchanged(d.recharges, d.payouts, {});
    } else {
      NothingHappens(d, {});
    }
  }

  lemma RechargeIsOk(l: seq<Entry>, rows: map<Id, Recharge>, id: Id)
    requires RechargesOk(l, rows) && id in rows
    ensures RechargeOk(l, id, rows[id])
  {
  }

  lemma BalanceNotNegative(l: seq<Entry>, a: Account)
    requires NoOverdraft(l) && (a.Client? || a.Model?)
    ensures Balance(l, a) >= 0
  {
    assert Balance(l, Client(a.user)) >= 0 && Balance(l, Model(a.user)) >= 0;
  }

  lemma PostedGroup(l: seq<Entry>, l': seq<Entry>, g: Group, x: Move, y: Move, z: Move)
    requires IsPosting(l, l', g, x, y, z)
    ensures Posted(l') == Posted(l) + {g}
  {
  }

  // ----------------------------------------------------------------- payouts

  /** A posting about one payout changes that payout's sum only. */
  lemma PayoutSums(l: seq<Entry>, l': seq<Entry>, g: Group, id: Id, model: Id, amount: int)
    requires IsPosting(l, l', g, Move(Model(model), amount), Move(External, -amount), Move(External, 0))
    requires g == PayoutAsked(id) || g == PayoutReversed(id)
    ensures forall x, a :: x != id ==> Sum(l', PayoutOf(x, a)) == Sum(l, PayoutOf(x, a))
    ensures Sum(l', PayoutOf(id, Model(model))) == Sum(l, PayoutOf(id, Model(model))) + amount
    ensures Posted(l') == Posted(l) + {g}
  {
  }

  /** Writing one payout row together with a posting about it. */
  lemma PayoutWritten(l: seq<Entry>, l': seq<Entry>, g: Group, id: Id, row: Payout, rows: map<Id, Payout>, approved: set<Id>)
    requires g == PayoutAsked(id) || g == PayoutReversed(id)
    requires Posted(l') == Posted(l) + {g}
    requires forall x, a :: x != id ==> Sum(l', PayoutOf(x, a)) == Sum(l, PayoutOf(x, a))
    requires PayoutsOk(l, rows, approved) && PayoutOk(l', id, row, approved)
    ensures PayoutsOk(l', rows[id := row], approved)
  {
    hide Sum, Posted;
    forall x | x in rows && x != id ensures PayoutOk(l', x, rows[x], approved) {
      assert PayoutOk(l, x, rows[x], approved);
    }
  }

  lemma PayoutPosted(l: seq<Entry>, l': seq<Entry>, id: Id, row: Payout, rows: map<Id, Payout>, approved: set<Id>)
    requires id !in rows && row.amount >= 0 && row.model in approved && row.status == PayoutPending && row.processingAt.None?
    requires PayoutsOk(l, rows, approved)
    requires IsPosting(l, l', PayoutAsked(id), Move(Model(row.model), -row.amount), Move(External, row.amount), Move(External, 0))
    ensures PayoutsOk(l', rows[id := row], approved)
  {
    hide IsPosting;
    assert Sum(l, PayoutOf(id, Model(row.model))) == 0;
    NewPayoutIsNew(l, rows, approved, id);
    PayoutSums(l, l', PayoutAsked(id), id, row.model, -row.amount);
    PayoutWritten(l, l', PayoutAsked(id), id, row, rows, approved);
  }

  /** Writing one payout row, and posting at most its own groups, changes the outstanding total
      by what becomes outstanding of that row. */
  lemma OutstandingUpdated(l: seq<Entry>, l': seq<Entry>, g: Group, rows: map<Id, Payout>, id: Id, row: Payout)
    requires Posted(l') == Posted(l) + {g} && (g == PayoutAsked(id) || g == PayoutReversed(id))
    ensures var due := if PayoutReversed(id) in Posted(l') then 0 else row.amount;
      var was := if id !in rows || PayoutReversed(id) in Posted(l) then 0 else rows[id].amount;
      Totals.MapSum(Outstanding(l', rows[id := row])) == Totals.MapSum(Outstanding(l, rows)) + due - was
  {
    var due := if PayoutReversed(id) in Posted(l') then 0 else row.amount;
    assert Outstanding(l', rows[id := row]) == Outstanding(l, rows)[id := due];
    Totals.MapSumUpdate(Outstanding(l, rows), id, due);
  }

  lemma OpenPayoutKeeps(d: DB, id: Id, model: Id, amount: int)
    requires DbInv(d) && id !in d.payouts && model in d.approved
    requires 0 <= amount <= Balance(d.ledger, Model(model))
    ensures DbInv(OpenPayout(d, id, model, amount))
    ensures Guarantee(d, OpenPayout(d, id, model, amount), {AccountKey(model)})
  {
    hide MinutesOk, CallsInv, RechargesOk, PayoutsOk, NoOverdraft, UniqueRefs, Sum, Rows, IsPosting, Outstanding, Credits;
    hide CallsStep, MinutesStep, MoneyStep, RechargesStep, GiftsOk, ProfilesOk, ValidConfig;
    var d' := OpenPayout(d, id, model, amount);
    var g := PayoutAsked(id);
    var x, y, z := Move(Model(model), -amount), Move(External, amount), Move(External, 0);
    var lines := PayoutLines(model, amount);
    NewPayoutIsNew(d.ledger, d.payouts, d.approved, id);
    TwoLinesPosted(d.ledger, g, lines[0], lines[1]);
    PostingBasics(d.ledger, d'.ledger, g, x, y, z, d.gifts);
    TransferMoney(d.ledger, d'.ledger, g, Model(model), -amount, {AccountKey(model)});
    OtherMinutes(d.ledger, d'.ledger, g, x, y, z, d.calls);
    MinutesStayPut(d.ledger, d'.ledger, g, x, y, z, d.calls, {AccountKey(model)});
    OtherRecharges(d.ledger, d'.ledger, g, x, y, z, d.recharges);
    PayoutPosted(d.ledger, d'.ledger, id, d'.payouts[id], d.payouts, d.approved);
    PostedGroup(d.ledger, d'.ledger, g, x, y, z);
    CreditsUnchanged(d.ledger, d'.ledger, g, d.recharges);
    OutstandingUpdated(d.ledger, d'.ledger, g, d.payouts, id, d'.payouts[id]);
    CallsUnchanged(d.calls, d.reopened, d.now, {AccountKey(model)});
    RowsUnchanged(d.recharges, d.payouts, {AccountKey(model)});
  }

  lemma NewPayoutIsNew(l: seq<Entry>, rows: map<Id, Payout>, approved: set<Id>, id: Id)
    requires PayoutsOk(l, rows, approved) && id !in rows
    ensures PayoutAsked(id) !in Posted(l) && PayoutReversed(id) !in Posted(l)
  {
  }

  lemma PayoutIsOk(l: seq<Entry>, rows: map<Id, Payout>, approved: set<Id>, id: Id)
    requires PayoutsOk(l, rows, approved) && id in rows
    ensures PayoutOk(l, id, rows[id], approved)
  {
  }

  /** A change of status or stamp of one payout row. */
  lemma PayoutRowKeeps(d: DB, id: Id, row: Payout)
    requires DbInv(d) && id in d.payouts
    requires row.model == d.payouts[id].model && row.amount == d.payouts[id].amount
    requires row.status != PayoutPending && (row.status == PayoutProcessing ==> row.processingAt.Some?)
    ensures DbInv(d.(payouts := d.payouts[id := row]))
    ensures Guarantee(d, d.(payouts := d.payouts[id := row]), {})
  {
    hide MinutesOk, CallsInv, RechargesOk, NoOverdraft, UniqueRefs, Sum;
    hide CallsStep, MinutesStep, MoneyStep, RechargesStep, GiftsOk, ProfilesOk, ValidConfig;
    var rows := d.payouts[id := row];
    assert Outstanding(d.ledger, rows) == Outstanding(d.ledger, d.payouts);
    PayoutRowRewritten(d.ledger, d.payouts, d.approved, id, row);
    hide PayoutsOk, Outstanding, Credits, Posted;
    CallsUnchanged(d.calls, d.reopened, d.now, {});
    RowsUnchanged(d.recharges, d.payouts, {});
    LedgerUnchanged(d.ledger, d.calls, {});
  }

  lemma PayoutRowRewritten(l: seq<Entry>, rows: map<Id, Payout>, approved: set<Id>, id: Id, row: Payout)
    requires PayoutsOk(l, rows, approved) && id in rows
    requires row.model == rows[id].model && row.amount == rows[id].amount
    requires row.status != PayoutPending && (row.status == PayoutProcessing ==> row.processingAt.Some?)
    ensures PayoutsOk(l, rows[id := row], approved)
  {
    hide Sum, Posted;
    assert forall x :: x in rows ==> PayoutOk(l, x, rows[x], approved);
  }

  lemma ReversalPosted(l: seq<Entry>, l': seq<Entry>, id: Id, row: Payout, rows: map<Id, Payout>, approved: set<Id>)
    requires id in rows && PayoutReversed(id) !in Posted(l) && PayoutsOk(l, rows, approved)
    requires row.model == rows[id].model && row.amount == rows[id].amount && row.status == PayoutFailed
    requires IsPosting(l, l', PayoutReversed(id), Move(Model(row.model), row.amount), Move(External, -row.amount), Move(External, 0))
    ensures PayoutsOk(l', rows[id := row], approved)
  {
    hide IsPosting;
    PayoutIsOk(l, rows, approved, id);
    PayoutSums(l, l', PayoutReversed(id), id, row.model, row.amount);
    PayoutWritten(l, l', PayoutReversed(id), id, row, rows, approved);
  }

  lemma ReverseKeeps(d: DB, id: Id)
    requires DbInv(d) && id in d.payouts && PayoutReversed(id) !in Posted(d.ledger)
    ensures DbInv(Reverse(d, id)) && Guarantee(d, Reverse(d, id), {})
  {
    hide MinutesOk, CallsInv, RechargesOk, PayoutsOk, NoOverdraft, UniqueRefs, Sum, Rows, IsPosting, Outstanding, Credits;
    hide CallsStep, MinutesStep, MoneyStep, RechargesStep, GiftsOk, ProfilesOk, ValidConfig;
    var d' := Reverse(d, id);
    var row := d.payouts[id];
    var g := PayoutReversed(id);
    var x, y, z := Move(Model(row.model), row.amount), Move(External, -row.amount), Move(External, 0);
    var lines := ReversalLines(row.model, row.amount);
    PayoutIsOk(d.ledger, d.payouts, d.approved, id);
    TwoLinesPosted(d.ledger, g, lines[0], lines[1]);
    PostingBasics(d.ledger, d'.ledger, g, x, y, z, d.gifts);
    BalanceNotNegative(d.ledger, Model(row.model));
    TransferMoney(d.ledger, d'.ledger, g, Model(row.model), row.amount, {});
    OtherMinutes(d.ledger, d'.ledger, g, x, y, z, d.calls);
    MinutesStayPut(d.ledger, d'.ledger, g, x, y, z, d.calls, {});
    OtherRecharges(d.ledger, d'.ledger, g, x, y, z, d.recharges);
    ReversalPosted(d.ledger, d'.ledger, id, d'.payouts[id], d.payouts, d.approved);
    PostedGroup(d.ledger, d'.ledger, g, x, y, z);
    CreditsUnchanged(d.ledger, d'.ledger, g, d.recharges);
    OutstandingUpdated(d.ledger, d'.ledger, g, d.payouts, id, d'.payouts[id]);
    CallsUnchanged(d.calls, d.reopened, d.now, {});
    RowsUnchanged(d.recharges, d.payouts, {});
  }

  // ---------------------------------------------------------- the other columns

  /** Profiles may change within their ranges, approvals, sent payouts and time only grow. */
  lemma RestKeeps(d: DB, now: int, profiles: map<Id, Profile>, approved: set<Id>, sent: set<Id>)
    requires DbInv(d) && d.now <= now && d.approved <= approved && ProfilesOk(profiles)
    ensures var d' := d.(now := now, profiles := profiles, approved := approved, sent := sent);
      DbInv(d') && Guarantee(d, d', {})
  {
    hide MinutesOk, RechargesOk, NoOverdraft, UniqueRefs, Sum, Solvent;
    hide CallsStep, MinutesStep, MoneyStep, RechargesStep, PayoutsStep, GiftsOk, ProfilesOk, ValidConfig;
    StillOverdue(d.recharges, d.now, now);
    hide ExpiriesOk;
    assert forall x :: x in d.payouts ==> PayoutOk(d.ledger, x, d.payouts[x], d.approved);
    LaterCalls(d.calls, d.reopened, d.now, now);
    CallsUnchanged(d.calls, d.reopened, d.now, {});
    RowsUnchanged(d.recharges, d.payouts, {});
    LedgerUnchanged(d.ledger, d.calls, {});
  }

  lemma StillOverdue(rows: map<Id, Recharge>, now: int, later: int)
    requires ExpiriesOk(rows, now) && now <= later
    ensures ExpiriesOk(rows, later)
  {
  }

  lemma LaterCalls(calls: Calls, reopened: set<Id>, now: int, later: int)
    requires CallsInv(calls, reopened, now) && now <= later
    ensures CallsInv(calls, reopened, later)
  {
    assert forall id :: id in calls ==> CallOk(calls[id], now, id in reopened);
  }

  lemma EmptyDatabaseOk(d: DB)
    requires EmptyDB(d) && ValidConfig(d.cfg)
    ensures DbInv(d)
  {
  }

  /** Owning more keys promises less. */
  lemma MoreKeys(d: DB, d': DB, keys: set<Key>, more: set<Key>)
    requires Guarantee(d, d', keys) && keys <= more
    ensures Guarantee(d, d', more)
  {
  }
}

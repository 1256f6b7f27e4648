/** What one uninterrupted round of the payout processor does, whatever order it lists payouts in,
    whatever the payment provider does and wherever the worker dies. */
module Settlement {
  import opened Prelude
  import opened Tables
  import opened Ledger
  import opened Writes
  import opened Invariant
  import Lease
  import PayoutSteps
  import Totals

  /** Where the worker dies, if it does. */
  datatype Crash = NoCrash | BeforeClaim(payout: Id) | AfterClaim(payout: Id)

  /** What happens in a round: the payouts for which the provider throws, those for which money
      moves (a provider can throw although it did), and the death of the worker. */
  datatype Fate = Fate(throws: set<Id>, moves: set<Id>, crash: Crash)

  function Contact(d: DB, id: Id, fate: Fate): DB {
    if id in fate.moves then MarkSent(d, id) else d
  }

  /** Claiming a payout, calling the provider and settling it. */
  function SettleOne(d: DB, id: Id, fate: Fate): DB
    requires id in d.payouts
  {
    var d1 := Contact(Claim(d, id), id, fate);
    if id in fate.throws then Reverse(d1, id) else MarkPaid(d1, id)
  }

  /** The row of a payout that was claimed at `now` and settled. */
  function Outcome(row: Payout, refused: bool, now: int): Payout {
    row.(status := if refused then PayoutFailed else PayoutPaid, processingAt := Some(now))
  }

  /** The row of a payout that was claimed at `now` and abandoned. */
  function Abandoned(row: Payout, now: int): Payout {
    row.(status := PayoutProcessing, processingAt := Some(now))
  }

  /** What goes back to a model: the amounts of the given payouts of hers. */
  ghost function Refunds(payouts: map<Id, Payout>, given: set<Id>, model: Id): map<Id, int> {
    map id | id in payouts && id in given && payouts[id].model == model :: payouts[id].amount
  }

  /** Exactly the payouts in `done` were settled: paid, or failed and given back; those in `left`
      were claimed and abandoned; money moved for those of both that the provider moved it for. */
  ghost predicate RowsSettled(d: DB, d': DB, done: set<Id>, left: set<Id>, fate: Fate) {
    && done + left <= d.payouts.Keys && done !! left
    && d' == d.(ledger := d'.ledger, payouts := d'.payouts, sent := d.sent + (done + left) * fate.moves)
    && d'.payouts.Keys == d.payouts.Keys
    && (forall id :: id in done ==> d'.payouts[id] == Outcome(d.payouts[id], id in fate.throws, d.now))
    && (forall id :: id in left ==> d'.payouts[id] == Abandoned(d.payouts[id], d.now))
    && (forall id :: id in d.payouts && id !in done && id !in left ==> d'.payouts[id] == d.payouts[id])
    && (forall id :: PayoutReversed(id) in Posted(d'.ledger) <==>
          PayoutReversed(id) in Posted(d.ledger) || id in done * fate.throws)
  }

  /** Models got back exactly the failed amounts; nobody else's balance moved. */
  ghost predicate MoneySettled(d: DB, d': DB, done: set<Id>, fate: Fate) {
    && (forall m :: Balance(d'.ledger, Model(m)) == Balance(d.ledger, Model(m)) + Totals.MapSum(Refunds(d.payouts, done * fate.throws, m)))
    && (forall u :: Balance(d'.ledger, Client(u)) == Balance(d.ledger, Client(u)))
    && Balance(d'.ledger, Platform) == Balance(d.ledger, Platform)
  }

  /** How far a round over the claimable payouts gets: to the end, or to where the worker dies. */
  ghost predicate RoundEnds(claimable: set<Id>, done: set<Id>, left: set<Id>, crash: Crash) {
    match crash
    case NoCrash => done == claimable && left == {}
    case BeforeClaim(id) =>
      left == {} && if id in claimable then done <= claimable - {id} else done == claimable
    case AfterClaim(id) =>
      if id in claimable then left == {id} && done <= claimable - {id} else left == {} && done == claimable
  }

  lemma NothingSettled(d: DB, fate: Fate)
    ensures RowsSettled(d, d, {}, {}, fate) && MoneySettled(d, d, {}, fate)
  {
    assert {} * fate.throws == {} && d.sent + ({} + {}) * fate.moves == d.sent;
    assert forall m :: Refunds(d.payouts, {}, m) == map[];
  }

  lemma ContactKeeps(d: DB, id: Id, fate: Fate)
    requires DbInv(d)
    ensures DbInv(Contact(d, id, fate))
  {
    hide DbInv, Guarantee;
    PayoutSteps.MarkSentKeeps(d, id);
  }

  lemma SettleOneKeeps(d: DB, id: Id, fate: Fate)
    requires DbInv(d) && id in d.payouts && PayoutReversed(id) !in Posted(d.ledger)
    ensures DbInv(SettleOne(d, id, fate)) && DbInv(Claim(d, id)) && DbInv(Contact(Claim(d, id), id, fate))
  {
    hide DbInv, Guarantee, Rows, Posted;
    PayoutSteps.ClaimKeeps(d, id);
    ContactKeeps(Claim(d, id), id, fate);
    var d1 := Contact(Claim(d, id), id, fate);
    if id in fate.throws {
      ReverseKeeps(d1, id);
    } else {
      PayoutSteps.MarkPaidKeeps(d1, id);
    }
  }

  lemma OneMoreReversal(l: seq<Entry>, id: Id, row: Payout)
    ensures forall x :: PayoutReversed(x) in Posted(l + Rows(PayoutReversed(id), ReversalLines(row.model, row.amount))) <==>
      PayoutReversed(x) in Posted(l) || x == id
  {
    PostedByRows(l, PayoutReversed(id), ReversalLines(row.model, row.amount));
    hide Posted, Rows;
  }

  /** One more row with its outcome, and its reversal exactly when the provider threw. */
  lemma RowJoins(d: DB, d1: DB, d2: DB, done: set<Id>, fate: Fate, id: Id)
    requires RowsSettled(d, d1, done, {}, fate) && id in d.payouts && id !in done
    requires d2 == d1.(ledger := d2.ledger, payouts := d1.payouts[id := Outcome(d1.payouts[id], id in fate.throws, d1.now)], sent := d2.sent)
    requires d2.sent == if id in fate.moves then d1.sent + {id} else d1.sent
    requires forall x :: PayoutReversed(x) in Posted(d2.ledger) <==>
      PayoutReversed(x) in Posted(d1.ledger) || (x == id && id in fate.throws)
    ensures RowsSettled(d, d2, done + {id}, {}, fate)
  {
    hide Posted;
    assert d2.sent == d.sent + (done + {id} + {}) * fate.moves;
  }

  lemma WhatSettleOneWrites(d: DB, id: Id, fate: Fate)
    requires id in d.payouts
    ensures var d', row := SettleOne(d, id, fate), d.payouts[id];
      && d' == d.(ledger := d'.ledger, payouts := d.payouts[id := Outcome(row, id in fate.throws, d.now)], sent := d'.sent)
      && d'.sent == (if id in fate.moves then d.sent + {id} else d.sent)
      && d'.ledger == if id in fate.throws then d.ledger + Rows(PayoutReversed(id), ReversalLines(row.model, row.amount)) else d.ledger
  {
    hide Rows;
    var payouts := Claim(d, id).payouts;
    var last := Outcome(d.payouts[id], id in fate.throws, d.now);
    assert payouts[id := last] == d.payouts[id := last];
  }

  lemma OneMoreRow(d: DB, d1: DB, done: set<Id>, fate: Fate, id: Id)
    requires RowsSettled(d, d1, done, {}, fate) && id in d.payouts && id !in done
    ensures RowsSettled(d, SettleOne(d1, id, fate), done + {id}, {}, fate)
  {
    hide Posted, Rows, ReversalLines, SettleOne;
    assert id in d1.payouts;
    hide RowsSettled;
    OneMoreReversal(d1.ledger, id, d1.payouts[id]);
    WhatSettleOneWrites(d1, id, fate);
    RowJoins(d, d1, SettleOne(d1, id, fate), done, fate, id);
  }

  /** The worker dies after a claim: the payout stays PROCESSING, sent or not. */
  lemma OneLeft(d: DB, d1: DB, done: set<Id>, fate: Fate, id: Id)
    requires RowsSettled(d, d1, done, {}, fate) && MoneySettled(d, d1, done, fate)
    requires id in d.payouts && id !in done
    ensures RowsSettled(d, Contact(Claim(d1, id), id, fate), done, {id}, fate)
    ensures MoneySettled(d, Contact(Claim(d1, id), id, fate), done, fate)
  {
    hide Posted, Sum, Refunds;
    var d2 := Contact(Claim(d1, id), id, fate);
    assert d2.ledger == d1.ledger && d2.payouts == d1.payouts[id := Abandoned(d1.payouts[id], d1.now)];
    assert d2.sent == d.sent + (done + {id}) * fate.moves;
  }

  lemma OneMoreRefund(d: DB, done: set<Id>, refused: set<Id>, id: Id, model: Id)
    requires id in d.payouts && id !in done
    ensures Totals.MapSum(Refunds(d.payouts, (done + {id}) * refused, model)) ==
      Totals.MapSum(Refunds(d.payouts, done * refused, model))
      + if id in refused && d.payouts[id].model == model then d.payouts[id].amount else 0
  {
    var before := Refunds(d.payouts, done * refused, model);
    if id in refused && d.payouts[id].model == model {
      assert Refunds(d.payouts, (done + {id}) * refused, model) == before[id := d.payouts[id].amount];
      Totals.MapSumUpdate(before, id, d.payouts[id].amount);
    } else {
      assert Refunds(d.payouts, (done + {id}) * refused, model) == before;
    }
  }

  lemma ReversalSums(l: seq<Entry>, id: Id, model: Id, amount: int, a: Account)
    requires a != External
    ensures Balance(l + Rows(PayoutReversed(id), ReversalLines(model, amount)), a)
      == Balance(l, a) + if a == Model(model) then amount else 0
  {
    var lines := ReversalLines(model, amount);
    SumOfTwo(l, PayoutReversed(id), lines[0], lines[1], OfAccount(a));
  }

  lemma OneMorePaid(d: DB, d1: DB, done: set<Id>, fate: Fate, id: Id)
    requires RowsSettled(d, d1, done, {}, fate) && MoneySettled(d, d1, done, fate)
    requires id in d.payouts && id !in done
    ensures MoneySettled(d, SettleOne(d1, id, fate), done + {id}, fate)
  {
    hide Rows, Sum, Refunds, Posted, SettleOne;
    var row := d1.payouts[id];
    var d2 := SettleOne(d1, id, fate);
    WhatSettleOneWrites(d1, id, fate);
    forall m
      ensures Balance(d2.ledger, Model(m)) == Balance(d.ledger, Model(m)) + Totals.MapSum(Refunds(d.payouts, (done + {id}) * fate.throws, m))
    {
      OneMoreRefund(d, done, fate.throws, id, m);
      ReversalSums(d1.ledger, id, row.model, row.amount, Model(m));
    }
    forall u ensures Balance(d2.ledger, Client(u)) == Balance(d.ledger, Client(u)) {
      ReversalSums(d1.ledger, id, row.model, row.amount, Client(u));
    }
    ReversalSums(d1.ledger, id, row.model, row.amount, Platform);
  }

  /** A listed payout that was not settled yet is as claimable as it was, and not reversed. */
  lemma StillClaimable(d: DB, d1: DB, done: set<Id>, fate: Fate, id: Id, cutoff: Option<int>)
    requires RowsSettled(d, d1, done, {}, fate) && Lease.StatusTrue(d)
    requires id in PayoutSteps.ClaimableRows(d.payouts, cutoff) && id !in done
    ensures id in d1.payouts && Claimable(d1.payouts[id], cutoff) && PayoutReversed(id) !in Posted(d1.ledger)
  {
    hide Posted;
  }

  /** A status goes on telling the truth when claimable payouts are settled or abandoned. */
  lemma StatusStaysTrue(d: DB, d': DB, done: set<Id>, left: set<Id>, cutoff: Option<int>, fate: Fate)
    requires Lease.StatusTrue(d) && RowsSettled(d, d', done, left, fate)
    requires done + left <= PayoutSteps.ClaimableRows(d.payouts, cutoff)
    ensures Lease.StatusTrue(d')
  {
    hide Posted;
  }

  /** After a round exactly the payouts it did not get to can still be claimed by such a round. */
  lemma StillToClaim(d: DB, d': DB, done: set<Id>, left: set<Id>, cutoff: Option<int>, fate: Fate)
    requires RowsSettled(d, d', done, left, fate) && (cutoff.Some? ==> cutoff.value <= d.now)
    ensures PayoutSteps.ClaimableRows(d'.payouts, cutoff) == PayoutSteps.ClaimableRows(d.payouts, cutoff) - done - left
  {
    hide Posted;
  }

  /** Two rounds: a payout that the first round's worker left behind when it died is settled by a
      later full recovery round if and only if that one begins more than the stuck limit after the
      first, and is then PAID, or FAILED and given back; else it stays as it was left. */
  lemma AbandonedIsSettled(d: DB, d1: DB, d2: DB, d3: DB, first: (set<Id>, set<Id>), later: (set<Id>, set<Id>), fate: Fate, fate2: Fate, id: Id)
    requires Lease.StatusTrue(d) && RowsSettled(d, d1, first.0, first.1, fate) && id in first.1
    requires d.payouts[id].status != PayoutFailed
    requires d2 == d1.(now := d2.now)
    requires RowsSettled(d2, d3, later.0, later.1, fate2) && fate2.crash == NoCrash
    requires RoundEnds(PayoutSteps.ClaimableRows(d2.payouts, Some(d2.now - d2.cfg.stuckMs)), later.0, later.1, NoCrash)
    ensures id in d3.payouts && id in d1.payouts && d1.payouts[id].status == PayoutProcessing
    ensures d2.now - d.now > d.cfg.stuckMs ==>
      && d3.payouts[id].status == (if id in fate2.throws then PayoutFailed else PayoutPaid)
      && (Lease.Reversed(d3, id) <==> id in fate2.throws)
    ensures d2.now - d.now <= d.cfg.stuckMs ==> d3.payouts[id] == d1.payouts[id] && !Lease.Reversed(d3, id)
  {
    hide Posted;
    assert !Lease.Reversed(d, id);
    assert !Lease.Reversed(d1, id);
    assert id in PayoutSteps.ClaimableRows(d2.payouts, Some(d2.now - d2.cfg.stuckMs)) <==> d2.now - d.now > d.cfg.stuckMs;
  }
}

/** What an uninterrupted run of the taximeter does, in closed form, and why the order in which
    the database lists the calls does not matter. */
module CatchUps {
  import opened Prelude
  import opened Tables
  import opened Ledger
  import opened Writes
  import opened Invariant
  import opened Atomic
  import TakeRate
  import TM = TaximeterSteps

  // ---------------------------------------------------------- the closed form

  /** How many of `want` minutes a balance covers. */
  function Affordable(balance: int, price: int, want: nat): (k: nat)
    requires balance >= 0 && price >= 0
    ensures k <= want
  {
    if price == 0 || balance / price >= want then want else balance / price
  }

  /** It is the largest number of minutes that is wanted and covered. */
  lemma AffordableIsLargest(balance: int, price: int, want: nat, k: nat)
    requires balance >= 0 && price >= 0
    ensures Affordable(balance, price, want) * price <= balance
    ensures k <= want && k * price <= balance ==> k <= Affordable(balance, price, want)
  {
    if price > 0 {
      var q := balance / price;
      QuotientBounds(balance, price);
      if want <= q { MulMonotone(want, q, price); }
      if q < k { MulLess(q, k, price); }
    }
  }

  lemma QuotientBounds(x: int, p: int)
    requires p > 0
    ensures x / p * p <= x < x / p * p + p
  {
  }

  lemma MulMonotone(a: int, b: int, p: int)
    requires 0 <= a <= b && p >= 0
    ensures a * p <= b * p
  {
  }

  /** One minute less is affordable after one minute is paid. */
  lemma AffordableStep(balance: int, price: int, want: nat)
    requires 0 <= price <= balance && want > 0
    ensures Affordable(balance, price, want) == 1 + Affordable(balance - price, price, want - 1)
  {
    if price > 0 {
      var q := balance / price;
      assert q * price <= balance < q * price + price;
      assert (q - 1) * price == q * price - price;
      QuotientIs(balance - price, price, q - 1);
    }
  }

  lemma QuotientIs(x: int, p: int, q: int)
    requires p > 0 && q * p <= x < q * p + p
    ensures x / p == q
  {
    var r := x / p;
    assert r * p <= x < r * p + p;
    if r < q { MulLess(r, q, p); }
    if q < r { MulLess(q, r, p); }
  }

  lemma MulLess(a: int, b: int, p: int)
    requires a < b && p > 0
    ensures a * p + p <= b * p
  {
    assert (b - a - 1) * p >= 0;
    assert (b - a - 1) * p == b * p - a * p - p;
  }

  lemma NothingAffordable(balance: int, price: int, want: nat)
    requires 0 <= balance < price
    ensures Affordable(balance, price, want) == 0
  {
    assert balance / price == 0;
  }

  /** Everything the charges of one call depend on. */
  datatype Footprint = Footprint(call: Id, row: Call, balance: int, gross: int, override: Option<real>)

  function FootprintOf(d: DB, call: Id): Footprint
    requires call in d.calls
  {
    var row := d.calls[call];
    Footprint(call, row, Balance(d.ledger, Client(row.client)), GrossEarned(d.ledger, row.model),
      if row.model in d.profiles then d.profiles[row.model].takeRate else None)
  }

  function SplitAt(cfg: Config, f: Footprint): TakeRate.Split
    requires cfg.tiers != []
  {
    TakeRate.ComputeSplit(f.row.price, TakeRate.ResolveTakeRate(f.override, TierRate(cfg.tiers, f.gross)))
  }

  /** The footprint after one more minute: the tier may have changed. */
  function PaidOn(cfg: Config, f: Footprint): Footprint
    requires cfg.tiers != []
  {
    var share := SplitAt(cfg, f).modelShare;
    f.(row := f.row.(billed := f.row.billed + 1), balance := f.balance - f.row.price,
       gross := f.gross + if share > 0 then share else 0)
  }

  /** The rows of k minutes, each at the rate of its moment. */
  function MinuteRows(cfg: Config, f: Footprint, k: nat): seq<Entry>
    requires cfg.tiers != []
    decreases k
  {
    if k == 0 then []
    else
      Rows(CallMinute(f.call, f.row.billed + 1), MinuteLines(f.row.client, f.row.model, f.row.price, SplitAt(cfg, f).commission))
        + MinuteRows(cfg, PaidOn(cfg, f), k - 1)
  }

  function Want(row: Call, last: int): nat {
    if last > row.billed then last - row.billed else 0
  }

  function Minutes(f: Footprint, last: int): (k: nat)
    requires f.balance >= 0 && f.row.price >= 0
    ensures k <= Want(f.row, last)
  {
    Affordable(f.balance, f.row.price, Want(f.row, last))
  }

  /** The row when the money lasts for k of the minutes that are due until `last`. */
  function FinalRow(row: Call, last: int, k: nat, now: int): Call {
    if k < Want(row, last)
    then row.(billed := row.billed + k, status := Ended, endReason := Some(NoCredits), endedAt := Some(now))
    else row.(billed := row.billed + k)
  }

  ghost predicate CanCatchUp(d: DB, call: Id, last: int) {
    && DbInv(d)
    && call in d.calls && d.calls[call].status == Active && d.calls[call].startedAt.Some?
    && last <= DueMinute(d.now, d.calls[call].startedAt.value)
  }

  /** What CatchUp writes, as one update. */
  function CaughtUp(d: DB, call: Id, last: int, k: nat): DB
    requires call in d.calls && d.cfg.tiers != []
  {
    d.(ledger := d.ledger + MinuteRows(d.cfg, FootprintOf(d, call), k),
       calls := d.calls[call := FinalRow(d.calls[call], last, k, d.now)])
  }

  lemma BalancesNotNegative(d: DB, call: Id)
    requires DbInv(d) && call in d.calls
    ensures FootprintOf(d, call).balance >= 0 && d.calls[call].price >= 0
  {
    BalanceNotNegative(d.ledger, Client(d.calls[call].client));
    TM.PriceNotNegative(d, call);
  }

  lemma ChargeWhenDue(d: DB, call: Id, last: int)
    requires CanCatchUp(d, call, last) && d.calls[call].billed + 1 <= last
    requires d.calls[call].price <= Balance(d.ledger, Client(d.calls[call].client))
    ensures var n := d.calls[call].billed + 1;
      && d.cfg.tiers != []
      && ChargeMinute(d, call, n) == (PostMinute(d, call, n, d.calls[call], SplitAt(d.cfg, FootprintOf(d, call)).commission), Charged)
      && CanCatchUp(ChargeMinute(d, call, n).0, call, last)
  {
    var n := d.calls[call].billed + 1;
    TM.PostedIsBilled(d, call, n);
    ChargeKeeps(d, call, n);
    hide DbInv, Sum, Posted;
  }

  lemma FootprintAfter(d: DB, call: Id)
    requires DbInv(d) && call in d.calls
    ensures d.cfg.tiers != []
    ensures var s := SplitAt(d.cfg, FootprintOf(d, call));
      FootprintOf(PostMinute(d, call, d.calls[call].billed + 1, d.calls[call], s.commission), call) == PaidOn(d.cfg, FootprintOf(d, call))
  {
    var row := d.calls[call];
    var s := SplitAt(d.cfg, FootprintOf(d, call));
    var lines := MinuteLines(row.client, row.model, row.price, s.commission);
    var g := CallMinute(call, row.billed + 1);
    SumOfThree(d.ledger, g, lines[0], lines[1], lines[2], OfAccount(Client(row.client)));
    SumOfThree(d.ledger, g, lines[0], lines[1], lines[2], EarnedBy(row.model));
    hide DbInv, Sum, Rows, TakeRate.ComputeSplit;
  }

  /** The loop writes exactly the affordable minutes and ends the call exactly when money runs out. */
  lemma {:induction false} CatchUpClosedForm(d: DB, call: Id, last: int)
    requires CanCatchUp(d, call, last)
    ensures d.cfg.tiers != [] && FootprintOf(d, call).balance >= 0 && d.calls[call].price >= 0
    ensures CatchUp(d, call, d.calls[call].billed + 1, last) == CaughtUp(d, call, last, Minutes(FootprintOf(d, call), last))
    decreases last - d.calls[call].billed
  {
    assert ValidConfig(d.cfg);
    BalancesNotNegative(d, call);
    hide DbInv, ValidConfig, CatchUp, CaughtUp, Affordable, FootprintOf, Minutes;
    if d.calls[call].billed + 1 > last {
      NothingWritten(d, call, last);
    } else if FootprintOf(d, call).balance < d.calls[call].price {
      OutOfMoney(d, call, last);
    } else {
      var d1 := FirstMinute(d, call, last);
      CatchUpClosedForm(d1, call, last);
      MinutesAfterFirst(d, d1, call, last);
    }
  }

  /** Charging the first due minute leaves a state of the same kind, one minute on. */
  lemma FirstMinute(d: DB, call: Id, last: int) returns (d1: DB)
    requires CanCatchUp(d, call, last) && d.cfg.tiers != [] && d.calls[call].billed + 1 <= last
    requires FootprintOf(d, call).balance >= d.calls[call].price
    ensures var row, f := d.calls[call], FootprintOf(d, call);
      && d1 == PostMinute(d, call, row.billed + 1, row, SplitAt(d.cfg, f).commission)
      && CanCatchUp(d1, call, last) && d1.cfg == d.cfg
      && d1.calls[call] == row.(billed := row.billed + 1)
      && FootprintOf(d1, call) == PaidOn(d.cfg, f)
      && CatchUp(d, call, row.billed + 1, last) == CatchUp(d1, call, d1.calls[call].billed + 1, last)
  {
    var f := FootprintOf(d, call);
    ChargeWhenDue(d, call, last);
    d1 := ChargeMinute(d, call, d.calls[call].billed + 1).0;
    PostMinuteRow(d, call, SplitAt(d.cfg, f).commission);
    FootprintAfter(d, call);
    hide DbInv, FootprintOf, SplitAt, PaidOn, ChargeMinute, CanCatchUp, Sum, Rows;
  }

  lemma MinutesAfterFirst(d: DB, d1: DB, call: Id, last: int)
    requires call in d.calls && d.cfg.tiers != [] && d.calls[call].billed + 1 <= last
    requires 0 <= d.calls[call].price <= FootprintOf(d, call).balance
    requires var row, f := d.calls[call], FootprintOf(d, call);
      && d1 == PostMinute(d, call, row.billed + 1, row, SplitAt(d.cfg, f).commission)
      && FootprintOf(d1, call) == PaidOn(d.cfg, f)
    ensures var f, f1 := FootprintOf(d, call), FootprintOf(d1, call);
      && f1.balance >= 0 && f1.row.price >= 0
      && CaughtUp(d1, call, last, Minutes(f1, last)) == CaughtUp(d, call, last, Minutes(f, last))
  {
    hide Sum, Rows, SplitAt, CaughtUp, Affordable, PostMinute;
    var row, f := d.calls[call], FootprintOf(d, call);
    AffordableStep(f.balance, row.price, Want(row, last));
    OneMore(d, d1, call, last, Minutes(PaidOn(d.cfg, f), last));
  }

  lemma PostMinuteRow(d: DB, call: Id, commission: int)
    requires call in d.calls
    ensures PostMinute(d, call, d.calls[call].billed + 1, d.calls[call], commission).calls[call]
      == d.calls[call].(billed := d.calls[call].billed + 1)
  {
  }

  lemma NothingWritten(d: DB, call: Id, last: int)
    requires call in d.calls && d.cfg.tiers != [] && d.calls[call].billed + 1 > last
    requires FootprintOf(d, call).balance >= 0 && d.calls[call].price >= 0
    ensures CaughtUp(d, call, last, Minutes(FootprintOf(d, call), last)) == d
  {
    assert Minutes(FootprintOf(d, call), last) == 0;
    assert d.ledger + [] == d.ledger;
    assert d.calls[call := d.calls[call]] == d.calls;
  }

  lemma OutOfMoney(d: DB, call: Id, last: int)
    requires CanCatchUp(d, call, last) && d.cfg.tiers != [] && d.calls[call].billed + 1 <= last
    requires 0 <= FootprintOf(d, call).balance < d.calls[call].price
    ensures CatchUp(d, call, d.calls[call].billed + 1, last) == CaughtUp(d, call, last, Minutes(FootprintOf(d, call), last))
  {
    var row := d.calls[call];
    TM.PostedIsBilled(d, call, row.billed + 1);
    NothingAffordable(FootprintOf(d, call).balance, row.price, Want(row, last));
    hide DbInv, Sum, Posted;
    assert d.ledger + [] == d.ledger;
  }

  /** One charged minute followed by k more are k + 1 minutes. */
  lemma OneMore(d: DB, d1: DB, call: Id, last: int, k: nat)
    requires call in d.calls && d.cfg.tiers != [] && d.calls[call].billed + 1 <= last
    requires var row, f := d.calls[call], FootprintOf(d, call);
      && d1 == PostMinute(d, call, row.billed + 1, row, SplitAt(d.cfg, f).commission)
      && FootprintOf(d1, call) == PaidOn(d.cfg, f)
    ensures CaughtUp(d1, call, last, k) == CaughtUp(d, call, last, k + 1)
  {
    var row, f := d.calls[call], FootprintOf(d, call);
    var rows := Rows(CallMinute(call, row.billed + 1), MinuteLines(row.client, row.model, row.price, SplitAt(d.cfg, f).commission));
    hide Sum, Rows, TakeRate.ComputeSplit;
    assert d.ledger + rows + MinuteRows(d.cfg, PaidOn(d.cfg, f), k) == d.ledger + (rows + MinuteRows(d.cfg, PaidOn(d.cfg, f), k));
    assert d1.calls[call := FinalRow(d1.calls[call], last, k, d.now)] == d.calls[call := FinalRow(row, last, k + 1, d.now)];
  }

  // --------------------------------------------------- what it means for money

  /** k minutes cost the client k times the price, and touch no other client and no other model. */
  lemma {:induction false} MinuteRowsSums(cfg: Config, f: Footprint, k: nat, user: Id)
    requires cfg.tiers != []
    ensures Balance(MinuteRows(cfg, f, k), Client(user)) == if user == f.row.client then -(k * f.row.price) else 0
    ensures user != f.row.model ==> GrossEarned(MinuteRows(cfg, f, k), user) == 0
    decreases k
  {
    if k > 0 {
      var g := CallMinute(f.call, f.row.billed + 1);
      var lines := MinuteLines(f.row.client, f.row.model, f.row.price, SplitAt(cfg, f).commission);
      var rest := MinuteRows(cfg, PaidOn(cfg, f), k - 1);
      MinuteRowsSums(cfg, PaidOn(cfg, f), k - 1, user);
      FirstRowsSums(g, lines, rest, user);
      assert (k - 1) * f.row.price == k * f.row.price - f.row.price;
      hide Sum, SplitAt, Rows;
    }
  }

  lemma FirstRowsSums(g: Group, lines: seq<Line>, rest: seq<Entry>, user: Id)
    requires |lines| == 3 && lines[0].account.Client? && lines[1].account.Model? && lines[2].account == Platform
    ensures Balance(Rows(g, lines) + rest, Client(user))
      == (if user == lines[0].account.user then lines[0].amount else 0) + Balance(rest, Client(user))
    ensures user != lines[1].account.user ==> GrossEarned(Rows(g, lines) + rest, user) == GrossEarned(rest, user)
  {
    assert lines == [lines[0], lines[1], lines[2]];
    assert [] + Rows(g, lines) == Rows(g, lines);
    SumOfThree([], g, lines[0], lines[1], lines[2], OfAccount(Client(user)));
    SumOfThree([], g, lines[0], lines[1], lines[2], EarnedBy(user));
    SumOfConcat(Rows(g, lines), rest, OfAccount(Client(user)));
    SumOfConcat(Rows(g, lines), rest, EarnedBy(user));
  }

  /** What a catch-up of k minutes means for the row, the balance of the client and the other calls. */
  ghost predicate MinutesCharged(d: DB, d': DB, call: Id, last: int, k: nat)
    requires call in d.calls
  {
    var row := d.calls[call];
    && Balance(d'.ledger, Client(row.client)) == Balance(d.ledger, Client(row.client)) - k * row.price
    && call in d'.calls
    && d'.calls[call].billed == row.billed + k
    && (d'.calls[call].billed > row.billed ==> d'.calls[call].billed <= last)
    && (d'.calls[call].status == Ended <==> k < Want(row, last))
    && (d'.calls[call].status == Ended ==> d'.calls[call].endReason == Some(NoCredits))
    && d'.calls[call].status != Requested
    && forall other :: other in d.calls && other != call ==> other in d'.calls && d'.calls[other] == d.calls[other]
  }

  /** An uninterrupted catch-up charges k minutes, the largest number that is due and covered: the
      client pays k prices, the cursor moves by k and never past the last due minute, and the call
      ends for lack of credits exactly when k falls short of what was due. */
  lemma CatchUpMeaning(d: DB, call: Id, last: int)
    requires CanCatchUp(d, call, last)
    ensures d.cfg.tiers != [] && d.calls[call].price >= 0 && Balance(d.ledger, Client(d.calls[call].client)) >= 0
    ensures var row := d.calls[call];
      var k := Affordable(Balance(d.ledger, Client(row.client)), row.price, Want(row, last));
      MinutesCharged(d, CatchUp(d, call, row.billed + 1, last), call, last, k)
  {
    var row, f := d.calls[call], FootprintOf(d, call);
    CatchUpClosedForm(d, call, last);
    AffordableIsLargest(f.balance, row.price, Want(row, last), 0);
    assert f.row == row && f.balance == Balance(d.ledger, Client(row.client));
    hide DbInv, CatchUp, MinuteRows, Affordable, Sum, FinalRow, Want, FootprintOf;
    BalanceAfter(d, f, Minutes(f, last));
    RowAfter(row, last, Minutes(f, last), d.now);
  }

  lemma RowAfter(row: Call, last: int, k: nat, now: int)
    requires row.status == Active && k <= Want(row, last)
    ensures var row' := FinalRow(row, last, k, now);
      && row'.billed == row.billed + k
      && (row'.billed > row.billed ==> row'.billed <= last)
      && (row'.status == Ended <==> k < Want(row, last))
      && (row'.status == Ended ==> row'.endReason == Some(NoCredits))
      && row'.status != Requested
  {
  }

  lemma BalanceAfter(d: DB, f: Footprint, k: nat)
    requires d.cfg.tiers != []
    ensures var l := d.ledger + MinuteRows(d.cfg, f, k);
      Balance(l, Client(f.row.client)) == Balance(d.ledger, Client(f.row.client)) - k * f.row.price
  {
    MinuteRowsSums(d.cfg, f, k, f.row.client);
    SumOfConcat(d.ledger, MinuteRows(d.cfg, f, k), OfAccount(Client(f.row.client)));
  }

  lemma {:induction false} CatchUpKeeps(d: DB, call: Id, last: int)
    requires CanCatchUp(d, call, last)
    ensures d.cfg.tiers != [] && DbInv(CatchUp(d, call, d.calls[call].billed + 1, last))
    ensures CatchUp(d, call, d.calls[call].billed + 1, last).reopened == d.reopened
    decreases last - d.calls[call].billed
  {
    assert ValidConfig(d.cfg);
    BalancesNotNegative(d, call);
    hide DbInv, ValidConfig, CatchUp, FootprintOf, CanCatchUp;
    if d.calls[call].billed + 1 > last {
      NoMinuteDue(d, call, last);
    } else if FootprintOf(d, call).balance < d.calls[call].price {
      CallEnds(d, call, last);
    } else {
      var d1 := FirstMinute(d, call, last);
      CatchUpKeeps(d1, call, last);
    }
  }

  lemma NoMinuteDue(d: DB, call: Id, last: int)
    requires CanCatchUp(d, call, last) && d.cfg.tiers != [] && d.calls[call].billed + 1 > last
    ensures CatchUp(d, call, d.calls[call].billed + 1, last) == d && DbInv(d)
  {
  }

  lemma CallEnds(d: DB, call: Id, last: int)
    requires CanCatchUp(d, call, last) && d.cfg.tiers != [] && d.calls[call].billed + 1 <= last
    requires FootprintOf(d, call).balance < d.calls[call].price
    ensures var d' := CatchUp(d, call, d.calls[call].billed + 1, last);
      DbInv(d') && d'.reopened == d.reopened
  {
    TM.PostedIsBilled(d, call, d.calls[call].billed + 1);
    CloseKeeps(d, call, {Active}, NoCredits);
    hide DbInv, Guarantee, Posted, Sum;
  }

  // -------------------------------------------------------- order independence

  /** The last minute of a call that a round charges if the money lasts. */
  function LastDue(id: Id, row: Call, round: Round): int {
    if row.startedAt.None? then 0
    else Until(round.broken, id, row.billed + 1, DueMinute(round.at, row.startedAt.value))
  }

  lemma {:induction false} UntilBounds(broken: set<(Id, int)>, call: Id, n: int, last: int)
    ensures Until(broken, call, n, last) <= last
    ensures n <= last ==> n - 1 <= Until(broken, call, n, last)
    decreases last - n
  {
    if n <= last && (call, n) !in broken { UntilBounds(broken, call, n + 1, last); }
  }

  /** Where charging stopped it stops again: at the end, or before the charge that throws. */
  lemma {:induction false} UntilAgain(broken: set<(Id, int)>, call: Id, n: int, last: int)
    requires n <= Until(broken, call, n, last)
    ensures Until(broken, call, Until(broken, call, n, last) + 1, last) == Until(broken, call, n, last)
    decreases last - n
  {
    UntilBounds(broken, call, n, last);
    if (call, n) !in broken && n < last {
      UntilBounds(broken, call, n + 1, last);
      if n + 1 <= Until(broken, call, n + 1, last) { UntilAgain(broken, call, n + 1, last); }
    }
  }

  /** The rows a run adds for one call, and the row it leaves, computed from the state before. */
  ghost function RowsOf(d: DB, id: Id, round: Round): seq<Entry>
    requires d.cfg.tiers != [] && id in d.calls
  {
    var f := FootprintOf(d, id);
    if f.balance >= 0 && f.row.price >= 0 then MinuteRows(d.cfg, f, Minutes(f, LastDue(id, f.row, round))) else []
  }

  ghost function FinalOf(d: DB, id: Id, round: Round): Call
    requires id in d.calls
  {
    var f := FootprintOf(d, id);
    if f.balance >= 0 && f.row.price >= 0
    then FinalRow(f.row, LastDue(id, f.row, round), Minutes(f, LastDue(id, f.row, round)), d.now) else f.row
  }

  ghost function AllRows(d: DB, ids: seq<Id>, round: Round): seq<Entry>
    requires d.cfg.tiers != [] && forall i :: 0 <= i < |ids| ==> ids[i] in d.calls
  {
    if ids == [] then [] else RowsOf(d, ids[0], round) + AllRows(d, ids[1..], round)
  }

  ghost function AllCalls(d: DB, ids: seq<Id>, round: Round): map<Id, Call> {
    map id | id in d.calls :: if id in ids then FinalOf(d, id, round) else d.calls[id]
  }

  /** Distinct active calls; by the invariant their clients differ. */
  ghost predicate Ready(d: DB, ids: seq<Id>, round: Round) {
    && DbInv(d) && round.at <= d.now
    && (forall i :: 0 <= i < |ids| ==> ids[i] in d.calls && d.calls[ids[i]].status == Active && d.calls[ids[i]].startedAt.Some?)
    && (forall i, j :: 0 <= i < j < |ids| ==> ids[i] != ids[j])
  }

  ghost predicate ModelsDiffer(d: DB, ids: seq<Id>) {
    forall i, j :: 0 <= i < j < |ids| ==> ids[i] in d.calls && ids[j] in d.calls && d.calls[ids[i]].model != d.calls[ids[j]].model
  }

  lemma FirstCall(d: DB, ids: seq<Id>, round: Round)
    requires Ready(d, ids, round) && ids != []
    ensures d.cfg.tiers != []
    ensures var row := d.calls[ids[0]];
      var d1 := CatchUp(d, ids[0], row.billed + 1, LastDue(ids[0], row, round));
      && d1 == d.(ledger := d.ledger + RowsOf(d, ids[0], round), calls := d.calls[ids[0] := FinalOf(d, ids[0], round)])
      && DbInv(d1)
  {
    hide DbInv, DueMinute, CatchUp, Sum, Rows, MinuteRows, Minutes, FinalRow;
    var row := d.calls[ids[0]];
    TM.DueMinuteMonotone(round.at, d.now, row.startedAt.value);
    UntilBounds(round.broken, ids[0], row.billed + 1, DueMinute(round.at, row.startedAt.value));
    assert CanCatchUp(d, ids[0], LastDue(ids[0], row, round));
    CatchUpClosedForm(d, ids[0], LastDue(ids[0], row, round));
    CatchUpKeeps(d, ids[0], LastDue(ids[0], row, round));
    assert FootprintOf(d, ids[0]).row == row;
    hide FootprintOf, LastDue, CanCatchUp;
  }

  /** Charging one call leaves everything that the charges of another depend on untouched. */
  lemma OthersUntouched(d: DB, x: Id, y: Id, round: Round)
    requires DbInv(d) && d.cfg.tiers != []
    requires IsOpen(d.calls, x) && IsOpen(d.calls, y) && x != y && d.calls[x].model != d.calls[y].model
    ensures var d1 := d.(ledger := d.ledger + RowsOf(d, x, round), calls := d.calls[x := FinalOf(d, x, round)]);
      FootprintOf(d1, y) == FootprintOf(d, y)
  {
    var f, row := FootprintOf(d, x), d.calls[y];
    assert row.client != f.row.client && row.model != f.row.model;
    BalancesNotNegative(d, x);
    hide DbInv;
    var k := Minutes(f, LastDue(x, f.row, round));
    MinuteRowsSums(d.cfg, f, k, row.client);
    MinuteRowsSums(d.cfg, f, k, row.model);
    SumOfConcat(d.ledger, RowsOf(d, x, round), OfAccount(Client(row.client)));
    SumOfConcat(d.ledger, RowsOf(d, x, round), EarnedBy(row.model));
    hide Sum, MinuteRows, Minutes;
  }

  /** Even for calls of one model: the row and the client's balance of another call stay, and with
      them its final row. */
  lemma OtherFinalRow(d: DB, x: Id, y: Id, round: Round)
    requires DbInv(d) && d.cfg.tiers != []
    requires IsOpen(d.calls, x) && IsOpen(d.calls, y) && x != y
    ensures var d1 := d.(ledger := d.ledger + RowsOf(d, x, round), calls := d.calls[x := FinalOf(d, x, round)]);
      y in d1.calls && FinalOf(d1, y, round) == FinalOf(d, y, round)
  {
    var f, row := FootprintOf(d, x), d.calls[y];
    assert row.client != f.row.client;
    BalancesNotNegative(d, x);
    hide DbInv;
    MinuteRowsSums(d.cfg, f, Minutes(f, LastDue(x, f.row, round)), row.client);
    SumOfConcat(d.ledger, RowsOf(d, x, round), OfAccount(Client(row.client)));
    hide Sum, MinuteRows, LastDue, FinalRow;
  }

  lemma {:induction false} SameRows(d: DB, d1: DB, ids: seq<Id>, round: Round)
    requires d.cfg.tiers != [] && d1.cfg == d.cfg && d1.now == d.now
    requires forall i :: 0 <= i < |ids| ==> ids[i] in d.calls && ids[i] in d1.calls && FootprintOf(d1, ids[i]) == FootprintOf(d, ids[i])
    ensures AllRows(d1, ids, round) == AllRows(d, ids, round)
    ensures forall i :: 0 <= i < |ids| ==> FinalOf(d1, ids[i], round) == FinalOf(d, ids[i], round)
  {
    if ids != [] {
      SameRows(d, d1, ids[1..], round);
      forall i | 0 <= i < |ids| ensures FinalOf(d1, ids[i], round) == FinalOf(d, ids[i], round) {
        hide FootprintOf, MinuteRows, Minutes;
      }
    }
  }

  /** A whole run, in closed form: every call is charged as if it were alone. */
  lemma {:induction false} RunDueClosedForm(d: DB, snapshot: map<Id, Call>, ids: seq<Id>, round: Round)
    requires Ready(d, ids, round) && ModelsDiffer(d, ids)
    requires forall i :: 0 <= i < |ids| ==> ids[i] in snapshot && snapshot[ids[i]] == d.calls[ids[i]]
    ensures d.cfg.tiers != []
    ensures RunDue(d, snapshot, ids, round) == d.(ledger := d.ledger + AllRows(d, ids, round), calls := AllCalls(d, ids, round))
    decreases |ids|
  {
    hide DbInv, ValidConfig, CatchUp, FootprintOf, RowsOf, FinalOf, FinalRow, LastDue, DueMinute;
    TiersExist(d);
    if ids == [] {
      assert d.ledger + [] == d.ledger;
      assert AllCalls(d, ids, round) == d.calls;
    } else {
      FirstCall(d, ids, round);
      FirstUnfolded(d, snapshot, ids, round);
      hide RunDue;
      var d1 := d.(ledger := d.ledger + RowsOf(d, ids[0], round), calls := d.calls[ids[0] := FinalOf(d, ids[0], round)]);
      RestIsReady(d, d1, ids, round);
      RunDueClosedForm(d1, snapshot, ids[1..], round);
      SameRows(d, d1, ids[1..], round);
      JoinRuns(d, d1, ids, round);
    }
  }

  lemma TiersExist(d: DB)
    requires DbInv(d)
    ensures d.cfg.tiers != []
  {
  }

  lemma FirstUnfolded(d: DB, snapshot: map<Id, Call>, ids: seq<Id>, round: Round)
    requires ids != [] && d.cfg.tiers != [] && forall i :: 0 <= i < |ids| ==> ids[i] in snapshot
    requires snapshot[ids[0]].startedAt.Some?
    ensures var row := snapshot[ids[0]];
      RunDue(d, snapshot, ids, round) == RunDue(CatchUp(d, ids[0], row.billed + 1, LastDue(ids[0], row, round)), snapshot, ids[1..], round)
  {
    hide CatchUp;
  }

  lemma RestIsReady(d: DB, d1: DB, ids: seq<Id>, round: Round)
    requires Ready(d, ids, round) && ModelsDiffer(d, ids) && ids != [] && d.cfg.tiers != []
    requires d1 == d.(ledger := d.ledger + RowsOf(d, ids[0], round), calls := d.calls[ids[0] := FinalOf(d, ids[0], round)])
    requires DbInv(d1)
    ensures Ready(d1, ids[1..], round) && ModelsDiffer(d1, ids[1..])
    ensures forall i :: 0 <= i < |ids[1..]| ==> ids[1..][i] in d1.calls && FootprintOf(d1, ids[1..][i]) == FootprintOf(d, ids[1..][i])
  {
    hide DbInv, FootprintOf, RowsOf, FinalOf;
    forall i | 0 <= i < |ids[1..]|
      ensures ids[1..][i] in d1.calls && FootprintOf(d1, ids[1..][i]) == FootprintOf(d, ids[1..][i])
    {
      OthersUntouched(d, ids[0], ids[i + 1], round);
    }
  }

  /** The call rows after a whole run, in closed form, whether models are shared or not. */
  lemma {:induction false} RunDueRows(d: DB, snapshot: map<Id, Call>, ids: seq<Id>, round: Round)
    requires Ready(d, ids, round)
    requires forall i :: 0 <= i < |ids| ==> ids[i] in snapshot && snapshot[ids[i]] == d.calls[ids[i]]
    ensures d.cfg.tiers != [] && RunDue(d, snapshot, ids, round).calls == AllCalls(d, ids, round)
    decreases |ids|
  {
    hide DbInv, ValidConfig, CatchUp, FootprintOf, RowsOf, FinalOf, FinalRow, LastDue, DueMinute;
    TiersExist(d);
    if ids == [] {
      assert AllCalls(d, ids, round) == d.calls;
    } else {
      FirstCall(d, ids, round);
      FirstUnfolded(d, snapshot, ids, round);
      hide RunDue;
      var d1 := d.(ledger := d.ledger + RowsOf(d, ids[0], round), calls := d.calls[ids[0] := FinalOf(d, ids[0], round)]);
      RestIsListed(d, d1, ids, round);
      RunDueRows(d1, snapshot, ids[1..], round);
      JoinCalls(d, d1, ids, round);
    }
  }

  lemma RestIsListed(d: DB, d1: DB, ids: seq<Id>, round: Round)
    requires Ready(d, ids, round) && ids != [] && d.cfg.tiers != []
    requires d1 == d.(ledger := d.ledger + RowsOf(d, ids[0], round), calls := d.calls[ids[0] := FinalOf(d, ids[0], round)])
    requires DbInv(d1)
    ensures Ready(d1, ids[1..], round)
    ensures forall i :: 0 <= i < |ids[1..]| ==> FinalOf(d1, ids[1..][i], round) == FinalOf(d, ids[1..][i], round)
  {
    hide DbInv, FootprintOf, RowsOf, FinalOf;
    forall i | 0 <= i < |ids[1..]|
      ensures ids[1..][i] in d1.calls && FinalOf(d1, ids[1..][i], round) == FinalOf(d, ids[1..][i], round)
    {
      OtherFinalRow(d, ids[0], ids[i + 1], round);
    }
  }

  /** What a run leaves on the account of a client: less the minutes of the client's listed call. */
  lemma {:induction false} RunDueClient(d: DB, snapshot: map<Id, Call>, ids: seq<Id>, id: Id, round: Round)
    requires Ready(d, ids, round) && id in ids
    requires forall i :: 0 <= i < |ids| ==> ids[i] in snapshot && snapshot[ids[i]] == d.calls[ids[i]]
    ensures d.cfg.tiers != [] && id in d.calls
    ensures var row := d.calls[id];
      Balance(RunDue(d, snapshot, ids, round).ledger, Client(row.client))
      == Balance(d.ledger, Client(row.client)) - (FinalOf(d, id, round).billed - row.billed) * row.price
    decreases |ids|
  {
    hide DbInv, ValidConfig, CatchUp, FootprintOf, RowsOf, FinalOf, FinalRow, LastDue, DueMinute, Sum;
    TiersExist(d);
    FirstCall(d, ids, round);
    FirstUnfolded(d, snapshot, ids, round);
    hide RunDue;
    var user := d.calls[id].client;
    var d1 := d.(ledger := d.ledger + RowsOf(d, ids[0], round), calls := d.calls[ids[0] := FinalOf(d, ids[0], round)]);
    RestIsListed(d, d1, ids, round);
    FirstPays(d, ids[0], user, round);
    if ids[0] == id {
      OnlyCallOf(d, ids, user);
      RunDueOthers(d1, snapshot, ids[1..], user, round);
    } else {
      assert id in ids[1..];
      ClientsDiffer(d, ids[0], id);
      RunDueClient(d1, snapshot, ids[1..], id, round);
    }
  }

  lemma ClientsDiffer(d: DB, x: Id, y: Id)
    requires DbInv(d) && IsOpen(d.calls, x) && IsOpen(d.calls, y) && x != y
    ensures d.calls[x].client != d.calls[y].client
  {
  }

  lemma OnlyCallOf(d: DB, ids: seq<Id>, user: Id)
    requires ids != [] && DbInv(d) && (forall i :: 0 <= i < |ids| ==> IsOpen(d.calls, ids[i])) && d.calls[ids[0]].client == user
    requires forall i, j :: 0 <= i < j < |ids| ==> ids[i] != ids[j]
    ensures forall i :: 0 <= i < |ids[1..]| ==> d.calls[ids[1..][i]].client != user
  {
    hide DbInv;
    forall i | 0 <= i < |ids[1..]| ensures d.calls[ids[1..][i]].client != user { ClientsDiffer(d, ids[0], ids[i + 1]); }
  }

  lemma FirstPays(d: DB, x: Id, user: Id, round: Round)
    requires DbInv(d) && d.cfg.tiers != [] && x in d.calls
    ensures var row := d.calls[x];
      Balance(d.ledger + RowsOf(d, x, round), Client(user)) == Balance(d.ledger, Client(user))
        - if user == row.client then (FinalOf(d, x, round).billed - row.billed) * row.price else 0
  {
    hide DbInv, Sum, MinuteRows, LastDue, Minutes, FootprintOf;
    var f := FootprintOf(d, x);
    assert f.row == d.calls[x] && f.balance >= 0 && f.row.price >= 0 by { FootprintIs(d, x); }
    MinuteRowsSums(d.cfg, f, Minutes(f, LastDue(x, f.row, round)), user);
    SumOfConcat(d.ledger, RowsOf(d, x, round), OfAccount(Client(user)));
  }

  lemma FootprintIs(d: DB, x: Id)
    requires DbInv(d) && x in d.calls
    ensures var f := FootprintOf(d, x); f.row == d.calls[x] && f.balance >= 0 && f.row.price >= 0
  {
    BalancesNotNegative(d, x);
    hide DbInv, Sum;
  }

  lemma {:induction false} RunDueOthers(d: DB, snapshot: map<Id, Call>, ids: seq<Id>, user: Id, round: Round)
    requires Ready(d, ids, round) && forall i :: 0 <= i < |ids| ==> d.calls[ids[i]].client != user
    requires forall i :: 0 <= i < |ids| ==> ids[i] in snapshot && snapshot[ids[i]] == d.calls[ids[i]]
    ensures d.cfg.tiers != []
    ensures Balance(RunDue(d, snapshot, ids, round).ledger, Client(user)) == Balance(d.ledger, Client(user))
    decreases |ids|
  {
    hide DbInv, ValidConfig, CatchUp, FootprintOf, RowsOf, FinalOf, FinalRow, LastDue, DueMinute, Sum;
    TiersExist(d);
    if ids != [] {
      FirstCall(d, ids, round);
      FirstUnfolded(d, snapshot, ids, round);
      hide RunDue;
      var d1 := d.(ledger := d.ledger + RowsOf(d, ids[0], round), calls := d.calls[ids[0] := FinalOf(d, ids[0], round)]);
      RestIsListed(d, d1, ids, round);
      FirstPays(d, ids[0], user, round);
      RunDueOthers(d1, snapshot, ids[1..], user, round);
    }
  }

  // ---------------------------------------------------- a round in milliseconds

  /** What a round at a time does to a listed call, in milliseconds and cents: no minute is charged
      before it has begun or after a charge that throws; a call that goes on has been charged for
      every minute begun, up to such a charge; a call that ends had a begun minute left that its
      client could not pay. */
  ghost predicate ChargedFor(id: Id, row: Call, row': Call, before: int, after: int, round: Round, now: int) {
    && row.startedAt.Some? && row'.billed >= row.billed
    && row' == row.(billed := row'.billed, status := row'.status, endReason := row'.endReason, endedAt := row'.endedAt)
    && after == before - (row'.billed - row.billed) * row.price && after >= 0
    && var elapsed := round.at - row.startedAt.value;
    && (row'.billed > row.billed ==> (row'.billed - 1) * 60000 <= elapsed)
    && (forall n: int :: row.billed < n <= row'.billed ==> (id, n) !in round.broken)
    && match row'.status
       case Active =>
         && row'.endReason == row.endReason && row'.endedAt == row.endedAt
         && (row'.billed * 60000 > elapsed || (id, row'.billed + 1) in round.broken)
       case Ended =>
         && row'.endReason == Some(NoCredits) && row'.endedAt == Some(now)
         && after < row.price && row'.billed * 60000 <= elapsed && (id, row'.billed + 1) !in round.broken
       case Requested => false
  }

  lemma DueInMilliseconds(now: int, startedAt: int, n: int)
    ensures n <= DueMinute(now, startedAt) <==> (n - 1) * 60000 <= now - startedAt
  {
  }

  lemma {:induction false} UntilStops(broken: set<(Id, int)>, call: Id, n: int, last: int)
    ensures var stop := Until(broken, call, n, last);
      && (n <= last ==> stop == last || (call, stop + 1) in broken)
      && forall m: int :: n <= m <= stop ==> (call, m) !in broken
    decreases last - n
  {
    if n <= last && (call, n) !in broken { UntilStops(broken, call, n + 1, last); }
  }

  lemma RoundMeaning(d: DB, ids: seq<Id>, id: Id, round: Round)
    requires DbInv(d) && round.at <= d.now && TM.Lists(ids, TM.ActiveCalls(d.calls)) && id in ids
    ensures d.cfg.tiers != [] && id in d.calls && id in RunDue(d, d.calls, ids, round).calls
    ensures var d', row := RunDue(d, d.calls, ids, round), d.calls[id];
      ChargedFor(id, row, d'.calls[id], Balance(d.ledger, Client(row.client)), Balance(d'.ledger, Client(row.client)), round, d.now)
  {
    hide DbInv, RunDue, FinalOf, TM.Lists, ChargedFor, Sum;
    ActiveListIsReady(d, ids, round);
    RunDueRows(d, d.calls, ids, round);
    RunDueClient(d, d.calls, ids, id, round);
    FinalMeaning(d, id, round);
  }

  lemma FinalMeaning(d: DB, id: Id, round: Round)
    requires DbInv(d) && id in d.calls && d.calls[id].status == Active && d.calls[id].startedAt.Some?
    ensures var row, row', before := d.calls[id], FinalOf(d, id, round), Balance(d.ledger, Client(d.calls[id].client));
      ChargedFor(id, row, row', before, before - (row'.billed - row.billed) * row.price, round, d.now)
  {
    hide DbInv, Sum;
    var row, f := d.calls[id], FootprintOf(d, id);
    BalancesNotNegative(d, id);
    var due, stop := DueMinute(round.at, row.startedAt.value), LastDue(id, row, round);
    var k := Minutes(f, stop);
    UntilBounds(round.broken, id, row.billed + 1, due);
    UntilStops(round.broken, id, row.billed + 1, due);
    AffordableIsLargest(f.balance, row.price, Want(row, stop), k + 1);
    assert (k + 1) * row.price == k * row.price + row.price;
    DueInMilliseconds(round.at, row.startedAt.value, row.billed + k);
    DueInMilliseconds(round.at, row.startedAt.value, row.billed + k + 1);
    hide DueMinute, Until, Affordable, FootprintOf;
  }

  lemma JoinRuns(d: DB, d1: DB, ids: seq<Id>, round: Round)
    requires ids != [] && d.cfg.tiers != [] && forall i :: 0 <= i < |ids| ==> ids[i] in d.calls
    requires forall i, j :: 0 <= i < j < |ids| ==> ids[i] != ids[j]
    requires d1 == d.(ledger := d.ledger + RowsOf(d, ids[0], round), calls := d.calls[ids[0] := FinalOf(d, ids[0], round)])
    requires forall i :: 0 <= i < |ids[1..]| ==> ids[1..][i] in d1.calls
    requires AllRows(d1, ids[1..], round) == AllRows(d, ids[1..], round)
    requires forall i :: 0 <= i < |ids[1..]| ==> FinalOf(d1, ids[1..][i], round) == FinalOf(d, ids[1..][i], round)
    ensures d1.ledger + AllRows(d1, ids[1..], round) == d.ledger + AllRows(d, ids, round)
    ensures AllCalls(d1, ids[1..], round) == AllCalls(d, ids, round)
  {
    hide RowsOf, FinalOf, AllCalls;
    JoinRows(d, ids, round);
    hide AllRows;
    JoinCalls(d, d1, ids, round);
  }

  lemma JoinRows(d: DB, ids: seq<Id>, round: Round)
    requires ids != [] && d.cfg.tiers != [] && forall i :: 0 <= i < |ids| ==> ids[i] in d.calls
    ensures d.ledger + RowsOf(d, ids[0], round) + AllRows(d, ids[1..], round) == d.ledger + AllRows(d, ids, round)
  {
    hide RowsOf;
    var first, rest := RowsOf(d, ids[0], round), AllRows(d, ids[1..], round);
    assert AllRows(d, ids, round) == first + rest;
    assert d.ledger + first + rest == d.ledger + (first + rest);
  }

  lemma JoinCalls(d: DB, d1: DB, ids: seq<Id>, round: Round)
    requires ids != [] && forall i :: 0 <= i < |ids| ==> ids[i] in d.calls
    requires forall i, j :: 0 <= i < j < |ids| ==> ids[i] != ids[j]
    requires d1.calls == d.calls[ids[0] := FinalOf(d, ids[0], round)]
    requires forall i :: 0 <= i < |ids[1..]| ==> FinalOf(d1, ids[1..][i], round) == FinalOf(d, ids[1..][i], round)
    ensures AllCalls(d1, ids[1..], round) == AllCalls(d, ids, round)
  {
    hide FinalOf;
    forall id | id in d.calls ensures AllCalls(d1, ids[1..], round)[id] == AllCalls(d, ids, round)[id] {
      assert id in ids <==> id == ids[0] || id in ids[1..];
    }
  }

  lemma {:induction false} RowsWithoutOne(d: DB, ids: seq<Id>, i: nat, round: Round)
    requires d.cfg.tiers != [] && i < |ids| && forall j :: 0 <= j < |ids| ==> ids[j] in d.calls
    ensures multiset(AllRows(d, ids, round)) == multiset(RowsOf(d, ids[i], round)) + multiset(AllRows(d, ids[..i] + ids[i + 1..], round))
  {
    hide RowsOf;
    if i == 0 {
      assert ids[..0] + ids[1..] == ids[1..];
    } else {
      var rest := ids[..i] + ids[i + 1..];
      assert ids[1..][..i - 1] + ids[1..][i..] == rest[1..];
      RowsWithoutOne(d, ids[1..], i - 1, round);
      assert multiset(AllRows(d, ids, round)) == multiset(RowsOf(d, ids[0], round)) + multiset(AllRows(d, ids[1..], round));
      assert multiset(AllRows(d, rest, round)) == multiset(RowsOf(d, rest[0], round)) + multiset(AllRows(d, rest[1..], round));
    }
  }

  lemma {:induction false} RowsOfPermutation(d: DB, ids: seq<Id>, other: seq<Id>, round: Round)
    requires d.cfg.tiers != [] && multiset(ids) == multiset(other)
    requires forall j :: 0 <= j < |ids| ==> ids[j] in d.calls
    requires forall j :: 0 <= j < |other| ==> other[j] in d.calls
    ensures multiset(AllRows(d, ids, round)) == multiset(AllRows(d, other, round))
  {
    hide RowsOf, AllRows;
    if ids == [] {
      assert |multiset(other)| == 0;
    } else {
      assert ids[0] in multiset(ids);
      var i :| 0 <= i < |other| && other[i] == ids[0];
      MultisetWithout(ids, 0);
      MultisetWithout(other, i);
      RowsWithoutOne(d, ids, 0, round);
      RowsWithoutOne(d, other, i, round);
      RowsOfPermutation(d, ids[..0] + ids[1..], other[..i] + other[i + 1..], round);
    }
  }

  lemma EmptyListing(ids: seq<Id>, rows: set<Id>)
    requires TM.Lists(ids, rows)
    ensures ids == [] <==> rows == {}
  {
    if ids != [] { assert ids[0] in rows; }
    if x :| x in rows { assert x in ids; }
  }

  /** Two listings of the same rows are permutations of each other. */
  lemma {:induction false} ListingsArePermutations(ids: seq<Id>, other: seq<Id>, rows: set<Id>)
    requires TM.Lists(ids, rows) && TM.Lists(other, rows)
    ensures multiset(ids) == multiset(other)
  {
    EmptyListing(ids, rows);
    EmptyListing(other, rows);
    if ids != [] {
      var x := ids[0];
      assert x in rows && x in other;
      var i :| 0 <= i < |other| && other[i] == x;
      ListingWithout(ids, rows, 0);
      ListingWithout(other, rows, i);
      hide TM.Lists;
      ListingsArePermutations(ids[..0] + ids[1..], other[..i] + other[i + 1..], rows - {x});
      SameAfterRemoval(ids, 0, other, i);
    }
  }

  lemma SameAfterRemoval(ids: seq<Id>, i: nat, other: seq<Id>, j: nat)
    requires i < |ids| && j < |other| && ids[i] == other[j]
    requires multiset(ids[..i] + ids[i + 1..]) == multiset(other[..j] + other[j + 1..])
    ensures multiset(ids) == multiset(other)
  {
    MultisetWithout(ids, i);
    MultisetWithout(other, j);
  }

  lemma ListingWithout(ids: seq<Id>, rows: set<Id>, i: nat)
    requires TM.Lists(ids, rows) && i < |ids|
    ensures TM.Lists(ids[..i] + ids[i + 1..], rows - {ids[i]})
  {
    var rest := ids[..i] + ids[i + 1..];
    forall id | id in rows - {ids[i]} ensures id in rest {
      var j :| 0 <= j < |ids| && ids[j] == id;
      assert if j < i then rest[j] == id else rest[j - 1] == id;
    }
  }

  /** No model is in two active calls at once; she may have been before. */
  ghost predicate DistinctModels(d: DB) {
    forall i, j :: i in d.calls && j in d.calls && i != j && d.calls[i].status == Active && d.calls[j].status == Active ==>
      d.calls[i].model != d.calls[j].model
  }

  lemma ActiveListIsReady(d: DB, ids: seq<Id>, round: Round)
    requires DbInv(d) && round.at <= d.now && TM.Lists(ids, TM.ActiveCalls(d.calls))
    ensures Ready(d, ids, round)
    ensures DistinctModels(d) ==> ModelsDiffer(d, ids)
  {
    forall i | 0 <= i < |ids| ensures ids[i] in d.calls && d.calls[ids[i]].status == Active && d.calls[ids[i]].startedAt.Some? {
      assert CallOk(d.calls[ids[i]], d.now, ids[i] in d.reopened);
    }
    hide DbInv;
  }

  /** The order in which the database lists the active calls does not matter: the call rows are
      the same, the ledger has the same rows, and so every balance is the same. */
  lemma OrderDoesNotMatter(d: DB, ids: seq<Id>, other: seq<Id>, round: Round, f: Filter)
    requires DbInv(d) && DistinctModels(d) && round.at <= d.now
    requires TM.Lists(ids, TM.ActiveCalls(d.calls)) && TM.Lists(other, TM.ActiveCalls(d.calls))
    ensures d.cfg.tiers != []
    ensures var x, y := RunDue(d, d.calls, ids, round), RunDue(d, d.calls, other, round);
      && x.calls == y.calls
      && multiset(x.ledger) == multiset(y.ledger)
      && Sum(x.ledger, f) == Sum(y.ledger, f)
  {
    ActiveListIsReady(d, ids, round);
    ActiveListIsReady(d, other, round);
    RunDueClosedForm(d, d.calls, ids, round);
    RunDueClosedForm(d, d.calls, other, round);
    SameEffect(d, ids, other, round);
    hide DbInv, RunDue, Ready, Sum, AllRows, AllCalls, TM.Lists;
    SumOfPermutation(RunDue(d, d.calls, ids, round).ledger, RunDue(d, d.calls, other, round).ledger, f);
  }

  /** The call rows do not depend on the order even when active calls share a model. */
  lemma RowsDoNotDependOnOrder(d: DB, ids: seq<Id>, other: seq<Id>, round: Round)
    requires DbInv(d) && round.at <= d.now
    requires TM.Lists(ids, TM.ActiveCalls(d.calls)) && TM.Lists(other, TM.ActiveCalls(d.calls))
    ensures d.cfg.tiers != []
    ensures RunDue(d, d.calls, ids, round).calls == RunDue(d, d.calls, other, round).calls
  {
    hide DbInv, RunDue, AllCalls, TM.Lists, DistinctModels, ModelsDiffer;
    ActiveListIsReady(d, ids, round);
    ActiveListIsReady(d, other, round);
    RunDueRows(d, d.calls, ids, round);
    RunDueRows(d, d.calls, other, round);
    hide Ready;
    SameCallRows(d, ids, other, round);
  }

  lemma SameCallRows(d: DB, ids: seq<Id>, other: seq<Id>, round: Round)
    requires TM.Lists(ids, TM.ActiveCalls(d.calls)) && TM.Lists(other, TM.ActiveCalls(d.calls))
    ensures AllCalls(d, ids, round) == AllCalls(d, other, round)
  {
    hide FinalOf;
    assert forall id :: id in ids <==> id in other;
  }

  lemma SameEffect(d: DB, ids: seq<Id>, other: seq<Id>, round: Round)
    requires d.cfg.tiers != [] && TM.Lists(ids, TM.ActiveCalls(d.calls)) && TM.Lists(other, TM.ActiveCalls(d.calls))
    ensures AllCalls(d, ids, round) == AllCalls(d, other, round)
    ensures multiset(d.ledger + AllRows(d, ids, round)) == multiset(d.ledger + AllRows(d, other, round))
  {
    hide RowsOf, FinalOf;
    assert forall id :: id in ids <==> id in other;
    ListingsArePermutations(ids, other, TM.ActiveCalls(d.calls));
    RowsOfPermutation(d, ids, other, round);
  }

  /** Running again at the same moment changes nothing. */
  lemma SecondRunChangesNothing(d: DB, ids: seq<Id>, again: seq<Id>, round: Round)
    requires DbInv(d) && round.at <= d.now
    requires TM.Lists(ids, TM.ActiveCalls(d.calls))
    ensures d.cfg.tiers != []
    ensures var d' := RunDue(d, d.calls, ids, round);
      TM.Lists(again, TM.ActiveCalls(d'.calls)) ==> RunDue(d', d'.calls, again, round) == d'
  {
    ActiveListIsReady(d, ids, round);
    RunDueRows(d, d.calls, ids, round);
    var d' := RunDue(d, d.calls, ids, round);
    if TM.Lists(again, TM.ActiveCalls(d'.calls)) {
      hide RunDue, DbInv, AllRows;
      forall i | 0 <= i < |again| ensures again[i] in d'.calls && LastDue(again[i], d'.calls[again[i]], round) <= d'.calls[again[i]].billed {
        assert again[i] in TM.ActiveCalls(d'.calls);
        CaughtUpCalls(d, ids, round, again[i]);
      }
      IdleRun(d', d'.calls, again, round);
    }
  }

  /** A call that is still active after a run has no minute left to charge. */
  lemma CaughtUpCalls(d: DB, ids: seq<Id>, round: Round, id: Id)
    requires Ready(d, ids, round) && TM.Lists(ids, TM.ActiveCalls(d.calls))
    requires id in d.calls && AllCalls(d, ids, round)[id].status == Active
    ensures LastDue(id, AllCalls(d, ids, round)[id], round) <= AllCalls(d, ids, round)[id].billed
  {
    hide DbInv, Sum, Affordable, FinalRow, Want;
    assert id in TM.ActiveCalls(d.calls) && id in ids;
    var row := d.calls[id];
    var f := FootprintOf(d, id);
    assert f.row == row && row.startedAt.Some?;
    BalancesNotNegative(d, id);
    hide DbInv, FootprintOf, Ready, TM.Lists, Minutes;
    var due := LastDue(id, row, round);
    NothingLeft(row, due, Minutes(f, due), d.now);
    if due > row.billed { UntilAgain(round.broken, id, row.billed + 1, DueMinute(round.at, row.startedAt.value)); }
  }

  /** A catch-up that leaves the call active has charged all it wanted. */
  lemma NothingLeft(row: Call, last: int, k: nat, now: int)
    requires row.status == Active && k <= Want(row, last) && FinalRow(row, last, k, now).status == Active
    ensures FinalRow(row, last, k, now).startedAt == row.startedAt
    ensures FinalRow(row, last, k, now).billed == if last > row.billed then last else row.billed
  {
  }

  lemma {:induction false} IdleRun(d: DB, snapshot: map<Id, Call>, ids: seq<Id>, round: Round)
    requires d.cfg.tiers != []
    requires forall i :: 0 <= i < |ids| ==> ids[i] in snapshot && LastDue(ids[i], snapshot[ids[i]], round) <= snapshot[ids[i]].billed
    ensures RunDue(d, snapshot, ids, round) == d
    decreases |ids|
  {
    if ids != [] { IdleRun(d, snapshot, ids[1..], round); }
  }

  // ------------------------------------------------------- invariants of the loop

  /** The minute about to be charged is the next one, unless the call is over. */
  ghost predicate OnTrack(d: DB, call: Id, n: nat, last: int) {
    && call in d.calls
    && (d.calls[call].status == Active ==>
          && n == d.calls[call].billed + 1 && d.calls[call].startedAt.Some?
          && last <= DueMinute(d.now, d.calls[call].startedAt.value))
  }

  predicate SameRow(calls: map<Id, Call>, snapshot: map<Id, Call>, id: Id) {
    id in calls && id in snapshot && calls[id] == snapshot[id]
  }

  /** After the first i calls of the list: the rest of the run is still ahead, on rows that are
      as they were listed. */
  ghost predicate ListedUpTo(start: DB, ids: seq<Id>, round: Round, i: nat, d: DB) {
    && start.cfg.tiers != [] && d.cfg == start.cfg && d.now == start.now && i <= |ids|
    && (forall j :: 0 <= j < |ids| ==> ids[j] in start.calls)
    && (forall j, k :: 0 <= j < k < |ids| ==> ids[j] != ids[k])
    && (forall j :: i <= j < |ids| ==> SameRow(d.calls, start.calls, ids[j]))
    && RunDue(d, start.calls, ids[i..], round) == RunDue(start, start.calls, ids, round)
  }

  lemma RunStarts(d: DB, ids: seq<Id>, round: Round)
    requires d.cfg.tiers != [] && TM.Lists(ids, TM.ActiveCalls(d.calls))
    ensures ListedUpTo(d, ids, round, 0, d)
  {
    assert ids[0..] == ids;
    hide RunDue;
  }

  lemma RunEnds(start: DB, ids: seq<Id>, round: Round, d: DB)
    requires ListedUpTo(start, ids, round, |ids|, d)
    ensures start.cfg.tiers != [] && d == RunDue(start, start.calls, ids, round)
  {
    assert ids[|ids|..] == [];
  }

  lemma NextInList(start: DB, ids: seq<Id>, i: nat, round: Round, d: DB)
    requires i < |ids| && round.at <= d.now && ListedUpTo(start, ids, round, i, d)
    ensures ids[i] in start.calls
    ensures var row := start.calls[ids[i]];
      row.startedAt.Some? ==> OnTrack(d, ids[i], row.billed + 1, DueMinute(round.at, row.startedAt.value))
  {
    hide RunDue;
    if start.calls[ids[i]].startedAt.Some? { TM.DueMinuteMonotone(round.at, d.now, start.calls[ids[i]].startedAt.value); }
    assert SameRow(d.calls, start.calls, ids[i]);
  }

  /** Catching up the next call is one unfolding of the run. */
  lemma OneMoreCharged(start: DB, ids: seq<Id>, i: nat, round: Round, d: DB, d': DB)
    requires i < |ids| && ListedUpTo(start, ids, round, i, d)
    requires var row := start.calls[ids[i]];
      d' == if row.startedAt.None? then d else CatchUp(d, ids[i], row.billed + 1, LastDue(ids[i], row, round))
    requires forall other :: other in d.calls && other != ids[i] ==> other in d'.calls && d'.calls[other] == d.calls[other]
    ensures ListedUpTo(start, ids, round, i + 1, d')
  {
    hide CatchUp, LastDue, RunDue;
    UnfoldRun(d, start.calls, ids, i, round);
    forall j | i + 1 <= j < |ids| ensures SameRow(d'.calls, start.calls, ids[j]) {
      assert SameRow(d.calls, start.calls, ids[j]);
    }
  }

  lemma UnfoldRun(d: DB, snapshot: map<Id, Call>, ids: seq<Id>, i: nat, round: Round)
    requires d.cfg.tiers != [] && i < |ids| && forall j :: 0 <= j < |ids| ==> ids[j] in snapshot
    ensures var row := snapshot[ids[i]];
      var d' := if row.startedAt.None? then d else CatchUp(d, ids[i], row.billed + 1, LastDue(ids[i], row, round));
      RunDue(d, snapshot, ids[i..], round) == RunDue(d', snapshot, ids[i + 1..], round)
  {
    assert ids[i..][0] == ids[i] && ids[i..][1..] == ids[i + 1..];
    hide CatchUp;
  }

  lemma StaysOnTrack(d: DB, call: Id, n: nat, last: int)
    requires DbInv(d) && OnTrack(d, call, n, last) && n <= last && d.cfg.tiers != []
    ensures var (d', r) := ChargeMinute(d, call, n);
      && DbInv(d')
      && (r != OutOfCredits ==> OnTrack(d', call, n + 1, last))
      && forall other :: other in d.calls && other != call ==> other in d'.calls && d'.calls[other] == d.calls[other]
  {
    hide DbInv, Posted, Sum, CommissionOf, Rows, DueMinute, IsDue;
    NextIsDue(d, call, n, last);
    NextIsUnposted(d, call, n, last);
    ChargeKeeps(d, call, n);
  }

  lemma NextIsUnposted(d: DB, call: Id, n: nat, last: int)
    requires DbInv(d) && OnTrack(d, call, n, last)
    ensures d.calls[call].status == Active ==> CallMinute(call, n) !in Posted(d.ledger)
  {
    if n >= 1 { TM.PostedIsBilled(d, call, n); }
    hide DbInv, Posted;
  }

  lemma NextIsDue(d: DB, call: Id, n: nat, last: int)
    requires OnTrack(d, call, n, last) && n <= last
    ensures IsDue(d, call, n)
  {
  }
}

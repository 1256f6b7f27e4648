/** The append-only double-entry ledger (src/ledger/ledger.service.ts). */
module Ledger {
  import opened Prelude
  import opened Tables
  import Keys

  // --------------------------------------------------------------- aggregates

  /** The WHERE clauses under which amounts are summed. */
  datatype Filter =
    | OfAccount(account: Account)
    | EarnedBy(model: Id)                      // positive entries of a model account
    | MinutesOf(call: Id, account: Account)    // what a call's minutes moved on an account
    | PayoutOf(payout: Id, account: Account)   // debit and reversal of a payout on an account
    | RechargeOf(recharge: Id, account: Account)
    | SharesOf(model: Id)                      // a model's shares of minutes and gifts
    | ReturnedTo(model: Id)                    // what reversed payouts gave back to a model
    | OfGroup(group: Group)                    // one transaction group
    | OfCall(call: Id)                         // all minutes of a call
    | Internal                                 // clients, models and the platform
    | Everything
  {
    predicate Picks(account: Account, amount: int, group: Group) {
      match this
      case OfAccount(a) => account == a
      case EarnedBy(m) => account == Model(m) && amount > 0
      case MinutesOf(call, a) => account == a && group.CallMinute? && group.call == call
      case PayoutOf(p, a) => account == a && (group == PayoutAsked(p) || group == PayoutReversed(p))
      case RechargeOf(r, a) => account == a && group == RechargePaid(r)
      case SharesOf(m) => account == Model(m) && (group.CallMinute? || group.GiftSent?)
      case ReturnedTo(m) => account == Model(m) && group.PayoutReversed?
      case OfGroup(g) => group == g
      case OfCall(call) => group.CallMinute? && group.call == call
      case Internal => account != External
      case Everything => true
    }

    function Part(account: Account, amount: int, group: Group): int {
      if Picks(account, amount, group) then amount else 0
    }
  }

  /** Sum of the amounts of the rows a filter picks; 0 when there are none. */
  function Sum(l: seq<Entry>, f: Filter): int {
    if l == [] then 0
    else
      var e := l[|l| - 1];
      Sum(l[..|l| - 1], f) + f.Part(e.account, e.amount, e.group)
  }

  function Balance(l: seq<Entry>, a: Account): int {
    Sum(l, OfAccount(a))
  }

  function GrossEarned(l: seq<Entry>, model: Id): int {
    Sum(l, EarnedBy(model))
  }

  /** A balance, row by row: nothing at first, and each row of the account adds its amount. Gross
      earnings likewise, from the positive rows of a model only. */
  lemma BalanceRowByRow(l: seq<Entry>, e: Entry, a: Account, model: Id)
    ensures Balance([], a) == 0 && GrossEarned([], model) == 0
    ensures Balance(l + [e], a) == if e.account == a then Balance(l, a) + e.amount else Balance(l, a)
    ensures GrossEarned(l + [e], model) ==
      if e.account == Model(model) && e.amount > 0 then GrossEarned(l, model) + e.amount else GrossEarned(l, model)
  {
    assert (l + [e])[..|l|] == l;
  }

  /** The groups that have at least one row. */
  ghost function Posted(l: seq<Entry>): set<Group> {
    set e | e in l :: e.group
  }

  lemma {:induction false} SumOfConcat(l: seq<Entry>, r: seq<Entry>, f: Filter)
    ensures Sum(l + r, f) == Sum(l, f) + Sum(r, f)
  {
    if r == [] {
      assert l + r == l;
    } else {
      assert (l + r)[..|l + r| - 1] == l + r[..|r| - 1];
      SumOfConcat(l, r[..|r| - 1], f);
    }
  }

  lemma PostedOfConcat(l: seq<Entry>, r: seq<Entry>)
    ensures Posted(l + r) == Posted(l) + Posted(r)
  {
  }

  /** Taking one row out lowers a sum by that row's part. */
  lemma SumWithout(l: seq<Entry>, i: nat, f: Filter)
    requires i < |l|
    ensures Sum(l, f) == Sum(l[..i] + l[i + 1..], f) + f.Part(l[i].account, l[i].amount, l[i].group)
  {
    var before, after := l[..i], l[i + 1..];
    assert l == before + ([l[i]] + after);
    SumOfConcat(before, [l[i]] + after, f);
    SumOfConcat([l[i]], after, f);
    SumOfConcat(before, after, f);
  }

  /** A filter that picks no row sums to zero. */
  lemma {:induction false} NothingPicked(l: seq<Entry>, f: Filter)
    requires forall e :: e in l ==> !f.Picks(e.account, e.amount, e.group)
    ensures Sum(l, f) == 0
  {
    if l != [] { NothingPicked(l[..|l| - 1], f); }
  }

  lemma SameAfterRemoval(l: seq<Entry>, i: nat, r: seq<Entry>, j: nat)
    requires multiset(l) == multiset(r) && i < |l| && j < |r| && l[i] == r[j]
    ensures multiset(l[..i] + l[i + 1..]) == multiset(r[..j] + r[j + 1..])
  {
    MultisetWithout(l, i);
    MultisetWithout(r, j);
  }

  lemma LastRow(l: seq<Entry>, f: Filter)
    requires l != []
    ensures var e := l[|l| - 1]; Sum(l, f) == Sum(l[..|l| - 1], f) + f.Part(e.account, e.amount, e.group)
  {
  }

  /** A sum does not depend on the order of the rows. */
  lemma {:induction false} SumOfPermutation(l: seq<Entry>, r: seq<Entry>, f: Filter)
    requires multiset(l) == multiset(r)
    ensures Sum(l, f) == Sum(r, f)
  {
    if l == [] {
      assert |multiset(r)| == 0;
    } else {
      var n := |l| - 1;
      assert l[n] in multiset(l) && l[n] in multiset(r);
      var i :| 0 <= i < |r| && r[i] == l[n];
      assert l[..n] + l[n + 1..] == l[..n];
      SameAfterRemoval(l, n, r, i);
      hide Sum;
      LastRow(l, f);
      SumOfPermutation(l[..n], r[..i] + r[i + 1..], f);
      SumWithout(r, i, f);
    }
  }

  /** Every account's balance adds up to the sum over all rows. */
  lemma {:induction false} InternalPlusExternal(l: seq<Entry>)
    ensures Sum(l, Everything) == Sum(l, Internal) + Balance(l, External)
  {
    if l != [] { InternalPlusExternal(l[..|l| - 1]); }
  }

  /** Earnings only grow as the ledger grows. */
  lemma {:induction false} EarningsNeverShrink(l: seq<Entry>, r: seq<Entry>, model: Id)
    ensures GrossEarned(l, model) <= GrossEarned(l + r, model)
  {
    if r == [] {
      assert l + r == l;
    } else {
      assert (l + r)[..|l + r| - 1] == l + r[..|r| - 1];
      EarningsNeverShrink(l, r[..|r| - 1], model);
    }
  }

  // ------------------------------------------------------------------ posting

  /** The rows of a batch: the lines in order, numbered from 0. */
  function Rows(g: Group, lines: seq<Line>): (rows: seq<Entry>)
    ensures |rows| == |lines|
    ensures forall i :: 0 <= i < |rows| ==>
      rows[i] == Entry(lines[i].account, lines[i].entryType, lines[i].amount, g, i)
  {
    seq(|lines|, i requires 0 <= i < |lines| =>
      Entry(lines[i].account, lines[i].entryType, lines[i].amount, g, i))
  }

  function Total(lines: seq<Line>): int {
    if lines == [] then 0 else Total(lines[..|lines| - 1]) + lines[|lines| - 1].amount
  }

  /** The unique column holds this text already. */
  predicate RefTaken(l: seq<Entry>, ref: string) {
    exists k :: 0 <= k < |l| && Keys.RefText(l[k].group, l[k].index) == ref
  }

  /** Inserting the batch would violate the unique column. */
  predicate Collides(l: seq<Entry>, g: Group, lines: seq<Line>) {
    exists i :: 0 <= i < |lines| && RefTaken(l, Keys.RefText(g, i))
  }

  datatype PostOutcome = Unbalanced | Duplicate | Appended(ledger: seq<Entry>)

  /** What one call of postTransaction does to the stored rows. */
  function Post(l: seq<Entry>, g: Group, lines: seq<Line>): PostOutcome {
    if Total(lines) != 0 then Unbalanced
    else if Collides(l, g, lines) then Duplicate
    else Appended(l + Rows(g, lines))
  }

  lemma TotalOfTwo(x: Line, y: Line)
    ensures Total([x, y]) == x.amount + y.amount
  {
    assert [x, y][..1] == [x] && [x][..0] == [];
    assert Total([x]) == x.amount;
  }

  lemma TotalOfThree(x: Line, y: Line, z: Line)
    ensures Total([x, y, z]) == x.amount + y.amount + z.amount
  {
    assert [x, y, z][..2] == [x, y];
    TotalOfTwo(x, y);
  }

  /** A row of this group at this position is stored. */
  ghost predicate At(l: seq<Entry>, g: Group, index: nat) {
    exists k :: 0 <= k < |l| && l[k].group == g && l[k].index == index
  }

  /** No two rows share group and position, and every group starts at position 0. */
  ghost predicate UniqueRefs(l: seq<Entry>) {
    && (forall i, j :: 0 <= i < j < |l| ==> l[i].group != l[j].group || l[i].index != l[j].index)
    && (forall g :: g in Posted(l) ==> At(l, g, 0))
  }

  lemma RefTakenIffAt(l: seq<Entry>, g: Group, index: nat)
    ensures RefTaken(l, Keys.RefText(g, index)) <==> At(l, g, index)
  {
    forall k | 0 <= k < |l|
      ensures Keys.RefText(l[k].group, l[k].index) == Keys.RefText(g, index) <==> l[k].group == g && l[k].index == index
    {
      Keys.RefTextInjective(l[k].group, l[k].index, g, index);
    }
  }

  /** The invariant is what the unique column demands: all stored texts differ. */
  lemma UniqueRefsMeansUniqueTexts(l: seq<Entry>, i: nat, j: nat)
    requires UniqueRefs(l) && i < j < |l|
    ensures Keys.RefText(l[i].group, l[i].index) != Keys.RefText(l[j].group, l[j].index)
  {
    Keys.RefTextInjective(l[i].group, l[i].index, l[j].group, l[j].index);
  }

  lemma AtMeansPosted(l: seq<Entry>, g: Group, index: nat)
    requires At(l, g, index)
    ensures g in Posted(l)
  {
    var k :| 0 <= k < |l| && l[k].group == g && l[k].index == index;
    assert l[k] in l;
  }

  /** A non-empty batch collides exactly when its group was posted before, whatever its lines are. */
  lemma CollidesIffPosted(l: seq<Entry>, g: Group, lines: seq<Line>)
    requires UniqueRefs(l) && lines != []
    ensures Collides(l, g, lines) <==> g in Posted(l)
  {
    if Collides(l, g, lines) {
      var i :| 0 <= i < |lines| && RefTaken(l, Keys.RefText(g, i));
      RefTakenIffAt(l, g, i);
      AtMeansPosted(l, g, i);
    }
    if g in Posted(l) {
      RefTakenIffAt(l, g, 0);
    }
  }

  lemma PostedByRows(l: seq<Entry>, g: Group, lines: seq<Line>)
    requires lines != []
    ensures Posted(l + Rows(g, lines)) == Posted(l) + {g}
  {
    var rows := Rows(g, lines);
    PostedOfConcat(l, rows);
    assert rows[0] in rows;
  }

  /** Posting keeps the unique column unique and adds exactly its own group. */
  lemma PostKeepsUnique(l: seq<Entry>, g: Group, lines: seq<Line>)
    requires UniqueRefs(l) && g !in Posted(l) && lines != []
    ensures UniqueRefs(l + Rows(g, lines))
    ensures Posted(l + Rows(g, lines)) == Posted(l) + {g}
  {
    var rows := Rows(g, lines);
    var m := l + rows;
    PostedByRows(l, g, lines);
    forall i, j | 0 <= i < j < |m| ensures m[i].group != m[j].group || m[i].index != m[j].index {
      if i < |l| { assert l[i] in l; }
    }
    forall h | h in Posted(m) ensures At(m, h, 0) {
      if h == g {
        assert m[|l|] == rows[0];
      } else {
        var k :| 0 <= k < |l| && l[k].group == h && l[k].index == 0;
        assert m[k] == l[k];
      }
    }
  }

  /** What a batch of two lines adds to a sum. */
  lemma SumOfTwo(l: seq<Entry>, g: Group, x: Line, y: Line, f: Filter)
    ensures Sum(l + Rows(g, [x, y]), f)
         == Sum(l, f) + f.Part(x.account, x.amount, g) + f.Part(y.account, y.amount, g)
  {
    var rows := Rows(g, [x, y]);
    SumOfConcat(l, rows, f);
    assert rows[..1][..0] == [];
    assert Sum(rows[..1], f) == f.Part(x.account, x.amount, g);
  }

  /** What a batch of three lines adds to a sum. */
  lemma SumOfThree(l: seq<Entry>, g: Group, x: Line, y: Line, z: Line, f: Filter)
    ensures Sum(l + Rows(g, [x, y, z]), f)
         == Sum(l, f) + f.Part(x.account, x.amount, g) + f.Part(y.account, y.amount, g) + f.Part(z.account, z.amount, g)
  {
    var rows := Rows(g, [x, y, z]);
    SumOfConcat(l, rows, f);
    assert rows[..2] == Rows(g, [x, y]);
    SumOfTwo([], g, x, y, f);
    assert [] + rows[..2] == rows[..2];
  }

  /** Rows that add up to zero leave the sum over all accounts unchanged. */
  lemma {:induction false} RowsTotal(g: Group, lines: seq<Line>)
    ensures Sum(Rows(g, lines), Everything) == Total(lines)
  {
    if lines != [] {
      var n := |lines| - 1;
      assert Rows(g, lines)[..n] == Rows(g, lines[..n]);
      RowsTotal(g, lines[..n]);
    }
  }

  /** Whatever is posted, in whatever order, the ledger keeps adding up to zero. */
  lemma PostKeepsZeroSum(l: seq<Entry>, g: Group, lines: seq<Line>)
    requires Post(l, g, lines).Appended?
    ensures Sum(Post(l, g, lines).ledger, Everything) == Sum(l, Everything)
  {
    SumOfConcat(l, Rows(g, lines), Everything);
    RowsTotal(g, lines);
  }

  /** Replaying a group that was posted never stores anything, even with other lines. */
  lemma ReplayStoresNothing(l: seq<Entry>, g: Group, lines: seq<Line>, other: seq<Line>)
    requires UniqueRefs(l) && lines != [] && other != []
    requires Post(l, g, lines).Appended?
    ensures !Post(Post(l, g, lines).ledger, g, other).Appended?
  {
    CollidesIffPosted(l, g, lines);
    PostKeepsUnique(l, g, lines);
    CollidesIffPosted(l + Rows(g, lines), g, other);
  }

  // ------------------------------------------------- the self-managed service

  datatype Reply = NotBalanced | Replied(posted: bool)

  /** The ledger as a service object: its rows change only through postTransaction. */
  class LedgerService {
    var rows: seq<Entry>

    constructor ()
      ensures rows == [] && UniqueRefs(rows)
    {
      rows := [];
    }

    /** Without a surrounding transaction a duplicate is an acknowledged no-op. */
    method PostTransaction(g: Group, lines: seq<Line>) returns (reply: Reply)
      requires UniqueRefs(rows)
      modifies this
      ensures UniqueRefs(rows)
      ensures Sum(rows, Everything) == old(Sum(rows, Everything))
      ensures reply.NotBalanced? <==> Total(lines) != 0
      ensures reply == Replied(true) && lines != [] ==> g !in old(Posted(rows)) && g in Posted(rows)
      ensures reply == Replied(false) <==> Total(lines) == 0 && lines != [] && g in old(Posted(rows))
      ensures rows == if reply == Replied(true) then old(rows) + Rows(g, lines) else old(rows)
    {
      if lines != [] { CollidesIffPosted(rows, g, lines); }
      match Post(rows, g, lines) {
        case Unbalanced => reply := NotBalanced;
        case Duplicate => reply := Replied(false);
        case Appended(l) =>
          PostKeepsZeroSum(rows, g, lines);
          if lines != [] { PostKeepsUnique(rows, g, lines); } else { assert l == rows; }
          rows := l;
          reply := Replied(true);
      }
    }

    /** A balance is the sum over the account's rows, in whatever order they are stored, and zero
        for an account without rows. */
    method GetBalance(a: Account) returns (balance: int)
      ensures forall l: seq<Entry> :: multiset(l) == multiset(rows) ==> balance == Balance(l, a)
      ensures (forall e :: e in rows ==> e.account != a) ==> balance == 0
    {
      balance := Balance(rows, a);
      forall l: seq<Entry> | multiset(l) == multiset(rows) ensures balance == Balance(l, a) {
        SumOfPermutation(l, rows, OfAccount(a));
      }
      if forall e :: e in rows ==> e.account != a { NothingPicked(rows, OfAccount(a)); }
    }
  }
}

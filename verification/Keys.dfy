/** The texts that act as keys of the ledger: group names and idempotency references.
    Typed keys stand for their texts because rendering is injective over all identifiers. */
module Keys {
  import opened Tables

  function Digit(d: nat): char
    requires d < 10
  {
    "0123456789"[d]
  }

  function Digits(n: nat): (s: string)
    ensures s != [] && forall i :: 0 <= i < |s| ==> '0' <= s[i] <= '9'
  {
    if n < 10 then [Digit(n)] else Digits(n / 10) + [Digit(n % 10)]
  }

  lemma {:induction false} DigitsInjective(m: nat, n: nat)
    requires Digits(m) == Digits(n)
    ensures m == n
  {
    var s, t := Digits(m), Digits(n);
    assert s[|s| - 1] == Digit(m % 10) && t[|t| - 1] == Digit(n % 10);
    if m >= 10 && n >= 10 {
      assert s[..|s| - 1] == Digits(m / 10) && t[..|t| - 1] == Digits(n / 10);
      DigitsInjective(m / 10, n / 10);
    }
  }

  /** The right-most separator cannot lie inside a tail that has none. */
  lemma SeparatorPosition(a: string, x: string, b: string, y: string, sep: char)
    requires sep !in x
    requires a + [sep] + x == b + [sep] + y
    ensures |b| <= |a|
  {
    assert (b + [sep] + y)[|b|] == sep;
    assert forall i :: |a| < i < |a + [sep] + x| ==> (a + [sep] + x)[i] == x[i - |a| - 1];
  }

  /** Splitting at the last separator is unambiguous when no separator follows it. */
  lemma LastSeparator(a: string, x: string, b: string, y: string, sep: char)
    requires sep !in x && sep !in y
    requires a + [sep] + x == b + [sep] + y
    ensures a == b && x == y
  {
    var s, t := a + [sep] + x, b + [sep] + y;
    SeparatorPosition(a, x, b, y, sep);
    SeparatorPosition(b, y, a, x, sep);
    assert a == s[..|a|] && b == t[..|b|];
    assert x == s[|a| + 1..] && y == t[|b| + 1..];
  }

  lemma SamePrefix(p: string, x: string, y: string)
    requires p + x == p + y
    ensures x == y
  {
    assert x == (p + x)[|p|..] && y == (p + y)[|p|..];
  }

  /** Reading a text as a decimal number. */
  function NumberOf(s: string): int {
    if s == "" then 0 else NumberOf(s[..|s| - 1]) * 10 + (s[|s| - 1] as int - '0' as int)
  }

  /** The digits are the decimal digits of the number, without leading zeros. */
  lemma {:induction false} DigitsAreDecimal(n: nat)
    ensures NumberOf(Digits(n)) == n
    ensures n > 0 ==> Digits(n)[0] != '0'
  {
    var s := Digits(n);
    assert s[|s| - 1] as int - '0' as int == n % 10;
    if n >= 10 {
      DigitsAreDecimal(n / 10);
      assert s[..|s| - 1] == Digits(n / 10);
    } else {
      assert s[..0] == "";
    }
  }

  /** The texts that are stored. */
  lemma TextsInWords(id: string)
    ensures GroupText(CallMinute(id, 12)) == "call:" + id + ":min:12"
    ensures GroupText(GiftSent(id)) == "gift:" + id && GroupText(RechargePaid(id)) == "recharge:" + id
    ensures GroupText(PayoutAsked(id)) == "payout:" + id && GroupText(PayoutReversed(id)) == "payout-reversal:" + id
    ensures RefText(GiftSent("g"), 2) == "gift:g#2"
  {
    assert Digits(1) == "1" && Digits(2) == "2" && Digits(12) == "12";
  }

  // ------------------------------------------------------------ ledger groups

  function GroupText(g: Group): string {
    match g
    case CallMinute(call, minute) => "call:" + call + ":min:" + Digits(minute)
    case GiftSent(gift) => "gift:" + gift
    case RechargePaid(recharge) => "recharge:" + recharge
    case PayoutAsked(payout) => "payout:" + payout
    case PayoutReversed(payout) => "payout-reversal:" + payout
  }

  function Prefix(g: Group): string {
    match g
    case CallMinute(_, _) => "call:"
    case GiftSent(_) => "gift:"
    case RechargePaid(_) => "recharge:"
    case PayoutAsked(_) => "payout:"
    case PayoutReversed(_) => "payout-reversal:"
  }

  lemma TextStartsWithPrefix(g: Group)
    ensures Prefix(g) <= GroupText(g)
  {
    if g.CallMinute? {
      assert GroupText(g) == "call:" + (g.call + ":min:" + Digits(g.minute));
    }
  }

  /** No two families share a text, whatever the identifiers are. */
  lemma FamiliesDisjoint(g: Group, h: Group)
    requires GroupText(g) == GroupText(h)
    ensures Prefix(g) == Prefix(h)
  {
    TextStartsWithPrefix(g);
    TextStartsWithPrefix(h);
    var s := GroupText(g);
    assert s[0] == Prefix(g)[0] == Prefix(h)[0];
    if s[0] == 'p' {
      assert s[6] == Prefix(g)[6] == Prefix(h)[6];
    }
  }

  lemma GroupTextInjective(g: Group, h: Group)
    requires GroupText(g) == GroupText(h)
    ensures g == h
  {
    FamiliesDisjoint(g, h);
    match g {
      case CallMinute(call, minute) =>
        var x, y := Digits(minute), Digits(h.minute);
        assert GroupText(g) == ("call:" + call + ":min") + ":" + x;
        assert GroupText(h) == ("call:" + h.call + ":min") + ":" + y;
        LastSeparator("call:" + call + ":min", x, "call:" + h.call + ":min", y, ':');
        DigitsInjective(minute, h.minute);
        var a, b := "call:" + call + ":min", "call:" + h.call + ":min";
        assert call == a[5..|a| - 4] && h.call == b[5..|b| - 4];
      case GiftSent(gift) => SamePrefix("gift:", gift, h.gift);
      case RechargePaid(recharge) => SamePrefix("recharge:", recharge, h.recharge);
      case PayoutAsked(payout) => SamePrefix("payout:", payout, h.payout);
      case PayoutReversed(payout) => SamePrefix("payout-reversal:", payout, h.payout);
    }
  }

  /** A group text and a position make one reference, over all texts a group could have. */
  lemma ReferenceInjective(g: string, i: nat, h: string, j: nat)
    ensures g + "#" + Digits(i) == h + "#" + Digits(j) <==> g == h && i == j
  {
    if g + "#" + Digits(i) == h + "#" + Digits(j) {
      LastSeparator(g, Digits(i), h, Digits(j), '#');
      DigitsInjective(i, j);
    }
  }

  /** The unique column of a ledger row. */
  function RefText(g: Group, index: nat): string {
    GroupText(g) + "#" + Digits(index)
  }

  /** Two rows share their unique text exactly when they share group and position. */
  lemma RefTextInjective(g: Group, i: nat, h: Group, j: nat)
    ensures RefText(g, i) == RefText(h, j) <==> g == h && i == j
  {
    ReferenceInjective(GroupText(g), i, GroupText(h), j);
    if RefText(g, i) == RefText(h, j) { GroupTextInjective(g, h); }
  }
}

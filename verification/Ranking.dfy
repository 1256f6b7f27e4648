/** The tier table and the scan that picks a tier (src/ranking/ranking.ts).
    Earnings, thresholds and rates are exact decimals, modelled as reals. */
module Ranking {
  import opened Prelude

  datatype Tier = Bronze | Prata | Ouro | Diamante

  datatype TierRow = TierRow(tier: Tier, min: real, rate: real)

  datatype TierInfo = TierInfo(
    tier: Tier, rate: real,
    nextTier: Option<Tier>, nextThreshold: Option<real>, remaining: Option<real>)

  const TIER_ORDER: seq<Tier> := [Bronze, Prata, Ouro, Diamante]
  const DEFAULT_THRESHOLDS: seq<real> := [0.0, 500.0, 2000.0, 10000.0]
  const DEFAULT_RATES: seq<real> := [0.30, 0.25, 0.20, 0.15]

  /** An environment list: unset, or its comma-separated parts, each a number or not one. */
  type EnvList = Option<seq<Option<real>>>

  ghost predicate Parses(raw: EnvList) {
    raw.Some? && |raw.value| == 4 && forall i :: 0 <= i < 4 ==> raw.value[i].Some?
  }

  /** Any other length, or any part that is no number, discards the whole list. */
  function ParseList(raw: EnvList): (parts: Option<seq<real>>)
    ensures parts.Some? <==> Parses(raw)
    ensures parts.Some? ==> |parts.value| == 4 && forall i :: 0 <= i < 4 ==> raw.value[i] == Some(parts.value[i])
  {
    if raw.Some? && |raw.value| == 4 && forall i :: 0 <= i < 4 ==> raw.value[i].Some?
    then Some(seq(4, i requires 0 <= i < 4 => raw.value[i].value))
    else None
  }

  function ValuesOr(raw: EnvList, defaults: seq<real>): (values: seq<real>)
    requires |defaults| == 4
    ensures |values| == 4
  {
    match ParseList(raw)
    case Some(parts) => parts
    case None => defaults
  }

  function Min(x: real, y: real): real {
    if x <= y then x else y
  }

  function LoadRow(i: nat, globalRate: real, thresholds: seq<real>, rates: seq<real>): TierRow
    requires i < 4 == |thresholds| == |rates|
  {
    TierRow(TIER_ORDER[i], thresholds[i], Min(globalRate, if i == 0 then globalRate else rates[i]))
  }

  /** Bronze takes the global rate; every target above it is capped by the global rate. */
  function LoadTierTable(globalRate: real, thresholds: EnvList, rates: EnvList): (table: seq<TierRow>)
    ensures |table| == 4
    ensures forall i :: 0 <= i < 4 ==> table[i].rate <= globalRate
  {
    var th := ValuesOr(thresholds, DEFAULT_THRESHOLDS);
    var rt := ValuesOr(rates, DEFAULT_RATES);
    [LoadRow(0, globalRate, th, rt), LoadRow(1, globalRate, th, rt),
     LoadRow(2, globalRate, th, rt), LoadRow(3, globalRate, th, rt)]
  }

  /** The table, column by column: thresholds as configured or 0, 500, 2000 and 10000; the global rate
      for Bronze; above it the smaller of the global rate and the target, by default 0.25, 0.20, 0.15. */
  lemma TableInWords(globalRate: real, thresholds: EnvList, rates: EnvList)
    ensures var table := LoadTierTable(globalRate, thresholds, rates);
      && table[0].tier == Bronze && table[1].tier == Prata && table[2].tier == Ouro && table[3].tier == Diamante
      && (Parses(thresholds) ==> forall i :: 0 <= i < 4 ==> Some(table[i].min) == thresholds.value[i])
      && (!Parses(thresholds) ==> table[0].min == 0.0 && table[1].min == 500.0 && table[2].min == 2000.0 && table[3].min == 10000.0)
      && table[0].rate == globalRate
      && (Parses(rates) ==> forall i :: 1 <= i < 4 ==>
            table[i].rate == if rates.value[i].value < globalRate then rates.value[i].value else globalRate)
      && (!Parses(rates) ==>
            && table[1].rate == (if 0.25 < globalRate then 0.25 else globalRate)
            && table[2].rate == (if 0.20 < globalRate then 0.20 else globalRate)
            && table[3].rate == (if 0.15 < globalRate then 0.15 else globalRate))
  {
  }

  // ---------------------------------------------------------------- the scan

  /** Index of the last row whose threshold is reached; the first row when none is. */
  function LastReached(earned: real, table: seq<TierRow>): (idx: nat)
    ensures table == [] || idx < |table|
  {
    if table == [] then 0
    else if earned >= table[|table| - 1].min then |table| - 1
    else LastReached(earned, table[..|table| - 1])
  }

  lemma {:induction false} LastReachedIsLast(earned: real, table: seq<TierRow>)
    ensures forall i :: LastReached(earned, table) < i < |table| ==> earned < table[i].min
    ensures LastReached(earned, table) == 0 || earned >= table[LastReached(earned, table)].min
  {
    if table != [] && earned < table[|table| - 1].min {
      LastReachedIsLast(earned, table[..|table| - 1]);
    }
  }

  function InfoAt(earned: real, table: seq<TierRow>, idx: nat): TierInfo
    requires idx < |table|
  {
    var next := if idx + 1 < |table| then Some(table[idx + 1]) else None;
    TierInfo(table[idx].tier, table[idx].rate,
             if next.Some? then Some(next.value.tier) else None,
             if next.Some? then Some(next.value.min) else None,
             if next.Some? then Some(next.value.min - earned) else None)
  }

  method TierForEarnings(earned: real, table: seq<TierRow>) returns (info: TierInfo)
    requires table != []
    ensures info == InfoAt(earned, table, LastReached(earned, table))
    ensures exists k: nat :: k < |table| && Reports(earned, table, k, info)
  {
    var idx := 0;
    for i := 0 to |table|
      invariant idx < |table|
      invariant idx == LastReached(earned, table[..i])
    {
      assert table[..i + 1][..i] == table[..i];
      if earned >= table[i].min { idx := i; }
    }
    assert table[..|table|] == table;
    info := InfoAt(earned, table, idx);
    LastReachedIsLast(earned, table);
    assert Reports(earned, table, idx, info);
  }

  /** The information is about the last row whose threshold is reached, or the first row if none is, and
      about the row after it. */
  ghost predicate Reports(earned: real, table: seq<TierRow>, k: nat, info: TierInfo)
    requires k < |table|
  {
    && (forall j :: k < j < |table| ==> earned < table[j].min) && (k == 0 || table[k].min <= earned)
    && info.tier == table[k].tier && info.rate == table[k].rate
    && if k + 1 < |table|
       then info.nextTier == Some(table[k + 1].tier) && info.nextThreshold == Some(table[k + 1].min)
         && info.remaining == Some(table[k + 1].min - earned)
       else info.nextTier.None? && info.nextThreshold.None? && info.remaining.None?
  }

  /** The rate that billing applies. */
  function RateFor(earned: real, table: seq<TierRow>): real
    requires table != []
  {
    table[LastReached(earned, table)].rate
  }

  /** Earning more never moves a model down, whatever the thresholds are. */
  lemma TierIndexMonotone(earned: real, more: real, table: seq<TierRow>)
    requires earned <= more
    ensures LastReached(earned, table) <= LastReached(more, table)
  {
    LastReachedIsLast(earned, table);
    LastReachedIsLast(more, table);
  }

  /** What is missing for the next tier is always positive. */
  lemma RemainingPositive(earned: real, table: seq<TierRow>)
    requires table != []
    ensures var info := InfoAt(earned, table, LastReached(earned, table));
      info.remaining.Some? ==> info.remaining.value > 0.0
  {
    LastReachedIsLast(earned, table);
  }

  ghost predicate StrictlySorted(table: seq<TierRow>) {
    forall i, j :: 0 <= i < j < |table| ==> table[i].min < table[j].min
  }

  ghost predicate InBand(earned: real, table: seq<TierRow>, i: nat)
    requires i < |table|
  {
    table[i].min <= earned && (i + 1 < |table| ==> earned < table[i + 1].min)
  }

  /** On sorted thresholds the scan returns the one band that contains the earnings. */
  lemma ScanFindsTheBand(earned: real, table: seq<TierRow>, i: nat)
    requires table != [] && StrictlySorted(table) && table[0].min <= earned
    requires i < |table|
    ensures InBand(earned, table, i) <==> i == LastReached(earned, table)
  {
    LastReachedIsLast(earned, table);
  }

  /** Earning exactly the remaining amount reaches exactly the next tier. */
  lemma RemainingReachesNext(earned: real, table: seq<TierRow>)
    requires table != [] && StrictlySorted(table) && table[0].min <= earned
    requires LastReached(earned, table) + 1 < |table|
    ensures var idx := LastReached(earned, table);
      var gap := InfoAt(earned, table, idx).remaining.value;
      LastReached(earned + gap, table) == idx + 1
  {
    var idx := LastReached(earned, table);
    ScanFindsTheBand(table[idx + 1].min, table, idx + 1);
  }

  // ------------------------------------------------- does climbing ever cost?

  /** Earnings are never negative. */
  ghost predicate NeverCostsMore(table: seq<TierRow>)
    requires table != []
  {
    forall earned: real, more: real :: 0.0 <= earned <= more ==> RateFor(more, table) <= RateFor(earned, table)
  }

  /** Some earnings end in this row: every later threshold is above its own, and above zero. */
  ghost predicate Attainable(table: seq<TierRow>, i: nat) {
    i < |table| && forall j :: i < j < |table| ==> 0.0 < table[j].min && table[i].min < table[j].min
  }

  /** The configured targets fall between any two attainable tiers above the first, except where the
      earlier one is at or above the cap. */
  ghost predicate TargetsFall(globalRate: real, thresholds: EnvList, rates: EnvList) {
    var rt := ValuesOr(rates, DEFAULT_RATES);
    var table := LoadTierTable(globalRate, thresholds, rates);
    forall i, j :: 1 <= i < j < 4 && Attainable(table, i) && Attainable(table, j) ==> rt[j] <= rt[i] || globalRate <= rt[i]
  }

  lemma FallingRates(table: seq<TierRow>, i: nat, j: nat)
    requires forall k :: 0 <= k < |table| - 1 ==> table[k + 1].rate <= table[k].rate
    requires i <= j < |table|
    ensures table[j].rate <= table[i].rate
    decreases j - i
  {
    if i < j { FallingRates(table, i, j - 1); }
  }

  /** The earnings with which an attainable row above the first is entered. */
  function Entry(table: seq<TierRow>, i: nat): real
    requires i < |table|
  {
    if table[i].min >= 0.0 then table[i].min else 0.0
  }

  lemma {:induction false} EntryEnters(table: seq<TierRow>, i: nat)
    requires Attainable(table, i)
    ensures LastReached(Entry(table, i), table) == i
  {
    LastReachedIsLast(Entry(table, i), table);
  }

  /** Whatever row the scan ends in is attainable. */
  lemma ReachedIsAttainable(earned: real, table: seq<TierRow>)
    requires table != [] && earned >= 0.0
    ensures LastReached(earned, table) == 0 || Attainable(table, LastReached(earned, table))
  {
    LastReachedIsLast(earned, table);
  }

  /** The cap alone does not keep the promise that a higher tier never costs more: for any lists
      whatever, it holds exactly when the targets of attainable tiers fall. */
  lemma CapSufficesIffTargetsFall(globalRate: real, thresholds: EnvList, rates: EnvList)
    ensures NeverCostsMore(LoadTierTable(globalRate, thresholds, rates)) <==> TargetsFall(globalRate, thresholds, rates)
  {
    var table := LoadTierTable(globalRate, thresholds, rates);
    var rt := ValuesOr(rates, DEFAULT_RATES);
    if TargetsFall(globalRate, thresholds, rates) {
      forall earned: real, more: real | 0.0 <= earned <= more ensures RateFor(more, table) <= RateFor(earned, table) {
        TierIndexMonotone(earned, more, table);
        ReachedIsAttainable(earned, table);
        ReachedIsAttainable(more, table);
        CappedRates(globalRate, thresholds, rates, LastReached(earned, table), LastReached(more, table));
      }
    }
    if NeverCostsMore(table) {
      forall i, j | 1 <= i < j < 4 && Attainable(table, i) && Attainable(table, j) ensures rt[j] <= rt[i] || globalRate <= rt[i] {
        EntryEnters(table, i);
        EntryEnters(table, j);
        assert RateFor(Entry(table, j), table) <= RateFor(Entry(table, i), table);
      }
    }
  }

  lemma CappedRates(globalRate: real, thresholds: EnvList, rates: EnvList, i: nat, j: nat)
    requires i <= j < 4
    requires TargetsFall(globalRate, thresholds, rates)
    requires var table := LoadTierTable(globalRate, thresholds, rates);
      (i == 0 || Attainable(table, i)) && (j == 0 || Attainable(table, j))
    ensures var table := LoadTierTable(globalRate, thresholds, rates); table[j].rate <= table[i].rate
  {
    hide Attainable;
    var table := LoadTierTable(globalRate, thresholds, rates);
    var rt := ValuesOr(rates, DEFAULT_RATES);
    assert forall k :: 1 <= k < 4 ==> table[k].rate == Min(globalRate, rt[k]);
    assert table[0].rate == globalRate;
  }

  /** Targets that rise from Prata to Ouro: a model that climbs pays more. */
  lemma ClimbingCanCost()
    ensures var table := LoadTierTable(0.30, None, Some([Some(0.30), Some(0.10), Some(0.25), Some(0.15)]));
      RateFor(500.0, table) < RateFor(2000.0, table)
  {
    var table := LoadTierTable(0.30, None, Some([Some(0.30), Some(0.10), Some(0.25), Some(0.15)]));
    assert StrictlySorted(table);
    ScanFindsTheBand(500.0, table, 1);
    ScanFindsTheBand(2000.0, table, 2);
  }
}

/** Advisory locks taken in sorted order, for any number of transactions and keys. */
module LockOrder {
  import opened Prelude

  // ------------------------------------------------------------- key texts

  /** The order of `sort()` on texts: code unit by code unit, a prefix first. */
  predicate AtMost(a: string, b: string) {
    if a == "" then true
    else if b == "" then false
    else a[0] < b[0] || (a[0] == b[0] && AtMost(a[1..], b[1..]))
  }

  lemma {:induction false} AtMostTransitive(a: string, b: string, c: string)
    requires AtMost(a, b) && AtMost(b, c)
    ensures AtMost(a, c)
  {
    if a != "" && a[0] == b[0] == c[0] { AtMostTransitive(a[1..], b[1..], c[1..]); }
  }

  lemma {:induction false} AtMostTotal(a: string, b: string)
    ensures AtMost(a, b) || AtMost(b, a)
    ensures AtMost(a, b) && AtMost(b, a) ==> a == b
  {
    if a != "" && b != "" { AtMostTotal(a[1..], b[1..]); }
  }

  function ClientText(user: Id): string { "call-client:" + user }
  function ModelText(user: Id): string { "call-model:" + user }
  function PayoutText(user: Id): string { "model:" + user }

  /** A start always asks for its client's lock before its model's, and no two of the three
      families of keys share a text. */
  lemma ClientSortsBeforeModel(client: Id, model: Id, user: Id)
    ensures SortKeys([ClientText(client), ModelText(model)]) == [ClientText(client), ModelText(model)]
    ensures SortKeys([ModelText(model), ClientText(client)]) == [ClientText(client), ModelText(model)]
    ensures ClientText(client) != ModelText(model)
    ensures PayoutText(user) != ClientText(client) && PayoutText(user) != ModelText(model)
  {
    var a, b := ClientText(client), ModelText(model);
    assert a[..5] == b[..5] == "call-" && a[5] == 'c' && b[5] == 'm';
    FirstDifference(a, b, 5);
    FirstDifference(b, a, 5);
    assert PayoutText(user)[0] == 'm' && a[0] == 'c' && b[0] == 'c';
    assert [b, a][1..] == [a] && [a, b][1..] == [b] && [a][1..] == [] && [b][1..] == [];
    assert SortKeys([a]) == [a] && SortKeys([b]) == [b];
  }

  lemma {:induction false} FirstDifference(a: string, b: string, k: nat)
    requires k < |a| && k < |b| && a[..k] == b[..k] && a[k] != b[k]
    ensures AtMost(a, b) <==> a[k] < b[k]
  {
    if k > 0 {
      assert a[0] == a[..k][0] == b[..k][0] == b[0];
      assert a[1..][..k - 1] == a[..k][1..] == b[..k][1..] == b[1..][..k - 1];
      FirstDifference(a[1..], b[1..], k - 1);
    }
  }

  // ------------------------------------------------------------ sorting keys

  predicate Sorted(keys: seq<string>) {
    forall i, j :: 0 <= i < j < |keys| ==> AtMost(keys[i], keys[j])
  }

  function Insert(key: string, keys: seq<string>): seq<string> {
    if keys == [] || AtMost(key, keys[0]) then [key] + keys else [keys[0]] + Insert(key, keys[1..])
  }

  function SortKeys(keys: seq<string>): seq<string> {
    if keys == [] then [] else Insert(keys[0], SortKeys(keys[1..]))
  }

  lemma {:induction false} InsertAdds(key: string, keys: seq<string>)
    ensures multiset(Insert(key, keys)) == multiset(keys) + multiset{key}
    ensures forall k :: k in Insert(key, keys) ==> k == key || k in keys
  {
    if keys != [] && !AtMost(key, keys[0]) {
      InsertAdds(key, keys[1..]);
      assert keys == [keys[0]] + keys[1..];
    }
  }

  lemma {:induction false} InsertSorted(key: string, keys: seq<string>)
    requires Sorted(keys)
    ensures Sorted(Insert(key, keys))
  {
    if keys == [] {
    } else if AtMost(key, keys[0]) {
      forall j | 0 <= j < |keys| ensures AtMost(key, keys[j]) {
        if j > 0 { AtMostTransitive(key, keys[0], keys[j]); }
      }
    } else {
      var rest := Insert(key, keys[1..]);
      InsertSorted(key, keys[1..]);
      InsertAdds(key, keys[1..]);
      AtMostTotal(key, keys[0]);
      hide AtMost, Insert;
      forall j | 0 <= j < |rest| ensures AtMost(keys[0], rest[j]) {
        if rest[j] != key {
          assert rest[j] in rest && rest[j] in keys[1..];
          var i :| 0 <= i < |keys[1..]| && keys[1..][i] == rest[j];
          assert keys[i + 1] == rest[j];
        }
      }
      SortedFrom(keys[0], rest);
      assert Insert(key, keys) == [keys[0]] + rest by { InsertLater(key, keys); }
    }
  }

  lemma InsertLater(key: string, keys: seq<string>)
    requires keys != [] && !AtMost(key, keys[0])
    ensures Insert(key, keys) == [keys[0]] + Insert(key, keys[1..])
  {
  }

  lemma SortedFrom(key: string, keys: seq<string>)
    requires Sorted(keys) && forall j :: 0 <= j < |keys| ==> AtMost(key, keys[j])
    ensures Sorted([key] + keys)
  {
  }

  lemma {:induction false} SortKeysSorts(keys: seq<string>)
    ensures Sorted(SortKeys(keys)) && multiset(SortKeys(keys)) == multiset(keys)
  {
    if keys != [] {
      SortKeysSorts(keys[1..]);
      InsertSorted(keys[0], SortKeys(keys[1..]));
      InsertAdds(keys[0], SortKeys(keys[1..]));
      assert keys == [keys[0]] + keys[1..];
    }
  }

  // -------------------------------------------------------------- the system

  /** A transaction asks for `keys` one after the other; it holds the first `taken` of them until
      it commits or aborts. */
  datatype Transaction = Transaction(keys: seq<string>, taken: nat)

  type System = map<nat, Transaction>

  function Held(t: Transaction): set<string> {
    set i | 0 <= i < t.taken && i < |t.keys| :: t.keys[i]
  }

  datatype Step = Begin(t: nat, keys: seq<string>) | Take(t: nat) | Finish(t: nat)

  /** The next key is free: only another transaction's hold makes a transaction wait. */
  predicate NextIsFree(s: System, t: nat)
    requires t in s && s[t].taken < |s[t].keys|
  {
    forall u :: u in s && u != t ==> s[t].keys[s[t].taken] !in Held(s[u])
  }

  predicate Enabled(s: System, step: Step) {
    match step
    case Begin(t, _) => t !in s
    case Take(t) => t in s && s[t].taken < |s[t].keys| && NextIsFree(s, t)
    case Finish(t) => t in s && s[t].taken >= |s[t].keys|
  }

  function Apply(s: System, step: Step): System
    requires Enabled(s, step)
  {
    match step
    case Begin(t, keys) => s[t := Transaction(SortKeys(keys), 0)]
    case Take(t) => s[t := s[t].(taken := s[t].taken + 1)]
    case Finish(t) => s - {t}
  }

  ghost predicate CanRun(s: System, steps: seq<Step>)
    decreases |steps|
  {
    steps == [] || (Enabled(s, steps[0]) && CanRun(Apply(s, steps[0]), steps[1..]))
  }

  ghost function Run(s: System, steps: seq<Step>): System
    requires CanRun(s, steps)
    decreases |steps|
  {
    if steps == [] then s else Run(Apply(s, steps[0]), steps[1..])
  }

  ghost predicate Inv(s: System) {
    && (forall t :: t in s ==> Sorted(s[t].keys) && s[t].taken <= |s[t].keys|)
    && (forall t, u :: t in s && u in s && t != u ==> Held(s[t]) !! Held(s[u]))
  }

  lemma StepKeeps(s: System, step: Step)
    requires Inv(s) && Enabled(s, step)
    ensures Inv(Apply(s, step))
  {
    match step {
      case Begin(t, keys) => SortKeysSorts(keys);
      case Take(t) =>
        var task := s[t];
        assert Held(task.(taken := task.taken + 1)) == Held(task) + {task.keys[task.taken]};
      case Finish(t) =>
    }
  }

  lemma {:induction false} RunKeeps(s: System, steps: seq<Step>)
    requires Inv(s) && CanRun(s, steps)
    ensures Inv(Run(s, steps))
    decreases |steps|
  {
    if steps != [] {
      StepKeeps(s, steps[0]);
      RunKeeps(Apply(s, steps[0]), steps[1..]);
    }
  }

  // -------------------------------------------------------- deadlock freedom

  predicate CanStep(s: System, t: nat) {
    t in s && (s[t].taken >= |s[t].keys| || NextIsFree(s, t))
  }

  /** The transactions that wait for a key above this one. */
  ghost function WaitAbove(s: System, key: string): set<nat> {
    set t | t in s && s[t].taken < |s[t].keys| && key != s[t].keys[s[t].taken] && AtMost(key, s[t].keys[s[t].taken])
  }

  /** Whoever holds the key another transaction waits for waits, if at all, for a later key. */
  lemma HolderWaitsAbove(s: System, t: nat, u: nat)
    requires Inv(s) && t in s && u in s && t != u
    requires s[t].taken < |s[t].keys| && s[t].keys[s[t].taken] in Held(s[u])
    requires s[u].taken < |s[u].keys| && !NextIsFree(s, u)
    ensures WaitAbove(s, s[u].keys[s[u].taken]) < WaitAbove(s, s[t].keys[s[t].taken])
  {
    var mine, theirs := s[t].keys[s[t].taken], s[u].keys[s[u].taken];
    assert AtMost(mine, theirs);
    assert mine != theirs;
    forall v | v in WaitAbove(s, theirs) ensures v in WaitAbove(s, mine) {
      var key := s[v].keys[s[v].taken];
      AtMostTransitive(mine, theirs, key);
      AtMostTotal(theirs, mine);
      AtMostTotal(theirs, key);
    }
    assert u in WaitAbove(s, mine) && u !in WaitAbove(s, theirs);
  }

  lemma {:induction false} FollowTheWaiters(s: System, t: nat) returns (u: nat)
    requires Inv(s) && t in s
    ensures CanStep(s, u)
    decreases if s[t].taken < |s[t].keys| then |WaitAbove(s, s[t].keys[s[t].taken])| else 0
  {
    u := t;
    if !CanStep(s, t) {
      u :| u in s && u != t && s[t].keys[s[t].taken] in Held(s[u]);
      if !CanStep(s, u) {
        HolderWaitsAbove(s, t, u);
        SmallerSet(WaitAbove(s, s[u].keys[s[u].taken]), WaitAbove(s, s[t].keys[s[t].taken]));
        u := FollowTheWaiters(s, u);
      }
    }
  }

  lemma SmallerSet(a: set<nat>, b: set<nat>)
    requires a < b
    ensures |a| < |b|
  {
    assert |b - a| + |a| == |b| by { assert (b - a) + a == b; }
    assert b - a != {};
  }

  /** While a transaction is unfinished, some transaction can take its next key or finish. */
  lemma NoDeadlock(steps: seq<Step>, t: nat) returns (u: nat)
    requires CanRun(map[], steps) && t in Run(map[], steps)
    ensures CanStep(Run(map[], steps), u)
  {
    RunKeeps(map[], steps);
    u := FollowTheWaiters(Run(map[], steps), t);
  }

  /** The order matters: two transactions that hold one key each and take two keys in opposite
      orders wait for each other forever. */
  lemma OppositeOrdersDeadlock(a: string, b: string)
    requires a != b
    ensures var s: System := map[0 := Transaction([a, b], 1), 1 := Transaction([b, a], 1)];
      (forall t, u :: t in s && u in s && t != u ==> Held(s[t]) !! Held(s[u])) && forall t :: !CanStep(s, t)
  {
    var s: System := map[0 := Transaction([a, b], 1), 1 := Transaction([b, a], 1)];
    assert s[0].keys[0] == a && s[1].keys[0] == b;
    assert a in Held(s[0]) && b in Held(s[1]);
    forall t ensures !CanStep(s, t) {
      if t == 0 { assert b in Held(s[1]); }
      if t == 1 { assert a in Held(s[0]); }
    }
  }
}

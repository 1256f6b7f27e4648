/** Where the rate of a sale comes from: the model's own rate, or her tier's, as they stood when the
    transaction read them. */
module Rates {
  import opened Prelude
  import opened Tables
  import opened Ledger
  import opened Writes
  import opened Machine
  import Ranking
  import Steps
  import TakeRate
  import Theorems

  /** The worker is about to read the tier of this model, with the model's own rate if she has one. */
  function ReadsTier(t: Task): Option<(Id, Option<real>)> {
    match t
    case Meter(m) => if m.phase.Profiled? then Some((m.phase.row.model, m.phase.override)) else None
    case Gifting(g) => if g.phase.Profiled? then Some((g.model, g.phase.override)) else None
    case _ => None
  }

  /** The worker is about to read the profile of this model. */
  function ReadsProfile(t: Task): Option<Id> {
    match t
    case Meter(m) => if m.phase.Funded? then Some(m.phase.row.model) else None
    case Gifting(g) => if g.phase.Funded? then Some(g.model) else None
    case _ => None
  }

  function OwnRate(d: DB, model: Id): Option<real> {
    if model in d.profiles then d.profiles[model].takeRate else None
  }

  // ------------------------------------------------------------ the last change

  predicate Touches(step: Step, t: Tid) {
    match step
    case Advance(u, _) => u == t
    case Fail(u) => u == t
    case Crash(u) => u == t
    case Spawn(u, _) => u == t
    case Outside(_) => false
  }

  /** A worker stands where the last step that touched it left it. */
  lemma {:induction false} LastTouch(start: State, steps: seq<Step>, t: Tid) returns (k: nat)
    requires CanRun(start, steps) && t !in start.tasks && t in Run(start, steps).tasks
    ensures k < |steps| && Touches(steps[k], t)
    ensures CanRun(start, steps[..k]) && Enabled(Run(start, steps[..k]), steps[k])
    ensures var s' := Apply(Run(start, steps[..k]), steps[k]);
      t in s'.tasks && s'.tasks[t] == Run(start, steps).tasks[t]
    decreases |steps|
  {
    if steps == [] {
      assert false;
    } else {
      var n := |steps| - 1;
      RunsSplit(start, steps, n);
      var s := Run(start, steps[..n]);
      assert steps[n..] == [steps[n]] && [steps[n]][1..] == [];
      LastStep(s, steps[n]);
      if Touches(steps[n], t) {
        k := n;
      } else {
        Untouched(s, steps[n], t);
        k := LastTouch(start, steps[..n], t);
        assert steps[..n][..k] == steps[..k];
      }
    }
  }

  lemma LastStep(s: State, step: Step)
    requires CanRun(s, [step])
    ensures Enabled(s, step) && Run(s, [step]) == Apply(s, step)
  {
    hide Enabled, Apply;
    assert [step][1..] == [];
    assert Run(Apply(s, step), []) == Apply(s, step);
  }

  lemma Untouched(s: State, step: Step, t: Tid)
    requires Enabled(s, step) && !Touches(step, t)
    ensures t in Apply(s, step).tasks <==> t in s.tasks
    ensures t in s.tasks ==> Apply(s, step).tasks[t] == s.tasks[t]
  {
    hide Act, CanAct, Happen, CanHappen, Free, Starts, Failed;
  }

  // --------------------------------------------------------------- the readings

  /** Only the reading of a tier brings a worker before a sale, with the rate it read. */
  lemma TierIsRead(s: State, step: Step, t: Tid)
    requires Enabled(s, step) && Touches(step, t) && t in Apply(s, step).tasks
    requires Theorems.AboutToSell(Apply(s, step).tasks[t]).Some?
    ensures step.Advance? && t in s.tasks && ReadsTier(s.tasks[t]).Some? && s.db.cfg.tiers != []
    ensures var (model, override), sale := ReadsTier(s.tasks[t]).value, Theorems.AboutToSell(Apply(s, step).tasks[t]).value;
      && sale.1 == model
      && sale.3 == TakeRate.ResolveTakeRate(override, TierRate(s.db.cfg.tiers, GrossEarned(s.db.ledger, model)))
  {
    hide Free, TakeRate.ComputeSplit, TierRate, Posted, Rows, Sum, Claimable;
    match step {
      case Advance(_, o) => StatementReadsTier(s.db, s.tasks[t], o);
      case _ =>
    }
  }

  lemma StatementReadsTier(d: DB, t: Task, o: Steps.Oracle)
    requires CanAct(d, t, o) && Theorems.AboutToSell(Act(d, t, o).task).Some?
    ensures ReadsTier(t).Some? && d.cfg.tiers != []
    ensures var (model, override), sale := ReadsTier(t).value, Theorems.AboutToSell(Act(d, t, o).task).value;
      && sale.1 == model
      && sale.3 == TakeRate.ResolveTakeRate(override, TierRate(d.cfg.tiers, GrossEarned(d.ledger, model)))
  {
    hide TakeRate.ComputeSplit, TierRate, Posted, Rows, Sum;
  }

  lemma ProfileIsRead(s: State, step: Step, t: Tid)
    requires Enabled(s, step) && Touches(step, t) && t in Apply(s, step).tasks
    requires ReadsTier(Apply(s, step).tasks[t]).Some?
    ensures step.Advance? && t in s.tasks && ReadsProfile(s.tasks[t]).Some?
    ensures var model := ReadsProfile(s.tasks[t]).value;
      ReadsTier(Apply(s, step).tasks[t]).value == (model, OwnRate(s.db, model))
  {
    hide Free, TakeRate.ComputeSplit, TierRate, Posted, Rows, Sum, Claimable;
    match step {
      case Advance(_, o) => StatementReadsProfile(s.db, s.tasks[t], o);
      case _ =>
    }
  }

  lemma StatementReadsProfile(d: DB, t: Task, o: Steps.Oracle)
    requires CanAct(d, t, o) && ReadsTier(Act(d, t, o).task).Some?
    ensures ReadsProfile(t).Some?
    ensures var model := ReadsProfile(t).value; ReadsTier(Act(d, t, o).task).value == (model, OwnRate(d, model))
  {
    hide TakeRate.ComputeSplit, TierRate, Posted, Rows, Sum;
  }

  /** The sale at the end of a run charges her own rate as it stood before step j, if she had one, and
      else the rate of her tier as it stood before step k: the two steps in which this worker read her
      profile and her earnings. */
  ghost predicate RateWasRead(start: State, steps: seq<Step>, t: Tid, j: nat, k: nat)
    requires CanRun(start, steps) && j < k < |steps| && CanRun(start, steps[..j]) && CanRun(start, steps[..k])
    requires t in Run(start, steps).tasks && Theorems.AboutToSell(Run(start, steps).tasks[t]).Some?
  {
    var (_, model, _, rate) := Theorems.AboutToSell(Run(start, steps).tasks[t]).value;
    var dj, dk := Run(start, steps[..j]).db, Run(start, steps[..k]).db;
    && Touches(steps[j], t) && t in Run(start, steps[..j]).tasks && ReadsProfile(Run(start, steps[..j]).tasks[t]) == Some(model)
    && Touches(steps[k], t) && t in Run(start, steps[..k]).tasks
    && ReadsTier(Run(start, steps[..k]).tasks[t]) == Some((model, OwnRate(dj, model)))
    && dk.cfg.tiers != []
    && (OwnRate(dj, model).Some? ==> rate == OwnRate(dj, model).value)
    && (OwnRate(dj, model).None? ==> rate == TierRate(dk.cfg.tiers, GrossEarned(dk.ledger, model)))
  }

  lemma SaleRateWasRead(start: State, steps: seq<Step>, t: Tid) returns (j: nat, k: nat)
    requires Init(start) && CanRun(start, steps)
    requires t in Run(start, steps).tasks && Theorems.AboutToSell(Run(start, steps).tasks[t]).Some?
    ensures j < k < |steps| && CanRun(start, steps[..j]) && CanRun(start, steps[..k])
    ensures RateWasRead(start, steps, t, j, k)
  {
    hide Enabled, Apply, CanRun, Run, TierRate, Sum, Ranking.LastReached;
    k := LastTouch(start, steps, t);
    var sk := Run(start, steps[..k]);
    TierIsRead(sk, steps[k], t);
    j := LastTouch(start, steps[..k], t);
    assert steps[..k][..j] == steps[..j];
    ProfileIsRead(Run(start, steps[..j]), steps[j], t);
  }

  /** A stale tier only overcharges: without a rate of her own and with falling rates, the rate of a
      sale is never below the rate of the tier that the model has when the sale commits. */
  lemma StaleTierOnlyOvercharges(start: State, steps: seq<Step>, t: Tid) returns (j: nat, k: nat)
    requires Init(start) && CanRun(start, steps) && Theorems.RatesFall(start.db.cfg.tiers)
    requires t in Run(start, steps).tasks && Theorems.AboutToSell(Run(start, steps).tasks[t]).Some?
    ensures j < k < |steps| && CanRun(start, steps[..j]) && CanRun(start, steps[..k])
    ensures RateWasRead(start, steps, t, j, k)
    ensures var d, (_, model, price, rate) := Run(start, steps).db, Theorems.AboutToSell(Run(start, steps).tasks[t]).value;
      && d.cfg.tiers != []
      && (OwnRate(Run(start, steps[..j]).db, model).None? ==> TierRate(d.cfg.tiers, GrossEarned(d.ledger, model)) <= rate)
  {
    hide Enabled, Apply, CanRun, Run, TierRate, Sum, Ranking.LastReached, Inv, Theorems.RatesFall, Init;
    j, k := SaleRateWasRead(start, steps, t);
    var model := Theorems.AboutToSell(Run(start, steps).tasks[t]).value.1;
    RunsSplit(start, steps, k);
    InitInv(start);
    RunKeeps(start, steps[..k]);
    Theorems.GrowsFrom(start, steps[..k]);
    var sk := Run(start, steps[..k]);
    Theorems.GrowsFrom(sk, steps[k..]);
    var d := Run(start, steps).db;
    assert d.ledger == sk.db.ledger + d.ledger[|sk.db.ledger|..];
    EarningsNeverShrink(sk.db.ledger, d.ledger[|sk.db.ledger|..], model);
    Theorems.TierNeverFalls(d.cfg.tiers, GrossEarned(sk.db.ledger, model), GrossEarned(d.ledger, model));
  }
}

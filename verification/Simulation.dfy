/** The two granularities meet: a taximeter worker that nobody disturbs does, statement by
    statement, exactly what the atomic run does. */
module Simulation {
  import opened Prelude
  import opened Tables
  import opened Ledger
  import opened Writes
  import opened Machine
  import opened Traces
  import Atomic
  import CatchUps
  import Progress
  import Steps
  import TakeRate
  import TM = TaximeterSteps

  /** No other worker holds a lock. */
  ghost predicate Quiet(ts: map<Tid, Task>, t: Tid) {
    forall u :: u in ts && u != t ==> Holds(ts[u]) == {}
  }

  function Worker(dues: seq<TM.Due>, phase: TM.Phase): Task {
    Meter(TM.Task(dues, phase))
  }

  /** One statement of the worker in quiet surroundings. */
  lemma Go(s: State, d: DB, ts: map<Tid, Task>, t: Tid, x: Task, d': DB, y: Task)
    requires Leads(s, State(d, ts[t := x])) && Quiet(ts, t)
    requires x.Meter? && CanAct(d, x, NO) && Act(d, x, NO) == Effect(d', y)
    ensures Leads(s, State(d', ts[t := y]))
  {
    hide Leads, CanAct, Act, Holds;
    Then(s, d, ts, t, x, NO, d', y);
  }

  /** From the loop head to the row re-read under the client's lock. */
  lemma ReachLockedRow(s: State, d: DB, ts: map<Tid, Task>, t: Tid, dues: seq<TM.Due>)
    requires Leads(s, State(d, ts[t := Worker(dues, TM.Idle)])) && Quiet(ts, t) && d.cfg.tiers != []
    requires dues != [] && dues[0].next <= dues[0].last && dues[0].call in d.calls
    ensures var row := d.calls[dues[0].call];
      Leads(s, State(d, ts[t := Worker(dues, TM.Fresh(row.client, row))]))
  {
    hide Leads, Quiet, Posted, Sum;
    var row := d.calls[dues[0].call];
    Go(s, d, ts, t, Worker(dues, TM.Idle), d, Worker(dues, TM.Reading));
    Go(s, d, ts, t, Worker(dues, TM.Reading), d, Worker(dues, TM.Waiting(row.client)));
    Go(s, d, ts, t, Worker(dues, TM.Waiting(row.client)), d, Worker(dues, TM.Locked(row.client)));
    Go(s, d, ts, t, Worker(dues, TM.Locked(row.client)), d, Worker(dues, TM.Fresh(row.client, row)));
  }

  /** From the balance read under the lock to the commit of an affordable minute. */
  lemma PayUndisturbed(s: State, d: DB, ts: map<Tid, Task>, t: Tid, dues: seq<TM.Due>, row: Call, balance: int)
    requires Leads(s, State(d, ts[t := Worker(dues, TM.Funded(row.client, row, balance))])) && Quiet(ts, t)
    requires d.cfg.tiers != [] && dues != [] && dues[0].call in d.calls && balance >= row.price
    requires CallMinute(dues[0].call, dues[0].next) !in Posted(d.ledger)
    ensures Leads(s, State(
      PostMinute(d, dues[0].call, dues[0].next, row, Atomic.CommissionOf(d, row.model, row.price)),
      ts[t := Meter(TM.NextMinute(dues))]))
  {
    hide Leads, Quiet, Posted, Sum, PostMinute, TakeRate.ComputeSplit, TierRate;
    var override := if row.model in d.profiles then d.profiles[row.model].takeRate else None;
    var rate := RateOf(d, row.model);
    Go(s, d, ts, t, Worker(dues, TM.Funded(row.client, row, balance)), d, Worker(dues, TM.Profiled(row.client, row, balance, override)));
    Go(s, d, ts, t, Worker(dues, TM.Profiled(row.client, row, balance, override)), d, Worker(dues, TM.Priced(row.client, row, balance, rate)));
    Go(s, d, ts, t, Worker(dues, TM.Priced(row.client, row, balance, rate)),
       PostMinute(d, dues[0].call, dues[0].next, row, Atomic.CommissionOf(d, row.model, row.price)), Meter(TM.NextMinute(dues)));
  }

  /** Where the worker goes after one charge. */
  function Onward(dues: seq<TM.Due>, r: Atomic.ChargeResult): Task
    requires dues != []
  {
    Meter(if r.OutOfCredits? then TM.Break(dues) else TM.NextMinute(dues))
  }

  /** One undisturbed pass through chargeMinute is the atomic charge. */
  lemma MinuteUndisturbed(s: State, d: DB, ts: map<Tid, Task>, t: Tid, dues: seq<TM.Due>)
    requires Leads(s, State(d, ts[t := Worker(dues, TM.Idle)])) && Quiet(ts, t) && d.cfg.tiers != []
    requires dues != [] && dues[0].next <= dues[0].last
    ensures var (d', r) := Atomic.ChargeMinute(d, dues[0].call, dues[0].next);
      Leads(s, State(d', ts[t := Onward(dues, r)]))
  {
    var call, minute := dues[0].call, dues[0].next;
    if call !in d.calls {
      UnknownCall(s, d, ts, t, dues);
    } else {
      ReachLockedRow(s, d, ts, t, dues);
      hide Leads, Quiet, Posted, Sum, PostMinute, Atomic.CommissionOf, Close;
      var row := d.calls[call];
      var read := Worker(dues, TM.Fresh(row.client, row));
      if CallMinute(call, minute) in Posted(d.ledger) {
        Go(s, d, ts, t, read, d, Meter(TM.NextMinute(dues)));
      } else {
        var unposted := Worker(dues, TM.Unposted(row.client, row));
        Go(s, d, ts, t, read, d, unposted);
        if row.status != Active {
          Go(s, d, ts, t, unposted, d, Meter(TM.NextMinute(dues)));
        } else {
          var balance := Balance(d.ledger, Client(row.client));
          var funded := Worker(dues, TM.Funded(row.client, row, balance));
          Go(s, d, ts, t, unposted, d, funded);
          if balance < row.price {
            Go(s, d, ts, t, funded, Close(d, call, {Active}, NoCredits), Meter(TM.Break(dues)));
          } else {
            PayUndisturbed(s, d, ts, t, dues, row, balance);
          }
        }
      }
    }
  }

  lemma UnknownCall(s: State, d: DB, ts: map<Tid, Task>, t: Tid, dues: seq<TM.Due>)
    requires Leads(s, State(d, ts[t := Worker(dues, TM.Idle)])) && Quiet(ts, t) && d.cfg.tiers != []
    requires dues != [] && dues[0].next <= dues[0].last && dues[0].call !in d.calls
    ensures Leads(s, State(d, ts[t := Meter(TM.NextMinute(dues))]))
  {
    hide Leads, Quiet, Posted, Sum;
    Go(s, d, ts, t, Worker(dues, TM.Idle), d, Worker(dues, TM.Reading));
    Go(s, d, ts, t, Worker(dues, TM.Reading), d, Meter(TM.NextMinute(dues)));
  }

  /** The inner loop for one call is the atomic catch-up, up to a charge that throws. */
  lemma {:induction false} CatchUpUndisturbed(s: State, d: DB, ts: map<Tid, Task>, t: Tid, dues: seq<TM.Due>, broken: set<(Id, int)>)
    requires Leads(s, State(d, ts[t := Worker(dues, TM.Idle)])) && Quiet(ts, t) && d.cfg.tiers != []
    requires dues != []
    ensures var due := dues[0];
      Leads(s, State(Atomic.CatchUp(d, due.call, due.next, Atomic.Until(broken, due.call, due.next, due.last)),
                     ts[t := Worker(dues[1..], TM.Idle)]))
    decreases dues[0].last - dues[0].next
  {
    hide Leads, Quiet, Atomic.ChargeMinute;
    var due := dues[0];
    if due.next > due.last {
      Go(s, d, ts, t, Worker(dues, TM.Idle), d, Meter(TM.Break(dues)));
    } else if (due.call, due.next) in broken {
      Go(s, d, ts, t, Worker(dues, TM.Idle), d, Worker(dues, TM.Reading));
      ThenFails(s, d, ts, t, Worker(dues, TM.Reading));
    } else {
      MinuteUndisturbed(s, d, ts, t, dues);
      var (d', r) := Atomic.ChargeMinute(d, due.call, due.next);
      CatchUps.UntilBounds(broken, due.call, due.next, due.last);
      CatchUps.UntilBounds(broken, due.call, due.next + 1, due.last);
      if !r.OutOfCredits? {
        ChargeKeepsConfig(d, due.call, due.next);
        var next := TM.NextMinute(dues).dues;
        assert next[1..] == dues[1..];
        CatchUpUndisturbed(s, d', ts, t, next, broken);
      }
    }
  }

  lemma ChargeKeepsConfig(d: DB, call: Id, minute: nat)
    requires d.cfg.tiers != []
    ensures Atomic.ChargeMinute(d, call, minute).0.cfg == d.cfg
  {
  }

  /** The outer loop over a listed snapshot is the atomic run. */
  lemma {:induction false} LoopUndisturbed(
      s: State, d: DB, ts: map<Tid, Task>, t: Tid, snapshot: map<Id, Call>, ids: seq<Id>, round: Atomic.Round)
    requires forall i :: 0 <= i < |ids| ==> ids[i] in snapshot
    requires Leads(s, State(d, ts[t := Worker(TM.DuesOf(snapshot, ids, round.at), TM.Idle)])) && Quiet(ts, t) && d.cfg.tiers != []
    ensures Leads(s, State(Atomic.RunDue(d, snapshot, ids, round), ts[t := Worker([], TM.Idle)]))
    decreases |ids|
  {
    hide Leads, Quiet, Atomic.CatchUp, Atomic.Until;
    if ids != [] {
      var row := snapshot[ids[0]];
      if row.startedAt.None? {
        LoopUndisturbed(s, d, ts, t, snapshot, ids[1..], round);
      } else {
        var dues := TM.DuesOf(snapshot, ids, round.at);
        var last := Atomic.Until(round.broken, dues[0].call, dues[0].next, dues[0].last);
        CatchUpUndisturbed(s, d, ts, t, dues, round.broken);
        assert dues[1..] == TM.DuesOf(snapshot, ids[1..], round.at);
        LoopUndisturbed(s, Atomic.CatchUp(d, dues[0].call, dues[0].next, last), ts, t, snapshot, ids[1..], round);
      }
    }
  }

  /** From any state in which no lock is held, a new worker that runs alone turns the database
      into what the atomic round makes of it, for every order in which the calls may be listed and
      whichever charges throw. */
  lemma UndisturbedRunIsAtomic(s: State, t: Tid, ids: seq<Id>, round: Atomic.Round)
    requires t !in s.tasks && Quiet(s.tasks, t) && s.db.cfg.tiers != [] && round.at <= s.db.now
    requires TM.Lists(ids, TM.ActiveCalls(s.db.calls))
    ensures Leads(s, State(Atomic.RunDue(s.db, s.db.calls, ids, round), s.tasks[t := Worker([], TM.Finished)]))
  {
    var d := s.db;
    Stay(s);
    hide Leads;
    ThenSpawn(s, d, s.tasks, t, Worker([], TM.Scan(round.at)));
    Then(s, d, s.tasks, t, Worker([], TM.Scan(round.at)), NO.(ids := ids), d, Worker(TM.DuesOf(d.calls, ids, round.at), TM.Idle));
    LoopUndisturbed(s, d, s.tasks, t, d.calls, ids, round);
    hide Atomic.RunDue;
    var d' := Atomic.RunDue(d, d.calls, ids, round);
    Go(s, d', s.tasks, t, Worker([], TM.Idle), d', Worker([], TM.Finished));
  }

  // ---------------------------------------------------------- every lone run

  /** The run moves no worker but this one, and nothing outside: its statements and its errors. */
  ghost predicate Lone(steps: seq<Step>, t: Tid) {
    forall i :: 0 <= i < |steps| ==> (steps[i].Advance? || steps[i].Fail?) && steps[i].t == t
  }

  /** The rest of a round, from a list of what is still due. */
  ghost function CatchAll(d: DB, dues: seq<TM.Due>, broken: set<(Id, int)>): (d': DB)
    requires d.cfg.tiers != []
    ensures d'.cfg == d.cfg && d'.now == d.now
    decreases |dues|
  {
    if dues == [] then d
    else
      var due := dues[0];
      CatchAll(Atomic.CatchUp(d, due.call, due.next, Atomic.Until(broken, due.call, due.next, due.last)), dues[1..], broken)
  }

  ghost predicate DistinctCalls(dues: seq<TM.Due>) {
    forall i, j :: 0 <= i < j < |dues| ==> dues[i].call != dues[j].call
  }

  /** What a worker that nobody disturbs has read is what the database says. */
  ghost predicate ReadsTrue(d: DB, m: TM.Task) {
    && d.cfg.tiers != []
    && DistinctCalls(m.dues)
    && (m.phase.Finished? ==> m.dues == [])
    && !m.phase.Scan?
    && (TM.InLoop(m.phase) ==> m.dues != [] && m.dues[0].next <= m.dues[0].last)
    && (TM.InLoop(m.phase) && !m.phase.Reading? ==> m.dues[0].call in d.calls && PhaseTrue(d, m.dues[0], m.phase))
  }

  ghost predicate PhaseTrue(d: DB, due: TM.Due, p: TM.Phase)
    requires due.call in d.calls && d.cfg.tiers != []
  {
    var row := d.calls[due.call];
    var override := if row.model in d.profiles then d.profiles[row.model].takeRate else None;
    var balance := Balance(d.ledger, Client(row.client));
    var unposted := CallMinute(due.call, due.next) !in Posted(d.ledger);
    match p
    case Waiting(client) => client == row.client
    case Locked(client) => client == row.client
    case Fresh(client, read) => client == row.client && read == row
    case Unposted(client, read) => client == row.client && read == row && unposted
    case Funded(client, read, b) => client == row.client && read == row && unposted && row.status == Active && b == balance
    case Profiled(client, read, b, o) =>
      client == row.client && read == row && unposted && row.status == Active && b == balance && row.price <= b && o == override
    case Priced(client, read, b, rate) =>
      client == row.client && read == row && unposted && row.status == Active && b == balance && row.price <= b
      && rate == RateOf(d, row.model)
    case _ => true
  }

  /** Charges that can still throw: later minutes of the first call, any minute of the others. */
  ghost predicate StillAhead(broken: set<(Id, int)>, dues: seq<TM.Due>) {
    forall call: Id, n: int :: (call, n) in broken ==>
      exists i :: 0 <= i < |dues| && dues[i].call == call && dues[i].next <= n
  }

  /** The statement stays inside the current minute, or ends it as the atomic charge does. */
  ghost predicate ChargesOn(d: DB, m: TM.Task, d': DB, m': TM.Task)
    requires d.cfg.tiers != []
  {
    || (d' == d && m'.dues == m.dues && !m'.phase.Idle?)
    || (m.dues != [] && d' == d && m'.dues == m.dues[1..] && m.dues[0].next > m.dues[0].last)
    || (m.dues != [] && m.dues[0].next <= m.dues[0].last
        && var (after, r) := Atomic.ChargeMinute(d, m.dues[0].call, m.dues[0].next);
        d' == after && Meter(m') == Onward(m.dues, r))
  }

  lemma MinuteEnds(d: DB, m: TM.Task, o: Steps.Oracle)
    requires ReadsTrue(d, m) && TM.CanAct(d, m, o) && (m.phase.Funded? || m.phase.Priced?)
    ensures d.cfg.tiers != []
    ensures var e := TM.Act(d, m, o);
      ReadsTrue(e.db, e.task) && ChargesOn(d, m, e.db, e.task)
  {
    hide Sum, Rows, Posted, TakeRate.ComputeSplit, TierRate, PostMinute, Close;
    SameConfig(d, m, o);
  }

  lemma SameConfig(d: DB, m: TM.Task, o: Steps.Oracle)
    requires TM.CanAct(d, m, o)
    ensures TM.Act(d, m, o).db.cfg == d.cfg
  {
    hide Sum, Rows, Posted, TakeRate.ComputeSplit, TierRate;
  }

  lemma MinuteGoesOn(d: DB, m: TM.Task, o: Steps.Oracle)
    requires ReadsTrue(d, m) && TM.CanAct(d, m, o) && !m.phase.Funded? && !m.phase.Priced?
    ensures d.cfg.tiers != []
    ensures var e := TM.Act(d, m, o);
      ReadsTrue(e.db, e.task) && ChargesOn(d, m, e.db, e.task)
  {
    hide Sum, Rows, Posted, TakeRate.ComputeSplit, TierRate;
  }

  lemma StatementChargesOn(d: DB, m: TM.Task, o: Steps.Oracle)
    requires ReadsTrue(d, m) && TM.CanAct(d, m, o)
    ensures d.cfg.tiers != []
    ensures var e := TM.Act(d, m, o);
      ReadsTrue(e.db, e.task) && ChargesOn(d, m, e.db, e.task)
  {
    hide ReadsTrue, TM.CanAct, TM.Act, ChargesOn;
    if m.phase.Funded? || m.phase.Priced? { MinuteEnds(d, m, o); } else { MinuteGoesOn(d, m, o); }
  }

  /** A charge that has ended cannot throw any more: the rest of the round does not see it. */
  lemma ChargingOn(d: DB, m: TM.Task, d': DB, m': TM.Task, broken: set<(Id, int)>)
    requires ReadsTrue(d, m) && ReadsTrue(d', m') && ChargesOn(d, m, d', m') && StillAhead(broken, m'.dues)
    ensures StillAhead(broken, m.dues)
    ensures CatchAll(d, m.dues, broken) == CatchAll(d', m'.dues, broken)
  {
    AheadBefore(d, m, d', m', broken);
    hide PhaseTrue, StillAhead;
    if !(d' == d && m'.dues == m.dues) {
      var due := m.dues[0];
      if due.next > due.last {
        assert Atomic.CatchUp(d, due.call, due.next, due.last) == d;
      } else {
        hide Atomic.ChargeMinute, Atomic.Until, ReadsTrue;
        OneMinuteOn(d, m, d', m', broken);
      }
    }
  }

  lemma AheadBefore(d: DB, m: TM.Task, d': DB, m': TM.Task, broken: set<(Id, int)>)
    requires ReadsTrue(d, m) && ChargesOn(d, m, d', m') && StillAhead(broken, m'.dues)
    ensures StillAhead(broken, m.dues)
    ensures m.dues != [] && m'.dues != m.dues ==> (m.dues[0].call, m.dues[0].next) !in broken
  {
    hide PhaseTrue, Atomic.ChargeMinute;
    if m.dues != [] && m'.dues != m.dues {
      var due := m.dues[0];
      assert m'.dues == m.dues[1..] || m'.dues == [due.(next := due.next + 1)] + m.dues[1..];
      forall call: Id, n: int | (call, n) in broken
        ensures exists i :: 0 <= i < |m.dues| && m.dues[i].call == call && m.dues[i].next <= n
        ensures (call, n) != (due.call, due.next)
      {
        var i :| 0 <= i < |m'.dues| && m'.dues[i].call == call && m'.dues[i].next <= n;
        var j := if m'.dues == m.dues[1..] then i + 1 else i;
        assert m.dues[j].call == call && m.dues[j].next <= n;
      }
    }
  }

  lemma OneMinuteOn(d: DB, m: TM.Task, d': DB, m': TM.Task, broken: set<(Id, int)>)
    requires d.cfg.tiers != [] && d'.cfg.tiers != [] && m.dues != [] && m.dues[0].next <= m.dues[0].last
    requires (m.dues[0].call, m.dues[0].next) !in broken
    requires var (after, r) := Atomic.ChargeMinute(d, m.dues[0].call, m.dues[0].next);
      d' == after && Meter(m') == Onward(m.dues, r)
    ensures CatchAll(d, m.dues, broken) == CatchAll(d', m'.dues, broken)
  {
    var due := m.dues[0];
    CatchUps.UntilBounds(broken, due.call, due.next + 1, due.last);
    var stop := Atomic.Until(broken, due.call, due.next, due.last);
    assert stop == Atomic.Until(broken, due.call, due.next + 1, due.last) && due.next <= stop;
    var (after, r) := Atomic.ChargeMinute(d, due.call, due.next);
    hide Atomic.ChargeMinute, Atomic.Until;
    if !r.OutOfCredits? {
      assert m'.dues[0] == due.(next := due.next + 1) && m'.dues[1..] == m.dues[1..];
    }
  }

  /** Only the charges of the listed calls matter. */
  lemma {:induction false} CatchAllAgree(d: DB, dues: seq<TM.Due>, broken: set<(Id, int)>, other: set<(Id, int)>)
    requires d.cfg.tiers != []
    requires forall i, n: int :: 0 <= i < |dues| ==> ((dues[i].call, n) in broken <==> (dues[i].call, n) in other)
    ensures CatchAll(d, dues, broken) == CatchAll(d, dues, other)
    decreases |dues|
  {
    if dues != [] {
      var due := dues[0];
      UntilAgree(broken, other, due.call, due.next, due.last);
      hide Atomic.CatchUp;
      CatchAllAgree(Atomic.CatchUp(d, due.call, due.next, Atomic.Until(other, due.call, due.next, due.last)), dues[1..], broken, other);
    }
  }

  lemma {:induction false} UntilAgree(broken: set<(Id, int)>, other: set<(Id, int)>, call: Id, n: int, last: int)
    requires forall k: int :: (call, k) in broken <==> (call, k) in other
    ensures Atomic.Until(broken, call, n, last) == Atomic.Until(other, call, n, last)
    decreases last - n
  {
    if n <= last && (call, n) !in broken { UntilAgree(broken, other, call, n + 1, last); }
  }

  /** An error in a charge is one more charge that throws. */
  lemma FailsOn(d: DB, m: TM.Task, after: set<(Id, int)>) returns (broken: set<(Id, int)>)
    requires ReadsTrue(d, m) && StillAhead(after, TM.Failed(m).dues)
    ensures ReadsTrue(d, TM.Failed(m)) && StillAhead(broken, m.dues)
    ensures CatchAll(d, m.dues, broken) == CatchAll(d, TM.Failed(m).dues, after)
  {
    hide PhaseTrue;
    broken := after;
    if m.dues != [] {
      var due, rest := m.dues[0], m.dues[1..];
      forall i, n: int | 0 <= i < |rest| ensures (rest[i].call, n) != (due.call, due.next) {
        assert rest[i] == m.dues[i + 1];
      }
      forall call: Id, n: int | (call, n) in after
        ensures exists i :: 0 <= i < |m.dues| && m.dues[i].call == call && m.dues[i].next <= n
      {
        var i :| 0 <= i < |rest| && rest[i].call == call && rest[i].next <= n;
        assert m.dues[i + 1].call == call && m.dues[i + 1].next <= n;
      }
      if due.next <= due.last {
        broken := after + {(due.call, due.next)};
        assert m.dues[0].call == due.call;
        CatchAllAgree(d, rest, broken, after);
      }
      assert Atomic.CatchUp(d, due.call, due.next, Atomic.Until(broken, due.call, due.next, due.last)) == d;
    }
  }

  /** From any point of the loop, however a lone run gets to its end. */
  lemma {:induction false} LoneRunCatchesUp(s: State, t: Tid, steps: seq<Step>) returns (broken: set<(Id, int)>)
    requires CanRun(s, steps) && Lone(steps, t) && t in s.tasks && s.tasks[t].Meter? && ReadsTrue(s.db, s.tasks[t].meter)
    requires t in Run(s, steps).tasks && Run(s, steps).tasks[t].Meter? && Run(s, steps).tasks[t].meter.phase.Finished?
    ensures s.db.cfg.tiers != [] && StillAhead(broken, s.tasks[t].meter.dues)
    ensures Run(s, steps).db == CatchAll(s.db, s.tasks[t].meter.dues, broken)
    decreases |steps|
  {
    var m := s.tasks[t].meter;
    if steps == [] {
      broken := {};
    } else {
      var s1 := Apply(s, steps[0]);
      assert Lone(steps[1..], t);
      if steps[0].Advance? {
        MeterActs(s.db, m, steps[0].o);
        StatementChargesOn(s.db, m, steps[0].o);
        hide ReadsTrue, ChargesOn, StillAhead, CatchAll, TM.Act, TM.CanAct;
        broken := LoneRunCatchesUp(s1, t, steps[1..]);
        ChargingOn(s.db, m, s1.db, s1.tasks[t].meter, broken);
      } else {
        hide TM.Act, TM.CanAct, CatchAll;
        FailedReadsTrue(s.db, m);
        var after := LoneRunCatchesUp(s1, t, steps[1..]);
        broken := FailsOn(s.db, m, after);
      }
    }
  }

  lemma FailedReadsTrue(d: DB, m: TM.Task)
    requires ReadsTrue(d, m)
    ensures ReadsTrue(d, TM.Failed(m))
  {
    hide PhaseTrue;
  }

  lemma MeterActs(d: DB, m: TM.Task, o: Steps.Oracle)
    requires CanAct(d, Meter(m), o)
    ensures TM.CanAct(d, m, o)
    ensures var e := TM.Act(d, m, o); Act(d, Meter(m), o) == Effect(e.db, Meter(e.task))
  {
    hide TM.Act, TM.CanAct;
  }

  lemma {:induction false} CatchAllIsRunDue(d: DB, snapshot: map<Id, Call>, ids: seq<Id>, round: Atomic.Round)
    requires d.cfg.tiers != [] && forall i :: 0 <= i < |ids| ==> ids[i] in snapshot
    ensures CatchAll(d, TM.DuesOf(snapshot, ids, round.at), round.broken) == Atomic.RunDue(d, snapshot, ids, round)
    decreases |ids|
  {
    hide Atomic.CatchUp, Atomic.Until;
    if ids != [] {
      var row := snapshot[ids[0]];
      if row.startedAt.None? {
        CatchAllIsRunDue(d, snapshot, ids[1..], round);
      } else {
        var dues := TM.DuesOf(snapshot, ids, round.at);
        assert dues[1..] == TM.DuesOf(snapshot, ids[1..], round.at);
        var last := Atomic.Until(round.broken, dues[0].call, dues[0].next, dues[0].last);
        CatchAllIsRunDue(Atomic.CatchUp(d, dues[0].call, dues[0].next, last), snapshot, ids[1..], round);
      }
    }
  }

  lemma {:induction false} DuesAreListed(snapshot: map<Id, Call>, ids: seq<Id>, now: int, j: nat)
    requires forall i :: 0 <= i < |ids| ==> ids[i] in snapshot
    requires j < |TM.DuesOf(snapshot, ids, now)|
    ensures TM.DuesOf(snapshot, ids, now)[j].call in ids
    decreases |ids|
  {
    if ids != [] {
      if snapshot[ids[0]].startedAt.None? {
        DuesAreListed(snapshot, ids[1..], now, j);
      } else if j > 0 {
        DuesAreListed(snapshot, ids[1..], now, j - 1);
      }
    }
  }

  lemma {:induction false} DuesAreDistinct(snapshot: map<Id, Call>, ids: seq<Id>, now: int)
    requires forall i :: 0 <= i < |ids| ==> ids[i] in snapshot
    requires forall i, j :: 0 <= i < j < |ids| ==> ids[i] != ids[j]
    ensures DistinctCalls(TM.DuesOf(snapshot, ids, now))
    decreases |ids|
  {
    if ids != [] {
      DuesAreDistinct(snapshot, ids[1..], now);
      var rest := TM.DuesOf(snapshot, ids[1..], now);
      forall j | 0 <= j < |rest| ensures rest[j].call != ids[0] {
        DuesAreListed(snapshot, ids[1..], now, j);
        assert forall k :: 0 <= k < |ids[1..]| ==> ids[1..][k] == ids[k + 1];
      }
      var dues := TM.DuesOf(snapshot, ids, now);
      if snapshot[ids[0]].startedAt.Some? {
        assert dues == [dues[0]] + rest && dues[0].call == ids[0];
        forall i, j | 0 <= i < j < |dues| ensures dues[i].call != dues[j].call {
          assert dues[j] == rest[j - 1];
          if i > 0 { assert dues[i] == rest[i - 1]; }
        }
      }
    }
  }

  /** A round in which the first charge of every call throws charges nothing. */
  lemma NothingCharged(d: DB, ids: seq<Id>, at: int)
    requires d.cfg.tiers != [] && forall i :: 0 <= i < |ids| ==> ids[i] in d.calls
    ensures var broken := set id | id in ids && id in d.calls :: (id, d.calls[id].billed + 1);
      Atomic.RunDue(d, d.calls, ids, Atomic.Round(at, broken)) == d
  {
    var broken := set id | id in ids && id in d.calls :: (id, d.calls[id].billed + 1);
    forall i | 0 <= i < |ids| ensures CatchUps.LastDue(ids[i], d.calls[ids[i]], Atomic.Round(at, broken)) <= d.calls[ids[i]].billed {
      assert (ids[i], d.calls[ids[i]].billed + 1) in broken;
    }
    CatchUps.IdleRun(d, d.calls, ids, Atomic.Round(at, broken));
  }

  /** Every run of a lone worker, whatever it meets: a worker is spawned, then only its statements and
      its errors happen, and it finishes. Then the database is what one atomic round makes of it, for
      the order in which it listed the calls and for the charges that threw. */
  lemma EveryLoneRunIsAtomic(s: State, t: Tid, at: int, steps: seq<Step>) returns (ids: seq<Id>, broken: set<(Id, int)>)
    requires s.db.cfg.tiers != [] && Enabled(s, Spawn(t, Worker([], TM.Scan(at))))
    requires var s1 := Apply(s, Spawn(t, Worker([], TM.Scan(at))));
      && CanRun(s1, steps) && Lone(steps, t)
      && t in Run(s1, steps).tasks && Run(s1, steps).tasks[t].Meter? && Run(s1, steps).tasks[t].meter.phase.Finished?
    ensures TM.Lists(ids, TM.ActiveCalls(s.db.calls))
    ensures Run(Apply(s, Spawn(t, Worker([], TM.Scan(at)))), steps).db
      == Atomic.RunDue(s.db, s.db.calls, ids, Atomic.Round(at, broken))
  {
    var d, s1 := s.db, Apply(s, Spawn(t, Worker([], TM.Scan(at))));
    assert steps != [] && s1.tasks[t] == Worker([], TM.Scan(at));
    var s2 := Apply(s1, steps[0]);
    assert Lone(steps[1..], t);
    if steps[0].Advance? {
      ids := steps[0].o.ids;
      ScanLists(d, at, steps[0].o);
      DuesAreDistinct(d.calls, ids, at);
      hide TM.Lists, CatchAll, Atomic.RunDue;
      broken := LoneRunCatchesUp(s2, t, steps[1..]);
      CatchAllIsRunDue(d, d.calls, ids, Atomic.Round(at, broken));
    } else {
      hide CatchAll, Atomic.RunDue;
      var after := LoneRunCatchesUp(s2, t, steps[1..]);
      NothingDue(d, after);
      ids := Progress.Listing(TM.ActiveCalls(d.calls));
      broken := set id | id in ids && id in d.calls :: (id, d.calls[id].billed + 1);
      NothingCharged(d, ids, at);
    }
  }

  lemma NothingDue(d: DB, broken: set<(Id, int)>)
    requires d.cfg.tiers != []
    ensures CatchAll(d, [], broken) == d
  {
  }

  lemma ScanLists(d: DB, at: int, o: Steps.Oracle)
    requires CanAct(d, Worker([], TM.Scan(at)), o)
    ensures TM.Lists(o.ids, TM.ActiveCalls(d.calls))
    ensures forall i :: 0 <= i < |o.ids| ==> o.ids[i] in d.calls
    ensures Act(d, Worker([], TM.Scan(at)), o) == Effect(d, Worker(TM.DuesOf(d.calls, o.ids, at), TM.Idle))
  {
  }

  // ------------------------------------------------------------- one lone minute

  /** From inside a minute, the statements of the worker up to the first return to the loop head. */
  ghost predicate InsideMinute(s: State, t: Tid, steps: seq<Step>)
    requires CanRun(s, steps)
    decreases |steps|
  {
    && t in s.tasks && s.tasks[t].Meter?
    && if steps == [] then s.tasks[t].meter.phase.Idle?
       else TM.InLoop(s.tasks[t].meter.phase) && steps[0].Advance? && steps[0].t == t && InsideMinute(Apply(s, steps[0]), t, steps[1..])
  }

  lemma {:induction false} MinuteFrom(s: State, t: Tid, steps: seq<Step>)
    requires CanRun(s, steps) && InsideMinute(s, t, steps) && steps != []
    requires ReadsTrue(s.db, s.tasks[t].meter)
    ensures var m := s.tasks[t].meter;
      && s.db.cfg.tiers != [] && m.dues != []
      && var (d', r) := Atomic.ChargeMinute(s.db, m.dues[0].call, m.dues[0].next);
      && Run(s, steps).db == d' && t in Run(s, steps).tasks && Run(s, steps).tasks[t] == Onward(m.dues, r)
    decreases |steps|
  {
    var m := s.tasks[t].meter;
    var s1 := Apply(s, steps[0]);
    MeterActs(s.db, m, steps[0].o);
    StatementChargesOn(s.db, m, steps[0].o);
    assert m.dues != [] && m.dues[0].next <= m.dues[0].last;
    hide ReadsTrue, TM.Act, TM.CanAct, Atomic.ChargeMinute, Onward;
    if steps[1..] != [] { MinuteFrom(s1, t, steps[1..]); }
  }

  /** Every lone pass through chargeMinute, from the loop head to the next return to it, has the
      effect of the atomic charge and goes on as its outcome says. */
  lemma EveryLoneMinuteIsAtomic(s: State, t: Tid, dues: seq<TM.Due>, o: Steps.Oracle, steps: seq<Step>)
    requires t in s.tasks && s.tasks[t] == Worker(dues, TM.Idle) && dues != [] && dues[0].next <= dues[0].last
    requires DistinctCalls(dues)
    requires Enabled(s, Advance(t, o)) && CanRun(Apply(s, Advance(t, o)), steps) && InsideMinute(Apply(s, Advance(t, o)), t, steps)
    ensures var end := Run(Apply(s, Advance(t, o)), steps);
      && s.db.cfg.tiers != []
      && var (d', r) := Atomic.ChargeMinute(s.db, dues[0].call, dues[0].next);
      && end.db == d' && t in end.tasks && end.tasks[t] == Onward(dues, r)
  {
    MinuteFrom(Apply(s, Advance(t, o)), t, steps);
  }
}

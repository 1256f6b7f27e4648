/** All workers over one database, interleaving statement by statement.

    A transaction reads the latest committed rows at each statement (READ COMMITTED); its writes
    become visible, and its advisory locks are released, in the single step that commits it. A
    statement with a WHERE clause sees the row as it is when the step happens, as a row lock
    guarantees. A lock is free when no worker holds it. A worker may fail or crash at any point. */
module Machine {
  import opened Prelude
  import opened Tables
  import opened Writes
  import opened Invariant
  import opened Steps
  import TM = TaximeterSteps
  import GS = GiftSteps
  import CS = CallSteps
  import PS = PayoutSteps
  import RS = RechargeSteps

  type Tid = nat

  datatype Task =
    | Meter(meter: TM.Task)
    | Gifting(gift: GS.Task)
    | Calling(call: CS.Task)
    | Paying(pay: PS.Task)
    | Charging(charge: RS.Task)
    | Dead

  datatype State = State(db: DB, tasks: map<Tid, Task>)

  /** Updates that one guarded statement makes outside any transaction, at any moment. */
  datatype Event =
    | Tick(elapsed: nat)
    | SetProfile(model: Id, profile: Profile)
    | Approve(model: Id)
    | Reject(call: Id)
    | RingOut(call: Id)
    | HangUp(call: Id, reason: EndReason)   // hangup, panic, endCall
    | Sweep(recharge: Id)                   // one row of the expiry sweep

  datatype Step =
    | Advance(t: Tid, o: Oracle)
    | Fail(t: Tid)
    | Crash(t: Tid)
    | Spawn(t: Tid, task: Task)
    | Outside(e: Event)

  // -------------------------------------------------------------- transitions

  ghost function Holds(t: Task): set<Key> {
    match t
    case Meter(m) => TM.Holds(m)
    case Gifting(g) => GS.Holds(g)
    case Calling(c) => CS.Holds(c)
    case Paying(p) => PS.Holds(p)
    case Charging(r) => RS.Holds(r)
    case Dead => {}
  }

  ghost predicate CanAct(d: DB, t: Task, o: Oracle) {
    match t
    case Meter(m) => TM.CanAct(d, m, o)
    case Gifting(g) => GS.CanAct(d, g, o)
    case Calling(c) => CS.CanAct(d, c, o)
    case Paying(p) => PS.CanAct(d, p, o)
    case Charging(r) => RS.CanAct(d, r, o)
    case Dead => false
  }

  datatype Effect = Effect(db: DB, task: Task)

  ghost function Act(d: DB, t: Task, o: Oracle): Effect
    requires CanAct(d, t, o)
  {
    match t
    case Meter(m) => var e := TM.Act(d, m, o); Effect(e.db, Meter(e.task))
    case Gifting(g) => var e := GS.Act(d, g, o); Effect(e.db, Gifting(e.task))
    case Calling(c) => var e := CS.Act(d, c, o); Effect(e.db, Calling(e.task))
    case Paying(p) => var e := PS.Act(d, p, o); Effect(e.db, Paying(e.task))
    case Charging(r) => var e := RS.Act(d, r, o); Effect(e.db, Charging(e.task))
    case Dead => Effect(d, t)
  }

  /** An error rolls the transaction back: the taximeter goes on with its next call, every other
      operation ends. */
  ghost function Failed(t: Task): Task {
    match t
    case Meter(m) => Meter(TM.Failed(m))
    case _ => Dead
  }

  /** Every operation starts at its first statement, with arguments of its caller's choice. */
  ghost predicate Starts(d: DB, t: Task) {
    match t
    case Meter(m) => m.dues == [] && m.phase.Scan? && m.phase.now <= d.now
    case Gifting(g) => g.phase == GS.Waiting
    case Calling(c) => c.phase == CS.WantClient || c.phase == CS.Reading
    case Paying(p) =>
      p.phase == PS.CheckingKyc
      || (p.phase == PS.Scan && (p.cutoff.Some? ==> p.cutoff.value <= d.now - d.cfg.stuckMs))
    case Charging(r) => r.phase == RS.Checking || r.phase.Looking?
    case Dead => false
  }

  ghost predicate CanHappen(d: DB, e: Event) {
    match e
    case SetProfile(_, profile) => ValidProfile(profile)
    case RingOut(call) => call in d.calls && IsExpired(d.now, d.calls[call].requestedAt)
    case HangUp(_, reason) => reason != Timeout && reason != Rejected
    case Sweep(recharge) => recharge in d.recharges
    case _ => true
  }

  ghost function Happen(d: DB, e: Event): DB
    requires CanHappen(d, e)
  {
    match e
    case Tick(elapsed) => d.(now := d.now + elapsed)
    case SetProfile(model, profile) => d.(profiles := d.profiles[model := profile])
    case Approve(model) => d.(approved := d.approved + {model})
    case Reject(call) => Close(d, call, {Requested}, Rejected)
    case RingOut(call) => Close(d, call, {Requested}, Timeout)
    case HangUp(call, reason) => Close(d, call, NOT_ENDED, reason)
    case Sweep(recharge) => Expire(d, recharge)
  }

  /** No other worker holds any of these keys. */
  ghost predicate Free(s: State, t: Tid, keys: set<Key>) {
    forall u :: u in s.tasks && u != t ==> Holds(s.tasks[u]) !! keys
  }

  ghost predicate Enabled(s: State, step: Step) {
    match step
    case Advance(t, o) =>
      t in s.tasks && CanAct(s.db, s.tasks[t], o) && Free(s, t, Holds(Act(s.db, s.tasks[t], o).task))
    case Fail(t) => t in s.tasks
    case Crash(t) => t in s.tasks
    case Spawn(t, task) => t !in s.tasks && Starts(s.db, task)
    case Outside(e) => CanHappen(s.db, e)
  }

  ghost function Apply(s: State, step: Step): State
    requires Enabled(s, step)
  {
    match step
    case Advance(t, o) => var e := Act(s.db, s.tasks[t], o); State(e.db, s.tasks[t := e.task])
    case Fail(t) => s.(tasks := s.tasks[t := Failed(s.tasks[t])])
    case Crash(t) => s.(tasks := s.tasks[t := Dead])
    case Spawn(t, task) => s.(tasks := s.tasks[t := task])
    case Outside(e) => s.(db := Happen(s.db, e))
  }

  /** The server starts over an empty database, without workers. */
  ghost predicate Init(s: State) {
    EmptyDB(s.db) && ValidConfig(s.db.cfg) && s.tasks == map[]
  }

  /** A run: each step is enabled where it is taken. */
  ghost predicate CanRun(s: State, steps: seq<Step>)
    decreases |steps|
  {
    steps == [] || (Enabled(s, steps[0]) && CanRun(Apply(s, steps[0]), steps[1..]))
  }

  ghost function Run(s: State, steps: seq<Step>): State
    requires CanRun(s, steps)
    decreases |steps|
  {
    if steps == [] then s else Run(Apply(s, steps[0]), steps[1..])
  }

  // ---------------------------------------------------------------- invariant

  ghost predicate TaskOk(d: DB, t: Task) {
    match t
    case Meter(m) => TM.Ok(d, m)
    case Gifting(g) => GS.Ok(d, g)
    case Calling(c) => CS.Ok(d, c)
    case Paying(p) => PS.Ok(d, p)
    case Charging(r) => RS.Ok(d, r)
    case Dead => true
  }

  ghost predicate MutualExclusion(tasks: map<Tid, Task>) {
    forall t, u :: t in tasks && u in tasks && t != u ==> Holds(tasks[t]) !! Holds(tasks[u])
  }

  ghost predicate AllOk(d: DB, tasks: map<Tid, Task>) {
    forall t :: t in tasks ==> TaskOk(d, tasks[t])
  }

  ghost predicate Inv(s: State) {
    DbInv(s.db) && AllOk(s.db, s.tasks) && MutualExclusion(s.tasks)
  }

  lemma InitInv(s: State)
    requires Init(s)
    ensures Inv(s)
  {
    EmptyDatabaseOk(s.db);
  }

  lemma TaskStable(d: DB, d': DB, keys: set<Key>, t: Task)
    requires TaskOk(d, t) && Guarantee(d, d', keys) && Holds(t) !! keys
    ensures TaskOk(d', t)
  {
    hide Guarantee, TM.Ok, GS.Ok, CS.Ok, PS.Ok, RS.Ok, TM.Holds, GS.Holds, CS.Holds, PS.Holds, RS.Holds;
    match t {
      case Meter(m) => TM.Stable(d, d', keys, m);
      case Gifting(g) => GS.Stable(d, d', keys, g);
      case Calling(c) => CS.Stable(d, d', keys, c);
      case Paying(p) => PS.Stable(d, d', keys, p);
      case Charging(r) => RS.Stable(d, d', keys, r);
      case Dead =>
    }
  }

  lemma AllStable(d: DB, d': DB, keys: set<Key>, tasks: map<Tid, Task>)
    requires AllOk(d, tasks) && Guarantee(d, d', keys)
    requires forall t :: t in tasks ==> Holds(tasks[t]) !! keys
    ensures AllOk(d', tasks)
  {
    hide Guarantee, TaskOk, Holds;
    forall t | t in tasks ensures TaskOk(d', tasks[t]) { TaskStable(d, d', keys, tasks[t]); }
  }

  /** A statement of one worker: what it does to the database, promises, and knows afterwards. */
  lemma ActKeeps(d: DB, t: Task, o: Oracle)
    requires DbInv(d) && TaskOk(d, t) && CanAct(d, t, o)
    ensures var e := Act(d, t, o);
      DbInv(e.db) && Guarantee(d, e.db, Holds(t) + Holds(e.task)) && TaskOk(e.db, e.task)
  {
    hide DbInv, Guarantee, TM.Ok, GS.Ok, CS.Ok, PS.Ok, RS.Ok, TM.Holds, GS.Holds, CS.Holds, PS.Holds, RS.Holds;
    hide TM.CanAct, GS.CanAct, CS.CanAct, PS.CanAct, RS.CanAct, TM.Act, GS.Act, CS.Act, PS.Act, RS.Act;
    var e := Act(d, t, o);
    match t {
      case Meter(m) => TM.ActKeeps(d, m, o);
      case Gifting(g) => GS.ActKeeps(d, g, o);
      case Calling(c) => CS.ActKeeps(d, c, o);
      case Paying(p) => PS.ActKeeps(d, p, o);
      case Charging(r) => RS.ActKeeps(d, r, o);
      case Dead =>
    }
    if !t.Charging? { MoreKeys(d, e.db, Holds(t), Holds(t) + Holds(e.task)); }
  }

  lemma EventKeeps(d: DB, e: Event)
    requires DbInv(d) && CanHappen(d, e)
    ensures DbInv(Happen(d, e)) && Guarantee(d, Happen(d, e), {})
  {
    assert ProfilesOk(d.profiles);
    hide DbInv, Guarantee, Close, Expire;
    match e {
      case Tick(elapsed) => RestKeeps(d, d.now + elapsed, d.profiles, d.approved, d.sent);
      case SetProfile(model, profile) => RestKeeps(d, d.now, d.profiles[model := profile], d.approved, d.sent);
      case Approve(model) => RestKeeps(d, d.now, d.profiles, d.approved + {model}, d.sent);
      case Reject(call) => CloseKeeps(d, call, {Requested}, Rejected);
      case RingOut(call) => CloseKeeps(d, call, {Requested}, Timeout);
      case HangUp(call, reason) => CloseKeeps(d, call, NOT_ENDED, reason);
      case Sweep(recharge) => ExpireKeeps(d, recharge);
    }
  }

  /** Replacing one worker that holds nothing new, over an unchanged database. */
  lemma ReplaceKeeps(s: State, t: Tid, task: Task)
    requires Inv(s) && TaskOk(s.db, task) && Holds(task) == {}
    ensures Inv(s.(tasks := s.tasks[t := task]))
  {
    hide DbInv, TaskOk, Holds;
  }

  lemma FailedIsOk(d: DB, t: Task)
    requires TaskOk(d, t)
    ensures TaskOk(d, Failed(t)) && Holds(Failed(t)) == {}
  {
    if t.Meter? { TM.FailedKeeps(d, t.meter); }
  }

  lemma StartIsOk(d: DB, t: Task)
    requires Starts(d, t)
    ensures TaskOk(d, t) && Holds(t) == {}
  {
  }

  lemma AdvanceKeeps(s: State, t: Tid, o: Oracle)
    requires Inv(s) && Enabled(s, Advance(t, o))
    ensures Inv(Apply(s, Advance(t, o)))
  {
    hide DbInv, Guarantee, TaskOk, Holds, CanAct, Act;
    var e := Act(s.db, s.tasks[t], o);
    ActKeeps(s.db, s.tasks[t], o);
    var others := s.tasks - {t};
    AllStable(s.db, e.db, Holds(s.tasks[t]) + Holds(e.task), others);
    var tasks' := s.tasks[t := e.task];
    assert forall u :: u in tasks' && u != t ==> u in others && tasks'[u] == others[u];
  }

  /** Every step of every interleaving keeps the invariant. */
  lemma StepKeeps(s: State, step: Step)
    requires Inv(s) && Enabled(s, step)
    ensures Inv(Apply(s, step))
  {
    hide DbInv, Guarantee, TaskOk, Holds, CanAct, Act, Starts, CanHappen, Happen, Free, MutualExclusion, Failed;
    match step {
      case Advance(t, o) => AdvanceKeeps(s, t, o);
      case Fail(t) => FailedIsOk(s.db, s.tasks[t]); ReplaceKeeps(s, t, Failed(s.tasks[t]));
      case Crash(t) => DeadIsOk(s.db); ReplaceKeeps(s, t, Dead);
      case Spawn(t, task) => StartIsOk(s.db, task); ReplaceKeeps(s, t, task);
      case Outside(e) =>
        EventKeeps(s.db, e);
        AllStable(s.db, Happen(s.db, e), {}, s.tasks);
    }
  }

  lemma DeadIsOk(d: DB)
    ensures TaskOk(d, Dead) && Holds(Dead) == {}
  {
  }

  /** What a step promises, whoever takes it. */
  lemma StepGuarantee(s: State, step: Step) returns (keys: set<Key>)
    requires Inv(s) && Enabled(s, step)
    ensures Guarantee(s.db, Apply(s, step).db, keys)
  {
    hide DbInv, Guarantee, TaskOk, Act, CanAct, Free, Happen;
    keys := {};
    match step {
      case Advance(t, o) =>
        ActKeeps(s.db, s.tasks[t], o);
        keys := Holds(s.tasks[t]) + Holds(Act(s.db, s.tasks[t], o).task);
      case Outside(e) => EventKeeps(s.db, e);
      case _ => NothingHappens(s.db, {});
    }
  }

  /** The invariant holds after every run from the initial state. */
  lemma {:induction false} RunKeeps(s: State, steps: seq<Step>)
    requires Inv(s) && CanRun(s, steps)
    ensures Inv(Run(s, steps))
    decreases |steps|
  {
    hide Inv, Enabled, Apply;
    if steps != [] {
      StepKeeps(s, steps[0]);
      RunKeeps(Apply(s, steps[0]), steps[1..]);
    }
  }

  /** A run can be put together from two, and taken apart at any point. */
  lemma {:induction false} RunsJoin(s: State, steps: seq<Step>, more: seq<Step>)
    requires CanRun(s, steps) && CanRun(Run(s, steps), more)
    ensures CanRun(s, steps + more) && Run(s, steps + more) == Run(Run(s, steps), more)
    decreases |steps|
  {
    hide Enabled, Apply;
    if steps == [] {
      assert steps + more == more;
    } else {
      assert (steps + more)[1..] == steps[1..] + more;
      RunsJoin(Apply(s, steps[0]), steps[1..], more);
    }
  }

  lemma {:induction false} RunsSplit(s: State, steps: seq<Step>, k: nat)
    requires CanRun(s, steps) && k <= |steps|
    ensures CanRun(s, steps[..k]) && CanRun(Run(s, steps[..k]), steps[k..])
    ensures Run(Run(s, steps[..k]), steps[k..]) == Run(s, steps)
    decreases |steps|
  {
    hide Enabled, Apply;
    if k > 0 {
      assert steps[..k][0] == steps[0] && steps[..k][1..] == steps[1..][..k - 1] && steps[1..][k - 1..] == steps[k..];
      RunsSplit(Apply(s, steps[0]), steps[1..], k - 1);
    } else {
      assert steps[..0] == [] && steps[0..] == steps;
    }
  }
}

/** The payout lease: if every worker finishes a payout within the stuck limit of its claim, or
    crashes, then a payout has one worker at a time and its status tells the truth. */
module Lease {
  import opened Prelude
  import opened Tables
  import opened Ledger
  import opened Writes
  import opened Invariant
  import opened Machine
  import Steps
  import Theorems
  import TakeRate
  import TM = TaximeterSteps
  import GS = GiftSteps
  import CS = CallSteps
  import PS = PayoutSteps
  import RS = RechargeSteps

  // ------------------------------------------------------------- assumptions

  predicate IsSettling(t: Task) {
    t.Paying? && (t.pay.phase.Sending? || t.pay.phase.Marking? || t.pay.phase.Reversing?)
  }

  /** The worker is settling this payout. */
  predicate Settles(t: Task, id: Id) {
    IsSettling(t) && t.pay.phase.id == id
  }

  /** No live worker has been settling a payout for longer than the stuck limit. */
  ghost predicate Timely(s: State) {
    forall t :: t in s.tasks && IsSettling(s.tasks[t]) ==> s.db.now - s.tasks[t].pay.phase.stamp <= s.db.cfg.stuckMs
  }

  ghost predicate TimelyRun(s: State, steps: seq<Step>)
    requires CanRun(s, steps)
    decreases |steps|
  {
    Timely(s) && (steps == [] || TimelyRun(Apply(s, steps[0]), steps[1..]))
  }

  /** An idempotent provider: it throws exactly when it moved no money for this payout, and once
      it has moved it, it answers every repetition with success. */
  ghost predicate Honest(s: State, step: Step) {
    step.Advance? && step.t in s.tasks && s.tasks[step.t].Paying? && s.tasks[step.t].pay.phase.Sending? ==>
      (step.o.ok <==> step.o.moved) && (s.tasks[step.t].pay.phase.id in s.db.sent ==> step.o.ok)
  }

  ghost predicate HonestRun(s: State, steps: seq<Step>)
    requires CanRun(s, steps)
    decreases |steps|
  {
    steps == [] || (Honest(s, steps[0]) && HonestRun(Apply(s, steps[0]), steps[1..]))
  }

  /** A recovery run claims a payout that a live worker is still settling: that worker's claim is
      older than the cutoff of the run. */
  ghost predicate Takeover(s: State, step: Step) {
    && step.Advance? && step.t in s.tasks && s.tasks[step.t].Paying?
    && var pay := s.tasks[step.t].pay;
    && pay.phase.Claiming? && pay.queue != [] && pay.cutoff.Some?
    && exists u :: u in s.tasks && u != step.t && Settles(s.tasks[u], pay.queue[0]) && s.tasks[u].pay.phase.stamp < pay.cutoff.value
  }

  ghost predicate CalmRun(s: State, steps: seq<Step>)
    requires CanRun(s, steps)
    decreases |steps|
  {
    steps == [] || (!Takeover(s, steps[0]) && CalmRun(Apply(s, steps[0]), steps[1..]))
  }

  // -------------------------------------------------------------- invariants

  ghost predicate Final(status: PayoutStatus) {
    status == PayoutPaid || status == PayoutFailed
  }

  ghost predicate Reversed(d: DB, id: Id) {
    PayoutReversed(id) in Posted(d.ledger)
  }

  /** A worker that settles a payout owns its row: PROCESSING, with the worker's own stamp. */
  ghost predicate OwnsRow(d: DB, t: Task) {
    IsSettling(t) ==>
      && t.pay.phase.id in d.payouts
      && d.payouts[t.pay.phase.id].status == PayoutProcessing
      && d.payouts[t.pay.phase.id].processingAt == Some(t.pay.phase.stamp)
  }

  ghost predicate StatusTrue(d: DB) {
    forall id :: id in d.payouts ==> (d.payouts[id].status == PayoutFailed <==> Reversed(d, id))
  }

  ghost predicate LeaseInv(s: State) {
    && (forall t :: t in s.tasks ==> OwnsRow(s.db, s.tasks[t]))
    && (forall t, u :: t in s.tasks && u in s.tasks && t != u && IsSettling(s.tasks[t]) && IsSettling(s.tasks[u]) ==>
          s.tasks[t].pay.phase.id != s.tasks[u].pay.phase.id)
    && StatusTrue(s.db)
  }

  /** What the provider did agrees with what the rows and the workers say. */
  ghost predicate SentInv(s: State) {
    && (forall id :: id in s.db.sent ==> id in s.db.payouts)
    && (forall id :: id in s.db.sent ==>
          s.db.payouts[id].status == PayoutProcessing || s.db.payouts[id].status == PayoutPaid)
    && (forall id :: id in s.db.payouts && s.db.payouts[id].status == PayoutPaid ==> id in s.db.sent)
    && (forall t :: t in s.tasks && s.tasks[t].Paying? && s.tasks[t].pay.phase.Marking? ==> s.tasks[t].pay.phase.id in s.db.sent)
    && (forall t :: t in s.tasks && s.tasks[t].Paying? && s.tasks[t].pay.phase.Reversing? ==> s.tasks[t].pay.phase.id !in s.db.sent)
  }

  // ------------------------------------------------------------------ frames

  /** Nothing that concerns settling changed: neither rows, nor reversals, nor sent money. */
  ghost predicate SamePayouts(d: DB, d': DB) {
    && d'.payouts == d.payouts && d'.sent == d.sent
    && forall id :: Reversed(d', id) == Reversed(d, id)
  }

  lemma RowsNotReversal(l: seq<Entry>, g: Group, lines: seq<Line>)
    requires lines != [] && !g.PayoutReversed?
    ensures forall id :: PayoutReversed(id) in Posted(l + Rows(g, lines)) <==> PayoutReversed(id) in Posted(l)
  {
    PostedByRows(l, g, lines);
  }

  lemma MeterFrame(d: DB, m: TM.Task, o: Steps.Oracle)
    requires TM.CanAct(d, m, o)
    ensures SamePayouts(d, TM.Act(d, m, o).db)
  {
    if m.phase.Priced? {
      var row := m.phase.row;
      RowsNotReversal(d.ledger, CallMinute(m.dues[0].call, m.dues[0].next),
        MinuteLines(row.client, row.model, row.price, TakeRate.ComputeSplit(row.price, m.phase.rate).commission));
    }
    hide Posted, Rows, Sum, TakeRate.ComputeSplit;
  }

  lemma GiftFrame(d: DB, g: GS.Task, o: Steps.Oracle)
    requires GS.CanAct(d, g, o)
    ensures SamePayouts(d, GS.Act(d, g, o).db)
  {
    if g.phase.Priced? {
      RowsNotReversal(d.ledger, GiftSent(o.id),
        GiftLines(g.client, g.model, g.phase.price, TakeRate.ComputeSplit(g.phase.price, g.phase.rate).commission));
    }
    hide Posted, Rows, Sum, TakeRate.ComputeSplit;
  }

  lemma RechargeFrame(d: DB, r: RS.Task, o: Steps.Oracle)
    requires RS.CanAct(d, r, o)
    ensures SamePayouts(d, RS.Act(d, r, o).db)
  {
    if r.phase.Found? {
      var row := d.recharges[r.phase.id];
      RowsNotReversal(d.ledger, RechargePaid(r.phase.id), RechargeLines(row.user, row.amount));
    }
    hide Posted, Rows, Sum;
  }

  lemma OtherFrame(d: DB, t: Task, o: Steps.Oracle)
    requires CanAct(d, t, o) && !t.Paying?
    ensures SamePayouts(d, Act(d, t, o).db) && !Act(d, t, o).task.Paying?
  {
    hide SamePayouts, TM.Act, GS.Act, RS.Act;
    match t {
      case Meter(m) => MeterFrame(d, m, o);
      case Gifting(g) => GiftFrame(d, g, o);
      case Calling(c) => CallFrame(d, c, o);
      case Charging(r) => RechargeFrame(d, r, o);
    }
  }

  lemma CallFrame(d: DB, c: CS.Task, o: Steps.Oracle)
    requires CS.CanAct(d, c, o)
    ensures SamePayouts(d, CS.Act(d, c, o).db)
  {
  }

  lemma EventFrame(d: DB, e: Event)
    requires CanHappen(d, e)
    ensures SamePayouts(d, Happen(d, e))
  {
  }

  /** Replacing one worker by one that settles nothing, over the same payouts. */
  lemma FrameKeeps(s: State, s': State, t: Tid)
    requires LeaseInv(s) && SamePayouts(s.db, s'.db)
    requires s'.tasks == s.tasks || (t in s'.tasks && !IsSettling(s'.tasks[t]) && s'.tasks == s.tasks[t := s'.tasks[t]])
    ensures LeaseInv(s')
    ensures SentInv(s) ==> SentInv(s')
  {
  }

  // ------------------------------------------------------------------- steps

  /** Without a takeover nobody else is settling a payout that is being claimed: a PENDING row has
      no worker, and a stale stamp would belong to a worker that is being overtaken. */
  lemma ClaimableHasNoWorker(s: State, step: Step, id: Id, u: Tid)
    requires LeaseInv(s) && !Takeover(s, step)
    requires step.Advance? && step.t in s.tasks && s.tasks[step.t].Paying? && s.tasks[step.t].pay.phase.Claiming?
    requires s.tasks[step.t].pay.queue != [] && s.tasks[step.t].pay.queue[0] == id
    requires id in s.db.payouts && Claimable(s.db.payouts[id], s.tasks[step.t].pay.cutoff)
    requires u in s.tasks
    ensures !Settles(s.tasks[u], id)
  {
    hide StatusTrue;
    assert OwnsRow(s.db, s.tasks[u]);
  }

  lemma CutoffIsOld(s: State, t: Tid)
    requires Inv(s) && t in s.tasks && s.tasks[t].Paying? && s.tasks[t].pay.phase.Claiming?
    ensures var cutoff := s.tasks[t].pay.cutoff; cutoff.Some? ==> cutoff.value <= s.db.now - s.db.cfg.stuckMs
  {
    hide DbInv, MutualExclusion;
    assert TaskOk(s.db, s.tasks[t]);
  }

  /** Workers that keep their time are never overtaken. */
  lemma TimelyIsCalm(s: State, step: Step)
    requires Inv(s) && Timely(s)
    ensures !Takeover(s, step)
  {
    if Takeover(s, step) {
      CutoffIsOld(s, step.t);
      hide Inv;
      assert false;
    }
  }

  /** The state after a settling worker's step. */
  ghost function After(s: State, t: Tid, d: DB, pay: PS.Task): State {
    State(d, s.tasks[t := Paying(pay)])
  }

  lemma ClaimKeepsLease(s: State, t: Tid, o: Steps.Oracle, id: Id, pay: PS.Task)
    requires LeaseInv(s) && !Takeover(s, Advance(t, o))
    requires t in s.tasks && s.tasks[t].Paying? && s.tasks[t].pay.phase.Claiming?
    requires s.tasks[t].pay.queue != [] && s.tasks[t].pay.queue[0] == id
    requires id in s.db.payouts && Claimable(s.db.payouts[id], s.tasks[t].pay.cutoff)
    requires pay.phase == PS.Sending(id, s.db.now)
    ensures LeaseInv(After(s, t, Claim(s.db, id), pay))
    ensures SentInv(s) ==> SentInv(After(s, t, Claim(s.db, id), pay))
  {
    forall u | u in s.tasks ensures !Settles(s.tasks[u], id) { ClaimableHasNoWorker(s, Advance(t, o), id, u); }
    hide Takeover, Posted, Claim, Claimable, Reversed, LeaseInv, SentInv;
    ClaimWrites(s.db, id, s.tasks[t].pay.cutoff);
    RowClaimed(s, t, Claim(s.db, id), id, pay);
  }

  lemma RowClaimed(s: State, t: Tid, d': DB, id: Id, pay: PS.Task)
    requires LeaseInv(s) && t in s.tasks && id in s.db.payouts && !Final(s.db.payouts[id].status)
    requires forall u :: u in s.tasks ==> !Settles(s.tasks[u], id)
    requires d'.payouts == s.db.payouts[id := s.db.payouts[id].(status := PayoutProcessing, processingAt := Some(s.db.now))]
    requires d'.sent == s.db.sent && forall x :: Reversed(d', x) == Reversed(s.db, x)
    requires pay.phase == PS.Sending(id, s.db.now)
    ensures LeaseInv(After(s, t, d', pay))
    ensures SentInv(s) ==> SentInv(After(s, t, d', pay))
  {
    hide Reversed;
  }

  /** A claim changes the claimed row only, which is neither PAID nor FAILED. */
  lemma ClaimWrites(d: DB, id: Id, cutoff: Option<int>)
    requires id in d.payouts && Claimable(d.payouts[id], cutoff)
    ensures var d' := Claim(d, id);
      && d'.payouts == d.payouts[id := d.payouts[id].(status := PayoutProcessing, processingAt := Some(d.now))]
      && d'.sent == d.sent && d'.ledger == d.ledger
      && !Final(d.payouts[id].status)
    ensures forall x :: Reversed(Claim(d, id), x) == Reversed(d, x)
  {
  }

  lemma SendKeepsLease(s: State, t: Tid, o: Steps.Oracle)
    requires LeaseInv(s) && t in s.tasks && s.tasks[t].Paying? && s.tasks[t].pay.phase.Sending?
    requires PS.CanAct(s.db, s.tasks[t].pay, o)
    ensures var e := PS.Act(s.db, s.tasks[t].pay, o);
      && LeaseInv(After(s, t, e.db, e.task))
      && (SentInv(s) && Honest(s, Advance(t, o)) ==> SentInv(After(s, t, e.db, e.task)))
  {
    var d' := PS.Act(s.db, s.tasks[t].pay, o).db;
    assert OwnsRow(s.db, s.tasks[t]);
    assert forall x :: Reversed(d', x) == Reversed(s.db, x);
    hide Reversed;
  }

  lemma MarkKeepsLease(s: State, t: Tid, o: Steps.Oracle)
    requires LeaseInv(s) && t in s.tasks && s.tasks[t].Paying? && s.tasks[t].pay.phase.Marking?
    requires PS.CanAct(s.db, s.tasks[t].pay, o)
    ensures var e := PS.Act(s.db, s.tasks[t].pay, o);
      && LeaseInv(After(s, t, e.db, e.task))
      && (SentInv(s) ==> SentInv(After(s, t, e.db, e.task)))
  {
    var d' := PS.Act(s.db, s.tasks[t].pay, o).db;
    var id := s.tasks[t].pay.phase.id;
    assert OwnsRow(s.db, s.tasks[t]);
    assert Settles(s.tasks[t], id);
    assert forall x :: Reversed(d', x) == Reversed(s.db, x);
    hide Reversed;
  }

  lemma ReverseKeepsLease(s: State, t: Tid, o: Steps.Oracle)
    requires LeaseInv(s) && t in s.tasks && s.tasks[t].Paying? && s.tasks[t].pay.phase.Reversing?
    requires PS.CanAct(s.db, s.tasks[t].pay, o)
    ensures var e := PS.Act(s.db, s.tasks[t].pay, o);
      && LeaseInv(After(s, t, e.db, e.task))
      && (SentInv(s) ==> SentInv(After(s, t, e.db, e.task)))
  {
    var id := s.tasks[t].pay.phase.id;
    var row := s.db.payouts[id];
    PostedByRows(s.db.ledger, PayoutReversed(id), ReversalLines(row.model, row.amount));
    var d' := PS.Act(s.db, s.tasks[t].pay, o).db;
    assert OwnsRow(s.db, s.tasks[t]);
    assert Settles(s.tasks[t], id);
    assert forall x :: Reversed(d', x) <==> x == id || Reversed(s.db, x);
    hide Reversed, Rows;
  }

  lemma RequestKeepsLease(s: State, t: Tid, o: Steps.Oracle)
    requires Inv(s) && LeaseInv(s) && t in s.tasks && s.tasks[t].Paying? && s.tasks[t].pay.phase.Funded?
    requires PS.CanAct(s.db, s.tasks[t].pay, o)
    ensures var e := PS.Act(s.db, s.tasks[t].pay, o);
      && LeaseInv(After(s, t, e.db, e.task))
      && (SentInv(s) ==> SentInv(After(s, t, e.db, e.task)))
  {
    var pay := s.tasks[t].pay;
    NewPayoutIsNew(s.db.ledger, s.db.payouts, s.db.approved, o.id);
    hide Inv, Rows, Posted;
    var d' := PS.Act(s.db, pay, o).db;
    if d' != s.db { RequestWrites(s.db, pay, o); }
    hide Reversed, PS.Act;
    InsertKeepsLease(s, t, d', PS.Act(s.db, pay, o).task);
  }

  lemma RequestWrites(d: DB, pay: PS.Task, o: Steps.Oracle)
    requires PS.CanAct(d, pay, o) && pay.phase.Funded?
    requires PS.Act(d, pay, o).db != d && !Reversed(d, o.id)
    ensures IsInsert(d, PS.Act(d, pay, o).db)
  {
    RowsNotReversal(d.ledger, PayoutAsked(o.id), PayoutLines(pay.model, pay.amount));
    hide Rows, Posted;
    var d' := PS.Act(d, pay, o).db;
    assert o.id !in d.payouts && d'.payouts == d.payouts[o.id := Payout(pay.model, pay.amount, PayoutPending, None)];
  }

  /** At most one row is added, PENDING and not reversed. */
  ghost predicate IsInsert(d: DB, d': DB) {
    && d'.sent == d.sent
    && (forall x :: Reversed(d', x) == Reversed(d, x))
    && (forall x :: x in d.payouts ==> x in d'.payouts && d'.payouts[x] == d.payouts[x])
    && (forall x :: x in d'.payouts && x !in d.payouts ==> d'.payouts[x].status == PayoutPending && !Reversed(d, x))
  }

  lemma InsertKeepsLease(s: State, t: Tid, d': DB, pay: PS.Task)
    requires LeaseInv(s) && t in s.tasks && (d' == s.db || IsInsert(s.db, d')) && pay.phase == PS.Finished
    ensures LeaseInv(After(s, t, d', pay))
    ensures SentInv(s) ==> SentInv(After(s, t, d', pay))
  {
    hide Reversed;
  }

  lemma PayKeepsLease(s: State, t: Tid, o: Steps.Oracle)
    requires Inv(s) && LeaseInv(s) && !Takeover(s, Advance(t, o))
    requires t in s.tasks && s.tasks[t].Paying? && Enabled(s, Advance(t, o))
    ensures LeaseInv(Apply(s, Advance(t, o)))
    ensures SentInv(s) && Honest(s, Advance(t, o)) ==> SentInv(Apply(s, Advance(t, o)))
  {
    hide Inv, LeaseInv, SentInv, Takeover, Honest, Claim, Claimable, Free;
    var pay, s' := s.tasks[t].pay, Apply(s, Advance(t, o));
    match pay.phase {
      case Claiming =>
        if pay.queue != [] && pay.queue[0] in s.db.payouts && Claimable(s.db.payouts[pay.queue[0]], pay.cutoff) {
          ClaimKeepsLease(s, t, o, pay.queue[0], PS.Act(s.db, pay, o).task);
        } else {
          FrameKeeps(s, s', t);
        }
      case Sending(_, _) => SendKeepsLease(s, t, o);
      case Marking(_, _) => MarkKeepsLease(s, t, o);
      case Reversing(_, _) => ReverseKeepsLease(s, t, o);
      case Funded(_) => RequestKeepsLease(s, t, o);
      case _ => FrameKeeps(s, s', t);
    }
  }

  lemma StepKeepsLease(s: State, step: Step)
    requires Inv(s) && LeaseInv(s) && !Takeover(s, step) && Enabled(s, step)
    ensures LeaseInv(Apply(s, step))
    ensures SentInv(s) && Honest(s, step) ==> SentInv(Apply(s, step))
  {
    hide Inv, LeaseInv, SentInv, Takeover, Honest, Act, CanAct, Free, CanHappen, Happen, Holds;
    match step {
      case Advance(t, o) =>
        if s.tasks[t].Paying? {
          PayKeepsLease(s, t, o);
        } else {
          OtherFrame(s.db, s.tasks[t], o);
          FrameKeeps(s, Apply(s, step), t);
        }
      case Outside(e) => EventFrame(s.db, e); FrameKeeps(s, Apply(s, step), 0);
      case Fail(t) => FrameKeeps(s, Apply(s, step), t);
      case Crash(t) => FrameKeeps(s, Apply(s, step), t);
      case Spawn(t, task) => FrameKeeps(s, Apply(s, step), t);
    }
  }

  lemma {:induction false} RunKeepsLease(s: State, steps: seq<Step>)
    requires Inv(s) && LeaseInv(s) && CanRun(s, steps) && CalmRun(s, steps)
    ensures LeaseInv(Run(s, steps))
    ensures SentInv(s) && HonestRun(s, steps) ==> SentInv(Run(s, steps))
    decreases |steps|
  {
    hide Inv, LeaseInv, SentInv, Takeover, Honest, Enabled, Apply;
    if steps != [] {
      StepKeeps(s, steps[0]);
      StepKeepsLease(s, steps[0]);
      RunKeepsLease(Apply(s, steps[0]), steps[1..]);
    }
  }

  lemma {:induction false} TimelyRunIsCalm(s: State, steps: seq<Step>)
    requires Inv(s) && CanRun(s, steps) && TimelyRun(s, steps)
    ensures CalmRun(s, steps)
    decreases |steps|
  {
    hide Inv, Takeover, Timely, Enabled, Apply;
    if steps != [] {
      TimelyIsCalm(s, steps[0]);
      StepKeeps(s, steps[0]);
      TimelyRunIsCalm(Apply(s, steps[0]), steps[1..]);
    }
  }

  lemma InitLease(s: State)
    requires Init(s)
    ensures LeaseInv(s) && SentInv(s)
  {
  }

  // ---------------------------------------------------------------- theorems

  /** Reached by a timely run from the start; honest, if the provider was idempotent throughout. */
  ghost predicate TimelyReachable(s: State, honest: bool) {
    exists start: State, steps: seq<Step> ::
      Init(start) && CanRun(start, steps) && TimelyRun(start, steps) && (honest ==> HonestRun(start, steps))
      && s == Run(start, steps)
  }

  // ------------------------------------------- when a payout gets two workers

  /** No payout has two live workers. */
  ghost predicate OneWorkerEach(s: State) {
    forall t, u, id :: t in s.tasks && u in s.tasks && Settles(s.tasks[t], id) && Settles(s.tasks[u], id) ==> t == u
  }

  /** In every state of the run. */
  ghost predicate OneWorkerThroughout(s: State, steps: seq<Step>)
    requires CanRun(s, steps)
    decreases |steps|
  {
    OneWorkerEach(s) && (steps == [] || OneWorkerThroughout(Apply(s, steps[0]), steps[1..]))
  }

  /** Reached from the start by a run without takeovers; the state itself may be late. Honest, if the
      provider was idempotent throughout. */
  ghost predicate CalmReachable(s: State, honest: bool) {
    exists start: State, steps: seq<Step> ::
      Init(start) && CanRun(start, steps) && CalmRun(start, steps) && (honest ==> HonestRun(start, steps))
      && s == Run(start, steps)
  }

  lemma CalmReachableInv(s: State, honest: bool)
    requires CalmReachable(s, honest)
    ensures Inv(s) && LeaseInv(s) && (honest ==> SentInv(s))
  {
    hide Init, Inv, LeaseInv, SentInv, Takeover, Honest, Enabled, Apply;
    var start, steps :| Init(start) && CanRun(start, steps) && CalmRun(start, steps)
      && (honest ==> HonestRun(start, steps)) && s == Run(start, steps);
    InitInv(start);
    InitLease(start);
    RunKeeps(start, steps);
    RunKeepsLease(start, steps);
  }

  /** Runs whose workers keep their time are calm. */
  lemma TimelyReachableIsCalm(s: State, honest: bool)
    requires TimelyReachable(s, honest)
    ensures CalmReachable(s, honest)
  {
    hide Init, Inv, Timely, Honest, Takeover, Enabled, Apply;
    var start, steps :| Init(start) && CanRun(start, steps) && TimelyRun(start, steps)
      && (honest ==> HonestRun(start, steps)) && s == Run(start, steps);
    InitInv(start);
    TimelyRunIsCalm(start, steps);
  }

  /** A claim gives a payout a second live worker exactly when the worker it has claimed it
      before the cutoff; the clock alone decides, not what that worker is doing. */
  lemma TakenOverIffStale(s: State, t: Tid, o: Steps.Oracle, u: Tid, id: Id)
    requires CalmReachable(s, false) && Enabled(s, Advance(t, o)) && u in s.tasks && u != t
    requires s.tasks[t].Paying? && s.tasks[t].pay.phase.Claiming?
    requires s.tasks[t].pay.queue != [] && s.tasks[t].pay.queue[0] == id && Settles(s.tasks[u], id)
    ensures var s', cutoff := Apply(s, Advance(t, o)), s.tasks[t].pay.cutoff;
      && Settles(s'.tasks[u], id)
      && (Settles(s'.tasks[t], id) <==> cutoff.Some? && s.tasks[u].pay.phase.stamp < cutoff.value)
  {
    hide Inv, LeaseInv, CalmReachable, PS.Act, PS.CanAct, OwnsRow;
    CalmReachableInv(s, false);
    ClaimTakesOver(s, t, o, u, id);
  }

  lemma ClaimTakesOver(s: State, t: Tid, o: Steps.Oracle, u: Tid, id: Id)
    requires LeaseInv(s) && Enabled(s, Advance(t, o)) && u in s.tasks && u != t
    requires s.tasks[t].Paying? && s.tasks[t].pay.phase.Claiming?
    requires s.tasks[t].pay.queue != [] && s.tasks[t].pay.queue[0] == id && Settles(s.tasks[u], id)
    ensures var s', cutoff := Apply(s, Advance(t, o)), s.tasks[t].pay.cutoff;
      && Settles(s'.tasks[u], id)
      && (Settles(s'.tasks[t], id) <==> cutoff.Some? && s.tasks[u].pay.phase.stamp < cutoff.value)
  {
    hide StatusTrue, Free;
    assert OwnsRow(s.db, s.tasks[u]);
    hide LeaseInv;
  }

  lemma TakeoverMakesTwo(s: State, step: Step)
    requires LeaseInv(s) && Enabled(s, step) && Takeover(s, step)
    ensures !OneWorkerEach(Apply(s, step))
  {
    var pay, s' := s.tasks[step.t].pay, Apply(s, step);
    var id := pay.queue[0];
    var u :| u in s.tasks && u != step.t && Settles(s.tasks[u], id) && s.tasks[u].pay.phase.stamp < pay.cutoff.value;
    hide LeaseInv, Enabled, Apply;
    ClaimTakesOver(s, step.t, step.o, u, id);
    assert Settles(s'.tasks[step.t], id) && Settles(s'.tasks[u], id);
  }

  lemma LeaseMeansOneWorker(s: State)
    requires LeaseInv(s)
    ensures OneWorkerEach(s)
  {
    hide OwnsRow, StatusTrue;
  }

  /** Over any run whatsoever: every payout has at most one live worker at all times if and only
      if no step of the run is a takeover. */
  lemma {:induction false} OneWorkerIffNoTakeover(s: State, steps: seq<Step>)
    requires CalmReachable(s, false) && CanRun(s, steps)
    ensures OneWorkerThroughout(s, steps) <==> CalmRun(s, steps)
  {
    CalmReachableInv(s, false);
    hide CalmReachable;
    OneWorkerFrom(s, steps);
  }

  lemma {:induction false} OneWorkerFrom(s: State, steps: seq<Step>)
    requires Inv(s) && LeaseInv(s) && CanRun(s, steps)
    ensures OneWorkerThroughout(s, steps) <==> CalmRun(s, steps)
    decreases |steps|
  {
    hide Inv, LeaseInv, SentInv, Takeover, Honest, Enabled, Apply, OneWorkerEach;
    LeaseMeansOneWorker(s);
    if steps != [] {
      if Takeover(s, steps[0]) {
        TakeoverMakesTwo(s, steps[0]);
      } else {
        StepKeeps(s, steps[0]);
        StepKeepsLease(s, steps[0]);
        OneWorkerFrom(Apply(s, steps[0]), steps[1..]);
      }
    }
  }

  // ------------------------------------------------ while nobody is overtaken

  /** At most one live worker settles a payout. */
  lemma OneWorkerPerPayout(s: State, t: Tid, u: Tid, payout: Id)
    requires CalmReachable(s, false) && t in s.tasks && u in s.tasks
    requires Settles(s.tasks[t], payout) && Settles(s.tasks[u], payout)
    ensures t == u
  {
    CalmReachableInv(s, false);
  }

  /** FAILED says exactly that the amount went back to the model. */
  lemma FailedIffReversed(s: State, payout: Id)
    requires CalmReachable(s, false) && payout in s.db.payouts
    ensures s.db.payouts[payout].status == PayoutFailed <==> PayoutReversed(payout) in Posted(s.db.ledger)
  {
    CalmReachableInv(s, false);
    assert Reversed(s.db, payout) <==> PayoutReversed(payout) in Posted(s.db.ledger);
  }

  /** With an idempotent provider no payout is both sent and given back, and PAID means sent. */
  lemma NeverSentAndReversed(s: State, payout: Id)
    requires CalmReachable(s, true) && payout in s.db.payouts
    ensures !(payout in s.db.sent && PayoutReversed(payout) in Posted(s.db.ledger))
    ensures s.db.payouts[payout].status == PayoutPaid ==> payout in s.db.sent
  {
    CalmReachableInv(s, true);
    assert Reversed(s.db, payout) <==> PayoutReversed(payout) in Posted(s.db.ledger);
  }

  /** PAID and FAILED are final. */
  lemma OutcomesAreFinal(s: State, step: Step, payout: Id)
    requires CalmReachable(s, false) && Enabled(s, step)
    requires payout in s.db.payouts && Final(s.db.payouts[payout].status)
    ensures payout in Apply(s, step).db.payouts
    ensures Apply(s, step).db.payouts[payout].status == s.db.payouts[payout].status
  {
    CalmReachableInv(s, false);
    hide Inv, Act, CanAct, Free, CanHappen, Happen, Holds, SentInv;
    match step {
      case Advance(t, o) =>
        if s.tasks[t].Paying? { FinalRowUntouched(s, t, o, payout); } else { OtherFrame(s.db, s.tasks[t], o); }
      case Outside(e) => EventFrame(s.db, e);
      case _ =>
    }
  }

  /** In particular while workers keep their time: one worker per payout, a status that tells the
      truth, final outcomes, and with an idempotent provider never both sent and given back. */
  lemma TimelyWorkers(s: State, honest: bool, t: Tid, u: Tid, step: Step, payout: Id)
    requires TimelyReachable(s, honest) && Enabled(s, step) && payout in s.db.payouts
    ensures t in s.tasks && u in s.tasks && Settles(s.tasks[t], payout) && Settles(s.tasks[u], payout) ==> t == u
    ensures s.db.payouts[payout].status == PayoutFailed <==> PayoutReversed(payout) in Posted(s.db.ledger)
    ensures payout in Apply(s, step).db.payouts
    ensures Final(s.db.payouts[payout].status) ==> Apply(s, step).db.payouts[payout].status == s.db.payouts[payout].status
    ensures honest ==> !(payout in s.db.sent && PayoutReversed(payout) in Posted(s.db.ledger))
    ensures honest && s.db.payouts[payout].status == PayoutPaid ==> payout in s.db.sent
  {
    hide TimelyReachable, CalmReachable, Enabled, Apply, Posted;
    TimelyReachableIsCalm(s, honest);
    if honest { NeverSentAndReversed(s, payout); CalmIsCalm(s); }
    if t in s.tasks && u in s.tasks && Settles(s.tasks[t], payout) && Settles(s.tasks[u], payout) { OneWorkerPerPayout(s, t, u, payout); }
    FailedIffReversed(s, payout);
    OnePayoutStep(s, step, payout);
    if Final(s.db.payouts[payout].status) { OutcomesAreFinal(s, step, payout); }
  }

  lemma CalmIsCalm(s: State)
    requires CalmReachable(s, true)
    ensures CalmReachable(s, false)
  {
    hide Init, CanRun, Run, CalmRun, HonestRun;
    var start, steps :| Init(start) && CanRun(start, steps) && CalmRun(start, steps) && s == Run(start, steps);
  }

  lemma FinalRowUntouched(s: State, t: Tid, o: Steps.Oracle, payout: Id)
    requires LeaseInv(s) && t in s.tasks && s.tasks[t].Paying? && CanAct(s.db, s.tasks[t], o)
    requires payout in s.db.payouts && Final(s.db.payouts[payout].status)
    ensures var d' := Act(s.db, s.tasks[t], o).db;
      payout in d'.payouts && d'.payouts[payout].status == s.db.payouts[payout].status
  {
    assert OwnsRow(s.db, s.tasks[t]);
    hide Rows, Posted, Sum, LeaseInv;
    FinalRowSkipped(s.db, s.tasks[t].pay, o, payout);
  }

  lemma FinalRowSkipped(d: DB, pay: PS.Task, o: Steps.Oracle, payout: Id)
    requires PS.CanAct(d, pay, o) && OwnsRow(d, Paying(pay))
    requires payout in d.payouts && Final(d.payouts[payout].status)
    ensures var d' := PS.Act(d, pay, o).db;
      payout in d'.payouts && d'.payouts[payout].status == d.payouts[payout].status
  {
    hide Rows, Posted, Sum;
  }

  /** Successive claims of one payout are more than the stuck limit apart, in every run. */
  lemma StampsAreFarApart(s: State, step: Step, payout: Id)
    requires Theorems.Reachable(s) && Enabled(s, step)
    requires payout in s.db.payouts && s.db.payouts[payout].processingAt.Some?
    ensures payout in Apply(s, step).db.payouts
    ensures var p, p' := s.db.payouts[payout], Apply(s, step).db.payouts[payout];
      LaterStamp(p.processingAt, p'.processingAt, s.db.cfg.stuckMs)
  {
    Theorems.ReachableInv(s);
    assert DbInv(s.db);
    hide DbInv, Inv, Act, CanAct, Free, CanHappen, Happen, Holds;
    match step {
      case Advance(t, o) =>
        WorkerOk(s, t);
        if s.tasks[t].Paying? { StampMoves(s.db, s.tasks[t], o, payout); } else { OtherFrame(s.db, s.tasks[t], o); }
      case Outside(e) => EventFrame(s.db, e);
      case _ =>
    }
  }

  lemma WorkerOk(s: State, t: Tid)
    requires Inv(s) && t in s.tasks
    ensures TaskOk(s.db, s.tasks[t])
  {
  }

  lemma StampMoves(d: DB, t: Task, o: Steps.Oracle, payout: Id)
    requires DbInv(d) && TaskOk(d, t) && t.Paying? && CanAct(d, t, o)
    requires payout in d.payouts && d.payouts[payout].processingAt.Some?
    ensures var d' := Act(d, t, o).db;
      payout in d'.payouts && LaterStamp(d.payouts[payout].processingAt, d'.payouts[payout].processingAt, d.cfg.stuckMs)
  {
    PayoutIsOk(d.ledger, d.payouts, d.approved, payout);
    assert d.payouts[payout].status != PayoutPending;
    hide DbInv, PayoutOk;
    ClaimsAreLate(d, t.pay, o, payout);
  }

  /** The stamp is unchanged, or it moved on by more than the limit. */
  predicate LaterStamp(stamp: Option<int>, stamp': Option<int>, limit: int) {
    stamp' == stamp || (stamp.Some? && stamp'.Some? && stamp'.value - stamp.value > limit)
  }

  lemma ClaimsAreLate(d: DB, pay: PS.Task, o: Steps.Oracle, payout: Id)
    requires PS.Ok(d, pay) && PS.CanAct(d, pay, o)
    requires payout in d.payouts && d.payouts[payout].status != PayoutPending && d.payouts[payout].processingAt.Some?
    ensures var d' := PS.Act(d, pay, o).db;
      payout in d'.payouts && LaterStamp(d.payouts[payout].processingAt, d'.payouts[payout].processingAt, d.cfg.stuckMs)
  {
    hide Rows, Posted, Sum;
  }

  // -------------------------------- when an outcome is overwritten, in any run at all

  /** The step is the update, or the reversal, of a worker that settles this payout. */
  ghost predicate Marks(s: State, step: Step, payout: Id) {
    step.Advance? && step.t in s.tasks && s.tasks[step.t].Paying? && s.tasks[step.t].pay.phase.Marking?
    && s.tasks[step.t].pay.phase.id == payout
  }

  ghost predicate Reverses(s: State, step: Step, payout: Id) {
    step.Advance? && step.t in s.tasks && s.tasks[step.t].Paying? && s.tasks[step.t].pay.phase.Reversing?
    && s.tasks[step.t].pay.phase.id == payout
  }

  /** The step is a call to the provider for this payout that moves money. */
  ghost predicate Sends(s: State, step: Step, payout: Id) {
    step.Advance? && step.t in s.tasks && s.tasks[step.t].Paying? && s.tasks[step.t].pay.phase.Sending?
    && s.tasks[step.t].pay.phase.id == payout && step.o.moved
  }

  /** What a step does to one payout row, to its reversal and to its money. */
  lemma OnePayoutStep(s: State, step: Step, payout: Id)
    requires Enabled(s, step) && payout in s.db.payouts
    ensures var d, d' := s.db, Apply(s, step).db;
      && payout in d'.payouts
      && (Reversed(d', payout) <==> Reversed(d, payout) || Reverses(s, step, payout))
      && (payout in d'.sent <==> payout in d.sent || Sends(s, step, payout))
      && (Marks(s, step, payout) ==> d'.payouts[payout].status == PayoutPaid)
      && (Reverses(s, step, payout) ==> d'.payouts[payout].status == PayoutFailed && !Reversed(d, payout))
      && (!Marks(s, step, payout) && !Reverses(s, step, payout) ==>
            d'.payouts[payout].status == d.payouts[payout].status
            || (!Final(d.payouts[payout].status) && d'.payouts[payout].status == PayoutProcessing))
  {
    hide Act, CanAct, PS.Act, PS.CanAct, Free, CanHappen, Happen, Holds, Reversed, Starts;
    match step {
      case Advance(t, o) =>
        if s.tasks[t].Paying? {
          PayerActs(s.db, s.tasks[t].pay, o);
          OnePayoutStatement(s.db, s.tasks[t].pay, o, payout);
        } else {
          OtherFrame(s.db, s.tasks[t], o);
        }
      case Outside(e) => EventFrame(s.db, e);
      case _ =>
    }
  }

  lemma PayerActs(d: DB, pay: PS.Task, o: Steps.Oracle)
    requires CanAct(d, Paying(pay), o)
    ensures PS.CanAct(d, pay, o)
    ensures var e := PS.Act(d, pay, o); Act(d, Paying(pay), o) == Effect(e.db, Paying(e.task))
  {
    hide PS.Act, PS.CanAct;
  }

  lemma OnePayoutStatement(d: DB, pay: PS.Task, o: Steps.Oracle, payout: Id)
    requires PS.CanAct(d, pay, o) && payout in d.payouts
    ensures var d', mine := PS.Act(d, pay, o).db, PS.Settles(pay, payout);
      && payout in d'.payouts
      && (Reversed(d', payout) <==> Reversed(d, payout) || (mine && pay.phase.Reversing?))
      && (payout in d'.sent <==> payout in d.sent || (mine && pay.phase.Sending? && o.moved))
      && (mine && pay.phase.Marking? ==> d'.payouts[payout].status == PayoutPaid)
      && (mine && pay.phase.Reversing? ==> d'.payouts[payout].status == PayoutFailed && !Reversed(d, payout))
      && (!mine || pay.phase.Sending? ==>
            d'.payouts[payout].status == d.payouts[payout].status
            || (!Final(d.payouts[payout].status) && d'.payouts[payout].status == PayoutProcessing))
  {
    assert pay.phase.Reversing? ==> !Reversed(d, pay.phase.id);
    hide Rows, Sum, Posted, Claimable, Reversed;
    match pay.phase {
      case Reversing(id, _) => ReverseWrites(d, id, payout);
      case Funded(_) => OpenWrites(d, o.id, pay.model, pay.amount, payout);
      case Claiming =>
        if pay.queue != [] && pay.queue[0] in d.payouts && Claimable(d.payouts[pay.queue[0]], pay.cutoff) {
          ClaimWrites(d, pay.queue[0], pay.cutoff);
        }
      case Sending(_, _) => SentWrites(d, payout);
      case Marking(id, _) => MarkWrites(d, id, payout);
      case _ =>
    }
  }

  lemma ReverseWrites(d: DB, id: Id, payout: Id)
    requires id in d.payouts && !Reversed(d, id)
    ensures Reversed(Reverse(d, id), payout) <==> Reversed(d, payout) || payout == id
  {
    PostedByRows(d.ledger, PayoutReversed(id), ReversalLines(d.payouts[id].model, d.payouts[id].amount));
    hide Rows, Posted;
  }

  lemma OpenWrites(d: DB, id: Id, model: Id, amount: int, payout: Id)
    ensures Reversed(OpenPayout(d, id, model, amount), payout) <==> Reversed(d, payout)
  {
    RowsNotReversal(d.ledger, PayoutAsked(id), PayoutLines(model, amount));
    hide Rows, Posted;
  }

  lemma SentWrites(d: DB, payout: Id)
    ensures forall id :: Reversed(MarkSent(d, id), payout) <==> Reversed(d, payout)
  {
  }

  lemma MarkWrites(d: DB, id: Id, payout: Id)
    requires id in d.payouts
    ensures Reversed(MarkPaid(d, id), payout) <==> Reversed(d, payout)
  {
  }

  /** In any run: PAID or FAILED is overwritten exactly when one worker writes PAID over FAILED, or
      reverses and writes FAILED over PAID. */
  lemma OutcomeOverwrittenExactly(s: State, step: Step, payout: Id)
    requires Enabled(s, step) && payout in s.db.payouts && Final(s.db.payouts[payout].status)
    ensures payout in Apply(s, step).db.payouts
    ensures Apply(s, step).db.payouts[payout].status != s.db.payouts[payout].status <==>
      || (s.db.payouts[payout].status == PayoutFailed && Marks(s, step, payout))
      || (s.db.payouts[payout].status == PayoutPaid && Reverses(s, step, payout))
  {
    hide Enabled, Apply, Reversed;
    OnePayoutStep(s, step, payout);
  }

  /** In any run: a status that told the truth about the reversal stops telling it exactly when a
      worker writes PAID on a reversed payout. */
  lemma StatusLiesExactly(s: State, step: Step, payout: Id)
    requires Enabled(s, step) && payout in s.db.payouts
    requires s.db.payouts[payout].status == PayoutFailed <==> Reversed(s.db, payout)
    ensures payout in Apply(s, step).db.payouts
    ensures !(Apply(s, step).db.payouts[payout].status == PayoutFailed <==> Reversed(Apply(s, step).db, payout)) <==>
      Marks(s, step, payout) && Reversed(s.db, payout)
  {
    hide Enabled, Apply, Reversed;
    OnePayoutStep(s, step, payout);
  }

  /** In any run: a payout becomes both sent and given back exactly when a worker reverses it after
      its money moved, or when its money moves after it was reversed. */
  lemma SentAndReversedExactly(s: State, step: Step, payout: Id)
    requires Enabled(s, step) && payout in s.db.payouts
    requires !(payout in s.db.sent && Reversed(s.db, payout))
    ensures payout in Apply(s, step).db.sent && Reversed(Apply(s, step).db, payout) <==>
      || (payout in s.db.sent && Reverses(s, step, payout))
      || (Sends(s, step, payout) && Reversed(s.db, payout))
  {
    hide Enabled, Apply, Reversed;
    OnePayoutStep(s, step, payout);
  }
}

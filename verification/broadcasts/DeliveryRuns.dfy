/** What holds in every run of the delivery machine, whatever the interleaving. */
module DeliveryRuns {
  import opened Common
  import opened BroadcastStatus
  import opened BroadcastRows
  import opened BroadcastTables
  import opened DeliveryMachine

  ghost predicate Takes(s: State, step: Step, s': State) {
    InRange(s) && Enabled(s, step) && s' == After(s, step)
  }

  /** `steps[i]` leads from `states[i]` to `states[i + 1]`. */
  ghost predicate IsPath(states: seq<State>, steps: seq<Step>) {
    && |states| == |steps| + 1
    && forall i :: 0 <= i < |steps| ==> Takes(states[i], steps[i], states[i + 1])
  }

  /** A run is a path from fresh tables. */
  ghost predicate IsRun(states: seq<State>, steps: seq<Step>) {
    IsPath(states, steps) && Init(states[0])
  }

  lemma {:induction false} RunKeepsInv(states: seq<State>, steps: seq<Step>, n: nat)
    requires IsRun(states, steps) && n < |states|
    ensures Inv(states[n])
  {
    if n == 0 {
      InitInv(states[0]);
    } else {
      RunKeepsInv(states, steps, n - 1);
      assert Takes(states[n - 1], steps[n - 1], states[n]);
      StepKeepsInv(states[n - 1], steps[n - 1]);
    }
  }

  // ---------------------------------------------------------------- write-once facts

  predicate MessageGrows(m: Message, m': Message) {
    && m'.project == m.project && m'.agent == m.agent && m'.broadcastId == m.broadcastId
    && m'.createdAt == m.createdAt && m'.origin == m.origin && m'.initial == m.initial
    && m.log <= m'.log
    && (m.externalId.Some? ==> m'.externalId.Some?)
  }

  predicate AgentGrows(a: Agent, a': Agent) {
    a'.project == a.project && a.delivered <= a'.delivered && (a.firstSentAt.Some? ==> a'.firstSentAt == a.firstSentAt)
  }

  predicate ProjectGrows(p: Project, p': Project) {
    && TotalDelivered(p) <= TotalDelivered(p')
    && (p.isBlocked ==> p'.isBlocked)
    && (IsMarkedBlocked(p) ==> CounterOf(p').blockedAt == CounterOf(p).blockedAt)
  }

  /** `later` extends `earlier`: rows are never removed, histories only grow, and a stamp or a
      block mark once written never changes. */
  ghost predicate Extends(earlier: Db, later: Db) {
    && |later.projects| == |earlier.projects| && |later.agents| == |earlier.agents|
    && |earlier.messages| <= |later.messages|
    && (forall i :: 0 <= i < |earlier.messages| ==> MessageGrows(earlier.messages[i], later.messages[i]))
    && (forall a :: 0 <= a < |earlier.agents| ==> AgentGrows(earlier.agents[a], later.agents[a]))
    && (forall p :: 0 <= p < |earlier.projects| ==> ProjectGrows(earlier.projects[p], later.projects[p]))
  }

  lemma ExtendsTransitive(a: Db, b: Db, c: Db)
    requires Extends(a, b) && Extends(b, c)
    ensures Extends(a, c)
  {
    forall i | 0 <= i < |a.messages| ensures MessageGrows(a.messages[i], c.messages[i]) {
      assert MessageGrows(a.messages[i], b.messages[i]) && MessageGrows(b.messages[i], c.messages[i]);
    }
    forall x | 0 <= x < |a.agents| ensures AgentGrows(a.agents[x], c.agents[x]) {
      assert AgentGrows(a.agents[x], b.agents[x]) && AgentGrows(b.agents[x], c.agents[x]);
    }
    forall p | 0 <= p < |a.projects| ensures ProjectGrows(a.projects[p], c.projects[p]) {
      assert ProjectGrows(a.projects[p], b.projects[p]) && ProjectGrows(b.projects[p], c.projects[p]);
    }
  }

  lemma DeliverExtends(db: Db, i: nat, ev: Event, now: Time, limit: Option<nat>)
    requires WellLinked(db) && i < |db.messages|
    ensures Extends(db, Deliver(db, i, ev, now, limit))
  {
  }

  lemma RecordExtends(db: Db, d: Dispatch)
    requires d.agent < |db.agents|
    ensures Extends(db, BroadcastTables.Record(db, d))
  {
  }

  lemma CommitExtends(s: State, t: nat)
    requires Inv(s) && InRange(s) && Enabled(s, Commit(t))
    ensures Extends(s.db, After(s, Commit(t)).db)
  {
    CommitIsSerial(s, t);
    var tx := s.txs[t];
    DeliverExtends(s.db, tx.row, tx.ev, tx.now, tx.limit);
  }

  lemma OtherStepsKeepTables(s: State, step: Step)
    requires InRange(s) && Enabled(s, step) && !step.Record? && !step.Commit?
    ensures After(s, step).db == s.db
  {
  }

  lemma StepExtends(s: State, step: Step)
    requires Inv(s) && InRange(s) && Enabled(s, step)
    ensures Extends(s.db, After(s, step).db)
  {
    match step
    case Record(d) => RecordExtends(s.db, d);
    case Commit(t) => CommitExtends(s, t);
    case _ => OtherStepsKeepTables(s, step);
  }

  lemma RunStepExtends(states: seq<State>, steps: seq<Step>, i: nat)
    requires IsRun(states, steps) && i < |steps|
    ensures Extends(states[i].db, states[i + 1].db)
  {
    RunKeepsInv(states, steps, i);
    assert Takes(states[i], steps[i], states[i + 1]);
    StepExtends(states[i], steps[i]);
  }

  lemma ExtendsItself(db: Db)
    ensures Extends(db, db)
  {
  }

  lemma {:induction false} ChainExtends(states: seq<State>, i: nat, j: nat)
    requires i <= j < |states|
    requires forall k :: 0 <= k < |states| - 1 ==> Extends(states[k].db, states[k + 1].db)
    ensures Extends(states[i].db, states[j].db)
    decreases j
  {
    if i == j {
      ExtendsItself(states[i].db);
    } else {
      ChainExtends(states, i, j - 1);
      ExtendsTransitive(states[i].db, states[j - 1].db, states[j - 1 + 1].db);
    }
  }

  /** In every run, later tables extend earlier ones: `first_successful_sent_at` and `blocked_at`
      are written at most once and counters never decrease. */
  lemma RunExtends(states: seq<State>, steps: seq<Step>, i: nat, j: nat)
    requires IsRun(states, steps) && i <= j < |states|
    ensures Extends(states[i].db, states[j].db)
  {
    forall k | 0 <= k < |states| - 1 ensures Extends(states[k].db, states[k + 1].db) {
      RunStepExtends(states, steps, k);
    }
    ChainExtends(states, i, j);
  }

  /** In every reachable state each row's status is what its applied events say, its deliveries
      are bounded by its off-ladder events, and counters, stamps and block marks agree. */
  lemma RunIsConsistent(states: seq<State>, steps: seq<Step>, n: nat)
    requires IsRun(states, steps) && n < |states|
    ensures Consistent(states[n].db)
    ensures forall i :: 0 <= i < |states[n].db.messages| ==>
              var m := states[n].db.messages[i];
              && HighestContender(m.status, m.initial, m.log)
              && DeliveredOf(m) <= (if Reached(m.status) then 1 else 0) + OffLadderCount(m.log)
  {
    RunKeepsInv(states, steps, n);
    forall i | 0 <= i < |states[n].db.messages|
      ensures var m := states[n].db.messages[i];
              && HighestContender(m.status, m.initial, m.log)
              && DeliveredOf(m) <= (if Reached(m.status) then 1 else 0) + OffLadderCount(m.log)
    {
      var m := states[n].db.messages[i];
      assert Explained(m);
      FinalIsHighest(m.initial, m.log);
      DeliveriesBound(m.initial, m.log);
    }
  }

  ghost predicate EveryRowHasAgent(db: Db) {
    forall i :: 0 <= i < |db.messages| ==> db.messages[i].agent.Some?
  }

  lemma StepKeepsAgents(s: State, step: Step)
    requires Inv(s) && InRange(s) && Enabled(s, step) && EveryRowHasAgent(s.db)
    ensures EveryRowHasAgent(After(s, step).db)
  {
    if step.Commit? {
      CommitIsSerial(s, step.t);
    }
  }

  lemma {:induction false} RunKeepsAgents(states: seq<State>, steps: seq<Step>, n: nat)
    requires IsRun(states, steps) && n < |states|
    ensures EveryRowHasAgent(states[n].db)
  {
    if n > 0 {
      RunKeepsAgents(states, steps, n - 1);
      RunKeepsInv(states, steps, n - 1);
      assert Takes(states[n - 1], steps[n - 1], states[n]);
      StepKeepsAgents(states[n - 1], steps[n - 1]);
    }
  }

  lemma NoAgentlessDeliveries(db: Db, p: nat)
    requires EveryRowHasAgent(db)
    ensures Sum(db.messages, Agentless(p)) == 0
  {
    SumZero(db.messages, Agentless(p));
  }

  /** In every reachable state the counters of a project's agents add up to the project's counter,
      which is the number of accepted transitions into DELIVERED of its messages. */
  lemma AgentsAddUpInRuns(states: seq<State>, steps: seq<Step>, n: nat, p: nat)
    requires IsRun(states, steps) && n < |states| && p < |states[n].db.projects|
    ensures var db := states[n].db;
            AgentTotal(db, p, |db.agents|) == TotalDelivered(db.projects[p]) == Sum(db.messages, DeliveredIn(p))
  {
    RunKeepsInv(states, steps, n);
    RunKeepsAgents(states, steps, n);
    AgentsAddUpToProject(states[n].db, p);
    NoAgentlessDeliveries(states[n].db, p);
  }

  // ---------------------------------------------------------------- suspensions

  lemma {:induction false} AtMostOneSuspended(txs: seq<Tx>, p: nat)
    requires forall t: nat, u: nat :: t < u < |txs| ==> SuspendedOn(p)(txs[t]) == 0 || SuspendedOn(p)(txs[u]) == 0
    ensures 0 <= Sum(txs, SuspendedOn(p)) <= 1
    ensures Sum(txs, SuspendedOn(p)) == 1 ==> exists t: nat :: t < |txs| && SuspendedOn(p)(txs[t]) == 1
  {
    if txs != [] {
      var n := |txs| - 1;
      AtMostOneSuspended(txs[..n], p);
      if SuspendedOn(p)(txs[n]) == 1 {
        assert forall t: nat :: t < n ==> SuspendedOn(p)(txs[t]) == 0;
        SumZero(txs[..n], SuspendedOn(p));
      } else if t: nat :| t < n && SuspendedOn(p)(txs[..n][t]) == 1 {
        assert SuspendedOn(p)(txs[t]) == 1;
      }
    }
  }

  lemma OneSuspends(s: State, p: nat, t: nat, u: nat)
    requires TxsInv(s) && LocksExclusive(s) && t < u < |s.txs|
    ensures SuspendedOn(p)(s.txs[t]) == 0 || SuspendedOn(p)(s.txs[u]) == 0
  {
    if Active(s, t) && s.txs[t].suspended && Active(s, u) && s.txs[u].suspended {
      SuspendedHoldsCounter(s.db, s.txs[t]);
      SuspendedHoldsCounter(s.db, s.txs[u]);
      assert Apart(s.txs[t], s.txs[u]);
    }
  }

  lemma SuspendedHoldsCounter(db: Db, tx: Tx)
    requires TxInv(db, tx) && tx.suspended
    ensures tx.counter.Some? && !IsMarkedBlocked(db.projects[tx.message.project])
  {
  }

  /** A project's suspension is requested at most once more than the requests lost to aborts; so at
      most once when no transaction aborts after its request. Before the first request the project
      carries no block mark. */
  lemma SuspendedAtMostOnce(s: State, p: nat)
    requires Inv(s) && p < |s.db.projects|
    ensures s.suspends[p] <= 1 + s.lost[p]
    ensures s.suspends[p] == s.lost[p] ==> !IsMarkedBlocked(s.db.projects[p])
  {
    forall t: nat, u: nat | t < u < |s.txs|
      ensures SuspendedOn(p)(s.txs[t]) == 0 || SuspendedOn(p)(s.txs[u]) == 0
    {
      OneSuspends(s, p, t, u);
    }
    AtMostOneSuspended(s.txs, p);
    if t: nat :| t < |s.txs| && SuspendedOn(p)(s.txs[t]) == 1 {
      assert Active(s, t);
      SuspendedHoldsCounter(s.db, s.txs[t]);
    }
  }

  /** With nothing in flight the accounts close: one request per block mark plus the lost ones. */
  lemma QuietSuspends(s: State, p: nat)
    requires Inv(s) && p < |s.db.projects|
    requires forall t: nat :: !Active(s, t)
    ensures s.suspends[p] == BlockMark(s.db.projects[p]) + s.lost[p]
  {
    forall t | 0 <= t < |s.txs| ensures SuspendedOn(p)(s.txs[t]) == 0 {
      assert !Active(s, t);
    }
    SumZero(s.txs, SuspendedOn(p));
  }

  // ---------------------------------------------------------------- a fixed limit

  predicate UsesLimit(step: Step, limit: nat) {
    step.Guard? ==> step.limit == Some(limit)
  }

  predicate BlockedExactlyAt(p: Project, limit: nat) {
    IsMarkedBlocked(p) <==> TotalDelivered(p) >= limit
  }

  ghost predicate LimitInv(s: State, limit: nat) {
    && (forall p :: 0 <= p < |s.db.projects| ==> BlockedExactlyAt(s.db.projects[p], limit))
    && (forall t: nat :: Active(s, t) ==> TxUsesLimit(s.txs[t], limit))
  }

  predicate TxUsesLimit(tx: Tx, limit: nat) {
    PastGuard(tx) ==> tx.limit == Some(limit)
  }

  lemma EarlyStepKeepsLimit(s: State, step: Step, limit: nat)
    requires InRange(s) && Enabled(s, step)
    requires step.Link? || step.Apply? || step.Stamp? || step.EnsureCounter? || step.Increment? || step.Credit?
    requires TxUsesLimit(s.txs[step.t], limit)
    ensures After(s, step).txs[step.t].active ==> TxUsesLimit(After(s, step).txs[step.t], limit)
  {
  }

  lemma LateStepKeepsLimit(s: State, step: Step, limit: nat)
    requires InRange(s) && Enabled(s, step) && UsesLimit(step, limit)
    requires step.ReadBack? || step.Guard? || step.Block? || step.Suspend? || step.Commit? || step.Abort?
    requires TxUsesLimit(s.txs[step.t], limit)
    ensures After(s, step).txs[step.t].active ==> TxUsesLimit(After(s, step).txs[step.t], limit)
  {
  }

  lemma OwnStepKeepsLimit(s: State, step: Step, limit: nat)
    requires InRange(s) && Enabled(s, step) && UsesLimit(step, limit)
    requires !step.Record? && !step.Begin? && TxUsesLimit(s.txs[step.t], limit)
    ensures After(s, step).txs[step.t].active ==> TxUsesLimit(After(s, step).txs[step.t], limit)
  {
    if step.ReadBack? || step.Guard? || step.Block? || step.Suspend? || step.Commit? || step.Abort? {
      LateStepKeepsLimit(s, step, limit);
    } else {
      EarlyStepKeepsLimit(s, step, limit);
    }
  }

  lemma StepKeepsTxLimits(s: State, step: Step, limit: nat)
    requires InRange(s) && Enabled(s, step) && UsesLimit(step, limit)
    requires forall t: nat :: Active(s, t) ==> TxUsesLimit(s.txs[t], limit)
    ensures forall t: nat :: Active(After(s, step), t) ==> TxUsesLimit(After(s, step).txs[t], limit)
  {
    var s' := After(s, step);
    forall t: nat | Active(s', t) ensures TxUsesLimit(s'.txs[t], limit) {
      if step.Begin? {
        assert t < |s.txs| ==> Active(s, t);
      } else if !step.Record? && t == step.t {
        OwnStepKeepsLimit(s, step, limit);
      } else {
        assert Active(s, t) && s'.txs[t] == s.txs[t];
      }
    }
  }

  lemma CommitKeepsLimit(s: State, t: nat, limit: nat)
    requires Inv(s) && InRange(s) && Enabled(s, Commit(t)) && limit > 0 && LimitInv(s, limit)
    ensures forall p :: 0 <= p < |s.db.projects| ==> BlockedExactlyAt(After(s, Commit(t)).db.projects[p], limit)
  {
    CommitIsSerial(s, t);
    var tx := s.txs[t];
    assert TxUsesLimit(tx, limit);
    CommitDecision(s, t);
    assert BlockedExactlyAt(s.db.projects[tx.message.project], limit);
  }

  lemma CommitDecision(s: State, t: nat)
    requires Inv(s) && InRange(s) && Enabled(s, Commit(t))
    ensures Delivers(s.db.messages[s.txs[t].row], s.txs[t].ev) ==> PastGuard(s.txs[t])
    ensures s.txs[t].message.project == s.db.messages[s.txs[t].row].project
  {
    assert TxInv(s.db, s.txs[t]);
  }

  lemma StepKeepsLimit(s: State, step: Step, limit: nat)
    requires Inv(s) && InRange(s) && Enabled(s, step) && limit > 0
    requires LimitInv(s, limit) && UsesLimit(step, limit)
    ensures LimitInv(After(s, step), limit)
  {
    StepKeepsTxLimits(s, step, limit);
    if step.Commit? {
      CommitKeepsLimit(s, step.t, limit);
    }
  }

  lemma InitKeepsLimit(s: State, limit: nat)
    requires Init(s) && limit > 0
    ensures LimitInv(s, limit)
  {
  }

  lemma TakenKeepsLimit(states: seq<State>, steps: seq<Step>, limit: nat, n: nat)
    requires IsRun(states, steps) && n < |steps| && limit > 0
    requires UsesLimit(steps[n], limit) && LimitInv(states[n], limit)
    ensures LimitInv(states[n + 1], limit)
  {
    RunKeepsInv(states, steps, n);
    assert Takes(states[n], steps[n], states[n + 1]);
    StepKeepsLimit(states[n], steps[n], limit);
  }

  lemma {:induction false} RunKeepsLimit(states: seq<State>, steps: seq<Step>, limit: nat, n: nat)
    requires IsRun(states, steps) && n < |states| && limit > 0
    requires forall i :: 0 <= i < |steps| ==> UsesLimit(steps[i], limit)
    ensures LimitInv(states[n], limit)
  {
    if n == 0 {
      InitKeepsLimit(states[0], limit);
    } else {
      RunKeepsLimit(states, steps, limit, n - 1);
      TakenKeepsLimit(states, steps, limit, n - 1);
    }
  }

  /** With one positive limit in force, committed tables show a project marked exactly when its
      committed total reached the limit, and then blocked, in every state of every run. */
  lemma BlockedExactlyAtLimit(states: seq<State>, steps: seq<Step>, limit: nat, n: nat, p: nat)
    requires IsRun(states, steps) && n < |states| && limit > 0 && p < |states[n].db.projects|
    requires forall i :: 0 <= i < |steps| ==> UsesLimit(steps[i], limit)
    ensures BlockedExactlyAt(states[n].db.projects[p], limit)
    ensures TotalDelivered(states[n].db.projects[p]) >= limit ==> states[n].db.projects[p].isBlocked
  {
    RunKeepsLimit(states, steps, limit, n);
    RunKeepsInv(states, steps, n);
    assert BlockedExactlyAt(states[n].db.projects[p], limit);
  }

  // ---------------------------------------------------------------- no limit

  predicate NoLimit(limit: Option<nat>) {
    limit == None || limit == Some(0)
  }

  /** No guard step for project `p` carries a positive limit. */
  ghost predicate GuardUnlimited(s: State, step: Step, p: nat) {
    step.Guard? && Active(s, step.t) && s.txs[step.t].message.project == p ==> NoLimit(step.limit)
  }

  predicate Idle(tx: Tx) {
    !tx.blocks && !tx.suspended && !tx.phase.Blocking? && !tx.phase.Suspending?
  }

  ghost predicate IdleOn(s: State, p: nat) {
    forall t: nat :: Active(s, t) && s.txs[t].message.project == p ==> Idle(s.txs[t])
  }

  /** Mark, block flag and suspension requests of a project. */
  ghost predicate SameBlocking(s: State, s': State, p: nat) {
    && p < |s.db.projects| == |s'.db.projects| && p < |s.suspends| && p < |s'.suspends|
    && CounterOf(s'.db.projects[p]).blockedAt == CounterOf(s.db.projects[p]).blockedAt
    && s'.db.projects[p].isBlocked == s.db.projects[p].isBlocked
    && s'.suspends[p] == s.suspends[p]
  }

  /** What a step of its own makes of a transaction. */
  ghost function NextTx(db: Db, tx: Tx, step: Step): Tx
    requires HasRows(db, tx)
  {
    match step
    case Link(_) => if LinkAllowed(db, tx.row, tx.ev) then LinkedCopy(tx) else tx.(active := false)
    case Apply(_) => AppliedTx(tx)
    case Stamp(_) => StampedTx(db, tx)
    case EnsureCounter(_) => EnsuredTx(db, tx)
    case Increment(_) => IncrementedTx(db, tx)
    case Credit(_) => CreditedTx(db, tx)
    case ReadBack(_) => RereadTx(db, tx)
    case Guard(_, limit) => GuardedTx(tx, limit)
    case Block(_, now) => BlockedTx(db, tx, now)
    case Suspend(_) => tx.(suspended := true, phase := Finished)
    case _ => tx.(active := false)
  }

  lemma AfterIsNextTx(s: State, step: Step)
    requires InRange(s) && Enabled(s, step) && !step.Record? && !step.Begin?
    ensures Active(s, step.t) && step.t < |After(s, step).txs|
    ensures After(s, step).txs[step.t] == NextTx(s.db, s.txs[step.t], step)
  {
  }

  lemma NextTxKeepsIdle(db: Db, tx: Tx, step: Step)
    requires HasRows(db, tx) && Idle(tx) && !step.Suspend? && !step.Block?
    requires step.Guard? ==> NoLimit(step.limit)
    ensures Idle(NextTx(db, tx, step))
  {
  }

  lemma CopyingTxKeepsMessage(db: Db, tx: Tx, step: Step)
    requires HasRows(db, tx)
    requires step.Stamp? || step.EnsureCounter? || step.Increment? || step.Credit?
    ensures NextTx(db, tx, step).message == tx.message
  {
  }

  lemma DecidingTxKeepsMessage(db: Db, tx: Tx, step: Step)
    requires HasRows(db, tx)
    requires step.ReadBack? || step.Guard? || step.Block? || step.Suspend?
    ensures NextTx(db, tx, step).message == tx.message
  {
  }

  lemma NextTxKeepsProject(db: Db, tx: Tx, step: Step)
    requires HasRows(db, tx)
    ensures NextTx(db, tx, step).message.project == tx.message.project
  {
    if step.Stamp? || step.EnsureCounter? || step.Increment? || step.Credit? {
      CopyingTxKeepsMessage(db, tx, step);
    } else if step.ReadBack? || step.Guard? || step.Block? || step.Suspend? {
      DecidingTxKeepsMessage(db, tx, step);
    }
  }

  lemma StepKeepsIdle(s: State, step: Step, p: nat)
    requires InRange(s) && Enabled(s, step) && GuardUnlimited(s, step, p) && IdleOn(s, p)
    ensures IdleOn(After(s, step), p)
  {
    var s' := After(s, step);
    forall t: nat | Active(s', t) && s'.txs[t].message.project == p ensures Idle(s'.txs[t]) {
      if step.Begin? {
        assert t < |s.txs| ==> Active(s, t);
      } else if !step.Record? && t == step.t {
        AfterIsNextTx(s, step);
        NextTxKeepsProject(s.db, s.txs[t], step);
        NextTxKeepsIdle(s.db, s.txs[t], step);
      } else {
        assert Active(s, t) && s'.txs[t] == s.txs[t];
      }
    }
  }

  lemma IdleCommitKeepsMark(db: Db, tx: Tx)
    requires TxInv(db, tx) && tx.phase.Finished? && !tx.blocks
    ensures var p := tx.message.project;
            CounterOf(Published(db, tx).projects[p]).blockedAt == CounterOf(db.projects[p]).blockedAt
            && Published(db, tx).projects[p].isBlocked == db.projects[p].isBlocked
  {
  }

  lemma CommitKeepsBlocking(s: State, t: nat, p: nat)
    requires Inv(s) && InRange(s) && Enabled(s, Commit(t)) && IdleOn(s, p) && p < |s.db.projects|
    ensures SameBlocking(s, After(s, Commit(t)), p)
  {
    if s.txs[t].message.project == p {
      IdleCommitKeepsMark(s.db, s.txs[t]);
    }
  }

  lemma SuspendElsewhere(s: State, t: nat, p: nat)
    requires InRange(s) && Enabled(s, Suspend(t)) && IdleOn(s, p) && p < |s.db.projects|
    ensures SameBlocking(s, After(s, Suspend(t)), p)
  {
  }

  lemma OtherStepsKeepBlocking(s: State, step: Step, p: nat)
    requires InRange(s) && Enabled(s, step) && p < |s.db.projects| && !step.Commit? && !step.Suspend?
    ensures SameBlocking(s, After(s, step), p)
  {
  }

  lemma StepKeepsBlocking(s: State, step: Step, p: nat)
    requires Inv(s) && InRange(s) && Enabled(s, step) && IdleOn(s, p) && p < |s.db.projects|
    ensures SameBlocking(s, After(s, step), p)
  {
    if step.Commit? {
      CommitKeepsBlocking(s, step.t, p);
    } else if step.Suspend? {
      SuspendElsewhere(s, step.t, p);
    } else {
      OtherStepsKeepBlocking(s, step, p);
    }
  }

  lemma NoLimitStep(states: seq<State>, steps: seq<Step>, i: nat, p: nat)
    requires IsRun(states, steps) && i < |steps| && p < |states[i].db.projects|
    requires GuardUnlimited(states[i], steps[i], p) && IdleOn(states[i], p)
    ensures IdleOn(states[i + 1], p) && SameBlocking(states[i], states[i + 1], p)
  {
    RunKeepsInv(states, steps, i);
    assert Takes(states[i], steps[i], states[i + 1]);
    StepKeepsIdle(states[i], steps[i], p);
    StepKeepsBlocking(states[i], steps[i], p);
  }

  lemma NoLimitStart(states: seq<State>, steps: seq<Step>, p: nat)
    requires IsRun(states, steps) && p < |states[0].db.projects|
    ensures IdleOn(states[0], p) && SameBlocking(states[0], states[0], p)
  {
    RunKeepsInv(states, steps, 0);
  }

  lemma SameBlockingChains(s: State, s': State, s'': State, p: nat)
    requires SameBlocking(s, s', p) && SameBlocking(s', s'', p)
    ensures SameBlocking(s, s'', p)
  {
  }

  /** A project none of whose guard steps carries a positive limit is never marked, blocked or
      suspended by deliveries. */
  lemma {:induction false} NoLimitNeverBlocks(states: seq<State>, steps: seq<Step>, n: nat, p: nat)
    requires IsRun(states, steps) && n < |states| && p < |states[0].db.projects|
    requires forall i :: 0 <= i < |steps| ==> GuardUnlimited(states[i], steps[i], p)
    ensures IdleOn(states[n], p) && SameBlocking(states[0], states[n], p)
  {
    if n == 0 {
      NoLimitStart(states, steps, p);
    } else {
      NoLimitNeverBlocks(states, steps, n - 1, p);
      NoLimitStep(states, steps, n - 1, p);
      SameBlockingChains(states[0], states[n - 1], states[n], p);
    }
  }

  // ---------------------------------------------------------------- accepted sends

  lemma ProvenIsStamped(db: Db, i: nat, k: nat)
    requires WellLinked(db) && StampsExplained(db) && i < |db.messages|
    requires var m := db.messages[i];
             k < |m.log| && m.log[k] in {Sent, Delivered, Read} && AcceptedAt(m.initial, m.log, k) && m.agent.Some?
    ensures db.agents[db.messages[i].agent.value].firstSentAt.Some?
  {
    SuccessAcceptedIff(db.messages[i].initial, db.messages[i].log);
    assert SendProven(db.messages[i]);
    assert AgentStamped(db, db.messages[i]);
  }

  /** In every reachable state a message with an accepted SENT, DELIVERED or READ has a stamped agent. */
  lemma AcceptedSendIsStamped(states: seq<State>, steps: seq<Step>, n: nat, i: nat, k: nat)
    requires IsRun(states, steps) && n < |states| && i < |states[n].db.messages|
    requires var m := states[n].db.messages[i];
             k < |m.log| && m.log[k] in {Sent, Delivered, Read} && AcceptedAt(m.initial, m.log, k) && m.agent.Some?
    ensures var db := states[n].db;
            var a := db.messages[i].agent.value;
            a < |db.agents| && db.agents[a].firstSentAt.Some?
  {
    RunKeepsInv(states, steps, n);
    ProvenIsStamped(states[n].db, i, k);
  }

  // ---------------------------------------------------------------- an aborted suspension

  /** One agent, one message waiting for its first DELIVERED, and the tables as they are then. */
  ghost predicate Waiting(s: State) {
    && InRange(s)
    && |s.db.messages| == 1 && |s.db.projects| == 1
    && s.db.messages[0].broadcastId == Some(7) && s.db.messages[0].externalId.None?
    && s.db.messages[0].status == Queued && s.db.messages[0].agent == Some(0)
    && s.db.projects[0].counter.None?
    && |s.db.agents| == 1 && s.db.agents[0].firstSentAt.None?
    && OnlyActive(s, |s.txs|)
  }

  /** No transaction other than `t` is open. */
  ghost predicate OnlyActive(s: State, t: nat) {
    forall u :: 0 <= u < |s.txs| && u != t ==> !s.txs[u].active
  }

  const DELIVERED_EVENT := SendEvent(Some(7), "wamid", Some(Delivered), "")

  /** A path of these steps from `s` to `s'`. */
  ghost predicate Leads(s: State, states: seq<State>, steps: seq<Step>, s': State) {
    IsPath(states, steps) && states[0] == s && states[|steps|] == s'
  }

  lemma LeadsStep(s: State, step: Step, s': State)
    requires Takes(s, step, s')
    ensures Leads(s, [s, s'], [step], s')
  {
  }

  lemma LeadsFirst(a: seq<State>, p: seq<Step>, b: seq<State>, q: seq<Step>, i: nat)
    requires IsPath(a, p) && |b| == |q| + 1 && i < |p|
    ensures Takes((a + b[1..])[i], (p + q)[i], (a + b[1..])[i + 1])
  {
    assert Takes(a[i], p[i], a[i + 1]);
  }

  lemma LeadsSecond(a: seq<State>, p: seq<Step>, b: seq<State>, q: seq<Step>, i: nat)
    requires |a| == |p| + 1 && IsPath(b, q) && a[|p|] == b[0] && |p| <= i < |p| + |q|
    ensures Takes((a + b[1..])[i], (p + q)[i], (a + b[1..])[i + 1])
  {
    var j := i - |p|;
    assert Takes(b[j], q[j], b[j + 1]);
    assert (a + b[1..])[i] == b[j];
  }

  lemma PathAppend(a: seq<State>, p: seq<Step>, b: seq<State>, q: seq<Step>)
    requires IsPath(a, p) && IsPath(b, q) && a[|p|] == b[0]
    ensures IsPath(a + b[1..], p + q)
  {
    forall i | 0 <= i < |p + q| ensures Takes((a + b[1..])[i], (p + q)[i], (a + b[1..])[i + 1]) {
      if i < |p| { LeadsFirst(a, p, b, q, i); } else { LeadsSecond(a, p, b, q, i); }
    }
  }

  lemma LeadsAppend(s: State, a: seq<State>, p: seq<Step>, mid: State, b: seq<State>, q: seq<Step>, s': State)
    requires Leads(s, a, p, mid) && Leads(mid, b, q, s')
    ensures Leads(s, a + b[1..], p + q, s')
  {
    PathAppend(a, p, b, q);
  }

  /** The waiting tables with one transaction `tx` at work on the message. */
  ghost predicate Working(s: State, s': State, tx: Tx) {
    && InRange(s') && s'.db == s.db && s'.lost == s.lost && s'.suspends == s.suspends
    && |s'.txs| == |s.txs| + 1 && s'.txs[|s.txs|] == tx && OnlyActive(s', |s.txs|) && OnTask(tx)
  }

  predicate OnTask(tx: Tx) {
    tx.active && tx.row == 0 && tx.message.project == 0 && tx.message.agent == Some(0)
  }

  lemma BeginWorks(s: State) returns (s': State)
    requires Waiting(s)
    ensures Takes(s, Begin(DELIVERED_EVENT, 0), s') && Working(s, s', Started(s.db, DELIVERED_EVENT, 0))
  {
    s' := After(s, Begin(DELIVERED_EVENT, 0));
    forall t: nat | Active(s', t) ensures HasRows(s'.db, s'.txs[t]) {
      assert t == |s.txs|;
    }
  }

  /** The steps one transaction takes on its own copies between its start and its suspension call. */
  datatype Move = ToLink | ToApply | ToStamp | ToEnsure | ToIncrement | ToCredit | ToReadBack | ToGuard | ToBlock

  function StepOf(own: Move, t: nat): Step {
    match own
    case ToLink => Link(t)
    case ToApply => Apply(t)
    case ToStamp => Stamp(t)
    case ToEnsure => EnsureCounter(t)
    case ToIncrement => Increment(t)
    case ToCredit => Credit(t)
    case ToReadBack => ReadBack(t)
    case ToGuard => Guard(t, Some(1))
    case ToBlock => Block(t, 0)
  }

  function PhaseBefore(own: Move): Phase {
    match own
    case ToLink => Locked
    case ToApply => Ready
    case ToStamp => Applied
    case ToEnsure => Stamping
    case ToIncrement => HasCounter
    case ToCredit => Counted
    case ToReadBack => AgentCounted
    case ToGuard => Reread
    case ToBlock => Blocking
  }

  function Moved(db: Db, tx: Tx, own: Move): Tx
    requires HasRows(db, tx)
  {
    match own
    case ToLink => LinkedCopy(tx)
    case ToApply => AppliedTx(tx)
    case ToStamp => StampedTx(db, tx)
    case ToEnsure => EnsuredTx(db, tx)
    case ToIncrement => IncrementedTx(db, tx)
    case ToCredit => CreditedTx(db, tx)
    case ToReadBack => RereadTx(db, tx)
    case ToGuard => GuardedTx(tx, Some(1))
    case ToBlock => BlockedTx(db, tx, 0)
  }

  lemma MovedOnTask(db: Db, tx: Tx, own: Move)
    requires HasRows(db, tx) && OnTask(tx)
    ensures OnTask(Moved(db, tx, own))
  {
  }

  /** Each of them, taken by the only open transaction, leaves that transaction at work. */
  lemma OwnStepWorks(s: State, s1: State, own: Move, tx: Tx) returns (s': State)
    requires Waiting(s) && Working(s, s1, tx) && tx.phase == PhaseBefore(own)
    ensures Takes(s1, StepOf(own, |s.txs|), s') && Working(s, s', Moved(s.db, tx, own))
  {
    MovedOnTask(s.db, tx, own);
    OwnStepTaken(s, s1, own, tx);
    s' := With(s1, |s.txs|, Moved(s.db, tx, own));
    forall t: nat | Active(s', t) ensures HasRows(s'.db, s'.txs[t]) {
      assert t == |s.txs|;
    }
  }

  lemma OwnStepTaken(s: State, s1: State, own: Move, tx: Tx)
    requires Waiting(s) && Working(s, s1, tx) && tx.phase == PhaseBefore(own)
    ensures Takes(s1, StepOf(own, |s.txs|), With(s1, |s.txs|, Moved(s.db, tx, own)))
  {
  }

  predicate ReadyToCount(tx: Tx) {
    OnTask(tx) && tx.phase == Stamping && tx.counter.None? && !tx.suspended
  }

  predicate ReadyToBlock(tx: Tx) {
    OnTask(tx) && tx.phase == Reread && tx.reread == Counter(1, None) && tx.counter == Some(Counter(1, None))
    && !tx.suspended
  }

  lemma LinkAndApply(s: State) returns (states: seq<State>, steps: seq<Step>, s': State, tx: Tx)
    requires Waiting(s)
    ensures Leads(s, states, steps, s') && Working(s, s', tx) && ReadyToCount(tx)
  {
    var t := |s.txs|;
    var tx0 := Started(s.db, DELIVERED_EVENT, 0);
    var s1 := BeginWorks(s);
    var s2 := OwnStepWorks(s, s1, ToLink, tx0);
    var s3 := OwnStepWorks(s, s2, ToApply, LinkedCopy(tx0));
    s' := OwnStepWorks(s, s3, ToStamp, AppliedTx(LinkedCopy(tx0)));
    tx := StampedTx(s.db, AppliedTx(LinkedCopy(tx0)));
    states, steps := [s, s1, s2, s3, s'], [Begin(DELIVERED_EVENT, 0), Link(t), Apply(t), Stamp(t)];
  }

  lemma CountAndCredit(s: State, s1: State, tx1: Tx) returns (states: seq<State>, steps: seq<Step>, s': State, tx: Tx)
    requires Waiting(s) && Working(s, s1, tx1) && ReadyToCount(tx1)
    ensures Leads(s1, states, steps, s') && Working(s, s', tx) && ReadyToBlock(tx)
  {
    var t := |s.txs|;
    var tx2 := EnsuredTx(s.db, tx1);
    var tx3 := IncrementedTx(s.db, tx2);
    var tx4 := CreditedTx(s.db, tx3);
    var s2 := OwnStepWorks(s, s1, ToEnsure, tx1);
    var s3 := OwnStepWorks(s, s2, ToIncrement, tx2);
    var s4 := OwnStepWorks(s, s3, ToCredit, tx3);
    s' := OwnStepWorks(s, s4, ToReadBack, tx4);
    tx := RereadTx(s.db, tx4);
    states, steps := [s1, s2, s3, s4, s'], [EnsureCounter(t), Increment(t), Credit(t), ReadBack(t)];
  }

  lemma GuardAndBlock(s: State, s1: State, tx1: Tx) returns (states: seq<State>, steps: seq<Step>, s': State, tx: Tx)
    requires Waiting(s) && Working(s, s1, tx1) && ReadyToBlock(tx1)
    ensures Leads(s1, states, steps, s') && Working(s, s', tx) && tx.phase == Suspending
  {
    var t := |s.txs|;
    var tx2 := GuardedTx(tx1, Some(1));
    var s2 := OwnStepWorks(s, s1, ToGuard, tx1);
    s' := OwnStepWorks(s, s2, ToBlock, tx2);
    tx := BlockedTx(s.db, tx2, 0);
    states, steps := [s1, s2, s'], [Guard(t, Some(1)), Block(t, 0)];
  }

  lemma SuspendThenAbort(s: State, s1: State, tx: Tx) returns (states: seq<State>, steps: seq<Step>, s': State)
    requires Waiting(s) && Working(s, s1, tx) && tx.phase == Suspending
    ensures Leads(s1, states, steps, s')
    ensures Waiting(s') && s'.db == s.db && s'.suspends == s.suspends[0 := s.suspends[0] + 1]
  {
    var t := |s.txs|;
    var s2 := After(s1, Suspend(t));
    forall u: nat | Active(s2, u) ensures HasRows(s2.db, s2.txs[u]) {
      assert u == t;
    }
    s' := After(s2, Abort(t));
    assert forall u: nat :: !Active(s', u);
    states, steps := [s1, s2, s'], [Suspend(t), Abort(t)];
  }

  /** A waiting message's delivery, aborted after its suspension call, leaves it waiting. */
  lemma OneLostSuspension(s: State) returns (states: seq<State>, steps: seq<Step>, s': State)
    requires Waiting(s)
    ensures Leads(s, states, steps, s')
    ensures Waiting(s') && s'.db == s.db && s'.suspends == s.suspends[0 := s.suspends[0] + 1]
  {
    var a, p, s1, tx1 := LinkAndApply(s);
    var b, q, s2, tx2 := CountAndCredit(s, s1, tx1);
    LeadsAppend(s, a, p, s1, b, q, s2);
    var c, r, s3, tx3 := GuardAndBlock(s, s2, tx2);
    LeadsAppend(s, a + b[1..], p + q, s2, c, r, s3);
    var d, u;
    d, u, s' := SuspendThenAbort(s, s3, tx3);
    LeadsAppend(s, a + b[1..] + c[1..], p + q + r, s3, d, u, s');
    states, steps := a + b[1..] + c[1..] + d[1..], p + q + r + u;
  }

  /** One dispatch on fresh tables of one project and one agent leads there. */
  lemma WaitingIsReached() returns (s0: State, d: Dispatch, s: State)
    ensures Init(s0) && Takes(s0, Step.Record(d), s) && Waiting(s) && s.suspends == [0]
  {
    var db := Db([Project(false, None)], [Agent(0, None, 0)], []);
    s0 := State(db, [], [0], [0]);
    d := Dispatch(0, Some(7), None, "", "", 0, Origin(None, None));
    s := After(s0, Step.Record(d));
    assert s.db.messages == [NewMessage(db, d)];
  }

  lemma TwiceLostSuspension(s: State) returns (states: seq<State>, steps: seq<Step>, s': State)
    requires Waiting(s)
    ensures Leads(s, states, steps, s') && s'.db == s.db && s'.suspends == s.suspends[0 := s.suspends[0] + 2]
  {
    var a, p, s1 := OneLostSuspension(s);
    var b, q, s2 := OneLostSuspension(s1);
    LeadsAppend(s, a, p, s1, b, q, s2);
    states, steps, s' := a + b[1..], p + q, s2;
  }

  /** "The suspension is requested at most once" fails when a transaction aborts after requesting
      it: this run requests it twice, for a project that never gets its mark. */
  lemma AbortRepeatsSuspension() returns (states: seq<State>, steps: seq<Step>)
    ensures IsRun(states, steps)
    ensures states[|steps|].suspends == [2] && states[|steps|].db.projects == states[0].db.projects
  {
    var s0, d, s := WaitingIsReached();
    var b, q, s2 := TwiceLostSuspension(s);
    LeadsStep(s0, Step.Record(d), s);
    LeadsAppend(s0, [s0, s], [Step.Record(d)], s, b, q, s2);
    states, steps := [s0, s] + b[1..], [Step.Record(d)] + q;
  }
}

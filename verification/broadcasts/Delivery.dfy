/** Concurrent processing of courier events. Every event is one database transaction under READ
    COMMITTED: it writes to private copies of the rows it has locked, other transactions see those
    rows only after its commit, and it may abort at any point. Any event may be started again at
    any time, so redelivery, duplication and reordering need no steps of their own. */
module DeliveryMachine {
  import opened Common
  import opened BroadcastStatus
  import opened BroadcastRows
  import opened BroadcastTables

  /** Where a transaction stands. */
  datatype Phase =
    | Locked        // message row locked, agent joined
    | Ready         // external id written, if the event links one
    | Applied       // an accepted status is written
    | Stamping      // first-send stamp handled, a delivery is to be counted
    | HasCounter    // counter row exists
    | Counted       // project counter incremented
    | AgentCounted  // agent counter incremented
    | Reread        // counter read back
    | Blocking      // the guard asked for a block
    | Suspending    // blocked, remote suspension not yet requested
    | Finished      // nothing left but the commit

  /** A transaction with its private row copies (`message`, `agent`, `counter`, `blocks`), the joined
      agent snapshot (`unsent`), and the decisions taken so far. A copy of the agent or counter row
      exists exactly while its row lock is held. */
  datatype Tx = Tx(
    active: bool, ev: Event, row: nat, phase: Phase, message: Message, unsent: bool,
    proves: bool, delivers: bool,
    agent: Option<Agent>, counter: Option<Counter>, reread: Counter, limit: Option<nat>,
    blocks: bool, now: Time, suspended: bool)

  /** `suspends` counts the remote suspension calls made for each project and `lost` those whose
      transaction aborted afterwards. */
  datatype State = State(db: Db, txs: seq<Tx>, suspends: seq<nat>, lost: seq<nat>)

  datatype Step =
    | Record(dispatch: Dispatch)
    | Begin(ev: Event, row: nat)
    | Link(t: nat)
    | Apply(t: nat)
    | Stamp(t: nat)
    | EnsureCounter(t: nat)
    | Increment(t: nat)
    | Credit(t: nat)
    | ReadBack(t: nat)
    | Guard(t: nat, limit: Option<nat>)
    | Block(t: nat, now: Time)
    | Suspend(t: nat)
    | Commit(t: nat)
    | Abort(t: nat)

  // ---------------------------------------------------------------- row locks

  predicate Active(s: State, t: nat) {
    t < |s.txs| && s.txs[t].active
  }

  predicate At(s: State, t: nat, phase: Phase) {
    Active(s, t) && s.txs[t].phase == phase
  }

  predicate MessageFree(s: State, row: nat) {
    forall u :: 0 <= u < |s.txs| && s.txs[u].active ==> s.txs[u].row != row
  }

  /** No other transaction holds the agent row. */
  predicate AgentFree(s: State, t: nat)
    requires t < |s.txs|
  {
    forall u :: 0 <= u < |s.txs| && u != t && s.txs[u].active && s.txs[u].agent.Some? ==>
      s.txs[u].message.agent != s.txs[t].message.agent
  }

  predicate CounterFree(s: State, t: nat)
    requires t < |s.txs|
  {
    forall u :: 0 <= u < |s.txs| && u != t && s.txs[u].active && s.txs[u].counter.Some? ==>
      s.txs[u].message.project != s.txs[t].message.project
  }

  /** No other transaction is about to store this external id. */
  predicate ExternalIdFree(s: State, t: nat, id: string) {
    forall u :: 0 <= u < |s.txs| && u != t && s.txs[u].active ==> s.txs[u].message.externalId != Some(id)
  }

  // ---------------------------------------------------------------- what a transaction reads

  predicate HasRows(db: Db, tx: Tx) {
    && tx.row < |db.messages|
    && tx.message.project < |db.projects|
    && (tx.message.agent.Some? ==> tx.message.agent.value < |db.agents|)
  }

  /** The agent row as the transaction sees it: its own copy, else the committed row. */
  function SeenAgent(db: Db, tx: Tx): Agent
    requires HasRows(db, tx) && tx.message.agent.Some?
  {
    tx.agent.GetOr(db.agents[tx.message.agent.value])
  }

  function SeenCounter(db: Db, tx: Tx): Counter
    requires HasRows(db, tx)
  {
    tx.counter.GetOr(CounterOf(db.projects[tx.message.project]))
  }

  // ---------------------------------------------------------------- steps

  ghost predicate Enabled(s: State, step: Step) {
    match step
    case Record(d) => d.agent < |s.db.agents| && FromFlows(d)
    case Begin(ev, row) => row < |s.db.messages| && Targets(ev, s.db.messages[row]) && MessageFree(s, row)
    case Link(t) => At(s, t, Locked) && ExternalIdFree(s, t, s.txs[t].ev.messageId)
    case Apply(t) => At(s, t, Ready)
    case Stamp(t) => At(s, t, Applied) && AgentFree(s, t)
    case EnsureCounter(t) => At(s, t, Stamping) && CounterFree(s, t)
    case Increment(t) => At(s, t, HasCounter) && CounterFree(s, t)
    case Credit(t) => At(s, t, Counted) && AgentFree(s, t)
    case ReadBack(t) => At(s, t, AgentCounted)
    case Guard(t, _) => At(s, t, Reread)
    case Block(t, _) => At(s, t, Blocking)
    case Suspend(t) => At(s, t, Suspending)
    case Commit(t) => At(s, t, Finished)
    case Abort(t) => Active(s, t)
  }

  function Started(db: Db, ev: Event, row: nat): Tx
    requires row < |db.messages|
  {
    var m := db.messages[row];
    Tx(true, ev, row, if ev.SendEvent? then Locked else Ready, m,
       m.agent.Some? && m.agent.value < |db.agents| && db.agents[m.agent.value].firstSentAt.None?,
       false, false, None, None, Counter(0, None), None, false, 0, false)
  }

  function LinkedCopy(tx: Tx): Tx {
    tx.(message := Linked(tx.message, tx.ev), phase := Ready)
  }

  function AppliedTx(tx: Tx): Tx {
    tx.(message := Transitioned(tx.message, tx.ev),
        proves := ProvesSend(tx.message, tx.ev),
        delivers := Delivers(tx.message, tx.ev),
        phase := if Accepts(tx.message, tx.ev) then Applied else Finished)
  }

  /** The stamp is attempted only when the joined snapshot had none; the UPDATE then re-checks the
      current row and locks it only when it writes. */
  function StampedTx(db: Db, tx: Tx): Tx
    requires HasRows(db, tx)
  {
    var next := if tx.delivers then Stamping else Finished;
    if tx.proves && tx.unsent && tx.message.agent.Some? && SeenAgent(db, tx).firstSentAt.None? then
      tx.(agent := Some(Stamped(SeenAgent(db, tx), tx.message.createdAt)), phase := next)
    else tx.(phase := next)
  }

  function EnsuredTx(db: Db, tx: Tx): Tx
    requires HasRows(db, tx)
  {
    if db.projects[tx.message.project].counter.Some? then tx.(phase := HasCounter)
    else tx.(counter := Some(Counter(0, None)), phase := HasCounter)
  }

  function IncrementedTx(db: Db, tx: Tx): Tx
    requires HasRows(db, tx)
  {
    tx.(counter := Some(Incremented(SeenCounter(db, tx))), phase := Counted)
  }

  function CreditedTx(db: Db, tx: Tx): Tx
    requires HasRows(db, tx)
  {
    if tx.message.agent.None? then tx.(phase := AgentCounted)
    else tx.(agent := Some(Credited(SeenAgent(db, tx))), phase := AgentCounted)
  }

  function RereadTx(db: Db, tx: Tx): Tx
    requires HasRows(db, tx)
  {
    tx.(reread := SeenCounter(db, tx), phase := Reread)
  }

  function GuardedTx(tx: Tx, limit: Option<nat>): Tx {
    tx.(limit := limit, phase := if ShouldBlock(tx.reread, limit) then Blocking else Finished)
  }

  /** The re-check under the counter lock that precedes the block. */
  function BlockedTx(db: Db, tx: Tx, now: Time): Tx
    requires HasRows(db, tx)
  {
    var c := SeenCounter(db, tx);
    if c.blockedAt.Some? then tx.(phase := Finished)
    else tx.(counter := Some(c.(blockedAt := Some(now))), blocks := true, now := now, phase := Suspending)
  }

  /** The committed tables after `tx` publishes its copies. */
  function Published(db: Db, tx: Tx): Db
    requires HasRows(db, tx)
  {
    var p := tx.message.project;
    var project := Project(
      db.projects[p].isBlocked || tx.blocks,
      if tx.counter.Some? then tx.counter else db.projects[p].counter);
    Db(db.projects[p := project],
       if tx.message.agent.Some? && tx.agent.Some? then db.agents[tx.message.agent.value := tx.agent.value]
       else db.agents,
       db.messages[tx.row := tx.message])
  }

  ghost predicate InRange(s: State) {
    && |s.suspends| == |s.db.projects| == |s.lost|
    && WellLinked(s.db)
    && AgentsLinked(s.db)
    && forall t: nat :: Active(s, t) ==> HasRows(s.db, s.txs[t])
  }

  ghost function With(s: State, t: nat, tx: Tx): State
    requires t < |s.txs|
  {
    s.(txs := s.txs[t := tx])
  }

  ghost function After(s: State, step: Step): State
    requires InRange(s) && Enabled(s, step)
  {
    match step
    case Record(d) => s.(db := BroadcastTables.Record(s.db, d))
    case Begin(ev, row) => s.(txs := s.txs + [Started(s.db, ev, row)])
    case Link(t) =>
      var tx := s.txs[t];
      if LinkAllowed(s.db, tx.row, tx.ev) then With(s, t, LinkedCopy(tx))
      else With(s, t, tx.(active := false))
    case Apply(t) => With(s, t, AppliedTx(s.txs[t]))
    case Stamp(t) => With(s, t, StampedTx(s.db, s.txs[t]))
    case EnsureCounter(t) => With(s, t, EnsuredTx(s.db, s.txs[t]))
    case Increment(t) => With(s, t, IncrementedTx(s.db, s.txs[t]))
    case Credit(t) => With(s, t, CreditedTx(s.db, s.txs[t]))
    case ReadBack(t) => With(s, t, RereadTx(s.db, s.txs[t]))
    case Guard(t, limit) => With(s, t, GuardedTx(s.txs[t], limit))
    case Block(t, now) => With(s, t, BlockedTx(s.db, s.txs[t], now))
    case Suspend(t) =>
      var p := s.txs[t].message.project;
      With(s, t, s.txs[t].(suspended := true, phase := Finished)).(suspends := s.suspends[p := s.suspends[p] + 1])
    case Commit(t) => With(s, t, s.txs[t].(active := false)).(db := Published(s.db, s.txs[t]))
    case Abort(t) =>
      var p := s.txs[t].message.project;
      var s' := With(s, t, s.txs[t].(active := false));
      if s.txs[t].suspended then s'.(lost := s.lost[p := s.lost[p] + 1]) else s'
  }

  // ---------------------------------------------------------------- what a transaction has done so far

  function Depth(phase: Phase): nat {
    match phase
    case Locked => 0
    case Ready => 1
    case Applied => 2
    case Stamping => 3
    case HasCounter => 4
    case Counted => 5
    case AgentCounted => 6
    case Reread => 7
    case Blocking => 8
    case Suspending => 9
    case Finished => 10
  }

  predicate PastLink(tx: Tx) { Depth(tx.phase) >= 1 }
  predicate PastApply(tx: Tx) { Depth(tx.phase) >= 2 }
  predicate PastStamp(tx: Tx) { Depth(tx.phase) >= 3 }
  predicate PastEnsure(tx: Tx) { tx.delivers && Depth(tx.phase) >= 4 }
  predicate PastIncrement(tx: Tx) { tx.delivers && Depth(tx.phase) >= 5 }
  predicate PastCredit(tx: Tx) { tx.delivers && Depth(tx.phase) >= 6 }
  predicate PastReadBack(tx: Tx) { tx.delivers && Depth(tx.phase) >= 7 }
  predicate PastGuard(tx: Tx) { tx.delivers && Depth(tx.phase) >= 8 }

  /** The copies equal what the steps taken so far make of the committed rows, although other
      transactions may have committed in between. */
  ghost predicate MessageInv(db: Db, tx: Tx)
    requires HasRows(db, tx)
  {
    var m := db.messages[tx.row];
    && tx.message.project == m.project && tx.message.agent == m.agent && tx.message.createdAt == m.createdAt
    && (tx.phase.Locked? ==> tx.ev.SendEvent?)
    && tx.message == (if PastApply(tx) then Transitioned(Linked(m, tx.ev), tx.ev)
                      else if PastLink(tx) then Linked(m, tx.ev) else m)
    && tx.proves == (PastApply(tx) && ProvesSend(m, tx.ev))
    && tx.delivers == (PastApply(tx) && Delivers(m, tx.ev))
    && (Depth(tx.phase) in {3, 4, 5, 6, 7, 8, 9} ==> tx.delivers)
  }

  ghost predicate AgentInv(db: Db, tx: Tx)
    requires HasRows(db, tx)
  {
    if tx.message.agent.None? then tx.agent.None?
    else
      var a := db.agents[tx.message.agent.value];
      var stamped := if PastStamp(tx) && tx.proves then Stamped(a, tx.message.createdAt) else a;
      && (!tx.unsent ==> a.firstSentAt.Some?)
      && SeenAgent(db, tx) == (if PastCredit(tx) then Credited(stamped) else stamped)
      && (PastCredit(tx) ==> tx.agent.Some?)
      && (!PastStamp(tx) ==> tx.agent.None?)
  }

  ghost predicate CounterInv(db: Db, tx: Tx)
    requires HasRows(db, tx)
  {
    var p := db.projects[tx.message.project];
    var c := Incremented(CounterOf(p));
    && (!PastEnsure(tx) ==> tx.counter.None?)
    && (PastEnsure(tx) && !PastIncrement(tx) ==>
          SeenCounter(db, tx) == CounterOf(p) && (tx.counter.None? ==> p.counter.Some?))
    && (PastIncrement(tx) ==> tx.counter == Some(if tx.blocks then c.(blockedAt := Some(tx.now)) else c))
    && (PastReadBack(tx) ==> tx.reread == c)
    && (tx.phase.Blocking? ==> ShouldBlock(c, tx.limit) && !tx.blocks)
    && (tx.blocks ==> PastGuard(tx) && ShouldBlock(c, tx.limit))
    && (tx.phase.Suspending? ==> tx.blocks && !tx.suspended)
    && (tx.suspended ==> tx.phase.Finished? && tx.blocks)
    && (tx.phase.Finished? && tx.delivers ==> tx.blocks == ShouldBlock(c, tx.limit) && tx.suspended == tx.blocks)
  }

  ghost predicate TxInv(db: Db, tx: Tx) {
    HasRows(db, tx) && MessageInv(db, tx) && AgentInv(db, tx) && CounterInv(db, tx)
  }

  // ---------------------------------------------------------------- exclusion

  ghost predicate Apart(t: Tx, u: Tx) {
    && t.row != u.row
    && (t.agent.Some? && u.agent.Some? ==> t.message.agent != u.message.agent)
    && (t.counter.Some? && u.counter.Some? ==> t.message.project != u.message.project)
    && (t.message.externalId.Some? ==> t.message.externalId != u.message.externalId)
  }

  ghost predicate LocksExclusive(s: State) {
    forall t: nat, u: nat :: t != u && Active(s, t) && Active(s, u) ==> Apart(s.txs[t], s.txs[u])
  }

  /** The external id a transaction is about to store is on no other committed row. */
  ghost predicate PendingIdUnique(db: Db, tx: Tx) {
    tx.message.externalId.Some? ==>
      forall j :: 0 <= j < |db.messages| && j != tx.row ==> db.messages[j].externalId != tx.message.externalId
  }

  ghost predicate TxsInv(s: State) {
    forall t: nat :: Active(s, t) ==> TxInv(s.db, s.txs[t]) && PendingIdUnique(s.db, s.txs[t])
  }

  /** Transactions that requested the suspension and have not committed yet. */
  function SuspendedOn(p: nat): Tx -> int {
    (tx: Tx) => if tx.active && tx.suspended && tx.message.project == p then 1 else 0
  }

  function BlockMark(p: Project): nat {
    if IsMarkedBlocked(p) then 1 else 0
  }

  ghost predicate SuspendsAccounted(s: State) {
    && |s.suspends| == |s.db.projects| == |s.lost|
    && forall p :: 0 <= p < |s.db.projects| ==>
         s.suspends[p] == BlockMark(s.db.projects[p]) + s.lost[p] + Sum(s.txs, SuspendedOn(p))
  }

  ghost predicate Inv(s: State) {
    && Consistent(s.db) && AgentsLinked(s.db)
    && TxsInv(s) && LocksExclusive(s) && SuspendsAccounted(s)
  }

  /** Tracking starts with empty tables: projects may already be blocked by other flows. */
  ghost predicate Init(s: State) {
    && s.txs == [] && s.db.messages == [] && AgentsLinked(s.db)
    && (forall a :: 0 <= a < |s.db.agents| ==> s.db.agents[a].delivered == 0 && s.db.agents[a].firstSentAt.None?)
    && (forall p :: 0 <= p < |s.db.projects| ==> s.db.projects[p].counter.None?)
    && |s.suspends| == |s.db.projects| == |s.lost|
    && (forall p :: 0 <= p < |s.db.projects| ==> s.suspends[p] == 0 == s.lost[p])
  }

  lemma InitInv(s: State)
    requires Init(s)
    ensures Inv(s)
  {
  }

  // ---------------------------------------------------------------- steps inside one transaction

  /** The part of the invariant that a step of transaction `t` on its own copies must restore. */
  ghost predicate OwnStep(s: State, t: nat, tx: Tx) {
    && Active(s, t) && tx.active
    && TxInv(s.db, tx)
    && tx.row == s.txs[t].row
    && tx.message.project == s.txs[t].message.project && tx.message.agent == s.txs[t].message.agent
    && (tx.agent.Some? && s.txs[t].agent.None? ==> AgentFree(s, t))
    && (tx.counter.Some? && s.txs[t].counter.None? ==> CounterFree(s, t))
    && (tx.message.externalId != s.txs[t].message.externalId ==>
          tx.message.externalId.Some? && ExternalIdFree(s, t, tx.message.externalId.value)
          && PendingIdUnique(s.db, tx))
  }

  lemma OwnStepStaysApart(s: State, t: nat, tx: Tx, u: nat)
    requires OwnStep(s, t, tx) && u != t && Active(s, u)
    requires Apart(s.txs[t], s.txs[u])
    ensures Apart(tx, s.txs[u]) && Apart(s.txs[u], tx)
  {
  }

  lemma OwnStepKeepsTxs(s: State, t: nat, tx: Tx)
    requires TxsInv(s) && LocksExclusive(s) && OwnStep(s, t, tx)
    ensures TxsInv(With(s, t, tx)) && LocksExclusive(With(s, t, tx))
  {
    var s' := With(s, t, tx);
    assert PendingIdUnique(s.db, s.txs[t]);
    forall u: nat | Active(s', u) ensures TxInv(s.db, s'.txs[u]) && PendingIdUnique(s.db, s'.txs[u]) {
      assert u != t ==> Active(s, u);
    }
    forall u: nat, v: nat | u != v && Active(s', u) && Active(s', v) ensures Apart(s'.txs[u], s'.txs[v]) {
      if u == t {
        assert Active(s, v);
        OwnStepStaysApart(s, t, tx, v);
      } else if v == t {
        assert Active(s, u);
        OwnStepStaysApart(s, t, tx, u);
      } else {
        assert Active(s, u) && Active(s, v);
      }
    }
  }

  lemma OwnStepIsAccounted(s: State, t: nat, tx: Tx)
    requires SuspendsAccounted(s) && Active(s, t) && tx.active
    requires tx.suspended == s.txs[t].suspended && tx.message.project == s.txs[t].message.project
    ensures SuspendsAccounted(With(s, t, tx))
  {
    forall p | 0 <= p < |s.db.projects|
      ensures Sum(s.txs[t := tx], SuspendedOn(p)) == Sum(s.txs, SuspendedOn(p))
    {
      SumUpdate(s.txs, t, tx, SuspendedOn(p));
    }
  }

  lemma OwnStepKeepsInv(s: State, t: nat, tx: Tx)
    requires Inv(s) && OwnStep(s, t, tx) && tx.suspended == s.txs[t].suspended
    ensures Inv(With(s, t, tx))
  {
    OwnStepKeepsTxs(s, t, tx);
    OwnStepIsAccounted(s, t, tx);
  }

  /** The step touched neither the rows the transaction claims nor its suspension flag. */
  predicate SameClaims(tx: Tx, tx': Tx) {
    && tx'.active == tx.active && tx'.row == tx.row && tx'.suspended == tx.suspended
    && tx'.message.project == tx.message.project && tx'.message.agent == tx.message.agent
    && tx'.message.externalId == tx.message.externalId
  }

  /** A step on private copies that takes no lock but a free one. */
  lemma CopyStepKeepsInv(s: State, t: nat, tx: Tx)
    requires Inv(s) && Active(s, t) && TxInv(s.db, tx) && SameClaims(s.txs[t], tx)
    requires tx.agent.Some? && s.txs[t].agent.None? ==> AgentFree(s, t)
    requires tx.counter.Some? && s.txs[t].counter.None? ==> CounterFree(s, t)
    ensures Inv(With(s, t, tx))
  {
    OwnStepKeepsInv(s, t, tx);
  }

  lemma LinkedTx(db: Db, tx: Tx)
    requires TxInv(db, tx) && tx.phase.Locked? && LinkAllowed(db, tx.row, tx.ev)
    ensures TxInv(db, LinkedCopy(tx)) && PendingIdUnique(db, LinkedCopy(tx))
  {
  }

  lemma LinkKeepsInv(s: State, t: nat)
    requires Inv(s) && InRange(s) && Enabled(s, Link(t))
    ensures Inv(After(s, Link(t)))
  {
    var tx := s.txs[t];
    if LinkAllowed(s.db, tx.row, tx.ev) {
      LinkedTx(s.db, tx);
      OwnStepKeepsInv(s, t, LinkedCopy(tx));
    } else {
      UnsuspendedBefore(s.db, tx);
      EndKeepsInv(s, t);
    }
  }

  lemma UnsuspendedBefore(db: Db, tx: Tx)
    requires TxInv(db, tx) && tx.phase != Finished
    ensures !tx.suspended
  {
  }

  lemma AppliedKeepsTx(db: Db, tx: Tx)
    requires TxInv(db, tx) && tx.phase.Ready?
    ensures TxInv(db, AppliedTx(tx)) && SameClaims(tx, AppliedTx(tx))
  {
  }

  lemma ApplyKeepsInv(s: State, t: nat)
    requires Inv(s) && InRange(s) && Enabled(s, Apply(t))
    ensures Inv(After(s, Apply(t)))
  {
    AppliedKeepsTx(s.db, s.txs[t]);
    CopyStepKeepsInv(s, t, AppliedTx(s.txs[t]));
  }

  lemma StampedKeepsTx(db: Db, tx: Tx)
    requires TxInv(db, tx) && tx.phase.Applied?
    ensures TxInv(db, StampedTx(db, tx)) && SameClaims(tx, StampedTx(db, tx))
  {
  }

  lemma StampKeepsInv(s: State, t: nat)
    requires Inv(s) && InRange(s) && Enabled(s, Stamp(t))
    ensures Inv(After(s, Stamp(t)))
  {
    StampedKeepsTx(s.db, s.txs[t]);
    CopyStepKeepsInv(s, t, StampedTx(s.db, s.txs[t]));
  }

  lemma EnsuredKeepsTx(db: Db, tx: Tx)
    requires TxInv(db, tx) && tx.phase.Stamping?
    ensures TxInv(db, EnsuredTx(db, tx)) && SameClaims(tx, EnsuredTx(db, tx))
  {
  }

  lemma EnsureKeepsInv(s: State, t: nat)
    requires Inv(s) && InRange(s) && Enabled(s, EnsureCounter(t))
    ensures Inv(After(s, EnsureCounter(t)))
  {
    EnsuredKeepsTx(s.db, s.txs[t]);
    CopyStepKeepsInv(s, t, EnsuredTx(s.db, s.txs[t]));
  }

  lemma IncrementedKeepsTx(db: Db, tx: Tx)
    requires TxInv(db, tx) && tx.phase.HasCounter?
    ensures TxInv(db, IncrementedTx(db, tx)) && SameClaims(tx, IncrementedTx(db, tx))
  {
  }

  lemma IncrementKeepsInv(s: State, t: nat)
    requires Inv(s) && InRange(s) && Enabled(s, Increment(t))
    ensures Inv(After(s, Increment(t)))
  {
    IncrementedKeepsTx(s.db, s.txs[t]);
    CopyStepKeepsInv(s, t, IncrementedTx(s.db, s.txs[t]));
  }

  lemma CreditedKeepsTx(db: Db, tx: Tx)
    requires TxInv(db, tx) && tx.phase.Counted?
    ensures TxInv(db, CreditedTx(db, tx)) && SameClaims(tx, CreditedTx(db, tx))
  {
  }

  lemma CreditKeepsInv(s: State, t: nat)
    requires Inv(s) && InRange(s) && Enabled(s, Credit(t))
    ensures Inv(After(s, Credit(t)))
  {
    CreditedKeepsTx(s.db, s.txs[t]);
    CopyStepKeepsInv(s, t, CreditedTx(s.db, s.txs[t]));
  }

  lemma RereadKeepsTx(db: Db, tx: Tx)
    requires TxInv(db, tx) && tx.phase.AgentCounted?
    ensures TxInv(db, RereadTx(db, tx)) && SameClaims(tx, RereadTx(db, tx))
  {
  }

  lemma ReadBackKeepsInv(s: State, t: nat)
    requires Inv(s) && InRange(s) && Enabled(s, ReadBack(t))
    ensures Inv(After(s, ReadBack(t)))
  {
    RereadKeepsTx(s.db, s.txs[t]);
    CopyStepKeepsInv(s, t, RereadTx(s.db, s.txs[t]));
  }

  lemma GuardedKeepsTx(db: Db, tx: Tx, limit: Option<nat>)
    requires TxInv(db, tx) && tx.phase.Reread?
    ensures TxInv(db, GuardedTx(tx, limit)) && SameClaims(tx, GuardedTx(tx, limit))
  {
  }

  lemma GuardKeepsInv(s: State, t: nat, limit: Option<nat>)
    requires Inv(s) && InRange(s) && Enabled(s, Guard(t, limit))
    ensures Inv(After(s, Guard(t, limit)))
  {
    GuardedKeepsTx(s.db, s.txs[t], limit);
    CopyStepKeepsInv(s, t, GuardedTx(s.txs[t], limit));
  }

  lemma BlockedKeepsTx(db: Db, tx: Tx, now: Time)
    requires TxInv(db, tx) && tx.phase.Blocking?
    ensures TxInv(db, BlockedTx(db, tx, now)) && SameClaims(tx, BlockedTx(db, tx, now))
  {
  }

  lemma BlockKeepsInv(s: State, t: nat, now: Time)
    requires Inv(s) && InRange(s) && Enabled(s, Block(t, now))
    ensures Inv(After(s, Block(t, now)))
  {
    BlockedKeepsTx(s.db, s.txs[t], now);
    CopyStepKeepsInv(s, t, BlockedTx(s.db, s.txs[t], now));
  }

  lemma SuspendedKeepsTx(db: Db, tx: Tx)
    requires TxInv(db, tx) && tx.phase.Suspending?
    ensures TxInv(db, tx.(suspended := true, phase := Finished)) && !tx.suspended
  {
  }

  lemma SuspendKeepsInv(s: State, t: nat)
    requires Inv(s) && InRange(s) && Enabled(s, Suspend(t))
    ensures Inv(After(s, Suspend(t)))
  {
    SuspendedKeepsTx(s.db, s.txs[t]);
    OwnStepKeepsTxs(s, t, s.txs[t].(suspended := true, phase := Finished));
    SuspendIsAccounted(s, t);
  }

  lemma SuspendIsAccounted(s: State, t: nat)
    requires SuspendsAccounted(s) && InRange(s) && Enabled(s, Suspend(t)) && !s.txs[t].suspended
    ensures SuspendsAccounted(After(s, Suspend(t)))
  {
    var tx := s.txs[t].(suspended := true, phase := Finished);
    forall p | 0 <= p < |s.db.projects|
      ensures Sum(s.txs[t := tx], SuspendedOn(p))
              == Sum(s.txs, SuspendedOn(p)) + if p == tx.message.project then 1 else 0
    {
      SumUpdate(s.txs, t, tx, SuspendedOn(p));
    }
  }

  /** Ending a transaction without publishing releases its locks and changes no table. */
  lemma EndKeepsTxs(s: State, t: nat)
    requires TxsInv(s) && LocksExclusive(s) && Active(s, t)
    ensures var s' := With(s, t, s.txs[t].(active := false)); TxsInv(s') && LocksExclusive(s')
  {
    var s' := With(s, t, s.txs[t].(active := false));
    assert forall u: nat :: Active(s', u) ==> Active(s, u) && s'.txs[u] == s.txs[u];
  }

  lemma EndedSum(s: State, t: nat, p: nat)
    requires Active(s, t)
    ensures Sum(s.txs[t := s.txs[t].(active := false)], SuspendedOn(p))
            == Sum(s.txs, SuspendedOn(p)) - if s.txs[t].suspended && s.txs[t].message.project == p then 1 else 0
  {
    SumUpdate(s.txs, t, s.txs[t].(active := false), SuspendedOn(p));
  }

  lemma EndKeepsInv(s: State, t: nat)
    requires Inv(s) && Active(s, t) && !s.txs[t].suspended
    ensures Inv(With(s, t, s.txs[t].(active := false)))
  {
    EndKeepsTxs(s, t);
    forall p | 0 <= p < |s.db.projects|
      ensures Sum(s.txs[t := s.txs[t].(active := false)], SuspendedOn(p)) == Sum(s.txs, SuspendedOn(p))
    {
      EndedSum(s, t, p);
    }
  }

  lemma AbortIsAccounted(s: State, t: nat)
    requires SuspendsAccounted(s) && InRange(s) && Active(s, t) && s.txs[t].suspended
    ensures SuspendsAccounted(After(s, Abort(t)))
  {
    forall p | 0 <= p < |s.db.projects|
      ensures Sum(s.txs[t := s.txs[t].(active := false)], SuspendedOn(p))
              == Sum(s.txs, SuspendedOn(p)) - if s.txs[t].message.project == p then 1 else 0
    {
      EndedSum(s, t, p);
    }
  }

  lemma AbortKeepsInv(s: State, t: nat)
    requires Inv(s) && InRange(s) && Enabled(s, Abort(t))
    ensures Inv(After(s, Abort(t)))
  {
    if s.txs[t].suspended {
      EndKeepsTxs(s, t);
      AbortIsAccounted(s, t);
    } else {
      EndKeepsInv(s, t);
    }
  }

  lemma StartedTx(db: Db, ev: Event, row: nat)
    requires WellLinked(db) && UniqueIds(db) && row < |db.messages|
    ensures TxInv(db, Started(db, ev, row)) && PendingIdUnique(db, Started(db, ev, row))
  {
  }

  /** A new transaction holds a free row, and no open one is about to store that row's external id. */
  lemma StartedApart(s: State, ev: Event, row: nat, u: nat)
    requires InRange(s) && Enabled(s, Begin(ev, row)) && Active(s, u) && PendingIdUnique(s.db, s.txs[u])
    ensures Apart(Started(s.db, ev, row), s.txs[u]) && Apart(s.txs[u], Started(s.db, ev, row))
  {
  }

  lemma BeginKeepsTxs(s: State, ev: Event, row: nat)
    requires TxsInv(s) && LocksExclusive(s) && InRange(s) && Enabled(s, Begin(ev, row)) && UniqueIds(s.db)
    ensures TxsInv(After(s, Begin(ev, row))) && LocksExclusive(After(s, Begin(ev, row)))
  {
    var s' := After(s, Begin(ev, row));
    StartedTx(s.db, ev, row);
    assert forall u: nat :: Active(s', u) && u != |s.txs| ==> Active(s, u) && s'.txs[u] == s.txs[u];
    forall u: nat, v: nat | u != v && Active(s', u) && Active(s', v) ensures Apart(s'.txs[u], s'.txs[v]) {
      if u == |s.txs| {
        StartedApart(s, ev, row, v);
      } else if v == |s.txs| {
        StartedApart(s, ev, row, u);
      }
    }
  }

  lemma BeginKeepsInv(s: State, ev: Event, row: nat)
    requires Inv(s) && InRange(s) && Enabled(s, Begin(ev, row))
    ensures Inv(After(s, Begin(ev, row)))
  {
    BeginKeepsTxs(s, ev, row);
    forall p | 0 <= p < |s.db.projects|
      ensures Sum(s.txs + [Started(s.db, ev, row)], SuspendedOn(p)) == Sum(s.txs, SuspendedOn(p))
    {
      SumAppend(s.txs, Started(s.db, ev, row), SuspendedOn(p));
    }
  }

  lemma RecordFrame(db: Db, d: Dispatch, tx: Tx)
    requires d.agent < |db.agents| && TxInv(db, tx) && PendingIdUnique(db, tx)
    ensures TxInv(BroadcastTables.Record(db, d), tx) && PendingIdUnique(BroadcastTables.Record(db, d), tx)
  {
  }

  lemma RecordKeepsInv(s: State, d: Dispatch)
    requires Inv(s) && InRange(s) && Enabled(s, Step.Record(d))
    ensures Inv(After(s, Step.Record(d)))
  {
    RecordKeepsConsistent(s.db, d);
    RecordKeepsTxs(s, d);
  }

  lemma RecordKeepsTxs(s: State, d: Dispatch)
    requires TxsInv(s) && LocksExclusive(s) && InRange(s) && Enabled(s, Step.Record(d))
    ensures TxsInv(After(s, Step.Record(d))) && LocksExclusive(After(s, Step.Record(d)))
  {
    var s' := After(s, Step.Record(d));
    forall u: nat | Active(s', u) ensures TxInv(s'.db, s'.txs[u]) && PendingIdUnique(s'.db, s'.txs[u]) {
      assert Active(s, u);
      RecordFrame(s.db, d, s.txs[u]);
    }
    assert forall u: nat :: Active(s', u) ==> Active(s, u);
  }

  // ---------------------------------------------------------------- commits

  /** Serializability: a commit changes the tables exactly as if its whole event had run alone, on
      the committed state of that moment. */
  lemma CommitIsSerial(s: State, t: nat)
    requires Inv(s) && InRange(s) && Enabled(s, Commit(t))
    ensures var tx := s.txs[t];
            && LinkAllowed(s.db, tx.row, tx.ev)
            && After(s, Commit(t)).db == Deliver(s.db, tx.row, tx.ev, tx.now, tx.limit)
  {
    var tx := s.txs[t];
    assert TxInv(s.db, tx) && PendingIdUnique(s.db, tx);
    FinishedMessage(s.db, tx);
    FinishedAgent(s.db, tx);
    FinishedProject(s.db, tx);
  }

  lemma FinishedMessage(db: Db, tx: Tx)
    requires WellLinked(db) && TxInv(db, tx) && tx.phase.Finished? && PendingIdUnique(db, tx)
    ensures LinkAllowed(db, tx.row, tx.ev)
    ensures tx.message == Settle(RowsAt(db, tx.row), tx.ev, tx.now, tx.limit).message
  {
  }

  lemma FinishedAgent(db: Db, tx: Tx)
    requires WellLinked(db) && TxInv(db, tx) && tx.phase.Finished?
    ensures var r := Settle(RowsAt(db, tx.row), tx.ev, tx.now, tx.limit);
            Published(db, tx).agents == WithRows(db, tx.row, r).agents
  {
    if tx.message.agent.Some? {
      var a := db.agents[tx.message.agent.value];
      assert SeenAgent(db, tx) == SettledAgent(a, db.messages[tx.row], tx.ev);
      assert db.agents[tx.message.agent.value := a] == db.agents;
    }
  }

  lemma FinishedProject(db: Db, tx: Tx)
    requires WellLinked(db) && TxInv(db, tx) && tx.phase.Finished?
    ensures var p := db.projects[tx.message.project];
            Published(db, tx).projects
            == db.projects[tx.message.project := SettledProject(p, db.messages[tx.row], tx.ev, tx.now, tx.limit)]
  {
  }

  lemma FrameMessage(db: Db, tx: Tx, other: Tx)
    requires HasRows(db, tx) && TxInv(db, other) && tx.row != other.row
    ensures HasRows(Published(db, tx), other) && MessageInv(Published(db, tx), other)
  {
  }

  lemma FrameAgent(db: Db, tx: Tx, other: Tx)
    requires TxInv(db, tx) && TxInv(db, other) && Apart(tx, other)
    ensures HasRows(Published(db, tx), other) && AgentInv(Published(db, tx), other)
  {
  }

  lemma FrameCounter(db: Db, tx: Tx, other: Tx)
    requires TxInv(db, tx) && TxInv(db, other) && Apart(tx, other)
    ensures HasRows(Published(db, tx), other) && CounterInv(Published(db, tx), other)
  {
  }

  lemma FramePendingId(db: Db, tx: Tx, other: Tx)
    requires HasRows(db, tx) && PendingIdUnique(db, other) && Apart(tx, other)
    ensures PendingIdUnique(Published(db, tx), other)
  {
  }

  /** A commit leaves every other open transaction's view intact. */
  lemma CommitFrame(db: Db, tx: Tx, other: Tx)
    requires TxInv(db, tx) && TxInv(db, other) && Apart(tx, other) && PendingIdUnique(db, other)
    ensures TxInv(Published(db, tx), other)
    ensures PendingIdUnique(Published(db, tx), other)
  {
    FrameMessage(db, tx, other);
    FrameAgent(db, tx, other);
    FrameCounter(db, tx, other);
    FramePendingId(db, tx, other);
  }

  lemma CommitKeepsTxs(s: State, t: nat)
    requires TxsInv(s) && LocksExclusive(s) && InRange(s) && Enabled(s, Commit(t))
    ensures TxsInv(After(s, Commit(t))) && LocksExclusive(After(s, Commit(t)))
  {
    var s' := After(s, Commit(t));
    assert forall u: nat :: Active(s', u) ==> u != t && Active(s, u) && s'.txs[u] == s.txs[u];
    forall u: nat | Active(s', u) ensures TxInv(s'.db, s'.txs[u]) && PendingIdUnique(s'.db, s'.txs[u]) {
      CommitFrame(s.db, s.txs[t], s.txs[u]);
    }
  }

  lemma CommitIsAccounted(s: State, t: nat)
    requires TxsInv(s) && SuspendsAccounted(s) && InRange(s) && Enabled(s, Commit(t))
    ensures SuspendsAccounted(After(s, Commit(t)))
  {
    var s' := After(s, Commit(t));
    forall p | 0 <= p < |s'.db.projects|
      ensures s'.suspends[p] == BlockMark(s'.db.projects[p]) + s'.lost[p] + Sum(s'.txs, SuspendedOn(p))
    {
      EndedSum(s, t, p);
      CommitMarks(s.db, s.txs[t], p);
    }
  }

  /** A commit marks a project blocked exactly when its transaction requested the suspension. */
  lemma CommitMarks(db: Db, tx: Tx, p: nat)
    requires TxInv(db, tx) && tx.phase.Finished? && p < |db.projects|
    ensures BlockMark(Published(db, tx).projects[p])
            == BlockMark(db.projects[p]) + if tx.suspended && p == tx.message.project then 1 else 0
  {
  }

  lemma CommitKeepsInv(s: State, t: nat)
    requires Inv(s) && InRange(s) && Enabled(s, Commit(t))
    ensures Inv(After(s, Commit(t)))
  {
    var tx := s.txs[t];
    CommitIsSerial(s, t);
    DeliverKeepsConsistent(s.db, tx.row, tx.ev, tx.now, tx.limit);
    CommitKeepsTxs(s, t);
    CommitIsAccounted(s, t);
    DeliverKeepsAgentProjects(s.db, tx.row, tx.ev, tx.now, tx.limit);
  }

  lemma DeliverKeepsAgentProjects(db: Db, i: nat, ev: Event, now: Time, limit: Option<nat>)
    requires WellLinked(db) && AgentsLinked(db) && i < |db.messages|
    ensures AgentsLinked(Deliver(db, i, ev, now, limit))
  {
  }

  lemma CountingStepKeepsInv(s: State, step: Step)
    requires Inv(s) && InRange(s) && Enabled(s, step)
    requires step.EnsureCounter? || step.Increment? || step.Credit? || step.ReadBack? || step.Guard? || step.Block?
    ensures Inv(After(s, step))
  {
    match step
    case EnsureCounter(t) => EnsureKeepsInv(s, t);
    case Increment(t) => IncrementKeepsInv(s, t);
    case Credit(t) => CreditKeepsInv(s, t);
    case ReadBack(t) => ReadBackKeepsInv(s, t);
    case Guard(t, limit) => GuardKeepsInv(s, t, limit);
    case Block(t, now) => BlockKeepsInv(s, t, now);
  }

  lemma MessageStepKeepsInv(s: State, step: Step)
    requires Inv(s) && InRange(s) && Enabled(s, step)
    requires step.Link? || step.Apply? || step.Stamp? || step.Suspend?
    ensures Inv(After(s, step))
  {
    match step
    case Link(t) => LinkKeepsInv(s, t);
    case Apply(t) => ApplyKeepsInv(s, t);
    case Stamp(t) => StampKeepsInv(s, t);
    case Suspend(t) => SuspendKeepsInv(s, t);
  }

  /** Every step of every transaction keeps the invariant. */
  lemma StepKeepsInv(s: State, step: Step)
    requires Inv(s) && InRange(s) && Enabled(s, step)
    ensures Inv(After(s, step))
  {
    match step
    case Record(d) => RecordKeepsInv(s, d);
    case Begin(ev, row) => BeginKeepsInv(s, ev, row);
    case Commit(t) => CommitKeepsInv(s, t);
    case Abort(t) => AbortKeepsInv(s, t);
    case Link(_) => MessageStepKeepsInv(s, step);
    case Apply(_) => MessageStepKeepsInv(s, step);
    case Stamp(_) => MessageStepKeepsInv(s, step);
    case Suspend(_) => MessageStepKeepsInv(s, step);
    case _ => CountingStepKeepsInv(s, step);
  }
}

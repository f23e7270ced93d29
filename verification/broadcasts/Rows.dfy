/** The rows the status handler works on and the effect of one courier event on them. */
module BroadcastRows {
  import opened Common
  import opened BroadcastStatus

  type Time = int

  /** The purchase a message is about, as far as the dispatch knew it. */
  datatype Origin = Origin(orderFormId: Option<string>, orderId: Option<string>)

  /** A broadcast message. `initial` and `log` are history: the status the row was created with
      and the courier statuses applied to it since, in commit order. */
  datatype Message = Message(
    project: nat, agent: Option<nat>, broadcastId: Option<nat>, externalId: Option<string>, createdAt: Time,
    origin: Origin, status: Status, previousStatus: Option<Status>, errorMessage: string,
    initial: Status, log: seq<Status>)

  datatype Agent = Agent(project: nat, firstSentAt: Option<Time>, delivered: nat)

  datatype Counter = Counter(total: nat, blockedAt: Option<Time>)

  datatype Project = Project(isBlocked: bool, counter: Option<Counter>)

  /** A normalised courier event. An empty message id is a missing one; `detail` is the first
      error text found in the payload, empty when there is none. */
  datatype Event =
    | SendEvent(broadcastId: Option<nat>, messageId: string, status: Option<Status>, detail: string)
    | StatusEvent(messageId: string, status: Option<Status>, detail: string)

  /** The row lookup of each kind of event. */
  predicate Targets(ev: Event, m: Message) {
    ev.messageId != "" &&
    match ev
    case SendEvent(broadcastId, _, _, _) => broadcastId.Some? && m.broadcastId == broadcastId
    case StatusEvent(messageId, _, _) => m.externalId == Some(messageId)
  }

  function Linked(m: Message, ev: Event): Message {
    if ev.SendEvent? then m.(externalId := Some(ev.messageId)) else m
  }

  predicate Accepts(m: Message, ev: Event) {
    ev.status.Some? && !IsOutOfOrder(m.status, ev.status.value)
  }

  function ErrorReason(detail: string): (reason: string)
    ensures reason != ""
  {
    if detail != "" then detail else "Courier reported a failure without error detail"
  }

  predicate IsFailure(s: Status) {
    s.Errored? || s.Failed?
  }

  function Transitioned(m: Message, ev: Event): Message {
    if ev.status.None? then m
    else if !Accepts(m, ev) then m.(log := m.log + [ev.status.value])
    else m.(
      previousStatus := Some(m.status),
      status := ev.status.value,
      errorMessage := if IsFailure(ev.status.value) then ErrorReason(ev.detail) else m.errorMessage,
      log := m.log + [ev.status.value])
  }

  predicate ProvesSend(m: Message, ev: Event) {
    Accepts(m, ev) && IsSuccessfulSend(ev.status.value)
  }

  predicate Delivers(m: Message, ev: Event) {
    Accepts(m, ev) && IsFirstDelivery(m.status, ev.status.value)
  }

  /** The conditional UPDATE of the first-send stamp: only a NULL stamp is written. */
  function Stamped(a: Agent, at: Time): Agent {
    if a.firstSentAt.Some? then a else a.(firstSentAt := Some(at))
  }

  function Credited(a: Agent): Agent {
    a.(delivered := a.delivered + 1)
  }

  function CounterOf(p: Project): Counter {
    p.counter.GetOr(Counter(0, None))
  }

  function Incremented(c: Counter): Counter {
    c.(total := c.total + 1)
  }

  /** A missing or zero limit disables the guard. */
  predicate ShouldBlock(c: Counter, limit: Option<nat>) {
    limit.Some? && limit.value != 0 && c.blockedAt.None? && c.total >= limit.value
  }

  /** The three rows one event may write. */
  datatype Rows = Rows(message: Message, agent: Option<Agent>, project: Project)

  predicate Suspends(r: Rows, ev: Event, limit: Option<nat>) {
    Delivers(r.message, ev) && ShouldBlock(Incremented(CounterOf(r.project)), limit)
  }

  function SettledAgent(a: Agent, m: Message, ev: Event): Agent {
    var stamped := if ProvesSend(m, ev) then Stamped(a, m.createdAt) else a;
    if Delivers(m, ev) then Credited(stamped) else stamped
  }

  function SettledProject(p: Project, m: Message, ev: Event, now: Time, limit: Option<nat>): Project {
    if !Delivers(m, ev) then p
    else
      var c := Incremented(CounterOf(p));
      if ShouldBlock(c, limit) then Project(true, Some(c.(blockedAt := Some(now))))
      else p.(counter := Some(c))
  }

  /** What one event does to its rows when it runs alone. */
  function Settle(r: Rows, ev: Event, now: Time, limit: Option<nat>): Rows {
    Rows(
      Transitioned(Linked(r.message, ev), ev),
      if r.agent.Some? then Some(SettledAgent(r.agent.value, r.message, ev)) else None,
      SettledProject(r.project, r.message, ev, now, limit))
  }
}

/** What one event writes, column by column. */
module BroadcastColumns {
  import opened Common
  import opened BroadcastStatus
  import opened BroadcastRows

  /** An accepted status shows on the row and keeps the one it replaced; a failure brings its detail;
      nothing else changes but the history. */
  lemma TransitionWrites(m: Message, ev: Event)
    ensures var m' := Transitioned(m, ev);
            var accepted := ev.status.Some? && m'.status == ev.status.value;
            && m'.status == (if ev.status.Some? then Next(m.status, ev.status.value) else m.status)
            && m'.previousStatus == (if accepted then Some(m.status) else m.previousStatus)
            && (accepted && ev.status.value in {Errored, Failed} ==>
                  m'.errorMessage != "" && (ev.detail != "" ==> m'.errorMessage == ev.detail))
            && (!(accepted && ev.status.value in {Errored, Failed}) ==> m'.errorMessage == m.errorMessage)
            && m'.log == (if ev.status.Some? then m.log + [ev.status.value] else m.log)
            && m' == m.(status := m'.status, previousStatus := m'.previousStatus,
                        errorMessage := m'.errorMessage, log := m'.log)
  {
  }

  /** The row moved to DELIVERED from another status. */
  predicate BecameDelivered(m: Message, m': Message, ev: Event) {
    ev.status == Some(Delivered) && m.status != Delivered && m'.status == Delivered
  }

  /** The agent is stamped with the dispatch time when it had no stamp and SENT, DELIVERED or READ
      was accepted, and credited when the row became delivered. */
  lemma AgentWrites(r: Rows, ev: Event, now: Time, limit: Option<nat>)
    requires r.agent.Some?
    ensures var after := Settle(r, ev, now, limit);
            var proves := ev.status.Some? && ev.status.value in {Sent, Delivered, Read}
                          && after.message.status == ev.status.value;
            && after.agent.Some? && after.agent.value.project == r.agent.value.project
            && after.agent.value.firstSentAt == (if r.agent.value.firstSentAt.None? && proves
                                                 then Some(r.message.createdAt) else r.agent.value.firstSentAt)
            && after.agent.value.delivered == r.agent.value.delivered
               + if BecameDelivered(r.message, after.message, ev) then 1 else 0
  {
  }

  /** The counter gains one when the row became delivered; the project is marked, blocked and to be
      suspended when that gain found no mark and reached a positive limit, and at no other time. */
  lemma ProjectWrites(r: Rows, ev: Event, now: Time, limit: Option<nat>)
    ensures var after := Settle(r, ev, now, limit);
            var before, c := CounterOf(r.project), CounterOf(after.project);
            var counted := BecameDelivered(r.message, after.message, ev);
            var blocks := counted && before.blockedAt.None? && limit.Some? && 0 < limit.value <= before.total + 1;
            && c.total == before.total + (if counted then 1 else 0)
            && c.blockedAt == (if blocks then Some(now) else before.blockedAt)
            && after.project.isBlocked == (r.project.isBlocked || blocks)
            && (Suspends(r, ev, limit) <==> blocks)
            && (!counted ==> after.project == r.project)
  {
  }

  /** Without a limit, or with limit zero, no counter asks for a block. */
  lemma NoLimitNoBlock(c: Counter)
    ensures !ShouldBlock(c, None) && !ShouldBlock(c, Some(0))
  {
  }
}

/** The tracking tables as a whole: their consistency and what every event keeps. */
module BroadcastTables {
  import opened Common
  import opened BroadcastStatus
  import opened BroadcastRows

  datatype Db = Db(projects: seq<Project>, agents: seq<Agent>, messages: seq<Message>)

  // ---------------------------------------------------------------- measures

  function DeliveredOf(m: Message): nat {
    Deliveries(m.initial, m.log)
  }

  function DeliveredIn(p: nat): Message -> int {
    (m: Message) => if m.project == p then DeliveredOf(m) else 0
  }

  function DeliveredBy(a: nat): Message -> int {
    (m: Message) => if m.agent == Some(a) then DeliveredOf(m) else 0
  }

  function TotalDelivered(p: Project): nat {
    CounterOf(p).total
  }

  predicate IsMarkedBlocked(p: Project) {
    CounterOf(p).blockedAt.Some?
  }

  /** Has this message an accepted SENT, DELIVERED or READ event? */
  predicate SendProven(m: Message) {
    SuccessAccepted(m.initial, m.log)
  }

  // ---------------------------------------------------------------- consistency

  ghost predicate WellLinked(db: Db) {
    forall i :: 0 <= i < |db.messages| ==>
      && db.messages[i].project < |db.projects|
      && (db.messages[i].agent.Some? ==>
            && db.messages[i].agent.value < |db.agents|
            && db.agents[db.messages[i].agent.value].project == db.messages[i].project)
  }

  /** The two partial unique constraints of the message table. */
  ghost predicate UniqueIds(db: Db) {
    forall i, j :: 0 <= i < j < |db.messages| ==>
      && (db.messages[i].broadcastId.Some? ==> db.messages[i].broadcastId != db.messages[j].broadcastId)
      && (db.messages[i].externalId.Some? ==> db.messages[i].externalId != db.messages[j].externalId)
  }

  /** The status column is exactly what the applied events make of the initial status, and a
      failed row says why. */
  predicate Explained(m: Message) {
    && m.status == Final(m.initial, m.log)
    && (IsFailure(m.status) ==> m.errorMessage != "")
  }

  ghost predicate StatusesExplained(db: Db) {
    forall i :: 0 <= i < |db.messages| ==> Explained(db.messages[i])
  }

  ghost predicate TotalsExact(db: Db) {
    && (forall p :: 0 <= p < |db.projects| ==> TotalDelivered(db.projects[p]) == Sum(db.messages, DeliveredIn(p)))
    && (forall a :: 0 <= a < |db.agents| ==> db.agents[a].delivered == Sum(db.messages, DeliveredBy(a)))
  }

  predicate StampFrom(m: Message, a: nat, t: Time) {
    m.agent == Some(a) && m.createdAt == t && SendProven(m)
  }

  predicate AgentStamped(db: Db, m: Message) {
    m.agent.Some? && m.agent.value < |db.agents| ==> db.agents[m.agent.value].firstSentAt.Some?
  }

  /** A stamp is the dispatch time of one of the agent's own proven messages, and an agent with
      such a message has one. */
  ghost predicate StampsExplained(db: Db) {
    && (forall a :: 0 <= a < |db.agents| && db.agents[a].firstSentAt.Some? ==>
          exists i :: 0 <= i < |db.messages| && StampFrom(db.messages[i], a, db.agents[a].firstSentAt.value))
    && (forall i :: 0 <= i < |db.messages| && SendProven(db.messages[i]) ==> AgentStamped(db, db.messages[i]))
  }

  ghost predicate BlocksMarked(db: Db) {
    forall p :: 0 <= p < |db.projects| && IsMarkedBlocked(db.projects[p]) ==> db.projects[p].isBlocked
  }

  ghost predicate Consistent(db: Db) {
    && WellLinked(db) && UniqueIds(db) && StatusesExplained(db)
    && TotalsExact(db) && StampsExplained(db) && BlocksMarked(db)
  }

  // ---------------------------------------------------------------- one event on the tables

  ghost function RowsAt(db: Db, i: nat): Rows
    requires WellLinked(db) && i < |db.messages|
  {
    var m := db.messages[i];
    Rows(m, if m.agent.Some? then Some(db.agents[m.agent.value]) else None, db.projects[m.project])
  }

  ghost function WithRows(db: Db, i: nat, r: Rows): Db
    requires WellLinked(db) && i < |db.messages|
  {
    var m := db.messages[i];
    Db(db.projects[m.project := r.project],
       if m.agent.Some? && r.agent.Some? then db.agents[m.agent.value := r.agent.value] else db.agents,
       db.messages[i := r.message])
  }

  /** No other row carries the message id this event would store. */
  ghost predicate LinkAllowed(db: Db, i: nat, ev: Event) {
    ev.SendEvent? ==>
      forall j :: 0 <= j < |db.messages| && j != i ==> db.messages[j].externalId != Some(ev.messageId)
  }

  ghost function Deliver(db: Db, i: nat, ev: Event, now: Time, limit: Option<nat>): Db
    requires WellLinked(db) && i < |db.messages|
  {
    WithRows(db, i, Settle(RowsAt(db, i), ev, now, limit))
  }

  // ---------------------------------------------------------------- looking rows up

  /** An event finds at most one row. */
  lemma AtMostOneTarget(db: Db, ev: Event, i: nat, j: nat)
    requires UniqueIds(db) && i < |db.messages| && j < |db.messages|
    requires Targets(ev, db.messages[i]) && Targets(ev, db.messages[j])
    ensures i == j
  {
  }

  /** The send event of a broadcast id finds the row dispatched with it, and the status events of its
      message id then find the same row; events without a message id find nothing. */
  lemma LinkedRowIsFound(db: Db, i: nat, id: nat, messageId: string, ev: Event, later: Event, now: Time,
                         limit: Option<nat>)
    requires WellLinked(db) && i < |db.messages| && db.messages[i].broadcastId == Some(id)
    requires ev.SendEvent? && ev.broadcastId == Some(id) && ev.messageId == messageId
    requires later.StatusEvent? && later.messageId == messageId
    ensures Targets(ev, db.messages[i]) <==> messageId != ""
    ensures Targets(later, Deliver(db, i, ev, now, limit).messages[i]) <==> messageId != ""
  {
  }

  lemma TransitionedHistory(m: Message, ev: Event)
    requires Explained(m)
    ensures var m' := Transitioned(Linked(m, ev), ev);
            && Explained(m')
            && DeliveredOf(m') == DeliveredOf(m) + (if Delivers(m, ev) then 1 else 0)
            && (SendProven(m') <==> SendProven(m) || ProvesSend(m, ev))
  {
    var m' := Transitioned(Linked(m, ev), ev);
    if ev.status.Some? {
      assert m'.log[..|m'.log| - 1] == m.log;
    }
  }

  lemma DeliverMovesProjectTotal(db: Db, i: nat, ev: Event, now: Time, limit: Option<nat>, p: nat)
    requires WellLinked(db) && i < |db.messages| && Explained(db.messages[i]) && p < |db.projects|
    requires TotalDelivered(db.projects[p]) == Sum(db.messages, DeliveredIn(p))
    ensures var db' := Deliver(db, i, ev, now, limit);
            TotalDelivered(db'.projects[p]) == Sum(db'.messages, DeliveredIn(p))
  {
    TransitionedHistory(db.messages[i], ev);
    SumUpdate(db.messages, i, Transitioned(Linked(db.messages[i], ev), ev), DeliveredIn(p));
  }

  /** One event adds one to exactly the agent of a row it delivers. */
  lemma DeliverCredits(db: Db, i: nat, ev: Event, now: Time, limit: Option<nat>, a: nat)
    requires WellLinked(db) && i < |db.messages| && a < |db.agents|
    ensures var m := db.messages[i];
            Deliver(db, i, ev, now, limit).agents[a].delivered
            == db.agents[a].delivered + if m.agent == Some(a) && Delivers(m, ev) then 1 else 0
  {
  }

  lemma DeliverMovesAgentTotal(db: Db, i: nat, ev: Event, now: Time, limit: Option<nat>, a: nat)
    requires WellLinked(db) && i < |db.messages| && Explained(db.messages[i]) && a < |db.agents|
    requires db.agents[a].delivered == Sum(db.messages, DeliveredBy(a))
    ensures var db' := Deliver(db, i, ev, now, limit);
            db'.agents[a].delivered == Sum(db'.messages, DeliveredBy(a))
  {
    TransitionedHistory(db.messages[i], ev);
    DeliverCredits(db, i, ev, now, limit, a);
    SumUpdate(db.messages, i, Transitioned(Linked(db.messages[i], ev), ev), DeliveredBy(a));
  }

  lemma DeliverKeepsTotals(db: Db, i: nat, ev: Event, now: Time, limit: Option<nat>)
    requires WellLinked(db) && StatusesExplained(db) && TotalsExact(db) && i < |db.messages|
    ensures TotalsExact(Deliver(db, i, ev, now, limit))
  {
    var db' := Deliver(db, i, ev, now, limit);
    assert Explained(db.messages[i]);
    forall p | 0 <= p < |db'.projects|
      ensures TotalDelivered(db'.projects[p]) == Sum(db'.messages, DeliveredIn(p))
    {
      DeliverMovesProjectTotal(db, i, ev, now, limit, p);
    }
    forall a | 0 <= a < |db'.agents|
      ensures db'.agents[a].delivered == Sum(db'.messages, DeliveredBy(a))
    {
      DeliverMovesAgentTotal(db, i, ev, now, limit, a);
    }
  }

  lemma DeliverKeepsStampSource(db: Db, i: nat, ev: Event, now: Time, limit: Option<nat>, a: nat)
    requires WellLinked(db) && i < |db.messages| && Explained(db.messages[i]) && StampsExplained(db) && a < |db.agents|
    requires Deliver(db, i, ev, now, limit).agents[a].firstSentAt.Some?
    ensures var db' := Deliver(db, i, ev, now, limit);
            exists j :: 0 <= j < |db'.messages| && StampFrom(db'.messages[j], a, db'.agents[a].firstSentAt.value)
  {
    var db' := Deliver(db, i, ev, now, limit);
    TransitionedHistory(db.messages[i], ev);
    if db.agents[a].firstSentAt.Some? {
      var j :| 0 <= j < |db.messages| && StampFrom(db.messages[j], a, db.agents[a].firstSentAt.value);
      assert StampFrom(db'.messages[j], a, db'.agents[a].firstSentAt.value);
    } else {
      assert StampFrom(db'.messages[i], a, db'.agents[a].firstSentAt.value);
    }
  }

  /** Another row's proof still finds its agent stamped: a stamp is never cleared. */
  lemma DeliverKeepsOtherStamped(db: Db, i: nat, ev: Event, now: Time, limit: Option<nat>, j: nat)
    requires WellLinked(db) && i < |db.messages| && j < |db.messages| && j != i
    requires AgentStamped(db, db.messages[j])
    ensures AgentStamped(Deliver(db, i, ev, now, limit), db.messages[j])
  {
  }

  /** The row's own proof, old or new, finds its agent stamped. */
  lemma DeliverStampsOwn(db: Db, i: nat, ev: Event, now: Time, limit: Option<nat>)
    requires WellLinked(db) && i < |db.messages|
    requires AgentStamped(db, db.messages[i]) || ProvesSend(db.messages[i], ev)
    ensures AgentStamped(Deliver(db, i, ev, now, limit), db.messages[i])
  {
  }

  lemma DeliverKeepsStamped(db: Db, i: nat, ev: Event, now: Time, limit: Option<nat>, j: nat)
    requires WellLinked(db) && i < |db.messages| && Explained(db.messages[i]) && j < |db.messages|
    requires SendProven(db.messages[j]) ==> AgentStamped(db, db.messages[j])
    ensures var db' := Deliver(db, i, ev, now, limit);
            SendProven(db'.messages[j]) ==> AgentStamped(db', db'.messages[j])
  {
    var db' := Deliver(db, i, ev, now, limit);
    if SendProven(db'.messages[j]) {
      if j == i {
        TransitionedHistory(db.messages[i], ev);
        DeliverStampsOwn(db, i, ev, now, limit);
      } else {
        DeliverKeepsOtherStamped(db, i, ev, now, limit, j);
      }
    }
  }

  lemma DeliverKeepsStamps(db: Db, i: nat, ev: Event, now: Time, limit: Option<nat>)
    requires WellLinked(db) && StatusesExplained(db) && StampsExplained(db) && i < |db.messages|
    ensures StampsExplained(Deliver(db, i, ev, now, limit))
  {
    var db' := Deliver(db, i, ev, now, limit);
    assert Explained(db.messages[i]);
    forall a | 0 <= a < |db'.agents| && db'.agents[a].firstSentAt.Some?
      ensures exists j :: 0 <= j < |db'.messages| && StampFrom(db'.messages[j], a, db'.agents[a].firstSentAt.value)
    {
      DeliverKeepsStampSource(db, i, ev, now, limit, a);
    }
    forall j | 0 <= j < |db'.messages| && SendProven(db'.messages[j]) ensures AgentStamped(db', db'.messages[j]) {
      DeliverKeepsStamped(db, i, ev, now, limit, j);
    }
  }

  lemma DeliverKeepsUniqueIds(db: Db, i: nat, ev: Event, now: Time, limit: Option<nat>)
    requires WellLinked(db) && UniqueIds(db) && i < |db.messages| && LinkAllowed(db, i, ev)
    ensures UniqueIds(Deliver(db, i, ev, now, limit))
  {
    var db' := Deliver(db, i, ev, now, limit);
    assert forall j :: 0 <= j < |db.messages| && j != i ==> db'.messages[j] == db.messages[j];
    assert db'.messages[i].broadcastId == db.messages[i].broadcastId;
  }

  lemma DeliverKeepsRows(db: Db, i: nat, ev: Event, now: Time, limit: Option<nat>)
    requires WellLinked(db) && StatusesExplained(db) && i < |db.messages|
    ensures var db' := Deliver(db, i, ev, now, limit); WellLinked(db') && StatusesExplained(db')
  {
    TransitionedHistory(db.messages[i], ev);
    var db' := Deliver(db, i, ev, now, limit);
    forall j | 0 <= j < |db'.messages| ensures Explained(db'.messages[j]) {
      assert Explained(db.messages[j]);
    }
  }

  lemma DeliverKeepsBlocks(db: Db, i: nat, ev: Event, now: Time, limit: Option<nat>)
    requires WellLinked(db) && BlocksMarked(db) && i < |db.messages|
    ensures BlocksMarked(Deliver(db, i, ev, now, limit))
  {
    var p := db.messages[i].project;
    assert IsMarkedBlocked(db.projects[p]) ==> db.projects[p].isBlocked;
  }

  /** Every event keeps the tables consistent. */
  lemma DeliverKeepsConsistent(db: Db, i: nat, ev: Event, now: Time, limit: Option<nat>)
    requires Consistent(db) && i < |db.messages| && LinkAllowed(db, i, ev)
    ensures Consistent(Deliver(db, i, ev, now, limit))
  {
    DeliverKeepsTotals(db, i, ev, now, limit);
    DeliverKeepsStamps(db, i, ev, now, limit);
    DeliverKeepsUniqueIds(db, i, ev, now, limit);
    DeliverKeepsRows(db, i, ev, now, limit);
    DeliverKeepsBlocks(db, i, ev, now, limit);
  }

  // ---------------------------------------------------------------- dispatch

  /** A dispatch outcome: the id Flows returned, its mapped status, and the error of a failed call. */
  datatype Dispatch = Dispatch(agent: nat, broadcastId: Option<nat>, flowsStatus: Option<Status>,
                               callError: string, flowsError: string, createdAt: Time, origin: Origin)

  function InitialStatus(d: Dispatch): Status {
    if d.callError != "" || d.broadcastId.None? then Failed else d.flowsStatus.GetOr(Queued)
  }

  function InitialError(d: Dispatch): string {
    if d.callError != "" then d.callError
    else if d.broadcastId.None? then "Flows response missing broadcast_id"
    else if d.flowsStatus == Some(Failed) then
      if d.flowsError != "" then d.flowsError else "Flows reported status=failed without error detail"
    else ""
  }

  /** The statuses the Flows response can be mapped to. */
  predicate FromFlows(d: Dispatch) {
    d.flowsStatus.Some? ==> d.flowsStatus.value in {Queued, Sent, Failed, Unknown}
  }

  /** Every dispatch that cannot be linked to courier events is FAILED, and exactly the FAILED rows
      carry an error. */
  lemma InitialStatusExplained(d: Dispatch)
    ensures d.callError != "" || d.broadcastId.None? ==> InitialStatus(d) == Failed
    ensures d.callError == "" && d.broadcastId.Some? && d.flowsStatus.Some? ==> InitialStatus(d) == d.flowsStatus.value
    ensures d.callError == "" && d.broadcastId.Some? && d.flowsStatus.None? ==> InitialStatus(d) == Queued
    ensures d.callError != "" ==> InitialError(d) == d.callError
    ensures d.callError == "" && d.broadcastId.Some? && d.flowsStatus == Some(Failed) && d.flowsError != "" ==>
              InitialError(d) == d.flowsError
    ensures InitialStatus(d) == Failed <==> InitialError(d) != ""
    ensures FromFlows(d) <==> d.flowsStatus in {None, Some(Queued), Some(Sent), Some(Failed), Some(Unknown)}
    ensures FromFlows(d) ==> InitialStatus(d) in {Queued, Sent, Failed, Unknown} && !Reached(InitialStatus(d))
  {
  }

  /** The row inserted right after a dispatch attempt: its project is the agent's. */
  function NewMessage(db: Db, d: Dispatch): Message
    requires d.agent < |db.agents|
  {
    Message(db.agents[d.agent].project, Some(d.agent), d.broadcastId, None, d.createdAt, d.origin,
            InitialStatus(d), None, InitialError(d), InitialStatus(d), [])
  }

  /** The unique constraint on the broadcast id. */
  ghost predicate InsertAllowed(db: Db, d: Dispatch) {
    d.broadcastId.Some? ==> forall j :: 0 <= j < |db.messages| ==> db.messages[j].broadcastId != d.broadcastId
  }

  ghost function Record(db: Db, d: Dispatch): Db
    requires d.agent < |db.agents|
  {
    if InsertAllowed(db, d) then db.(messages := db.messages + [NewMessage(db, d)]) else db
  }

  ghost predicate AgentsLinked(db: Db) {
    forall a :: 0 <= a < |db.agents| ==> db.agents[a].project < |db.projects|
  }

  lemma RecordKeepsTotals(db: Db, d: Dispatch)
    requires TotalsExact(db) && d.agent < |db.agents|
    ensures TotalsExact(Record(db, d))
  {
    if InsertAllowed(db, d) {
      var m := NewMessage(db, d);
      forall p | 0 <= p < |db.projects|
        ensures Sum(db.messages + [m], DeliveredIn(p)) == Sum(db.messages, DeliveredIn(p))
      {
        SumAppend(db.messages, m, DeliveredIn(p));
      }
      forall a | 0 <= a < |db.agents|
        ensures Sum(db.messages + [m], DeliveredBy(a)) == Sum(db.messages, DeliveredBy(a))
      {
        SumAppend(db.messages, m, DeliveredBy(a));
      }
    }
  }

  lemma RecordKeepsStamps(db: Db, d: Dispatch)
    requires StampsExplained(db) && d.agent < |db.agents|
    ensures StampsExplained(Record(db, d))
  {
    var db' := Record(db, d);
    forall a | 0 <= a < |db'.agents| && db'.agents[a].firstSentAt.Some?
      ensures exists j :: 0 <= j < |db'.messages| && StampFrom(db'.messages[j], a, db'.agents[a].firstSentAt.value)
    {
      var j :| 0 <= j < |db.messages| && StampFrom(db.messages[j], a, db.agents[a].firstSentAt.value);
      assert db'.messages[j] == db.messages[j];
    }
    forall j | 0 <= j < |db'.messages| && SendProven(db'.messages[j]) ensures AgentStamped(db', db'.messages[j]) {
      assert j < |db.messages| && db'.messages[j] == db.messages[j];
    }
  }

  lemma RecordKeepsRows(db: Db, d: Dispatch)
    requires WellLinked(db) && UniqueIds(db) && StatusesExplained(db)
    requires AgentsLinked(db) && d.agent < |db.agents| && FromFlows(d)
    ensures WellLinked(Record(db, d)) && UniqueIds(Record(db, d)) && StatusesExplained(Record(db, d))
  {
    var db' := Record(db, d);
    forall j | 0 <= j < |db'.messages| ensures Explained(db'.messages[j]) {
      if j < |db.messages| { assert Explained(db.messages[j]); }
    }
  }

  /** A dispatch row belongs to its agent's project and starts explained, so it keeps the tables so. */
  lemma RecordKeepsConsistent(db: Db, d: Dispatch)
    requires Consistent(db) && AgentsLinked(db) && d.agent < |db.agents| && FromFlows(d)
    ensures Consistent(Record(db, d))
  {
    RecordKeepsTotals(db, d);
    RecordKeepsStamps(db, d);
    RecordKeepsRows(db, d);
  }

  // ---------------------------------------------------------------- the summary report

  /** What the all-time summary counts for a project: rows now at DELIVERED or READ. */
  function ReachedIn(p: nat): Message -> int {
    (m: Message) => if m.project == p && Reached(m.status) then 1 else 0
  }

  function OffLadderIn(p: nat): Message -> int {
    (m: Message) => if m.project == p then OffLadderCount(m.log) else 0
  }

  function ReachedOrOffLadderIn(p: nat): Message -> int {
    (m: Message) =>
      if m.project == p then (if Reached(m.status) then 1 else 0) + OffLadderCount(m.log) else 0
  }

  /** The counter never exceeds the summary by more than the off-ladder events of the project. */
  lemma TotalAgainstSummary(db: Db, p: nat)
    requires Consistent(db) && p < |db.projects|
    ensures TotalDelivered(db.projects[p])
            <= Sum(db.messages, ReachedIn(p)) + Sum(db.messages, OffLadderIn(p))
  {
    forall i | 0 <= i < |db.messages|
      ensures DeliveredIn(p)(db.messages[i]) <= ReachedOrOffLadderIn(p)(db.messages[i])
    {
      var m := db.messages[i];
      assert Explained(m);
      DeliveriesBound(m.initial, m.log);
    }
    SumMonotone(db.messages, DeliveredIn(p), ReachedOrOffLadderIn(p));
    SumAdd(db.messages, ReachedIn(p), OffLadderIn(p), ReachedOrOffLadderIn(p));
  }

  // ---------------------------------------------------------------- agents against projects

  /** Deliveries credited to the first `n` agents, those of project `p` only. */
  ghost function AgentTotal(db: Db, p: nat, n: nat): nat
    requires n <= |db.agents|
  {
    if n == 0 then 0
    else AgentTotal(db, p, n - 1) + if db.agents[n - 1].project == p then db.agents[n - 1].delivered else 0
  }

  function DeliveredByFirst(p: nat, n: nat): Message -> int {
    (m: Message) => if m.project == p && m.agent.Some? && m.agent.value < n then DeliveredOf(m) else 0
  }

  function Agentless(p: nat): Message -> int {
    (m: Message) => if m.project == p && m.agent.None? then DeliveredOf(m) else 0
  }

  lemma OneMoreAgent(db: Db, p: nat, a: nat)
    requires WellLinked(db) && a < |db.agents|
    ensures Sum(db.messages, DeliveredByFirst(p, a + 1))
            == Sum(db.messages, DeliveredByFirst(p, a))
               + if db.agents[a].project == p then Sum(db.messages, DeliveredBy(a)) else 0
  {
    if db.agents[a].project == p {
      SumAdd(db.messages, DeliveredByFirst(p, a), DeliveredBy(a), DeliveredByFirst(p, a + 1));
    } else {
      var nothing := (m: Message) => 0;
      SumZero(db.messages, nothing);
      SumAdd(db.messages, DeliveredByFirst(p, a), nothing, DeliveredByFirst(p, a + 1));
    }
  }

  lemma {:induction false} AgentTotalIsMessages(db: Db, p: nat, n: nat)
    requires WellLinked(db) && TotalsExact(db) && n <= |db.agents|
    ensures AgentTotal(db, p, n) == Sum(db.messages, DeliveredByFirst(p, n))
  {
    if n == 0 {
      SumZero(db.messages, DeliveredByFirst(p, 0));
    } else {
      AgentTotalIsMessages(db, p, n - 1);
      OneMoreAgent(db, p, n - 1);
    }
  }

  /** Per-agent counters of a project add up to its counter, agentless rows aside. */
  lemma AgentsAddUpToProject(db: Db, p: nat)
    requires Consistent(db) && p < |db.projects|
    ensures AgentTotal(db, p, |db.agents|) + Sum(db.messages, Agentless(p)) == TotalDelivered(db.projects[p])
  {
    AgentTotalIsMessages(db, p, |db.agents|);
    SumAdd(db.messages, DeliveredByFirst(p, |db.agents|), Agentless(p), DeliveredIn(p));
  }
}

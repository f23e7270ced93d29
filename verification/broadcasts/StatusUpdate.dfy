/** The status handler and the project limit guard as they update rows in place, proved against the
    functions of `BroadcastRows`, whose consequences `BroadcastTables` and `DeliveryMachine` state. */
module StatusUpdate {
  import opened Common
  import opened BroadcastStatus
  import opened BroadcastRows
  import opened BroadcastTables

  class AgentRow {
    const id: nat
    const project: ProjectRow
    var firstSentAt: Option<Time>
    var delivered: nat

    constructor (id: nat, project: ProjectRow)
      ensures this.id == id && this.project == project && View() == Agent(project.id, None, 0)
    {
      this.id, this.project := id, project;
      firstSentAt, delivered := None, 0;
    }

    function View(): Agent
      reads this
    {
      Agent(project.id, firstSentAt, delivered)
    }
  }

  class CounterRow {
    var total: nat
    var blockedAt: Option<Time>

    constructor ()
      ensures View() == Counter(0, None)
    {
      total, blockedAt := 0, None;
    }

    function View(): Counter
      reads this
    {
      Counter(total, blockedAt)
    }
  }

  class ProjectRow {
    const id: nat
    var isBlocked: bool
    var counter: CounterRow?

    constructor (id: nat)
      ensures this.id == id && View() == Project(false, None)
    {
      this.id := id;
      isBlocked, counter := false, null;
    }

    function View(): Project
      reads this, counter
    {
      Project(isBlocked, if counter == null then None else Some(counter.View()))
    }
  }

  class MessageRow {
    const project: ProjectRow
    const agent: AgentRow?
    const broadcastId: Option<nat>
    const createdAt: Time
    const origin: Origin
    var externalId: Option<string>
    var status: Status
    var previousStatus: Option<Status>
    var errorMessage: string
    ghost const initial: Status
    ghost var log: seq<Status>

    constructor (project: ProjectRow, agent: AgentRow?, broadcastId: Option<nat>, createdAt: Time,
                 origin: Origin, status: Status, errorMessage: string)
      ensures this.project == project && this.agent == agent
      ensures View() == Message(project.id, if agent == null then None else Some(agent.id), broadcastId, None,
                                createdAt, origin, status, None, errorMessage, status, [])
    {
      this.project, this.agent, this.broadcastId, this.createdAt := project, agent, broadcastId, createdAt;
      this.origin, this.status, this.errorMessage := origin, status, errorMessage;
      externalId, previousStatus := None, None;
      initial, log := status, [];
    }

    ghost function View(): Message
      reads this
    {
      Message(project.id, if agent == null then None else Some(agent.id), broadcastId, externalId, createdAt,
              origin, status, previousStatus, errorMessage, initial, log)
    }

    /** The three rows an event for this message may write. */
    ghost function RowsView(): Rows
      reads this, agent, project, project.counter
    {
      Rows(View(), if agent == null then None else Some(agent.View()), project.View())
    }
  }

  /** The message table; `RecordSent` inserts the row of one dispatch attempt. */
  class MessageTable {
    var rows: seq<MessageRow>

    constructor ()
      ensures rows == []
    {
      rows := [];
    }

    /** The new row belongs to the agent's own project and mirrors the dispatch outcome; a broadcast
        id that is already stored violates the unique constraint and inserts nothing. */
    method RecordSent(agent: AgentRow, d: Dispatch) returns (inserted: bool)
      requires d.agent == agent.id
      modifies this
      ensures inserted <==> d.broadcastId.None? || forall r :: r in old(rows) ==> r.broadcastId != d.broadcastId
      ensures !inserted ==> rows == old(rows)
      ensures inserted ==>
                && |rows| == |old(rows)| + 1 && rows[..|rows| - 1] == old(rows)
                && var row := rows[|rows| - 1];
                   && fresh(row) && row.agent == agent && row.project == agent.project
                   && row.View() == Message(agent.project.id, Some(agent.id), d.broadcastId, None, d.createdAt,
                                            d.origin, InitialStatus(d), None, InitialError(d), InitialStatus(d), [])
    {
      if d.broadcastId.Some? && exists r :: r in rows && r.broadcastId == d.broadcastId {
        return false;
      }
      var status, error := ResolveStatusAndError(d);
      var row := new MessageRow(agent.project, agent, d.broadcastId, d.createdAt, d.origin, status, error);
      rows := rows + [row];
      return true;
    }

    /** A failed call wins over a missing id, which wins over the mapped response status. */
    static method ResolveStatusAndError(d: Dispatch) returns (status: Status, error: string)
      ensures status == InitialStatus(d) && error == InitialError(d)
    {
      if d.callError != "" {
        return Failed, d.callError;
      }
      if d.broadcastId.None? {
        return Failed, "Flows response missing broadcast_id";
      }
      var mapped := d.flowsStatus.GetOr(Queued);
      if mapped == Failed {
        return mapped, if d.flowsError != "" then d.flowsError else "Flows reported status=failed without error detail";
      }
      return mapped, "";
    }
  }

  /** Blocks a project when its delivered counter reaches the limit; `requested` is the list of
      remote suspensions asked for. */
  class ProjectLimitGuard {
    var requested: seq<nat>

    constructor ()
      ensures requested == []
    {
      requested := [];
    }

    method ShouldBlock(counter: CounterRow, limit: Option<nat>) returns (block: bool)
      ensures block == BroadcastRows.ShouldBlock(counter.View(), limit)
      ensures block <==> limit.Some? && 0 < limit.value <= counter.total && counter.blockedAt.None?
    {
      if limit.None? || limit.value == 0 {
        return false;
      }
      var alreadyBlocked := counter.blockedAt.Some?;
      var reachedLimit := counter.total >= limit.value;
      return !alreadyBlocked && reachedLimit;
    }

    /** A project with no counter or already marked is left alone, and nothing is requested. */
    method TriggerBlock(project: ProjectRow, now: Time)
      modifies this, project`isBlocked, project.counter
      ensures old(project.counter == null || project.counter.blockedAt.Some?) ==>
                project.View() == old(project.View()) && requested == old(requested)
      ensures old(project.counter != null && project.counter.blockedAt.None?) ==>
                && project.View() == Project(true, Some(old(project.counter.View()).(blockedAt := Some(now))))
                && requested == old(requested) + [project.id]
    {
      var counter := project.counter;
      if counter == null {
        return;
      }
      if counter.blockedAt.Some? {
        return;
      }
      counter.blockedAt := Some(now);
      if !project.isBlocked {
        project.isBlocked := true;
      }
      requested := requested + [project.id];
    }
  }

  class StatusHandler {
    const guard: ProjectLimitGuard

    constructor (guard: ProjectLimitGuard)
      ensures this.guard == guard
    {
      this.guard := guard;
    }

    /** The stamp is written only over a NULL. */
    method RegisterFirstSuccessfulSend(agent: AgentRow, createdAt: Time)
      modifies agent`firstSentAt
      ensures agent.View() == Stamped(old(agent.View()), createdAt)
    {
      if agent.firstSentAt.None? {
        agent.firstSentAt := Some(createdAt);
      }
    }

    method IncrementCountersAndMaybeBlock(project: ProjectRow, agent: AgentRow?, now: Time, limit: Option<nat>)
      modifies project, project.counter, agent, guard
      ensures agent != null ==> agent.View() == Credited(old(agent.View()))
      ensures var c := Incremented(CounterOf(old(project.View())));
              if BroadcastRows.ShouldBlock(c, limit) then
                && project.View() == Project(true, Some(c.(blockedAt := Some(now))))
                && guard.requested == old(guard.requested) + [project.id]
              else
                && project.View() == Project(old(project.isBlocked), Some(c))
                && guard.requested == old(guard.requested)
    {
      if project.counter == null {
        project.counter := new CounterRow();
      }
      var counter := project.counter;
      counter.total := counter.total + 1;
      if agent != null {
        agent.delivered := agent.delivered + 1;
      }
      var block := guard.ShouldBlock(counter, limit);
      if block {
        guard.TriggerBlock(project, now);
      }
    }

    /** Save an accepted status on the row. */
    method SaveTransition(message: MessageRow, ev: Event)
      requires Accepts(message.View(), ev)
      modifies message
      ensures message.View() == Transitioned(old(message.View()), ev)
    {
      var newStatus := ev.status.value;
      message.previousStatus := Some(message.status);
      message.status := newStatus;
      if newStatus == Errored || newStatus == Failed {
        message.errorMessage := ErrorReason(ev.detail);
      }
      message.log := message.log + [newStatus];
    }

    /** Stamp and count after an accepted transition out of `previousStatus`. */
    method HandleSideEffects(message: MessageRow, previousStatus: Status, newStatus: Status, now: Time,
                             limit: Option<nat>)
      modifies message.agent, message.project, message.project.counter, guard
      ensures var delivery := newStatus == Delivered && previousStatus != Delivered;
              var c := Incremented(CounterOf(old(message.project.View())));
              var block := delivery && BroadcastRows.ShouldBlock(c, limit);
              && (message.agent != null ==>
                    var stamped := if IsSuccessfulSend(newStatus)
                                   then Stamped(old(message.agent.View()), message.createdAt)
                                   else old(message.agent.View());
                    message.agent.View() == if delivery then Credited(stamped) else stamped)
              && message.project.View() == (if !delivery then old(message.project.View())
                                            else if block then Project(true, Some(c.(blockedAt := Some(now))))
                                            else old(message.project.View()).(counter := Some(c)))
              && guard.requested == old(guard.requested) + if block then [message.project.id] else []
    {
      var agent := message.agent;
      if IsSuccessfulSend(newStatus) && agent != null && agent.firstSentAt.None? {
        RegisterFirstSuccessfulSend(agent, message.createdAt);
      }
      var isFirstDelivery := newStatus == Delivered && previousStatus != Delivered;
      if isFirstDelivery {
        IncrementCountersAndMaybeBlock(message.project, agent, now, limit);
      }
    }

    /** Persist an accepted status, then its consequences. */
    method AcceptTransition(message: MessageRow, ev: Event, now: Time, limit: Option<nat>)
      requires Accepts(message.View(), ev)
      modifies message, message.agent, message.project, message.project.counter, guard
      ensures message.View() == Transitioned(old(message.View()), ev)
      ensures message.agent != null ==>
                message.agent.View() == SettledAgent(old(message.agent.View()), old(message.View()), ev)
      ensures message.project.View() == SettledProject(old(message.project.View()), old(message.View()), ev, now, limit)
      ensures guard.requested == old(guard.requested)
              + if Suspends(old(message.RowsView()), ev, limit) then [message.project.id] else []
    {
      var previousStatus := message.status;
      SaveTransition(message, ev);
      HandleSideEffects(message, previousStatus, ev.status.value, now, limit);
    }

    /** Persist an accepted status and its consequences; an out-of-order one only joins the log. */
    method ApplyStatusTransition(message: MessageRow, ev: Event, now: Time, limit: Option<nat>)
      modifies message, message.agent, message.project, message.project.counter, guard
      ensures message.View() == Transitioned(old(message.View()), ev)
      ensures message.status == if ev.status.None? then old(message.status)
                                else Later(old(message.status), ev.status.value)
      ensures message.agent != null ==>
                message.agent.View() == SettledAgent(old(message.agent.View()), old(message.View()), ev)
      ensures message.project.View() == SettledProject(old(message.project.View()), old(message.View()), ev, now, limit)
      ensures guard.requested == old(guard.requested)
              + if Suspends(old(message.RowsView()), ev, limit) then [message.project.id] else []
    {
      if ev.status.None? {
        return;
      }
      var newStatus := ev.status.value;
      var previousStatus := message.status;
      NextIsLater(previousStatus, newStatus);
      if IsOutOfOrder(previousStatus, newStatus) {
        message.log := message.log + [newStatus];
        return;
      }
      AcceptTransition(message, ev, now, limit);
    }

    /** The template-send entry point. `message` is the row the broadcast id looks up, if any, and
        `taken` the external ids other rows carry: storing one of them violates the unique
        constraint and rolls everything back. */
    method LinkSendEvent(message: MessageRow?, ev: Event, taken: set<string>, now: Time, limit: Option<nat>)
      returns (committed: bool)
      requires ev.SendEvent?
      requires message != null ==> ev.broadcastId.Some? && message.broadcastId == ev.broadcastId
      modifies message, if message != null then {message.agent, message.project, message.project.counter, guard} else {}
      ensures committed <==> !(message != null && ev.messageId != "" && ev.messageId in taken)
      ensures message != null && committed && ev.messageId != "" ==>
                && message.RowsView() == Settle(old(message.RowsView()), ev, now, limit)
                && guard.requested == old(guard.requested)
                   + if Suspends(old(message.RowsView()), ev, limit) then [message.project.id] else []
      ensures message != null && !(committed && ev.messageId != "") ==>
                message.RowsView() == old(message.RowsView()) && guard.requested == old(guard.requested)
    {
      if ev.broadcastId.None? || ev.messageId == "" || message == null {
        return true;
      }
      if ev.messageId in taken {
        return false;
      }
      message.externalId := Some(ev.messageId);
      if ev.status.Some? {
        ApplyStatusTransition(message, ev, now, limit);
      }
      return true;
    }

    /** The template-status entry point: `message` is the row the message id looks up, if any. */
    method ApplyStatusEvent(message: MessageRow?, ev: Event, now: Time, limit: Option<nat>)
      requires ev.StatusEvent?
      requires message != null ==> ev.messageId != "" && message.externalId == Some(ev.messageId)
      modifies message, if message != null then {message.agent, message.project, message.project.counter, guard} else {}
      ensures message != null ==>
                && message.RowsView() == Settle(old(message.RowsView()), ev, now, limit)
                && guard.requested == old(guard.requested)
                   + if Suspends(old(message.RowsView()), ev, limit) then [message.project.id] else []
    {
      if ev.messageId == "" || message == null {
        return;
      }
      ApplyStatusTransition(message, ev, now, limit);
    }
  }
}

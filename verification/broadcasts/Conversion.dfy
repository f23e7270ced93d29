/** Attribution of invoiced orders to broadcasts: the last-touch rule and the write-once table. */
module Conversions {
  import opened Common
  import opened BroadcastRows
  import opened BroadcastStatus

  datatype Conversion = Conversion(
    project: nat, orderId: string, agent: Option<nat>, broadcast: Option<nat>,
    orderFormId: Option<string>, value: Option<int>, convertedAt: Time)

  /** What the order lookup returned; every field may be missing. */
  datatype Details = Details(orderFormId: Option<string>, value: Option<int>)

  /** An invoiced order of a project whose payment-recovery agent is `agent`. */
  datatype Invoice = Invoice(project: nat, agent: nat, orderId: string, details: Details)

  predicate NonEmpty(s: Option<string>) {
    s.Some? && s.value != ""
  }

  /** Errored, failed and unknown broadcasts earn no credit. */
  predicate Eligible(b: Message, v: Invoice) {
    && b.project == v.project && b.agent == Some(v.agent)
    && (b.origin.orderId == Some(v.orderId)
        || (NonEmpty(v.details.orderFormId) && b.origin.orderFormId == v.details.orderFormId))
    && !OffLadder(b.status)
  }

  /** `i` is an eligible broadcast and no eligible broadcast was created after it. */
  predicate IsLastTouch(broadcasts: seq<Message>, v: Invoice, i: nat) {
    && i < |broadcasts|
    && Eligible(broadcasts[i], v)
    && forall j :: 0 <= j < |broadcasts| && Eligible(broadcasts[j], v) ==>
         broadcasts[j].createdAt <= broadcasts[i].createdAt
  }

  /** Read off the message: dispatched by this agent of this project, not errored, failed or unknown,
      and about this order by its id or by its form id, an empty form id being none. */
  predicate Touches(b: Message, project: nat, agent: nat, orderId: string, orderFormId: Option<string>) {
    && b.project == project && b.agent == Some(agent)
    && b.status !in {Errored, Failed, Unknown}
    && (b.origin.orderId == Some(orderId)
        || (orderFormId.Some? && orderFormId.value != "" && b.origin.orderFormId == orderFormId))
  }

  /** No broadcast that touches the order is newer than `i`, which does. */
  predicate NewestTouch(broadcasts: seq<Message>, v: Invoice, i: nat) {
    && i < |broadcasts| && Touches(broadcasts[i], v.project, v.agent, v.orderId, v.details.orderFormId)
    && forall j :: 0 <= j < |broadcasts| && broadcasts[i].createdAt < broadcasts[j].createdAt ==>
         !Touches(broadcasts[j], v.project, v.agent, v.orderId, v.details.orderFormId)
  }

  predicate IsTouched(broadcasts: seq<Message>, v: Invoice) {
    exists i :: 0 <= i < |broadcasts| && Touches(broadcasts[i], v.project, v.agent, v.orderId, v.details.orderFormId)
  }

  /** The last-touch broadcast, or none when nothing is eligible. */
  function SelectLastTouch(broadcasts: seq<Message>, v: Invoice): (choice: Option<nat>)
    ensures choice.Some? ==> IsLastTouch(broadcasts, v, choice.value)
    ensures choice.None? ==> forall j :: 0 <= j < |broadcasts| ==> !Eligible(broadcasts[j], v)
    ensures if choice.Some? then NewestTouch(broadcasts, v, choice.value) else !IsTouched(broadcasts, v)
  {
    if broadcasts == [] then None
    else
      var n := |broadcasts| - 1;
      var before := SelectLastTouch(broadcasts[..n], v);
      assert forall j :: 0 <= j < n ==> broadcasts[..n][j] == broadcasts[j];
      if !Eligible(broadcasts[n], v) then before
      else if before.Some? && broadcasts[n].createdAt <= broadcasts[before.value].createdAt then before
      else Some(n)
  }

  predicate HasKey(rows: seq<Conversion>, project: nat, orderId: string) {
    exists i :: 0 <= i < |rows| && rows[i].project == project && rows[i].orderId == orderId
  }

  function NewConversion(b: Message, i: nat, v: Invoice, now: Time): Conversion {
    Conversion(v.project, v.orderId, b.agent, Some(i),
               if NonEmpty(b.origin.orderFormId) then b.origin.orderFormId else v.details.orderFormId,
               v.details.value, now)
  }

  /** The table after one invoiced event handled without interruption. */
  function Converted(rows: seq<Conversion>, broadcasts: seq<Message>, v: Invoice, now: Time): seq<Conversion> {
    var choice := SelectLastTouch(broadcasts, v);
    if v.orderId == "" || choice.None? || HasKey(rows, v.project, v.orderId) then rows
    else rows + [NewConversion(broadcasts[choice.value], choice.value, v, now)]
  }

  /** The row credits broadcast `i` of the list with the order, at the order's value. */
  predicate RowFor(c: Conversion, broadcasts: seq<Message>, v: Invoice, i: nat, now: Time) {
    && NewestTouch(broadcasts, v, i) && c.broadcast == Some(i)
    && c.project == v.project && c.orderId == v.orderId && c.agent == Some(v.agent)
    && c.value == v.details.value && c.convertedAt == now
    && (var own := broadcasts[i].origin.orderFormId;
        c.orderFormId == if own.Some? && own.value != "" then own else v.details.orderFormId)
  }

  /** A new order that some broadcast touches gains one row, crediting the newest; any other leaves the
      table as it was. */
  ghost predicate Attributed(rows: seq<Conversion>, after: seq<Conversion>, broadcasts: seq<Message>, v: Invoice,
                             now: Time)
  {
    var isNew := v.orderId != "" && forall c :: c in rows ==> c.project != v.project || c.orderId != v.orderId;
    if isNew && IsTouched(broadcasts, v) then
      |after| == |rows| + 1 && after[..|rows|] == rows && exists i :: RowFor(after[|rows|], broadcasts, v, i, now)
    else after == rows
  }

  lemma EligibleTouches(b: Message, v: Invoice)
    ensures Eligible(b, v) <==> Touches(b, v.project, v.agent, v.orderId, v.details.orderFormId)
  {
  }

  lemma HasKeyIff(rows: seq<Conversion>, project: nat, orderId: string)
    ensures HasKey(rows, project, orderId) <==> !forall c :: c in rows ==> c.project != project || c.orderId != orderId
  {
    if !forall c :: c in rows ==> c.project != project || c.orderId != orderId {
      var c :| c in rows && c.project == project && c.orderId == orderId;
    }
  }

  /** What attribution does to the table, over the fields of messages and rows. */
  lemma ConvertedIsAttributed(rows: seq<Conversion>, broadcasts: seq<Message>, v: Invoice, now: Time)
    ensures Attributed(rows, Converted(rows, broadcasts, v, now), broadcasts, v, now)
  {
    HasKeyIff(rows, v.project, v.orderId);
    var choice := SelectLastTouch(broadcasts, v);
    if choice.Some? {
      var row := NewConversion(broadcasts[choice.value], choice.value, v, now);
      assert RowFor(row, broadcasts, v, choice.value, now);
      assert (rows + [row])[|rows|] == row && (rows + [row])[..|rows|] == rows;
    }
  }

  class ConversionTable {
    var rows: seq<Conversion>

    constructor ()
      ensures rows == []
    {
      rows := [];
    }

    /** `project` and `agent` are the resolved project and payment-recovery agent, if any. */
    method Execute(orderId: string, project: Option<nat>, agent: Option<nat>, details: Details,
                   broadcasts: seq<Message>, now: Time)
      modifies this
      ensures rows == if project.None? || agent.None? then old(rows)
                      else Converted(old(rows), broadcasts, Invoice(project.value, agent.value, orderId, details), now)
      ensures project.Some? && agent.Some? ==>
                Attributed(old(rows), rows, broadcasts, Invoice(project.value, agent.value, orderId, details), now)
    {
      if project.Some? && agent.Some? {
        ConvertedIsAttributed(rows, broadcasts, Invoice(project.value, agent.value, orderId, details), now);
      }
      if orderId == "" || project.None? || agent.None? {
        return;
      }
      var v := Invoice(project.value, agent.value, orderId, details);
      var lastTouch := SelectLastTouch(broadcasts, v);
      if lastTouch.None? {
        return;
      }
      GetOrCreate(v, broadcasts[lastTouch.value], lastTouch.value, now);
    }

    method GetOrCreate(v: Invoice, b: Message, i: nat, now: Time)
      modifies this
      ensures rows == if HasKey(old(rows), v.project, v.orderId) then old(rows)
                      else old(rows) + [NewConversion(b, i, v, now)]
    {
      if HasKey(rows, v.project, v.orderId) {
        return;
      }
      rows := rows + [NewConversion(b, i, v, now)];
    }
  }

  // ---------------------------------------------------------------- interleaved invoices

  /** An invoice at work: broadcast chosen, then existing row looked for, then inserted. */
  datatype Job = Chosen(v: Invoice, choice: nat) | Missing(v: Invoice, choice: nat) | Closed

  datatype State = State(broadcasts: seq<Message>, rows: seq<Conversion>, jobs: seq<Job>)

  datatype Step =
    | Dispatch(b: Message)
    | Update(i: nat, ev: Event)
    | Select(v: Invoice, choice: nat)
    | Lookup(w: nat)
    | Insert(w: nat, now: Time)

  /** Rows of equal age are chosen arbitrarily, as the database does. */
  predicate Enabled(s: State, step: Step) {
    match step
    case Dispatch(_) => true
    case Update(i, _) => i < |s.broadcasts|
    case Select(v, choice) => v.orderId != "" && IsLastTouch(s.broadcasts, v, choice)
    case Lookup(w) => w < |s.jobs| && s.jobs[w].Chosen?
    case Insert(w, _) => w < |s.jobs| && s.jobs[w].Missing? && s.jobs[w].choice < |s.broadcasts|
  }

  /** The unique constraint turns a late insert into a lookup of the winning row. */
  function After(s: State, step: Step): State
    requires Enabled(s, step)
  {
    match step
    case Dispatch(b) => s.(broadcasts := s.broadcasts + [b])
    case Update(i, ev) => s.(broadcasts := s.broadcasts[i := Transitioned(Linked(s.broadcasts[i], ev), ev)])
    case Select(v, choice) => s.(jobs := s.jobs + [Chosen(v, choice)])
    case Lookup(w) =>
      var v := s.jobs[w].v;
      s.(jobs := s.jobs[w := if HasKey(s.rows, v.project, v.orderId) then Closed else Missing(v, s.jobs[w].choice)])
    case Insert(w, now) =>
      var v := s.jobs[w].v;
      var choice := s.jobs[w].choice;
      if HasKey(s.rows, v.project, v.orderId) then s.(jobs := s.jobs[w := Closed])
      else s.(rows := s.rows + [NewConversion(s.broadcasts[choice], choice, v, now)], jobs := s.jobs[w := Closed])
  }

  predicate UniqueOrders(rows: seq<Conversion>) {
    forall i, j :: 0 <= i < j < |rows| ==> rows[i].project != rows[j].project || rows[i].orderId != rows[j].orderId
  }

  ghost predicate IsRun(states: seq<State>, steps: seq<Step>) {
    && |states| == |steps| + 1
    && states[0].rows == [] && states[0].jobs == []
    && forall i :: 0 <= i < |steps| ==> Enabled(states[i], steps[i]) && states[i + 1] == After(states[i], steps[i])
  }

  /** In every interleaving there is at most one conversion per (project, order). */
  lemma {:induction false} OneConversionPerOrder(states: seq<State>, steps: seq<Step>, n: nat)
    requires IsRun(states, steps) && n < |states|
    ensures UniqueOrders(states[n].rows)
  {
    if n > 0 {
      OneConversionPerOrder(states, steps, n - 1);
      assert states[n] == After(states[n - 1], steps[n - 1]);
    }
  }

  /** Existing conversions never change and are never removed. */
  lemma {:induction false} ConversionsOnlyGrow(states: seq<State>, steps: seq<Step>, i: nat, j: nat)
    requires IsRun(states, steps) && i <= j < |states|
    ensures states[i].rows <= states[j].rows
    decreases j
  {
    if i < j {
      ConversionsOnlyGrow(states, steps, i, j - 1);
      assert states[j] == After(states[j - 1], steps[j - 1]);
    }
  }

  /** The choice was the last touch at step `k`. */
  predicate ChosenAt(states: seq<State>, steps: seq<Step>, k: nat, n: nat, v: Invoice, choice: nat)
    requires |states| == |steps| + 1
  {
    k < n < |states| && steps[k] == Select(v, choice) && IsLastTouch(states[k].broadcasts, v, choice)
  }

  predicate CreditedBy(c: Conversion, v: Invoice, choice: nat, origin: Origin) {
    && c.project == v.project && c.orderId == v.orderId
    && c.broadcast == Some(choice) && c.agent == Some(v.agent)
    && c.value == v.details.value
    && c.orderFormId == if NonEmpty(origin.orderFormId) then origin.orderFormId else v.details.orderFormId
  }

  ghost predicate JobJustified(states: seq<State>, steps: seq<Step>, n: nat, job: Job)
    requires |states| == |steps| + 1
  {
    !job.Closed? ==> exists k: nat :: ChosenAt(states, steps, k, n, job.v, job.choice)
  }

  ghost predicate JobsJustified(states: seq<State>, steps: seq<Step>, n: nat)
    requires |states| == |steps| + 1 && n < |states|
  {
    forall w :: 0 <= w < |states[n].jobs| ==> JobJustified(states, steps, n, states[n].jobs[w])
  }

  ghost predicate RowJustified(states: seq<State>, steps: seq<Step>, n: nat, c: Conversion)
    requires |states| == |steps| + 1
  {
    exists k: nat, v: Invoice, choice: nat ::
      ChosenAt(states, steps, k, n, v, choice) && CreditedBy(c, v, choice, states[k].broadcasts[choice].origin)
  }

  /** What attribution reads of a broadcast besides its status. */
  predicate SameDispatch(b: Message, b': Message) {
    b'.project == b.project && b'.agent == b.agent && b'.createdAt == b.createdAt && b'.origin == b.origin
  }

  lemma StepKeepsDispatches(s: State, step: Step, b: nat)
    requires Enabled(s, step) && b < |s.broadcasts|
    ensures b < |After(s, step).broadcasts| && SameDispatch(s.broadcasts[b], After(s, step).broadcasts[b])
  {
  }

  /** Broadcasts are never removed, and only their delivery status changes. */
  lemma {:induction false} BroadcastsKeepIdentity(states: seq<State>, steps: seq<Step>, i: nat, j: nat, b: nat)
    requires IsRun(states, steps) && i <= j < |states| && b < |states[i].broadcasts|
    ensures b < |states[j].broadcasts| && SameDispatch(states[i].broadcasts[b], states[j].broadcasts[b])
    decreases j
  {
    if i < j {
      BroadcastsKeepIdentity(states, steps, i, j - 1, b);
      StepKeepsDispatches(states[j - 1], steps[j - 1], b);
    }
  }

  /** Every conversion credits a broadcast that was, when its invoice was attributed, an eligible
      broadcast of the resolved agent with no newer eligible one. */
  lemma {:induction false} ConversionsAreLastTouch(states: seq<State>, steps: seq<Step>, n: nat)
    requires IsRun(states, steps) && n < |states|
    ensures JobsJustified(states, steps, n)
    ensures forall c :: 0 <= c < |states[n].rows| ==> RowJustified(states, steps, n, states[n].rows[c])
  {
    if n > 0 {
      var m := n - 1;
      ConversionsAreLastTouch(states, steps, m);
      assert states[n] == After(states[m], steps[m]);
      forall w | 0 <= w < |states[n].jobs| ensures JobJustified(states, steps, n, states[n].jobs[w]) {
        JobStaysJustified(states, steps, n, w);
      }
      forall c | 0 <= c < |states[n].rows| ensures RowJustified(states, steps, n, states[n].rows[c]) {
        if c < |states[m].rows| {
          var k: nat, v: Invoice, choice: nat :| ChosenAt(states, steps, k, m, v, choice)
                              && CreditedBy(states[m].rows[c], v, choice, states[k].broadcasts[choice].origin);
          assert ChosenAt(states, steps, k, n, v, choice);
        } else {
          InsertedRowJustified(states, steps, n);
        }
      }
    }
  }

  lemma JobStaysJustified(states: seq<State>, steps: seq<Step>, n: nat, w: nat)
    requires IsRun(states, steps) && 0 < n < |states| && w < |states[n].jobs|
    requires JobsJustified(states, steps, n - 1)
    ensures JobJustified(states, steps, n, states[n].jobs[w])
  {
    var m := n - 1;
    assert states[n] == After(states[m], steps[m]);
    var job := states[n].jobs[w];
    if !job.Closed? {
      if w < |states[m].jobs| {
        assert JobJustified(states, steps, m, states[m].jobs[w]);
        var k: nat :| ChosenAt(states, steps, k, m, job.v, job.choice);
        assert ChosenAt(states, steps, k, n, job.v, job.choice);
      } else {
        assert ChosenAt(states, steps, m, n, job.v, job.choice);
      }
    }
  }

  lemma InsertedRowJustified(states: seq<State>, steps: seq<Step>, n: nat)
    requires IsRun(states, steps) && 0 < n < |states| && |states[n - 1].rows| < |states[n].rows|
    requires JobsJustified(states, steps, n - 1)
    ensures RowJustified(states, steps, n, states[n].rows[|states[n].rows| - 1])
  {
    var m := n - 1;
    assert states[n] == After(states[m], steps[m]);
    var job := states[m].jobs[steps[m].w];
    assert JobJustified(states, steps, m, job);
    var k: nat :| ChosenAt(states, steps, k, m, job.v, job.choice);
    BroadcastsKeepIdentity(states, steps, k, m, job.choice);
    assert ChosenAt(states, steps, k, n, job.v, job.choice);
    assert CreditedBy(states[n].rows[|states[n].rows| - 1], job.v, job.choice, states[k].broadcasts[job.choice].origin);
  }

  /** The credited broadcast was sent by the credited agent of the row's project and is about the row's
      order, by its id or by the row's own form id. */
  predicate AboutOrder(c: Conversion, broadcasts: seq<Message>) {
    && c.broadcast.Some? && c.broadcast.value < |broadcasts|
    && var b := broadcasts[c.broadcast.value];
       && b.project == c.project && c.agent.Some? && b.agent == c.agent
       && (b.origin.orderId == Some(c.orderId)
           || (c.orderFormId.Some? && c.orderFormId.value != "" && b.origin.orderFormId == c.orderFormId))
  }

  /** Every conversion of every run is about its order. */
  lemma ConversionsAreAboutTheirOrder(states: seq<State>, steps: seq<Step>, n: nat, c: nat)
    requires IsRun(states, steps) && n < |states| && c < |states[n].rows|
    ensures AboutOrder(states[n].rows[c], states[n].broadcasts)
  {
    ConversionsAreLastTouch(states, steps, n);
    assert RowJustified(states, steps, n, states[n].rows[c]);
    var k: nat, v: Invoice, choice: nat :| ChosenAt(states, steps, k, n, v, choice)
                        && CreditedBy(states[n].rows[c], v, choice, states[k].broadcasts[choice].origin);
    EligibleTouches(states[k].broadcasts[choice], v);
    BroadcastsKeepIdentity(states, steps, k, n, choice);
  }

  // ---------------------------------------------------------------- attribution against insertion

  /** Broadcast `j` is now eligible and newer than the choice, and was not eligible then: it did not
      exist, or it was errored, failed or unknown. */
  predicate Overtakes(earlier: seq<Message>, now: seq<Message>, v: Invoice, choice: nat, j: nat) {
    && j < |now| && choice < |now| && Eligible(now[j], v) && now[choice].createdAt < now[j].createdAt
    && (j < |earlier| ==> OffLadder(earlier[j].status))
  }

  /** The last touch of one moment is the last touch of a later one exactly when it did not fail in
      between and no newer broadcast became eligible. */
  lemma StaysLastTouchIff(states: seq<State>, steps: seq<Step>, k: nat, m: nat, v: Invoice, choice: nat)
    requires IsRun(states, steps) && k <= m < |states|
    requires IsLastTouch(states[k].broadcasts, v, choice)
    ensures choice < |states[m].broadcasts|
    ensures IsLastTouch(states[m].broadcasts, v, choice) <==>
            !OffLadder(states[m].broadcasts[choice].status)
            && forall j: nat :: !Overtakes(states[k].broadcasts, states[m].broadcasts, v, choice, j)
  {
    var earlier, now := states[k].broadcasts, states[m].broadcasts;
    BroadcastsKeepIdentity(states, steps, k, m, choice);
    forall b: nat | b < |earlier| ensures b < |now| && SameDispatch(earlier[b], now[b]) {
      BroadcastsKeepIdentity(states, steps, k, m, b);
    }
    forall j: nat | j < |now| && Eligible(now[j], v)
      ensures now[j].createdAt > now[choice].createdAt <==> Overtakes(earlier, now, v, choice, j)
    {
      if j < |earlier| && !OffLadder(earlier[j].status) {
        assert SameDispatch(earlier[j], now[j]);
        assert Eligible(earlier[j], v);
      }
    }
  }

  /** So a conversion inserted at step `m` is the last touch of the state it is created in exactly when
      neither happened since the step `k` at which its invoice was attributed. */
  lemma InsertedIsLastTouchIff(states: seq<State>, steps: seq<Step>, m: nat) returns (k: nat, v: Invoice, choice: nat)
    requires IsRun(states, steps) && m < |steps| && |states[m].rows| < |states[m + 1].rows|
    ensures ChosenAt(states, steps, k, m, v, choice) && choice < |states[m].broadcasts|
    ensures states[m + 1].rows == states[m].rows + [states[m + 1].rows[|states[m].rows|]]
    ensures CreditedBy(states[m + 1].rows[|states[m].rows|], v, choice, states[m].broadcasts[choice].origin)
    ensures IsLastTouch(states[m].broadcasts, v, choice) <==>
            !OffLadder(states[m].broadcasts[choice].status)
            && forall j: nat :: !Overtakes(states[k].broadcasts, states[m].broadcasts, v, choice, j)
  {
    assert states[m + 1] == After(states[m], steps[m]);
    ConversionsAreLastTouch(states, steps, m);
    var job := states[m].jobs[steps[m].w];
    assert JobJustified(states, steps, m, job);
    k :| ChosenAt(states, steps, k, m, job.v, job.choice);
    v, choice := job.v, job.choice;
    BroadcastsKeepIdentity(states, steps, k, m, choice);
    StaysLastTouchIff(states, steps, k, m, v, choice);
  }

  /** A run of one invoice with one step between attribution and insertion. */
  lemma InterruptedRun(first: Message, v: Invoice, between: Step) returns (states: seq<State>, steps: seq<Step>)
    requires Eligible(first, v) && v.orderId != ""
    requires between.Dispatch? || (between.Update? && between.i == 0)
    ensures IsRun(states, steps) && steps == [Dispatch(first), Select(v, 0), Lookup(0), between, Insert(0, 3)]
    ensures states[4].broadcasts == if between.Dispatch? then [first, between.b]
                                    else [Transitioned(Linked(first, between.ev), between.ev)]
    ensures |states[5].rows| == 1 && states[5].rows[0].broadcast == Some(0)
  {
    var s0 := State([], [], []);
    var s1 := After(s0, Dispatch(first));
    assert s1.broadcasts == [first] && IsLastTouch(s1.broadcasts, v, 0);
    var s2 := After(s1, Select(v, 0));
    var s3 := After(s2, Lookup(0));
    var s4 := After(s3, between);
    var s5 := After(s4, Insert(0, 3));
    states := [s0, s1, s2, s3, s4, s5];
    steps := [Dispatch(first), Select(v, 0), Lookup(0), between, Insert(0, 3)];
  }

  /** Both ways of losing the last touch occur: a newer dispatch in between, and a failure of the
      credited broadcast in between. */
  lemma LastTouchMayBeLost(first: Message, v: Invoice, between: Step) returns (states: seq<State>, steps: seq<Step>)
    requires Eligible(first, v) && v.orderId != ""
    requires (between.Dispatch? && Eligible(between.b, v) && first.createdAt < between.b.createdAt)
             || (between.Update? && between.i == 0 && between.ev.status == Some(Failed))
    ensures IsRun(states, steps) && |steps| == 5 && steps[1] == Select(v, 0) && steps[3] == between && steps[4].Insert?
    ensures |states[5].rows| == 1 && states[5].rows[0].broadcast == Some(0)
    ensures !IsLastTouch(states[4].broadcasts, v, 0)
  {
    states, steps := InterruptedRun(first, v, between);
    if between.Dispatch? {
      assert states[4].broadcasts[1] == between.b;
    }
  }

  /** A job that runs from attribution to insertion without another step gives the same table as
      `Execute`, so its row is the last touch in the very state it is created in. */
  lemma UninterruptedJob(s: State, v: Invoice, now: Time)
    requires v.orderId != ""
    ensures var choice := SelectLastTouch(s.broadcasts, v);
            if choice.None? then Converted(s.rows, s.broadcasts, v, now) == s.rows
            else
              var s1 := After(s, Select(v, choice.value));
              var s2 := After(s1, Lookup(|s.jobs|));
              if s2.jobs[|s.jobs|].Closed? then Converted(s.rows, s.broadcasts, v, now) == s2.rows
              else After(s2, Insert(|s.jobs|, now)).rows == Converted(s.rows, s.broadcasts, v, now)
  {
  }
}

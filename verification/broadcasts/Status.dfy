/** The delivery-status ladder of a broadcast message and what an arbitrary stream of
    courier events does to one row: the final status and the deliveries that are counted. */
module BroadcastStatus {
  import opened Common

  datatype Status =
    | Initializing | Pending | Queued | Sent | Wired | Delivered | Read
    | Errored | Failed | Unknown

  /** Statuses accepted at any point of the lifecycle. */
  predicate OffLadder(s: Status) {
    s.Errored? || s.Failed? || s.Unknown?
  }

  /** Position in the forward lifecycle; `None` off the ladder. */
  function Rank(s: Status): Option<nat> {
    match s
    case Initializing => Some(10)
    case Pending => Some(20)
    case Queued => Some(30)
    case Sent => Some(40)
    case Wired => Some(50)
    case Delivered => Some(60)
    case Read => Some(70)
    case _ => None
  }

  /** The forward lifecycle, in order. */
  const LADDER: seq<Status> := [Initializing, Pending, Queued, Sent, Wired, Delivered, Read]

  predicate IsOutOfOrder(previous: Status, incoming: Status) {
    if OffLadder(incoming) then false
    else Rank(incoming).Some? && Rank(previous).Some? && Rank(incoming).value < Rank(previous).value
  }

  /** Statuses that prove the message left for the recipient. */
  predicate IsSuccessfulSend(s: Status) {
    s.Sent? || s.Delivered? || s.Read?
  }

  /** The statuses the summary report counts as delivered. */
  predicate Reached(s: Status) {
    s.Delivered? || s.Read?
  }

  function Next(previous: Status, incoming: Status): Status {
    if IsOutOfOrder(previous, incoming) then previous else incoming
  }

  /** An accepted DELIVERED event that finds the row in any other status is counted. */
  predicate IsFirstDelivery(previous: Status, incoming: Status) {
    !IsOutOfOrder(previous, incoming) && incoming.Delivered? && !previous.Delivered?
  }

  /** The status of a row created as `initial` after a list of events. */
  function Final(initial: Status, events: seq<Status>): Status {
    if events == [] then initial
    else Next(Final(initial, events[..|events| - 1]), events[|events| - 1])
  }

  /** How many of those events were counted as deliveries. */
  function Deliveries(initial: Status, events: seq<Status>): nat {
    if events == [] then 0
    else
      var before := events[..|events| - 1];
      Deliveries(initial, before)
      + if IsFirstDelivery(Final(initial, before), events[|events| - 1]) then 1 else 0
  }

  /** Was a SENT, DELIVERED or READ event accepted? */
  predicate SuccessAccepted(initial: Status, events: seq<Status>) {
    events != [] &&
    var before := events[..|events| - 1];
    var last := events[|events| - 1];
    SuccessAccepted(initial, before) || (IsSuccessfulSend(last) && !IsOutOfOrder(Final(initial, before), last))
  }

  function OffLadderCount(events: seq<Status>): nat {
    if events == [] then 0
    else OffLadderCount(events[..|events| - 1]) + if OffLadder(events[|events| - 1]) then 1 else 0
  }

  predicate LadderOnly(events: seq<Status>) {
    forall i :: 0 <= i < |events| ==> !OffLadder(events[i])
  }

  /** The position just after the last off-ladder event, or 0. */
  function LiveFrom(events: seq<Status>): (k: nat)
    ensures k <= |events|
  {
    if events == [] then 0
    else if OffLadder(events[|events| - 1]) then |events|
    else LiveFrom(events[..|events| - 1])
  }

  lemma {:induction false} LiveFromIsAfterLastOffLadder(events: seq<Status>)
    ensures LiveFrom(events) > 0 ==> OffLadder(events[LiveFrom(events) - 1])
    ensures forall i :: LiveFrom(events) <= i < |events| ==> !OffLadder(events[i])
  {
    if events != [] {
      var before := events[..|events| - 1];
      LiveFromIsAfterLastOffLadder(before);
      assert forall i :: 0 <= i < |before| ==> before[i] == events[i];
    }
  }

  // ---------------------------------------------------------------- final status

  /** `x` is carried by some event after the last off-ladder event. */
  ghost predicate Live(events: seq<Status>, x: Status) {
    exists i :: LiveFrom(events) <= i < |events| && events[i] == x
  }

  /** `x` competes for the final status: an event after the last off-ladder one, or the status
      the segment started from when that is ranked or when no event follows it. */
  ghost predicate Contends(initial: Status, events: seq<Status>, x: Status) {
    var k := LiveFrom(events);
    var start := if k == 0 then initial else events[k - 1];
    Live(events, x) || (x == start && (k == |events| || !OffLadder(start)))
  }

  /** `s` competes and outranks every other competitor. */
  ghost predicate HighestContender(s: Status, initial: Status, events: seq<Status>) {
    Contends(initial, events, s) &&
    forall x :: Contends(initial, events, x) && x != s ==> Outranks(s, x)
  }

  /** Where a status stands in the lifecycle; |LADDER| when off it. */
  function Place(s: Status): (i: nat)
    ensures i <= |LADDER|
    ensures i < |LADDER| ==> LADDER[i] == s
    ensures i == |LADDER| <==> OffLadder(s)
  {
    match s
    case Initializing => 0
    case Pending => 1
    case Queued => 2
    case Sent => 3
    case Wired => 4
    case Delivered => 5
    case Read => 6
    case _ => 7
  }

  /** `s` stands after `x` in the forward lifecycle. */
  predicate Outranks(s: Status, x: Status) {
    Place(x) < Place(s) < |LADDER|
  }

  lemma PlaceOf(i: nat)
    requires i < |LADDER|
    ensures Place(LADDER[i]) == i
  {
  }

  // ---------------------------------------------------------------- one event

  /** Between two lifecycle statuses the later one stands, whichever comes second. */
  lemma NextOnLadder(i: nat, j: nat)
    requires i < |LADDER| && j < |LADDER|
    ensures Next(LADDER[i], LADDER[j]) == LADDER[if i <= j then j else i]
    ensures IsOutOfOrder(LADDER[i], LADDER[j]) <==> j < i
  {
    PlaceOf(i);
    PlaceOf(j);
  }

  /** Errored, failed and unknown are accepted anywhere, and anything is accepted after them. */
  lemma NextOffLadder(previous: Status, incoming: Status)
    requires previous in {Errored, Failed, Unknown} || incoming in {Errored, Failed, Unknown}
    ensures Next(previous, incoming) == incoming && !IsOutOfOrder(previous, incoming)
  {
  }

  /** The later of two lifecycle statuses; the incoming one when either is off the lifecycle. */
  function Later(previous: Status, incoming: Status): Status {
    if previous in {Errored, Failed, Unknown} || incoming in {Errored, Failed, Unknown} then incoming
    else if Place(previous) <= Place(incoming) then incoming
    else previous
  }

  lemma NextIsLater(previous: Status, incoming: Status)
    ensures Next(previous, incoming) == Later(previous, incoming)
  {
  }

  lemma OffLadderExactly(s: Status)
    ensures OffLadder(s) <==> s in {Errored, Failed, Unknown}
    ensures OffLadder(s) <==> s !in LADDER
  {
    if !OffLadder(s) {
      assert s == LADDER[Place(s)];
    }
  }

  /** A status was accepted exactly when the row shows it right after: SENT, DELIVERED or READ prove
      the send then and only then. */
  lemma {:induction false} SuccessAcceptedIff(initial: Status, events: seq<Status>)
    ensures SuccessAccepted(initial, events) <==>
            exists k :: 0 <= k < |events| && AcceptedAt(initial, events, k) && events[k] in {Sent, Delivered, Read}
  {
    if events != [] {
      var n := |events| - 1;
      var before := events[..n];
      SuccessAcceptedIff(initial, before);
      assert events[..n + 1] == events;
      forall k | 0 <= k < n ensures AcceptedAt(initial, events, k) == AcceptedAt(initial, before, k) {
        assert before[..k + 1] == events[..k + 1];
      }
      LastAccepted(initial, events);
      if SuccessAccepted(initial, before) {
        var k :| 0 <= k < n && AcceptedAt(initial, before, k) && before[k] in {Sent, Delivered, Read};
        assert AcceptedAt(initial, events, k) && events[k] == before[k];
      }
      if k :| 0 <= k < n && AcceptedAt(initial, events, k) && events[k] in {Sent, Delivered, Read} {
        assert AcceptedAt(initial, before, k) && before[k] == events[k];
      }
    }
  }

  predicate AcceptedAt(initial: Status, events: seq<Status>, k: nat)
    requires k < |events|
  {
    Final(initial, events[..k + 1]) == events[k]
  }

  lemma LastAccepted(initial: Status, events: seq<Status>)
    requires events != []
    ensures var n := |events| - 1;
            AcceptedAt(initial, events, n) <==> !IsOutOfOrder(Final(initial, events[..n]), events[n])
  {
    assert events[..|events|] == events;
  }

  lemma LiveStep(before: seq<Status>, last: Status)
    ensures var events := before + [last];
            if OffLadder(last) then LiveFrom(events) == |events| && forall x :: !Live(events, x)
            else LiveFrom(events) == LiveFrom(before) && forall x :: Live(events, x) <==> Live(before, x) || x == last
  {
    var events := before + [last];
    assert events[..|before|] == before;
    if !OffLadder(last) {
      forall x ensures Live(events, x) <==> Live(before, x) || x == last {
        if Live(before, x) {
          var i :| LiveFrom(before) <= i < |before| && before[i] == x;
          assert events[i] == x;
        }
        if x == last {
          assert events[|before|] == x;
        }
        if Live(events, x) && x != last {
          var i :| LiveFrom(events) <= i < |events| && events[i] == x;
          assert before[i] == x;
        }
      }
    }
  }

  lemma ContendsStep(initial: Status, before: seq<Status>, last: Status, x: Status)
    ensures Contends(initial, before + [last], x) <==>
            x == last || (!OffLadder(last) && !OffLadder(x) && Contends(initial, before, x))
  {
    var events := before + [last];
    LiveStep(before, last);
    LiveFromIsAfterLastOffLadder(before);
    var k := LiveFrom(before);
    assert k > 0 ==> events[k - 1] == before[k - 1];
    assert events[|before|] == last;
  }

  lemma HighestStep(initial: Status, before: seq<Status>, last: Status)
    requires HighestContender(Final(initial, before), initial, before)
    ensures HighestContender(Next(Final(initial, before), last), initial, before + [last])
  {
    forall x {
      ContendsStep(initial, before, last, x);
    }
  }

  /** The status of a row is the highest-ranked status after the last off-ladder event. */
  lemma {:induction false} FinalIsHighest(initial: Status, events: seq<Status>)
    ensures HighestContender(Final(initial, events), initial, events)
  {
    if events != [] {
      var before := events[..|events| - 1];
      FinalIsHighest(initial, before);
      HighestStep(initial, before, events[|events| - 1]);
      assert events == before + [events[|events| - 1]];
    }
  }

  /** Reordering or repeating the events after the last off-ladder one changes nothing. */
  lemma OrderAndRepetitionIrrelevant(initial: Status, prefix: seq<Status>, a: seq<Status>, b: seq<Status>)
    requires LadderOnly(a) && LadderOnly(b)
    requires forall x :: x in a <==> x in b
    ensures Final(initial, prefix + a) == Final(initial, prefix + b)
  {
    SegmentLive(prefix, a);
    SegmentLive(prefix, b);
    FinalIsHighest(initial, prefix + a);
    FinalIsHighest(initial, prefix + b);
    SameElementsEmpty(a, b);
    if a != [] {
      var k := LiveFrom(prefix);
      assert k > 0 ==> (prefix + a)[k - 1] == (prefix + b)[k - 1];
      SameContenders(initial, prefix + a, prefix + b);
    }
  }

  lemma SameElementsEmpty(a: seq<Status>, b: seq<Status>)
    requires forall x :: x in a <==> x in b
    ensures a == [] <==> b == []
  {
    if a != [] { assert a[0] in a; }
    if b != [] { assert b[0] in b; }
  }

  lemma SameContenders(initial: Status, events: seq<Status>, others: seq<Status>)
    requires forall x :: Contends(initial, events, x) <==> Contends(initial, others, x)
    ensures Final(initial, events) == Final(initial, others)
  {
    FinalIsHighest(initial, events);
    FinalIsHighest(initial, others);
  }

  lemma {:induction false} SegmentLive(prefix: seq<Status>, segment: seq<Status>)
    requires LadderOnly(segment)
    ensures LiveFrom(prefix + segment) == LiveFrom(prefix)
    ensures forall x :: Live(prefix + segment, x) <==> Live(prefix, x) || x in segment
  {
    if segment == [] {
      assert prefix + segment == prefix;
    } else {
      var n := |segment| - 1;
      SegmentLive(prefix, segment[..n]);
      LiveStep(prefix + segment[..n], segment[n]);
      assert prefix + segment == prefix + segment[..n] + [segment[n]];
      assert forall x :: x in segment <==> x in segment[..n] || x == segment[n];
    }
  }

  // ---------------------------------------------------------------- counted deliveries

  /** Plain reading of "counted": a DELIVERED event with no DELIVERED or READ before it since
      the last off-ladder event (or since creation, when the row was not created there). */
  ghost predicate CountsAt(initial: Status, events: seq<Status>, i: nat)
    requires i < |events|
  {
    events[i].Delivered? && !ReachedSinceLive(initial, events[..i])
  }

  ghost predicate ReachedSinceLive(initial: Status, events: seq<Status>) {
    (exists j :: LiveFrom(events) <= j < |events| && Reached(events[j]))
    || (LiveFrom(events) == 0 && Reached(initial))
  }

  ghost function Counts(initial: Status, events: seq<Status>): nat -> bool {
    (i: nat) => i < |events| && CountsAt(initial, events, i)
  }

  ghost function CountedPositions(initial: Status, events: seq<Status>): set<nat> {
    Positions(|events|, Counts(initial, events))
  }

  /** A row is at DELIVERED or READ exactly when it got there after the last off-ladder event. */
  lemma {:induction false} ReachedExactly(initial: Status, events: seq<Status>)
    ensures Reached(Final(initial, events)) <==> ReachedSinceLive(initial, events)
  {
    if events != [] {
      var before := events[..|events| - 1];
      var last := events[|events| - 1];
      ReachedExactly(initial, before);
      if !OffLadder(last) {
        if j :| LiveFrom(before) <= j < |before| && Reached(before[j]) {
          assert Reached(events[j]);
        }
        if j :| LiveFrom(before) <= j < |events| && Reached(events[j]) && j < |before| {
          assert Reached(before[j]);
        }
      }
    }
  }

  lemma CountsAtPrefix(initial: Status, events: seq<Status>, n: nat, i: nat)
    requires i < n <= |events|
    ensures CountsAt(initial, events[..n], i) == CountsAt(initial, events, i)
  {
    assert events[..n][..i] == events[..i];
  }

  /** Exact count for every event list: one per plain counted position. */
  lemma {:induction false} DeliveriesExact(initial: Status, events: seq<Status>)
    ensures Deliveries(initial, events) == |CountedPositions(initial, events)|
  {
    if events != [] {
      var n := |events| - 1;
      DeliveriesExact(initial, events[..n]);
      LastPosition(initial, events);
    }
  }

  lemma LastPosition(initial: Status, events: seq<Status>)
    requires events != []
    ensures var n := |events| - 1;
            |CountedPositions(initial, events)|
            == |CountedPositions(initial, events[..n])|
               + if IsFirstDelivery(Final(initial, events[..n]), events[n]) then 1 else 0
  {
    var n := |events| - 1;
    var counts := Counts(initial, events);
    var countsBefore := Counts(initial, events[..n]);
    forall i: nat | i < n ensures counts(i) == countsBefore(i) {
      CountsAtPrefix(initial, events, n, i);
    }
    PositionsStep(n, counts);
    PositionsAgree(n, counts, countsBefore);
    ReachedExactly(initial, events[..n]);
  }

  /** Deliveries counted never exceed one for the current status plus one per off-ladder event. */
  lemma {:induction false} DeliveriesBound(initial: Status, events: seq<Status>)
    ensures Deliveries(initial, events)
            <= (if Reached(Final(initial, events)) then 1 else 0) + OffLadderCount(events)
  {
    if events != [] {
      DeliveriesBound(initial, events[..|events| - 1]);
    }
  }

  /** A DELIVERED event that no READ precedes. */
  ghost predicate DeliveredBeforeRead(events: seq<Status>, i: nat) {
    i < |events| && events[i].Delivered? && forall j :: 0 <= j < i ==> !events[j].Read?
  }

  ghost predicate SomeDeliveredBeforeRead(events: seq<Status>) {
    exists i :: DeliveredBeforeRead(events, i)
  }

  lemma SomeDeliveredStep(before: seq<Status>, last: Status)
    ensures SomeDeliveredBeforeRead(before + [last]) <==>
            SomeDeliveredBeforeRead(before) || (last.Delivered? && forall j :: 0 <= j < |before| ==> !before[j].Read?)
  {
    var events := before + [last];
    assert forall j :: 0 <= j < |before| ==> events[j] == before[j];
    if i: nat :| DeliveredBeforeRead(before, i) {
      assert DeliveredBeforeRead(events, i);
    }
    if i: nat :| DeliveredBeforeRead(events, i) && i < |before| {
      assert DeliveredBeforeRead(before, i);
    }
    if last.Delivered? && forall j :: 0 <= j < |before| ==> !before[j].Read? {
      assert DeliveredBeforeRead(events, |before|);
    }
  }

  /** Either nobody reached the recipient, or a READ or an earlier DELIVERED explains it. */
  lemma {:induction false} SomeReached(events: seq<Status>)
    ensures (exists j :: 0 <= j < |events| && Reached(events[j])) <==>
            SomeDeliveredBeforeRead(events) || exists j :: 0 <= j < |events| && events[j].Read?
  {
    if events != [] {
      var n := |events| - 1;
      SomeReached(events[..n]);
      assert events == events[..n] + [events[n]];
      SomeDeliveredStep(events[..n], events[n]);
      assert forall j :: 0 <= j < n ==> events[..n][j] == events[j];
    }
  }

  /** Without off-ladder events a row is counted once exactly when it was not created at
      DELIVERED or READ and some DELIVERED event comes with no READ before it. */
  lemma {:induction false} LadderOnlyDeliveries(initial: Status, events: seq<Status>)
    requires LadderOnly(events)
    ensures Deliveries(initial, events) ==
            if !Reached(initial) && SomeDeliveredBeforeRead(events) then 1 else 0
  {
    if events != [] {
      var before := events[..|events| - 1];
      var last := events[|events| - 1];
      assert events == before + [last];
      LadderOnlyDeliveries(initial, before);
      SegmentLive([], before);
      assert [] + before == before;
      ReachedExactly(initial, before);
      SomeReached(before);
      SomeDeliveredStep(before, last);
    }
  }

  /** A counted DELIVERED, an off-ladder event after it, and a DELIVERED after that with no READ in
      between. */
  ghost predicate CountedAgain(initial: Status, events: seq<Status>, i: nat, k: nat, j: nat) {
    && i < k < j < |events|
    && CountsAt(initial, events, i) && OffLadder(events[k]) && events[j].Delivered?
    && forall x :: k < x < j ==> !events[x].Read?
  }

  /** The last off-ladder event of a list that has one after position `k`. */
  lemma LastOffLadder(events: seq<Status>, k: nat)
    requires k < |events| && OffLadder(events[k])
    ensures k < LiveFrom(events)
  {
    LiveFromIsAfterLastOffLadder(events);
  }

  /** After an off-ladder event the first DELIVERED with no READ before it is counted. */
  lemma {:induction false} FirstDeliveredCounts(initial: Status, events: seq<Status>, k: nat, j: nat)
    returns (first: nat)
    requires k < j < |events| && OffLadder(events[k]) && events[j].Delivered?
    requires forall x :: k < x < j ==> !events[x].Read?
    ensures k < first <= j && CountsAt(initial, events, first)
    decreases j
  {
    LastOffLadder(events[..j], k);
    if x :| LiveFrom(events[..j]) <= x < j && Reached(events[..j][x]) {
      first := FirstDeliveredCounts(initial, events, k, x);
    } else {
      first := j;
    }
  }

  /** Between two counted positions lies an off-ladder event, and no READ between it and the second. */
  lemma OffLadderBetween(initial: Status, events: seq<Status>, i: nat, j: nat) returns (k: nat)
    requires i < j < |events| && CountsAt(initial, events, i) && CountsAt(initial, events, j)
    ensures CountedAgain(initial, events, i, k, j)
  {
    var before := events[..j];
    LiveFromIsAfterLastOffLadder(before);
    assert before[i] == events[i];
    assert LiveFrom(before) > i;
    k := LiveFrom(before) - 1;
    assert before[k] == events[k];
    forall x | k < x < j ensures !events[x].Read? {
      assert before[x] == events[x];
    }
  }

  /** A row is counted twice or more exactly when an off-ladder event separates a counted DELIVERED
      from a later one that no READ precedes since. */
  lemma CountedTwiceIff(initial: Status, events: seq<Status>)
    ensures Deliveries(initial, events) >= 2 <==>
            exists i: nat, k: nat, j: nat :: CountedAgain(initial, events, i, k, j)
  {
    DeliveriesExact(initial, events);
    var positions := CountedPositions(initial, events);
    TwoMembers(positions);
    if |positions| >= 2 {
      var i, j :| i in positions && j in positions && i < j;
      var k := OffLadderBetween(initial, events, i, j);
    }
    if i: nat, k: nat, j: nat :| CountedAgain(initial, events, i, k, j) {
      var first := FirstDeliveredCounts(initial, events, k, j);
      assert i in positions && first in positions;
    }
  }

  lemma TwoMembers(positions: set<nat>)
    ensures |positions| >= 2 <==> exists i, j :: i in positions && j in positions && i < j
  {
    if |positions| >= 2 {
      var i :| i in positions;
      assert |positions - {i}| >= 1;
      var j :| j in positions - {i};
      assert i < j || j < i;
    }
    if i, j :| i in positions && j in positions && i < j {
      assert {i, j} <= positions;
      assert |positions| == |positions - {i, j}| + |{i, j}|;
    }
  }

  /** "Counted at most once" is false: a transient error between two DELIVERED events. */
  lemma CountedTwiceAfterError()
    ensures Deliveries(Sent, [Delivered, Errored, Delivered]) == 2
  {
    var e := [Delivered, Errored, Delivered];
    assert e[..2] == [Delivered, Errored] && e[..2][..1] == [Delivered] && [Delivered][..0] == [];
    assert Final(Sent, [Delivered]) == Delivered;
    assert Final(Sent, [Delivered, Errored]) == Errored;
    assert Deliveries(Sent, [Delivered]) == 1;
    assert Deliveries(Sent, [Delivered, Errored]) == 1;
  }

  /** READ with no DELIVERED before it is never counted, whatever follows on the ladder. */
  lemma ReadFirstIsNeverCounted(initial: Status, events: seq<Status>)
    requires LadderOnly(events)
    ensures Deliveries(initial, [Read] + events) == 0
  {
    var all := [Read] + events;
    assert forall i :: 0 < i < |all| ==> all[i] == events[i - 1];
    LadderOnlyDeliveries(initial, all);
    assert all[0] == Read;
  }
}

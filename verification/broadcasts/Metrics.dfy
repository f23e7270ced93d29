/** The payment-recovery report: one aggregate over the outer join of broadcasts with their
    conversions, against the plain definition of each figure. */
module Metrics {
  import opened Common
  import opened BroadcastRows
  import opened BroadcastStatus
  import opened Conversions
  import opened Arithmetic
  import opened DecimalRounding

  /** A report request: integrated agents of the payment-recovery agent, an optional single agent,
      and an inclusive range of creation times. */
  datatype Query = Query(project: nat, recoveryAgents: set<nat>, only: Option<nat>, start: Time, end: Time)

  predicate InScope(q: Query, b: Message) {
    && b.project == q.project
    && b.agent.Some? && b.agent.value in q.recoveryAgents
    && q.start <= b.createdAt <= q.end
    && b.status != Queued && b.status != Failed
    && (q.only.Some? ==> b.agent == q.only)
  }

  // ---------------------------------------------------------------- the outer join

  datatype JoinRow = JoinRow(broadcast: nat, conversion: Option<nat>)

  /** The conversions of broadcast `i`, in table order. */
  function Matched(i: nat, conversions: seq<Conversion>): seq<JoinRow> {
    if conversions == [] then []
    else
      var n := |conversions| - 1;
      Matched(i, conversions[..n]) + if conversions[n].broadcast == Some(i) then [JoinRow(i, Some(n))] else []
  }

  /** A broadcast without conversions keeps one row with NULLs. */
  function JoinOne(i: nat, conversions: seq<Conversion>): seq<JoinRow> {
    var matched := Matched(i, conversions);
    if matched == [] then [JoinRow(i, None)] else matched
  }

  function Join(q: Query, broadcasts: seq<Message>, conversions: seq<Conversion>): seq<JoinRow> {
    if broadcasts == [] then []
    else
      var n := |broadcasts| - 1;
      Join(q, broadcasts[..n], conversions)
      + if InScope(q, broadcasts[n]) then JoinOne(n, conversions) else []
  }

  // ---------------------------------------------------------------- SQL aggregates

  function DistinctBroadcasts(rows: seq<JoinRow>): nat {
    |set r | r in rows :: r.broadcast|
  }

  /** Count of distinct non-NULL conversions. */
  function DistinctConversions(rows: seq<JoinRow>): nat {
    |set r | r in rows && r.conversion.Some? :: r.conversion.value|
  }

  function ValueOf(conversions: seq<Conversion>, r: JoinRow): Option<int> {
    if r.conversion.Some? && r.conversion.value < |conversions| then conversions[r.conversion.value].value else None
  }

  /** SUM skips NULLs and is NULL when there is nothing to add. */
  function SumValues(conversions: seq<Conversion>, rows: seq<JoinRow>): Option<int> {
    if rows == [] then None
    else
      var rest := SumValues(conversions, rows[..|rows| - 1]);
      var v := ValueOf(conversions, rows[|rows| - 1]);
      if v.None? then rest else Some(rest.GetOr(0) + v.value)
  }

  function Times(conversions: seq<Conversion>, rows: seq<JoinRow>): set<Time> {
    set r | r in rows && r.conversion.Some? && r.conversion.value < |conversions| ::
      conversions[r.conversion.value].convertedAt
  }

  /** MIN (or MAX) of a column: NULL over no values. */
  predicate IsLeast(times: set<Time>, least: Option<Time>) {
    if times == {} then least.None?
    else least.Some? && least.value in times && forall t :: t in times ==> least.value <= t
  }

  predicate IsGreatest(times: set<Time>, greatest: Option<Time>) {
    if times == {} then greatest.None?
    else greatest.Some? && greatest.value in times && forall t :: t in times ==> t <= greatest.value
  }

  function Least(times: set<Time>): (least: Option<Time>)
    ensures IsLeast(times, least)
  {
    if forall t :: t in times ==> false then None
    else
      LeastExists(times);
      var t :| t in times && forall u :: u in times ==> t <= u;
      Some(t)
  }

  function Greatest(times: set<Time>): (greatest: Option<Time>)
    ensures IsGreatest(times, greatest)
  {
    if forall t :: t in times ==> false then None
    else
      GreatestExists(times);
      var t :| t in times && forall u :: u in times ==> u <= t;
      Some(t)
  }

  lemma {:induction false} LeastExists(times: set<Time>)
    requires exists t :: t in times
    ensures exists t :: t in times && forall u :: u in times ==> t <= u
  {
    var x :| x in times;
    var rest := times - {x};
    if exists y :: y in rest {
      LeastExists(rest);
      var y :| y in rest && forall u :: u in rest ==> y <= u;
      var least := if x <= y then x else y;
      assert forall u :: u in times ==> u == x || u in rest;
      assert least in times && forall u :: u in times ==> least <= u;
    } else {
      assert forall u :: u in times ==> u == x || u in rest;
    }
  }

  lemma {:induction false} GreatestExists(times: set<Time>)
    requires exists t :: t in times
    ensures exists t :: t in times && forall u :: u in times ==> u <= t
  {
    var x :| x in times;
    var rest := times - {x};
    if exists y :: y in rest {
      GreatestExists(rest);
      var y :| y in rest && forall u :: u in rest ==> u <= y;
      var greatest := if x >= y then x else y;
      assert forall u :: u in times ==> u == x || u in rest;
      assert greatest in times && forall u :: u in times ==> u <= greatest;
    } else {
      assert forall u :: u in times ==> u == x || u in rest;
    }
  }

  datatype Report = Report(
    totalDispatches: nat, convertedPayments: nat, conversionRate: nat, recoveredRevenue: int,
    averageTicket: Option<int>, firstConversionAt: Option<Time>, lastConversionAt: Option<Time>)

  /** `recoveryConfigured` is false when no payment-recovery agent is set. */
  function Compute(recoveryConfigured: bool, q: Query, broadcasts: seq<Message>, conversions: seq<Conversion>): Report {
    if !recoveryConfigured then Report(0, 0, 0, 0, None, None, None)
    else
      var rows := Join(q, broadcasts, conversions);
      var total := DistinctBroadcasts(rows);
      var converted := DistinctConversions(rows);
      var revenue := SumValues(conversions, rows).GetOr(0);
      Report(total, converted, ConversionRate(converted, total), revenue,
             if converted == 0 then None else Some(AverageTicket(revenue, converted)),
             Least(Times(conversions, rows)), Greatest(Times(conversions, rows)))
  }

  // ---------------------------------------------------------------- the plain definition

  function ScopeCount(q: Query): Message -> int {
    (b: Message) => if InScope(q, b) then 1 else 0
  }

  /** Does this conversion credit a broadcast in scope? */
  predicate Credits(q: Query, broadcasts: seq<Message>, c: Conversion) {
    c.broadcast.Some? && c.broadcast.value < |broadcasts| && InScope(q, broadcasts[c.broadcast.value])
  }

  function CreditCount(q: Query, broadcasts: seq<Message>): Conversion -> int {
    (c: Conversion) => if Credits(q, broadcasts, c) then 1 else 0
  }

  function CreditValue(q: Query, broadcasts: seq<Message>): Conversion -> int {
    (c: Conversion) => if Credits(q, broadcasts, c) then c.value.GetOr(0) else 0
  }

  // ---------------------------------------------------------------- which rows the join holds

  lemma {:induction false} MatchedRows(i: nat, conversions: seq<Conversion>)
    ensures forall r :: r in Matched(i, conversions) <==>
              r.broadcast == i && r.conversion.Some? && r.conversion.value < |conversions|
              && conversions[r.conversion.value].broadcast == Some(i)
  {
    if conversions != [] {
      MatchedRows(i, conversions[..|conversions| - 1]);
    }
  }

  predicate IsJoinRow(q: Query, broadcasts: seq<Message>, conversions: seq<Conversion>, r: JoinRow) {
    && r.broadcast < |broadcasts| && InScope(q, broadcasts[r.broadcast])
    && (r.conversion.Some? ==>
          r.conversion.value < |conversions| && conversions[r.conversion.value].broadcast == Some(r.broadcast))
    && (r.conversion.None? ==>
          forall c :: 0 <= c < |conversions| ==> conversions[c].broadcast != Some(r.broadcast))
  }

  lemma JoinOneRows(i: nat, conversions: seq<Conversion>, r: JoinRow)
    ensures r in JoinOne(i, conversions) <==>
            && r.broadcast == i
            && (r.conversion.Some? ==>
                  r.conversion.value < |conversions| && conversions[r.conversion.value].broadcast == Some(i))
            && (r.conversion.None? ==> forall c :: 0 <= c < |conversions| ==> conversions[c].broadcast != Some(i))
  {
    MatchedRows(i, conversions);
    var matched := Matched(i, conversions);
    if matched != [] {
      assert matched[0] in matched;
    } else {
      forall c | 0 <= c < |conversions| ensures conversions[c].broadcast != Some(i) {
        assert JoinRow(i, Some(c)) !in matched;
      }
    }
  }

  /** The join holds every in-scope broadcast with each of its conversions, and a NULL row exactly
      for those without any. */
  lemma {:induction false} JoinRows(q: Query, broadcasts: seq<Message>, conversions: seq<Conversion>, r: JoinRow)
    ensures r in Join(q, broadcasts, conversions) <==> IsJoinRow(q, broadcasts, conversions, r)
  {
    if broadcasts != [] {
      var n := |broadcasts| - 1;
      JoinRows(q, broadcasts[..n], conversions, r);
      JoinOneRows(n, conversions, r);
    }
  }

  // ---------------------------------------------------------------- aggregate equals definition

  function InScopeAt(q: Query, broadcasts: seq<Message>): nat -> bool {
    (i: nat) => i < |broadcasts| && InScope(q, broadcasts[i])
  }

  function CreditsAt(q: Query, broadcasts: seq<Message>, conversions: seq<Conversion>): nat -> bool {
    (c: nat) => c < |conversions| && Credits(q, broadcasts, conversions[c])
  }

  lemma {:induction false} ScopePositions(q: Query, broadcasts: seq<Message>)
    ensures |Positions(|broadcasts|, InScopeAt(q, broadcasts))| == Sum(broadcasts, ScopeCount(q))
  {
    if broadcasts != [] {
      var n := |broadcasts| - 1;
      ScopePositions(q, broadcasts[..n]);
      PositionsStep(n, InScopeAt(q, broadcasts));
      PositionsAgree(n, InScopeAt(q, broadcasts), InScopeAt(q, broadcasts[..n]));
    }
  }

  lemma {:induction false} CreditPositions(q: Query, broadcasts: seq<Message>, conversions: seq<Conversion>)
    ensures |Positions(|conversions|, CreditsAt(q, broadcasts, conversions))|
            == Sum(conversions, CreditCount(q, broadcasts))
  {
    if conversions != [] {
      var n := |conversions| - 1;
      CreditPositions(q, broadcasts, conversions[..n]);
      PositionsStep(n, CreditsAt(q, broadcasts, conversions));
      PositionsAgree(n, CreditsAt(q, broadcasts, conversions), CreditsAt(q, broadcasts, conversions[..n]));
    }
  }

  lemma DispatchesAreBroadcasts(q: Query, broadcasts: seq<Message>, conversions: seq<Conversion>)
    ensures DistinctBroadcasts(Join(q, broadcasts, conversions)) == Sum(broadcasts, ScopeCount(q))
  {
    var rows := Join(q, broadcasts, conversions);
    var ids := set r | r in rows :: r.broadcast;
    var positions := Positions(|broadcasts|, InScopeAt(q, broadcasts));
    forall i ensures i in ids <==> i in positions {
      if i in ids {
        var r :| r in rows && r.broadcast == i;
        JoinRows(q, broadcasts, conversions, r);
      }
      if i in positions {
        var r := JoinOne(i, conversions)[0];
        JoinOneRows(i, conversions, r);
        JoinRows(q, broadcasts, conversions, r);
        assert r.broadcast == i;
      }
    }
    assert ids == positions;
    ScopePositions(q, broadcasts);
  }

  lemma PaymentsAreConversions(q: Query, broadcasts: seq<Message>, conversions: seq<Conversion>)
    ensures DistinctConversions(Join(q, broadcasts, conversions)) == Sum(conversions, CreditCount(q, broadcasts))
  {
    var rows := Join(q, broadcasts, conversions);
    var ids := set r | r in rows && r.conversion.Some? :: r.conversion.value;
    var positions := Positions(|conversions|, CreditsAt(q, broadcasts, conversions));
    forall c ensures c in ids <==> c in positions {
      if c in ids {
        var r :| r in rows && r.conversion.Some? && r.conversion.value == c;
        JoinRows(q, broadcasts, conversions, r);
      }
      if c in positions {
        var r := JoinRow(conversions[c].broadcast.value, Some(c));
        JoinRows(q, broadcasts, conversions, r);
      }
    }
    assert ids == positions;
    CreditPositions(q, broadcasts, conversions);
  }

  /** The times of the conversions that credit a broadcast in scope. */
  function CreditTimes(q: Query, broadcasts: seq<Message>, conversions: seq<Conversion>): set<Time> {
    set c | 0 <= c < |conversions| && Credits(q, broadcasts, conversions[c]) :: conversions[c].convertedAt
  }

  lemma TimesAreConversions(q: Query, broadcasts: seq<Message>, conversions: seq<Conversion>)
    ensures Times(conversions, Join(q, broadcasts, conversions)) == CreditTimes(q, broadcasts, conversions)
  {
    var rows := Join(q, broadcasts, conversions);
    var plain := CreditTimes(q, broadcasts, conversions);
    forall t ensures t in Times(conversions, rows) <==> t in plain {
      if t in Times(conversions, rows) {
        var r :| r in rows && r.conversion.Some? && r.conversion.value < |conversions|
                 && conversions[r.conversion.value].convertedAt == t;
        JoinRows(q, broadcasts, conversions, r);
      }
      if t in plain {
        var c :| 0 <= c < |conversions| && Credits(q, broadcasts, conversions[c]) && conversions[c].convertedAt == t;
        var r := JoinRow(conversions[c].broadcast.value, Some(c));
        JoinRows(q, broadcasts, conversions, r);
      }
    }
  }

  // ---------------------------------------------------------------- revenue

  function RowValue(conversions: seq<Conversion>): JoinRow -> int {
    (r: JoinRow) => ValueOf(conversions, r).GetOr(0)
  }

  lemma {:induction false} SumValuesIsSum(conversions: seq<Conversion>, rows: seq<JoinRow>)
    ensures SumValues(conversions, rows).GetOr(0) == Sum(rows, RowValue(conversions))
  {
    if rows != [] {
      SumValuesIsSum(conversions, rows[..|rows| - 1]);
    }
  }

  function ValueIfCreditsOne(i: nat): Conversion -> int {
    (c: Conversion) => if c.broadcast == Some(i) then c.value.GetOr(0) else 0
  }

  /** The rows of one broadcast add up to the values of its conversions. */
  lemma {:induction false} MatchedValue(i: nat, conversions: seq<Conversion>, all: seq<Conversion>)
    requires conversions <= all
    ensures Sum(Matched(i, conversions), RowValue(all)) == Sum(conversions, ValueIfCreditsOne(i))
  {
    if conversions != [] {
      var n := |conversions| - 1;
      MatchedValue(i, conversions[..n], all);
      SumAppend(Matched(i, conversions[..n]), JoinRow(i, Some(n)), RowValue(all));
      assert Matched(i, conversions[..n]) + [] == Matched(i, conversions[..n]);
    }
  }

  /** One more broadcast in scope adds the values of its own conversions. */
  lemma CreditValueStep(q: Query, broadcasts: seq<Message>, conversions: seq<Conversion>)
    requires broadcasts != []
    ensures var n := |broadcasts| - 1;
            Sum(conversions, CreditValue(q, broadcasts))
            == Sum(conversions, CreditValue(q, broadcasts[..n]))
               + if InScope(q, broadcasts[n]) then Sum(conversions, ValueIfCreditsOne(n)) else 0
  {
    var n := |broadcasts| - 1;
    if InScope(q, broadcasts[n]) {
      SumAdd(conversions, CreditValue(q, broadcasts[..n]), ValueIfCreditsOne(n), CreditValue(q, broadcasts));
    } else {
      var nothing := (c: Conversion) => 0;
      SumZero(conversions, nothing);
      SumAdd(conversions, CreditValue(q, broadcasts[..n]), nothing, CreditValue(q, broadcasts));
    }
  }

  lemma JoinOneValue(i: nat, conversions: seq<Conversion>)
    ensures Sum(JoinOne(i, conversions), RowValue(conversions)) == Sum(conversions, ValueIfCreditsOne(i))
  {
    MatchedValue(i, conversions, conversions);
    if Matched(i, conversions) == [] {
      SumZero(JoinOne(i, conversions), RowValue(conversions));
    }
  }

  /** Summing row by row over the join gives the revenue of the credited conversions, each once. */
  lemma {:induction false} RevenueIsConversions(q: Query, broadcasts: seq<Message>, conversions: seq<Conversion>)
    ensures Sum(Join(q, broadcasts, conversions), RowValue(conversions)) == Sum(conversions, CreditValue(q, broadcasts))
  {
    if broadcasts == [] {
      SumZero(conversions, CreditValue(q, broadcasts));
    } else {
      var n := |broadcasts| - 1;
      RevenueIsConversions(q, broadcasts[..n], conversions);
      CreditValueStep(q, broadcasts, conversions);
      SumConcat(Join(q, broadcasts[..n], conversions),
                if InScope(q, broadcasts[n]) then JoinOne(n, conversions) else [], RowValue(conversions));
      JoinOneValue(n, conversions);
    }
  }

  lemma QuotientsAreExact(q: Query, broadcasts: seq<Message>, conversions: seq<Conversion>)
    ensures var r := Compute(true, q, broadcasts, conversions);
            && IsExactRate(r.conversionRate, r.convertedPayments, r.totalDispatches)
            && IsExactTicket(r.averageTicket, r.recoveredRevenue, r.convertedPayments)
  {
    var r := Compute(true, q, broadcasts, conversions);
    if r.totalDispatches > 0 && FitsDigits(r.convertedPayments, 23) {
      RateIsExactlyRounded(r.convertedPayments, r.totalDispatches);
    }
    if r.convertedPayments > 0 && FitsDigits(r.recoveredRevenue, 25) {
      TicketIsExactlyRounded(r.recoveredRevenue, r.convertedPayments);
    }
  }

  /** The report equals its plain definition: no double counting when a broadcast has several
      conversions, NULL values count as zero, and the rate and ticket are the exact quotients of
      those figures rounded once. */
  lemma ReportIsPlain(q: Query, broadcasts: seq<Message>, conversions: seq<Conversion>)
    ensures var r := Compute(true, q, broadcasts, conversions);
            && r.totalDispatches == Sum(broadcasts, ScopeCount(q))
            && r.convertedPayments == Sum(conversions, CreditCount(q, broadcasts))
            && r.recoveredRevenue == Sum(conversions, CreditValue(q, broadcasts))
            && IsExactRate(r.conversionRate, r.convertedPayments, r.totalDispatches)
            && IsExactTicket(r.averageTicket, r.recoveredRevenue, r.convertedPayments)
            && IsLeast(CreditTimes(q, broadcasts, conversions), r.firstConversionAt)
            && IsGreatest(CreditTimes(q, broadcasts, conversions), r.lastConversionAt)
  {
    var rows := Join(q, broadcasts, conversions);
    DispatchesAreBroadcasts(q, broadcasts, conversions);
    PaymentsAreConversions(q, broadcasts, conversions);
    SumValuesIsSum(conversions, rows);
    RevenueIsConversions(q, broadcasts, conversions);
    TimesAreConversions(q, broadcasts, conversions);
    QuotientsAreExact(q, broadcasts, conversions);
  }

  // ---------------------------------------------------------------- what counts

  /** A message counts in a report when the project's payment-recovery agent dispatched it in the
      period, to the one agent asked for if any, and it left the queue without failing. */
  predicate Dispatched(q: Query, b: Message) {
    && b.project == q.project && q.start <= b.createdAt <= q.end
    && b.status in {Initializing, Pending, Sent, Wired, Delivered, Read, Errored, Unknown}
    && b.agent.Some? && b.agent.value in q.recoveryAgents && (q.only.None? || q.only == b.agent)
  }

  /** One more message adds one dispatch when it counts, else nothing; nothing is reported when no
      payment-recovery agent is set. */
  lemma OneMoreMessage(q: Query, broadcasts: seq<Message>, b: Message, conversions: seq<Conversion>)
    ensures Compute(true, q, broadcasts + [b], conversions).totalDispatches
            == Compute(true, q, broadcasts, conversions).totalDispatches + if Dispatched(q, b) then 1 else 0
    ensures Compute(false, q, broadcasts, conversions) == Report(0, 0, 0, 0, None, None, None)
  {
    DispatchesAreBroadcasts(q, broadcasts, conversions);
    DispatchesAreBroadcasts(q, broadcasts + [b], conversions);
    SumAppend(broadcasts, b, ScopeCount(q));
  }

  predicate CreditsDispatched(q: Query, broadcasts: seq<Message>, c: Conversion) {
    c.broadcast.Some? && c.broadcast.value < |broadcasts| && Dispatched(q, broadcasts[c.broadcast.value])
  }

  lemma CreditsIffDispatched(q: Query, broadcasts: seq<Message>, c: Conversion)
    ensures Credits(q, broadcasts, c) <==> CreditsDispatched(q, broadcasts, c)
  {
  }

  /** One more conversion adds one payment and its value when the message it credits counts. */
  lemma OneMoreConversion(q: Query, broadcasts: seq<Message>, conversions: seq<Conversion>, c: Conversion)
    ensures var before := Compute(true, q, broadcasts, conversions);
            var after := Compute(true, q, broadcasts, conversions + [c]);
            var counts := CreditsDispatched(q, broadcasts, c);
            && after.convertedPayments == before.convertedPayments + (if counts then 1 else 0)
            && after.recoveredRevenue
               == before.recoveredRevenue + (if counts && c.value.Some? then c.value.value else 0)
            && after.totalDispatches == before.totalDispatches
  {
    CreditsIffDispatched(q, broadcasts, c);
    FiguresArePlain(q, broadcasts, conversions);
    FiguresArePlain(q, broadcasts, conversions + [c]);
    SumAppend(conversions, c, CreditCount(q, broadcasts));
    SumAppend(conversions, c, CreditValue(q, broadcasts));
  }

  lemma FiguresArePlain(q: Query, broadcasts: seq<Message>, conversions: seq<Conversion>)
    ensures var r := Compute(true, q, broadcasts, conversions);
            && r.totalDispatches == Sum(broadcasts, ScopeCount(q))
            && r.convertedPayments == Sum(conversions, CreditCount(q, broadcasts))
            && r.recoveredRevenue == Sum(conversions, CreditValue(q, broadcasts))
  {
    ReportIsPlain(q, broadcasts, conversions);
  }

  /** A period of whole UTC days holds exactly the times whose day number lies in it. */
  lemma DaysInPeriod(t: Time, first: int, last: int)
    ensures StartOf(first) <= t <= EndOf(last) <==> first <= t / 86_400_000_000 <= last
  {
  }

  // ---------------------------------------------------------------- additivity

  const MICROSECONDS_PER_DAY: int := 86_400_000_000

  /** The first and the last microsecond of a UTC day. */
  function StartOf(day: int): Time { day * MICROSECONDS_PER_DAY }
  function EndOf(day: int): Time { (day + 1) * MICROSECONDS_PER_DAY - 1 }

  function DayRange(q: Query, first: int, last: int): Query {
    q.(start := StartOf(first), end := EndOf(last))
  }

  predicate AddsUp(a: Report, b: Report, whole: Report) {
    && whole.totalDispatches == a.totalDispatches + b.totalDispatches
    && whole.convertedPayments == a.convertedPayments + b.convertedPayments
    && whole.recoveredRevenue == a.recoveredRevenue + b.recoveredRevenue
  }

  /** Every broadcast in the scope of `q` is in the scope of exactly one of `a` and `b`. */
  ghost predicate Splits(q: Query, a: Query, b: Query) {
    forall m :: (InScope(q, m) <==> InScope(a, m) || InScope(b, m)) && !(InScope(a, m) && InScope(b, m))
  }

  lemma SplitCounts(q: Query, a: Query, b: Query, broadcasts: seq<Message>)
    requires Splits(q, a, b)
    ensures Sum(broadcasts, ScopeCount(q)) == Sum(broadcasts, ScopeCount(a)) + Sum(broadcasts, ScopeCount(b))
  {
    SumAdd(broadcasts, ScopeCount(a), ScopeCount(b), ScopeCount(q));
  }

  lemma SplitCredits(q: Query, a: Query, b: Query, broadcasts: seq<Message>, conversions: seq<Conversion>)
    requires Splits(q, a, b)
    ensures Sum(conversions, CreditCount(q, broadcasts))
            == Sum(conversions, CreditCount(a, broadcasts)) + Sum(conversions, CreditCount(b, broadcasts))
    ensures Sum(conversions, CreditValue(q, broadcasts))
            == Sum(conversions, CreditValue(a, broadcasts)) + Sum(conversions, CreditValue(b, broadcasts))
  {
    forall c: Conversion
      ensures Credits(q, broadcasts, c) <==> Credits(a, broadcasts, c) || Credits(b, broadcasts, c)
      ensures !(Credits(a, broadcasts, c) && Credits(b, broadcasts, c))
    {
    }
    SumAdd(conversions, CreditCount(a, broadcasts), CreditCount(b, broadcasts), CreditCount(q, broadcasts));
    SumAdd(conversions, CreditValue(a, broadcasts), CreditValue(b, broadcasts), CreditValue(q, broadcasts));
  }

  lemma SplitScopesAddUp(q: Query, a: Query, b: Query, broadcasts: seq<Message>, conversions: seq<Conversion>)
    requires Splits(q, a, b)
    ensures AddsUp(Compute(true, a, broadcasts, conversions), Compute(true, b, broadcasts, conversions),
                   Compute(true, q, broadcasts, conversions))
  {
    ReportIsPlain(q, broadcasts, conversions);
    ReportIsPlain(a, broadcasts, conversions);
    ReportIsPlain(b, broadcasts, conversions);
    SplitCounts(q, a, b, broadcasts);
    SplitCredits(q, a, b, broadcasts, conversions);
  }

  lemma DayBounds(first: int, split: int, last: int)
    requires first <= split < last
    ensures StartOf(first) <= EndOf(split) < EndOf(last)
    ensures StartOf(split + 1) == EndOf(split) + 1
  {
  }

  lemma RangeSplits(q: Query, first: int, split: int, last: int)
    requires first <= split < last
    ensures Splits(DayRange(q, first, last), DayRange(q, first, split), DayRange(q, split + 1, last))
  {
    DayBounds(first, split, last);
    var start, middle, end := StartOf(first), EndOf(split), EndOf(last);
    assert DayRange(q, first, split) == q.(start := start, end := middle);
    assert DayRange(q, split + 1, last) == q.(start := middle + 1, end := end);
  }

  /** Counts and revenue of two adjacent date ranges add up to those of the joined range. */
  lemma AdjacentRangesAddUp(q: Query, first: int, split: int, last: int,
                            broadcasts: seq<Message>, conversions: seq<Conversion>)
    requires first <= split < last
    ensures AddsUp(Compute(true, DayRange(q, first, split), broadcasts, conversions),
                   Compute(true, DayRange(q, split + 1, last), broadcasts, conversions),
                   Compute(true, DayRange(q, first, last), broadcasts, conversions))
  {
    RangeSplits(q, first, split, last);
    SplitScopesAddUp(DayRange(q, first, last), DayRange(q, first, split), DayRange(q, split + 1, last),
                     broadcasts, conversions);
  }

  /** The additive figures of a report. */
  datatype Figures = Figures(dispatches: int, payments: int, revenue: int) {
    function Plus(other: Figures): Figures {
      Figures(dispatches + other.dispatches, payments + other.payments, revenue + other.revenue)
    }
  }

  function FiguresOf(q: Query, broadcasts: seq<Message>, conversions: seq<Conversion>): Figures {
    var r := Compute(true, q, broadcasts, conversions);
    Figures(r.totalDispatches, r.convertedPayments, r.recoveredRevenue)
  }

  /** The request restricted to the agents of a list. */
  function AmongAgents(q: Query, agents: seq<nat>): Query {
    q.(recoveryAgents := (set a | a in agents) * q.recoveryAgents)
  }

  predicate Distinct(agents: seq<nat>) {
    forall i, j :: 0 <= i < j < |agents| ==> agents[i] != agents[j]
  }

  lemma LastAgentSplits(q: Query, agents: seq<nat>)
    requires q.only.None? && Distinct(agents) && agents != []
    ensures var n := |agents| - 1;
            Splits(AmongAgents(q, agents), AmongAgents(q, agents[..n]), q.(only := Some(agents[n])))
  {
    var n := |agents| - 1;
    assert forall a :: a in agents <==> a in agents[..n] || a == agents[n];
    assert agents[n] !in agents[..n];
  }

  lemma NoAgents(q: Query, broadcasts: seq<Message>, conversions: seq<Conversion>)
    requires q.recoveryAgents == {}
    ensures FiguresOf(q, broadcasts, conversions) == Figures(0, 0, 0)
  {
    ReportIsPlain(q, broadcasts, conversions);
    SumZero(broadcasts, ScopeCount(q));
    SumZero(conversions, CreditCount(q, broadcasts));
    SumZero(conversions, CreditValue(q, broadcasts));
  }

  lemma OneMoreAgent(q: Query, agents: seq<nat>, n: nat, broadcasts: seq<Message>, conversions: seq<Conversion>)
    requires q.only.None? && Distinct(agents) && n < |agents|
    ensures FiguresOf(AmongAgents(q, agents[..n + 1]), broadcasts, conversions)
            == FiguresOf(AmongAgents(q, agents[..n]), broadcasts, conversions)
                 .Plus(FiguresOf(q.(only := Some(agents[n])), broadcasts, conversions))
  {
    LastAgentSplits(q, agents[..n + 1]);
    assert agents[..n + 1][..n] == agents[..n];
    SplitScopesAddUp(AmongAgents(q, agents[..n + 1]), AmongAgents(q, agents[..n]), q.(only := Some(agents[n])),
                     broadcasts, conversions);
  }

  /** Folding agent by agent, for any way of reporting on one agent and on a list of them. */
  function Folded(agents: seq<nat>, one: nat -> Figures): Figures {
    if agents == [] then Figures(0, 0, 0)
    else Folded(agents[..|agents| - 1], one).Plus(one(agents[|agents| - 1]))
  }

  lemma {:induction false} FoldedIsWhole(agents: seq<nat>, n: nat, one: nat -> Figures, whole: seq<nat> -> Figures)
    requires n <= |agents| && whole([]) == Figures(0, 0, 0)
    requires forall k: nat :: k < |agents| ==> whole(agents[..k + 1]) == whole(agents[..k]).Plus(one(agents[k]))
    ensures Folded(agents[..n], one) == whole(agents[..n])
  {
    if n > 0 {
      FoldedIsWhole(agents, n - 1, one, whole);
      assert agents[..n][..n - 1] == agents[..n - 1];
    }
  }

  /** The reports of single agents add up to the report on all of them. */
  lemma AgentTotalsAddUp(q: Query, agents: seq<nat>, broadcasts: seq<Message>, conversions: seq<Conversion>)
    requires q.only.None? && Distinct(agents)
    ensures Folded(agents, ReportOnOne(q, broadcasts, conversions))
            == FiguresOf(AmongAgents(q, agents), broadcasts, conversions)
  {
    var one := ReportOnOne(q, broadcasts, conversions);
    var whole := ReportOnList(q, broadcasts, conversions);
    NoAgents(AmongAgents(q, []), broadcasts, conversions);
    forall k: nat | k < |agents| ensures whole(agents[..k + 1]) == whole(agents[..k]).Plus(one(agents[k])) {
      OneMoreAgent(q, agents, k, broadcasts, conversions);
    }
    FoldedIsWhole(agents, |agents|, one, whole);
    assert agents[..|agents|] == agents;
  }

  function ReportOnOne(q: Query, broadcasts: seq<Message>, conversions: seq<Conversion>): nat -> Figures {
    (a: nat) => FiguresOf(q.(only := Some(a)), broadcasts, conversions)
  }

  function ReportOnList(q: Query, broadcasts: seq<Message>, conversions: seq<Conversion>): seq<nat> -> Figures {
    (agents: seq<nat>) => FiguresOf(AmongAgents(q, agents), broadcasts, conversions)
  }

  /** The project's figures are the sums over its payment-recovery agents. */
  lemma AgentsAddUp(q: Query, agents: seq<nat>, broadcasts: seq<Message>, conversions: seq<Conversion>)
    requires q.only.None? && Distinct(agents) && q.recoveryAgents == set a | a in agents
    ensures Folded(agents, ReportOnOne(q, broadcasts, conversions)) == FiguresOf(q, broadcasts, conversions)
  {
    AgentTotalsAddUp(q, agents, broadcasts, conversions);
    assert (set a | a in agents) * q.recoveryAgents == q.recoveryAgents;
  }
}

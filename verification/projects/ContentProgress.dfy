/** Background content-base progress: the persisted snapshot, its writers, and the single percentage
    reported to clients. */
module ContentProgress {
  import opened Common
  import opened Arithmetic

  const CRAWL_WEIGHT: nat := 33
  const UPLOAD_WEIGHT: nat := 67

  datatype Status = Crawling | Uploading | Complete | UploadFailed

  /** Missing percentages read as 0; a missing status is `None`. */
  datatype Snapshot = Snapshot(crawl: nat, upload: nat, status: Option<Status>, totalFiles: nat)

  const EMPTY := Snapshot(0, 0, None, 0)

  function Min(a: nat, b: nat): nat {
    if a <= b then a else b
  }

  function Weighted(crawl: nat, upload: nat): nat {
    crawl * CRAWL_WEIGHT + upload * UPLOAD_WEIGHT
  }

  /** The percentage reported to clients. */
  function Overall(s: Snapshot): nat {
    if s.status == Some(Complete) then 100
    else Min(100, RoundHalfEven(Weighted(s.crawl, s.upload), 100))
  }

  // ---------------------------------------------------------------- writers

  function AfterProgress(s: Snapshot, percent: nat): Snapshot {
    s.(crawl := percent, status := Some(Crawling))
  }

  function NothingToUpload(s: Snapshot): Snapshot {
    Snapshot(100, 100, Some(Complete), 0)
  }

  function AfterCompleted(s: Snapshot, totalFiles: nat): Snapshot {
    if totalFiles == 0 then NothingToUpload(s)
    else Snapshot(100, 0, Some(Uploading), totalFiles)
  }

  function AfterUploadStep(s: Snapshot, percent: nat): Snapshot {
    s.(upload := percent, status := Some(Uploading))
  }

  function AfterUploadDone(s: Snapshot): Snapshot {
    s.(upload := 100, status := Some(Complete))
  }

  function AfterUploadFailed(s: Snapshot): Snapshot {
    s.(status := Some(UploadFailed))
  }

  /** The crawler webhook and the upload task as writers of the persisted snapshot; `history` holds
      every snapshot persisted so far. */
  class ContentBase {
    var snapshot: Snapshot
    var crawlSucceeded: Option<bool>
    ghost var history: seq<Snapshot>

    constructor ()
      ensures snapshot == EMPTY && crawlSucceeded.None? && history == []
    {
      snapshot, crawlSucceeded, history := EMPTY, None, [];
    }

    method Persist(s: Snapshot)
      modifies this
      ensures snapshot == s && history == old(history) + [s] && crawlSucceeded == old(crawlSucceeded)
    {
      snapshot := s;
      history := history + [s];
    }

    method HandleProgress(percent: nat)
      modifies this
      ensures snapshot == Apply(old(snapshot), Progress(percent)) && history == old(history) + [snapshot]
      ensures snapshot == old(snapshot).(crawl := percent, status := Some(Crawling))
      ensures crawlSucceeded == old(crawlSucceeded)
    {
      Persist(snapshot.(crawl := percent, status := Some(Crawling)));
    }

    method HandleCompleted(totalFiles: nat)
      modifies this
      ensures snapshot == Apply(old(snapshot), CrawlCompleted(totalFiles)) && history == old(history) + [snapshot]
      ensures snapshot == if totalFiles == 0 then Snapshot(100, 100, Some(Complete), 0)
                          else Snapshot(100, 0, Some(Uploading), totalFiles)
      ensures crawlSucceeded == Some(true)
    {
      crawlSucceeded := Some(true);
      if totalFiles == 0 {
        MarkCompleteWithNoFiles();
      } else {
        Persist(snapshot.(crawl := 100, upload := 0, status := Some(Uploading), totalFiles := totalFiles));
      }
    }

    method HandleFailed()
      modifies this
      ensures snapshot == Apply(old(snapshot), CrawlFailed) && history == old(history) + [snapshot]
      ensures snapshot == Snapshot(100, 100, Some(Complete), 0)
      ensures crawlSucceeded == Some(false)
    {
      crawlSucceeded := Some(false);
      MarkCompleteWithNoFiles();
    }

    /** The upload task raised: its percentages stay where they were. */
    method HandleUploadRaised()
      modifies this
      ensures snapshot == Apply(old(snapshot), UploadRaised) && history == old(history) + [snapshot]
      ensures snapshot == old(snapshot).(status := Some(UploadFailed))
      ensures crawlSucceeded == old(crawlSucceeded)
    {
      Persist(snapshot.(status := Some(UploadFailed)));
    }

    method MarkCompleteWithNoFiles()
      modifies this
      ensures snapshot == NothingToUpload(old(snapshot)) && history == old(history) + [snapshot]
      ensures crawlSucceeded == old(crawlSucceeded)
    {
      Persist(snapshot.(crawl := 100, upload := 100, status := Some(Complete), totalFiles := 0));
    }
  }

  // ---------------------------------------------------------------- the reported percentage

  /** Until completion the report is the nearest percentage to a third of the crawl and two thirds of the
      upload, 33 and 67 hundredths exactly; a finished crawl alone reads 33. */
  lemma OverallIsWeighted(s: Snapshot)
    requires s.crawl <= 100 && s.upload <= 100
    ensures s.status == Some(Complete) ==> Overall(s) == 100
    ensures s.status != Some(Complete) ==> IsNearest(Overall(s), 33 * s.crawl + 67 * s.upload, 100)
    ensures s.status != Some(Complete) && s.upload == 0 && s.crawl == 100 ==> Overall(s) == 33
  {
    HalfEvenIsNearest(Weighted(s.crawl, s.upload), 100);
    HalfEvenMonotone(Weighted(s.crawl, s.upload), Weighted(100, 100), 100);
    HalfEvenExact(100, 100);
    HalfEvenExact(33, 100);
  }

  /** `s'` reports at least what `s` does. */
  predicate NotBehind(s: Snapshot, s': Snapshot) {
    s'.status == Some(Complete)
    || (s.crawl <= s'.crawl && s.upload <= s'.upload
        && (s.status == Some(Complete) ==> s'.crawl == 100 && s'.upload == 100))
  }

  lemma OverallMonotone(s: Snapshot, s': Snapshot)
    requires NotBehind(s, s')
    ensures Overall(s) <= Overall(s')
  {
    if s'.status != Some(Complete) {
      HalfEvenMonotone(s.crawl * CRAWL_WEIGHT + s.upload * UPLOAD_WEIGHT,
                          s'.crawl * CRAWL_WEIGHT + s'.upload * UPLOAD_WEIGHT, 100);
      HalfEvenExact(100, 100);
    }
  }

  /** Once the crawl is over and the work not complete, 100 is reported exactly at full upload. */
  lemma HundredMeansUploaded(s: Snapshot)
    requires s.crawl == 100 && s.upload <= 100 && s.status != Some(Complete)
    ensures Overall(s) == 100 <==> s.upload == 100
  {
    if s.upload < 100 {
      HalfEvenMonotone(3300 + s.upload * UPLOAD_WEIGHT, 3300 + 99 * UPLOAD_WEIGHT, 100);
      assert RoundHalfEven(9933, 100) == 99;
    } else {
      HalfEvenExact(100, 100);
    }
  }

  // ---------------------------------------------------------------- runs

  datatype Event =
    | Progress(percent: nat)
    | CrawlCompleted(totalFiles: nat)
    | CrawlFailed
    | UploadStep(percent: nat)
    | UploadDone
    | UploadRaised

  function Apply(s: Snapshot, ev: Event): Snapshot {
    match ev
    case Progress(percent) => AfterProgress(s, percent)
    case CrawlCompleted(totalFiles) => AfterCompleted(s, totalFiles)
    case CrawlFailed => NothingToUpload(s)
    case UploadStep(percent) => AfterUploadStep(s, percent)
    case UploadDone => AfterUploadDone(s)
    case UploadRaised => AfterUploadFailed(s)
  }

  function After(events: seq<Event>): Snapshot {
    if events == [] then EMPTY else Apply(After(events[..|events| - 1]), events[|events| - 1])
  }

  predicate CrawlOpen(s: Snapshot) {
    (s.status.None? || s.status == Some(Crawling)) && s.upload == 0
  }

  /** `ev` comes in its turn: crawl percentages do not decrease, then the crawl ends once, then the
      upload percentages do not decrease, then the upload ends. */
  predicate InTurn(s: Snapshot, ev: Event) {
    match ev
    case Progress(percent) => CrawlOpen(s) && s.crawl <= percent <= 100
    case CrawlCompleted(_) => CrawlOpen(s)
    case CrawlFailed => CrawlOpen(s)
    case UploadStep(percent) => s.status == Some(Uploading) && s.upload <= percent <= 100
    case UploadDone => s.status == Some(Uploading)
    case UploadRaised => s.status == Some(Uploading) || s.status == Some(Complete)
  }

  /** Every event of the list comes in its turn. */
  predicate InOrder(events: seq<Event>) {
    events == []
    || (InOrder(events[..|events| - 1]) && InTurn(After(events[..|events| - 1]), events[|events| - 1]))
  }

  lemma {:induction false} InOrderPrefix(events: seq<Event>, n: nat)
    requires InOrder(events) && n <= |events|
    ensures InOrder(events[..n])
  {
    if n == |events| {
      assert events[..n] == events;
    } else {
      InOrderPrefix(events[..|events| - 1], n);
      assert events[..|events| - 1][..n] == events[..n];
    }
  }

  predicate WellFormed(s: Snapshot) {
    && s.crawl <= 100 && s.upload <= 100
    && (s.status == Some(Uploading) || s.status == Some(UploadFailed) || s.status == Some(Complete) ==> s.crawl == 100)
    && (s.status == Some(Complete) ==> s.upload == 100)
  }

  lemma {:induction false} InOrderWellFormed(events: seq<Event>)
    requires InOrder(events)
    ensures WellFormed(After(events))
  {
    if events != [] {
      InOrderWellFormed(events[..|events| - 1]);
    }
  }

  /** In an in-order run the reported percentage stays within 0..100 and never decreases. */
  lemma {:induction false} ReportNeverDecreases(events: seq<Event>, i: nat, j: nat)
    requires InOrder(events) && i <= j <= |events|
    ensures Overall(After(events[..i])) <= Overall(After(events[..j])) <= 100
    decreases j
  {
    if i < j {
      ReportNeverDecreases(events, i, j - 1);
      InOrderPrefix(events, j);
      assert events[..j][..j - 1] == events[..j - 1];
      InOrderWellFormed(events[..j - 1]);
      OverallMonotone(After(events[..j - 1]), After(events[..j]));
    }
  }

  /** While the work is not complete a finished crawl reads 100 exactly at full upload. */
  lemma InOrderHundred(events: seq<Event>)
    requires InOrder(events)
    ensures var s := After(events);
            s.crawl == 100 && s.status != Some(Complete) ==> (Overall(s) == 100 <==> s.upload == 100)
  {
    InOrderWellFormed(events);
    var s := After(events);
    if s.crawl == 100 && s.status != Some(Complete) {
      HundredMeansUploaded(s);
    }
  }

  // ---------------------------------------------------------------- when an event lowers the report

  /** A weighted sum of hundredths rounds to less than `report`: it lies below the half-way point
      under it, or on that point when `report` is odd. */
  predicate RoundsBelow(weighted: nat, report: nat) {
    weighted + 50 < 100 * report || (weighted + 50 == 100 * report && report % 2 == 1)
  }

  lemma RoundsBelowIff(weighted: nat, report: nat)
    ensures RoundHalfEven(weighted, 100) < report <==> RoundsBelow(weighted, report)
  {
    var q := weighted / 100;
    assert weighted == 100 * q + weighted % 100;
  }

  /** Told from the stored snapshot and the event alone. */
  predicate Lowers(s: Snapshot, ev: Event) {
    match ev
    case Progress(percent) => RoundsBelow(Weighted(percent, s.upload), Overall(s))
    case CrawlCompleted(totalFiles) => totalFiles > 0 && Overall(s) > CRAWL_WEIGHT
    case CrawlFailed => false
    case UploadStep(percent) => RoundsBelow(Weighted(s.crawl, percent), Overall(s))
    case UploadDone => false
    case UploadRaised => s.status == Some(Complete) && RoundsBelow(Weighted(s.crawl, s.upload), 100)
  }

  /** Whatever is stored, in order or not, an event lowers the reported percentage exactly then. */
  lemma LowersIff(s: Snapshot, ev: Event)
    ensures Overall(Apply(s, ev)) < Overall(s) <==> Lowers(s, ev)
  {
    match ev
    case Progress(percent) => RoundsBelowIff(Weighted(percent, s.upload), Overall(s));
    case CrawlCompleted(_) => HalfEvenExact(CRAWL_WEIGHT, 100);
    case UploadStep(percent) => RoundsBelowIff(Weighted(s.crawl, percent), Overall(s));
    case UploadRaised => RoundsBelowIff(Weighted(s.crawl, s.upload), 100);
    case _ =>
  }

  predicate NeverLowered(events: seq<Event>) {
    events == []
    || (NeverLowered(events[..|events| - 1]) && !Lowers(After(events[..|events| - 1]), events[|events| - 1]))
  }

  predicate Rising(reports: seq<nat>) {
    forall i, j :: 0 <= i < j < |reports| ==> reports[i] <= reports[j]
  }

  /** The percentages reported before the first event and after each one. */
  function Reports(events: seq<Event>): (reports: seq<nat>)
    ensures |reports| == |events| + 1 && reports[|events|] == Overall(After(events))
  {
    if events == [] then [Overall(EMPTY)] else Reports(events[..|events| - 1]) + [Overall(After(events))]
  }

  lemma RisingStep(reports: seq<nat>, next: nat)
    requires reports != []
    ensures Rising(reports + [next]) <==> Rising(reports) && reports[|reports| - 1] <= next
  {
    var all := reports + [next];
    if Rising(all) {
      forall i, j | 0 <= i < j < |reports| ensures reports[i] <= reports[j] {
        assert all[i] <= all[j];
      }
      assert all[|reports| - 1] <= all[|reports|];
    }
  }

  /** A run of any events reports never-decreasing percentages exactly when none of them lowers. */
  lemma {:induction false} RisingIff(events: seq<Event>)
    ensures Rising(Reports(events)) <==> NeverLowered(events)
  {
    if events != [] {
      var before := events[..|events| - 1];
      RisingIff(before);
      RisingStep(Reports(before), Overall(After(events)));
      LowersIff(After(before), events[|events| - 1]);
    }
  }

  /** On a complete content base a crawl percentage lowers the report exactly up to 98, an upload
      percentage exactly up to 99; a failing upload does not. */
  lemma LowersComplete(s: Snapshot, percent: nat)
    requires WellFormed(s) && s.status == Some(Complete)
    ensures Lowers(s, Progress(percent)) <==> percent <= 98
    ensures Lowers(s, UploadStep(percent)) <==> percent <= 99
    ensures !Lowers(s, UploadRaised)
  {
  }

  /** Before completion a crawl percentage not below the stored one never lowers the report, and one
      at least 4 below always does; an upload percentage at least 2 below always does. */
  lemma LowersIncomplete(s: Snapshot, percent: nat)
    requires WellFormed(s) && s.status != Some(Complete)
    ensures percent >= s.crawl ==> !Lowers(s, Progress(percent))
    ensures percent + 4 <= s.crawl ==> Lowers(s, Progress(percent))
    ensures percent >= s.upload ==> !Lowers(s, UploadStep(percent))
    ensures percent + 2 <= s.upload ==> Lowers(s, UploadStep(percent))
  {
    var exact := RoundHalfEven(Weighted(s.crawl, s.upload), 100);
    HalfEvenIsNearest(Weighted(s.crawl, s.upload), 100);
    HalfEvenMonotone(Weighted(s.crawl, s.upload), Weighted(100, 100), 100);
    HalfEvenExact(100, 100);
    assert Overall(s) == exact;
    RoundsBelowIff(Weighted(s.crawl, s.upload), exact);
  }

  /** Witnesses: a crawl percentage and a second completion, each after the crawl ended. */
  lemma LateEventsLowerReport()
    ensures Lowers(After([CrawlCompleted(10)]), Progress(40))
    ensures Lowers(After([CrawlCompleted(10), UploadStep(50)]), CrawlCompleted(10))
  {
    var first, second := [CrawlCompleted(10)], [CrawlCompleted(10), UploadStep(50)];
    assert first[..0] == [] && second[..1] == first;
    assert After(first) == Snapshot(100, 0, Some(Uploading), 10);
    assert After(second) == Snapshot(100, 50, Some(Uploading), 10);
    assert RoundHalfEven(3300, 100) == 33 && RoundHalfEven(6650, 100) == 66;
  }
}

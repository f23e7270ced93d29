/** Background upload of crawled content: batches of 25 files, each polled until it is ingested. */
module ContentUpload {
  import opened Common
  import opened Arithmetic
  import opened ContentProgress
  import opened Filenames

  const BATCH_MAX_FILES: nat := 25
  const BATCH_STATUS_MAX_ATTEMPTS: nat := 300

  // ---------------------------------------------------------------- batches

  function ChunkFiles(files: seq<File>, size: nat): seq<seq<File>>
    requires size > 0
  {
    if files == [] then []
    else if |files| <= size then [files]
    else [files[..size]] + ChunkFiles(files[size..], size)
  }

  function Flatten(batches: seq<seq<File>>): seq<File> {
    if batches == [] then [] else batches[0] + Flatten(batches[1..])
  }

  lemma CeilStep(n: nat, size: nat)
    requires 0 < size < n
    ensures (n + size - 1) / size == 1 + (n - size + size - 1) / size
  {
    var q := (n - 1) / size;
    QuotientAtLeast(n - 1, size, q);
    QuotientAtLeast(n - 1, size, q + 1);
    QuotientAtLeast(n + size - 1, size, q + 1);
    QuotientAtLeast(n + size - 1, size, q + 2);
    assert (q + 1) * size == q * size + size && (q + 2) * size == q * size + 2 * size;
  }

  lemma CeilSmall(n: nat, size: nat)
    requires 0 < n <= size
    ensures (n + size - 1) / size == 1
  {
    QuotientAtLeast(n + size - 1, size, 1);
    QuotientAtLeast(n + size - 1, size, 2);
  }

  lemma {:induction false} ChunkCount(files: seq<File>, size: nat)
    requires size > 0
    ensures |ChunkFiles(files, size)| == (|files| + size - 1) / size
    decreases |files|
  {
    if |files| > size {
      ChunkCount(files[size..], size);
      CeilStep(|files|, size);
    } else if files != [] {
      CeilSmall(|files|, size);
    } else {
      QuotientAtLeast(size - 1, size, 1);
    }
  }

  lemma {:induction false} ChunkSizes(files: seq<File>, size: nat, i: nat)
    requires size > 0 && i < |ChunkFiles(files, size)|
    ensures 0 < |ChunkFiles(files, size)[i]| <= size
    ensures i < |ChunkFiles(files, size)| - 1 ==> |ChunkFiles(files, size)[i]| == size
    decreases |files|
  {
    if i > 0 {
      ChunkSizes(files[size..], size, i - 1);
    }
  }

  /** The batches are the file list cut into pieces of `size`, only the last possibly shorter. */
  lemma {:induction false} ChunksAreTheFiles(files: seq<File>, size: nat)
    requires size > 0
    ensures Flatten(ChunkFiles(files, size)) == files
    ensures |ChunkFiles(files, size)| == (|files| + size - 1) / size
    ensures forall i: nat :: i < |ChunkFiles(files, size)| ==> 0 < |ChunkFiles(files, size)[i]| <= size
    ensures forall i: nat :: i < |ChunkFiles(files, size)| - 1 ==> |ChunkFiles(files, size)[i]| == size
    decreases |files|
  {
    ChunkCount(files, size);
    forall i: nat | i < |ChunkFiles(files, size)|
      ensures 0 < |ChunkFiles(files, size)[i]| <= size
      ensures i < |ChunkFiles(files, size)| - 1 ==> |ChunkFiles(files, size)[i]| == size
    {
      ChunkSizes(files, size, i);
    }
    if |files| > size {
      ChunksAreTheFiles(files[size..], size);
      assert files == files[..size] + files[size..];
    }
  }

  // ---------------------------------------------------------------- percentages

  function ComputeUploadPercent(batchIndex: nat, batchSize: nat, totalFiles: nat, batchPercent: nat): nat {
    if totalFiles == 0 then 0
    else Min(100, RoundHalfEven(100 * (BATCH_MAX_FILES * batchIndex) + batchPercent * batchSize, totalFiles))
  }

  lemma UploadPercentMonotone(i: nat, size: nat, pct: nat, j: nat, size': nat, pct': nat, total: nat)
    requires total > 0
    requires 100 * (BATCH_MAX_FILES * i) + pct * size <= 100 * (BATCH_MAX_FILES * j) + pct' * size'
    ensures ComputeUploadPercent(i, size, total, pct) <= ComputeUploadPercent(j, size', total, pct')
  {
    HalfEvenMonotone(100 * (BATCH_MAX_FILES * i) + pct * size, 100 * (BATCH_MAX_FILES * j) + pct' * size', total);
  }

  /** The persisted percentage is the nearest to the files of earlier batches plus this batch's share,
      of all files; it is 100 once the last batch is done. */
  lemma UploadPercentIsShare(i: nat, size: nat, total: nat, percent: nat)
    requires total > 0 && 25 * i + size <= total && percent <= 100
    ensures IsNearest(ComputeUploadPercent(i, size, total, percent), 100 * (25 * i) + percent * size, total)
    ensures 25 * i + size == total && percent == 100 ==> ComputeUploadPercent(i, size, total, percent) == 100
  {
    var done := 100 * (25 * i) + percent * size;
    MulLe(percent, 100, size);
    HalfEvenIsNearest(done, total);
    HalfEvenMonotone(done, 100 * total, total);
    HalfEvenExact(100, total);
  }

  // ---------------------------------------------------------------- one batch

  /** The answer to one status poll; no answer at all is `None`. */
  datatype Poll = Poll(percent: nat, isComplete: bool)

  /** The percentages persisted from attempt `k` on: one per answered poll, up to completion. */
  function PollTrace(i: nat, size: nat, total: nat, answer: nat -> Option<Poll>, k: nat): (trace: seq<nat>)
    requires k <= BATCH_STATUS_MAX_ATTEMPTS
    decreases BATCH_STATUS_MAX_ATTEMPTS - k, answer(k).None?
  {
    if k == BATCH_STATUS_MAX_ATTEMPTS then []
    else if answer(k).None? then PollTrace(i, size, total, answer, k + 1)
    else
      var percent := ComputeUploadPercent(i, size, total, answer(k).value.percent);
      [percent] + if answer(k).value.isComplete then [] else PollTrace(i, size, total, answer, k + 1)
  }

  function PollCount(answer: nat -> Option<Poll>, k: nat): (count: nat)
    requires k <= BATCH_STATUS_MAX_ATTEMPTS
    ensures count <= BATCH_STATUS_MAX_ATTEMPTS - k
    decreases BATCH_STATUS_MAX_ATTEMPTS - k, answer(k).None?
  {
    if k == BATCH_STATUS_MAX_ATTEMPTS then 0
    else if answer(k).Some? && answer(k).value.isComplete then 1
    else 1 + PollCount(answer, k + 1)
  }

  /** The service reports percentages in 0..100 that do not decrease within a batch. */
  ghost predicate Steady(answer: nat -> Option<Poll>) {
    && (forall k :: answer(k).Some? ==> answer(k).value.percent <= 100)
    && (forall j, k :: j <= k && answer(j).Some? && answer(k).Some? ==>
          answer(j).value.percent <= answer(k).value.percent)
  }

  predicate NonDecreasing(trace: seq<nat>) {
    forall i, j :: 0 <= i < j < |trace| ==> trace[i] <= trace[j]
  }

  predicate Within(trace: seq<nat>, low: nat, high: nat) {
    forall i :: 0 <= i < |trace| ==> low <= trace[i] <= high
  }

  /** Two ordered stretches that meet in the middle form an ordered one. */
  lemma JoinOrdered(a: seq<nat>, b: seq<nat>, low: nat, middle: nat, high: nat)
    requires NonDecreasing(a) && Within(a, low, middle)
    requires NonDecreasing(b) && Within(b, middle, high)
    requires low <= middle <= high
    ensures NonDecreasing(a + b) && Within(a + b, low, high)
  {
  }

  /** The persisted percentages of a batch never decrease and stay between its two ends. */
  lemma {:induction false} PollTraceOrdered(i: nat, size: nat, total: nat, answer: nat -> Option<Poll>, k: nat,
                                              floor: nat)
    requires k <= BATCH_STATUS_MAX_ATTEMPTS && total > 0 && Steady(answer) && floor <= 100
    requires forall j: nat :: j >= k && answer(j).Some? ==> floor <= answer(j).value.percent
    ensures NonDecreasing(PollTrace(i, size, total, answer, k))
    ensures Within(PollTrace(i, size, total, answer, k),
                   ComputeUploadPercent(i, size, total, floor), ComputeUploadPercent(i, size, total, 100))
    decreases BATCH_STATUS_MAX_ATTEMPTS - k
  {
    if k < BATCH_STATUS_MAX_ATTEMPTS {
      if answer(k).None? {
        PollTraceOrdered(i, size, total, answer, k + 1, floor);
      } else {
        var pct := answer(k).value.percent;
        var rest := if answer(k).value.isComplete then [] else PollTrace(i, size, total, answer, k + 1);
        BetweenEnds(i, size, total, floor, pct);
        if !answer(k).value.isComplete {
          PollTraceOrdered(i, size, total, answer, k + 1, pct);
        }
        var percent := ComputeUploadPercent(i, size, total, pct);
        JoinOrdered([percent], rest, ComputeUploadPercent(i, size, total, floor), percent,
                    ComputeUploadPercent(i, size, total, 100));
      }
    }
  }

  lemma BetweenEnds(i: nat, size: nat, total: nat, floor: nat, pct: nat)
    requires total > 0 && floor <= pct <= 100
    ensures ComputeUploadPercent(i, size, total, floor) <= ComputeUploadPercent(i, size, total, pct)
            <= ComputeUploadPercent(i, size, total, 100)
  {
    MulLe(floor, pct, size);
    MulLe(pct, 100, size);
    UploadPercentMonotone(i, size, floor, i, size, pct, total);
    UploadPercentMonotone(i, size, pct, i, size, 100, total);
  }

  // ---------------------------------------------------------------- the whole upload

  /** The answer to one batch submission: refused (or nothing uploaded), or accepted with a number
      of file ids and the polls that follow. */
  datatype BatchAnswer = Refused | Accepted(fileIds: nat, polls: nat -> Option<Poll>)

  /** How many batches go through before the first refusal among the first `n`. */
  function AcceptedCount(n: nat, answers: nat -> BatchAnswer): (m: nat)
    ensures m <= n
    ensures forall i :: 0 <= i < m ==> answers(i).Accepted?
    ensures m < n ==> answers(m).Refused?
  {
    if n == 0 then 0
    else
      var m := AcceptedCount(n - 1, answers);
      if m == n - 1 && answers(n - 1).Accepted? then n else m
  }

  function TraceOf(files: seq<File>, answers: nat -> BatchAnswer, i: nat): seq<nat>
    requires i < |ChunkFiles(files, BATCH_MAX_FILES)|
  {
    if answers(i).Refused? then []
    else PollTrace(i, |ChunkFiles(files, BATCH_MAX_FILES)[i]|, |files|, answers(i).polls, 0)
  }

  /** The percentages persisted by the first `m` batches. */
  function UploadTrace(files: seq<File>, answers: nat -> BatchAnswer, m: nat): seq<nat>
    requires m <= |ChunkFiles(files, BATCH_MAX_FILES)|
  {
    if m == 0 then [] else UploadTrace(files, answers, m - 1) + TraceOf(files, answers, m - 1)
  }

  /** The batches sent: those accepted and the refused one, if any. */
  function SentCount(n: nat, answers: nat -> BatchAnswer): (m: nat)
    ensures m <= n
  {
    Min(n, AcceptedCount(n, answers) + 1)
  }

  function FileIdsAt(answers: nat -> BatchAnswer, i: nat): nat {
    if answers(i).Accepted? then answers(i).fileIds else 0
  }

  function PollsAt(answers: nat -> BatchAnswer, i: nat): (count: nat)
    ensures count <= BATCH_STATUS_MAX_ATTEMPTS
  {
    if answers(i).Accepted? then PollCount(answers(i).polls, 0) else 0
  }

  function FileIds(answers: nat -> BatchAnswer, m: nat): nat {
    if m == 0 then 0
    else FileIds(answers, m - 1) + FileIdsAt(answers, m - 1)
  }

  function PollTotal(answers: nat -> BatchAnswer, m: nat): (total: nat)
    ensures total <= BATCH_STATUS_MAX_ATTEMPTS * m
  {
    if m == 0 then 0
    else PollTotal(answers, m - 1) + PollsAt(answers, m - 1)
  }

  /** The whole upload returns normally exactly when no batch is refused and some id came back. */
  predicate Succeeds(files: seq<File>, answers: nat -> BatchAnswer) {
    var n := |ChunkFiles(files, BATCH_MAX_FILES)|;
    AcceptedCount(n, answers) == n && FileIds(answers, n) > 0
  }

  lemma {:induction false} SomeFileIds(answers: nat -> BatchAnswer, m: nat)
    ensures FileIds(answers, m) > 0 <==>
            exists i: nat :: i < m && answers(i).Accepted? && answers(i).fileIds > 0
  {
    if m > 0 {
      SomeFileIds(answers, m - 1);
    }
  }

  lemma {:induction false} AllAcceptedIff(answers: nat -> BatchAnswer, n: nat)
    ensures AcceptedCount(n, answers) == n <==> forall i: nat :: i < n ==> answers(i).Accepted?
  {
    if n > 0 {
      AllAcceptedIff(answers, n - 1);
    }
  }

  /** An upload succeeds exactly when every batch is accepted and one of them brings a file id. */
  lemma SucceedsIff(files: seq<File>, answers: nat -> BatchAnswer)
    ensures var n := |ChunkFiles(files, BATCH_MAX_FILES)|;
            Succeeds(files, answers) <==>
            (forall i: nat :: i < n ==> answers(i).Accepted?)
            && exists i: nat :: i < n && answers(i).Accepted? && answers(i).fileIds > 0
  {
    var n := |ChunkFiles(files, BATCH_MAX_FILES)|;
    SomeFileIds(answers, n);
    AllAcceptedIff(answers, n);
  }

  /** The batches sent are all of them, or those up to and including the first refused one. */
  lemma {:induction false} SentThroughFirstRefusal(n: nat, answers: nat -> BatchAnswer, k: nat)
    requires k <= n && (forall i: nat :: i < k ==> answers(i).Accepted?) && (k < n ==> answers(k).Refused?)
    ensures SentCount(n, answers) == if k < n then k + 1 else n
    ensures AcceptedCount(n, answers) == k
  {
    if n > 0 {
      SentThroughFirstRefusal(n - 1, answers, if k < n then k else k - 1);
    }
  }

  predicate Completes(answer: nat -> Option<Poll>, k: nat) {
    answer(k).Some? && answer(k).value.isComplete
  }

  lemma {:induction false} PollsFrom(answer: nat -> Option<Poll>, k: nat, last: nat)
    requires k <= last < 300 && Completes(answer, last)
    requires forall j: nat :: k <= j < last ==> !Completes(answer, j)
    ensures PollCount(answer, k) == last - k + 1
    decreases last - k
  {
    if k < last {
      assert !Completes(answer, k);
      PollsFrom(answer, k + 1, last);
    }
  }

  lemma {:induction false} PollsOn(answer: nat -> Option<Poll>, k: nat)
    requires k <= 300 && forall j: nat :: k <= j < 300 ==> !Completes(answer, j)
    ensures PollCount(answer, k) == 300 - k
    decreases 300 - k
  {
    if k < 300 {
      assert !Completes(answer, k);
      PollsOn(answer, k + 1);
    }
  }

  /** A batch is polled up to its first completing answer, and 300 times when there is none. */
  lemma PollsUntilComplete(answer: nat -> Option<Poll>, last: nat)
    ensures last < 300 && Completes(answer, last) && (forall j: nat :: j < last ==> !Completes(answer, j)) ==>
              PollCount(answer, 0) == last + 1
    ensures (forall j: nat :: j < 300 ==> !Completes(answer, j)) ==> PollCount(answer, 0) == 300
  {
    if last < 300 && Completes(answer, last) && forall j: nat :: j < last ==> !Completes(answer, j) {
      PollsFrom(answer, 0, last);
    }
    if forall j: nat :: j < 300 ==> !Completes(answer, j) {
      PollsOn(answer, 0);
    }
  }

  /** The share written for the answer to poll `j`. */
  function WrittenAt(i: nat, size: nat, total: nat, answer: nat -> Option<Poll>, j: nat): seq<nat> {
    if answer(j).Some? then [ComputeUploadPercent(i, size, total, answer(j).value.percent)] else []
  }

  function WrittenUpTo(i: nat, size: nat, total: nat, answer: nat -> Option<Poll>, n: nat): seq<nat> {
    if n == 0 then [] else WrittenUpTo(i, size, total, answer, n - 1) + WrittenAt(i, size, total, answer, n - 1)
  }

  lemma {:induction false} TraceFrom(i: nat, size: nat, total: nat, answer: nat -> Option<Poll>, k: nat)
    requires k <= BATCH_STATUS_MAX_ATTEMPTS
    ensures WrittenUpTo(i, size, total, answer, k) + PollTrace(i, size, total, answer, k)
            == WrittenUpTo(i, size, total, answer, k + PollCount(answer, k))
    decreases BATCH_STATUS_MAX_ATTEMPTS - k
  {
    if k < BATCH_STATUS_MAX_ATTEMPTS {
      var before := WrittenUpTo(i, size, total, answer, k);
      var own := WrittenAt(i, size, total, answer, k);
      if Completes(answer, k) {
        assert PollTrace(i, size, total, answer, k) == own;
      } else {
        TraceFrom(i, size, total, answer, k + 1);
        Associates(before, own, PollTrace(i, size, total, answer, k + 1));
        assert PollTrace(i, size, total, answer, k) == own + PollTrace(i, size, total, answer, k + 1);
      }
    }
  }

  /** One percentage is written for each answered poll, in order, and none for an unanswered one. */
  lemma AnsweredPollsAreWritten(i: nat, size: nat, total: nat, answer: nat -> Option<Poll>)
    ensures PollTrace(i, size, total, answer, 0) == WrittenUpTo(i, size, total, answer, PollCount(answer, 0))
  {
    TraceFrom(i, size, total, answer, 0);
    assert WrittenUpTo(i, size, total, answer, 0) + PollTrace(i, size, total, answer, 0)
        == PollTrace(i, size, total, answer, 0);
  }

  function Steps(percents: seq<nat>): seq<Event> {
    seq(|percents|, i requires 0 <= i < |percents| => UploadStep(percents[i]))
  }

  /** The writes of one upload run, in order. */
  function BatchEvents(files: seq<File>, answers: nat -> BatchAnswer, m: nat): seq<Event>
    requires m <= |ChunkFiles(files, BATCH_MAX_FILES)|
  {
    if m == 0 then [] else BatchEvents(files, answers, m - 1) + Steps(TraceOf(files, answers, m - 1))
  }

  function UploadEvents(files: seq<File>, answers: nat -> BatchAnswer): seq<Event> {
    var n := |ChunkFiles(files, BATCH_MAX_FILES)|;
    BatchEvents(files, answers, SentCount(n, answers)) + if Succeeds(files, answers) then [UploadDone] else []
  }

  /** What was sent, what was persisted, and how often the service was polled. */
  datatype UploadLog = UploadLog(submitted: seq<seq<File>>, written: seq<Event>, polls: nat)

  ghost function AfterBatches(start: UploadLog, files: seq<File>, answers: nat -> BatchAnswer, m: nat): UploadLog
    requires m <= |ChunkFiles(files, BATCH_MAX_FILES)|
  {
    UploadLog(start.submitted + ChunkFiles(files, BATCH_MAX_FILES)[..m],
              start.written + BatchEvents(files, answers, m),
              start.polls + PollTotal(answers, m))
  }

  lemma AfterOneMore(start: UploadLog, files: seq<File>, answers: nat -> BatchAnswer, m: nat)
    requires m < |ChunkFiles(files, BATCH_MAX_FILES)|
    ensures var before := AfterBatches(start, files, answers, m);
            AfterBatches(start, files, answers, m + 1)
            == UploadLog(before.submitted + [ChunkFiles(files, BATCH_MAX_FILES)[m]],
                         before.written + Steps(TraceOf(files, answers, m)),
                         before.polls + PollsAt(answers, m))
  {
    OneMore(start.submitted, ChunkFiles(files, BATCH_MAX_FILES), m);
    Associates(start.written, BatchEvents(files, answers, m), Steps(TraceOf(files, answers, m)));
  }

  /** The loop over the batches after `sent` of them. */
  ghost predicate SentSoFar(start: UploadLog, log: UploadLog, files: seq<File>, answers: nat -> BatchAnswer,
                            sent: nat, refused: bool, fileIds: nat)
  {
    && sent <= |ChunkFiles(files, BATCH_MAX_FILES)|
    && (refused <==> sent > 0 && answers(sent - 1).Refused?)
    && AcceptedCount(sent, answers) == (if refused then sent - 1 else sent)
    && log == AfterBatches(start, files, answers, sent)
    && fileIds == FileIds(answers, sent)
  }

  lemma NothingSent(start: UploadLog, files: seq<File>, answers: nat -> BatchAnswer)
    ensures SentSoFar(start, start, files, answers, 0, false, 0)
  {
  }

  lemma SendOneMore(start: UploadLog, log: UploadLog, files: seq<File>, answers: nat -> BatchAnswer,
                    sent: nat, fileIds: nat, log': UploadLog)
    requires SentSoFar(start, log, files, answers, sent, false, fileIds) && sent < |ChunkFiles(files, BATCH_MAX_FILES)|
    requires log' == UploadLog(log.submitted + [ChunkFiles(files, BATCH_MAX_FILES)[sent]],
                               log.written + Steps(TraceOf(files, answers, sent)), log.polls + PollsAt(answers, sent))
    ensures SentSoFar(start, log', files, answers, sent + 1, answers(sent).Refused?, fileIds + FileIdsAt(answers, sent))
  {
    AfterOneMore(start, files, answers, sent);
  }

  lemma AllSent(start: UploadLog, log: UploadLog, files: seq<File>, answers: nat -> BatchAnswer,
                sent: nat, refused: bool, fileIds: nat)
    requires SentSoFar(start, log, files, answers, sent, refused, fileIds)
    requires refused || sent == |ChunkFiles(files, BATCH_MAX_FILES)|
    ensures sent == SentCount(|ChunkFiles(files, BATCH_MAX_FILES)|, answers)
  {
    StopsAt(|ChunkFiles(files, BATCH_MAX_FILES)|, sent, answers);
  }

  lemma OneMore<T>(a: seq<T>, b: seq<T>, m: nat)
    requires m < |b|
    ensures a + b[..m + 1] == a + b[..m] + [b[m]]
  {
  }

  lemma Associates<T>(a: seq<T>, b: seq<T>, c: seq<T>)
    ensures a + (b + c) == a + b + c
  {
  }

  /** From these writes and polls the attempts left from `k` on lead to those totals. */
  ghost predicate Leads(written: seq<Event>, polls: nat, i: nat, size: nat, total: nat, answer: nat -> Option<Poll>,
                        k: nat, allWritten: seq<Event>, allPolls: nat)
    requires k <= BATCH_STATUS_MAX_ATTEMPTS
  {
    written + Steps(PollTrace(i, size, total, answer, k)) == allWritten && polls + PollCount(answer, k) == allPolls
  }

  lemma LeadsOn(written: seq<Event>, polls: nat, i: nat, size: nat, total: nat, answer: nat -> Option<Poll>,
                k: nat, allWritten: seq<Event>, allPolls: nat)
    requires k < BATCH_STATUS_MAX_ATTEMPTS
    requires Leads(written, polls, i, size, total, answer, k, allWritten, allPolls)
    ensures answer(k).None? ==> Leads(written, polls + 1, i, size, total, answer, k + 1, allWritten, allPolls)
    ensures answer(k).Some? ==>
              var next := written + [UploadStep(ComputeUploadPercent(i, size, total, answer(k).value.percent))];
              if answer(k).value.isComplete then next == allWritten && polls + 1 == allPolls
              else Leads(next, polls + 1, i, size, total, answer, k + 1, allWritten, allPolls)
  {
    if answer(k).Some? {
      var percent := ComputeUploadPercent(i, size, total, answer(k).value.percent);
      if answer(k).value.isComplete {
        assert PollTrace(i, size, total, answer, k) == [percent];
        assert Steps([percent]) == [UploadStep(percent)];
      } else {
        StepsConcat([percent], PollTrace(i, size, total, answer, k + 1));
        assert Steps([percent]) == [UploadStep(percent)];
        Associates(written, Steps([percent]), Steps(PollTrace(i, size, total, answer, k + 1)));
      }
    }
  }

  /** The upload task: `written` are its snapshot writes, `submitted` the batches it sent and `polls`
      the status requests it made. */
  class ContentUploader {
    var snapshot: Snapshot
    var written: seq<Event>
    var submitted: seq<seq<File>>
    var polls: nat

    constructor (snapshot: Snapshot)
      ensures this.snapshot == snapshot && written == [] && submitted == [] && polls == 0
    {
      this.snapshot, written, submitted, polls := snapshot, [], [], 0;
    }

    method Persist(ev: Event)
      modifies this`snapshot, this`written
      ensures snapshot == Apply(old(snapshot), ev) && written == old(written) + [ev]
    {
      snapshot := Apply(snapshot, ev);
      written := written + [ev];
    }

    /** Poll until the batch is complete or the attempts are used up. */
    method WaitForBatch(i: nat, size: nat, total: nat, answer: nat -> Option<Poll>)
      modifies this`snapshot, this`written, this`polls
      ensures written == old(written) + Steps(PollTrace(i, size, total, answer, 0))
      ensures polls == old(polls) + PollCount(answer, 0)
    {
      var attempt := 0;
      while attempt < BATCH_STATUS_MAX_ATTEMPTS
        invariant attempt <= BATCH_STATUS_MAX_ATTEMPTS
        invariant Leads(written, polls, i, size, total, answer, attempt,
                        old(written) + Steps(PollTrace(i, size, total, answer, 0)), old(polls) + PollCount(answer, 0))
      {
        LeadsOn(written, polls, i, size, total, answer, attempt,
                old(written) + Steps(PollTrace(i, size, total, answer, 0)), old(polls) + PollCount(answer, 0));
        polls := polls + 1;
        var response := answer(attempt);
        if response.Some? {
          var percent := ComputeUploadPercent(i, size, total, response.value.percent);
          Persist(UploadStep(percent));
          if response.value.isComplete {
            return;
          }
        }
        attempt := attempt + 1;
      }
    }

    ghost function Log(): UploadLog
      reads this
    {
      UploadLog(submitted, written, polls)
    }

    /** Send batch `i` and, unless it is refused, wait for it. */
    method SubmitBatch(files: seq<File>, answers: nat -> BatchAnswer, i: nat, batch: seq<File>) returns (fileIds: nat)
      requires i < |ChunkFiles(files, BATCH_MAX_FILES)| && batch == ChunkFiles(files, BATCH_MAX_FILES)[i]
      modifies this
      ensures Log() == UploadLog(old(submitted) + [batch], old(written) + Steps(TraceOf(files, answers, i)),
                                 old(polls) + PollsAt(answers, i))
      ensures fileIds == FileIdsAt(answers, i)
    {
      submitted := submitted + [batch];
      if answers(i).Refused? {
        return 0;
      }
      WaitForBatch(i, |batch|, |files|, answers(i).polls);
      return answers(i).fileIds;
    }

    /** Send the batches in order up to the first refusal; `sent` of them were sent. */
    method SubmitBatches(files: seq<File>, answers: nat -> BatchAnswer) returns (fileIds: nat, sent: nat, refused: bool)
      modifies this
      ensures sent == SentCount(|ChunkFiles(files, BATCH_MAX_FILES)|, answers)
      ensures Log() == AfterBatches(old(Log()), files, answers, sent)
      ensures fileIds == FileIds(answers, sent)
      ensures refused <==> sent > 0 && answers(sent - 1).Refused?
    {
      var batches := ChunkFiles(files, BATCH_MAX_FILES);
      ghost var start := Log();
      fileIds, sent, refused := 0, 0, false;
      NothingSent(start, files, answers);
      while sent < |batches| && !refused
        invariant SentSoFar(start, Log(), files, answers, sent, refused, fileIds)
        decreases |batches| - sent
      {
        ghost var before := Log();
        var ids := SubmitBatch(files, answers, sent, batches[sent]);
        SendOneMore(start, before, files, answers, sent, fileIds, Log());
        fileIds := fileIds + ids;
        refused := answers(sent).Refused?;
        sent := sent + 1;
      }
      AllSent(start, Log(), files, answers, sent, refused, fileIds);
    }

    /** Nothing to upload leaves everything untouched; a refused batch or a run without ids raises. */
    method UploadContents(files: seq<File>, answers: nat -> BatchAnswer) returns (ok: bool)
      modifies this
      ensures ok <==> files == [] || Succeeds(files, answers)
      ensures files == [] ==> written == old(written) && submitted == old(submitted) && polls == old(polls)
      ensures files != [] ==>
                var batches := ChunkFiles(files, BATCH_MAX_FILES);
                var sent := SentCount(|batches|, answers);
                && written == old(written) + UploadEvents(files, answers)
                && submitted == old(submitted) + batches[..sent]
                && polls == old(polls) + PollTotal(answers, sent)
      ensures |old(submitted)| <= |submitted| && Flatten(submitted[|old(submitted)|..]) <= files
      ensures ok ==> Flatten(submitted[|old(submitted)|..]) == files
      ensures files != [] && ok ==> snapshot.upload == 100 && snapshot.status == Some(Complete)
    {
      if files == [] {
        return true;
      }
      var fileIds, sent, refused := SubmitBatches(files, answers);
      UploadIsBounded(files, answers);
      assert submitted[|old(submitted)|..] == ChunkFiles(files, BATCH_MAX_FILES)[..sent];
      if refused || fileIds == 0 {
        return false;
      }
      Persist(UploadDone);
      return true;
    }
  }

  lemma {:induction false} BatchEventsAreSteps(files: seq<File>, answers: nat -> BatchAnswer, m: nat)
    requires m <= |ChunkFiles(files, BATCH_MAX_FILES)|
    ensures BatchEvents(files, answers, m) == Steps(UploadTrace(files, answers, m))
  {
    if m > 0 {
      BatchEventsAreSteps(files, answers, m - 1);
      StepsConcat(UploadTrace(files, answers, m - 1), TraceOf(files, answers, m - 1));
    }
  }

  lemma StepsConcat(a: seq<nat>, b: seq<nat>)
    ensures Steps(a + b) == Steps(a) + Steps(b)
  {
  }

  lemma {:induction false} StopsAt(n: nat, sent: nat, answers: nat -> BatchAnswer)
    requires sent <= n
    requires AcceptedCount(sent, answers) == sent ==> sent == n
    requires AcceptedCount(sent, answers) != sent ==> AcceptedCount(sent, answers) == sent - 1
    ensures SentCount(n, answers) == sent
    ensures AcceptedCount(n, answers) == AcceptedCount(sent, answers)
  {
    if sent < n {
      StopsAt(n - 1, sent, answers);
    }
  }

  // ---------------------------------------------------------------- what a run shows

  ghost predicate AllSteady(answers: nat -> BatchAnswer) {
    forall i :: answers(i).Accepted? ==> Steady(answers(i).polls)
  }

  /** Across all batches the persisted percentages never decrease and stay within 0..100. */
  lemma {:induction false} UploadTraceOrdered(files: seq<File>, answers: nat -> BatchAnswer, m: nat)
    requires files != [] && AllSteady(answers) && m <= |ChunkFiles(files, BATCH_MAX_FILES)|
    ensures NonDecreasing(UploadTrace(files, answers, m))
    ensures Within(UploadTrace(files, answers, m), 0, StartPercent(files, m)) && StartPercent(files, m) <= 100
  {
    if m > 0 {
      var i := m - 1;
      UploadTraceOrdered(files, answers, i);
      BatchBounds(files, answers, i);
      JoinOrdered(UploadTrace(files, answers, i), TraceOf(files, answers, i), 0, StartPercent(files, i),
                  StartPercent(files, m));
    }
  }

  /** The percentage at which batch i starts. */
  function StartPercent(files: seq<File>, i: nat): nat {
    ComputeUploadPercent(i, 0, |files|, 0)
  }

  /** One batch starts where the earlier ones may end and ends where the next may start. */
  lemma BatchBounds(files: seq<File>, answers: nat -> BatchAnswer, i: nat)
    requires files != [] && AllSteady(answers) && i < |ChunkFiles(files, BATCH_MAX_FILES)|
    ensures NonDecreasing(TraceOf(files, answers, i))
    ensures Within(TraceOf(files, answers, i), StartPercent(files, i), StartPercent(files, i + 1))
    ensures StartPercent(files, i) <= StartPercent(files, i + 1)
  {
    UploadPercentMonotone(i, 0, 0, i + 1, 0, 0, |files|);
    if answers(i).Accepted? {
      var size := |ChunkFiles(files, BATCH_MAX_FILES)[i]|;
      ChunkSizes(files, BATCH_MAX_FILES, i);
      PollTraceOrdered(i, size, |files|, answers(i).polls, 0, 0);
      UploadPercentMonotone(i, 0, 0, i, size, 0, |files|);
      UploadPercentMonotone(i, size, 100, i + 1, 0, 0, |files|);
    }
  }

  /** The files sent by one upload. */
  function SentFiles(files: seq<File>, answers: nat -> BatchAnswer): seq<File> {
    var batches := ChunkFiles(files, BATCH_MAX_FILES);
    Flatten(batches[..SentCount(|batches|, answers)])
  }

  lemma {:induction false} FlattenPrefix(batches: seq<seq<File>>, m: nat)
    requires m <= |batches|
    ensures Flatten(batches[..m]) <= Flatten(batches)
  {
    if m > 0 {
      assert batches[..m][1..] == batches[1..][..m - 1];
      FlattenPrefix(batches[1..], m - 1);
    }
  }

  /** An upload sends a beginning of the file list, in order, and all of it unless a batch is refused;
      it polls at most 300 times per batch of 25, and a success ends with the completion write. */
  lemma {:induction false} UploadIsBounded(files: seq<File>, answers: nat -> BatchAnswer)
    ensures SentFiles(files, answers) <= files
    ensures Succeeds(files, answers) ==> SentFiles(files, answers) == files
    ensures PollTotal(answers, SentCount(|ChunkFiles(files, BATCH_MAX_FILES)|, answers)) <= 300 * ((|files| + 24) / 25)
    ensures Succeeds(files, answers) ==>
              UploadEvents(files, answers)[|UploadEvents(files, answers)| - 1] == UploadDone
  {
    ChunksAreTheFiles(files, BATCH_MAX_FILES);
    var batches := ChunkFiles(files, BATCH_MAX_FILES);
    FlattenPrefix(batches, SentCount(|batches|, answers));
    assert batches[..|batches|] == batches;
  }

  /** After an in-order crawl the writes of an upload are in turn, so the percentage reported to
      clients never decreases through the upload either. */
  lemma {:induction false} UploadStepsInTurn(before: seq<Event>, percents: seq<nat>, n: nat)
    requires InOrder(before) && After(before).status == Some(Uploading) && After(before).upload == 0
    requires NonDecreasing(percents) && Within(percents, 0, 100) && n <= |percents|
    ensures InOrder(before + Steps(percents[..n]))
    ensures var s := After(before + Steps(percents[..n]));
            s.status == Some(Uploading) && s.upload == (if n == 0 then 0 else percents[n - 1])
  {
    if n == 0 {
      assert before + Steps(percents[..0]) == before;
    } else {
      UploadStepsInTurn(before, percents, n - 1);
      var earlier := before + Steps(percents[..n - 1]);
      assert before + Steps(percents[..n]) == earlier + [UploadStep(percents[n - 1])];
      OneMoreInTurn(earlier, UploadStep(percents[n - 1]));
    }
  }

  lemma OneMoreInTurn(events: seq<Event>, ev: Event)
    requires InOrder(events) && InTurn(After(events), ev)
    ensures InOrder(events + [ev]) && After(events + [ev]) == Apply(After(events), ev)
  {
    assert (events + [ev])[..|events|] == events;
  }

  /** A completed crawl followed by its upload is an in-order run. */
  lemma CrawlThenUploadInOrder(crawl: seq<Event>, files: seq<File>, answers: nat -> BatchAnswer)
    requires files != [] && AllSteady(answers)
    requires InOrder(crawl) && CrawlOpen(After(crawl))
    ensures InOrder(crawl + [CrawlCompleted(|files|)] + UploadEvents(files, answers))
  {
    OneMoreInTurn(crawl, CrawlCompleted(|files|));
    var before := crawl + [CrawlCompleted(|files|)];
    var m := SentCount(|ChunkFiles(files, BATCH_MAX_FILES)|, answers);
    var percents := UploadTrace(files, answers, m);
    UploadTraceOrdered(files, answers, m);
    WithinHundred(percents, StartPercent(files, m));
    BatchEventsAreSteps(files, answers, m);
    StepsThenEnd(before, percents, Succeeds(files, answers));
    assert before + Steps(percents) + (if Succeeds(files, answers) then [UploadDone] else [])
        == before + UploadEvents(files, answers);
  }

  lemma WithinHundred(percents: seq<nat>, high: nat)
    requires Within(percents, 0, high) && high <= 100
    ensures Within(percents, 0, 100)
  {
  }

  lemma StepsThenEnd(before: seq<Event>, percents: seq<nat>, done: bool)
    requires InOrder(before) && After(before).status == Some(Uploading) && After(before).upload == 0
    requires NonDecreasing(percents) && Within(percents, 0, 100)
    ensures InOrder(before + Steps(percents) + if done then [UploadDone] else [])
  {
    UploadStepsInTurn(before, percents, |percents|);
    assert percents[..|percents|] == percents;
    if done {
      OneMoreInTurn(before + Steps(percents), UploadDone);
    } else {
      assert before + Steps(percents) + [] == before + Steps(percents);
    }
  }
}

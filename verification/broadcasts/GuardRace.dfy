/** The block guard without the protection of the enclosing transaction: the counter of one project
    under statement-by-statement interleaving, where nothing is locked between the atomic increment,
    the read-back, the check and the locked block. The guard's own re-check under lock is enough. */
module GuardRace {
  import opened Common
  import opened BroadcastRows

  datatype Worker =
    | Incremented
    | Reread(seen: Counter)
    | Blocking
    | Suspending
    | Done

  datatype State = State(counter: Counter, isBlocked: bool, blockWrites: nat, suspends: nat, workers: seq<Worker>)

  datatype Step =
    | Increment
    | ReadBack(w: nat)
    | Check(w: nat, limit: Option<nat>)
    | Block(w: nat, now: Time)
    | Suspend(w: nat)

  predicate At(s: State, w: nat, worker: Worker) {
    w < |s.workers| && s.workers[w] == worker
  }

  predicate Enabled(s: State, step: Step) {
    match step
    case Increment => true
    case ReadBack(w) => At(s, w, Incremented)
    case Check(w, _) => w < |s.workers| && s.workers[w].Reread?
    case Block(w, _) => At(s, w, Blocking)
    case Suspend(w) => At(s, w, Suspending)
  }

  function After(s: State, step: Step): State
    requires Enabled(s, step)
  {
    match step
    case Increment => s.(counter := BroadcastRows.Incremented(s.counter), workers := s.workers + [Incremented])
    case ReadBack(w) => s.(workers := s.workers[w := Reread(s.counter)])
    case Check(w, limit) =>
      s.(workers := s.workers[w := if ShouldBlock(s.workers[w].seen, limit) then Blocking else Done])
    case Block(w, now) =>
      if s.counter.blockedAt.Some? then s.(workers := s.workers[w := Done])
      else s.(counter := s.counter.(blockedAt := Some(now)), isBlocked := true,
              blockWrites := s.blockWrites + 1, workers := s.workers[w := Suspending])
    case Suspend(w) => s.(suspends := s.suspends + 1, workers := s.workers[w := Done])
  }

  function IsSuspending(): Worker -> int {
    (w: Worker) => if w.Suspending? then 1 else 0
  }

  ghost predicate Inv(s: State) {
    && s.counter.total == |s.workers|
    && s.blockWrites == (if s.counter.blockedAt.Some? then 1 else 0)
    && s.suspends + Sum(s.workers, IsSuspending()) == s.blockWrites
    && (s.counter.blockedAt.Some? ==> s.isBlocked)
  }

  ghost predicate Init(s: State) {
    s.counter == Counter(0, None) && s.blockWrites == 0 && s.suspends == 0 && s.workers == []
  }

  ghost predicate IsRun(states: seq<State>, steps: seq<Step>) {
    && |states| == |steps| + 1
    && Init(states[0])
    && forall i :: 0 <= i < |steps| ==> Enabled(states[i], steps[i]) && states[i + 1] == After(states[i], steps[i])
  }

  /** Moving one worker on changes the pending suspensions by what that worker owes. */
  lemma OneWorkerMoves(workers: seq<Worker>, w: nat, next: Worker)
    requires w < |workers|
    ensures Sum(workers[w := next], IsSuspending())
            == Sum(workers, IsSuspending()) - (if workers[w].Suspending? then 1 else 0)
               + (if next.Suspending? then 1 else 0)
  {
    SumUpdate(workers, w, next, IsSuspending());
  }

  lemma IncrementKeepsInv(s: State)
    requires Inv(s)
    ensures Inv(After(s, Increment))
  {
    SumAppend(s.workers, Incremented, IsSuspending());
  }

  lemma WorkerKeepsInv(s: State, step: Step)
    requires Inv(s) && Enabled(s, step) && !step.Increment?
    ensures Inv(After(s, step))
  {
    match step
    case ReadBack(w) => OneWorkerMoves(s.workers, w, Reread(s.counter));
    case Check(w, limit) =>
      OneWorkerMoves(s.workers, w, if ShouldBlock(s.workers[w].seen, limit) then Blocking else Done);
    case Block(w, _) => OneWorkerMoves(s.workers, w, if s.counter.blockedAt.Some? then Done else Suspending);
    case Suspend(w) => OneWorkerMoves(s.workers, w, Done);
  }

  lemma StepKeepsInv(s: State, step: Step)
    requires Inv(s) && Enabled(s, step)
    ensures Inv(After(s, step))
    ensures s.counter.blockedAt.Some? ==> After(s, step).counter.blockedAt == s.counter.blockedAt
  {
    if step.Increment? {
      IncrementKeepsInv(s);
    } else {
      WorkerKeepsInv(s, step);
    }
  }

  /** In every interleaving `blocked_at` is written at most once, the suspension is requested at
      most once, a block mark implies a blocked project, and the total counts the deliveries begun. */
  lemma {:induction false} BlocksOnce(states: seq<State>, steps: seq<Step>, n: nat)
    requires IsRun(states, steps) && n < |states|
    ensures Inv(states[n])
    ensures states[n].blockWrites <= 1 && states[n].suspends <= 1
    ensures states[n].counter.blockedAt.Some? ==> states[n].isBlocked
    ensures states[n].counter.total == |states[n].workers|
  {
    if n > 0 {
      BlocksOnce(states, steps, n - 1);
      StepKeepsInv(states[n - 1], steps[n - 1]);
    }
    SuspendingIsCount(states[n].workers);
  }

  lemma {:induction false} SuspendingIsCount(workers: seq<Worker>)
    ensures Sum(workers, IsSuspending()) >= 0
  {
    if workers != [] {
      SuspendingIsCount(workers[..|workers| - 1]);
    }
  }

  // ---------------------------------------------------------------- a fixed limit

  /** This worker will still block the project, or find it blocked. */
  predicate WillBlock(worker: Worker, limit: nat) {
    match worker
    case Incremented => true
    case Reread(seen) => seen.total >= limit && seen.blockedAt.None?
    case Blocking => true
    case _ => false
  }

  ghost predicate SomeoneWillBlock(s: State, limit: nat) {
    exists w :: 0 <= w < |s.workers| && WillBlock(s.workers[w], limit)
  }

  ghost predicate LimitInv(s: State, limit: nat) {
    && (s.counter.blockedAt.Some? ==> s.counter.total >= limit)
    && (s.counter.total >= limit && s.counter.blockedAt.None? ==> SomeoneWillBlock(s, limit))
    && (forall w :: 0 <= w < |s.workers| ==>
          match s.workers[w]
          case Reread(seen) => seen.total <= s.counter.total
                               && (seen.blockedAt.Some? ==> s.counter.blockedAt.Some?)
          case Blocking => s.counter.total >= limit
          case _ => true)
  }

  lemma StepKeepsLimit(s: State, step: Step, limit: nat)
    requires LimitInv(s, limit) && Enabled(s, step) && limit > 0
    requires step.Check? ==> step.limit == Some(limit)
    ensures LimitInv(After(s, step), limit)
  {
    var s' := After(s, step);
    if s'.counter.total >= limit && s'.counter.blockedAt.None? {
      match step
      case Increment =>
        assert WillBlock(s'.workers[|s.workers|], limit);
      case ReadBack(w) =>
        assert WillBlock(s'.workers[w], limit);
      case Block(_, _) =>
      case _ =>
        var w :| 0 <= w < |s.workers| && WillBlock(s.workers[w], limit);
        assert WillBlock(s'.workers[w], limit);
    }
  }

  /** With one positive limit in force, whenever no delivery is between its increment and its block
      the project is blocked exactly when its total reached the limit. */
  lemma {:induction false} QuietIsBlockedExactlyAtLimit(states: seq<State>, steps: seq<Step>, limit: nat, n: nat)
    requires IsRun(states, steps) && n < |states| && limit > 0
    requires forall i :: 0 <= i < |steps| && steps[i].Check? ==> steps[i].limit == Some(limit)
    ensures LimitInv(states[n], limit)
    ensures (forall w :: 0 <= w < |states[n].workers| ==>
               states[n].workers[w].Done? || states[n].workers[w].Suspending?)
            ==> (states[n].counter.blockedAt.Some? <==> states[n].counter.total >= limit)
  {
    if n > 0 {
      QuietIsBlockedExactlyAtLimit(states, steps, limit, n - 1);
      StepKeepsLimit(states[n - 1], steps[n - 1], limit);
    }
  }
}

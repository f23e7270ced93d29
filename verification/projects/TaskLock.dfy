/** The expiring task lock that keeps one background upload per account. */
module TaskLock {
  import opened Common

  type Time = nat

  const TASK_LOCK_TIMEOUT: nat := 1800

  /** Lock entries of the shared cache with their expiry times. */
  type Cache = map<string, Time>

  predicate Held(cache: Cache, account: string, now: Time) {
    account in cache && now < cache[account]
  }

  /** The cache after a successful acquisition, and after a release by whoever. */
  function Taken(cache: Cache, account: string, now: Time): Cache {
    cache[account := now + TASK_LOCK_TIMEOUT]
  }

  function Freed(cache: Cache, account: string): Cache {
    cache - {account}
  }

  class LockCache {
    var entries: Cache

    constructor ()
      ensures entries == map[]
    {
      entries := map[];
    }

    /** Adds an entry unless a live one exists. */
    method Acquire(account: string, now: Time) returns (acquired: bool)
      modifies this
      ensures acquired <==> !Held(old(entries), account, now)
      ensures entries == if acquired then Taken(old(entries), account, now) else old(entries)
    {
      if account in entries && now < entries[account] {
        return false;
      }
      entries := entries[account := now + TASK_LOCK_TIMEOUT];
      return true;
    }

    /** Deletes the entry whoever added it. */
    method Release(account: string)
      modifies this
      ensures entries == Freed(old(entries), account)
    {
      entries := entries - {account};
    }
  }

  // ---------------------------------------------------------------- webhooks, uploads and time

  datatype Phase = Acquired | Dispatched | Ended

  /** An upload that took the lock: not yet dispatched, in flight, or over. */
  datatype Task = Task(account: string, acquiredAt: Time, phase: Phase)

  datatype State = State(now: Time, cache: Cache, tasks: seq<Task>)

  datatype Step =
    | Webhook(account: string)  // crawl completed: take the lock or skip
    | Dispatch(t: nat)
    | End(t: nat)               // success or failure: the lock is released either way
    | Pass(d: nat)

  predicate Enabled(s: State, step: Step) {
    match step
    case Dispatch(t) => t < |s.tasks| && s.tasks[t].phase.Acquired?
    case End(t) => t < |s.tasks| && s.tasks[t].phase.Dispatched?
    case _ => true
  }

  function After(s: State, step: Step): State
    requires Enabled(s, step)
  {
    match step
    case Webhook(account) =>
      if Held(s.cache, account, s.now) then s
      else s.(cache := Taken(s.cache, account, s.now), tasks := s.tasks + [Task(account, s.now, Acquired)])
    case Dispatch(t) => s.(tasks := s.tasks[t := s.tasks[t].(phase := Dispatched)])
    case End(t) => s.(cache := Freed(s.cache, s.tasks[t].account), tasks := s.tasks[t := s.tasks[t].(phase := Ended)])
    case Pass(d) => s.(now := s.now + d)
  }

  ghost predicate IsRun(states: seq<State>, steps: seq<Step>) {
    && |states| == |steps| + 1
    && states[0].cache == map[] && states[0].tasks == []
    && forall i :: 0 <= i < |steps| ==> Enabled(states[i], steps[i]) && states[i + 1] == After(states[i], steps[i])
  }

  predicate Open(task: Task) {
    !task.phase.Ended?
  }

  /** The timing assumption: no upload outlives the lock taken for it. */
  ghost predicate OnTime(s: State) {
    forall t :: 0 <= t < |s.tasks| && Open(s.tasks[t]) ==> s.now < s.tasks[t].acquiredAt + TASK_LOCK_TIMEOUT
  }

  ghost predicate OneOpenPerAccount(s: State) {
    forall t, u :: 0 <= t < u < |s.tasks| && Open(s.tasks[t]) && Open(s.tasks[u]) ==>
      s.tasks[t].account != s.tasks[u].account
  }

  ghost predicate Inv(s: State) {
    && OneOpenPerAccount(s)
    && forall t :: 0 <= t < |s.tasks| && Open(s.tasks[t]) ==>
         s.tasks[t].account in s.cache && s.cache[s.tasks[t].account] == s.tasks[t].acquiredAt + TASK_LOCK_TIMEOUT
  }

  lemma StepKeepsInv(s: State, step: Step)
    requires Inv(s) && OnTime(s) && Enabled(s, step)
    ensures Inv(After(s, step))
  {
  }

  /** With every upload ending in time, in every interleaving an account has at most one upload
      acquired or in flight. */
  lemma {:induction false} OneUploadInFlight(states: seq<State>, steps: seq<Step>, n: nat)
    requires IsRun(states, steps) && n < |states|
    requires forall i :: 0 <= i < n ==> OnTime(states[i])
    ensures Inv(states[n])
  {
    if n > 0 {
      OneUploadInFlight(states, steps, n - 1);
      assert states[n] == After(states[n - 1], steps[n - 1]);
      StepKeepsInv(states[n - 1], steps[n - 1]);
    }
  }

  /** The next webhook of an account starts a second upload exactly when an open one is late. */
  lemma OverlapExactlyWhenLate(s: State, account: string)
    requires Inv(s)
    ensures OneOpenPerAccount(After(s, Webhook(account))) <==>
            forall t :: 0 <= t < |s.tasks| && Open(s.tasks[t]) && s.tasks[t].account == account ==>
              s.now < s.tasks[t].acquiredAt + TASK_LOCK_TIMEOUT
  {
    var s' := After(s, Webhook(account));
    if t :| 0 <= t < |s.tasks| && Open(s.tasks[t]) && s.tasks[t].account == account
            && s.now >= s.tasks[t].acquiredAt + TASK_LOCK_TIMEOUT {
      assert Open(s'.tasks[t]) && Open(s'.tasks[|s.tasks|]);
    }
  }

  /** A webhook that finds the account free takes it for half an hour and no longer. */
  lemma LockLastsHalfAnHour(s: State, account: string, d: nat)
    requires !Held(s.cache, account, s.now)
    ensures var s' := After(After(s, Webhook(account)), Pass(d));
            && s'.tasks == s.tasks + [Task(account, s.now, Acquired)]
            && (After(s', Webhook(account)).tasks == s'.tasks <==> d < 1800)
  {
    var s' := After(After(s, Webhook(account)), Pass(d));
    assert |s'.tasks + [Task(account, s'.now, Acquired)]| > |s'.tasks|;
  }

  /** Once an upload has ended, in time or not, the next webhook of its account starts another, at
      whatever time; other accounts keep their locks. */
  lemma EndFreesAccount(s: State, t: nat, d: nat, other: string)
    requires Enabled(s, End(t))
    ensures var account := s.tasks[t].account;
            var s' := After(After(s, End(t)), Pass(d));
            && After(s', Webhook(account)).tasks == s'.tasks + [Task(account, s'.now, Acquired)]
            && (other != account ==> Held(After(s, End(t)).cache, other, s.now) == Held(s.cache, other, s.now))
  {
  }

  // ---------------------------------------------------------------- acquisitions and dispatches

  function Takes(s: State, step: Step, account: string): nat {
    if step == Webhook(account) && !Held(s.cache, account, s.now) then 1 else 0
  }

  function Sends(s: State, step: Step, account: string): nat {
    if step.Dispatch? && step.t < |s.tasks| && s.tasks[step.t].account == account then 1 else 0
  }

  /** The webhooks of a run that took the lock, and the dispatches it made. */
  function Acquisitions(states: seq<State>, steps: seq<Step>, account: string, n: nat): nat
    requires |states| == |steps| + 1 && n <= |steps|
  {
    if n == 0 then 0
    else Acquisitions(states, steps, account, n - 1) + Takes(states[n - 1], steps[n - 1], account)
  }

  function Dispatches(states: seq<State>, steps: seq<Step>, account: string, n: nat): nat
    requires |states| == |steps| + 1 && n <= |steps|
  {
    if n == 0 then 0
    else Dispatches(states, steps, account, n - 1) + Sends(states[n - 1], steps[n - 1], account)
  }

  function Pending(account: string): Task -> int {
    (task: Task) => if task.account == account && task.phase.Acquired? then 1 else 0
  }

  lemma WebhookPends(s: State, a: string, account: string)
    ensures Sum(After(s, Webhook(a)).tasks, Pending(account))
            == Sum(s.tasks, Pending(account)) + Takes(s, Webhook(a), account)
  {
    SumAppend(s.tasks, Task(a, s.now, Acquired), Pending(account));
  }

  lemma DispatchSends(s: State, t: nat, account: string)
    requires Enabled(s, Dispatch(t))
    ensures Sum(After(s, Dispatch(t)).tasks, Pending(account)) + Sends(s, Dispatch(t), account)
            == Sum(s.tasks, Pending(account))
  {
    SumUpdate(s.tasks, t, s.tasks[t].(phase := Dispatched), Pending(account));
  }

  lemma EndPendsNothing(s: State, t: nat, account: string)
    requires Enabled(s, End(t))
    ensures Sum(After(s, End(t)).tasks, Pending(account)) == Sum(s.tasks, Pending(account))
  {
    SumUpdate(s.tasks, t, s.tasks[t].(phase := Ended), Pending(account));
  }

  /** One step moves the pending tasks by its acquisition or its dispatch. */
  lemma StepPends(s: State, step: Step, account: string)
    requires Enabled(s, step)
    ensures Sum(After(s, step).tasks, Pending(account)) + Sends(s, step, account)
            == Sum(s.tasks, Pending(account)) + Takes(s, step, account)
  {
    match step
    case Webhook(a) => WebhookPends(s, a, account);
    case Dispatch(t) => DispatchSends(s, t, account);
    case End(t) => EndPendsNothing(s, t, account);
    case Pass(_) =>
  }

  /** Every acquisition is dispatched once or still about to be. */
  lemma {:induction false} DispatchedOrPending(states: seq<State>, steps: seq<Step>, account: string, n: nat)
    requires IsRun(states, steps) && n <= |steps|
    ensures Acquisitions(states, steps, account, n)
            == Dispatches(states, steps, account, n) + Sum(states[n].tasks, Pending(account))
  {
    if n > 0 {
      DispatchedOrPending(states, steps, account, n - 1);
      StepPends(states[n - 1], steps[n - 1], account);
    }
  }

  /** Between webhooks, dispatches equal successful acquisitions. */
  lemma DispatchesEqualAcquisitions(states: seq<State>, steps: seq<Step>, account: string, n: nat)
    requires IsRun(states, steps) && n <= |steps|
    requires forall t :: 0 <= t < |states[n].tasks| ==> !states[n].tasks[t].phase.Acquired?
    ensures Acquisitions(states, steps, account, n) == Dispatches(states, steps, account, n)
  {
    DispatchedOrPending(states, steps, account, n);
    SumZero(states[n].tasks, Pending(account));
  }

  /** An upload that outlives its lock lets a second one start beside it. */
  lemma LateUploadOverlaps() returns (states: seq<State>, steps: seq<Step>)
    ensures IsRun(states, steps) && |steps| == 5 && !OneOpenPerAccount(states[5])
    ensures states[5].tasks[0].phase.Dispatched? && states[5].tasks[1].phase.Dispatched?
    ensures !OnTime(states[3])
  {
    var s0 := State(0, map[], []);
    var s1 := After(s0, Webhook("store"));
    var s2 := After(s1, Dispatch(0));
    var s3 := After(s2, Pass(TASK_LOCK_TIMEOUT));
    var s4 := After(s3, Webhook("store"));
    var s5 := After(s4, Dispatch(1));
    states := [s0, s1, s2, s3, s4, s5];
    steps := [Webhook("store"), Dispatch(0), Pass(TASK_LOCK_TIMEOUT), Webhook("store"), Dispatch(1)];
    assert Open(s5.tasks[0]) && Open(s5.tasks[1]);
    assert Open(s3.tasks[0]);
  }
}

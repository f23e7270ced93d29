/** The wizard position (step, progress) of an onboarding, from a set-up start through project link,
    channel creation and the orchestrator with its agent loop. */
module SetupProgress {
  import opened Arithmetic

  datatype StepName = NoStep | ProjectConfig | NexusConfig

  datatype Position = Position(step: StepName, progress: nat)

  function Order(step: StepName): nat {
    match step
    case NoStep => 0
    case ProjectConfig => 1
    case NexusConfig => 2
  }

  predicate NotAfter(p: Position, q: Position) {
    Order(p.step) < Order(q.step) || (p.step == q.step && p.progress <= q.progress)
  }

  const PROJECT_LINKED_PROGRESS: nat := 30
  const AGENT_PROGRESS_START: nat := 75
  const AGENT_PROGRESS_END: nat := 100
  const DONE := Position(NexusConfig, AGENT_PROGRESS_END)

  datatype Channel = Wwc | WppCloud

  /** The project is found by the start itself, linked by its own event later, or never. */
  datatype Link = AtStart | Later | Never

  /** How everything outside answers during one set-up. */
  datatype Answers = Answers(
    supported: bool,
    linkSaves: bool,
    link: Link,
    channelConfigured: bool,       // app uuid already persisted
    channelDataPresent: bool,      // wpp-cloud only
    channelCreated: bool,
    channelConfigures: bool,       // wwc only
    crawlStarts: bool,
    managerConfigures: bool,
    paymentConfigures: bool,       // wpp-cloud only
    agentsListed: bool,
    agents: seq<bool>)             // integrated already or now, per agent of the channel

  // ---------------------------------------------------------------- what a set-up writes

  /** The positions saved so far, and whether no step has raised. */
  datatype Run = Run(history: seq<Position>, ok: bool) {
    function Write(step: StepName, progress: nat): Run {
      if ok then Run(history + [Position(step, progress)], true) else this
    }

    function Call(answer: bool): Run {
      Run(history, ok && answer)
    }
  }

  function Started(a: Answers): Run {
    Run([Position(NoStep, 0)], true).Call(a.supported).Write(ProjectConfig, 0).Call(a.linkSaves)
  }

  /** Saved by the link event, or by the task when the start linked the project. */
  function Linked(r: Run, a: Answers): Run {
    r.Call(a.link != Never).Write(ProjectConfig, PROJECT_LINKED_PROGRESS)
  }

  function ChannelReady(r: Run, channel: Channel, a: Answers): Run {
    if a.channelConfigured then r
    else if channel.Wwc? then
      r.Write(ProjectConfig, 50).Call(a.channelCreated).Write(ProjectConfig, 66)
       .Call(a.channelConfigures).Write(ProjectConfig, 83).Write(ProjectConfig, 100)
    else
      r.Call(a.channelDataPresent).Write(ProjectConfig, 50).Call(a.channelCreated)
       .Write(ProjectConfig, 75).Write(ProjectConfig, 100)
  }

  function NexusReady(r: Run, channel: Channel, a: Answers): Run {
    r.Write(NexusConfig, 0).Call(a.crawlStarts).Write(NexusConfig, 40).Call(a.managerConfigures)
     .Write(NexusConfig, AGENT_PROGRESS_START).Call(channel.WppCloud? ==> a.paymentConfigures)
  }

  /** Progress after the first `done` of `total` agents. */
  function AgentProgress(done: nat, total: nat): (progress: nat)
    requires done <= total && total > 0
    ensures AGENT_PROGRESS_START <= progress <= AGENT_PROGRESS_END
    ensures progress == AGENT_PROGRESS_END <==> done == total
  {
    Share(done, total);
    AGENT_PROGRESS_START + (AGENT_PROGRESS_END - AGENT_PROGRESS_START) * done / total
  }

  lemma Share(done: nat, total: nat)
    requires done <= total && total > 0
    ensures 25 * done / total <= 25
    ensures 25 * done / total == 25 <==> done == total
  {
    QuotientAtLeast(25 * done, total, 25);
    QuotientAtLeast(25 * done, total, 26);
  }

  /** Above 75 the progress is the whole part of the done share of 25. */
  lemma AgentProgressIsShare(done: nat, total: nat, share: nat)
    requires done <= total && total > 0
    ensures AgentProgress(done, total) >= 75 + share <==> share * total <= 25 * done
  {
    QuotientAtLeast(25 * done, total, share);
  }

  function AgentsDone(r: Run, agents: seq<bool>, done: nat): Run
    requires done <= |agents|
  {
    if done == 0 then r
    else AgentsDone(r, agents, done - 1).Call(agents[done - 1])
           .Write(NexusConfig, AgentProgress(done, |agents|))
  }

  function AgentsReady(r: Run, a: Answers): Run {
    if a.agents == [] then r.Write(NexusConfig, AGENT_PROGRESS_END)
    else AgentsDone(r.Call(a.agentsListed), a.agents, |a.agents|)
  }

  function Setup(channel: Channel, a: Answers): Run {
    AgentsReady(NexusReady(ChannelReady(Linked(Started(a), a), channel, a), channel, a), a)
  }

  // ---------------------------------------------------------------- the onboarding row

  datatype CrawlerResult = Unset | Success | Fail

  class Onboarding {
    var currentStep: StepName
    var progress: nat
    var failed: bool
    var crawlerResult: CrawlerResult
    ghost var history: seq<Position>

    constructor ()
      ensures Saved() == Run([Position(NoStep, 0)], true)
      ensures Valid()
    {
      currentStep, progress, failed, crawlerResult := NoStep, 0, false, Unset;
      history := [Position(NoStep, 0)];
    }

    ghost predicate Valid()
      reads this
    {
      |history| > 0 && history[|history| - 1] == Position(currentStep, progress)
    }

    ghost function Saved(): Run
      reads this
    {
      Run(history, !failed)
    }

    method Save(step: StepName, percent: nat)
      modifies this
      ensures Valid() && failed == old(failed)
      ensures history == old(history) + [Position(step, percent)]
    {
      currentStep, progress := step, percent;
      history := history + [Position(step, percent)];
      Background();
    }

    method SaveProgress(percent: nat)
      modifies this
      ensures Valid() && failed == old(failed) && currentStep == old(currentStep)
      ensures history == old(history) + [Position(old(currentStep), percent)]
    {
      Save(currentStep, percent);
    }

    /** Crawler webhooks and the upload task may run between any two saves; they name other columns. */
    method Background()
      modifies this`crawlerResult
    {
      crawlerResult := *;
    }

    method MarkFailed()
      modifies this`failed
      ensures failed
    {
      failed := true;
    }

    method Reset()
      modifies this
      ensures Valid() && Saved() == Run([Position(NoStep, 0)], true)
    {
      currentStep, progress, failed, crawlerResult := NoStep, 0, false, Unset;
      history := [Position(NoStep, 0)];
    }

    /** A start on an existing row; a fresh row begins as Reset leaves it. */
    method StartSetup(a: Answers)
      modifies this
      ensures Valid() && Saved() == Started(a)
      ensures !failed ==> currentStep == ProjectConfig && progress == 0
    {
      Reset();
      if !a.supported {
        MarkFailed();
        return;
      }
      Save(ProjectConfig, 0);
      if !a.linkSaves {
        MarkFailed();
      }
    }

    /** The project event, arriving while the task still waits. */
    method LinkProject()
      requires Valid()
      modifies this
      ensures Valid() && failed == old(failed)
      ensures currentStep == ProjectConfig && progress == PROJECT_LINKED_PROGRESS
      ensures history == old(history) + [Position(ProjectConfig, PROJECT_LINKED_PROGRESS)]
    {
      Save(ProjectConfig, PROJECT_LINKED_PROGRESS);
    }

    method RunSetup(channel: Channel, a: Answers)
      modifies this
      ensures Valid() && Saved() == Setup(channel, a)
      ensures Position(currentStep, progress) == DONE <==> !failed
      ensures failed <==> !AllGood(channel, a)
    {
      OkIff(channel, a);
      SetupReachesTheEnd(channel, a);
      StartSetup(a);
      FailureSticks(Started(a), channel, a);
      if failed {
        return;
      }
      if a.link.Later? {
        LinkProject();
      }
      RunTask(channel, a);
    }

    method RunTask(channel: Channel, a: Answers)
      requires Valid() && !failed && currentStep == ProjectConfig
      requires progress == if a.link.Later? then PROJECT_LINKED_PROGRESS else 0
      modifies this
      ensures Valid()
      ensures Saved() == AgentsReady(NexusReady(ChannelReady(
                           if a.link.Later? then old(Saved()) else Linked(old(Saved()), a),
                           channel, a), channel, a), a)
    {
      ghost var before := if a.link.Later? then Saved() else Linked(Saved(), a);
      LaterFailureSticks(before, channel, a);
      if a.link.Never? {
        MarkFailed();
        return;
      }
      if currentStep != ProjectConfig || progress < PROJECT_LINKED_PROGRESS {
        Save(ProjectConfig, PROJECT_LINKED_PROGRESS);
      }
      assert Saved() == before;
      ConfigureChannel(channel, a);
      AgentsFailureSticks(NexusReady(Saved(), channel, a), a);
      if failed {
        return;
      }
      RunOrchestrator(channel, a);
    }

    method ConfigureChannel(channel: Channel, a: Answers)
      requires Valid() && !failed
      modifies this
      ensures Valid() && Saved() == ChannelReady(old(Saved()), channel, a)
    {
      if a.channelConfigured {
        return;
      }
      if channel.WppCloud? && !a.channelDataPresent {
        MarkFailed();
        return;
      }
      Save(ProjectConfig, 50);
      if !a.channelCreated {
        MarkFailed();
        return;
      }
      if channel.WppCloud? {
        SaveProgress(75);
      } else {
        SaveProgress(66);
        if !a.channelConfigures {
          MarkFailed();
          return;
        }
        SaveProgress(83);
      }
      SaveProgress(100);
    }

    method RunOrchestrator(channel: Channel, a: Answers)
      requires Valid() && !failed
      modifies this
      ensures Valid() && Saved() == AgentsReady(NexusReady(old(Saved()), channel, a), a)
      ensures failed <==> !NexusGood(channel, a)
    {
      NexusOkIff(Saved(), channel, a);
      AgentsFailureSticks(NexusReady(Saved(), channel, a), a);
      Save(NexusConfig, 0);
      if !a.crawlStarts {
        MarkFailed();
        return;
      }
      SaveProgress(40);
      if !a.managerConfigures {
        MarkFailed();
        return;
      }
      SaveProgress(AGENT_PROGRESS_START);
      if channel.WppCloud? && !a.paymentConfigures {
        MarkFailed();
        return;
      }
      IntegrateAgents(a);
    }

    method IntegrateAgents(a: Answers)
      requires Valid() && !failed && currentStep == NexusConfig
      modifies this
      ensures Valid() && Saved() == AgentsReady(old(Saved()), a)
    {
      if a.agents == [] {
        SaveProgress(AGENT_PROGRESS_END);
        return;
      }
      AgentsFailureSticks(Saved(), a);
      if !a.agentsListed {
        MarkFailed();
        return;
      }
      ghost var start := Saved();
      var total := |a.agents|;
      var index := 0;
      while index < total
        invariant index <= total && Valid() && !failed && currentStep == NexusConfig
        invariant Saved() == AgentsDone(start, a.agents, index)
      {
        if !a.agents[index] {
          MarkFailed();
          AgentLoopStops(start, a.agents, index, total);
          return;
        }
        SaveProgress(AgentProgress(index + 1, total));
        index := index + 1;
      }
    }
  }

  // ---------------------------------------------------------------- what a set-up needs

  predicate LinkedGood(a: Answers) {
    a.supported && a.linkSaves && a.link != Never
  }

  predicate ChannelGood(channel: Channel, a: Answers) {
    LinkedGood(a)
    && (a.channelConfigured
        || (a.channelCreated && match channel case Wwc => a.channelConfigures case WppCloud => a.channelDataPresent))
  }

  predicate NexusGood(channel: Channel, a: Answers) {
    && a.crawlStarts && a.managerConfigures
    && (channel == WppCloud ==> a.paymentConfigures)
    && (a.agents != [] ==> a.agentsListed && forall i :: 0 <= i < |a.agents| ==> a.agents[i])
  }

  /** Every answer the set-up of this channel depends on is good. */
  predicate AllGood(channel: Channel, a: Answers) {
    ChannelGood(channel, a) && NexusGood(channel, a)
  }

  lemma {:induction false} AgentsOkIff(r: Run, agents: seq<bool>, done: nat)
    requires done <= |agents|
    ensures AgentsDone(r, agents, done).ok <==> r.ok && forall i :: 0 <= i < done ==> agents[i]
  {
    if done > 0 {
      AgentsOkIff(r, agents, done - 1);
    }
  }

  lemma NexusOkIff(r: Run, channel: Channel, a: Answers)
    ensures AgentsReady(NexusReady(r, channel, a), a).ok <==> r.ok && NexusGood(channel, a)
  {
    AgentsOkIff(NexusReady(r, channel, a).Call(a.agentsListed), a.agents, |a.agents|);
  }

  /** A set-up succeeds exactly when each of those answers is good. */
  lemma OkIff(channel: Channel, a: Answers)
    ensures Setup(channel, a).ok <==> AllGood(channel, a)
  {
    NexusOkIff(ChannelReady(Linked(Started(a), a), channel, a), channel, a);
  }

  // ---------------------------------------------------------------- the positions themselves

  /** The positions of a good set-up up to the manager step. */
  function Milestones(channel: Channel, configured: bool): seq<Position> {
    [Position(NoStep, 0), Position(ProjectConfig, 0), Position(ProjectConfig, 30)]
    + (if configured then []
       else if channel == Wwc then
         [Position(ProjectConfig, 50), Position(ProjectConfig, 66), Position(ProjectConfig, 83),
          Position(ProjectConfig, 100)]
       else [Position(ProjectConfig, 50), Position(ProjectConfig, 75), Position(ProjectConfig, 100)])
    + [Position(NexusConfig, 0), Position(NexusConfig, 40), Position(NexusConfig, 75)]
  }

  lemma GoodStart(channel: Channel, a: Answers)
    requires AllGood(channel, a)
    ensures NexusReady(ChannelReady(Linked(Started(a), a), channel, a), channel, a)
            == Run(Milestones(channel, a.channelConfigured), true)
  {
    var linked := Linked(Started(a), a);
    assert linked.history == [Position(NoStep, 0), Position(ProjectConfig, 0), Position(ProjectConfig, 30)];
    var ready := ChannelReady(linked, channel, a);
    assert ready.ok;
    GoodNexus(ready, channel, a);
  }

  lemma GoodNexus(r: Run, channel: Channel, a: Answers)
    requires r.ok && a.crawlStarts && a.managerConfigures && (channel == WppCloud ==> a.paymentConfigures)
    ensures NexusReady(r, channel, a)
            == Run(r.history + [Position(NexusConfig, 0), Position(NexusConfig, 40), Position(NexusConfig, 75)], true)
  {
  }

  /** One position per agent integrated. */
  function AgentPositions(done: nat, total: nat): (positions: seq<Position>)
    requires done <= total
    ensures |positions| == done
    ensures forall i :: 0 <= i < done ==> positions[i] == Position(NexusConfig, AgentProgress(i + 1, total))
  {
    seq(done, i requires 0 <= i < done => Position(NexusConfig, AgentProgress(i + 1, total)))
  }

  lemma {:induction false} GoodAgents(r: Run, agents: seq<bool>, done: nat)
    requires done <= |agents| && r.ok && forall i :: 0 <= i < done ==> agents[i]
    ensures AgentsDone(r, agents, done) == Run(r.history + AgentPositions(done, |agents|), true)
  {
    if done > 0 {
      GoodAgents(r, agents, done - 1);
      assert AgentPositions(done, |agents|)
          == AgentPositions(done - 1, |agents|) + [Position(NexusConfig, AgentProgress(done, |agents|))];
    }
  }

  /** A good set-up saves its milestones and then one position per agent, or 100 when there is none. */
  lemma GoodPositions(channel: Channel, a: Answers)
    requires AllGood(channel, a)
    ensures Setup(channel, a).history
            == Milestones(channel, a.channelConfigured)
               + if a.agents == [] then [Position(NexusConfig, 100)] else AgentPositions(|a.agents|, |a.agents|)
  {
    GoodStart(channel, a);
    if a.agents != [] {
      GoodAgents(Run(Milestones(channel, a.channelConfigured), true), a.agents, |a.agents|);
    }
  }

  /** Where a set-up stops that raises before the orchestrator. */
  lemma StopsInProject(channel: Channel, a: Answers)
    requires !ChannelGood(channel, a)
    ensures Setup(channel, a).history != []
    ensures Last(Setup(channel, a)) ==
            if !a.supported then Position(NoStep, 0)
            else if !LinkedGood(a) then Position(ProjectConfig, 0)
            else if channel == WppCloud && !a.channelDataPresent then Position(ProjectConfig, 30)
            else if !a.channelCreated then Position(ProjectConfig, 50)
            else Position(ProjectConfig, 66)
  {
    PositionNeverMovesBack(channel, a);
    FailureSticks(Started(a), channel, a);
    LaterFailureSticks(Linked(Started(a), a), channel, a);
    AgentsFailureSticks(NexusReady(ChannelReady(Linked(Started(a), a), channel, a), channel, a), a);
  }

  /** Where a set-up stops that raises in the orchestrator before its agents. */
  lemma StopsInNexus(channel: Channel, a: Answers)
    requires ChannelGood(channel, a)
    requires !a.crawlStarts || !a.managerConfigures || (channel == WppCloud && !a.paymentConfigures)
             || (a.agents != [] && !a.agentsListed)
    ensures Setup(channel, a).history != []
    ensures Last(Setup(channel, a)) ==
            if !a.crawlStarts then Position(NexusConfig, 0)
            else if !a.managerConfigures then Position(NexusConfig, 40)
            else Position(NexusConfig, 75)
  {
    PositionNeverMovesBack(channel, a);
    var ready := ChannelReady(Linked(Started(a), a), channel, a);
    assert ready.ok;
    AgentsFailureSticks(NexusReady(ready, channel, a), a);
  }

  /** And where it stops when agent `k` is the first that cannot be integrated. */
  lemma StopsAtAgent(channel: Channel, a: Answers, k: nat)
    requires ChannelGood(channel, a) && a.crawlStarts && a.managerConfigures
    requires (channel == WppCloud ==> a.paymentConfigures) && a.agentsListed
    requires k < |a.agents| && !a.agents[k] && forall i :: 0 <= i < k ==> a.agents[i]
    ensures Setup(channel, a).history != []
    ensures Last(Setup(channel, a)) == Position(NexusConfig, AgentProgress(k, |a.agents|))
  {
    PositionNeverMovesBack(channel, a);
    var ready := NexusReady(ChannelReady(Linked(Started(a), a), channel, a), channel, a);
    GoodNexus(ChannelReady(Linked(Started(a), a), channel, a), channel, a);
    GoodAgents(ready, a.agents, k);
    assert k > 0 ==> AgentPositions(k, |a.agents|)[k - 1] == Position(NexusConfig, AgentProgress(k, |a.agents|));
    AgentLoopStops(ready, a.agents, k, |a.agents|);
  }

  // ---------------------------------------------------------------- a step that raises ends the set-up

  lemma {:induction false} AgentLoopStops(r: Run, agents: seq<bool>, at: nat, done: nat)
    requires at < done <= |agents|
    requires !AgentsDone(r, agents, at).ok || !agents[at]
    ensures AgentsDone(r, agents, done) == AgentsDone(r, agents, at).Call(false)
  {
    if at + 1 < done {
      AgentLoopStops(r, agents, at, done - 1);
    }
  }

  lemma AgentsFailureSticks(r: Run, a: Answers)
    ensures !r.ok || (a.agents != [] && !a.agentsListed) ==> AgentsReady(r, a) == r.Call(false)
  {
    if a.agents != [] && (!r.ok || !a.agentsListed) {
      AgentLoopStops(r.Call(a.agentsListed), a.agents, 0, |a.agents|);
    }
  }

  lemma LaterFailureSticks(r: Run, channel: Channel, a: Answers)
    ensures !r.ok ==> AgentsReady(NexusReady(ChannelReady(r, channel, a), channel, a), a) == r
  {
    AgentsFailureSticks(NexusReady(ChannelReady(r, channel, a), channel, a), a);
  }

  lemma FailureSticks(r: Run, channel: Channel, a: Answers)
    ensures !r.ok ==> AgentsReady(NexusReady(ChannelReady(Linked(r, a), channel, a), channel, a), a) == r
  {
    LaterFailureSticks(Linked(r, a), channel, a);
  }

  // ---------------------------------------------------------------- the position never moves back

  predicate Ascending(history: seq<Position>) {
    forall i, j :: 0 <= i < j < |history| ==> NotAfter(history[i], history[j])
  }

  function Last(r: Run): Position
    requires r.history != []
  {
    r.history[|r.history| - 1]
  }

  /** Ascending so far, and no further than `limit`. */
  predicate Upto(r: Run, limit: Position) {
    r.history != [] && Ascending(r.history) && NotAfter(Last(r), limit)
  }

  lemma WriteUpto(r: Run, limit: Position, step: StepName, progress: nat)
    requires Upto(r, limit) && NotAfter(limit, Position(step, progress))
    ensures Upto(r.Write(step, progress), Position(step, progress))
  {
    var h := r.history;
    forall i, j | 0 <= i < j < |h| + 1
      ensures NotAfter((h + [Position(step, progress)])[i], (h + [Position(step, progress)])[j])
    {
      if j == |h| {
        assert NotAfter(h[i], Last(r)) by { if i < |h| - 1 { assert NotAfter(h[i], h[|h| - 1]); } }
      }
    }
  }

  lemma LinkedUpto(a: Answers)
    ensures Upto(Linked(Started(a), a), Position(ProjectConfig, 30))
  {
    var r := Run([Position(NoStep, 0)], true).Call(a.supported);
    WriteUpto(r, Position(NoStep, 0), ProjectConfig, 0);
    WriteUpto(Started(a).Call(a.link != Never), Position(ProjectConfig, 0), ProjectConfig, 30);
  }

  lemma ChannelUpto(r: Run, channel: Channel, a: Answers)
    requires Upto(r, Position(ProjectConfig, 30))
    ensures Upto(ChannelReady(r, channel, a), Position(ProjectConfig, 100))
  {
    if channel.Wwc? {
      WriteUpto(r, Position(ProjectConfig, 30), ProjectConfig, 50);
      var created := r.Write(ProjectConfig, 50).Call(a.channelCreated);
      WriteUpto(created, Position(ProjectConfig, 50), ProjectConfig, 66);
      var configured := created.Write(ProjectConfig, 66).Call(a.channelConfigures);
      WriteUpto(configured, Position(ProjectConfig, 66), ProjectConfig, 83);
      WriteUpto(configured.Write(ProjectConfig, 83), Position(ProjectConfig, 83), ProjectConfig, 100);
    } else {
      var checked := r.Call(a.channelDataPresent);
      WriteUpto(checked, Position(ProjectConfig, 30), ProjectConfig, 50);
      var created := checked.Write(ProjectConfig, 50).Call(a.channelCreated);
      WriteUpto(created, Position(ProjectConfig, 50), ProjectConfig, 75);
      WriteUpto(created.Write(ProjectConfig, 75), Position(ProjectConfig, 75), ProjectConfig, 100);
    }
  }

  lemma NexusUpto(r: Run, channel: Channel, a: Answers)
    requires Upto(r, Position(ProjectConfig, 100))
    ensures Upto(NexusReady(r, channel, a), Position(NexusConfig, AGENT_PROGRESS_START))
  {
    WriteUpto(r, Position(ProjectConfig, 100), NexusConfig, 0);
    var crawling := r.Write(NexusConfig, 0).Call(a.crawlStarts);
    WriteUpto(crawling, Position(NexusConfig, 0), NexusConfig, 40);
    var managed := crawling.Write(NexusConfig, 40).Call(a.managerConfigures);
    WriteUpto(managed, Position(NexusConfig, 40), NexusConfig, AGENT_PROGRESS_START);
  }

  lemma AgentProgressGrows(done: nat, total: nat)
    requires done < total
    ensures AgentProgress(done, total) <= AgentProgress(done + 1, total)
  {
    var p := 25 * done / total;
    QuotientAtLeast(25 * done, total, p);
    QuotientAtLeast(25 * (done + 1), total, p);
  }

  lemma {:induction false} AgentsUpto(r: Run, agents: seq<bool>, done: nat)
    requires done <= |agents| && agents != []
    requires Upto(r, Position(NexusConfig, AGENT_PROGRESS_START))
    ensures Upto(AgentsDone(r, agents, done), Position(NexusConfig, AgentProgress(done, |agents|)))
  {
    if done > 0 {
      AgentsUpto(r, agents, done - 1);
      AgentProgressGrows(done - 1, |agents|);
      WriteUpto(AgentsDone(r, agents, done - 1).Call(agents[done - 1]),
                Position(NexusConfig, AgentProgress(done - 1, |agents|)),
                NexusConfig, AgentProgress(done, |agents|));
    }
  }

  lemma BeforeAgentsUpto(channel: Channel, a: Answers)
    ensures Upto(NexusReady(ChannelReady(Linked(Started(a), a), channel, a), channel, a),
                 Position(NexusConfig, AGENT_PROGRESS_START))
  {
    LinkedUpto(a);
    ChannelUpto(Linked(Started(a), a), channel, a);
    NexusUpto(ChannelReady(Linked(Started(a), a), channel, a), channel, a);
  }

  /** From a start to the end of the set-up, whatever fails, the saved position never moves back. */
  lemma PositionNeverMovesBack(channel: Channel, a: Answers)
    ensures Upto(Setup(channel, a), DONE)
  {
    var ready := NexusReady(ChannelReady(Linked(Started(a), a), channel, a), channel, a);
    BeforeAgentsUpto(channel, a);
    if a.agents == [] {
      WriteUpto(ready, Position(NexusConfig, AGENT_PROGRESS_START), NexusConfig, AGENT_PROGRESS_END);
    } else {
      AgentsUpto(ready.Call(a.agentsListed), a.agents, |a.agents|);
    }
  }

  /** The wizard shows the end exactly when nothing raised: when every answer needed is good. */
  lemma SetupReachesTheEnd(channel: Channel, a: Answers)
    ensures Setup(channel, a).history != []
    ensures Last(Setup(channel, a)) == DONE <==> AllGood(channel, a)
    ensures Last(Setup(channel, a)) == DONE <==> Setup(channel, a).ok
  {
    OkIff(channel, a);
    PositionNeverMovesBack(channel, a);
    var ready := NexusReady(ChannelReady(Linked(Started(a), a), channel, a), channel, a);
    BeforeAgentsUpto(channel, a);
    if a.agents != [] {
      AgentsUpto(ready.Call(a.agentsListed), a.agents, |a.agents| - 1);
    }
  }

  // ---------------------------------------------------------------- a failing run freezes where it was

  /** The same set-up with every outside answer good. */
  function Ideal(a: Answers): Answers {
    a.(supported := true, linkSaves := true, link := if a.link.Never? then Later else a.link,
       channelDataPresent := true, channelCreated := true, channelConfigures := true,
       crawlStarts := true, managerConfigures := true, paymentConfigures := true,
       agentsListed := true, agents := seq(|a.agents|, i => true))
  }

  /** `r` went as `ideal` does up to the step that raised, and no further. */
  predicate Follows(r: Run, ideal: Run) {
    ideal.ok && if r.ok then r == ideal else r.history <= ideal.history
  }

  lemma {:induction false} AgentsFollow(r: Run, ideal: Run, agents: seq<bool>, good: seq<bool>, done: nat)
    requires done <= |agents| == |good| && (forall i :: 0 <= i < |good| ==> good[i])
    requires Follows(r, ideal)
    ensures Follows(AgentsDone(r, agents, done), AgentsDone(ideal, good, done))
  {
    if done > 0 {
      AgentsFollow(r, ideal, agents, good, done - 1);
    }
  }

  lemma WriteFollows(r: Run, ideal: Run, step: StepName, progress: nat)
    requires Follows(r, ideal)
    ensures Follows(r.Write(step, progress), ideal.Write(step, progress))
  {}

  lemma StartFollows(a: Answers)
    ensures Follows(Linked(Started(a), a), Linked(Started(Ideal(a)), Ideal(a)))
  {
    var r := Run([Position(NoStep, 0)], true);
    WriteFollows(r.Call(a.supported), r, ProjectConfig, 0);
    WriteFollows(Started(a).Call(a.link != Never), Started(Ideal(a)), ProjectConfig, 30);
  }

  lemma ChannelFollows(r: Run, ideal: Run, channel: Channel, a: Answers)
    requires Follows(r, ideal)
    ensures Follows(ChannelReady(r, channel, a), ChannelReady(ideal, channel, Ideal(a)))
  {
    if channel.Wwc? {
      WriteFollows(r, ideal, ProjectConfig, 50);
      var created, good := r.Write(ProjectConfig, 50).Call(a.channelCreated), ideal.Write(ProjectConfig, 50);
      WriteFollows(created, good, ProjectConfig, 66);
      var configured := created.Write(ProjectConfig, 66).Call(a.channelConfigures);
      var better := good.Write(ProjectConfig, 66);
      WriteFollows(configured, better, ProjectConfig, 83);
      WriteFollows(configured.Write(ProjectConfig, 83), better.Write(ProjectConfig, 83), ProjectConfig, 100);
    } else {
      WriteFollows(r.Call(a.channelDataPresent), ideal, ProjectConfig, 50);
      var created := r.Call(a.channelDataPresent).Write(ProjectConfig, 50).Call(a.channelCreated);
      var good := ideal.Write(ProjectConfig, 50);
      WriteFollows(created, good, ProjectConfig, 75);
      WriteFollows(created.Write(ProjectConfig, 75), good.Write(ProjectConfig, 75), ProjectConfig, 100);
    }
  }

  lemma NexusFollows(r: Run, ideal: Run, channel: Channel, a: Answers)
    requires Follows(r, ideal)
    ensures Follows(NexusReady(r, channel, a), NexusReady(ideal, channel, Ideal(a)))
  {
    WriteFollows(r, ideal, NexusConfig, 0);
    var crawling, good := r.Write(NexusConfig, 0).Call(a.crawlStarts), ideal.Write(NexusConfig, 0);
    WriteFollows(crawling, good, NexusConfig, 40);
    var managed := crawling.Write(NexusConfig, 40).Call(a.managerConfigures);
    WriteFollows(managed, good.Write(NexusConfig, 40), NexusConfig, AGENT_PROGRESS_START);
  }

  /** Progress freezes: a set-up that raises has saved a beginning of what the good one saves. */
  lemma FailureFreezes(channel: Channel, a: Answers)
    ensures Follows(Setup(channel, a), Setup(channel, Ideal(a)))
  {
    var good := Ideal(a);
    StartFollows(a);
    var linked, goodLinked := Linked(Started(a), a), Linked(Started(good), good);
    ChannelFollows(linked, goodLinked, channel, a);
    var ready, goodReady := ChannelReady(linked, channel, a), ChannelReady(goodLinked, channel, good);
    NexusFollows(ready, goodReady, channel, a);
    AgentsReadyFollow(NexusReady(ready, channel, a), NexusReady(goodReady, channel, good), a);
  }

  lemma AgentsReadyFollow(r: Run, ideal: Run, a: Answers)
    requires Follows(r, ideal)
    ensures Follows(AgentsReady(r, a), AgentsReady(ideal, Ideal(a)))
  {
    if a.agents != [] {
      AgentsFollow(r.Call(a.agentsListed), ideal, a.agents, Ideal(a).agents, |a.agents|);
    }
  }
}

# Retail engine: verified model

This project models the stateful core of the retail engine in Dafny and proves what its runs keep:
broadcast delivery tracking and trial blocking, conversion attribution and its report, and the
store onboarding with its background content upload. `dafny verify dfyconfig.toml` checks it.

| directory | file | what it models |
|---|---|---|
| (top) | `Common.dfy`, `Arithmetic.dfy` | optional values, sums over table rows, rounding of exact quotients |
| `broadcasts/` | `Status.dfy` | the ranked status ladder and what any stream of courier events does to one row |
| | `Rows.dfy` | one event run alone, column by column; the tables, their consistency, dispatch rows, the summary report |
| | `Delivery.dfy` | concurrent events as database transactions split into steps, with row locks, private copies and aborts |
| | `DeliveryRuns.dfy` | what every run of that machine keeps |
| | `GuardRace.dfy` | increment, read-back, check and locked block without any surrounding transaction |
| | `StatusUpdate.dfy` | the status handler, the limit guard and the dispatch insert as classes that update rows in place |
| | `Conversion.dfy` | last-touch selection and the write-once conversion table, run alone and interleaved |
| | `Rounding.dfy` | division to 28 digits followed by rounding to two places |
| | `Metrics.dfy` | the payment-recovery report over the outer join, against its plain definition |
| `projects/` | `Payment.dfy` | resumable one-click-payment set-up |
| | `SetupProgress.dfy` | the wizard position through start, link, channel and orchestrator |
| | `ContentProgress.dfy` | the content-base snapshot and the single reported percentage |
| | `Filenames.dfy`, `Upload.dfy` | file names, batches, polling and persisted upload percentages |
| | `TaskLock.dfy` | the expiring lock around the background upload |
| | `Accounts.dfy`, `AccountRuns.dfy` | projects and onboardings sharing VTEX accounts; what their runs keep, and exactly when |

Code that updates objects step by step is a class whose methods are proved against functions of the
old state; the properties of whole runs are proved about those functions, or about a machine whose
steps are those functions. Parts of a broadcast row named `initial` and `log` are history added for
the proofs: the status at creation and the courier statuses applied since.

## What was found to be false, and what holds instead

- A delivery is not counted at most once per row: DELIVERED, ERRORED, DELIVERED is counted twice
  (`CountedTwiceAfterError`), although the condition at `handle_status_update.py:263-266` is named
  `is_first_delivery`. A row is counted again exactly when an off-ladder event separates a counted
  DELIVERED from a later one with no READ since (`CountedTwiceIff`); the exact count for every event
  list is `DeliveriesExact`, and without off-ladder events it is 0 or 1 by `LadderOnlyDeliveries`.
- The remote suspension is not requested at most once when a transaction aborts after requesting it:
  `AbortRepeatsSuspension` is a run from fresh tables that requests it twice. In every reachable state
  the requests are the block mark, plus those lost to aborts, plus those of transactions still open, so
  never more than one beyond the lost ones.
- A conversion credits the last touch of the moment of attribution, which need not be that of the moment
  its row is created. It still is exactly when the credited broadcast has not failed since and no newer
  one became eligible, by dispatch or by leaving an off-ladder status (`StaysLastTouchIff`,
  `InsertedIsLastTouchIff`); both losses occur (`LastTouchMayBeLost`).
- Flow creations exceed one exactly by the creations whose save was lost (`RunKeepsInv` of
  `OneClickPayment`, `LostSaveDuplicatesFlow`).
- An upload that outlives its lock lets a second one start: exactly then (`OverlapExactlyWhenLate`).
- The reported percentage can fall. For every stored snapshot and every event, `LowersIff` says exactly
  when: a repeated completion does when the report was above 33, a crawl or upload percentage when the
  new weighted sum rounds below the report. A run reports rising percentages exactly when it has no such
  event (`RisingIff`), as every in-order run. On a complete content base a late crawl percentage lowers
  the report exactly up to 98 (`LowersComplete`).
- Account uniqueness and active links do not survive every run. The VTEX configuration event and the link
  endpoint (`retail/vtex/usecases/link_project.py`) write the account without a local check, and a
  delete may stop between its two statements. A run keeps the whole invariant exactly when each such
  write finds the account free of other active projects and each such delete a project without an
  active onboarding (`RunKeepsInvIff`). The two unique constraints on onboardings survive every run
  (`RunKeepsUnique`), and a redelivered delete repairs nothing (`InterruptedDelete`).
- Giving an existing project another account leaves its old onboarding linked, so a start under the new
  account fails on the one-to-one link (`MovedAccountBlocksSetup`). In any reachable tables a start is
  refused exactly when the account's active project is on another onboarding (`StartRefusedIff`); in runs
  that move no account no start, project event or endpoint link is refused for that reason
  (`StartNeverRefused`, `EventNeverRefused`, `EndpointNeverRefused`).

A limit rather than a failure: two-stage rounding equals one exact rounding below 10^23 conversions, far
above what the tables can hold; `TwoStagesDifferBeyond` shows that the bound is needed.

## Model

| member | source | states |
|---|---|---|
| BroadcastStatus.NextOnLadder | retail/broadcasts/usecases/handle_status_update.py:26-41 | of two lifecycle statuses, listed in their order, the later one stands whichever comes second; an event is out of order iff it is the earlier |
| BroadcastStatus.NextOffLadder | retail/broadcasts/usecases/handle_status_update.py:319-331 | ERRORED, FAILED and UNKNOWN are accepted after anything, and anything after them |
| BroadcastStatus.OffLadderExactly | retail/broadcasts/usecases/handle_status_update.py:36-41 | the statuses outside the lifecycle are ERRORED, FAILED and UNKNOWN |
| BroadcastStatus.FinalIsHighest | retail/broadcasts/usecases/handle_status_update.py:314-341 | after any event list the status is the one that stands last in the lifecycle among those after the last off-ladder event (the start status competing when on the lifecycle or alone) |
| BroadcastStatus.OrderAndRepetitionIrrelevant | retail/broadcasts/usecases/handle_status_update.py:314-341 | reordering or repeating the ladder events that end a stream never changes the final status |
| BroadcastStatus.DeliveriesExact | retail/broadcasts/usecases/handle_status_update.py:216-272 | the counted deliveries of any event list are exactly the DELIVERED events with no DELIVERED or READ before them since the last off-ladder event |
| BroadcastStatus.ReachedExactly | retail/broadcasts/usecases/handle_status_update.py:314-341 | a row is at DELIVERED or READ iff such an event came after the last off-ladder one, or it was created there and none came |
| BroadcastStatus.DeliveriesBound | retail/broadcasts/usecases/handle_status_update.py:329-341 | deliveries counted for a row are at most one for its current status plus its off-ladder events |
| BroadcastStatus.LadderOnlyDeliveries | retail/broadcasts/usecases/handle_status_update.py:263-266 | without off-ladder events: counted once iff not created at DELIVERED/READ and some DELIVERED has no READ before it, else never |
| BroadcastStatus.CountedTwiceIff | retail/broadcasts/usecases/handle_status_update.py:263-272 | a row is counted more than once iff an off-ladder event separates a counted DELIVERED from a later one with no READ since |
| BroadcastStatus.CountedTwiceAfterError | retail/broadcasts/usecases/handle_status_update.py:263-266 | "at most once" fails for DELIVERED, ERRORED, DELIVERED |
| BroadcastStatus.ReadFirstIsNeverCounted | retail/broadcasts/usecases/handle_status_update.py:263-266 | READ first means the row is never counted |
| BroadcastStatus.SuccessAcceptedIff | retail/broadcasts/usecases/handle_status_update.py:256-261 | a send is proven iff the row showed SENT, DELIVERED or READ right after such an event |
| BroadcastRows.ErrorReason | retail/broadcasts/usecases/handle_status_update.py:299-312 | a failed transition always stores some reason |
| BroadcastColumns.TransitionWrites | retail/broadcasts/usecases/handle_status_update.py:199-253 | an accepted status replaces the old one, which becomes the previous status; ERRORED and FAILED bring the courier's detail; no other column changes |
| BroadcastColumns.AgentWrites | retail/broadcasts/usecases/handle_status_update.py:256-272 | the agent is stamped with the dispatch time iff unstamped and SENT, DELIVERED or READ was accepted, and credited iff the row became delivered |
| BroadcastColumns.ProjectWrites | retail/broadcasts/usecases/project_limit_guard.py:44-128 | the counter gains one iff the row became delivered; mark, block and suspension come iff that gain reached a positive limit on an unmarked counter |
| BroadcastColumns.NoLimitNoBlock | retail/broadcasts/usecases/project_limit_guard.py:49-51 | without a limit, or with zero, no counter asks for a block |
| BroadcastTables.AtMostOneTarget | retail/broadcasts/models.py:158-169 | an event finds at most one row |
| BroadcastTables.LinkedRowIsFound | retail/broadcasts/usecases/handle_status_update.py:111-181 | a send event finds the row of its broadcast id, and the status events of its message id then find that row; an empty message id finds none |
| BroadcastTables.TransitionedHistory | retail/broadcasts/usecases/handle_status_update.py:199-272 | one event keeps the status explained by the row's history and moves its delivery count and send proof by exactly what was accepted |
| BroadcastTables.DeliverKeepsTotals | retail/broadcasts/usecases/handle_status_update.py:360-407 | project and agent counters stay equal to the accepted transitions into DELIVERED of their messages |
| BroadcastTables.DeliverCredits | retail/broadcasts/usecases/handle_status_update.py:382-387 | one event adds one delivery to exactly the agent of a row it delivers, and to no other agent |
| BroadcastTables.DeliverKeepsStamps | retail/broadcasts/usecases/handle_status_update.py:274-297 | every stamp is the dispatch time of one of the agent's own proven messages, and an agent with a proven message has a stamp |
| BroadcastTables.DeliverKeepsUniqueIds | retail/broadcasts/models.py:158-169 | an event that commits keeps broadcast ids and external ids unique |
| BroadcastTables.DeliverKeepsConsistent | retail/broadcasts/usecases/handle_status_update.py:199-272 | every committed event keeps links, unique ids, explained statuses, exact totals, explained stamps and marked blocks |
| BroadcastTables.InitialStatusExplained | retail/broadcasts/usecases/record_broadcast_sent.py:133-183 | a dispatch that cannot be linked starts FAILED, any other at the status the response maps to; exactly the FAILED rows carry an error, the one reported; no row starts counted |
| BroadcastTables.RecordKeepsConsistent | retail/broadcasts/usecases/record_broadcast_sent.py:74-117 | a dispatch row belongs to its agent's project and keeps the tables consistent |
| BroadcastTables.TotalAgainstSummary | retail/broadcasts/usecases/get_broadcast_summary.py:44-71 | the counter is at most the all-time summary's delivered count plus the project's off-ladder events |
| BroadcastTables.AgentsAddUpToProject | retail/broadcasts/usecases/handle_status_update.py:376-387 | agent counters plus deliveries of agentless rows equal the project counter |
| DeliveryMachine.StepKeepsInv | retail/broadcasts/usecases/handle_status_update.py:108-297 | every step of every concurrent transaction keeps consistency, lock exclusion, exact private copies and the suspension account |
| DeliveryMachine.CommitIsSerial | retail/broadcasts/usecases/handle_status_update.py:162-198 | a commit changes the tables exactly as its whole event run alone on the committed state of that moment |
| DeliveryMachine.CommitFrame | retail/broadcasts/usecases/handle_status_update.py:183-197 | a commit leaves every other open transaction's copies and stale agent snapshot right |
| DeliveryMachine.CommitMarks | retail/broadcasts/usecases/project_limit_guard.py:77-128 | a commit turns a project's block mark on exactly when its transaction requested the suspension |
| DeliveryMachine.BlockedKeepsTx | retail/broadcasts/usecases/project_limit_guard.py:83-110 | the re-check under the counter lock agrees with the guard's earlier decision, so an open block is never lost or doubled |
| DeliveryMachine.RecordKeepsInv | retail/broadcasts/usecases/record_broadcast_sent.py:74-117 | a dispatch inserted between the steps of open transactions disturbs none of them |
| DeliveryRuns.RunExtends | retail/broadcasts/usecases/handle_status_update.py:274-297 | in every run stamps and block marks are written at most once, logs only grow and counters never decrease |
| DeliveryRuns.RunIsConsistent | retail/broadcasts/usecases/handle_status_update.py:199-272 | in every reachable state the tables are consistent and each row has the ladder status and the delivery bound its history implies |
| DeliveryRuns.AgentsAddUpInRuns | retail/broadcasts/usecases/record_broadcast_sent.py:75-94 | in every reachable state agent counters add up to the project counter, which is the accepted transitions into DELIVERED |
| DeliveryRuns.AcceptedSendIsStamped | retail/broadcasts/usecases/handle_status_update.py:255-261 | in every reachable state a message with an accepted SENT, DELIVERED or READ has a stamped agent |
| DeliveryRuns.SuspendedAtMostOnce | retail/broadcasts/usecases/project_limit_guard.py:112-128 | suspension requests never exceed one more than those lost to aborts, and none happened while no mark and no loss |
| DeliveryRuns.QuietSuspends | retail/broadcasts/usecases/project_limit_guard.py:112-128 | with nothing in flight the requests are exactly the block mark plus the lost ones |
| DeliveryRuns.BlockedExactlyAtLimit | retail/broadcasts/usecases/handle_status_update.py:394-407 | with one positive limit, committed tables mark a project blocked iff its total reached the limit, in every state of every run |
| DeliveryRuns.NoLimitNeverBlocks | retail/broadcasts/usecases/project_limit_guard.py:49-51 | in every run a project none of whose guard steps carries a positive limit keeps its mark, block flag and suspension requests |
| DeliveryRuns.AbortRepeatsSuspension | retail/broadcasts/usecases/project_limit_guard.py:112-128 | a run from fresh tables in which two aborts leave two requests and no block mark |
| GuardRace.BlocksOnce | retail/broadcasts/usecases/project_limit_guard.py:44-128 | with no enclosing transaction at all, in every interleaving the mark is written and the suspension requested at most once, and the total counts the deliveries begun |
| GuardRace.QuietIsBlockedExactlyAtLimit | retail/broadcasts/usecases/project_limit_guard.py:44-81 | with one positive limit, whenever no delivery is between increment and block the project is marked iff its total reached the limit |
| StatusUpdate.MessageTable.RecordSent | retail/broadcasts/usecases/record_broadcast_sent.py:74-117 | inserts one row for the agent's project with the outcome of the dispatch, or nothing when the broadcast id is taken |
| StatusUpdate.MessageTable.ResolveStatusAndError | retail/broadcasts/usecases/record_broadcast_sent.py:133-167 | a failed call wins over a missing id, which wins over the mapped response |
| StatusUpdate.ProjectLimitGuard.ShouldBlock | retail/broadcasts/usecases/project_limit_guard.py:44-75 | true exactly for an unmarked counter at or over a positive limit, so never without one |
| StatusUpdate.ProjectLimitGuard.TriggerBlock | retail/broadcasts/usecases/project_limit_guard.py:77-128 | marks and blocks an unmarked project and requests one suspension; otherwise changes nothing |
| StatusUpdate.StatusHandler.RegisterFirstSuccessfulSend | retail/broadcasts/usecases/handle_status_update.py:274-297 | writes the stamp only over a missing one |
| StatusUpdate.StatusHandler.IncrementCountersAndMaybeBlock | retail/broadcasts/usecases/handle_status_update.py:360-407 | adds one to both counters and blocks exactly when the guard asks |
| StatusUpdate.StatusHandler.ApplyStatusTransition | retail/broadcasts/usecases/handle_status_update.py:199-272 | leaves the later of two lifecycle statuses, or the incoming one off the lifecycle, and message, agent and project as the single-event functions say; requests a suspension exactly when that blocks |
| StatusUpdate.StatusHandler.LinkSendEvent | retail/broadcasts/usecases/handle_status_update.py:111-155 | links and applies a send event, or changes nothing when its external id is taken or it names no row |
| StatusUpdate.StatusHandler.ApplyStatusEvent | retail/broadcasts/usecases/handle_status_update.py:157-181 | applies a status event to the row its message id names, else changes nothing |
| Conversions.SelectLastTouch | retail/broadcasts/usecases/mark_broadcast_converted.py:264-306 | picks the newest broadcast of the agent and project that carries the order id or its non-empty form id and is not errored, failed or unknown; none iff there is none |
| Conversions.ConversionTable.Execute | retail/broadcasts/usecases/mark_broadcast_converted.py:105-137 | a new order that such a broadcast carries gains one row crediting the newest, at the order's value; any other leaves the table unchanged |
| Conversions.ConversionTable.GetOrCreate | retail/broadcasts/usecases/mark_broadcast_converted.py:341-379 | inserts only when the (project, order) pair has no row |
| Conversions.ConvertedIsAttributed | retail/broadcasts/usecases/mark_broadcast_converted.py:288-303 | the same over the fields of messages and rows, for any table and list |
| Conversions.OneConversionPerOrder | retail/broadcasts/models.py:287-292 | in every interleaving at most one conversion per (project, order) |
| Conversions.ConversionsOnlyGrow | retail/broadcasts/usecases/mark_broadcast_converted.py:355-379 | existing conversions never change, whatever is replayed |
| Conversions.ConversionsAreLastTouch | retail/broadcasts/usecases/mark_broadcast_converted.py:264-306 | every conversion credits a broadcast of the resolved agent that was the newest eligible one when its invoice was attributed |
| Conversions.ConversionsAreAboutTheirOrder | retail/broadcasts/usecases/mark_broadcast_converted.py:288-303 | in every run each row credits a broadcast of its project and agent that carries its order id or its form id |
| Conversions.BroadcastsKeepIdentity | retail/broadcasts/usecases/mark_broadcast_converted.py:355-379 | broadcasts are never removed, and project, agent, creation time and purchase of one never change in a run |
| Conversions.StaysLastTouchIff | retail/broadcasts/usecases/mark_broadcast_converted.py:264-306 | a last touch is still the last touch later iff it is not off-ladder and no newer broadcast that was absent or off-ladder then is eligible now |
| Conversions.InsertedIsLastTouchIff | retail/broadcasts/usecases/mark_broadcast_converted.py:355-379 | every inserted conversion credits a choice made at an earlier step, and that choice is the last touch at insertion iff neither happened since |
| Conversions.LastTouchMayBeLost | retail/broadcasts/usecases/mark_broadcast_converted.py:121-137 | any newer eligible dispatch, and any failure of the credited broadcast, between attribution and insertion makes the row credit a broadcast that is no longer the last touch |
| Conversions.UninterruptedJob | retail/broadcasts/usecases/mark_broadcast_converted.py:105-137 | a job with no step in between gives exactly the table of one uninterrupted call |
| DecimalRounding.TwoStageIsOneStage | retail/broadcasts/usecases/get_payment_recovery_conversion_metrics.py:132-148 | a 28-digit half-even division followed by half-up rounding equals one half-up rounding of the exact quotient, for numerators below 10^(27 - places) |
| DecimalRounding.HalfwayKept | retail/broadcasts/usecases/get_payment_recovery_conversion_metrics.py:138-139 | the first rounding moves no value across a half-way point of the second |
| DecimalRounding.RateIsExactlyRounded | retail/broadcasts/usecases/get_payment_recovery_conversion_metrics.py:132-139 | the conversion rate is the exact percentage rounded once, below 10^23 conversions |
| DecimalRounding.RateIsNearest | retail/broadcasts/usecases/get_payment_recovery_conversion_metrics.py:132-139 | the rate is within 0.005 of the true percentage |
| DecimalRounding.TicketIsExactlyRounded | retail/broadcasts/usecases/get_payment_recovery_conversion_metrics.py:141-148 | the average ticket is the exact average rounded once, halves away from zero, for revenue of either sign below 10^25 cents |
| DecimalRounding.TwoStagesDifferBeyond | retail/broadcasts/usecases/get_payment_recovery_conversion_metrics.py:138-139 | the bound on the conversions is needed: just above 10^23 the two stages differ from one rounding |
| Metrics.JoinRows | retail/broadcasts/usecases/get_payment_recovery_conversion_metrics.py:93-112 | the join holds every in-scope broadcast with each of its conversions, and a NULL row exactly for those without any |
| Metrics.DispatchesAreBroadcasts | retail/broadcasts/usecases/get_payment_recovery_conversion_metrics.py:102-103 | distinct ids over the join are the in-scope broadcasts, each once |
| Metrics.PaymentsAreConversions | retail/broadcasts/usecases/get_payment_recovery_conversion_metrics.py:104-104 | distinct conversions over the join are those crediting an in-scope broadcast |
| Metrics.RevenueIsConversions | retail/broadcasts/usecases/get_payment_recovery_conversion_metrics.py:105-109 | summing over the join counts each credited conversion's value once, NULL as zero |
| Metrics.TimesAreConversions | retail/broadcasts/usecases/get_payment_recovery_conversion_metrics.py:110-111 | the joined conversion times are those of the credited conversions |
| Metrics.Least | retail/broadcasts/usecases/get_payment_recovery_conversion_metrics.py:110-110 | the least time, NULL over none |
| Metrics.Greatest | retail/broadcasts/usecases/get_payment_recovery_conversion_metrics.py:111-111 | the greatest time, NULL over none |
| Metrics.ReportIsPlain | retail/broadcasts/usecases/get_payment_recovery_conversion_metrics.py:81-130 | every figure equals its plain definition, the rate and the average being the exact quotients of those figures rounded once |
| Metrics.OneMoreMessage | retail/broadcasts/usecases/get_payment_recovery_conversion_metrics.py:93-100 | a message adds one dispatch iff dispatched in the period by the recovery agent asked for and neither QUEUED nor FAILED; without a configured agent the report is empty |
| Metrics.OneMoreConversion | retail/broadcasts/usecases/get_payment_recovery_conversion_metrics.py:102-112 | a conversion adds one payment and its value iff it credits such a message |
| Metrics.DaysInPeriod | retail/broadcasts/usecases/get_payment_recovery_conversion_metrics.py:90-91 | a period of days holds exactly the times of those UTC days |
| Metrics.AdjacentRangesAddUp | retail/broadcasts/usecases/get_payment_recovery_conversion_metrics.py:90-98 | counts and revenue of adjacent date ranges add up to those of the joined range |
| Metrics.SplitScopesAddUp | retail/broadcasts/usecases/get_payment_recovery_conversion_metrics.py:93-112 | counts and revenue add up over any split of the scope in two |
| Metrics.AgentsAddUp | retail/broadcasts/usecases/get_payment_recovery_conversion_metrics.py:99-100 | the project's figures are the sums over its payment-recovery agents |
| OneClickPayment.PaymentSetup.Execute | retail/projects/usecases/configure_one_click_payment.py:79-101 | one attempt leaves config, calls and lost flows as specified and reports success iff it turned the flow from unpublished to published |
| OneClickPayment.PaymentSetup.Provision | retail/projects/usecases/configure_one_click_payment.py:103-140 | stops at the first refused call; a flow is persisted iff it was created and saved |
| OneClickPayment.PaymentSetup.Reset | retail/projects/usecases/start_setup.py:97-100 | forgets the channel ids and keeps the payment section |
| OneClickPayment.PaymentSetup.PersistChannel | retail/projects/usecases/configure_wpp_cloud.py:138-151 | stores new channel ids and keeps the payment section |
| OneClickPayment.PublishedIff | retail/projects/usecases/configure_one_click_payment.py:79-101 | an attempt leaves the flow published iff it was, or a ready onboarding's kept or newly saved flow was accepted by Meta and that was saved |
| OneClickPayment.RetryIsRefused | retail/projects/usecases/configure_one_click_payment.py:162-172 | an attempt after a published one changes nothing and calls nobody |
| OneClickPayment.CallsInOrder | retail/projects/usecases/configure_one_click_payment.py:103-140 | the calls of an attempt come in order, each only after the one before succeeded, and stop early only on a refusal or a lost save |
| OneClickPayment.CreatedFlowIsKept | retail/projects/usecases/configure_one_click_payment.py:301-320 | the persisted flow is the one Meta named, on the channel's flow object, the channel ids unchanged |
| OneClickPayment.RunKeepsInv | retail/projects/usecases/configure_one_click_payment.py:79-140 | over any attempts, resets and channel set-ups: creations are the persisted flow plus the lost ones, every publish uses the persisted id, published implies a reported publish |
| OneClickPayment.AtMostOneFlow | retail/projects/usecases/configure_one_click_payment.py:301-320 | when the save after a creation succeeds, at most one flow is ever created |
| OneClickPayment.LostSaveDuplicatesFlow | retail/projects/usecases/configure_one_click_payment.py:129-140 | two attempts with a lost save create two flows |
| OneClickPayment.FlowIdStays | retail/projects/usecases/configure_one_click_payment.py:301-328 | a persisted flow id is never replaced and published never reverts |
| OneClickPayment.PublishedIsFinal | retail/projects/usecases/configure_one_click_payment.py:142-172 | once published no later attempt makes an outside call |
| SetupProgress.Onboarding.StartSetup | retail/projects/usecases/start_setup.py:32-67 | a start saves NoStep 0 and then PROJECT_CONFIG 0, and fails on an unsupported channel or a refused link |
| SetupProgress.Onboarding.LinkProject | retail/projects/usecases/link_project_to_onboarding.py:58-61 | the project event saves PROJECT_CONFIG 30 |
| SetupProgress.Onboarding.RunSetup | retail/projects/tasks.py:52-116 | a whole set-up saves exactly the specified positions and ends at NEXUS_CONFIG 100 iff it did not fail, which is iff every answer its channel needs is good |
| SetupProgress.Onboarding.RunTask | retail/projects/tasks.py:83-116 | the task fails without a link, raises the position to 30 when it is lower, then runs channel and orchestrator |
| SetupProgress.Onboarding.ConfigureChannel | retail/projects/usecases/configure_wwc.py:93-192 | saves 50, 66, 83, 100 (wwc) or 50, 75, 100 (wpp-cloud) up to the step that raises, nothing when already configured |
| SetupProgress.Onboarding.RunOrchestrator | retail/projects/usecases/onboarding_orchestrator.py:62-108 | saves 0, 40, 75 and the agents' progress up to the step that raises, and fails iff crawl, manager, payment (wpp-cloud) or an agent does |
| SetupProgress.Onboarding.IntegrateAgents | retail/projects/usecases/integrate_agents.py:84-127 | saves one progress per agent integrated, up to the first refusal |
| SetupProgress.AgentProgress | retail/projects/usecases/integrate_agents.py:91-122 | stays within 75..100 and is 100 exactly after the last agent |
| SetupProgress.AgentProgressIsShare | retail/projects/usecases/integrate_agents.py:91-122 | is 75 plus the whole part of the done share of 25 |
| SetupProgress.PositionNeverMovesBack | retail/projects/usecases/onboarding_orchestrator.py:77-108 | whatever fails, the saved (step, progress) never moves back and never passes NEXUS_CONFIG 100 |
| SetupProgress.SetupReachesTheEnd | retail/projects/usecases/integrate_agents.py:62-69 | the last saved position is NEXUS_CONFIG 100 exactly when nothing raised, which is when every answer needed is good |
| SetupProgress.FailureFreezes | retail/projects/usecases/onboarding_orchestrator.py:58-60 | a set-up that raises has saved a beginning of what the same set-up with good answers saves |
| SetupProgress.OkIff | retail/projects/usecases/onboarding_orchestrator.py:82-91 | a set-up succeeds iff channel supported, link saved and made, channel made, crawl, manager, payment (wpp-cloud only) and all agents good |
| SetupProgress.GoodPositions | retail/projects/usecases/configure_wwc.py:93-101 | the positions of a good set-up, channel by channel, number by number |
| SetupProgress.StopsInProject | retail/projects/usecases/configure_wpp_cloud.py:56-136 | the position at which each failure before the orchestrator freezes the wizard |
| SetupProgress.StopsInNexus | retail/projects/usecases/onboarding_orchestrator.py:77-91 | and each failure of crawl, manager, payment or agent list |
| SetupProgress.StopsAtAgent | retail/projects/usecases/integrate_agents.py:94-122 | and the first agent that cannot be integrated |
| ContentProgress.ContentBase.HandleProgress | retail/projects/usecases/update_onboarding_progress.py:222-245 | persists the crawl percentage and the crawling status |
| ContentProgress.ContentBase.HandleCompleted | retail/projects/usecases/update_onboarding_progress.py:71-115 | ends the crawl at 100 with the upload at 0, or at complete when there are no files |
| ContentProgress.ContentBase.HandleFailed | retail/projects/usecases/update_onboarding_progress.py:117-143 | a failed crawl is recorded as such and completes the content base with no files |
| ContentProgress.ContentBase.MarkCompleteWithNoFiles | retail/projects/usecases/content_base_progress_helpers.py:61-74 | both percentages 100, status complete |
| ContentProgress.ContentBase.HandleUploadRaised | retail/projects/tasks.py:194-206 | a raised upload is recorded as failed, the percentages kept |
| ContentProgress.OverallIsWeighted | retail/projects/usecases/content_base_progress_helpers.py:21-28 | until completion the report is the nearest percentage to 33 hundredths of the crawl and 67 of the upload |
| ContentProgress.OverallMonotone | retail/projects/usecases/content_base_progress_helpers.py:21-28 | the reported percentage is monotone in a snapshot that is not behind another |
| ContentProgress.HundredMeansUploaded | retail/projects/usecases/content_base_progress_helpers.py:21-28 | with the crawl at 100 and work not complete, 100 is reported iff the upload is at 100 |
| ContentProgress.ReportNeverDecreases | retail/projects/usecases/content_base_progress_helpers.py:52-74 | in an in-order run the report never decreases and stays in 0..100 |
| ContentProgress.InOrderHundred | retail/projects/usecases/content_base_progress_helpers.py:21-28 | in an in-order run a finished, incomplete crawl reads 100 iff the upload is at 100 |
| ContentProgress.LowersIff | retail/projects/usecases/content_base_progress_helpers.py:21-28 | for every stored snapshot and every event, when exactly the event lowers the reported percentage |
| ContentProgress.RisingIff | retail/projects/usecases/update_onboarding_progress.py:239-244 | a run of any events reports never-decreasing percentages iff none of its events lowers the report |
| ContentProgress.LowersComplete | retail/projects/usecases/update_onboarding_progress.py:239-244 | on a complete content base a crawl percentage lowers the report iff it is at most 98, an upload percentage iff at most 99, a failure never |
| ContentProgress.LowersIncomplete | retail/projects/usecases/content_base_progress_helpers.py:21-28 | before completion a percentage not below the stored one never lowers the report; a crawl one 4 below and an upload one 2 below always do |
| ContentProgress.LateEventsLowerReport | retail/projects/usecases/update_onboarding_progress.py:89-98 | inputs: a late crawl percentage, and a second completion |
| Filenames.PaddedRoundTrip | retail/projects/usecases/upload_nexus_contents.py:287-292 | the padded index reads back as itself, also past 999 |
| Filenames.CleanedIsClean | retail/projects/usecases/upload_nexus_contents.py:273-286 | a cleaned title is not empty, at most 80 long, free of white space and underscores |
| Filenames.CleanedKeepsTitle | retail/projects/usecases/upload_nexus_contents.py:287-291 | a cleaned title is lower-case letters, digits and hyphens and carries the title's letters and digits in order, all of them unless it is 80 long |
| Filenames.EmptyTitleIsPage | retail/projects/usecases/upload_nexus_contents.py:289-291 | a title of signs and white space becomes page |
| Filenames.RunsBecomeOneHyphen | retail/projects/usecases/upload_nexus_contents.py:290-290 | each run of separators gives one hyphen |
| Filenames.WordsStayApart | retail/projects/usecases/upload_nexus_contents.py:290-290 | letters apart in the title by any white space or an underscore are apart by a hyphen in the name |
| Filenames.NoHyphenAtEnds | retail/projects/usecases/upload_nexus_contents.py:289-289 | white space at the ends of a title leaves no hyphen |
| Filenames.PaddedWidth | retail/projects/usecases/upload_nexus_contents.py:292-292 | the index takes three digits, and more only without leading zeros |
| Filenames.FilenameCarriesIndex | retail/projects/usecases/upload_nexus_contents.py:273-292 | what precedes the first underscore of a file name is its index |
| Filenames.FilenamesDistinct | retail/projects/usecases/upload_nexus_contents.py:287-292 | different indices give different names, whatever the titles |
| Filenames.BuildFiles | retail/projects/usecases/upload_nexus_contents.py:238-264 | one file per page, in order, with the page's text and its title or page number, pairwise distinct names |
| ContentUpload.ChunksAreTheFiles | retail/projects/usecases/upload_nexus_contents.py:267-270 | the batches concatenate to the list, all full except possibly the last, their number the ceiling |
| ContentUpload.UploadPercentIsShare | retail/projects/usecases/content_base_progress_helpers.py:31-49 | a persisted percentage is the nearest to the files done of all files, and 100 once the last batch is done |
| ContentUpload.PollsUntilComplete | retail/projects/usecases/upload_nexus_contents.py:180-236 | a batch is polled up to its first completing answer, 300 times when there is none |
| ContentUpload.AnsweredPollsAreWritten | retail/projects/usecases/upload_nexus_contents.py:180-236 | one percentage is written per answered poll, in order, none for an unanswered one |
| ContentUpload.SentThroughFirstRefusal | retail/projects/usecases/upload_nexus_contents.py:96-135 | the batches sent are all, or those up to and including the first refused |
| ContentUpload.SucceedsIff | retail/projects/usecases/upload_nexus_contents.py:136-157 | an upload succeeds iff every batch is accepted and some batch brings a file id |
| ContentUpload.PollTraceOrdered | retail/projects/usecases/upload_nexus_contents.py:163-236 | percentages persisted within a batch never decrease and stay between its two ends |
| ContentUpload.UploadTraceOrdered | retail/projects/usecases/content_base_progress_helpers.py:31-49 | percentages persisted across all batches and polls never decrease and stay in 0..100 |
| ContentUpload.UploadIsBounded | retail/projects/usecases/upload_nexus_contents.py:96-157 | the files sent are a beginning of the list in order, the whole list on success; at most 300 polls per batch of 25; the last write of a success is completion |
| ContentUpload.CrawlThenUploadInOrder | retail/projects/usecases/upload_nexus_contents.py:77-157 | a completed crawl followed by its upload is an in-order run, so the report never decreases through it |
| ContentUpload.ContentUploader.WaitForBatch | retail/projects/usecases/upload_nexus_contents.py:163-236 | polls until complete or 300 attempts, persisting one percentage per answered poll |
| ContentUpload.ContentUploader.SubmitBatch | retail/projects/usecases/upload_nexus_contents.py:96-135 | sends one batch and waits for it unless it is refused |
| ContentUpload.ContentUploader.SubmitBatches | retail/projects/usecases/upload_nexus_contents.py:96-150 | sends the batches in order up to and including the first refusal |
| ContentUpload.ContentUploader.UploadContents | retail/projects/usecases/upload_nexus_contents.py:77-157 | succeeds iff there is nothing to send or no batch is refused and some file id came back; then exactly the files were sent and the upload is at 100 and complete |
| TaskLock.LockCache.Acquire | retail/projects/tasks.py:36-44 | acquires iff no live entry exists, for 1800 seconds |
| TaskLock.LockCache.Release | retail/projects/tasks.py:47-49 | removes the entry whoever added it |
| TaskLock.LockLastsHalfAnHour | retail/projects/tasks.py:24-44 | a free account is taken by the next webhook for exactly 1800 seconds |
| TaskLock.EndFreesAccount | retail/projects/tasks.py:207-208 | once an upload has ended the account's next webhook starts another; other accounts keep their locks |
| TaskLock.OneUploadInFlight | retail/projects/tasks.py:176-208 | when no upload outlives its lock, in every interleaving an account has at most one upload acquired or in flight |
| TaskLock.OverlapExactlyWhenLate | retail/projects/tasks.py:36-49 | the next webhook starts a second upload exactly when an open one is late |
| TaskLock.DispatchedOrPending | retail/projects/usecases/update_onboarding_progress.py:107-113 | every acquisition is dispatched once or still about to be |
| TaskLock.DispatchesEqualAcquisitions | retail/projects/usecases/update_onboarding_progress.py:107-113 | between webhooks, dispatches equal successful acquisitions |
| TaskLock.LateUploadOverlaps | retail/projects/tasks.py:24-49 | a run with a late upload has two uploads of one account in flight |
| Accounts.Find | retail/projects/usecases/project_creation.py:75-83 | tells apart no, one and several active projects of an account |
| Accounts.Registry.CheckVtexAccountConflict | retail/projects/usecases/project_creation.py:66-106 | conflict iff another active project, or several, hold the account |
| Accounts.Registry.CreateProject | retail/projects/usecases/project_creation.py:18-64 | a conflict changes nothing; otherwise the project exists with the account unless none was given |
| Accounts.Registry.LinkProjectToOnboarding | retail/projects/usecases/link_project_to_onboarding.py:23-61 | links the active onboarding of the account, and fails iff another onboarding has the project |
| Accounts.Registry.Consume | retail/projects/consumers/project_consumer.py:16-46 | create or update, then link; not acknowledged iff one of the two raised |
| Accounts.Registry.HandleDelete | retail/projects/consumers/project_update_consumer.py:89-120 | an active project and all its onboardings become inactive, anything else is unchanged |
| Accounts.Registry.GetOrCreateActive | retail/projects/usecases/onboarding_access.py:8-30 | returns the active onboarding of the account, made new when only inactive ones exist |
| Accounts.Registry.TryLinkProject | retail/projects/usecases/start_setup.py:115-136 | keeps a link to an active project, else links the account's active project, and says when that raises |
| Accounts.Registry.StartSetup | retail/projects/usecases/start_setup.py:32-67 | schedules the task iff the channel is supported and the link did not raise |
| Accounts.Registry.ConfigVtexProject | retail/projects/usecases/project_vtex_config.py:20-30 | writes the account of an active project without a check |
| Accounts.Registry.LinkProject | retail/vtex/usecases/link_project.py:54-69 | writes the account of an active project without a check, then links; fails iff another onboarding has the project, the account staying written |
| AccountRuns.RefusedExactlyOnConflict | retail/projects/usecases/project_creation.py:66-106 | in tables with unique accounts a creation is refused iff another active project has the account |
| AccountRuns.RunKeepsInvIff | retail/projects/usecases/project_creation.py:18-106 | a run keeps throughout one active project and one active onboarding per account, no active onboarding on an inactive project and one onboarding per project, iff every unguarded account write and every cut-short delete in it is clear |
| AccountRuns.GuardedRunKeepsInv | retail/projects/consumers/project_update_consumer.py:89-120 | so every run of project events, deletes, starts and saved failures keeps all of that |
| AccountRuns.StepKeepsInvIff | retail/projects/usecases/start_setup.py:115-136 | one event of any kind keeps the invariant iff it is clear, also when its link is refused |
| AccountRuns.RunKeepsUnique | retail/projects/models.py:113-119 | every run whatsoever keeps one active onboarding per account and one onboarding per project |
| AccountRuns.ConfiguredKeepsUniqueIff | retail/projects/usecases/project_vtex_config.py:27-29 | after the unguarded write accounts are unique iff the account is blank or no other active project has it |
| AccountRuns.ConfigurationDuplicatesAccount | retail/projects/usecases/project_vtex_config.py:27-29 | a reachable state in which the unguarded write duplicates an account |
| AccountRuns.InterruptedDelete | retail/projects/consumers/project_update_consumer.py:101-111 | a delete stopped half-way breaks the link invariant iff the project had an active onboarding, and redelivery leaves it so |
| AccountRuns.DeletedKeepsLinks | retail/projects/usecases/onboarding_access.py:42-46 | a completed delete leaves no active onboarding on the project |
| AccountRuns.InactiveRowsAreFrozen | retail/projects/usecases/onboarding_access.py:11-16 | no run reactivates a project or touches an onboarding once inactive |
| AccountRuns.StartRefusedIff | retail/projects/usecases/start_setup.py:121-136 | a start is refused iff its onboarding is on no active project and the account's active project is on another onboarding |
| AccountRuns.StartNeverRefused | retail/projects/usecases/start_setup.py:121-136 | in clear runs that move no account a start never raises on the link and leaves the onboarding on its account's active project |
| AccountRuns.EventNeverRefused | retail/projects/usecases/link_project_to_onboarding.py:35-61 | in such runs an accepted project event never raises on the link and leaves the account's onboarding on that project |
| AccountRuns.EndpointNeverRefused | retail/vtex/usecases/link_project.py:54-69 | and neither does the link endpoint on an active project whose account it does not replace |
| AccountRuns.MovedAccountBlocksSetup | retail/projects/usecases/project_creation.py:59-63 | a moved account keeps its old onboarding and makes the start of the new account fail |
| AccountRuns.EitherOrderLinks | retail/projects/usecases/link_project_to_onboarding.py:11-21 | start then project event, or the reverse, end in the same linked tables |
| AccountRuns.DeletedAccountStartsFresh | retail/projects/usecases/onboarding_access.py:11-30 | after a delete, a start and the next project of the account end in a new onboarding linked to it, the old rows unchanged |

## Left out

- Outside services (HTTP, Meta, Nexus, Connect, Flows, crawler, queues): each call is an answer given to the model.
- Deletion of agents, projects and messages: rows are only added and updated.
- Columns that no decision reads: last payload, status timestamp, names, languages, payment type and payment dates.
- Logging, cache invalidation, and the caches for projects, agents and metrics results.
- The trial limit lookup and its overrides: the resolved limit is an argument of each check.
- Event parsing and status letters: events arrive normalised, with an absent or numeric broadcast id.
- Value and date extraction from VTEX order payloads: the order details are an argument.
- Whole-blob config writes from stale instances: config writers are taken to read afresh and run one at a time, so the survival of `background_error` is not claimed.
- The `url_redirected` crawler event and negative crawl percentages.
- Floating point: percentages are exact rationals rounded half to even or truncated; timestamps are integers in microseconds.
- The exponent range of decimals: exponents are unbounded.
- Unicode normalisation of titles: a title is the ASCII text before the two substitutions.
- Waiting and retry counts of the set-up task: a project that is never linked is one answer.
- Creation races of projects: `get_or_create` with its integrity fallback is one step.
- Order of broadcasts with equal creation times: any of them may be chosen in the interleaved model.
- The remote validation and migration behind the link endpoint: a link the remote side refuses changes nothing here.
- DeliveryRuns.SuspendedAtMostOnce: counts requests lost to aborts separately, because an aborted transaction cannot take its request back.
- DecimalRounding.TwoStageIsOneStage: stated below 10^(27 - places), beyond which it fails for some inputs.
- SetupProgress.PositionNeverMovesBack: one set-up with at most one project link event, since a second start resets the position by design.
- Agent-execution logs, carts, order-status webhooks, templates, roles, views, serializers, admin and migrations.

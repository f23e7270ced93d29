/** Resumable set-up of one-click payment: create a Meta flow once, publish it until it sticks. */
module OneClickPayment {
  import opened Common

  datatype Payment = Payment(channelUuid: string, flowId: string, published: bool)

  /** The wpp-cloud section of the onboarding config; empty ids are missing ones. */
  datatype WppCloud = WppCloud(appUuid: string, flowObjectUuid: string, payment: Option<Payment>)

  /** The calls made to the outside, with what they answered. */
  datatype Call =
    | FetchChannel(ok: bool)
    | UpdateChannel(ok: bool)
    | RegisterKey(ok: bool)
    | CreateFlow(flowId: string)          // empty: refused, or no id returned
    | Publish(flowId: string, ok: bool)

  /** How the outside answers during one attempt, and whether each save reaches the database. */
  datatype Answers = Answers(
    endpointConfigured: bool, channel: bool, update: bool, register: bool, created: string, saveFlow: bool,
    publish: bool, savePublished: bool)

  /** The persisted state, the calls made so far, and the flows whose id was lost by a failed save. */
  datatype World = World(projectLinked: bool, wpp: Option<WppCloud>, calls: seq<Call>, lostFlows: nat)

  predicate Ready(w: World) {
    && w.projectLinked && w.wpp.Some?
    && w.wpp.value.appUuid != "" && w.wpp.value.flowObjectUuid != ""
    && (w.wpp.value.payment.Some? ==> !w.wpp.value.payment.value.published)
  }

  /** The provisioning calls of one attempt, up to the first refusal. */
  function ProvisionCalls(a: Answers): seq<Call> {
    if !a.endpointConfigured then []
    else if !a.channel then [FetchChannel(false)]
    else if !a.update then [FetchChannel(true), UpdateChannel(false)]
    else if !a.register then [FetchChannel(true), UpdateChannel(true), RegisterKey(false)]
    else [FetchChannel(true), UpdateChannel(true), RegisterKey(true), CreateFlow(a.created)]
  }

  predicate FlowCreated(a: Answers) {
    a.endpointConfigured && a.channel && a.update && a.register && a.created != ""
  }

  function WithPayment(w: World, p: Payment): World
    requires w.wpp.Some?
  {
    w.(wpp := Some(w.wpp.value.(payment := Some(p))))
  }

  function Provisioned(w: World, a: Answers): World
    requires Ready(w)
  {
    var w1 := w.(calls := w.calls + ProvisionCalls(a));
    if !FlowCreated(a) then w1
    else if !a.saveFlow then w1.(lostFlows := w1.lostFlows + 1)
    else WithPayment(w1, Payment(w.wpp.value.flowObjectUuid, a.created, false))
  }

  function Published(w: World, a: Answers): World
    requires w.wpp.Some? && w.wpp.value.payment.Some?
  {
    var p := w.wpp.value.payment.value;
    var w1 := w.(calls := w.calls + [Publish(p.flowId, a.publish)]);
    if a.publish && a.savePublished then WithPayment(w1, p.(published := true)) else w1
  }

  predicate HasFlow(w: World) {
    w.wpp.Some? && w.wpp.value.payment.Some?
  }

  /** One attempt. Anything that is not ready, or already published, is refused without a call. */
  function Attempted(w: World, a: Answers): World {
    if !Ready(w) then w
    else
      var w1 := if HasFlow(w) then w else Provisioned(w, a);
      if HasFlow(w1) then Published(w1, a) else w1
  }

  predicate IsPublished(w: World) {
    w.wpp.Some? && w.wpp.value.payment.Some? && w.wpp.value.payment.value.published
  }

  /** The flow is published exactly when it was before, or a ready onboarding's persisted flow, kept or
      created and saved by this attempt, was published and that was saved. */
  lemma PublishedIff(w: World, a: Answers)
    ensures IsPublished(Attempted(w, a)) <==>
            IsPublished(w)
            || (w.projectLinked && w.wpp.Some? && w.wpp.value.appUuid != "" && w.wpp.value.flowObjectUuid != ""
                && (w.wpp.value.payment.Some?
                    || (a.endpointConfigured && a.channel && a.update && a.register && a.created != "" && a.saveFlow))
                && a.publish && a.savePublished)
  {
  }

  /** The attempt after one that published is refused and changes nothing. */
  lemma RetryIsRefused(w: World, a: Answers, again: Answers)
    requires IsPublished(Attempted(w, a))
    ensures Attempted(Attempted(w, a), again) == Attempted(w, a)
  {
  }

  /** The place of a call in the set-up. */
  function Stage(call: Call): nat {
    match call
    case FetchChannel(_) => 0
    case UpdateChannel(_) => 1
    case RegisterKey(_) => 2
    case CreateFlow(_) => 3
    case Publish(_, _) => 4
  }

  predicate Succeeded(call: Call) {
    match call
    case CreateFlow(flowId) => flowId != ""
    case Publish(_, ok) => ok
    case _ => call.ok
  }

  /** What came back from the call of a stage. */
  predicate Answered(a: Answers, call: Call) {
    match call
    case FetchChannel(ok) => ok == a.channel
    case UpdateChannel(ok) => ok == a.update
    case RegisterKey(ok) => ok == a.register
    case CreateFlow(flowId) => flowId == a.created
    case Publish(_, ok) => ok == a.publish
  }

  function NewCalls(w: World, a: Answers): seq<Call> {
    if |w.calls| <= |Attempted(w, a).calls| then Attempted(w, a).calls[|w.calls|..] else []
  }

  lemma ProvisionInOrder(a: Answers)
    ensures var calls := ProvisionCalls(a);
            && (forall i :: 0 <= i < |calls| ==> Answered(a, calls[i]) && Stage(calls[i]) == i)
            && (forall i :: 0 <= i < |calls| - 1 ==> Succeeded(calls[i]))
            && (calls == [] <==> !a.endpointConfigured)
            && (FlowCreated(a) <==> |calls| == 4 && Succeeded(calls[3]))
  {
  }

  lemma NewCallsAre(w: World, a: Answers)
    requires Ready(w)
    ensures Attempted(w, a).calls == w.calls + NewCalls(w, a)
    ensures NewCalls(w, a) ==
            if HasFlow(w) then [Publish(w.wpp.value.payment.value.flowId, a.publish)]
            else if FlowCreated(a) && a.saveFlow then ProvisionCalls(a) + [Publish(a.created, a.publish)]
            else ProvisionCalls(a)
  {
    var created := ProvisionCalls(a);
    var publish := [Publish(a.created, a.publish)];
    assert w.calls + created + publish == w.calls + (created + publish);
    assert (w.calls + (created + publish))[|w.calls|..] == created + publish;
    assert (w.calls + created)[|w.calls|..] == created;
  }

  /** An attempt makes its calls in order, each only after the one before succeeded: all five from the
      start without a flow, only the publish with one. It stops early only on a refusal or a lost save. */
  lemma CallsInOrder(w: World, a: Answers)
    requires Ready(w)
    ensures var calls := NewCalls(w, a);
            && Attempted(w, a).calls == w.calls + calls
            && (forall i :: 0 <= i < |calls| ==>
                  Answered(a, calls[i]) && Stage(calls[i]) == (if HasFlow(w) then 4 else i))
            && (forall i :: 0 <= i < |calls| - 1 ==> Succeeded(calls[i]))
            && (calls == [] <==> !HasFlow(w) && !a.endpointConfigured)
            && (calls != [] && Succeeded(calls[|calls| - 1]) && Stage(calls[|calls| - 1]) < 4 ==>
                  Stage(calls[|calls| - 1]) == 3 && !a.saveFlow)
  {
    NewCallsAre(w, a);
    ProvisionInOrder(a);
  }

  /** A flow created and saved is the one Meta named, on the channel's flow object. */
  lemma CreatedFlowIsKept(w: World, a: Answers)
    requires Ready(w) && !HasFlow(w) && HasFlow(Attempted(w, a))
    ensures var wpp := Attempted(w, a).wpp.value;
            && wpp.appUuid == w.wpp.value.appUuid && wpp.flowObjectUuid == w.wpp.value.flowObjectUuid
            && wpp.payment.value.flowId == a.created && wpp.payment.value.channelUuid == w.wpp.value.flowObjectUuid
  {
  }

  /** The use case over the persisted onboarding; every early return is a raised error. */
  class PaymentSetup {
    var projectLinked: bool
    var wpp: Option<WppCloud>
    var calls: seq<Call>
    var lostFlows: nat

    constructor ()
      ensures View() == World(false, None, [], 0)
    {
      projectLinked, wpp, calls, lostFlows := false, None, [], 0;
    }

    function View(): World
      reads this
    {
      World(projectLinked, wpp, calls, lostFlows)
    }

    method Execute(a: Answers) returns (configured: bool)
      modifies this
      ensures View() == Attempted(old(View()), a)
      ensures configured <==> old(Ready(View())) && HasFlow(View()) && a.publish && a.savePublished
      ensures configured <==> !old(IsPublished(View())) && IsPublished(View())
    {
      PublishedIff(View(), a);
      if !projectLinked || wpp.None? || wpp.value.appUuid == "" || wpp.value.flowObjectUuid == "" {
        return false;
      }
      if wpp.value.payment.Some? && wpp.value.payment.value.published {
        return false;
      }
      if wpp.value.payment.None? {
        var provisioned := Provision(a);
        if !provisioned {
          return false;
        }
      }
      var p := wpp.value.payment.value;
      calls := calls + [Publish(p.flowId, a.publish)];
      if !a.publish || !a.savePublished {
        return false;
      }
      wpp := Some(wpp.value.(payment := Some(p.(published := true))));
      return true;
    }

    method Provision(a: Answers) returns (provisioned: bool)
      requires Ready(View()) && !HasFlow(View())
      modifies this
      ensures View() == Provisioned(old(View()), a)
      ensures provisioned <==> HasFlow(View())
    {
      if !a.endpointConfigured {
        return false;
      }
      calls := calls + [FetchChannel(a.channel)];
      if !a.channel {
        return false;
      }
      calls := calls + [UpdateChannel(a.update)];
      if !a.update {
        return false;
      }
      calls := calls + [RegisterKey(a.register)];
      if !a.register {
        return false;
      }
      calls := calls + [CreateFlow(a.created)];
      if a.created == "" {
        return false;
      }
      if !a.saveFlow {
        lostFlows := lostFlows + 1;
        return false;
      }
      wpp := Some(wpp.value.(payment := Some(Payment(wpp.value.flowObjectUuid, a.created, false))));
      return true;
    }

    /** A new setup forgets the channel ids and keeps the payment section. */
    method Reset()
      modifies this
      ensures View() == Applied(old(View()), Action.Reset)
      ensures wpp.Some? <==> old(wpp).Some?
      ensures wpp.Some? ==> wpp.value.appUuid == "" && wpp.value.flowObjectUuid == ""
                            && wpp.value.payment == old(wpp).value.payment
    {
      if wpp.Some? {
        wpp := Some(wpp.value.(appUuid := "", flowObjectUuid := ""));
      }
    }

    method PersistChannel(appUuid: string, flowObjectUuid: string)
      modifies this
      ensures View() == Applied(old(View()), Action.Channel(appUuid, flowObjectUuid))
      ensures wpp == Some(WppCloud(appUuid, flowObjectUuid, if old(wpp).Some? then old(wpp).value.payment else None))
    {
      wpp := if wpp.Some? then Some(wpp.value.(appUuid := appUuid, flowObjectUuid := flowObjectUuid))
             else Some(WppCloud(appUuid, flowObjectUuid, None));
    }
  }

  // ---------------------------------------------------------------- any sequence of attempts

  datatype Action =
    | Attempt(answers: Answers)
    | Reset
    | Channel(appUuid: string, flowObjectUuid: string)
    | Link

  function Applied(w: World, action: Action): World {
    match action
    case Attempt(a) => Attempted(w, a)
    case Reset =>
      if w.wpp.None? then w else w.(wpp := Some(w.wpp.value.(appUuid := "", flowObjectUuid := "")))
    case Channel(app, flowObject) =>
      w.(wpp := Some(if w.wpp.Some? then w.wpp.value.(appUuid := app, flowObjectUuid := flowObject)
                     else WppCloud(app, flowObject, None)))
    case Link => w.(projectLinked := true)
  }

  function Run(w: World, actions: seq<Action>): World {
    if actions == [] then w else Applied(Run(w, actions[..|actions| - 1]), actions[|actions| - 1])
  }

  predicate Fresh(w: World) {
    !HasFlow(w) && w.calls == [] && w.lostFlows == 0
  }

  /** Successful flow creations. */
  function IsCreation(): Call -> int {
    (c: Call) => if c.CreateFlow? && c.flowId != "" then 1 else 0
  }

  ghost predicate Inv(w: World) {
    && Sum(w.calls, IsCreation()) == w.lostFlows + (if HasFlow(w) then 1 else 0)
    && (forall c :: c in w.calls && c.Publish? ==> HasFlow(w) && c.flowId == w.wpp.value.payment.value.flowId)
    && (HasFlow(w) ==> CreateFlow(w.wpp.value.payment.value.flowId) in w.calls)
    && (HasFlow(w) && w.wpp.value.payment.value.published ==>
          Publish(w.wpp.value.payment.value.flowId, true) in w.calls)
  }

  lemma ProvisionCreations(a: Answers)
    ensures Sum(ProvisionCalls(a), IsCreation()) == if FlowCreated(a) then 1 else 0
    ensures forall c :: c in ProvisionCalls(a) ==> !c.Publish?
  {
    var f := IsCreation();
    var steps := [FetchChannel(true), UpdateChannel(true), RegisterKey(true)];
    SumZero(steps, f);
    SumAppend(steps, CreateFlow(a.created), f);
    assert steps + [CreateFlow(a.created)]
        == [FetchChannel(true), UpdateChannel(true), RegisterKey(true), CreateFlow(a.created)];
    if !FlowCreated(a) && (!a.endpointConfigured || !a.channel || !a.update || !a.register) {
      SumZero(ProvisionCalls(a), f);
    }
  }

  lemma ProvisionKeepsInv(w: World, a: Answers)
    requires Inv(w) && Ready(w) && !HasFlow(w)
    ensures Inv(Provisioned(w, a))
  {
    ProvisionCreations(a);
    SumConcat(w.calls, ProvisionCalls(a), IsCreation());
  }

  lemma PublishKeepsInv(w: World, a: Answers)
    requires Inv(w) && HasFlow(w)
    ensures Inv(Published(w, a))
  {
    SumAppend(w.calls, Publish(w.wpp.value.payment.value.flowId, a.publish), IsCreation());
  }

  lemma ActionKeepsInv(w: World, action: Action)
    requires Inv(w)
    ensures Inv(Applied(w, action))
  {
    if action.Attempt? && Ready(w) {
      if HasFlow(w) {
        PublishKeepsInv(w, action.answers);
      } else {
        ProvisionKeepsInv(w, action.answers);
        if HasFlow(Provisioned(w, action.answers)) {
          PublishKeepsInv(Provisioned(w, action.answers), action.answers);
        }
      }
    }
  }

  /** Over any sequence of attempts, resets and channel set-ups: creations succeed once plus once per
      lost save, every publish uses the persisted flow id, and "published" was reported by Meta. */
  lemma {:induction false} RunKeepsInv(w: World, actions: seq<Action>)
    requires Fresh(w)
    ensures Inv(Run(w, actions))
  {
    if actions != [] {
      RunKeepsInv(w, actions[..|actions| - 1]);
      ActionKeepsInv(Run(w, actions[..|actions| - 1]), actions[|actions| - 1]);
    }
  }

  predicate SavesSucceed(actions: seq<Action>) {
    forall i :: 0 <= i < |actions| && actions[i].Attempt? ==> actions[i].answers.saveFlow
  }

  lemma {:induction false} NoLostFlows(w: World, actions: seq<Action>)
    requires Fresh(w) && SavesSucceed(actions)
    ensures Run(w, actions).lostFlows == 0
  {
    if actions != [] {
      NoLostFlows(w, actions[..|actions| - 1]);
    }
  }

  /** When the save after a creation always succeeds, Meta creates at most one flow. */
  lemma AtMostOneFlow(w: World, actions: seq<Action>)
    requires Fresh(w) && SavesSucceed(actions)
    ensures Sum(Run(w, actions).calls, IsCreation()) <= 1
  {
    RunKeepsInv(w, actions);
    NoLostFlows(w, actions);
  }

  /** Without that: two attempts whose save is lost create two flows. */
  lemma LostSaveDuplicatesFlow(w: World, a: Answers)
    requires Fresh(w) && Ready(w) && FlowCreated(a) && !a.saveFlow
    ensures Sum(Run(w, [Attempt(a), Attempt(a)]).calls, IsCreation()) == 2
  {
    var both := [Attempt(a), Attempt(a)];
    assert both[..1] == [Attempt(a)] && both[..1][..0] == [];
    RunKeepsInv(w, both);
    assert Run(w, []) == w;
    assert Run(w, both[..1]) == Attempted(w, a);
    assert Run(w, both) == Attempted(Attempted(w, a), a);
  }

  /** A persisted flow is never replaced. */
  lemma FlowIdStays(w: World, action: Action)
    requires HasFlow(w)
    ensures HasFlow(Applied(w, action))
    ensures Applied(w, action).wpp.value.payment.value.flowId == w.wpp.value.payment.value.flowId
    ensures w.wpp.value.payment.value.published ==> Applied(w, action).wpp.value.payment.value.published
  {
  }

  /** Once published, no later action makes an outside call. */
  lemma {:induction false} PublishedIsFinal(w: World, actions: seq<Action>)
    requires HasFlow(w) && w.wpp.value.payment.value.published
    ensures Run(w, actions).calls == w.calls
    ensures HasFlow(Run(w, actions)) && Run(w, actions).wpp.value.payment.value.published
  {
    if actions != [] {
      PublishedIsFinal(w, actions[..|actions| - 1]);
    }
  }
}

/** What runs of project events, deletes, account writes and set-up starts keep, and exactly when. */
module AccountRuns {
  import opened Common
  import opened Accounts

  // ---------------------------------------------------------------- what every event keeps

  ghost predicate OneActiveProject(t: Tables) {
    forall a: string, u, v :: a != "" && Holds(t.projects, u, a) && Holds(t.projects, v, a) ==> u == v
  }

  predicate OneActiveOnboarding(rows: seq<Onboarding>) {
    forall i, j :: 0 <= i < j < |rows| && rows[i].isActive && rows[j].isActive ==> rows[i].account != rows[j].account
  }

  predicate ActiveLinks(t: Tables) {
    forall i :: 0 <= i < |t.onboardings| && t.onboardings[i].isActive && t.onboardings[i].project.Some? ==>
      LinkedToActive(t, t.onboardings[i])
  }

  predicate OneToOne(rows: seq<Onboarding>) {
    forall i, j :: 0 <= i < j < |rows| && rows[i].project.Some? ==> rows[i].project != rows[j].project
  }

  ghost predicate Inv(t: Tables) {
    OneActiveProject(t) && OneActiveOnboarding(t.onboardings) && ActiveLinks(t) && OneToOne(t.onboardings)
  }

  /** Under the invariant a creation is refused exactly when another active project has the account. */
  lemma RefusedExactlyOnConflict(t: Tables, uuid: nat, account: Option<string>)
    requires Inv(t)
    ensures CreationRaises(t, uuid, account) <==>
            (uuid in t.projects ==> t.projects[uuid].isActive)
            && Truthy(account) && exists v :: v != uuid && Holds(t.projects, v, account.value)
  {
  }

  // ---- one active project per account

  lemma CreatedKeepsProjects(t: Tables, uuid: nat, account: Option<string>)
    requires OneActiveProject(t)
    ensures OneActiveProject(Created(t, uuid, account))
  {
    var after := Created(t, uuid, account);
    forall a: string, u, v | a != "" && Holds(after.projects, u, a) && Holds(after.projects, v, a)
      ensures u == v
    {
      if u != uuid && v != uuid {
        assert Holds(t.projects, u, a) && Holds(t.projects, v, a);
      } else if u != v {
        var other := if u == uuid then v else u;
        assert Holds(t.projects, other, a);
      }
    }
  }

  lemma DeactivatedKeepsProjects(t: Tables, uuid: nat)
    requires OneActiveProject(t)
    ensures OneActiveProject(ProjectDeactivated(t, uuid))
  {
    var after := ProjectDeactivated(t, uuid);
    forall a: string, u, v | a != "" && Holds(after.projects, u, a) && Holds(after.projects, v, a)
      ensures u == v
    {
      assert Holds(t.projects, u, a) && Holds(t.projects, v, a);
    }
  }

  /** The unguarded write keeps accounts unique exactly when no other active project has this one. */
  lemma ConfiguredKeepsUniqueIff(t: Tables, uuid: nat, account: Option<string>)
    requires OneActiveProject(t)
    ensures OneActiveProject(Configured(t, uuid, account)) <==> AccountFree(t, uuid, account)
  {
    var after := Configured(t, uuid, account);
    if IsActive(t.projects, uuid) {
      if !AccountFree(t, uuid, account) {
        var v :| v != uuid && Holds(t.projects, v, account.value);
        assert Holds(after.projects, v, account.value) && Holds(after.projects, uuid, account.value);
      } else {
        ConfiguredKeepsUnique(t, uuid, account);
      }
    }
  }

  lemma ConfiguredKeepsUnique(t: Tables, uuid: nat, account: Option<string>)
    requires OneActiveProject(t) && IsActive(t.projects, uuid) && AccountFree(t, uuid, account)
    ensures OneActiveProject(Configured(t, uuid, account))
  {
    var after := Configured(t, uuid, account);
    forall a: string, u, v | a != "" && Holds(after.projects, u, a) && Holds(after.projects, v, a)
      ensures u == v
    {
      if u != uuid && v != uuid {
        assert Holds(t.projects, u, a) && Holds(t.projects, v, a);
      } else if u != v {
        var other := if u == uuid then v else u;
        assert Holds(t.projects, other, a);
      }
    }
  }

  // ---- active onboardings on active projects only

  lemma SameActivityKeepsLinks(t: Tables, after: Tables)
    requires ActiveLinks(t) && after.onboardings == t.onboardings
    requires forall u :: IsActive(t.projects, u) ==> IsActive(after.projects, u)
    ensures ActiveLinks(after)
  {
    forall i | 0 <= i < |t.onboardings| && t.onboardings[i].isActive && t.onboardings[i].project.Some?
      ensures LinkedToActive(after, after.onboardings[i])
    {
      assert LinkedToActive(t, t.onboardings[i]);
    }
  }

  lemma RelinkedKeepsLinks(t: Tables, at: nat, uuid: nat)
    requires ActiveLinks(t) && at < |t.onboardings| && IsActive(t.projects, uuid)
    ensures ActiveLinks(Relinked(t, at, uuid))
  {
    var after := Relinked(t, at, uuid);
    forall i | 0 <= i < |after.onboardings| && after.onboardings[i].isActive && after.onboardings[i].project.Some?
      ensures LinkedToActive(after, after.onboardings[i])
    {
      if i != at || LinkedElsewhere(t.onboardings, at, uuid) {
        assert after.onboardings[i] == t.onboardings[i] && LinkedToActive(t, t.onboardings[i]);
      }
    }
  }

  lemma LinkedByEventKeepsLinks(t: Tables, uuid: nat)
    requires ActiveLinks(t) && uuid in t.projects
    ensures ActiveLinks(LinkedByEvent(t, uuid))
  {
    if Truthy(t.projects[uuid].account) && t.projects[uuid].isActive {
      var at := FindActive(t.onboardings, t.projects[uuid].account.value);
      if at < |t.onboardings| {
        RelinkedKeepsLinks(t, at, uuid);
      }
    }
  }

  lemma DeletedKeepsLinks(t: Tables, uuid: nat)
    requires ActiveLinks(t)
    ensures ActiveLinks(Deleted(t, uuid))
  {
    var after := Deleted(t, uuid);
    forall i | 0 <= i < |after.onboardings| && after.onboardings[i].isActive && after.onboardings[i].project.Some?
      ensures LinkedToActive(after, after.onboardings[i])
    {
      assert LinkedToActive(t, t.onboardings[i]);
    }
  }

  lemma OpenedKeepsLinks(t: Tables, account: string)
    requires ActiveLinks(t)
    ensures ActiveLinks(Opened(t, account))
  {
    var after := Opened(t, account);
    forall i | 0 <= i < |after.onboardings| && after.onboardings[i].isActive && after.onboardings[i].project.Some?
      ensures LinkedToActive(after, after.onboardings[i])
    {
      assert LinkedToActive(t, t.onboardings[i]);
    }
  }

  lemma StartedKeepsLinks(t: Tables, account: string, supported: bool)
    requires ActiveLinks(t)
    ensures ActiveLinks(Started(t, account, supported))
  {
    OpenedKeepsLinks(t, account);
    OpenedFinds(t, account);
    var ready := Opened(t, account);
    var found := Find(ready.projects, account);
    if found.OneRow? {
      assert Holds(ready.projects, found.uuid, account);
      RelinkedKeepsLinks(ready, FindActive(ready.onboardings, account), found.uuid);
    }
  }

  /** Stopping between the two statements of a delete keeps that exactly when the project had no
      active onboarding, and the redelivered event does not repair it. */
  lemma InterruptedDelete(t: Tables, uuid: nat)
    requires ActiveLinks(t) && IsActive(t.projects, uuid)
    ensures ActiveLinks(ProjectDeactivated(t, uuid)) <==> !HasActiveOnboarding(t, uuid)
    ensures Deleted(ProjectDeactivated(t, uuid), uuid) == ProjectDeactivated(t, uuid)
  {
    var half := ProjectDeactivated(t, uuid);
    if HasActiveOnboarding(t, uuid) {
      var i :| 0 <= i < |t.onboardings| && t.onboardings[i].isActive && t.onboardings[i].project == Some(uuid);
      assert !LinkedToActive(half, half.onboardings[i]);
    } else {
      forall i | 0 <= i < |t.onboardings| && t.onboardings[i].isActive && t.onboardings[i].project.Some?
        ensures LinkedToActive(half, half.onboardings[i])
      {
        assert LinkedToActive(t, t.onboardings[i]);
      }
    }
  }

  // ---- the two unique constraints on onboardings

  predicate UniqueRows(rows: seq<Onboarding>) {
    OneActiveOnboarding(rows) && OneToOne(rows)
  }

  lemma RelinkedKeepsUnique(t: Tables, at: nat, uuid: nat)
    requires UniqueRows(t.onboardings) && at < |t.onboardings|
    ensures UniqueRows(Relinked(t, at, uuid).onboardings)
  {
  }

  lemma LinkedByEventKeepsUnique(t: Tables, uuid: nat)
    requires UniqueRows(t.onboardings) && uuid in t.projects
    ensures UniqueRows(LinkedByEvent(t, uuid).onboardings)
  {
    if Truthy(t.projects[uuid].account) {
      var at := FindActive(t.onboardings, t.projects[uuid].account.value);
      if at < |t.onboardings| {
        RelinkedKeepsUnique(t, at, uuid);
      }
    }
  }

  lemma OpenedKeepsUnique(t: Tables, account: string)
    requires UniqueRows(t.onboardings)
    ensures UniqueRows(Opened(t, account).onboardings)
  {
    assert forall i :: 0 <= i < FindActive(t.onboardings, account) ==> !ActiveFor(t.onboardings[i], account);
  }

  lemma StartedKeepsUnique(t: Tables, account: string, supported: bool)
    requires UniqueRows(t.onboardings)
    ensures UniqueRows(Started(t, account, supported).onboardings)
  {
    OpenedKeepsUnique(t, account);
    OpenedFinds(t, account);
    var ready := Opened(t, account);
    var found := Find(ready.projects, account);
    if found.OneRow? {
      RelinkedKeepsUnique(ready, FindActive(ready.onboardings, account), found.uuid);
    }
  }

  // ---------------------------------------------------------------- runs

  datatype Event =
    | ProjectEvent(uuid: nat, account: Option<string>)
    | ProjectDeleted(uuid: nat)
    | DeleteCutShort(uuid: nat)
    | AccountConfigured(uuid: nat, account: Option<string>)
    | AccountLinked(uuid: nat, vtexAccount: string)
    | SetupStarted(vtexAccount: string, supported: bool)
    | FailureSaved(vtexAccount: string)

  function Step(t: Tables, e: Event): Tables {
    match e
    case ProjectEvent(uuid, account) => Consumed(t, uuid, account)
    case ProjectDeleted(uuid) => Deleted(t, uuid)
    case DeleteCutShort(uuid) => if IsActive(t.projects, uuid) then ProjectDeactivated(t, uuid) else t
    case AccountConfigured(uuid, account) => Configured(t, uuid, account)
    case AccountLinked(uuid, account) => LinkedLocally(t, uuid, account)
    case SetupStarted(account, supported) => Started(t, account, supported)
    case FailureSaved(account) => Opened(t, account)
  }

  function After(t: Tables, events: seq<Event>): Tables {
    if events == [] then t else Step(After(t, events[..|events| - 1]), events[|events| - 1])
  }

  /** No other active project has the account about to be written on this one. */
  ghost predicate AccountFree(t: Tables, uuid: nat, account: Option<string>) {
    IsActive(t.projects, uuid) && Truthy(account) ==> !exists v :: v != uuid && Holds(t.projects, v, account.value)
  }

  predicate HasActiveOnboarding(t: Tables, uuid: nat) {
    exists i :: 0 <= i < |t.onboardings| && t.onboardings[i].isActive && t.onboardings[i].project == Some(uuid)
  }

  /** What the two unguarded writers and a crash inside a delete must meet; other events need nothing. */
  ghost predicate Clear(t: Tables, e: Event) {
    match e
    case AccountConfigured(uuid, account) => AccountFree(t, uuid, account)
    case AccountLinked(uuid, account) => AccountFree(t, uuid, Some(account))
    case DeleteCutShort(uuid) => IsActive(t.projects, uuid) ==> !HasActiveOnboarding(t, uuid)
    case _ => true
  }

  lemma LinkingKeepsProjects(t: Tables, uuid: nat)
    requires uuid in t.projects
    ensures LinkedByEvent(t, uuid).projects == t.projects
  {
  }

  lemma StepKeepsProjectsIff(t: Tables, e: Event)
    requires OneActiveProject(t)
    ensures OneActiveProject(Step(t, e)) <==> (e.AccountConfigured? || e.AccountLinked? ==> Clear(t, e))
  {
    match e
    case ProjectEvent(uuid, account) =>
      CreatedKeepsProjects(t, uuid, account);
      if !CreationRaises(t, uuid, account) { LinkingKeepsProjects(Created(t, uuid, account), uuid); }
    case ProjectDeleted(uuid) => DeactivatedKeepsProjects(t, uuid);
    case DeleteCutShort(uuid) => DeactivatedKeepsProjects(t, uuid);
    case AccountConfigured(uuid, account) => ConfiguredKeepsUniqueIff(t, uuid, account);
    case AccountLinked(uuid, account) =>
      ConfiguredKeepsUniqueIff(t, uuid, Some(account));
      if IsActive(t.projects, uuid) { LinkingKeepsProjects(Configured(t, uuid, Some(account)), uuid); }
    case SetupStarted(account, supported) => OpenedFinds(t, account);
    case FailureSaved(_) =>
  }

  lemma StepKeepsLinksIff(t: Tables, e: Event)
    requires ActiveLinks(t)
    ensures ActiveLinks(Step(t, e)) <==> (e.DeleteCutShort? ==> Clear(t, e))
  {
    match e
    case ProjectEvent(uuid, account) =>
      if !CreationRaises(t, uuid, account) {
        SameActivityKeepsLinks(t, Created(t, uuid, account));
        LinkedByEventKeepsLinks(Created(t, uuid, account), uuid);
      }
    case ProjectDeleted(uuid) => DeletedKeepsLinks(t, uuid);
    case DeleteCutShort(uuid) => if IsActive(t.projects, uuid) { InterruptedDelete(t, uuid); }
    case AccountConfigured(uuid, account) => SameActivityKeepsLinks(t, Configured(t, uuid, account));
    case AccountLinked(uuid, account) =>
      if IsActive(t.projects, uuid) {
        SameActivityKeepsLinks(t, Configured(t, uuid, Some(account)));
        LinkedByEventKeepsLinks(Configured(t, uuid, Some(account)), uuid);
      }
    case SetupStarted(account, supported) => StartedKeepsLinks(t, account, supported);
    case FailureSaved(account) => OpenedKeepsLinks(t, account);
  }

  lemma StepKeepsUnique(t: Tables, e: Event)
    requires UniqueRows(t.onboardings)
    ensures UniqueRows(Step(t, e).onboardings)
  {
    match e
    case ProjectEvent(uuid, account) =>
      if !CreationRaises(t, uuid, account) { LinkedByEventKeepsUnique(Created(t, uuid, account), uuid); }
    case AccountLinked(uuid, account) =>
      if IsActive(t.projects, uuid) { LinkedByEventKeepsUnique(Configured(t, uuid, Some(account)), uuid); }
    case SetupStarted(account, supported) => StartedKeepsUnique(t, account, supported);
    case FailureSaved(account) => OpenedKeepsUnique(t, account);
    case _ =>
  }

  /** One event keeps the invariant exactly when it is clear. */
  lemma StepKeepsInvIff(t: Tables, e: Event)
    requires Inv(t)
    ensures Inv(Step(t, e)) <==> Clear(t, e)
  {
    StepKeepsProjectsIff(t, e);
    StepKeepsLinksIff(t, e);
    StepKeepsUnique(t, e);
  }

  /** In every run, however unguarded, an account has at most one active onboarding and a project at
      most one onboarding. */
  lemma {:induction false} RunKeepsUnique(events: seq<Event>)
    ensures UniqueRows(After(Empty(), events).onboardings)
  {
    if events != [] {
      RunKeepsUnique(events[..|events| - 1]);
      StepKeepsUnique(After(Empty(), events[..|events| - 1]), events[|events| - 1]);
    }
  }

  /** Every event of the list is clear when it arrives. */
  ghost predicate AllClear(events: seq<Event>) {
    events == []
    || (AllClear(events[..|events| - 1]) && Clear(After(Empty(), events[..|events| - 1]), events[|events| - 1]))
  }

  /** The invariant holds after every event of the list. */
  ghost predicate InvThroughout(events: seq<Event>) {
    Inv(After(Empty(), events)) && (events == [] || InvThroughout(events[..|events| - 1]))
  }

  /** A run keeps throughout one active project and one active onboarding per account, no active
      onboarding on an inactive project and one onboarding per project, exactly when each unguarded
      account write and each crash inside a delete in it is clear. */
  lemma {:induction false} RunKeepsInvIff(events: seq<Event>)
    ensures InvThroughout(events) <==> AllClear(events)
  {
    if events != [] {
      var before := events[..|events| - 1];
      RunKeepsInvIff(before);
      if InvThroughout(before) {
        StepKeepsInvIff(After(Empty(), before), events[|events| - 1]);
      }
    }
  }

  lemma RunKeepsInv(events: seq<Event>)
    requires AllClear(events)
    ensures Inv(After(Empty(), events))
  {
    RunKeepsInvIff(events);
  }

  predicate IsGuarded(e: Event) {
    !e.AccountConfigured? && !e.AccountLinked? && !e.DeleteCutShort?
  }

  /** So without those events every run keeps it. */
  lemma {:induction false} GuardedRunKeepsInv(events: seq<Event>)
    requires forall i :: 0 <= i < |events| ==> IsGuarded(events[i])
    ensures AllClear(events) && Inv(After(Empty(), events))
  {
    if events != [] {
      GuardedRunKeepsInv(events[..|events| - 1]);
      assert IsGuarded(events[|events| - 1]);
    }
    RunKeepsInv(events);
  }

  // ---------------------------------------------------------------- soft-deleted rows stay as they are

  predicate Frozen(t: Tables, after: Tables) {
    && |t.onboardings| <= |after.onboardings|
    && (forall i :: 0 <= i < |t.onboardings| && !t.onboardings[i].isActive ==>
          after.onboardings[i] == t.onboardings[i])
    && (forall u :: u in t.projects ==> u in after.projects)
    && (forall u :: u in t.projects && !t.projects[u].isActive ==> !after.projects[u].isActive)
  }

  lemma LinkedByEventFreezes(t: Tables, uuid: nat)
    requires uuid in t.projects
    ensures Frozen(t, LinkedByEvent(t, uuid))
  {
  }

  lemma WriteFreezes(t: Tables, uuid: nat, account: Option<string>)
    ensures Frozen(t, Created(t, uuid, account)) && Frozen(t, Configured(t, uuid, account))
  {
  }

  lemma StartedFreezes(t: Tables, account: string, supported: bool)
    ensures Frozen(t, Started(t, account, supported))
  {
    OpenedFinds(t, account);
  }

  lemma StepFreezes(t: Tables, e: Event)
    ensures Frozen(t, Step(t, e))
  {
    match e
    case ProjectEvent(uuid, account) =>
      WriteFreezes(t, uuid, account);
      if !CreationRaises(t, uuid, account) { LinkedByEventFreezes(Created(t, uuid, account), uuid); }
    case AccountConfigured(uuid, account) => WriteFreezes(t, uuid, account);
    case AccountLinked(uuid, account) =>
      WriteFreezes(t, uuid, Some(account));
      if IsActive(t.projects, uuid) { LinkedByEventFreezes(Configured(t, uuid, Some(account)), uuid); }
    case SetupStarted(account, supported) => StartedFreezes(t, account, supported);
    case _ =>
  }

  /** No event reactivates a project or touches an onboarding once it is inactive. */
  lemma {:induction false} InactiveRowsAreFrozen(t: Tables, events: seq<Event>)
    ensures Frozen(t, After(t, events))
  {
    if events != [] {
      InactiveRowsAreFrozen(t, events[..|events| - 1]);
      StepFreezes(After(t, events[..|events| - 1]), events[|events| - 1]);
    }
  }

  // ---------------------------------------------------------------- when a link is refused

  /** The write would replace an account, or store a blank one. */
  predicate Replaces(projects: map<nat, Project>, uuid: nat, account: Option<string>) {
    uuid in projects && projects[uuid].account != account && (projects[uuid].account.Some? || account == Some(""))
  }

  /** The event gives an existing project another account. */
  predicate Moves(t: Tables, e: Event) {
    match e
    case ProjectEvent(uuid, account) =>
      Truthy(account) && !CreationRaises(t, uuid, account) && Replaces(t.projects, uuid, account)
    case AccountConfigured(uuid, account) => IsActive(t.projects, uuid) && Replaces(t.projects, uuid, account)
    case AccountLinked(uuid, account) => IsActive(t.projects, uuid) && Replaces(t.projects, uuid, Some(account))
    case _ => false
  }

  /** A run of clear events none of which moves an account. */
  ghost predicate Orderly(events: seq<Event>) {
    events == [] ||
    var before := events[..|events| - 1];
    var t := After(Empty(), before);
    Orderly(before) && Clear(t, events[|events| - 1]) && !Moves(t, events[|events| - 1])
  }

  lemma {:induction false} OrderlyIsClear(events: seq<Event>)
    requires Orderly(events)
    ensures AllClear(events)
  {
    if events != [] {
      OrderlyIsClear(events[..|events| - 1]);
    }
  }

  /** A linked row and its project name one account and live and die together. */
  predicate Agrees(projects: map<nat, Project>, row: Onboarding) {
    row.project.Some? ==>
      row.project.value in projects
      && projects[row.project.value].account == Some(row.account)
      && projects[row.project.value].isActive == row.isActive
  }

  predicate AllAgree(t: Tables) {
    && (forall i :: 0 <= i < |t.onboardings| ==> Agrees(t.projects, t.onboardings[i]))
    && (forall u :: u in t.projects ==> t.projects[u].account != Some(""))
  }

  lemma RelinkedAgrees(t: Tables, at: nat, uuid: nat)
    requires AllAgree(t) && at < |t.onboardings| && t.onboardings[at].isActive
    requires Holds(t.projects, uuid, t.onboardings[at].account)
    ensures AllAgree(Relinked(t, at, uuid))
  {
    var after := Relinked(t, at, uuid);
    forall i | 0 <= i < |after.onboardings| ensures Agrees(after.projects, after.onboardings[i]) {
      assert Agrees(t.projects, t.onboardings[i]);
    }
  }

  /** With accounts agreeing, another onboarding on the same active project would share the account. */
  lemma NeverElsewhere(t: Tables, at: nat, uuid: nat)
    requires AllAgree(t) && OneActiveOnboarding(t.onboardings)
    requires at < |t.onboardings| && t.onboardings[at].isActive
    requires Holds(t.projects, uuid, t.onboardings[at].account)
    ensures !LinkedElsewhere(t.onboardings, at, uuid)
  {
    forall i | 0 <= i < |t.onboardings| && i != at ensures t.onboardings[i].project != Some(uuid) {
      assert Agrees(t.projects, t.onboardings[i]);
    }
  }

  lemma CreatedAgrees(t: Tables, uuid: nat, account: Option<string>)
    requires AllAgree(t) && !Moves(t, ProjectEvent(uuid, account))
    ensures AllAgree(Created(t, uuid, account))
  {
    var after := Created(t, uuid, account);
    forall i | 0 <= i < |after.onboardings| ensures Agrees(after.projects, after.onboardings[i]) {
      assert Agrees(t.projects, t.onboardings[i]);
    }
  }

  lemma LinkedByEventAgrees(t: Tables, uuid: nat)
    requires AllAgree(t) && uuid in t.projects
    ensures AllAgree(LinkedByEvent(t, uuid))
  {
    if Truthy(t.projects[uuid].account) && t.projects[uuid].isActive {
      var holder := t.projects[uuid].account.value;
      var at := FindActive(t.onboardings, holder);
      if at < |t.onboardings| {
        assert Holds(t.projects, uuid, holder);
        RelinkedAgrees(t, at, uuid);
      }
    }
  }

  lemma ConfiguredAgrees(t: Tables, uuid: nat, account: Option<string>)
    requires AllAgree(t) && (IsActive(t.projects, uuid) ==> !Replaces(t.projects, uuid, account))
    ensures AllAgree(Configured(t, uuid, account))
  {
    var after := Configured(t, uuid, account);
    forall i | 0 <= i < |after.onboardings| ensures Agrees(after.projects, after.onboardings[i]) {
      assert Agrees(t.projects, t.onboardings[i]);
    }
  }

  lemma CutShortAgrees(t: Tables, uuid: nat)
    requires AllAgree(t) && IsActive(t.projects, uuid) && !HasActiveOnboarding(t, uuid)
    ensures AllAgree(ProjectDeactivated(t, uuid))
  {
    var after := ProjectDeactivated(t, uuid);
    forall i | 0 <= i < |after.onboardings| ensures Agrees(after.projects, after.onboardings[i]) {
      assert Agrees(t.projects, t.onboardings[i]);
    }
  }

  lemma DeletedAgrees(t: Tables, uuid: nat)
    requires AllAgree(t)
    ensures AllAgree(Deleted(t, uuid))
  {
    var after := Deleted(t, uuid);
    forall i | 0 <= i < |after.onboardings| ensures Agrees(after.projects, after.onboardings[i]) {
      assert Agrees(t.projects, t.onboardings[i]);
    }
  }

  lemma OpenedAgrees(t: Tables, account: string)
    requires AllAgree(t)
    ensures AllAgree(Opened(t, account))
  {
    var after := Opened(t, account);
    forall i | 0 <= i < |after.onboardings| ensures Agrees(after.projects, after.onboardings[i]) {
      if i < |t.onboardings| { assert Agrees(t.projects, t.onboardings[i]); }
    }
  }

  lemma StartedAgrees(t: Tables, account: string, supported: bool)
    requires AllAgree(t)
    ensures AllAgree(Started(t, account, supported))
  {
    OpenedAgrees(t, account);
    OpenedFinds(t, account);
    var ready := Opened(t, account);
    var at := FindActive(ready.onboardings, account);
    var found := Find(ready.projects, account);
    if found.OneRow? {
      assert Holds(ready.projects, found.uuid, account);
      RelinkedAgrees(ready, at, found.uuid);
    }
  }

  lemma StepAgrees(t: Tables, e: Event)
    requires AllAgree(t) && Clear(t, e) && !Moves(t, e)
    ensures AllAgree(Step(t, e))
  {
    match e
    case ProjectEvent(uuid, account) =>
      CreatedAgrees(t, uuid, account);
      if !CreationRaises(t, uuid, account) { LinkedByEventAgrees(Created(t, uuid, account), uuid); }
    case ProjectDeleted(uuid) => DeletedAgrees(t, uuid);
    case DeleteCutShort(uuid) => if IsActive(t.projects, uuid) { CutShortAgrees(t, uuid); }
    case AccountConfigured(uuid, account) => ConfiguredAgrees(t, uuid, account);
    case AccountLinked(uuid, account) =>
      ConfiguredAgrees(t, uuid, Some(account));
      if IsActive(t.projects, uuid) { LinkedByEventAgrees(Configured(t, uuid, Some(account)), uuid); }
    case SetupStarted(account, supported) => StartedAgrees(t, account, supported);
    case FailureSaved(account) => OpenedAgrees(t, account);
  }

  lemma {:induction false} OrderlyRunAgrees(events: seq<Event>)
    requires Orderly(events)
    ensures AllAgree(After(Empty(), events))
  {
    if events != [] {
      OrderlyRunAgrees(events[..|events| - 1]);
      StepAgrees(After(Empty(), events[..|events| - 1]), events[|events| - 1]);
    }
  }

  /** A start is refused exactly when its account's active project is on another onboarding, and its
      own onboarding on no active project. */
  lemma StartRefusedIff(t: Tables, at: nat)
    requires Inv(t) && at < |t.onboardings| && t.onboardings[at].account != ""
    ensures TryRaises(t, at) <==>
            !LinkedToActive(t, t.onboardings[at])
            && exists u :: Holds(t.projects, u, t.onboardings[at].account) && LinkedElsewhere(t.onboardings, at, u)
  {
    var account := t.onboardings[at].account;
    var found := Find(t.projects, account);
    if found.OneRow? {
      assert Holds(t.projects, found.uuid, account);
    }
  }

  /** While no project changes account, a start is never refused, and it leaves the onboarding on the
      active project of its account whenever there is one. */
  lemma StartNeverRefused(events: seq<Event>, account: string)
    requires Orderly(events)
    ensures var ready := Opened(After(Empty(), events), account);
            var at := FindActive(ready.onboardings, account);
            at < |ready.onboardings| && !TryRaises(ready, at)
            && forall u: nat :: Holds(ready.projects, u, account) ==>
                 TriedLink(ready, at).onboardings[at].project == Some(u)
  {
    var t := After(Empty(), events);
    OrderlyIsClear(events);
    RunKeepsInv(events);
    OrderlyRunAgrees(events);
    OpenedAgrees(t, account);
    OpenedKeepsUnique(t, account);
    OpenedFinds(t, account);
    StartLands(Opened(t, account), FindActive(Opened(t, account).onboardings, account));
  }

  lemma StartLands(t: Tables, at: nat)
    requires AllAgree(t) && UniqueRows(t.onboardings) && OneActiveProject(t)
    requires at < |t.onboardings| && t.onboardings[at].isActive
    ensures !TryRaises(t, at)
    ensures forall u: nat :: Holds(t.projects, u, t.onboardings[at].account) ==>
              TriedLink(t, at).onboardings[at].project == Some(u)
  {
    var row := t.onboardings[at];
    assert Agrees(t.projects, row);
    if LinkedToActive(t, row) {
      assert Holds(t.projects, row.project.value, row.account);
    }
    var found := Find(t.projects, row.account);
    if found.OneRow? {
      assert Holds(t.projects, found.uuid, row.account);
      NeverElsewhere(t, at, found.uuid);
    }
  }

  /** Row `at` is the active onboarding of the account the active project `uuid` holds. */
  predicate ShouldHave(t: Tables, at: nat, uuid: nat) {
    at < |t.onboardings| && t.onboardings[at].isActive && Holds(t.projects, uuid, t.onboardings[at].account)
  }

  predicate LinkLands(t: Tables, uuid: nat)
    requires uuid in t.projects
  {
    !LinkRaises(t, uuid)
    && forall at: nat | at < |t.onboardings| && ShouldHave(t, at, uuid) ::
         LinkedByEvent(t, uuid).onboardings[at].project == Some(uuid)
  }

  lemma AgreeingLinkLands(t: Tables, uuid: nat)
    requires AllAgree(t) && UniqueRows(t.onboardings) && uuid in t.projects
    ensures LinkLands(t, uuid)
  {
    forall at: nat | ShouldHave(t, at, uuid)
      ensures !LinkedElsewhere(t.onboardings, at, uuid)
      ensures FindActive(t.onboardings, t.onboardings[at].account) == at
    {
      NeverElsewhere(t, at, uuid);
      assert ActiveFor(t.onboardings[at], t.onboardings[at].account);
    }
  }

  /** Likewise an accepted project event leaves the active onboarding of its account on that project. */
  lemma EventNeverRefused(events: seq<Event>, uuid: nat, account: Option<string>)
    requires Orderly(events)
    requires var t := After(Empty(), events);
             !CreationRaises(t, uuid, account) && !Moves(t, ProjectEvent(uuid, account))
    ensures var t := Created(After(Empty(), events), uuid, account);
            uuid in t.projects && LinkLands(t, uuid)
  {
    var before := After(Empty(), events);
    RunKeepsUnique(events);
    OrderlyRunAgrees(events);
    CreatedAgrees(before, uuid, account);
    AgreeingLinkLands(Created(before, uuid, account), uuid);
  }

  /** And so does the link endpoint on an active project whose account it does not replace. */
  lemma EndpointNeverRefused(events: seq<Event>, uuid: nat, account: string)
    requires Orderly(events)
    requires var t := After(Empty(), events);
             IsActive(t.projects, uuid) && !Moves(t, AccountLinked(uuid, account))
    ensures LinkLands(Configured(After(Empty(), events), uuid, Some(account)), uuid)
  {
    var before := After(Empty(), events);
    RunKeepsUnique(events);
    OrderlyRunAgrees(events);
    ConfiguredAgrees(before, uuid, Some(account));
    AgreeingLinkLands(Configured(before, uuid, Some(account)), uuid);
  }

  /** A project whose account moved keeps its first onboarding, and the start of the new account fails. */
  lemma MovedAccountBlocksSetup()
    ensures var t := Step(Step(Started(Empty(), "a", true), ProjectEvent(1, Some("a"))), ProjectEvent(1, Some("b")));
            Inv(t) && t == Tables(map[1 := Project(Some("b"), true)], [Onboarding("a", Some(1), true)])
            && Opened(t, "b").onboardings == t.onboardings + [Onboarding("b", None, true)]
            && TryRaises(Opened(t, "b"), 1)
  {
    var t0 := Started(Empty(), "a", true);
    assert t0 == Tables(map[], [Onboarding("a", None, true)]);
    var t1 := Consumed(t0, 1, Some("a"));
    FirstProject(t0);
    var t2 := Consumed(t1, 1, Some("b"));
    ProjectMoved(t1);
    MovedProjectIsTaken(t2);
  }

  lemma FirstProject(t: Tables)
    requires t == Tables(map[], [Onboarding("a", None, true)])
    ensures Consumed(t, 1, Some("a")) == Tables(map[1 := Project(Some("a"), true)], [Onboarding("a", Some(1), true)])
  {
    assert !LinkedElsewhere(t.onboardings, 0, 1);
  }

  lemma ProjectMoved(t: Tables)
    requires t == Tables(map[1 := Project(Some("a"), true)], [Onboarding("a", Some(1), true)])
    ensures Consumed(t, 1, Some("b")) == Tables(map[1 := Project(Some("b"), true)], t.onboardings)
  {
    assert Created(t, 1, Some("b")).projects == map[1 := Project(Some("b"), true)];
  }

  lemma MovedProjectIsTaken(t: Tables)
    requires t == Tables(map[1 := Project(Some("b"), true)], [Onboarding("a", Some(1), true)])
    ensures Inv(t)
    ensures Opened(t, "b").onboardings == t.onboardings + [Onboarding("b", None, true)]
    ensures TryRaises(Opened(t, "b"), 1)
  {
    var ready := Opened(t, "b");
    assert Holds(ready.projects, 1, "b");
    assert ready.onboardings[0].project == Some(1);
  }

  // ---------------------------------------------------------------- start and project event, either order

  /** A new account ends linked whichever of the start and the project event comes first. */
  lemma EitherOrderLinks(t: Tables, uuid: nat, account: string)
    requires Inv(t) && account != "" && uuid !in t.projects
    requires forall u :: !Holds(t.projects, u, account)
    requires FindActive(t.onboardings, account) == |t.onboardings|
    requires forall i :: 0 <= i < |t.onboardings| ==> t.onboardings[i].project != Some(uuid)
    ensures Consumed(Started(t, account, true), uuid, Some(account))
            == Started(Consumed(t, uuid, Some(account)), account, true)
            == Tables(t.projects[uuid := Project(Some(account), true)],
                      t.onboardings + [Onboarding(account, Some(uuid), true)])
  {
    var n := |t.onboardings|;
    var rows := t.onboardings + [Onboarding(account, None, true)];
    var projects := t.projects[uuid := Project(Some(account), true)];
    LastIsActive(t, account);
    assert Started(t, account, true) == Tables(t.projects, rows);
    assert !LinkedElsewhere(rows, n, uuid);
    assert rows[n := Onboarding(account, Some(uuid), true)] == t.onboardings + [Onboarding(account, Some(uuid), true)];
    assert Consumed(t, uuid, Some(account)) == Tables(projects, t.onboardings);
    assert Holds(projects, uuid, account);
    assert Find(projects, account) == OneRow(uuid) by {
      forall u | Holds(projects, u, account) ensures u == uuid {
        assert !Holds(t.projects, u, account);
      }
    }
  }

  lemma LastIsActive(t: Tables, account: string)
    requires FindActive(t.onboardings, account) == |t.onboardings|
    ensures FindActive(t.onboardings + [Onboarding(account, None, true)], account) == |t.onboardings|
  {
    var rows := t.onboardings + [Onboarding(account, None, true)];
    assert ActiveFor(rows[|t.onboardings|], account);
    assert forall i :: 0 <= i < |t.onboardings| ==> rows[i] == t.onboardings[i];
  }

  // ---------------------------------------------------------------- a store replaced after a delete

  /** Once its project is deleted the account is free: the next start opens a new onboarding, and the
      next project of that account gets it. */
  lemma DeletedAccountStartsFresh(t: Tables, uuid: nat, next: nat, account: string)
    requires Inv(t) && AllAgree(t) && account != "" && Holds(t.projects, uuid, account)
    requires next !in t.projects
    requires var at := FindActive(t.onboardings, account);
             at == |t.onboardings| || t.onboardings[at].project == Some(uuid)
    ensures var gone := Deleted(t, uuid);
            Consumed(Started(gone, account, true), next, Some(account))
            == Tables(gone.projects[next := Project(Some(account), true)],
                      gone.onboardings + [Onboarding(account, Some(next), true)])
  {
    var gone := Deleted(t, uuid);
    StepKeepsInvIff(t, ProjectDeleted(uuid));
    forall u ensures !Holds(gone.projects, u, account) {
      if Holds(gone.projects, u, account) { assert Holds(t.projects, u, account); }
    }
    var at := FindActive(t.onboardings, account);
    forall i | 0 <= i < |gone.onboardings| ensures !ActiveFor(gone.onboardings[i], account) {
      assert gone.onboardings[i] == DeactivatedRow(t.onboardings[i], uuid);
    }
    forall i | 0 <= i < |gone.onboardings| ensures gone.onboardings[i].project != Some(next) {
      assert Agrees(t.projects, t.onboardings[i]);
    }
    EitherOrderLinks(gone, next, account);
  }

  // ---------------------------------------------------------------- an account written twice

  lemma ConfigurationDuplicatesAccount()
    ensures var t := Step(Step(Empty(), ProjectEvent(1, Some("a"))), ProjectEvent(2, None));
            Inv(t) && !OneActiveProject(Configured(t, 2, Some("a")))
  {
    var t0 := Consumed(Empty(), 1, Some("a"));
    var t := Consumed(t0, 2, None);
    StepKeepsInvIff(Empty(), ProjectEvent(1, Some("a")));
    StepKeepsInvIff(t0, ProjectEvent(2, None));
    assert Holds(t.projects, 1, "a") && 2 in t.projects;
    ConfiguredKeepsUniqueIff(t, 2, Some("a"));
  }
}

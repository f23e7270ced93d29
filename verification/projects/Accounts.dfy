/** Projects and onboardings as they share VTEX accounts: creation events, soft deletes, links and
    set-up starts. */
module Accounts {
  import opened Common

  /** `account` is None when the column is null; a blank account is Some(""). */
  datatype Project = Project(account: Option<string>, isActive: bool)

  /** `project` is the one-to-one link, by project uuid. */
  datatype Onboarding = Onboarding(account: string, project: Option<nat>, isActive: bool)

  datatype Tables = Tables(projects: map<nat, Project>, onboardings: seq<Onboarding>)

  function Empty(): Tables { Tables(map[], []) }

  predicate Truthy(account: Option<string>) {
    account.Some? && account.value != ""
  }

  // ---------------------------------------------------------------- queries

  predicate Holds(projects: map<nat, Project>, uuid: nat, account: string) {
    uuid in projects && projects[uuid].isActive && projects[uuid].account == Some(account)
  }

  predicate IsActive(projects: map<nat, Project>, uuid: nat) {
    uuid in projects && projects[uuid].isActive
  }

  function Holders(projects: map<nat, Project>, account: string): (holders: set<nat>)
    ensures forall u :: u in holders <==> Holds(projects, u, account)
  {
    set u | u in projects && Holds(projects, u, account)
  }

  datatype Lookup = NoRow | OneRow(uuid: nat) | ManyRows

  lemma OnlyElement(s: set<nat>)
    requires |s| == 1
    ensures exists x :: s == {x}
  {
    var x :| x in s;
    assert |s - {x}| == 0;
    assert s == {x} + (s - {x});
  }

  lemma TwoElements(s: set<nat>)
    requires |s| > 1
    ensures exists x, y :: x in s && y in s && x != y
  {
    var x :| x in s;
    var rest := s - {x};
    assert |rest| == |s| - 1;
    var y :| y in rest;
  }

  function TheOnly(s: set<nat>): (x: nat)
    requires |s| == 1
    ensures s == {x}
  {
    OnlyElement(s);
    var x :| s == {x};
    x
  }

  /** A lookup of the active project of an account, with its three outcomes. */
  function Find(projects: map<nat, Project>, account: string): (found: Lookup)
    ensures found.NoRow? <==> forall u :: !Holds(projects, u, account)
    ensures found.OneRow? ==> forall u :: Holds(projects, u, account) <==> u == found.uuid
    ensures found.ManyRows? ==>
              exists u, v :: Holds(projects, u, account) && Holds(projects, v, account) && u != v
  {
    var holders := Holders(projects, account);
    if |holders| == 0 then
      assert holders == {};
      NoRow
    else if |holders| == 1 then
      assert TheOnly(holders) in holders;
      OneRow(TheOnly(holders))
    else
      TwoElements(holders);
      ManyRows
  }

  predicate ActiveFor(row: Onboarding, account: string) {
    row.isActive && row.account == account
  }

  function FindActive(rows: seq<Onboarding>, account: string): (at: nat)
    ensures at <= |rows|
    ensures at < |rows| ==> ActiveFor(rows[at], account)
    ensures forall i :: 0 <= i < at ==> !ActiveFor(rows[i], account)
  {
    if rows == [] then 0
    else if ActiveFor(rows[0], account) then 0
    else
      var rest := FindActive(rows[1..], account);
      assert forall i :: 0 < i < |rows| ==> rows[i] == rows[1..][i - 1];
      rest + 1
  }

  /** The unique constraint of the one-to-one column, over active and inactive rows alike. */
  predicate LinkedElsewhere(rows: seq<Onboarding>, at: nat, uuid: nat) {
    exists i :: 0 <= i < |rows| && i != at && rows[i].project == Some(uuid)
  }

  // ---------------------------------------------------------------- operations

  predicate Conflicts(projects: map<nat, Project>, uuid: nat, account: Option<string>) {
    Truthy(account) &&
    match Find(projects, account.value)
    case NoRow => false
    case OneRow(holder) => holder != uuid
    case ManyRows => true
  }

  predicate CreationRaises(t: Tables, uuid: nat, account: Option<string>) {
    (uuid in t.projects ==> t.projects[uuid].isActive) && Conflicts(t.projects, uuid, account)
  }

  function Created(t: Tables, uuid: nat, account: Option<string>): Tables {
    if CreationRaises(t, uuid, account) then t
    else if uuid in t.projects then
      if Truthy(account) then t.(projects := t.projects[uuid := t.projects[uuid].(account := account)]) else t
    else t.(projects := t.projects[uuid := Project(if Truthy(account) then account else None, true)])
  }

  /** Sets the link of row `at`, unless the one-to-one constraint refuses it. */
  function Relinked(t: Tables, at: nat, uuid: nat): (after: Tables)
    requires at < |t.onboardings|
    ensures |after.onboardings| == |t.onboardings|
  {
    if LinkedElsewhere(t.onboardings, at, uuid) then t
    else t.(onboardings := t.onboardings[at := t.onboardings[at].(project := Some(uuid))])
  }

  function LinkedByEvent(t: Tables, uuid: nat): (after: Tables)
    requires uuid in t.projects
    ensures |after.onboardings| == |t.onboardings|
  {
    var project := t.projects[uuid];
    if !Truthy(project.account) || !project.isActive then t
    else
      var at := FindActive(t.onboardings, project.account.value);
      if at == |t.onboardings| then t
      else if t.onboardings[at].project == Some(uuid) then t
      else Relinked(t, at, uuid)
  }

  /** The link's save runs into the one-to-one constraint. */
  predicate LinkRaises(t: Tables, uuid: nat)
    requires uuid in t.projects
  {
    var project := t.projects[uuid];
    Truthy(project.account) && project.isActive &&
    var at := FindActive(t.onboardings, project.account.value);
    at < |t.onboardings| && t.onboardings[at].project != Some(uuid) && LinkedElsewhere(t.onboardings, at, uuid)
  }

  /** A project event: create or update, then link when the project is active. */
  function Consumed(t: Tables, uuid: nat, account: Option<string>): Tables {
    if CreationRaises(t, uuid, account) then t else LinkedByEvent(Created(t, uuid, account), uuid)
  }

  function DeactivatedRow(row: Onboarding, uuid: nat): Onboarding {
    if row.project == Some(uuid) then row.(isActive := false) else row
  }

  function Deactivated(rows: seq<Onboarding>, uuid: nat): (r: seq<Onboarding>)
    ensures |r| == |rows|
    ensures forall i :: 0 <= i < |rows| ==> r[i] == DeactivatedRow(rows[i], uuid)
  {
    seq(|rows|, i requires 0 <= i < |rows| => DeactivatedRow(rows[i], uuid))
  }

  /** The project row is saved inactive first; its onboardings follow in a second statement. */
  function ProjectDeactivated(t: Tables, uuid: nat): Tables {
    if uuid in t.projects then t.(projects := t.projects[uuid := t.projects[uuid].(isActive := false)]) else t
  }

  function Deleted(t: Tables, uuid: nat): Tables {
    if !IsActive(t.projects, uuid) then t
    else ProjectDeactivated(t, uuid).(onboardings := Deactivated(t.onboardings, uuid))
  }

  /** The account write of the configuration event and of the link endpoint: no conflict check. */
  function Configured(t: Tables, uuid: nat, account: Option<string>): Tables {
    if !IsActive(t.projects, uuid) then t
    else t.(projects := t.projects[uuid := t.projects[uuid].(account := account)])
  }

  /** The link endpoint after its remote call: write the account, then link like a project event. */
  function LinkedLocally(t: Tables, uuid: nat, account: string): Tables {
    if !IsActive(t.projects, uuid) then t else LinkedByEvent(Configured(t, uuid, Some(account)), uuid)
  }

  function Opened(t: Tables, account: string): Tables {
    if FindActive(t.onboardings, account) < |t.onboardings| then t
    else t.(onboardings := t.onboardings + [Onboarding(account, None, true)])
  }

  predicate LinkedToActive(t: Tables, row: Onboarding) {
    row.project.Some? && IsActive(t.projects, row.project.value)
  }

  function TriedLink(t: Tables, at: nat): (after: Tables)
    requires at < |t.onboardings|
    ensures |after.onboardings| == |t.onboardings|
  {
    var row := t.onboardings[at];
    if LinkedToActive(t, row) then t
    else
      match Find(t.projects, row.account)
      case NoRow => t
      case ManyRows => t
      case OneRow(uuid) => Relinked(t, at, uuid)
  }

  predicate TryRaises(t: Tables, at: nat)
    requires at < |t.onboardings|
  {
    var row := t.onboardings[at];
    !LinkedToActive(t, row) &&
    match Find(t.projects, row.account)
    case NoRow => false
    case ManyRows => true
    case OneRow(uuid) => LinkedElsewhere(t.onboardings, at, uuid)
  }

  lemma OpenedFinds(t: Tables, account: string)
    ensures FindActive(Opened(t, account).onboardings, account) < |Opened(t, account).onboardings|
  {
    var rows := Opened(t, account).onboardings;
    if FindActive(t.onboardings, account) == |t.onboardings| {
      assert ActiveFor(rows[|rows| - 1], account);
    }
  }

  function Started(t: Tables, account: string, supported: bool): Tables {
    var ready := Opened(t, account);
    OpenedFinds(t, account);
    if supported then TriedLink(ready, FindActive(ready.onboardings, account)) else ready
  }

  // ---------------------------------------------------------------- the registry updated in place

  class Registry {
    var projects: map<nat, Project>
    var onboardings: seq<Onboarding>

    constructor ()
      ensures Contents() == Empty()
    {
      projects, onboardings := map[], [];
    }

    ghost function Contents(): Tables
      reads this
    {
      Tables(projects, onboardings)
    }

    method CheckVtexAccountConflict(uuid: nat, account: Option<string>) returns (conflict: bool)
      ensures conflict <==> Conflicts(projects, uuid, account)
    {
      if !Truthy(account) {
        return false;
      }
      match Find(projects, account.value) {
        case NoRow => return false;
        case ManyRows => return true;
        case OneRow(existing) => return existing != uuid;
      }
    }

    method CreateProject(uuid: nat, account: Option<string>) returns (ok: bool)
      modifies this`projects
      ensures ok <==> !old(CreationRaises(Contents(), uuid, account))
      ensures Contents() == Created(old(Contents()), uuid, account)
      ensures projects - {uuid} == old(projects) - {uuid} && (!ok ==> projects == old(projects))
      ensures ok ==> uuid in projects
      ensures ok && uuid in old(projects) ==>
                projects[uuid].isActive == old(projects)[uuid].isActive
                && projects[uuid].account == if Truthy(account) then account else old(projects)[uuid].account
      ensures ok && uuid !in old(projects) ==>
                projects[uuid] == Project(if account.Some? && account.value != "" then account else None, true)
    {
      if uuid in projects && !projects[uuid].isActive {
        UpdateExisting(uuid, account);
        return true;
      }
      var conflict := CheckVtexAccountConflict(uuid, account);
      if conflict {
        return false;
      }
      if uuid in projects {
        UpdateExisting(uuid, account);
      } else {
        projects := projects[uuid := Project(if Truthy(account) then account else None, true)];
      }
      return true;
    }

    method UpdateExisting(uuid: nat, account: Option<string>)
      requires uuid in projects
      modifies this`projects
      ensures projects == if Truthy(account) then old(projects)[uuid := old(projects)[uuid].(account := account)]
                          else old(projects)
    {
      if Truthy(account) {
        projects := projects[uuid := projects[uuid].(account := account)];
      }
    }

    method SaveLink(at: nat, uuid: nat) returns (ok: bool)
      requires at < |onboardings|
      modifies this`onboardings
      ensures ok <==> !LinkedElsewhere(old(onboardings), at, uuid)
      ensures Contents() == Relinked(old(Contents()), at, uuid)
    {
      ok := !LinkedElsewhere(onboardings, at, uuid);
      if ok {
        onboardings := onboardings[at := onboardings[at].(project := Some(uuid))];
      }
    }

    method LinkProjectToOnboarding(uuid: nat) returns (ok: bool)
      requires uuid in projects
      modifies this`onboardings
      ensures ok <==> !old(LinkRaises(Contents(), uuid))
      ensures Contents() == LinkedByEvent(old(Contents()), uuid)
      ensures forall i :: 0 <= i < |onboardings| && onboardings[i] != old(onboardings)[i] ==>
                onboardings[i] == old(onboardings)[i].(project := Some(uuid)) && onboardings[i].isActive
                && projects[uuid] == Project(Some(onboardings[i].account), true) && onboardings[i].account != ""
    {
      var project := projects[uuid];
      if !Truthy(project.account) || !project.isActive {
        return true;
      }
      var at := FindActive(onboardings, project.account.value);
      if at == |onboardings| {
        return true;
      }
      var linked := onboardings[at].project;
      if linked.Some? && linked.value in projects && projects[linked.value].isActive && linked.value == uuid {
        return true;
      }
      ok := SaveLink(at, uuid);
    }

    method Consume(uuid: nat, account: Option<string>) returns (acked: bool)
      modifies this
      ensures acked <==> !old(CreationRaises(Contents(), uuid, account))
                         && !LinkRaises(Created(old(Contents()), uuid, account), uuid)
      ensures Contents() == Consumed(old(Contents()), uuid, account)
    {
      acked := CreateProject(uuid, account);
      if acked && projects[uuid].isActive {
        acked := LinkProjectToOnboarding(uuid);
      }
    }

    method HandleDelete(uuid: nat)
      modifies this
      ensures Contents() == Deleted(old(Contents()), uuid)
      ensures uuid in old(projects) && old(projects)[uuid].isActive ==>
                && projects == old(projects)[uuid := old(projects)[uuid].(isActive := false)]
                && forall i :: 0 <= i < |onboardings| ==>
                     onboardings[i] == if old(onboardings)[i].project == Some(uuid)
                                       then old(onboardings)[i].(isActive := false) else old(onboardings)[i]
    {
      if uuid !in projects || !projects[uuid].isActive {
        return;
      }
      projects := projects[uuid := projects[uuid].(isActive := false)];
      onboardings := Deactivated(onboardings, uuid);
    }

    method GetOrCreateActive(account: string) returns (at: nat, created: bool)
      modifies this`onboardings
      ensures Contents() == Opened(old(Contents()), account)
      ensures at == FindActive(onboardings, account) < |onboardings|
      ensures created <==> FindActive(old(onboardings), account) == |old(onboardings)|
      ensures created <==> forall row :: row in old(onboardings) ==> !row.isActive || row.account != account
      ensures onboardings == old(onboardings) + if created then [Onboarding(account, None, true)] else []
    {
      OpenedFinds(Contents(), account);
      at := FindActive(onboardings, account);
      created := at == |onboardings|;
      if created {
        onboardings := onboardings + [Onboarding(account, None, true)];
        ghost var found := FindActive(onboardings, account);
        assert forall i :: 0 <= i < at ==> onboardings[i] == old(onboardings)[i];
        assert found == at;
      }
    }

    method TryLinkProject(at: nat) returns (ok: bool)
      requires at < |onboardings|
      modifies this`onboardings
      ensures ok <==> !old(TryRaises(Contents(), at))
      ensures Contents() == TriedLink(old(Contents()), at)
      ensures onboardings == old(onboardings)[at := onboardings[at]]
      ensures onboardings[at] != old(onboardings)[at] ==>
                exists u :: onboardings[at] == old(onboardings)[at].(project := Some(u))
                            && u in projects && projects[u] == Project(Some(onboardings[at].account), true)
    {
      var row := onboardings[at];
      if row.project.Some? && row.project.value in projects && projects[row.project.value].isActive {
        return true;
      }
      match Find(projects, row.account) {
        case NoRow => return true;
        case ManyRows => return false;
        case OneRow(uuid) => ok := SaveLink(at, uuid);
      }
    }

    method ConfigVtexProject(uuid: nat, account: Option<string>)
      modifies this`projects
      ensures Contents() == Configured(old(Contents()), uuid, account)
      ensures projects == if uuid in old(projects) && old(projects)[uuid].isActive
                          then old(projects)[uuid := Project(account, true)] else old(projects)
    {
      if uuid in projects && projects[uuid].isActive {
        projects := projects[uuid := projects[uuid].(account := account)];
      }
    }

    /** The local half of the link endpoint; a refused link leaves the account written. */
    method LinkProject(uuid: nat, account: string) returns (ok: bool)
      modifies this
      ensures Contents() == LinkedLocally(old(Contents()), uuid, account)
      ensures ok <==> IsActive(old(projects), uuid) ==>
                !LinkRaises(Configured(old(Contents()), uuid, Some(account)), uuid)
    {
      if uuid !in projects || !projects[uuid].isActive {
        return true;
      }
      ghost var configured := Configured(Contents(), uuid, Some(account));
      if projects[uuid].account != Some(account) {
        projects := projects[uuid := projects[uuid].(account := Some(account))];
      }
      assert projects == configured.projects;
      ok := LinkProjectToOnboarding(uuid);
    }

    method StartSetup(account: string, supported: bool) returns (scheduled: bool)
      modifies this
      ensures var ready := Opened(old(Contents()), account);
              var at := FindActive(ready.onboardings, account);
              at < |ready.onboardings| && (scheduled <==> supported && !TryRaises(ready, at))
      ensures Contents() == Started(old(Contents()), account, supported)
      ensures !supported && (exists row :: row in old(onboardings) && row.isActive && row.account == account) ==>
                onboardings == old(onboardings)
      ensures !supported && !(exists row :: row in old(onboardings) && row.isActive && row.account == account) ==>
                onboardings == old(onboardings) + [Onboarding(account, None, true)]
    {
      var at, _ := GetOrCreateActive(account);
      if !supported {
        return false;
      }
      scheduled := TryLinkProject(at);
    }
  }
}

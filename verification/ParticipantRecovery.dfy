/** Recovery from two known failed activations: what is left is classified by reads
    alone, the ordinary rollback takes it down, and a validator that shares no code
    with the rollback decides whether the incident counts as recovered. */
module ParticipantRecovery {
  import opened Wrappers
  import opened ApiServer
  import opened ParticipantObjects
  import opened ParticipantRollback

  /** In the first incident four objects were bound, the Service was already gone, and
      the create of the Deployment was never resolved; in the second all six were bound. */
  datatype Profile = UnresolvedDeployment | SixCreated

  datatype Incident = Incident(profile: Profile, nonce: nat, uids: Logical -> nat, versions: Logical -> nat)

  datatype TargetState = Present(uid: nat, version: nat) | OwnedAbsent(uid: nat) | BreakProved(uid: nat)
                       | PresentByNonce(uid: nat, version: nat) | AbsentUnresolved | NeverCreated

  function CreatedOrder(profile: Profile): seq<Logical> {
    if profile.SixCreated? then ORDER else ORDER[..4]
  }

  /** The object as the incident receipt knows it. */
  function Stub(incident: Incident, l: Logical): Created {
    Created(l, incident.uids(l), incident.versions(l), true)
  }

  predicate IsAbsent(state: TargetState) {
    !state.Present? && !state.PresentByNonce?
  }

  /** The item is what the classification of its target says. */
  predicate Agrees(item: Created, state: TargetState) {
    match state
    case Present(uid, version) => item.uid == uid && item.version == version
    case PresentByNonce(uid, version) => item.uid == uid && item.version == version
    case OwnedAbsent(uid) => item.uid == uid
    case BreakProved(uid) => item.uid == uid
    case AbsentUnresolved => false
    case NeverCreated => false
  }

  /** A complete classification, and the objects that may be deleted on its strength. */
  predicate Classified(incident: Incident, targets: map<Logical, TargetState>, created: seq<Created>) {
    && (forall l :: l in targets)
    && (forall item <- created :: Agrees(item, targets[item.logical]))
    && (forall l <- CreatedOrder(incident.profile) :: !targets[l].PresentByNonce? && targets[l] != AbsentUnresolved
                                                     && targets[l] != NeverCreated && (targets[l].BreakProved? ==> l.GatewayService?))
    && match incident.profile
       case SixCreated => |created| == 6 && (forall i :: 0 <= i < 6 ==> created[i].logical == ORDER[i])
                          && !targets[GatewayService].BreakProved?
       case UnresolvedDeployment =>
         && targets[GatewayService].BreakProved? && targets[GatewayIngress].NeverCreated?
         && (forall i :: 0 <= i < 4 && i < |created| ==> created[i].logical == ORDER[i])
         && if targets[GatewayDeployment].PresentByNonce? then |created| == 5 && created[4].logical == GatewayDeployment
            else |created| == 4 && targets[GatewayDeployment].AbsentUnresolved?
  }

  // -------------------------------------------------------- the classification

  /** The incident receipt speaks the truth about what that run created. */
  ghost predicate Truthful(world: World, incident: Incident)
    reads world
  {
    forall c <- Stubs(incident) :: Owned(world, incident.nonce, c)
  }

  function Stubs(incident: Incident): seq<Created> {
    var order := CreatedOrder(incident.profile);
    seq(|order|, i requires 0 <= i < |order| => Stub(incident, order[i]))
  }

  twostate lemma StaysTruthful(world: World, new incident: Incident)
    requires old(world.Valid()) && world.Grew() && old(Truthful(world, incident))
    ensures Truthful(world, incident)
  {
    AllStay(world, incident.nonce, Stubs(incident));
  }

  /** The classification is still true of the object, as far as it can be: what was absent
      is absent, and what was there is there unless somebody else has removed it since. */
  ghost predicate Placed(objects: map<Key, Obj>, foreign: seq<Foreign>, since: nat, item: Created, state: TargetState) {
    && since <= |foreign|
    && if IsAbsent(state) then Vanished(objects, item)
       else !Vanished(objects, item) || Taken(foreign, since, Target(item.logical), item.uid)
  }

  twostate lemma StaysPlaced(world: World, new since: nat, new item: Created, new state: TargetState)
    requires old(world.Valid()) && world.Grew() && item.uid < old(world.nextUid)
    requires NoneLost(old(world.objects), world.objects, world.foreign, |old(world.foreign)|)
    requires Placed(old(world.objects), old(world.foreign), since, item, state)
    ensures Placed(world.objects, world.foreign, since, item, state)
  {
    var key := Target(item.logical);
    StillTaken(old(world.foreign), world.foreign, since, since, key, item.uid);
    StillTaken(world.foreign, world.foreign, since, |old(world.foreign)|, key, item.uid);
    if !IsAbsent(state) && !Vanished(old(world.objects), item) {
      assert key in old(world.objects);
    }
  }

  /** Classify one object of the incident receipt. */
  method BindOne(world: World, incident: Incident, l: Logical, desired: Body, ghost since: nat)
    returns (r: Result<(Created, TargetState)>)
    requires world.Valid() && Truthful(world, incident) && l in CreatedOrder(incident.profile) && since <= |world.foreign|
    modifies world
    ensures world.Grew() && Truthful(world, incident) && world.trace == old(world.trace) && world.ledger == old(world.ledger)
    ensures NoneLost(old(world.objects), world.objects, world.foreign, |old(world.foreign)|)
    ensures r.Ok? ==> Placed(world.objects, world.foreign, since, r.value.0, r.value.1)
    ensures r.Ok? ==>
              && var (item, state) := r.value;
              && item.logical == l && Owned(world, incident.nonce, item) && Agrees(item, state)
              && (state.Present? || state.OwnedAbsent? || state.BreakProved?)
              && (state.BreakProved? <==> l.GatewayService? && incident.profile.UnresolvedDeployment?)
  {
    var stub := Stub(incident, l);
    var answer := world.Get(Target(l));
    StaysTruthful(world, incident);
    var current :- answer;
    assert Owned(world, incident.nonce, stub) by {
      var i :| 0 <= i < |CreatedOrder(incident.profile)| && CreatedOrder(incident.profile)[i] == l;
      assert Stubs(incident)[i] == stub;
    }
    if l.GatewayService? && incident.profile.UnresolvedDeployment? {
      var _ :- Require(current.None?);
      return Ok((stub, BreakProved(stub.uid)));
    } else if current.None? {
      return Ok((stub, OwnedAbsent(stub.uid)));
    }
    var o := current.value;
    var expected := if incident.profile.SixCreated? then desired.(tracking := Tracked) else desired;
    var _ :- Require(o.uid == stub.uid && Clean(o, expected));
    r := Ok((stub.(version := o.version), Present(o.uid, o.version)));
  }

  /** Nothing of a Deployment is running. */
  method NothingRuns(world: World, incident: Incident) returns (r: Result<Option<Created>>)
    requires world.Valid() && Truthful(world, incident)
    modifies world
    ensures OnlyOthers(old(world.objects), world.objects, world.foreign, |old(world.foreign)|, None)
    ensures world.Grew() && Truthful(world, incident) && world.trace == old(world.trace) && world.ledger == old(world.ledger)
    ensures r.Ok? ==> r.value.None?
  {
    var pods := world.List(PODS);
    StaysTruthful(world, incident);
    var somePod :- pods;
    ghost var before, steps := world.objects, world.foreign;
    var sets := world.List(REPLICA_SETS);
    StaysTruthful(world, incident);
    OthersAgain(old(world.objects), before, world.objects, steps, world.foreign, |old(world.foreign)|, None);
    var someSet :- sets;
    var _ :- Require(somePod.None? && someSet.None?);
    r := Ok(None);
  }

  /** A Deployment that the first incident may have left behind counts as its own only
      if it carries that run's nonce and is exactly as desired. */
  method BindUnresolved(world: World, incident: Incident, desired: Body) returns (r: Result<Option<Created>>)
    requires world.Valid() && Truthful(world, incident)
    modifies world
    ensures NoneLost(old(world.objects), world.objects, world.foreign, |old(world.foreign)|)
    ensures r.Ok? && r.value.Some? ==> !Vanished(world.objects, r.value.value)
    ensures world.Grew() && Truthful(world, incident) && world.trace == old(world.trace) && world.ledger == old(world.ledger)
    ensures r.Ok? && r.value.Some? ==>
              r.value.value.logical == GatewayDeployment && Owned(world, incident.nonce, r.value.value)
  {
    var answer := world.Get(Target(GatewayDeployment));
    ghost var before, steps := world.objects, world.foreign;
    StaysTruthful(world, incident);
    var current :- answer;
    if current.None? {
      r := NothingRuns(world, incident);
      OthersAgain(old(world.objects), before, world.objects, steps, world.foreign, |old(world.foreign)|, None);
      return;
    }
    var item := BindCreateResult(GatewayDeployment, current.value, desired, incident.nonce);
    r := if item.Some? then Ok(item) else Err(Raised);
  }

  /** What the loop over the incident's objects has established for the first `n`. */
  ghost predicate BoundFirst(world: World, incident: Incident, n: nat, targets: map<Logical, TargetState>, created: seq<Created>,
                             since: nat)
    requires n <= |CreatedOrder(incident.profile)|
    reads world
  {
    && |created| == n
    && forall i :: 0 <= i < n ==>
         && var l := ORDER[i];
         && created[i].logical == l && Owned(world, incident.nonce, created[i])
         && l in targets && Agrees(created[i], targets[l]) && Placed(world.objects, world.foreign, since, created[i], targets[l])
         && (targets[l].Present? || targets[l].OwnedAbsent? || targets[l].BreakProved?)
         && (targets[l].BreakProved? <==> l.GatewayService? && incident.profile.UnresolvedDeployment?)
  }

  twostate lemma StaysBound(world: World, new incident: Incident, new n: nat, new targets: map<Logical, TargetState>,
                            new created: seq<Created>, new since: nat)
    requires old(world.Valid()) && world.Grew() && n <= |CreatedOrder(incident.profile)|
    requires NoneLost(old(world.objects), world.objects, world.foreign, |old(world.foreign)|)
    requires old(BoundFirst(world, incident, n, targets, created, since))
    ensures BoundFirst(world, incident, n, targets, created, since)
  {
    AllStay(world, incident.nonce, created);
    forall i | 0 <= i < n
      ensures Placed(world.objects, world.foreign, since, created[i], targets[ORDER[i]])
    {
      StaysPlaced(world, since, created[i], targets[ORDER[i]]);
    }
  }

  method BindNext(world: World, incident: Incident, render: Render, n: nat,
                  targets: map<Logical, TargetState>, created: seq<Created>, ghost since: nat)
    returns (r: Result<(Created, TargetState)>)
    requires world.Valid() && Truthful(world, incident) && n < |CreatedOrder(incident.profile)| && since <= |world.foreign|
    requires BoundFirst(world, incident, n, targets, created, since)
    modifies world
    ensures world.Grew() && Truthful(world, incident) && world.trace == old(world.trace) && world.ledger == old(world.ledger)
    ensures r.Ok? ==> BoundFirst(world, incident, n + 1, targets[ORDER[n] := r.value.1], created + [r.value.0], since)
  {
    hide Truthful, Owned, Cluster.Valid, Agrees, Stub, Stubs, Placed, NoneLost;
    r := BindOne(world, incident, ORDER[n], render(ORDER[n]), since);
    StaysBound(world, incident, n, targets, created, since);
  }

  method BindCreated(world: World, incident: Incident, render: Render, ghost since: nat)
    returns (r: Result<()>, targets: map<Logical, TargetState>, created: seq<Created>)
    requires world.Valid() && Truthful(world, incident) && since <= |world.foreign|
    modifies world
    ensures world.Grew() && Truthful(world, incident) && world.trace == old(world.trace) && world.ledger == old(world.ledger)
    ensures r.Ok? ==> BoundFirst(world, incident, |CreatedOrder(incident.profile)|, targets, created, since)
  {
    targets, created := map[], [];
    for n := 0 to |CreatedOrder(incident.profile)|
      invariant world.Grew() && Truthful(world, incident) && world.trace == old(world.trace) && world.ledger == old(world.ledger)
      invariant BoundFirst(world, incident, n, targets, created, since)
    {
      hide Truthful, BoundFirst, Cluster.Valid;
      var answer := BindNext(world, incident, render, n, targets, created, since);
      if answer.Err? {
        r := Err(answer.fault);
        return;
      }
      targets, created := targets[ORDER[n] := answer.value.1], created + [answer.value.0];
    }
    r := Ok(());
  }

  /** Every deletable object is placed as it was classified. */
  ghost predicate AllPlaced(world: World, since: nat, targets: map<Logical, TargetState>, created: seq<Created>)
    reads world
  {
    forall item <- created :: item.logical in targets
                              && Placed(world.objects, world.foreign, since, item, targets[item.logical])
  }

  twostate lemma AllStayPlaced(world: World, new incident: Incident, new since: nat, new targets: map<Logical, TargetState>,
                               new created: seq<Created>)
    requires old(world.Valid()) && world.Grew() && old(AllPlaced(world, since, targets, created))
    requires NoneLost(old(world.objects), world.objects, world.foreign, |old(world.foreign)|)
    requires forall item <- created :: old(Owned(world, incident.nonce, item))
    ensures AllPlaced(world, since, targets, created)
    ensures forall item <- created :: Owned(world, incident.nonce, item)
  {
    AllStay(world, incident.nonce, created);
    forall item | item in created
      ensures Placed(world.objects, world.foreign, since, item, targets[item.logical])
    {
      StaysPlaced(world, since, item, targets[item.logical]);
    }
  }

  /** The Ingress of the first incident was never created, and must not be there. */
  method RequireNoIngress(world: World, incident: Incident, created: seq<Created>, ghost since: nat,
                          ghost targets: map<Logical, TargetState>) returns (r: Result<()>)
    requires world.Valid() && AllPlaced(world, since, targets, created)
    requires forall item <- created :: Owned(world, incident.nonce, item)
    modifies world
    ensures world.Grew() && world.trace == old(world.trace) && world.ledger == old(world.ledger)
    ensures AllPlaced(world, since, targets, created) && forall item <- created :: Owned(world, incident.nonce, item)
  {
    var ingress := world.Get(Target(GatewayIngress));
    AllStayPlaced(world, incident, since, targets, created);
    var found :- ingress;
    r := Require(found.None?);
  }

  lemma Place(l: Logical) returns (i: nat)
    ensures i < 6 && ORDER[i] == l
  {
    i := match l
      case GatewayNetworkPolicy => 0
      case WorkbenchNetworkPolicy => 1
      case GatewayServiceAccount => 2
      case GatewayService => 3
      case GatewayDeployment => 4
      case GatewayIngress => 5;
  }

  lemma AllSixClassified(world: World, incident: Incident, targets: map<Logical, TargetState>, created: seq<Created>, since: nat)
    requires incident.profile.SixCreated? && BoundFirst(world, incident, 6, targets, created, since)
    ensures Classified(incident, targets, created) && AllPlaced(world, since, targets, created)
  {
    hide Placed, Owned;
    assert ORDER[3] == GatewayService;
    forall l: Logical
      ensures l in targets
    {
      var i := Place(l);
    }
  }

  /** The classification with what became of the Deployment. */
  function WithUncreated(targets: map<Logical, TargetState>, deployment: Option<Created>): map<Logical, TargetState> {
    targets[GatewayDeployment := if deployment.Some? then PresentByNonce(deployment.value.uid, deployment.value.version)
                                 else AbsentUnresolved]
           [GatewayIngress := NeverCreated]
  }

  lemma FirstFourClassified(world: World, incident: Incident, targets: map<Logical, TargetState>, created: seq<Created>,
                            deployment: Option<Created>, since: nat)
    requires incident.profile.UnresolvedDeployment? && BoundFirst(world, incident, 4, targets, created, since)
    requires deployment.Some? ==> deployment.value.logical == GatewayDeployment && !Vanished(world.objects, deployment.value)
    requires since <= |world.foreign|
    ensures Classified(incident, WithUncreated(targets, deployment),
                       created + if deployment.Some? then [deployment.value] else [])
    ensures AllPlaced(world, since, WithUncreated(targets, deployment),
                      created + if deployment.Some? then [deployment.value] else [])
  {
    hide Owned, Cluster.Valid, Target, Vanished, Taken;
    assert targets[ORDER[3]].BreakProved?;
    forall l: Logical
      ensures l in WithUncreated(targets, deployment)
    {
      var i := Place(l);
    }
    assert CreatedOrder(incident.profile) == [ORDER[0], ORDER[1], ORDER[2], ORDER[3]];
    forall item <- created
      ensures Agrees(item, WithUncreated(targets, deployment)[item.logical])
    {
      var i :| 0 <= i < 4 && created[i] == item;
    }
  }

  /** `bind_recovery_targets_v4` */
  method BindRecoveryTargets(world: World, incident: Incident, render: Render)
    returns (r: Result<()>, targets: map<Logical, TargetState>, created: seq<Created>)
    requires world.Valid() && Truthful(world, incident)
    modifies world
    ensures world.Grew() && world.trace == old(world.trace) && world.ledger == old(world.ledger)
    ensures r.Ok? ==> Classified(incident, targets, created) && AllPlaced(world, |old(world.foreign)|, targets, created)
                      && forall item <- created :: Owned(world, incident.nonce, item)
  {
    hide Classified, Agrees, Truthful, WithUncreated, AllPlaced;
    ghost var since := |world.foreign|;
    r, targets, created := BindCreated(world, incident, render, since);
    if r.Err? {
      return;
    } else if incident.profile.SixCreated? {
      AllSixClassified(world, incident, targets, created, since);
      return;
    }
    ghost var four := created;
    var deployment;
    deployment, created := BindMore(world, incident, render(GatewayDeployment), targets, created, since);
    if deployment.Err? {
      r := Err(deployment.fault);
      return;
    }
    FirstFourClassified(world, incident, targets, four, deployment.value, since);
    targets := WithUncreated(targets, deployment.value);
    r := RequireNoIngress(world, incident, created, since, targets);
  }

  method BindMore(world: World, incident: Incident, desired: Body, ghost targets: map<Logical, TargetState>, four: seq<Created>,
                  ghost since: nat)
    returns (r: Result<Option<Created>>, created: seq<Created>)
    requires world.Valid() && Truthful(world, incident) && incident.profile.UnresolvedDeployment?
    requires BoundFirst(world, incident, 4, targets, four, since)
    modifies world
    ensures world.Grew() && world.trace == old(world.trace) && world.ledger == old(world.ledger)
    ensures BoundFirst(world, incident, 4, targets, four, since)
    ensures r.Ok? && r.value.Some? ==> !Vanished(world.objects, r.value.value)
    ensures r.Ok? ==> && created == four + (if r.value.Some? then [r.value.value] else [])
                      && (r.value.Some? ==> r.value.value.logical == GatewayDeployment)
                      && forall item <- created :: Owned(world, incident.nonce, item)
  {
    hide Truthful, Owned, Cluster.Valid;
    r := BindUnresolved(world, incident, desired);
    StaysBound(world, incident, 4, targets, four, since);
    created := four + if r.Ok? && r.value.Some? then [r.value.value] else [];
  }

  // ------------------------------------------------------------- the validator

  /** The names that a report must list, in this order. */
  function ExpectedOrder(profile: Profile, targets: map<Logical, TargetState>): seq<Logical>
    requires GatewayDeployment in targets
  {
    match profile
    case SixCreated => [GatewayIngress, GatewayService, GatewayService, GatewayDeployment,
                        GatewayServiceAccount, WorkbenchNetworkPolicy, GatewayNetworkPolicy]
    case UnresolvedDeployment =>
      [GatewayService, GatewayService]
      + (if targets[GatewayDeployment].PresentByNonce? then [GatewayDeployment] else [])
      + [GatewayServiceAccount, WorkbenchNetworkPolicy, GatewayNetworkPolicy]
  }

  /** `validate_run29_recovery_deleted_record_v4` and its counterparts: one record
      against the classification of its target. */
  predicate RecordValid(record: Record, state: TargetState) {
    match state
    case Present(uid, version) =>
      record.Deleted? && record.uid == uid && record.version >= version
      && record.foreground == record.logical.GatewayDeployment?
    case PresentByNonce(uid, version) =>
      record.Deleted? && record.uid == uid && record.version >= version && record.foreground
    case OwnedAbsent(_) => record.AlreadyAbsent?
    case BreakProved(_) => record.AlreadyAbsent?
    case AbsentUnresolved => false
    case NeverCreated => false
  }

  /** `validate_complete_recovery_rollback_v4` and its run29 twin, as far as they look at
      status, suspension, quiet checks and deletions. The second Service record must
      always say already absent. */
  predicate RollbackValid(profile: Profile, targets: map<Logical, TargetState>, report: Report)
    requires forall l :: l in targets
  {
    && report.complete && report.bothSuspended && report.uncertain.None? && report.checks >= 2
    && Logicals(report.deleted) == ExpectedOrder(profile, targets)
    && (forall i :: 0 <= i < |report.deleted| && i != SecondService(profile) ==>
          RecordValid(report.deleted[i], targets[report.deleted[i].logical]))
    && report.deleted[SecondService(profile)].AlreadyAbsent?
  }

  function SecondService(profile: Profile): nat {
    if profile.SixCreated? then 2 else 1
  }

  /** Somebody else removed the object that was classified as present, and this rollback
      never even requested its deletion. */
  ghost predicate LostToOthers(foreign: seq<Foreign>, since: nat, trace: seq<Event>, from: nat, l: Logical, state: TargetState) {
    && !IsAbsent(state)
    && Taken(foreign, since, Target(l), state.uid)
    && !Asked(trace, from, Created(l, state.uid, state.version, true))
  }

  lemma {:induction false} ReversedSkips(created: seq<Created>)
    requires forall c <- created :: !Quietly(c.logical)
    ensures Reversed(created) == []
  {
    if created != [] {
      ReversedSkips(created[1..]);
    }
  }

  /** What goes last are the first three, backwards. */
  lemma {:induction false} RestOrder(s: seq<Created>)
    requires |s| >= 4 && forall i :: 0 <= i < 4 ==> s[i].logical == ORDER[i]
    requires forall i :: 4 <= i < |s| ==> !Quietly(s[i].logical)
    ensures Reversed(s) == [GatewayServiceAccount, WorkbenchNetworkPolicy, GatewayNetworkPolicy]
  {
    assert s[1..][1..] == s[2..] && s[2..][1..] == s[3..];
    ReversedSkips(s[3..]);
    assert Reversed(s[2..]) == [GatewayServiceAccount];
    assert Reversed(s[1..]) == [GatewayServiceAccount, WorkbenchNetworkPolicy];
  }

  lemma WhatIsThere(incident: Incident, targets: map<Logical, TargetState>, s: seq<Created>)
    requires Classified(incident, targets, s)
    ensures Once(s, GatewayService) == [GatewayService]
    ensures Once(s, GatewayIngress) == if incident.profile.SixCreated? then [GatewayIngress] else []
    ensures Once(s, GatewayDeployment) ==
            if incident.profile.SixCreated? || targets[GatewayDeployment].PresentByNonce? then [GatewayDeployment] else []
    ensures Reversed(s) == [GatewayServiceAccount, WorkbenchNetworkPolicy, GatewayNetworkPolicy]
  {
    assert s[3] in s && s[3].logical == GatewayService;
    assert |s| > 4 ==> s[4] in s && s[4].logical == GatewayDeployment;
    assert |s| > 5 ==> s[5] in s && s[5].logical == GatewayIngress;
    assert incident.profile.UnresolvedDeployment? ==> forall c <- s :: c.logical != GatewayIngress;
    assert |s| == 4 ==> forall c <- s :: c.logical != GatewayDeployment;
    RestOrder(s);
  }

  /** The names in a complete report are the expected ones. */
  lemma OrderAsExpected(incident: Incident, targets: map<Logical, TargetState>, c: Case)
    requires Classified(incident, targets, c.created) && c.bootstrap.Some?
    ensures DeletionOrder(c) == ExpectedOrder(incident.profile, targets)
  {
    WhatIsThere(incident, targets, c.created);
    hide Once, Reversed, Classified;
  }

  /** What a rollback leaves to judge it by: its case and records, the cluster, its requests
      and the steps of the others, and what had been there or missing when it began. */
  datatype Ending = Ending(c: Case, deleted: seq<Record>, objects: map<Key, Obj>, trace: seq<Event>, from: nat,
                           foreign: seq<Foreign>, since: nat, standing: set<Created>, missing: set<Created>)

  ghost function EndingOf(undo: Rollback): Ending
    reads undo, undo.world
  {
    Ending(undo.c, undo.deleted, undo.world.objects, undo.world.trace, undo.from,
           undo.world.foreign, undo.since, undo.standing, undo.missing)
  }

  /** The accounts are in order: as every rollback keeps them until something goes wrong. */
  ghost predicate InOrder(e: Ending) {
    && Booked(e.c.created, e.deleted, e.objects, e.trace, e.from)
    && Told(e.c.created, e.deleted, e.trace, e.from)
    && AllAccounted(e.standing, e.c.created, e.objects, e.foreign, e.since, e.trace, e.from)
    && AllMissing(e.missing, e.objects, e.trace, e.from)
  }

  lemma EndsInOrder(undo: Rollback)
    requires undo.Running() && undo.Honest()
    ensures InOrder(EndingOf(undo))
  {
  }

  /** The rollback was given the classification. */
  ghost predicate Given(c: Case, standing: set<Created>, missing: set<Created>, incident: Incident, targets: map<Logical, TargetState>)
  {
    && Classified(incident, targets, c.created) && c.bootstrap.Some? && c.rendered
    && forall item <- c.created :: if IsAbsent(targets[item.logical]) then item in missing else item in standing
  }

  /** The record of an object that was there says deleted exactly if its deletion was
      requested; and of an object that was not there, it never does. */
  lemma FirstRecord(e: Ending, incident: Incident, targets: map<Logical, TargetState>, i: nat) returns (item: Created)
    requires InOrder(e) && Given(e.c, e.standing, e.missing, incident, targets) && i < |e.deleted|
    ensures item in e.c.created && item.logical == e.deleted[i].logical && Fits(e.deleted[i], item)
    ensures IsAbsent(targets[item.logical]) ==> e.deleted[i].AlreadyAbsent?
    ensures !IsAbsent(targets[item.logical]) && (forall j :: 0 <= j < i ==> e.deleted[j].logical != item.logical) ==>
              (e.deleted[i].Deleted? <==> Asked(e.trace, e.from, item))
    ensures Agrees(item, targets[item.logical])
    ensures !IsAbsent(targets[item.logical]) ==>
              Taken(e.foreign, e.since, Target(item.logical), item.uid) || Asked(e.trace, e.from, item)
  {
    assert IsTrue(e.deleted[i], e.c.created, e.objects, e.trace, e.from);
    item :| item in e.c.created && Tells(e.deleted[i], item, e.objects, e.trace, e.from);
    Classification(incident, targets, e.c.created, item);
    hide Classified, Asked, Taken, Target, Agrees, Fits;
    if item in e.standing {
      assert Accounted(item, e.objects, e.foreign, e.since, e.trace, e.from);
    }
    if Asked(e.trace, e.from, item) && forall j :: 0 <= j < i ==> e.deleted[j].logical != item.logical {
      FirstSaysDeleted(e, i, item);
    }
  }

  lemma Classification(incident: Incident, targets: map<Logical, TargetState>, created: seq<Created>, item: Created)
    requires Classified(incident, targets, created) && item in created
    ensures item.logical in targets && Agrees(item, targets[item.logical])
  {
  }

  lemma FirstSaysDeleted(e: Ending, i: nat, item: Created)
    requires InOrder(e) && i < |e.deleted| && item in e.c.created && e.deleted[i].logical == item.logical
    requires Asked(e.trace, e.from, item) && forall j :: 0 <= j < i ==> e.deleted[j].logical != item.logical
    ensures e.deleted[i].Deleted?
  {
    hide Asked, AllAccounted, AllMissing, IsTrue;
    var record :| record in e.deleted && record.Deleted? && record.logical == item.logical;
    var k :| 0 <= k < |e.deleted| && e.deleted[k] == record;
    assert k <= i;
  }

  /** The first record of an object passes exactly if the object was not lost to others. */
  lemma RecordPasses(e: Ending, incident: Incident, targets: map<Logical, TargetState>, i: nat)
    requires InOrder(e) && Given(e.c, e.standing, e.missing, incident, targets) && i < |e.deleted|
    requires forall j :: 0 <= j < i ==> e.deleted[j].logical != e.deleted[i].logical
    ensures RecordValid(e.deleted[i], targets[e.deleted[i].logical]) <==>
            !LostToOthers(e.foreign, e.since, e.trace, e.from, e.deleted[i].logical, targets[e.deleted[i].logical])
  {
    ByNonceIsDeployment(incident, targets, e.c.created);
    hide InOrder, Given, Classified, Taken, Asked, Target;
    var item := FirstRecord(e, incident, targets, i);
    var state := targets[item.logical];
    if !IsAbsent(state) {
      SameAsked(e.trace, e.from, item, Created(item.logical, state.uid, state.version, true));
    }
  }

  lemma ByNonceIsDeployment(incident: Incident, targets: map<Logical, TargetState>, created: seq<Created>)
    requires Classified(incident, targets, created)
    ensures forall l: Logical :: targets[l].PresentByNonce? ==> l.GatewayDeployment?
  {
    forall l: Logical | !l.GatewayDeployment?
      ensures !targets[l].PresentByNonce?
    {
      var i := Place(l);
      if i < |CreatedOrder(incident.profile)| {
        assert CreatedOrder(incident.profile)[i] == l;
      }
    }
  }

  lemma SameAsked(trace: seq<Event>, from: nat, item: Created, other: Created)
    requires item.logical == other.logical && item.uid == other.uid
    ensures Asked(trace, from, item) <==> Asked(trace, from, other)
  {
  }

  /** What is demanded of the places of a list: every name is there, and only the Service
      twice. */
  lemma PlacesOf(incident: Incident, targets: map<Logical, TargetState>, created: seq<Created>, deleted: seq<Record>)
    requires Classified(incident, targets, created) && Logicals(deleted) == ExpectedOrder(incident.profile, targets)
    ensures forall i, j :: 0 <= j < i < |deleted| && deleted[j].logical == deleted[i].logical ==>
              i == SecondService(incident.profile)
    ensures 0 < SecondService(incident.profile) < |deleted|
    ensures deleted[SecondService(incident.profile)].logical == deleted[SecondService(incident.profile) - 1].logical
    ensures forall l: Logical :: !IsAbsent(targets[l]) ==> exists i :: 0 <= i < |deleted| && deleted[i].logical == l
  {
    var order := ExpectedOrder(incident.profile, targets);
    assert forall i :: 0 <= i < |deleted| ==> deleted[i].logical == order[i];
    var n := SecondService(incident.profile);
    assert order[n - 1] == order[n] == GatewayService;
    forall l: Logical | !IsAbsent(targets[l])
      ensures exists i :: 0 <= i < |deleted| && deleted[i].logical == l
    {
      var i := match l
        case GatewayIngress => 0
        case GatewayService => n
        case GatewayDeployment => |order| - 4
        case GatewayServiceAccount => |order| - 3
        case WorkbenchNetworkPolicy => |order| - 2
        case GatewayNetworkPolicy => |order| - 1;
      assert deleted[i].logical == l;
    }
  }

  /** The rollback and its validator agree, for both incidents. Of a complete rollback the
      validator accepts the report if and only if no object that had been classified as
      present was removed by somebody else before this rollback requested its deletion.
      Nothing can be brought back: a UID that was gone never returns. */
  lemma AcceptedIffNothingWasTaken(e: Ending, incident: Incident, targets: map<Logical, TargetState>, report: Report)
    requires InOrder(e) && Given(e.c, e.standing, e.missing, incident, targets)
    requires report.complete && report.bothSuspended && report.uncertain.None? && report.checks >= 2
    requires report.deleted == e.deleted && Logicals(e.deleted) == DeletionOrder(e.c)
    ensures RollbackValid(incident.profile, targets, report) <==>
            forall l: Logical :: !LostToOthers(e.foreign, e.since, e.trace, e.from, l, targets[l])
  {
    var deleted, second := e.deleted, SecondService(incident.profile);
    OrderAsExpected(incident, targets, e.c);
    PlacesOf(incident, targets, e.c.created, deleted);
    forall i | 0 <= i < |deleted| && i != second
      ensures RecordValid(deleted[i], targets[deleted[i].logical]) <==>
              !LostToOthers(e.foreign, e.since, e.trace, e.from, deleted[i].logical, targets[deleted[i].logical])
    {
      RecordPasses(e, incident, targets, i);
    }
    assert deleted[second].AlreadyAbsent? by {
      assert second > 0 && deleted[second - 1].logical == deleted[second].logical;
    }
    hide LostToOthers, RecordValid, Classified, ExpectedOrder, InOrder;
  }

  lemma JudgedByItsEnding(undo: Rollback, incident: Incident, targets: map<Logical, TargetState>, report: Report)
    requires undo.Running() && undo.Succeeded(report) && report.complete && report.deleted == undo.deleted
    requires Given(undo.c, undo.standing, undo.missing, incident, targets)
    ensures RollbackValid(incident.profile, targets, report) <==> NothingWasTaken(undo, targets)
  {
    EndsInOrder(undo);
    hide Rollback.Running, InOrder, RollbackValid, LostToOthers;
    AcceptedIffNothingWasTaken(EndingOf(undo), incident, targets, report);
  }

  function RecoveryCase(incident: Incident, render: Render, created: seq<Created>, bootstrap: Bootstrap,
                        preserved: seq<Preserved>, timing: Timing): Case {
    Case(render, incident.nonce, created, Some(bootstrap), preserved, None, true, true, incident.profile.SixCreated?, timing)
  }

  lemma RecoveryCaseValid(incident: Incident, targets: map<Logical, TargetState>, render: Render, created: seq<Created>,
                          bootstrap: Bootstrap, preserved: seq<Preserved>, timing: Timing)
    requires Classified(incident, targets, created) && bootstrap.Valid() && timing.poll > 0
    ensures RecoveryCase(incident, render, created, bootstrap, preserved, timing).Valid()
  {
  }

  /** The checks before the first mutation. They look at other things, and send nothing. */
  method Preflight(world: World, incident: Incident) returns (r: Result<()>)
    requires world.Valid() && Truthful(world, incident)
    modifies world
    ensures world.Grew() && Truthful(world, incident) && world.trace == old(world.trace) && world.ledger == old(world.ledger)
  {
    var checks := 4;     // cluster identity, preserved objects, dormant Flux, recovery profile of Flux
    while checks > 0
      invariant world.Grew() && Truthful(world, incident) && world.trace == old(world.trace) && world.ledger == old(world.ledger)
    {
      hide Truthful, Cluster.Valid;
      var passed := world.Check();
      StaysTruthful(world, incident);
      var _ :- passed;
      checks := checks - 1;
    }
    r := Ok(());
  }

  /** One more check before the rollback: the classification stays as true as it can. */
  method CheckAgain(world: World, incident: Incident, ghost since: nat, ghost targets: map<Logical, TargetState>, created: seq<Created>)
    returns (r: Result<()>)
    requires world.Valid() && AllPlaced(world, since, targets, created)
    requires forall item <- created :: Owned(world, incident.nonce, item)
    modifies world
    ensures world.Valid() && world.trace == old(world.trace) && world.ledger == old(world.ledger)
    ensures AllPlaced(world, since, targets, created) && forall item <- created :: Owned(world, incident.nonce, item)
    ensures old(world.foreign) <= world.foreign
  {
    r := world.Check();
    AllStayPlaced(world, incident, since, targets, created);
  }

  /** The rollback of what was classified. */
  method TakeDown(world: World, incident: Incident, render: Render, bootstrap: Bootstrap, preserved: seq<Preserved>, timing: Timing,
                  targets: map<Logical, TargetState>, created: seq<Created>, ghost since: nat)
    returns (r: Result<Report>, recovered: bool, undo: Rollback)
    requires world.Valid() && Classified(incident, targets, created) && AllPlaced(world, since, targets, created)
    requires forall item <- created :: Owned(world, incident.nonce, item)
    requires bootstrap.Valid() && timing.poll > 0 && since <= |world.foreign|
    modifies world
    ensures world.ledger == old(world.ledger) && (r.Err? ==> r.fault.Died?) && (recovered ==> r.Ok?) && fresh(undo)
    ensures r.Ok? ==> Settles(undo, world, old(world.trace), incident, targets, since, r.value)
                      && (recovered <==> RollbackValid(incident.profile, targets, r.value))
                      && (recovered <==> r.value.complete && NothingWasTaken(undo, targets))
  {
    RecoveryCaseValid(incident, targets, render, created, bootstrap, preserved, timing);
    var clock: nat :| clock >= 0;
    ghost var standing := set item | item in created && !IsAbsent(targets[item.logical]);
    ghost var missing := set item | item in created && IsAbsent(targets[item.logical]);
    undo := new Rollback(world, RecoveryCase(incident, render, created, bootstrap, preserved, timing), clock, standing, since, missing);
    assert Given(undo.c, standing, missing, incident, targets);
    TotalTargets(incident, targets, created);
    hide Rollback.Running, Rollback.Succeeded, Given, Classified, AllPlaced, NothingWasTaken;
    r := undo.Execute();
    recovered := r.Ok? && r.value.complete && RollbackValid(incident.profile, targets, r.value);
    hide RollbackValid;
    if r.Ok? && r.value.complete {
      JudgedByItsEnding(undo, incident, targets, r.value);
    }
  }

  /** The rollback `undo` began with what was classified, after the requests in `start`,
      and ended with this report; a complete report has everything behind it. */
  ghost predicate Settles(undo: Rollback, world: World, start: seq<Event>, incident: Incident, targets: map<Logical, TargetState>,
                          since: nat, report: Report)
    reads undo, undo.world
  {
    && undo.world == world && undo.Running() && undo.before == start && undo.since == since && undo.c.nonce == incident.nonce
    && Given(undo.c, undo.standing, undo.missing, incident, targets) && Isolated(world.trace, |start|, |world.trace| - 1)
    && (report.complete ==> undo.Succeeded(report) && report.deleted == undo.deleted)
  }

  /** No object that was classified as present was removed by somebody else before the
      rollback requested its deletion. */
  ghost predicate NothingWasTaken(undo: Rollback, targets: map<Logical, TargetState>)
    requires forall l: Logical :: l in targets
    reads undo, undo.world
  {
    forall l: Logical :: !LostToOthers(undo.world.foreign, undo.since, undo.world.trace, undo.from, l, targets[l])
  }

  lemma TotalTargets(incident: Incident, targets: map<Logical, TargetState>, created: seq<Created>)
    requires Classified(incident, targets, created)
    ensures forall l: Logical :: l in targets
  {
  }

  /** `recover_incomplete_activation_v4`: without a full classification nothing is sent;
      and the incident counts as recovered if and only if the rollback was complete and no
      object that was classified as present was removed by somebody else before its
      deletion was requested. `since` counts the steps of everybody else before the
      classification began. */
  method RecoverIncident(world: World, incident: Incident, render: Render, bootstrap: Bootstrap,
                         preserved: seq<Preserved>, timing: Timing)
    returns (r: Result<Report>, recovered: bool, undo: Rollback?, ghost targets: map<Logical, TargetState>, ghost since: nat)
    requires world.Valid() && Truthful(world, incident) && bootstrap.Valid() && timing.poll > 0
    modifies world
    ensures r == Err(Raised) ==> world.trace == old(world.trace)
    ensures recovered ==> r.Ok?
    ensures r.Ok? ==> undo != null && fresh(undo) && |old(world.foreign)| <= since
                      && Settles(undo, world, old(world.trace), incident, targets, since, r.value)
                      && (recovered <==> RollbackValid(incident.profile, targets, r.value))
                      && (recovered <==> r.value.complete && NothingWasTaken(undo, targets))
    ensures world.ledger == old(world.ledger)
  {
    recovered, undo, targets, since := false, null, map[], |world.foreign|;
    hide Truthful, Classified, AllPlaced, NothingWasTaken, RollbackValid, Settles, Owned, Cluster.Valid;
    var ready := Preflight(world, incident);
    if ready.Err? {
      r := Err(ready.fault);
      return;
    }
    since := |world.foreign|;
    var bound, states, created := BindRecoveryTargets(world, incident, render);
    targets := states;
    if bound.Err? {
      r := Err(bound.fault);
      return;
    }
    TotalTargets(incident, states, created);
    var preserving := CheckAgain(world, incident, since, states, created);
    if preserving.Err? {
      r := Err(preserving.fault);
      return;
    }
    var binding := CheckAgain(world, incident, since, states, created);
    if binding.Err? {
      r := Err(binding.fault);
      return;
    }
    r, recovered, undo := TakeDown(world, incident, render, bootstrap, preserved, timing, states, created, since);
  }

  /** When the rollback is complete and the incident all the same not recovered, somebody
      else removed an object after it had been classified as present, this rollback never
      requested its deletion, and no record claims that it did. */
  lemma SomebodyElseDidIt(undo: Rollback, incident: Incident, targets: map<Logical, TargetState>, start: seq<Event>,
                          since: nat, report: Report) returns (l: Logical, step: nat)
    requires Settles(undo, undo.world, start, incident, targets, since, report) && report.complete
    requires (forall l: Logical :: l in targets) && !RollbackValid(incident.profile, targets, report)
    ensures since <= step < |undo.world.foreign| && !IsAbsent(targets[l])
    ensures undo.world.foreign[step] == Removed(Target(l), targets[l].uid)
    ensures !Asked(undo.world.trace, |start|, Created(l, targets[l].uid, targets[l].version, true))
    ensures forall record <- report.deleted :: record.logical == l ==> record.AlreadyAbsent?
  {
    JudgedByItsEnding(undo, incident, targets, report);
    l :| LostToOthers(undo.world.foreign, undo.since, undo.world.trace, undo.from, l, targets[l]);
    step :| undo.since <= step < |undo.world.foreign| && undo.world.foreign[step] == Removed(Target(l), targets[l].uid);
    NeverSaysDeleted(EndingOf(undo), incident, targets, l);
  }

  lemma NeverSaysDeleted(e: Ending, incident: Incident, targets: map<Logical, TargetState>, l: Logical)
    requires InOrder(e) && Given(e.c, e.standing, e.missing, incident, targets) && l in targets && !IsAbsent(targets[l])
    requires !Asked(e.trace, e.from, Created(l, targets[l].uid, targets[l].version, true))
    ensures forall record <- e.deleted :: record.logical == l ==> record.AlreadyAbsent?
  {
    forall record | record in e.deleted && record.logical == l
      ensures record.AlreadyAbsent?
    {
      assert IsTrue(record, e.c.created, e.objects, e.trace, e.from);
      var item :| item in e.c.created && Tells(record, item, e.objects, e.trace, e.from);
      Classification(incident, targets, e.c.created, item);
      SameAsked(e.trace, e.from, item, Created(l, targets[l].uid, targets[l].version, true));
    }
  }
}
